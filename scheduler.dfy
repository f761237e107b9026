/**
 * The recurring-invoice pass of src/lib/recurring-invoices.ts: every enabled,
 * non-template invoice is a source; each of its due occurrences up to today
 * (at most 24 per pass) becomes a cloned invoice in the store, and the
 * source's schedule pointer then moves to the first occurrence not produced.
 * The clock (`today`, `now`), the calendar year used for numbering and the
 * PDF renderer are parameters.
 */
module Scheduler {
  import opened Common
  import opened Dates
  import opened Recurring
  import opened Invoices
  import opened InvoiceNumbers
  import opened InvoiceStore

  /** The most clones one source gets in one pass. */
  const Cap: nat := 24

  /** What the PDF renderer does with a freshly saved clone. */
  datatype PdfResult = PdfSaved(pdfPath: string) | PdfNotSaved | PdfThrew

  /** The `recurring` object a clone carries. */
  function ChildRecurring(sourceId: nat): RecurringConfig {
    RecurringConfig(false, [], None, None, [], Some(true), None, Some(sourceId))
  }

  /** The clone with every field it resets blanked, for comparing the rest with the source. */
  function Unscheduled(inv: Invoice): Invoice {
    inv.(id := 0, createdAt := 0,
         invoice := inv.invoice.(number := [], date := [], dueDate := []),
         status := [], amountPaid := 0.0, financial := inv.financial.(amountPaid := 0.0),
         pdfPath := [], recurring := ChildRecurring(0))
  }

  /**
   * `cloneRecurringInvoice(source, runDate, dueInDays)` before the store assigns
   * the id and the creation time: the new number, issue date `runDate`, due date
   * `dueInDays` later, unpaid with nothing paid, no PDF, and a child `recurring`;
   * every other field is the source's.
   */
  function ClonePayload(src: Invoice, runDate: Date, dueInDays: nat, number: string): (c: Invoice)
    requires Valid(runDate)
    ensures Unscheduled(c) == Unscheduled(src)
    ensures c.invoice.number == number && c.invoice.date == FormatDate(runDate)
    ensures c.invoice.dueDate == FormatDate(AddDays(runDate, dueInDays))
    ensures c.status == "unpaid" && c.amountPaid == 0.0 && c.financial.amountPaid == 0.0 && c.pdfPath == []
    ensures c.recurring == ChildRecurring(src.id)
  {
    var due := AddDays(runDate, dueInDays);
    src.(invoice := src.invoice.(number := number, date := FormatDate(runDate), dueDate := FormatDate(due)),
         status := "unpaid", amountPaid := 0.0, financial := src.financial.(amountPaid := 0.0),
         pdfPath := [], recurring := ChildRecurring(src.id))
  }

  /** A clone of a document that passed the schema passes it too, given a number. */
  lemma CloneSchemaValid(src: Invoice, runDate: Date, dueInDays: nat, number: string)
    requires Valid(runDate) && SchemaValid(src) && number != []
    ensures SchemaValid(ClonePayload(src, runDate, dueInDays, number))
  {
  }

  /**
   * The clone's dates read back as the run date and, `dueInDays` later, the due date
   * (a due date past year 9999 does not read back at all).
   */
  lemma CloneDates(src: Invoice, runDate: Date, dueInDays: nat, number: string)
    requires Valid(runDate)
    ensures var c := ClonePayload(src, runDate, dueInDays, number);
      && (runDate.year <= 9999 ==> ParseDate(c.invoice.date) == Some(runDate))
      && (ParseDate(c.invoice.dueDate).Some? ==>
            DayNumber(ParseDate(c.invoice.dueDate).value) == DayNumber(runDate) + dueInDays)
  {
    DatesRoundTrip(runDate, AddDays(runDate, dueInDays));
  }

  /** A formatted date reads back as itself, or not at all once the year needs more than four digits. */
  lemma DatesRoundTrip(a: Date, b: Date)
    requires Valid(a) && Valid(b)
    ensures a.year <= 9999 ==> ParseDate(FormatDate(a)) == Some(a)
    ensures ParseDate(FormatDate(b)).Some? ==> ParseDate(FormatDate(b)) == Some(b)
  {
    if a.year <= 9999 {
      ParseFormat(a);
    }
    if b.year <= 9999 {
      ParseFormat(b);
    } else {
      ExpandedYearUnparsed(b);
    }
  }

  /** The clone's `pdfPath` once the renderer has run: set only on success, never when PDFs are switched off. */
  function PdfPathAfter(cfg: RecurringConfig, pdf: Invoice -> PdfResult, saved: Invoice): (path: string)
    ensures cfg.autoGeneratePdf == Some(false) ==> path == saved.pdfPath
    ensures !pdf(saved).PdfSaved? ==> path == saved.pdfPath
  {
    if cfg.autoGeneratePdf == Some(false) then saved.pdfPath
    else match pdf(saved)
      case PdfSaved(p) => p
      case _ => saved.pdfPath
  }

  /** Where a source's schedule stands: its stored pointer, else the first run after its own date. */
  function ScheduleStart(src: Invoice): (r: Option<Date>)
    ensures r.Some? ==> Valid(r.value)
    ensures r.None? <==> ParseDate(src.recurring.nextRunDate).None? && ParseDate(src.invoice.date).None?
  {
    match ParseDate(src.recurring.nextRunDate)
    case Some(d) => Some(d)
    case None => FirstNextRun(src.invoice.date, src.recurring)
  }

  /* ---------- The backfill loop ---------- */

  /**
   * `g` is the number of clones one pass makes for a schedule standing at `first`, whose
   * `k`-th occurrence is `Iterate(first, cfg, k)`: at most 24, every occurrence taken is
   * due by `today`, and the pass stops at the cap or at the first occurrence after today.
   */
  ghost predicate PassOf(first: Date, cfg: RecurringConfig, today: Date, g: nat)
    requires Valid(first) && Valid(today)
  {
    && g <= Cap
    && DueThrough(first, cfg, today, g)
    && (g == Cap || DayNumber(Iterate(first, cfg, g)) > DayNumber(today))
  }

  /** The first `g` occurrences from `first` are all due by `today`. */
  ghost predicate DueThrough(first: Date, cfg: RecurringConfig, today: Date, g: nat)
    requires Valid(first) && Valid(today)
  {
    forall k: nat :: k < g ==> DayNumber(Iterate(first, cfg, k)) <= DayNumber(today)
  }

  lemma DueThroughNext(first: Date, cfg: RecurringConfig, today: Date, g: nat)
    requires Valid(first) && Valid(today) && DueThrough(first, cfg, today, g) && DayNumber(Iterate(first, cfg, g)) <= DayNumber(today)
    ensures DueThrough(first, cfg, today, g + 1)
  {
  }

  /** At most one length fits: the schedule and the day determine the pass. */
  lemma PassUnique(first: Date, cfg: RecurringConfig, today: Date, g1: nat, g2: nat)
    requires Valid(first) && Valid(today)
    requires PassOf(first, cfg, today, g1) && PassOf(first, cfg, today, g2)
    ensures g1 == g2
  {
  }

  /** The dates a pass clones are strictly increasing, so no occurrence is cloned twice. */
  lemma PassChronological(first: Date, cfg: RecurringConfig, today: Date, g: nat)
    requires Valid(first) && Valid(today) && PassOf(first, cfg, today, g)
    ensures forall i: nat, j: nat :: i < j < g ==> DayNumber(Iterate(first, cfg, i)) < DayNumber(Iterate(first, cfg, j))
  {
    forall i: nat, j: nat | i < j < g
      ensures DayNumber(Iterate(first, cfg, i)) < DayNumber(Iterate(first, cfg, j))
    {
      IterateIncreasing(first, cfg, i, j);
    }
  }

  /** A daily schedule backfills every missed day up to the cap, and nothing when it starts after today. */
  lemma PassDaily(first: Date, cfg: RecurringConfig, today: Date, g: nat)
    requires Valid(first) && Valid(today) && cfg.frequency == "daily" && PassOf(first, cfg, today, g)
    ensures var missed := DayNumber(today) - DayNumber(first) + 1;
      g == if missed <= 0 then 0 else if missed < Cap then missed else Cap
  {
    IterateDaily(first, cfg, g);
    if g > 0 {
      IterateDaily(first, cfg, g - 1);
    }
  }

  /** The source as the final `updateOne` leaves it. */
  function AfterPass(inv: Invoice, srcId: nat, pointer: string, generated: nat, now: int, lastRunAt: Option<int>): Invoice {
    Rescheduled(inv, srcId, pointer, if generated > 0 then Some(now) else lastRunAt)
  }

  /**
   * A second pass on the same day makes nothing unless the first stopped at the cap;
   * in both cases it resumes at the first occurrence not yet cloned.
   */
  lemma SecondPass(src: Invoice, today: Date, now: int, g: nat)
    requires Valid(today) && ScheduleStart(src).Some?
    requires PassOf(ScheduleStart(src).value, src.recurring, today, g)
    ensures var e := Iterate(ScheduleStart(src).value, src.recurring, g);
      var again := AfterPass(src, src.id, FormatDate(e), g, now, src.recurring.lastRunAt);
      e.year <= 9999 ==>
        && ScheduleStart(again) == Some(e)
        && (g < Cap ==> PassOf(e, src.recurring, today, 0))
  {
    var e := Iterate(ScheduleStart(src).value, src.recurring, g);
    if e.year <= 9999 {
      ParseFormat(e);
    }
  }

  /** The clone made for the occurrence `runDate` under number `number`, once saved with `id` and rendered. */
  function CloneAt(src: Invoice, runDate: Date, id: nat, now: int, pdf: Invoice -> PdfResult, number: string): Invoice
    requires Valid(runDate)
  {
    var saved := ClonePayload(src, runDate, DueInDays(src.recurring), number).(id := id, createdAt := now);
    saved.(pdfPath := PdfPathAfter(src.recurring, pdf, saved))
  }

  /**
   * `c` is the clone made for the occurrence `runDate` with store id `id`: the payload
   * with the id and creation time the store gave it, then the renderer's outcome, and a
   * number from this year's series.
   */
  ghost predicate IsClone(c: Invoice, src: Invoice, runDate: Date, id: nat, now: int, pdf: Invoice -> PdfResult, year: nat, number: string) {
    && Valid(runDate)
    && StartsWith(number, YearPrefix(year))
    && c == CloneAt(src, runDate, id, now, pdf, number)
  }

  /**
   * `clones` are the clones made for the first `|clones|` occurrences from `first`, in
   * order, the `j`-th with the `j`-th id from `firstId` on and the `j`-th number.
   */
  ghost predicate ClonesOf(clones: seq<Invoice>, numbers: seq<string>, src: Invoice, first: Date, firstId: nat, now: int, pdf: Invoice -> PdfResult, year: nat) {
    && |numbers| == |clones|
    && forall j :: 0 <= j < |clones| ==> InSeries(clones[j], numbers[j], j, src, first, firstId, now, pdf, year)
  }

  /** `c` is the clone for the `j`-th occurrence from `first`, saved with the `j`-th id from `firstId` on. */
  ghost predicate InSeries(c: Invoice, number: string, j: nat, src: Invoice, first: Date, firstId: nat, now: int, pdf: Invoice -> PdfResult, year: nat) {
    && Valid(first)
    && c.id == firstId + j
    && IsClone(c, src, Iterate(first, src.recurring, j), firstId + j, now, pdf, year, number)
  }

  /**
   * The store after one source's pass of `g` clones, compared with the store before it:
   * the documents already there are as they were except the source's schedule fields,
   * and the clones, one per occurrence taken, follow them in order.
   */
  ghost predicate PassEffect(before: seq<Invoice>, after: seq<Invoice>, numbers: seq<string>, src: Invoice, first: Date, g: nat, pointer: Date,
                             now: int, year: nat, pdf: Invoice -> PdfResult, firstId: nat)
  {
    && Valid(pointer)
    && |after| == |before| + g
    && (forall i :: 0 <= i < |before| ==>
          after[i] == AfterPass(before[i], src.id, FormatDate(pointer), g, now, src.recurring.lastRunAt))
    && ClonesOf(after[|before|..], numbers, src, first, firstId, now, pdf, year)
  }

  /**
   * One turn of the backfill loop: `cloneRecurringInvoice` (the next number of the year,
   * the payload, `save()`), then, unless PDFs are switched off, the renderer, whose path
   * is saved only when it succeeds; a renderer that throws leaves the clone as saved.
   */
  method CloneOne(store: Store, src: Invoice, runDate: Date, now: int, year: nat, pdf: Invoice -> PdfResult)
    returns (c: Invoice, number: string)
    requires store.Valid() && Valid(runDate) && SchemaValid(src)
    modifies store
    ensures store.Valid() && store.nextId == old(store.nextId) + 1
    ensures store.invoices == old(store.invoices) + [c]
    ensures c.id == old(store.nextId) && IsClone(c, src, runDate, old(store.nextId), now, pdf, year, number)
  {
    number := NextInvoiceNumber(year, NumbersOf(store.invoices));
    NextInvoiceNumberFresh(year, NumbersOf(store.invoices));
    var payload := ClonePayload(src, runDate, DueInDays(src.recurring), number);
    CloneSchemaValid(src, runDate, DueInDays(src.recurring), number);
    var outcome := store.Save(payload, now);
    var saved := outcome.inv;
    c := saved;
    if src.recurring.autoGeneratePdf != Some(false) {
      var result := pdf(saved);
      if result.PdfSaved? {
        ghost var prefix := old(store.invoices);
        store.SetPdfPath(saved.id, result.pdfPath);
        PathOnLast(prefix, saved, store.invoices, result.pdfPath);
        c := saved.(pdfPath := result.pdfPath);
      }
    }
    assert c == CloneAt(src, runDate, saved.id, now, pdf, number);
  }

  /** Setting the path of the document just appended leaves every earlier document as it was. */
  lemma PathOnLast(prefix: seq<Invoice>, saved: Invoice, after: seq<Invoice>, path: string)
    requires IdsBelow(prefix, saved.id) && |after| == |prefix| + 1
    requires forall i :: 0 <= i < |after| ==> after[i] == WithPdfPath((prefix + [saved])[i], saved.id, path)
    ensures after == prefix + [saved.(pdfPath := path)]
  {
    forall i | 0 <= i < |prefix|
      ensures after[i] == prefix[i]
    {
      assert (prefix + [saved])[i] == prefix[i];
    }
    assert (prefix + [saved])[|prefix|] == saved;
  }

  /** One more clone, for the next occurrence, extends the series. */
  lemma ClonesOfAppend(clones: seq<Invoice>, numbers: seq<string>, src: Invoice, first: Date, firstId: nat, now: int,
                        pdf: Invoice -> PdfResult, year: nat, c: Invoice, number: string)
    requires ClonesOf(clones, numbers, src, first, firstId, now, pdf, year)
    requires InSeries(c, number, |clones|, src, first, firstId, now, pdf, year)
    ensures ClonesOf(clones + [c], numbers + [number], src, first, firstId, now, pdf, year)
  {
    var cs, ns := clones + [c], numbers + [number];
    forall j | 0 <= j < |cs|
      ensures InSeries(cs[j], ns[j], j, src, first, firstId, now, pdf, year)
    {
      if j < |clones| {
        assert cs[j] == clones[j] && ns[j] == numbers[j];
      } else {
        assert j == |clones| && cs[j] == c && ns[j] == number;
      }
    }
  }

  /**
   * The store after the final `updateOne`, given the store the loop left: the documents
   * that were there before keep all but the source's schedule fields, and the clones,
   * whose ids are all past the source's, are untouched.
   */
  lemma RescheduleEffect(before: seq<Invoice>, clones: seq<Invoice>, numbers: seq<string>, after: seq<Invoice>, src: Invoice, first: Date,
                         pointer: Date, now: int, year: nat, pdf: Invoice -> PdfResult, firstId: nat)
    requires Valid(first) && Valid(pointer) && src.id < firstId
    requires ClonesOf(clones, numbers, src, first, firstId, now, pdf, year)
    requires |after| == |before| + |clones|
    requires forall i :: 0 <= i < |after| ==>
      after[i] == Rescheduled((before + clones)[i], src.id, FormatDate(pointer), if |clones| > 0 then Some(now) else src.recurring.lastRunAt)
    ensures PassEffect(before, after, numbers, src, first, |clones|, pointer, now, year, pdf, firstId)
  {
    forall i | 0 <= i < |before|
      ensures after[i] == AfterPass(before[i], src.id, FormatDate(pointer), |clones|, now, src.recurring.lastRunAt)
    {
      assert (before + clones)[i] == before[i];
    }
    var tail := after[|before|..];
    forall j | 0 <= j < |tail|
      ensures tail[j] == clones[j]
    {
      assert (before + clones)[|before| + j] == clones[j];
    }
    assert tail == clones;
  }

  lemma AppendOne<T>(a: seq<T>, b: seq<T>, x: T)
    ensures (a + b) + [x] == a + (b + [x])
  {
  }

  /**
   * Where the backfill loop stands after `generated` turns: the occurrences taken were
   * all due, and the store holds the documents it had before followed by their clones.
   */
  ghost predicate Progress(invs: seq<Invoice>, before: seq<Invoice>, clones: seq<Invoice>, numbers: seq<string>, src: Invoice,
                           first: Date, today: Date, firstId: nat, now: int, pdf: Invoice -> PdfResult, year: nat, generated: nat)
  {
    && Valid(first) && Valid(today)
    && generated <= Cap
    && DueThrough(first, src.recurring, today, generated)
    && invs == before + clones && |clones| == generated
    && ClonesOf(clones, numbers, src, first, firstId, now, pdf, year)
  }

  /** One turn of the backfill loop, for the occurrence `nextRun`, which is due. */
  method CloneNext(store: Store, src: Invoice, first: Date, today: Date, now: int, year: nat, pdf: Invoice -> PdfResult,
                   nextRun: Date, generated: nat, ghost before: seq<Invoice>, ghost firstId: nat,
                   ghost clones: seq<Invoice>, ghost numbers: seq<string>)
    returns (ghost clones': seq<Invoice>, ghost numbers': seq<string>)
    requires store.Valid() && SchemaValid(src) && store.nextId == firstId + generated
    requires Progress(store.invoices, before, clones, numbers, src, first, today, firstId, now, pdf, year, generated)
    requires nextRun == Iterate(first, src.recurring, generated) && DayNumber(nextRun) <= DayNumber(today) && generated < Cap
    modifies store
    ensures store.Valid() && store.nextId == firstId + generated + 1
    ensures Progress(store.invoices, before, clones', numbers', src, first, today, firstId, now, pdf, year, generated + 1)
  {
    var c, number := CloneOne(store, src, nextRun, now, year, pdf);
    ClonesOfAppend(clones, numbers, src, first, firstId, now, pdf, year, c, number);
    AppendOne(before, clones, c);
    DueThroughNext(first, src.recurring, today, generated);
    clones', numbers' := clones + [c], numbers + [number];
  }

  /**
   * The `while (nextRun <= today && generated < MAX_BACKFILL_PER_RUN)` loop for one source
   * whose schedule stands at `first`: one clone per due occurrence, at most 24, appended in
   * order, and the pointer left at the first occurrence not cloned.
   */
  method Backfill(store: Store, src: Invoice, first: Date, today: Date, now: int, year: nat, pdf: Invoice -> PdfResult)
    returns (generated: nat, nextRun: Date, ghost clones: seq<Invoice>, ghost numbers: seq<string>)
    requires store.Valid() && Valid(first) && Valid(today) && SchemaValid(src)
    modifies store
    ensures store.Valid() && store.nextId == old(store.nextId) + generated
    ensures PassOf(first, src.recurring, today, generated) && nextRun == Iterate(first, src.recurring, generated)
    ensures store.invoices == old(store.invoices) + clones && |clones| == generated
    ensures ClonesOf(clones, numbers, src, first, old(store.nextId), now, pdf, year)
  {
    var cfg := src.recurring;
    nextRun := first;
    generated := 0;
    ghost var before := store.invoices;
    ghost var firstId := store.nextId;
    clones, numbers := [], [];
    while DayNumber(nextRun) <= DayNumber(today) && generated < Cap
      invariant store.Valid() && store.nextId == firstId + generated && nextRun == Iterate(first, cfg, generated)
      invariant Progress(store.invoices, before, clones, numbers, src, first, today, firstId, now, pdf, year, generated)
      decreases Cap - generated
    {
      clones, numbers := CloneNext(store, src, first, today, now, year, pdf, nextRun, generated, before, firstId, clones, numbers);
      assert Iterate(first, cfg, generated + 1) == NextRun(nextRun, cfg);
      generated := generated + 1;
      nextRun := NextRun(nextRun, cfg);
    }
  }

  /**
   * One iteration of the `for (const sourceInvoice of recurringInvoices)` loop: clone every
   * due occurrence (at most 24), then record the new pointer and, when anything was
   * made, the run time. A source whose schedule cannot be placed is skipped untouched.
   */
  method ProcessSource(store: Store, src: Invoice, today: Date, now: int, year: nat, pdf: Invoice -> PdfResult)
    returns (generated: nat, ghost numbers: seq<string>)
    requires store.Valid() && Valid(today) && SchemaValid(src) && src.id < store.nextId
    modifies store
    ensures store.Valid() && store.nextId == old(store.nextId) + generated
    ensures generated <= Cap && |store.invoices| == |old(store.invoices)| + generated
    ensures ScheduleStart(src).None? ==> generated == 0 && store.invoices == old(store.invoices)
    ensures ScheduleStart(src).Some? ==>
      && PassOf(ScheduleStart(src).value, src.recurring, today, generated)
      && PassEffect(old(store.invoices), store.invoices, numbers, src, ScheduleStart(src).value, generated,
                    Iterate(ScheduleStart(src).value, src.recurring, generated), now, year, pdf, old(store.nextId))
  {
    var start := ScheduleStart(src);
    if start.None? {
      return 0, [];
    }
    ghost var before := store.invoices;
    ghost var firstId := store.nextId;
    var nextRun;
    ghost var clones;
    generated, nextRun, clones, numbers := Backfill(store, src, start.value, today, now, year, pdf);
    store.SetSchedule(src.id, FormatDate(nextRun), if generated > 0 then Some(now) else src.recurring.lastRunAt);
    RescheduleEffect(before, clones, numbers, store.invoices, src, start.value, nextRun, now, year, pdf, firstId);
  }

  /** `Invoice.find({isTemplate: false, 'recurring.enabled': true})` */
  function Sources(invs: seq<Invoice>): (r: seq<Invoice>)
    ensures forall k :: 0 <= k < |r| ==> r[k] in invs && !r[k].isTemplate && r[k].recurring.enabled
    ensures forall i :: 0 <= i < |invs| && !invs[i].isTemplate && invs[i].recurring.enabled ==> invs[i] in r
    ensures |r| <= |invs|
  {
    if invs == [] then []
    else
      var rest := Sources(invs[..|invs| - 1]);
      var last := invs[|invs| - 1];
      assert forall k :: 0 <= k < |rest| ==> rest[k] in invs[..|invs| - 1];
      if !last.isTemplate && last.recurring.enabled then rest + [last] else rest
  }

  /** What `cloneRecurringInvoice` marks every clone with: not a schedule itself, and a link back to its source. */
  predicate IsChild(inv: Invoice) {
    !inv.recurring.enabled && inv.recurring.sourceInvoiceId.Some?
  }

  /** Every clone of a series is a child, never a new schedule. */
  lemma ClonesAreChildren(clones: seq<Invoice>, numbers: seq<string>, src: Invoice, first: Date, firstId: nat,
                          now: int, pdf: Invoice -> PdfResult, year: nat)
    requires ClonesOf(clones, numbers, src, first, firstId, now, pdf, year)
    ensures forall j :: 0 <= j < |clones| ==> IsChild(clones[j])
  {
    forall j | 0 <= j < |clones|
      ensures IsChild(clones[j])
    {
      CloneIsChild(clones[j], src, Iterate(first, src.recurring, j), firstId + j, now, pdf, year, numbers[j]);
    }
  }

  lemma CloneIsChild(c: Invoice, src: Invoice, runDate: Date, id: nat, now: int, pdf: Invoice -> PdfResult, year: nat, number: string)
    requires IsClone(c, src, runDate, id, now, pdf, year, number)
    ensures c.recurring == ChildRecurring(src.id)
  {
  }

  /**
   * What a run may have done to the store since `before`: the documents there keep
   * everything but their schedule fields, the ones that are not sources are untouched,
   * and everything appended is a child.
   */
  ghost predicate Kept(before: seq<Invoice>, cur: seq<Invoice>) {
    && |before| <= |cur|
    && (forall i :: 0 <= i < |before| ==> Unrescheduled(cur[i]) == Unrescheduled(before[i]))
    && (forall i :: 0 <= i < |before| && (before[i].isTemplate || !before[i].recurring.enabled) ==> cur[i] == before[i])
    && (forall i :: |before| <= i < |cur| ==> IsChild(cur[i]))
  }

  /** In a store with unique ids, the source is the only document with its id. */
  lemma OnlySourceHasItsId(before: seq<Invoice>, src: Invoice)
    requires IdsUnique(before) && src in before
    ensures forall i :: 0 <= i < |before| && before[i].id == src.id ==> before[i] == src
  {
  }

  /** One source's pass keeps what the run promises about the store. */
  lemma KeptAfterPass(before: seq<Invoice>, prev: seq<Invoice>, after: seq<Invoice>, numbers: seq<string>, src: Invoice, first: Date, g: nat,
                      pointer: Date, now: int, year: nat, pdf: Invoice -> PdfResult, firstId: nat)
    requires Valid(first) && Kept(before, prev) && src.recurring.enabled && !src.isTemplate
    requires forall i :: 0 <= i < |before| && before[i].id == src.id ==> before[i] == src
    requires PassEffect(prev, after, numbers, src, first, g, pointer, now, year, pdf, firstId)
    ensures Kept(before, after)
  {
    var lastRunAt := if g > 0 then Some(now) else src.recurring.lastRunAt;
    forall i | 0 <= i < |prev|
      ensures Unrescheduled(after[i]) == Unrescheduled(prev[i]) && IsChild(after[i]) == IsChild(prev[i])
      ensures after[i].id != src.id ==> after[i] == prev[i]
    {
      assert after[i] == Rescheduled(prev[i], src.id, FormatDate(pointer), lastRunAt);
    }
    forall i | 0 <= i < |before|
      ensures before[i].id == Unrescheduled(before[i]).id
    {
    }
    var tail := after[|prev|..];
    ClonesAreChildren(tail, numbers, src, first, firstId, now, pdf, year);
    forall i | |prev| <= i < |after|
      ensures IsChild(after[i])
    {
      assert after[i] == tail[i - |prev|];
    }
  }

  /** How many clones the first `k` sources got, together. */
  function Offset(counts: seq<nat>, k: nat): nat
    requires k <= |counts|
  {
    if k == 0 then 0 else Offset(counts, k - 1) + counts[k - 1]
  }

  lemma {:induction false} OffsetAppend(counts: seq<nat>, n: nat, k: nat)
    requires k <= |counts|
    ensures Offset(counts + [n], k) == Offset(counts, k)
  {
    if k > 0 {
      OffsetAppend(counts, n, k - 1);
      assert (counts + [n])[k - 1] == counts[k - 1];
    }
  }

  /**
   * One source's turn, taking the store from `prev` to `after`: a source whose schedule
   * cannot be placed is skipped and the store stays as it was; any other source gets
   * the pass of `g` occurrences its schedule and `today` call for, with clones numbered
   * from the id `clonesId`, and its pointer moves to the first occurrence not taken.
   */
  ghost predicate SourceStep(prev: seq<Invoice>, after: seq<Invoice>, src: Invoice, g: nat, numbers: seq<string>, clonesId: nat,
                             today: Date, now: int, year: nat, pdf: Invoice -> PdfResult)
    requires Valid(today)
  {
    match ScheduleStart(src)
    case None => g == 0 && after == prev
    case Some(first) =>
      && PassOf(first, src.recurring, today, g)
      && PassEffect(prev, after, numbers, src, first, g, Iterate(first, src.recurring, g), now, year, pdf, clonesId)
  }

  /**
   * The stores `states` a run goes through: the `k`-th source takes `states[k]` to
   * `states[k + 1]` by its own turn.
   */
  ghost predicate Passes(states: seq<seq<Invoice>>, sources: seq<Invoice>, counts: seq<nat>, numbers: seq<seq<string>>, firstId: nat,
                         today: Date, now: int, year: nat, pdf: Invoice -> PdfResult)
    requires Valid(today)
  {
    && |states| == |sources| + 1 && |counts| == |sources| && |numbers| == |sources|
    && forall k :: 0 <= k < |sources| ==> TurnAt(states, sources, counts, numbers, firstId, today, now, year, pdf, k)
  }

  /** The `k`-th source's turn in a run, its clones numbered after the `Offset(counts, k)` the sources before it got. */
  ghost predicate TurnAt(states: seq<seq<Invoice>>, sources: seq<Invoice>, counts: seq<nat>, numbers: seq<seq<string>>, firstId: nat,
                         today: Date, now: int, year: nat, pdf: Invoice -> PdfResult, k: nat)
    requires Valid(today) && k < |sources| && |states| == |sources| + 1 && |counts| == |sources| && |numbers| == |sources|
  {
    SourceStep(states[k], states[k + 1], sources[k], counts[k], numbers[k], firstId + Offset(counts, k), today, now, year, pdf)
  }

  /** One more source's turn extends the run. */
  lemma PassesStep(states: seq<seq<Invoice>>, sources: seq<Invoice>, counts: seq<nat>, numbers: seq<seq<string>>, firstId: nat,
                   today: Date, now: int, year: nat, pdf: Invoice -> PdfResult,
                   prev: seq<Invoice>, after: seq<Invoice>, src: Invoice, g: nat, nums: seq<string>, clonesId: nat,
                   states': seq<seq<Invoice>>, sources': seq<Invoice>, counts': seq<nat>, numbers': seq<seq<string>>)
    requires Valid(today) && Passes(states, sources, counts, numbers, firstId, today, now, year, pdf)
    requires SourceStep(prev, after, src, g, nums, clonesId, today, now, year, pdf)
    requires prev == states[|sources|] && clonesId == firstId + Offset(counts, |counts|)
    requires states' == states + [after] && sources' == sources + [src] && counts' == counts + [g] && numbers' == numbers + [nums]
    ensures Passes(states', sources', counts', numbers', firstId, today, now, year, pdf)
  {
    forall k | 0 <= k < |sources'|
      ensures TurnAt(states', sources', counts', numbers', firstId, today, now, year, pdf, k)
    {
      OffsetAppend(counts, g, k);
      if k < |sources| {
        TurnKept(states, sources, counts, numbers, firstId, today, now, year, pdf, k, states', sources', counts', numbers');
      } else {
        SameTurn(prev, after, src, g, nums, clonesId, states', sources', counts', numbers', firstId, today, now, year, pdf, k);
      }
    }
  }

  /** A turn already taken stays in the run as it goes on. */
  lemma TurnKept(states: seq<seq<Invoice>>, sources: seq<Invoice>, counts: seq<nat>, numbers: seq<seq<string>>, firstId: nat,
                 today: Date, now: int, year: nat, pdf: Invoice -> PdfResult, k: nat,
                 states': seq<seq<Invoice>>, sources': seq<Invoice>, counts': seq<nat>, numbers': seq<seq<string>>)
    requires Valid(today) && Passes(states, sources, counts, numbers, firstId, today, now, year, pdf) && k < |sources|
    requires |states'| == |sources'| + 1 && |counts'| == |sources'| && |numbers'| == |sources'| && k < |sources'|
    requires states'[k] == states[k] && states'[k + 1] == states[k + 1] && sources'[k] == sources[k]
    requires counts'[k] == counts[k] && numbers'[k] == numbers[k] && Offset(counts', k) == Offset(counts, k)
    ensures TurnAt(states', sources', counts', numbers', firstId, today, now, year, pdf, k)
  {
    assert TurnAt(states, sources, counts, numbers, firstId, today, now, year, pdf, k);
    SameTurn(states[k], states[k + 1], sources[k], counts[k], numbers[k], firstId + Offset(counts, k),
             states', sources', counts', numbers', firstId, today, now, year, pdf, k);
  }

  /** What `ProcessSource` promises is the source's turn. */
  lemma StepOfPass(prev: seq<Invoice>, after: seq<Invoice>, src: Invoice, g: nat, nums: seq<string>, clonesId: nat,
                   today: Date, now: int, year: nat, pdf: Invoice -> PdfResult)
    requires Valid(today)
    requires ScheduleStart(src).None? ==> g == 0 && after == prev
    requires ScheduleStart(src).Some? ==>
      && PassOf(ScheduleStart(src).value, src.recurring, today, g)
      && PassEffect(prev, after, nums, src, ScheduleStart(src).value, g, Iterate(ScheduleStart(src).value, src.recurring, g), now, year, pdf, clonesId)
    ensures SourceStep(prev, after, src, g, nums, clonesId, today, now, year, pdf)
  {
  }

  /** A turn read off a run is the turn it records. */
  lemma SameTurn(prev: seq<Invoice>, after: seq<Invoice>, src: Invoice, g: nat, nums: seq<string>, clonesId: nat,
                 states: seq<seq<Invoice>>, sources: seq<Invoice>, counts: seq<nat>, numbers: seq<seq<string>>, firstId: nat,
                 today: Date, now: int, year: nat, pdf: Invoice -> PdfResult, k: nat)
    requires Valid(today) && k < |sources| && |states| == |sources| + 1 && |counts| == |sources| && |numbers| == |sources|
    requires SourceStep(prev, after, src, g, nums, clonesId, today, now, year, pdf)
    requires states[k] == prev && states[k + 1] == after && sources[k] == src && counts[k] == g && numbers[k] == nums
    requires firstId + Offset(counts, k) == clonesId
    ensures TurnAt(states, sources, counts, numbers, firstId, today, now, year, pdf, k)
  {
  }

  /** A run appends exactly the clones its sources' turns made, `Offset(counts, k)` after `k` turns, and keeps the ids in place. */
  lemma {:induction false} PassesLength(states: seq<seq<Invoice>>, sources: seq<Invoice>, counts: seq<nat>, numbers: seq<seq<string>>,
                                        firstId: nat, today: Date, now: int, year: nat, pdf: Invoice -> PdfResult, k: nat)
    requires Valid(today) && Passes(states, sources, counts, numbers, firstId, today, now, year, pdf) && k <= |sources|
    ensures |states[k]| == |states[0]| + Offset(counts, k)
    ensures forall i :: 0 <= i < |states[0]| ==> states[k][i].id == states[0][i].id
  {
    if k > 0 {
      PassesLength(states, sources, counts, numbers, firstId, today, now, year, pdf, k - 1);
      assert TurnAt(states, sources, counts, numbers, firstId, today, now, year, pdf, k - 1);
      var src := sources[k - 1];
      match ScheduleStart(src)
      case None =>
      case Some(first) =>
        forall i | 0 <= i < |states[0]|
          ensures states[k][i].id == states[0][i].id
        {
          var pointer := FormatDate(Iterate(first, src.recurring, counts[k - 1]));
          assert states[k][i] == AfterPass(states[k - 1][i], src.id, pointer, counts[k - 1], now, src.recurring.lastRunAt);
        }
    }
  }

  /**
   * `processInternal()`: one pass over the sources found at its start, in order. The run
   * goes through the stores `states`, from the store it found to the one it leaves, each
   * source taking its own turn: every due occurrence of its schedule cloned (at most 24),
   * the clones appended after those of the sources before it, and its pointer and run
   * time recorded. Overall, documents that are not sources are never changed, sources
   * change only in their schedule fields, and every document appended is a child.
   */
  method ProcessAll(store: Store, today: Date, now: int, year: nat, pdf: Invoice -> PdfResult)
    returns (ghost states: seq<seq<Invoice>>, ghost counts: seq<nat>, ghost numbers: seq<seq<string>>)
    requires store.Valid() && Valid(today)
    modifies store
    ensures store.Valid()
    ensures RunSoFar(old(store.invoices), store.invoices, old(store.nextId), store.nextId, states, Sources(old(store.invoices)), counts, numbers,
                     today, now, year, pdf)
  {
    var sources := Sources(store.invoices);
    ghost var before := store.invoices;
    ghost var firstId := store.nextId;
    assert IdsUnique(before) && IdsBelow(before, firstId) && AllSchemaValid(before);
    states, counts, numbers := [before], [], [];
    var k := 0;
    while k < |sources|
      invariant 0 <= k <= |sources|
      invariant store.Valid() && RunSoFar(before, store.invoices, firstId, store.nextId, states, sources[..k], counts, numbers, today, now, year, pdf)
    {
      states, counts, numbers := TakeTurn(store, sources, k, today, now, year, pdf, before, firstId, states, counts, numbers);
      k := k + 1;
    }
    assert sources[..k] == sources;
  }

  /**
   * Where a run stands after the sources `done`: the documents found are kept as the run
   * promises, at most 24 clones per source were appended, the next id follows the
   * clones made, and the stores gone through are `states`, ending at `cur`.
   */
  ghost predicate RunSoFar(before: seq<Invoice>, cur: seq<Invoice>, firstId: nat, nextId: nat, states: seq<seq<Invoice>>, done: seq<Invoice>,
                           counts: seq<nat>, numbers: seq<seq<string>>, today: Date, now: int, year: nat, pdf: Invoice -> PdfResult)
    requires Valid(today)
  {
    && Kept(before, cur) && |cur| <= |before| + Cap * |done|
    && Passes(states, done, counts, numbers, firstId, today, now, year, pdf)
    && nextId == firstId + Offset(counts, |counts|)
    && states[0] == before && states[|done|] == cur
  }

  /** A document of a valid store is schema-valid and has an id below the next one. */
  lemma SourceFits(before: seq<Invoice>, src: Invoice, firstId: nat)
    requires src in before && AllSchemaValid(before) && IdsBelow(before, firstId)
    ensures SchemaValid(src) && src.id < firstId
  {
    var i :| 0 <= i < |before| && before[i] == src;
  }

  /** The loop body of `processInternal()`: the `k`-th source takes its turn. */
  method TakeTurn(store: Store, sources: seq<Invoice>, k: nat, today: Date, now: int, year: nat, pdf: Invoice -> PdfResult,
                  ghost before: seq<Invoice>, ghost firstId: nat, ghost states: seq<seq<Invoice>>,
                  ghost counts: seq<nat>, ghost numbers: seq<seq<string>>)
    returns (ghost states': seq<seq<Invoice>>, ghost counts': seq<nat>, ghost numbers': seq<seq<string>>)
    requires store.Valid() && Valid(today) && k < |sources|
    requires IdsUnique(before) && IdsBelow(before, firstId) && AllSchemaValid(before)
    requires forall j :: 0 <= j < |sources| ==> sources[j] in before && !sources[j].isTemplate && sources[j].recurring.enabled
    requires RunSoFar(before, store.invoices, firstId, store.nextId, states, sources[..k], counts, numbers, today, now, year, pdf)
    modifies store
    ensures store.Valid()
    ensures RunSoFar(before, store.invoices, firstId, store.nextId, states', sources[..k + 1], counts', numbers', today, now, year, pdf)
  {
    var src := sources[k];
    OnlySourceHasItsId(before, src);
    SourceFits(before, src, firstId);
    assert sources[..k + 1] == sources[..k] + [src];
    ghost var prev := store.invoices;
    ghost var prevId := store.nextId;
    var n, nums := ProcessSource(store, src, today, now, year, pdf);
    if ScheduleStart(src).Some? {
      var first := ScheduleStart(src).value;
      KeptAfterPass(before, prev, store.invoices, nums, src, first, n, Iterate(first, src.recurring, n), now, year, pdf, prevId);
    }
    StepOfPass(prev, store.invoices, src, n, nums, prevId, today, now, year, pdf);
    PassesStep(states, sources[..k], counts, numbers, firstId, today, now, year, pdf, prev, store.invoices, src, n, nums, prevId,
               states + [store.invoices], sources[..k + 1], counts + [n], numbers + [nums]);
    OffsetAppend(counts, n, |counts|);
    states', counts', numbers' := states + [store.invoices], counts + [n], numbers + [nums];
  }

  /** A document with its schedule fields blanked: what a pass may change on a source. */
  function Unrescheduled(inv: Invoice): Invoice {
    inv.(recurring := inv.recurring.(nextRunDate := [], lastRunAt := None))
  }
}
