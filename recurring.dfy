/**
 * The recurrence policy and the recurring-config normaliser of
 * src/lib/recurring-invoices.ts: how far one occurrence moves the schedule,
 * where a schedule starts, and how a submitted `recurring` object is cleaned.
 */
module Recurring {
  import opened Common
  import opened Dates

  /**
   * The `recurring` sub-document of an invoice. A missing string is "", a missing
   * number or flag is `None`; `frequency` is kept as the stored string because the
   * policy treats every unknown value like a missing one.
   */
  datatype RecurringConfig = RecurringConfig(
    enabled: bool,
    frequency: string,
    intervalDays: Option<int>,
    dueInDays: Option<int>,
    nextRunDate: string,
    autoGeneratePdf: Option<bool>,
    lastRunAt: Option<int>,
    sourceInvoiceId: Option<nat>)

  /** The four frequencies the policy recognises. */
  predicate IsFrequency(f: string) {
    f == "daily" || f == "weekly" || f == "monthly" || f == "every_n_days"
  }

  /** `Math.max(1, recurring.intervalDays || 1)`: a missing, zero or negative interval is one day. */
  function IntervalStep(cfg: RecurringConfig): (n: nat)
    ensures n >= 1
    ensures cfg.intervalDays.Some? && cfg.intervalDays.value >= 1 ==> n == cfg.intervalDays.value
  {
    match cfg.intervalDays
    case Some(k) => if k >= 1 then k else 1
    case None => 1
  }

  /** `Math.max(0, recurring.dueInDays ?? 14)` */
  function DueInDays(cfg: RecurringConfig): (n: nat)
    ensures cfg.dueInDays.None? ==> n == 14
  {
    match cfg.dueInDays
    case Some(k) => if k >= 0 then k else 0
    case None => 14
  }

  /**
   * `nextRunByFrequency(date, recurring)`: daily adds a day, weekly seven,
   * every_n_days the interval, and anything else (monthly, missing or unknown)
   * one calendar month with the day clamped.
   */
  function NextRun(d: Date, cfg: RecurringConfig): (r: Date)
    requires Valid(d)
    ensures Valid(r)
    ensures DayNumber(r) > DayNumber(d)
    ensures cfg.frequency == "daily" ==> DayNumber(r) == DayNumber(d) + 1
    ensures cfg.frequency == "weekly" ==> DayNumber(r) == DayNumber(d) + 7
    ensures cfg.frequency == "every_n_days" ==> DayNumber(r) == DayNumber(d) + IntervalStep(cfg)
  {
    if cfg.frequency == "daily" then AddDays(d, 1)
    else if cfg.frequency == "weekly" then AddDays(d, 7)
    else if cfg.frequency == "every_n_days" then AddDays(d, IntervalStep(cfg))
    else AddMonthsClamped(d, 1)
  }

  /** Any frequency other than the three day-based ones schedules monthly. */
  lemma NextRunDefaultsToMonthly(d: Date, cfg: RecurringConfig)
    requires Valid(d)
    requires cfg.frequency != "daily" && cfg.frequency != "weekly" && cfg.frequency != "every_n_days"
    ensures NextRun(d, cfg) == AddMonthsClamped(d, 1)
    ensures NextRun(d, cfg) == NextRun(d, cfg.(frequency := "monthly"))
  {
  }

  /** The schedule `k` occurrences after `start`. */
  function Iterate(start: Date, cfg: RecurringConfig, k: nat): (r: Date)
    requires Valid(start)
    ensures Valid(r)
  {
    if k == 0 then start else NextRun(Iterate(start, cfg, k - 1), cfg)
  }

  /** Strict forward progress: later occurrences are strictly later dates, so a schedule never cycles. */
  lemma IterateStep(start: Date, cfg: RecurringConfig, k: nat)
    requires Valid(start) && k >= 1
    ensures DayNumber(Iterate(start, cfg, k)) > DayNumber(Iterate(start, cfg, k - 1))
  {
    assert Iterate(start, cfg, k) == NextRun(Iterate(start, cfg, k - 1), cfg);
  }

  /** A strictly increasing integer sequence grows by at least one per step. */
  lemma {:induction false} IncreasingGap(f: nat -> int, j: nat, k: nat)
    requires forall i: nat :: f(i) < f(i + 1)
    requires j <= k
    ensures f(k) - f(j) >= k - j
    decreases k
  {
    if j < k {
      IncreasingGap(f, j, k - 1);
      assert f(k - 1) < f(k);
    }
  }

  lemma IterateIncreasing(start: Date, cfg: RecurringConfig, j: nat, k: nat)
    requires Valid(start) && j < k
    ensures DayNumber(Iterate(start, cfg, k)) - DayNumber(Iterate(start, cfg, j)) >= k - j
  {
    var f := (i: nat) => DayNumber(Iterate(start, cfg, i));
    forall i: nat ensures f(i) < f(i + 1) {
      IterateStep(start, cfg, i + 1);
    }
    IncreasingGap(f, j, k);
  }

  /** With a daily schedule the `k`-th occurrence is exactly `k` days after the start. */
  lemma {:induction false} IterateDaily(start: Date, cfg: RecurringConfig, k: nat)
    requires Valid(start) && cfg.frequency == "daily"
    ensures DayNumber(Iterate(start, cfg, k)) == DayNumber(start) + k
  {
    if k > 0 {
      IterateDaily(start, cfg, k - 1);
    }
  }

  /**
   * `computeFirstNextRunDate(invoiceDate, recurring)`: one step of the policy after the
   * invoice's own date, or `None` when that date does not parse.
   */
  function FirstNextRun(invoiceDate: string, cfg: RecurringConfig): (r: Option<Date>)
    ensures r.Some? <==> ParseDate(invoiceDate).Some?
    ensures r.Some? ==> Valid(r.value) && DayNumber(r.value) > DayNumber(ParseDate(invoiceDate).value)
  {
    match ParseDate(invoiceDate)
    case None => None
    case Some(base) => Some(NextRun(base, cfg))
  }

  /**
   * The config a client submits. `dueInDays` holds `Number(recurringInput.dueInDays)`
   * when that is finite, `None` otherwise; `intervalDays` holds the submitted number,
   * `None` when it is missing or falsy.
   */
  datatype RecurringInput = RecurringInput(
    enabled: bool,
    frequency: string,
    intervalDays: Option<int>,
    dueInDays: Option<int>,
    nextRunDate: string,
    autoGeneratePdf: Option<bool>,
    lastRunAt: Option<int>,
    sourceInvoiceId: Option<nat>)

  /** The day difference between two parsed dates, as `Math.round((due - issue) / 86400000)` gives it. */
  function DayDifference(issue: string, due: string): (r: Option<int>)
    ensures r.Some? <==> ParseDate(issue).Some? && ParseDate(due).Some?
  {
    match (ParseDate(issue), ParseDate(due))
    case (Some(a), Some(b)) => Some(DayNumber(b) - DayNumber(a))
    case _ => None
  }

  /** `normalizeRecurringConfig(recurringInput, invoiceDate, invoiceDueDate)` */
  function Normalize(input: RecurringInput, invoiceDate: string, invoiceDueDate: string): (r: RecurringConfig)
    ensures IsFrequency(r.frequency)
    ensures r.intervalDays.Some? && r.intervalDays.value >= 1
    ensures r.dueInDays.Some? && r.dueInDays.value >= 0
    ensures r.autoGeneratePdf == Some(input.autoGeneratePdf != Some(false))
    ensures !r.enabled ==> r.nextRunDate == []
  {
    var frequency := if IsFrequency(input.frequency) then input.frequency else "monthly";
    var intervalDays := match input.intervalDays
      case Some(k) => if k >= 1 then k else 1
      case None => 1;
    var dueInDays := match input.dueInDays
      case Some(k) => if k >= 0 then k else 0
      case None =>
        match DayDifference(invoiceDate, invoiceDueDate)
        case Some(diff) => if diff >= 0 then diff else 0
        case None => 14;
    var nextRunDate :=
      if !input.enabled then []
      else match ParseDate(input.nextRunDate)
        case Some(requested) => FormatDate(requested)
        case None =>
          match FirstNextRun(invoiceDate, RecurringConfig(false, frequency, Some(intervalDays), None, [], None, None, None))
          case Some(computed) => FormatDate(computed)
          case None => [];
    RecurringConfig(input.enabled, frequency, Some(intervalDays), Some(dueInDays), nextRunDate,
                    Some(input.autoGeneratePdf != Some(false)), input.lastRunAt, input.sourceInvoiceId)
  }

  /** A normalised config read back as input. */
  function AsInput(c: RecurringConfig): RecurringInput {
    RecurringInput(c.enabled, c.frequency, c.intervalDays, c.dueInDays, c.nextRunDate,
                   c.autoGeneratePdf, c.lastRunAt, c.sourceInvoiceId)
  }

  /**
   * Where an enabled config's schedule starts: a requested date that parses wins,
   * otherwise the first run after the invoice date; "" only when neither parses.
   */
  lemma NormalizeNextRunDate(input: RecurringInput, invoiceDate: string, invoiceDueDate: string)
    requires input.enabled
    ensures var r := Normalize(input, invoiceDate, invoiceDueDate);
      && (ParseDate(input.nextRunDate).Some? ==> r.nextRunDate == FormatDate(ParseDate(input.nextRunDate).value))
      && (ParseDate(input.nextRunDate).None? && ParseDate(invoiceDate).Some? ==>
            r.nextRunDate == FormatDate(NextRun(ParseDate(invoiceDate).value, r)))
      && (r.nextRunDate == [] <==> ParseDate(input.nextRunDate).None? && ParseDate(invoiceDate).None?)
  {
  }

  /** The due-in days: the explicit value clamped at zero, else the invoice's own due-minus-issue days, else 14. */
  lemma NormalizeDueInDays(input: RecurringInput, invoiceDate: string, invoiceDueDate: string)
    ensures var r := Normalize(input, invoiceDate, invoiceDueDate);
      && (input.dueInDays.Some? && input.dueInDays.value >= 0 ==> r.dueInDays == input.dueInDays)
      && (input.dueInDays.None? && ParseDate(invoiceDate).Some? && ParseDate(invoiceDueDate).Some? ==>
            r.dueInDays.value == (var diff := DayNumber(ParseDate(invoiceDueDate).value) - DayNumber(ParseDate(invoiceDate).value);
                                  if diff >= 0 then diff else 0))
      && (input.dueInDays.None? && (ParseDate(invoiceDate).None? || ParseDate(invoiceDueDate).None?) ==> r.dueInDays == Some(14))
  {
  }

  /** Normalising an already normalised config changes nothing. */
  lemma NormalizeIdempotent(input: RecurringInput, invoiceDate: string, invoiceDueDate: string)
    ensures var once := Normalize(input, invoiceDate, invoiceDueDate);
      Normalize(AsInput(once), invoiceDate, invoiceDueDate) == once
  {
    var once := Normalize(input, invoiceDate, invoiceDueDate);
    var twice := Normalize(AsInput(once), invoiceDate, invoiceDueDate);
    var policy := RecurringConfig(false, once.frequency, once.intervalDays, None, [], None, None, None);
    assert twice.frequency == once.frequency;
    assert twice.intervalDays == once.intervalDays;
    assert twice.dueInDays == once.dueInDays;
    if input.enabled {
      var first := FirstNextRun(invoiceDate, policy);
      match ParseDate(input.nextRunDate)
      case Some(requested) =>
        ParseFormat(requested);
      case None =>
        assert once.nextRunDate == if first.Some? then FormatDate(first.value) else [];
        if first.Some? {
          if first.value.year <= 9999 {
            ParseFormat(first.value);
          } else {
            ExpandedYearUnparsed(first.value);
          }
        }
        assert twice.nextRunDate == once.nextRunDate;
    }
  }
}
