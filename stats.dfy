/**
 * GET /api/invoices/stats/summary (src/app/api/invoices/stats/summary/route.ts):
 * run the recurring pass, count invoices and templates, split every
 * non-template's flat total into paid, partially paid and unpaid revenue, and
 * project the ten newest invoices. Rounding to cents is left abstract.
 */
module Stats {
  import opened Common
  import opened Dates
  import opened Recurring
  import opened Invoices
  import opened InvoiceStore
  import opened Scheduler

  /**
   * The total this route computes: subtotal plus tax plus shipping minus discounts,
   * all as flat amounts and whatever the `fields` flags say.
   */
  function FlatTotal(inv: Invoice): real {
    Subtotal(inv.items) + inv.financial.tax + inv.financial.shipping - inv.financial.discounts
  }

  /**
   * How the route's total relates to the model's `total` under a flat tax: it
   * subtracts the discount and adds the shipping that the switched-off flags drop.
   */
  lemma FlatTotalVersusTotal(inv: Invoice)
    requires inv.fields.tax != "%" && inv.financial.tax >= 0.0
    ensures FlatTotal(inv) == Total(inv) + DiscountApplied(inv) - inv.financial.discounts
                                         + inv.financial.shipping - ShippingApplied(inv)
    ensures inv.fields.discounts && inv.fields.shipping ==> FlatTotal(inv) == Total(inv)
  {
    TotalFormula(inv);
  }

  /* ---------- Revenue ---------- */

  /** The three running sums of the route. */
  datatype Revenue = Revenue(paid: real, partial: real, unpaid: real)

  /**
   * One step of the `forEach`: a paid invoice adds its total to revenue, a partial one
   * adds what was paid to the partial sum and the rest to unpaid, anything else is unpaid.
   */
  function Credit(acc: Revenue, inv: Invoice): Revenue {
    var total := FlatTotal(inv);
    if inv.status == "paid" then acc.(paid := acc.paid + total)
    else if inv.status == "partial" then
      acc.(partial := acc.partial + inv.amountPaid, unpaid := acc.unpaid + (total - inv.amountPaid))
    else acc.(unpaid := acc.unpaid + total)
  }

  /** The sums after crediting every invoice in order. */
  function Tally(invs: seq<Invoice>): Revenue {
    if invs == [] then Revenue(0.0, 0.0, 0.0)
    else Credit(Tally(invs[..|invs| - 1]), invs[|invs| - 1])
  }

  /** The sum of the route's totals. */
  function SumFlat(invs: seq<Invoice>): real {
    if invs == [] then 0.0 else SumFlat(invs[..|invs| - 1]) + FlatTotal(invs[|invs| - 1])
  }

  /** The sum of the totals of the invoices marked paid. */
  function PaidTotal(invs: seq<Invoice>): real {
    if invs == [] then 0.0
    else PaidTotal(invs[..|invs| - 1]) + (if invs[|invs| - 1].status == "paid" then FlatTotal(invs[|invs| - 1]) else 0.0)
  }

  /** The sum of what was paid on the invoices marked partial. */
  function PartialPaid(invs: seq<Invoice>): real {
    if invs == [] then 0.0
    else PartialPaid(invs[..|invs| - 1]) + (if invs[|invs| - 1].status == "partial" then invs[|invs| - 1].amountPaid else 0.0)
  }

  /**
   * Every total is split exactly: the three sums add up to the sum of the totals, revenue
   * is the paid invoices' totals, and the partial sum is what was paid on partial ones.
   */
  lemma {:induction false} TallySplits(invs: seq<Invoice>)
    ensures Tally(invs).paid + Tally(invs).partial + Tally(invs).unpaid == SumFlat(invs)
    ensures Tally(invs).paid == PaidTotal(invs)
    ensures Tally(invs).partial == PartialPaid(invs)
  {
    if invs != [] {
      TallySplits(invs[..|invs| - 1]);
    }
  }

  /** The `forEach` loop over the non-template invoices. */
  method TallyRevenue(invs: seq<Invoice>) returns (r: Revenue)
    ensures r == Tally(invs)
  {
    r := Revenue(0.0, 0.0, 0.0);
    var i := 0;
    while i < |invs|
      invariant 0 <= i <= |invs|
      invariant r == Tally(invs[..i])
    {
      var inv := invs[i];
      var total := Subtotal(inv.items) + inv.financial.tax + inv.financial.shipping - inv.financial.discounts;
      if inv.status == "paid" {
        r := r.(paid := r.paid + total);
      } else if inv.status == "partial" {
        var paid := inv.amountPaid;
        r := r.(partial := r.partial + paid, unpaid := r.unpaid + (total - paid));
      } else {
        r := r.(unpaid := r.unpaid + total);
      }
      assert invs[..i + 1][..i] == invs[..i];
      i := i + 1;
    }
    assert invs[..i] == invs;
  }

  /* ---------- Counts ---------- */

  /** `Invoice.find({isTemplate: false})`, in store order. */
  function NonTemplates(invs: seq<Invoice>): (r: seq<Invoice>)
    ensures |r| <= |invs|
    ensures forall x :: x in r <==> x in invs && !x.isTemplate
  {
    if invs == [] then []
    else
      var rest := NonTemplates(invs[..|invs| - 1]);
      assert forall x :: x in invs <==> x in invs[..|invs| - 1] || x == invs[|invs| - 1];
      if invs[|invs| - 1].isTemplate then rest else rest + [invs[|invs| - 1]]
  }

  /** `countDocuments({isTemplate: true})` */
  function TemplateCount(invs: seq<Invoice>): nat {
    if invs == [] then 0
    else TemplateCount(invs[..|invs| - 1]) + (if invs[|invs| - 1].isTemplate then 1 else 0)
  }

  /** Every document is counted exactly once, as an invoice or as a template. */
  lemma {:induction false} CountsPartition(invs: seq<Invoice>)
    ensures |NonTemplates(invs)| + TemplateCount(invs) == |invs|
  {
    if invs != [] {
      CountsPartition(invs[..|invs| - 1]);
    }
  }

  /* ---------- Recent invoices ---------- */

  datatype RecurringBrief = RecurringBrief(enabled: bool, nextRunDate: string, sourceInvoiceId: Option<nat>)

  /** One entry of `recentInvoices`: the selected fields, the two computed totals and the defaults. */
  datatype RecentEntry = RecentEntry(
    id: nat, number: string, date: string, currency: string,
    customerName: string, customerCompany: string,
    total: real, subtotal: real, pdfPath: string, status: string, amountPaid: real,
    recurring: RecurringBrief, createdAt: int)

  /** The projection of one invoice, with `currency || 'USD'` and `status || 'unpaid'`. */
  function Project(inv: Invoice): RecentEntry {
    RecentEntry(
      inv.id, inv.invoice.number, inv.invoice.date,
      if inv.invoice.currency == [] then "USD" else inv.invoice.currency,
      inv.customer.name, inv.customer.company,
      FlatTotal(inv), Subtotal(inv.items), inv.pdfPath,
      if inv.status == [] then "unpaid" else inv.status,
      inv.amountPaid,
      RecurringBrief(inv.recurring.enabled, inv.recurring.nextRunDate, inv.recurring.sourceInvoiceId),
      inv.createdAt)
  }

  /** The projection never leaves the currency or the status blank and keeps what was set. */
  lemma ProjectDefaults(inv: Invoice)
    ensures Project(inv).currency != [] && Project(inv).status != []
    ensures inv.invoice.currency != [] ==> Project(inv).currency == inv.invoice.currency
    ensures inv.status != [] ==> Project(inv).status == inv.status
    ensures Project(inv).total - Project(inv).subtotal == inv.financial.tax + inv.financial.shipping - inv.financial.discounts
  {
  }

  /**
   * `.sort({createdAt: -1}).limit(10)` over the non-templates: at most ten, newest first,
   * all of them when there are at most ten, and none left out that is newer than one shown.
   */
  function Newest(invs: seq<Invoice>): (top: seq<Invoice>)
    ensures |top| == if |NonTemplates(invs)| <= 10 then |NonTemplates(invs)| else 10
    ensures NewestFirst(top)
    ensures multiset(top) <= multiset(NonTemplates(invs))
    ensures |NonTemplates(invs)| <= 10 ==> multiset(top) == multiset(NonTemplates(invs))
  {
    var all := NonTemplates(invs);
    var sorted := SortNewestFirst(all);
    assert |sorted| == |all| by {
      assert |multiset(sorted)| == |multiset(all)|;
    }
    var n := if |sorted| <= 10 then |sorted| else 10;
    SortedPrefix(sorted, all, n);
    sorted[..n]
  }

  /** No non-template left out of the newest ten is newer than one of them. */
  lemma NewestLeaveOutOlder(invs: seq<Invoice>)
    ensures var top := Newest(invs);
      forall x, k :: x in multiset(NonTemplates(invs)) - multiset(top) && 0 <= k < |top| ==> x.createdAt <= top[k].createdAt
  {
    var all := NonTemplates(invs);
    var sorted := SortNewestFirst(all);
    assert |sorted| == |all| by {
      assert |multiset(sorted)| == |multiset(all)|;
    }
    var n := if |sorted| <= 10 then |sorted| else 10;
    SortedPrefix(sorted, all, n);
    assert Newest(invs) == sorted[..n];
  }

  /** The first `n` of a newest-first list are newest first and no later entry is newer. */
  lemma SortedPrefix(sorted: seq<Invoice>, all: seq<Invoice>, n: nat)
    requires NewestFirst(sorted) && multiset(sorted) == multiset(all) && n <= |sorted|
    ensures NewestFirst(sorted[..n])
    ensures multiset(sorted[..n]) <= multiset(all)
    ensures n == |sorted| ==> multiset(sorted[..n]) == multiset(all)
    ensures forall x, k :: x in multiset(all) - multiset(sorted[..n]) && 0 <= k < n ==> x.createdAt <= sorted[k].createdAt
  {
    assert sorted == sorted[..n] + sorted[n..];
    assert multiset(sorted[..n]) + multiset(sorted[n..]) == multiset(all);
    forall x, k | x in multiset(all) - multiset(sorted[..n]) && 0 <= k < n
      ensures x.createdAt <= sorted[k].createdAt
    {
      assert x in multiset(sorted[n..]);
      var j :| 0 <= j < |sorted[n..]| && sorted[n..][j] == x;
      assert sorted[n + j] == x;
    }
  }

  /** `recentInvoices`: the projections of the newest non-templates, in order. */
  function Recent(invs: seq<Invoice>): seq<RecentEntry> {
    var top := Newest(invs);
    seq(|top|, i requires 0 <= i < |top| => Project(top[i]))
  }

  /**
   * At most ten entries, newest first, each the projection of a stored invoice that is
   * not a template.
   */
  lemma RecentFacts(invs: seq<Invoice>)
    ensures |Recent(invs)| <= 10
    ensures forall i, j :: 0 <= i < j < |Recent(invs)| ==> Recent(invs)[i].createdAt >= Recent(invs)[j].createdAt
    ensures forall i :: 0 <= i < |Recent(invs)| ==> exists x :: x in invs && !x.isTemplate && Recent(invs)[i] == Project(x)
  {
    var top := Newest(invs);
    var r := Recent(invs);
    assert |r| == |top| && forall i :: 0 <= i < |top| ==> r[i] == Project(top[i]);
    ShownAreStored(invs, top, r);
  }

  lemma ShownAreStored(invs: seq<Invoice>, top: seq<Invoice>, r: seq<RecentEntry>)
    requires multiset(top) <= multiset(NonTemplates(invs)) && NewestFirst(top)
    requires |r| == |top| && forall i :: 0 <= i < |top| ==> r[i] == Project(top[i])
    ensures forall i, j :: 0 <= i < j < |r| ==> r[i].createdAt >= r[j].createdAt
    ensures forall i :: 0 <= i < |r| ==> exists x :: x in invs && !x.isTemplate && r[i] == Project(x)
  {
    forall i | 0 <= i < |r|
      ensures exists x :: x in invs && !x.isTemplate && r[i] == Project(x)
    {
      assert top[i] in multiset(top);
      assert top[i] in NonTemplates(invs);
    }
  }

  /** The JSON body, with the two revenue figures before rounding to cents. */
  datatype Summary = Summary(
    totalInvoices: nat, totalTemplates: nat,
    totalRevenue: real, totalUnpaidRevenue: real,
    recentInvoices: seq<RecentEntry>)

  /**
   * GET /api/invoices/stats/summary: the recurring pass runs first, then everything is
   * counted over the documents it leaves. Reported revenue is the paid plus the partially
   * paid amounts, so revenue and unpaid revenue together are the sum of all totals.
   */
  method Summarize(store: Store, today: Date, now: int, year: nat, pdf: Invoice -> PdfResult)
    returns (s: Summary, ghost states: seq<seq<Invoice>>, ghost counts: seq<nat>, ghost numbers: seq<seq<string>>)
    requires store.Valid() && Valid(today)
    modifies store
    ensures store.Valid()
    ensures RunSoFar(old(store.invoices), store.invoices, old(store.nextId), store.nextId, states, Sources(old(store.invoices)), counts, numbers,
                     today, now, year, pdf)
    ensures s.totalInvoices + s.totalTemplates == |store.invoices|
    ensures s.totalInvoices == |NonTemplates(store.invoices)| && s.totalTemplates == TemplateCount(store.invoices)
    ensures s.totalRevenue + s.totalUnpaidRevenue == SumFlat(NonTemplates(store.invoices))
    ensures s.totalRevenue == PaidTotal(NonTemplates(store.invoices)) + PartialPaid(NonTemplates(store.invoices))
    ensures s.recentInvoices == Recent(store.invoices)
  {
    states, counts, numbers := ProcessAll(store, today, now, year, pdf);
    var all := NonTemplates(store.invoices);
    var r := TallyRevenue(all);
    TallySplits(all);
    CountsPartition(store.invoices);
    s := Summary(|all|, TemplateCount(store.invoices), r.paid + r.partial, r.unpaid, Recent(store.invoices));
  }
}
