/**
 * The invoice collection and the two handlers of src/app/api/invoices/route.ts:
 * GET lists every invoice newest first, POST fills in the number, the company,
 * the status and the bank details and inserts the document unless its number
 * is taken. The collection is a class holding the stored documents in insertion
 * order; saving checks the schema and the unique index on `invoice.number`.
 */
module InvoiceStore {
  import opened Common
  import opened Invoices
  import opened InvoiceNumbers

  /** The stored invoice numbers, in store order. */
  function NumbersOf(invs: seq<Invoice>): (r: seq<string>)
    ensures |r| == |invs| && forall i :: 0 <= i < |invs| ==> r[i] == invs[i].invoice.number
  {
    seq(|invs|, i requires 0 <= i < |invs| => invs[i].invoice.number)
  }

  predicate NumbersUnique(invs: seq<Invoice>) {
    forall i, j :: 0 <= i < j < |invs| ==> invs[i].invoice.number != invs[j].invoice.number
  }

  predicate IdsBelow(invs: seq<Invoice>, bound: nat) {
    forall i :: 0 <= i < |invs| ==> invs[i].id < bound
  }

  predicate IdsUnique(invs: seq<Invoice>) {
    forall i, j :: 0 <= i < j < |invs| ==> invs[i].id != invs[j].id
  }

  predicate AllSchemaValid(invs: seq<Invoice>) {
    forall i :: 0 <= i < |invs| ==> SchemaValid(invs[i])
  }

  /** What `save()` reports. */
  datatype SaveOutcome = Saved(inv: Invoice) | ValidationFailed | DuplicateKey

  /** The document with the id and schedule fields an `updateOne` on `recurring` sets. */
  function Rescheduled(inv: Invoice, id: nat, nextRunDate: string, lastRunAt: Option<int>): Invoice {
    if inv.id == id then inv.(recurring := inv.recurring.(nextRunDate := nextRunDate, lastRunAt := lastRunAt)) else inv
  }

  /** The document with `pdfPath` set when it carries the id. */
  function WithPdfPath(inv: Invoice, id: nat, path: string): Invoice {
    if inv.id == id then inv.(pdfPath := path) else inv
  }

  /** Changing fields other than the id and the invoice block, and keeping the schema, keeps the store's invariant. */
  lemma SameKeysKeepValid(before: seq<Invoice>, after: seq<Invoice>, bound: nat)
    requires |after| == |before|
    requires forall i :: 0 <= i < |before| ==> after[i].id == before[i].id && after[i].invoice == before[i].invoice
    requires forall i :: 0 <= i < |before| ==> SchemaValid(before[i]) ==> SchemaValid(after[i])
    requires NumbersUnique(before) && IdsUnique(before) && IdsBelow(before, bound) && AllSchemaValid(before)
    ensures NumbersUnique(after) && IdsUnique(after) && IdsBelow(after, bound) && AllSchemaValid(after)
  {
  }

  /** Appending a valid document with a fresh number and the next id keeps the store's invariant. */
  lemma AppendKeepsValid(before: seq<Invoice>, inv: Invoice, bound: nat)
    requires NumbersUnique(before) && IdsUnique(before) && IdsBelow(before, bound) && AllSchemaValid(before)
    requires SchemaValid(inv) && inv.id == bound && inv.invoice.number !in NumbersOf(before)
    ensures var after := before + [inv];
      NumbersUnique(after) && IdsUnique(after) && IdsBelow(after, bound + 1) && AllSchemaValid(after)
  {
    var after := before + [inv];
    forall i | 0 <= i < |before|
      ensures after[i].invoice.number != inv.invoice.number
    {
      assert NumbersOf(before)[i] == before[i].invoice.number;
    }
  }

  class Store {
    var invoices: seq<Invoice>
    var nextId: nat

    ghost predicate Valid()
      reads this
    {
      NumbersUnique(invoices) && IdsUnique(invoices) && IdsBelow(invoices, nextId) && AllSchemaValid(invoices)
    }

    constructor ()
      ensures Valid() && invoices == [] && nextId == 0
    {
      invoices := [];
      nextId := 0;
    }

    /**
     * `new Invoice(doc).save()`: the schema is checked first, then the unique index;
     * a saved document gets a fresh id and `createdAt = now`.
     */
    method Save(doc: Invoice, now: int) returns (outcome: SaveOutcome)
      requires Valid()
      modifies this
      ensures Valid()
      ensures !SchemaValid(doc) ==> outcome == ValidationFailed
      ensures SchemaValid(doc) && doc.invoice.number in NumbersOf(old(invoices)) ==> outcome == DuplicateKey
      ensures outcome.Saved? <==> SchemaValid(doc) && doc.invoice.number !in NumbersOf(old(invoices))
      ensures outcome.Saved? ==>
        && outcome.inv == doc.(id := old(nextId), createdAt := now)
        && invoices == old(invoices) + [outcome.inv]
        && nextId == old(nextId) + 1
      ensures !outcome.Saved? ==> invoices == old(invoices) && nextId == old(nextId)
    {
      if !SchemaValid(doc) {
        return ValidationFailed;
      }
      if doc.invoice.number in NumbersOf(invoices) {
        return DuplicateKey;
      }
      var inv := doc.(id := nextId, createdAt := now);
      AppendKeepsValid(invoices, inv, nextId);
      invoices := invoices + [inv];
      nextId := nextId + 1;
      outcome := Saved(inv);
    }

    /** `doc.pdfPath = path; doc.save()` on the document with this id. */
    method SetPdfPath(id: nat, path: string)
      requires Valid()
      modifies this
      ensures Valid() && nextId == old(nextId)
      ensures |invoices| == |old(invoices)|
      ensures forall i :: 0 <= i < |invoices| ==> invoices[i] == WithPdfPath(old(invoices)[i], id, path)
    {
      var before := invoices;
      invoices := seq(|before|, i requires 0 <= i < |before| => WithPdfPath(before[i], id, path));
      forall i | 0 <= i < |before|
        ensures invoices[i].id == before[i].id && invoices[i].invoice == before[i].invoice
        ensures SchemaValid(before[i]) ==> SchemaValid(invoices[i])
      {
      }
      SameKeysKeepValid(before, invoices, nextId);
    }

    /** `updateOne({$set: {'recurring.nextRunDate': …, 'recurring.lastRunAt': …}})` on the document with this id. */
    method SetSchedule(id: nat, nextRunDate: string, lastRunAt: Option<int>)
      requires Valid()
      modifies this
      ensures Valid() && nextId == old(nextId)
      ensures |invoices| == |old(invoices)|
      ensures forall i :: 0 <= i < |invoices| ==> invoices[i] == Rescheduled(old(invoices)[i], id, nextRunDate, lastRunAt)
    {
      var before := invoices;
      invoices := seq(|before|, i requires 0 <= i < |before| => Rescheduled(before[i], id, nextRunDate, lastRunAt));
      forall i | 0 <= i < |before|
        ensures invoices[i].id == before[i].id && invoices[i].invoice == before[i].invoice
        ensures SchemaValid(before[i]) ==> SchemaValid(invoices[i])
      {
      }
      SameKeysKeepValid(before, invoices, nextId);
    }

    /** GET /api/invoices: every stored invoice, newest `createdAt` first. */
    function ListNewestFirst(): (r: seq<Invoice>)
      reads this
      ensures NewestFirst(r) && multiset(r) == multiset(invoices)
    {
      SortNewestFirst(invoices)
    }
  }

  /* ---------- Newest first ---------- */

  predicate NewestFirst(s: seq<Invoice>) {
    forall i, j :: 0 <= i < j < |s| ==> s[i].createdAt >= s[j].createdAt
  }

  /** A head at least as new as the first entry keeps a newest-first list newest first. */
  lemma ConsNewestFirst(h: Invoice, t: seq<Invoice>)
    requires NewestFirst(t) && (t != [] ==> h.createdAt >= t[0].createdAt)
    ensures NewestFirst([h] + t)
  {
    var r := [h] + t;
    forall i, j | 0 <= i < j < |r|
      ensures r[i].createdAt >= r[j].createdAt
    {
      if i == 0 && j > 1 {
        assert r[1] == t[0] && r[j] == t[j - 1];
      }
    }
  }

  /** Inserts `x` into a newest-first list after every entry at least as new. */
  function InsertNewestFirst(x: Invoice, s: seq<Invoice>): (r: seq<Invoice>)
    requires NewestFirst(s)
    ensures |r| == |s| + 1 && multiset(r) == multiset(s) + multiset{x}
    ensures r[0] == x || (s != [] && r[0] == s[0])
    ensures NewestFirst(r)
  {
    if s == [] then [x]
    else if s[0].createdAt <= x.createdAt then
      ConsNewestFirst(x, s);
      [x] + s
    else
      var rest := InsertNewestFirst(x, s[1..]);
      InsertBehindHead(x, s, rest);
      [s[0]] + rest
  }

  /** The step of `InsertNewestFirst` that keeps the head in front of the insertion into the tail. */
  lemma InsertBehindHead(x: Invoice, s: seq<Invoice>, rest: seq<Invoice>)
    requires s != [] && NewestFirst(s) && s[0].createdAt > x.createdAt
    requires NewestFirst(rest) && |rest| == |s| && multiset(rest) == multiset(s[1..]) + multiset{x}
    requires rest[0] == x || (s[1..] != [] && rest[0] == s[1..][0])
    ensures NewestFirst([s[0]] + rest)
    ensures multiset([s[0]] + rest) == multiset(s) + multiset{x}
    ensures ([s[0]] + rest)[0] == s[0]
  {
    assert s == [s[0]] + s[1..];
    ConsNewestFirst(s[0], rest);
  }

  /** `.sort({createdAt: -1})`: a newest-first permutation of the input. */
  function SortNewestFirst(s: seq<Invoice>): (r: seq<Invoice>)
    ensures NewestFirst(r) && multiset(r) == multiset(s)
  {
    if s == [] then []
    else
      assert s == s[..|s| - 1] + [s[|s| - 1]];
      InsertNewestFirst(s[|s| - 1], SortNewestFirst(s[..|s| - 1]))
  }

  /* ---------- POST /api/invoices ---------- */

  /** `body.company`: each present field overrides the configured default. */
  datatype CompanyPatch = CompanyPatch(
    name: Option<string>, tagline: Option<string>, logo: Option<string>, phone: Option<string>,
    email: Option<string>, address: Option<string>, city: Option<string>, country: Option<string>,
    vatId: Option<string>)

  /** `body.accountDetails` with the keys the client sent. */
  datatype AccountPatch = AccountPatch(
    bankName: Option<string>, accountHolderName: Option<string>, accountNumber: Option<string>,
    iban: Option<string>, swiftBic: Option<string>, branchName: Option<string>, branchAddress: Option<string>)

  /**
   * The request body. `doc` carries every other field as the schema fills it in;
   * the four fields the handler treats specially are kept as sent.
   */
  datatype CreateBody = CreateBody(
    doc: Invoice,
    number: Option<string>,
    company: Option<CompanyPatch>,
    status: Option<string>,
    accountDetails: Option<AccountPatch>)

  /** `{...config.company, ...(body.company || {})}` */
  function MergeCompany(defaults: Company, patch: Option<CompanyPatch>): (c: Company)
    ensures patch.None? ==> c == defaults
  {
    match patch
    case None => defaults
    case Some(p) =>
      Company(p.name.GetOr(defaults.name), p.tagline.GetOr(defaults.tagline), p.logo.GetOr(defaults.logo),
              p.phone.GetOr(defaults.phone), p.email.GetOr(defaults.email), p.address.GetOr(defaults.address),
              p.city.GetOr(defaults.city), p.country.GetOr(defaults.country), p.vatId.GetOr(defaults.vatId))
  }

  function CompanyValues(p: CompanyPatch): seq<Option<string>> {
    [p.name, p.tagline, p.logo, p.phone, p.email, p.address, p.city, p.country, p.vatId]
  }

  function CompanyFields(c: Company): seq<string> {
    [c.name, c.tagline, c.logo, c.phone, c.email, c.address, c.city, c.country, c.vatId]
  }

  /** Field by field: the sent value where there is one, the configured default elsewhere. */
  lemma MergeCompanyFields(defaults: Company, p: CompanyPatch)
    ensures var c := CompanyFields(MergeCompany(defaults, Some(p)));
      forall k :: 0 <= k < 9 ==>
        && (CompanyValues(p)[k].Some? ==> c[k] == CompanyValues(p)[k].value)
        && (CompanyValues(p)[k].None? ==> c[k] == CompanyFields(defaults)[k])
  {
  }

  function Values(p: AccountPatch): seq<Option<string>> {
    [p.bankName, p.accountHolderName, p.accountNumber, p.iban, p.swiftBic, p.branchName, p.branchAddress]
  }

  function Fields(a: AccountDetails): seq<string> {
    [a.bankName, a.accountHolderName, a.accountNumber, a.iban, a.swiftBic, a.branchName, a.branchAddress]
  }

  /** `Object.values(accountDetails).every(v => !v || v === '')`: every sent value is empty. */
  predicate AllBlank(p: AccountPatch) {
    forall k :: 0 <= k < 7 ==> Values(p)[k].GetOr([]) == []
  }

  /**
   * Absent or all-empty bank details are laid over the defaults; otherwise the
   * sent object is stored as it is, the schema filling missing keys with ''.
   */
  function MergeAccount(defaults: AccountDetails, patch: Option<AccountPatch>): (a: AccountDetails)
    ensures patch.None? ==> a == defaults
  {
    match patch
    case None => defaults
    case Some(p) =>
      if AllBlank(p) then
        AccountDetails(p.bankName.GetOr(defaults.bankName), p.accountHolderName.GetOr(defaults.accountHolderName),
                       p.accountNumber.GetOr(defaults.accountNumber), p.iban.GetOr(defaults.iban),
                       p.swiftBic.GetOr(defaults.swiftBic), p.branchName.GetOr(defaults.branchName),
                       p.branchAddress.GetOr(defaults.branchAddress))
      else
        AccountDetails(p.bankName.GetOr([]), p.accountHolderName.GetOr([]), p.accountNumber.GetOr([]),
                       p.iban.GetOr([]), p.swiftBic.GetOr([]), p.branchName.GetOr([]), p.branchAddress.GetOr([]))
  }

  /** Field by field: the sent value where there is one; for the rest a default only when the sent object is blank. */
  lemma MergeAccountFields(defaults: AccountDetails, p: AccountPatch)
    ensures var a := Fields(MergeAccount(defaults, Some(p)));
      forall k :: 0 <= k < 7 ==>
        && (Values(p)[k].Some? ==> a[k] == Values(p)[k].value)
        && (Values(p)[k].None? && AllBlank(p) ==> a[k] == Fields(defaults)[k])
        && (Values(p)[k].None? && !AllBlank(p) ==> a[k] == [])
  {
  }

  /** `!invoiceNumber || invoiceNumber.trim() === ''` */
  predicate NumberMissing(number: Option<string>) {
    number.None? || Trim(number.value) == []
  }

  /** The number the handler settles on: the sent one verbatim, or the next generated one. */
  function ResolveNumber(number: Option<string>, year: nat, existing: seq<string>): (r: string)
    ensures !NumberMissing(number) ==> r == number.value
    ensures NumberMissing(number) ==> r == NextInvoiceNumber(year, existing) && r !in existing
  {
    NextInvoiceNumberFresh(year, existing);
    if NumberMissing(number) then NextInvoiceNumber(year, existing) else number.value
  }

  /** The document the handler builds before saving. */
  function Prepare(body: CreateBody, year: nat, existing: seq<string>, company: Company, accounts: AccountDetails): Invoice {
    body.doc.(
      company := MergeCompany(company, body.company),
      invoice := body.doc.invoice.(number := ResolveNumber(body.number, year, existing)),
      status := if body.status.None? || body.status.value == [] then "unpaid" else body.status.value,
      accountDetails := MergeAccount(accounts, body.accountDetails))
  }

  /** The prepared document's status is the sent one when non-empty, 'unpaid' otherwise; nothing else of the body is touched. */
  lemma PrepareDefaults(body: CreateBody, year: nat, existing: seq<string>, company: Company, accounts: AccountDetails)
    ensures var d := Prepare(body, year, existing, company, accounts);
      && (body.status.Some? && body.status.value != [] ==> d.status == body.status.value)
      && (body.status.None? || body.status.value == [] ==> d.status == "unpaid")
      && d.items == body.doc.items && d.customer == body.doc.customer && d.financial == body.doc.financial
      && d.invoice.date == body.doc.invoice.date && d.recurring == body.doc.recurring
  {
  }

  /** A generated number never trips the duplicate check. */
  lemma GeneratedNumberIsNew(body: CreateBody, year: nat, existing: seq<string>, company: Company, accounts: AccountDetails)
    requires NumberMissing(body.number)
    ensures Prepare(body, year, existing, company, accounts).invoice.number !in existing
  {
  }

  /** The handler's reply. */
  datatype CreateReply = Created(inv: Invoice) | NumberTaken | SaveError

  function StatusCode(r: CreateReply): int {
    match r
    case Created(_) => 201
    case NumberTaken => 400
    case SaveError => 500
  }

  /**
   * POST /api/invoices: 400 and no insert when the number is already stored,
   * 500 when the schema rejects the document, otherwise 201 with the stored document.
   */
  method CreateInvoice(store: Store, body: CreateBody, year: nat, now: int, company: Company, accounts: AccountDetails)
    returns (reply: CreateReply)
    requires store.Valid()
    modifies store
    ensures store.Valid()
    ensures var d := Prepare(body, year, NumbersOf(old(store.invoices)), company, accounts);
      && (d.invoice.number in NumbersOf(old(store.invoices)) ==> reply == NumberTaken && store.invoices == old(store.invoices))
      && (d.invoice.number !in NumbersOf(old(store.invoices)) && !SchemaValid(d) ==> reply == SaveError && store.invoices == old(store.invoices))
      && (d.invoice.number !in NumbersOf(old(store.invoices)) && SchemaValid(d) ==>
            reply == Created(d.(id := old(store.nextId), createdAt := now)) && store.invoices == old(store.invoices) + [reply.inv])
  {
    var doc := Prepare(body, year, NumbersOf(store.invoices), company, accounts);
    if doc.invoice.number in NumbersOf(store.invoices) {
      return NumberTaken;
    }
    var outcome := store.Save(doc, now);
    if outcome.Saved? {
      reply := Created(outcome.inv);
    } else {
      reply := SaveError;
    }
  }
}
