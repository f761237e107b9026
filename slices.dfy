/**
 * The client-side stores of src/store/slices: the invoice, client and template
 * slices, each a record whose reducers update its fields in place. A reducer runs
 * when its request settles; the requests themselves (HTTP calls) are not part of
 * this model, their results are the reducers' arguments. Records are kept opaque
 * apart from the `_id` the reducers compare (absent on a record not yet saved) and,
 * for invoices, the `pdfPath` one reducer sets.
 */
module Slices {
  import opened Common

  // ---- list operations the reducers share ----

  /** `list.findIndex(x => key(x) === id)`: the first position whose key is `id`. */
  function FindFirst<E>(xs: seq<E>, key: E -> Option<string>, id: Option<string>): (r: Option<nat>)
    ensures r.None? <==> forall i :: 0 <= i < |xs| ==> key(xs[i]) != id
    ensures r.Some? ==> r.value < |xs| && key(xs[r.value]) == id
    ensures r.Some? ==> forall i :: 0 <= i < r.value ==> key(xs[i]) != id
  {
    if xs == [] then None
    else if key(xs[0]) == id then Some(0)
    else match FindFirst(xs[1..], key, id)
      case None => None
      case Some(k) => Some(k + 1)
  }

  /** `index !== -1 && (list[index] = x)` with `index` the first position holding `x`'s key. */
  function ReplaceFirst<E>(xs: seq<E>, key: E -> Option<string>, x: E): seq<E> {
    match FindFirst(xs, key, key(x))
    case None => xs
    case Some(i) => xs[i := x]
  }

  /**
   * Only the first element with the new element's key is replaced, the length never
   * changes, nothing changes when no element has the key, and replacing again with the
   * same element changes nothing more.
   */
  lemma ReplaceFirstFacts<E>(xs: seq<E>, key: E -> Option<string>, x: E)
    ensures var r := ReplaceFirst(xs, key, x);
      && |r| == |xs|
      && (FindFirst(xs, key, key(x)).None? ==> r == xs)
      && (FindFirst(xs, key, key(x)).Some? ==>
            var i := FindFirst(xs, key, key(x)).value;
            r[i] == x && forall j :: 0 <= j < |xs| && j != i ==> r[j] == xs[j])
      && FindFirst(r, key, key(x)) == FindFirst(xs, key, key(x))
      && ReplaceFirst(r, key, x) == r
  {
    var r := ReplaceFirst(xs, key, x);
    match FindFirst(xs, key, key(x))
    case None =>
    case Some(i) =>
      assert forall j :: 0 <= j < i ==> r[j] == xs[j];
      assert FindFirst(r, key, key(x)) == Some(i) by {
        FindFirstIs(r, key, key(x), i);
      }
  }

  /** A position holding the key with none before it is what `FindFirst` finds. */
  lemma {:induction false} FindFirstIs<E>(xs: seq<E>, key: E -> Option<string>, id: Option<string>, i: nat)
    requires i < |xs| && key(xs[i]) == id
    requires forall j :: 0 <= j < i ==> key(xs[j]) != id
    ensures FindFirst(xs, key, id) == Some(i)
  {
    if i > 0 {
      FindFirstIs(xs[1..], key, id, i - 1);
    }
  }

  /** `list.filter(x => key(x) !== id)` for a saved record's id. */
  function RemoveId<E>(xs: seq<E>, key: E -> Option<string>, id: string): (r: seq<E>)
    ensures |r| <= |xs|
    ensures forall i :: 0 <= i < |r| ==> r[i] in xs && key(r[i]) != Some(id)
    ensures forall i :: 0 <= i < |xs| && key(xs[i]) != Some(id) ==> xs[i] in r
  {
    if xs == [] then []
    else
      var rest := RemoveId(xs[1..], key, id);
      assert forall i :: 1 <= i < |xs| ==> xs[i] == xs[1..][i - 1];
      if key(xs[0]) != Some(id) then [xs[0]] + rest else rest
  }

  /** Filtering a concatenation filters each part: the survivors keep their relative order. */
  lemma {:induction false} RemoveIdAppend<E>(a: seq<E>, b: seq<E>, key: E -> Option<string>, id: string)
    ensures RemoveId(a + b, key, id) == RemoveId(a, key, id) + RemoveId(b, key, id)
  {
    if a == [] {
      assert a + b == b;
    } else {
      assert (a + b)[0] == a[0] && (a + b)[1..] == a[1..] + b;
      RemoveIdAppend(a[1..], b, key, id);
    }
  }

  /** With no element holding the id, nothing is removed; removing twice is removing once. */
  lemma {:induction false} RemoveIdAbsent<E>(xs: seq<E>, key: E -> Option<string>, id: string)
    requires forall i :: 0 <= i < |xs| ==> key(xs[i]) != Some(id)
    ensures RemoveId(xs, key, id) == xs
  {
    if xs != [] {
      RemoveIdAbsent(xs[1..], key, id);
    }
  }

  lemma RemoveIdTwice<E>(xs: seq<E>, key: E -> Option<string>, id: string)
    ensures RemoveId(RemoveId(xs, key, id), key, id) == RemoveId(xs, key, id)
  {
    RemoveIdAbsent(RemoveId(xs, key, id), key, id);
  }

  /**
   * Creating a record with a fresh id and then deleting that id gives back the list as
   * it was.
   */
  lemma CreateThenDelete<E>(xs: seq<E>, key: E -> Option<string>, x: E, id: string)
    requires key(x) == Some(id)
    requires forall i :: 0 <= i < |xs| ==> key(xs[i]) != Some(id)
    ensures RemoveId([x] + xs, key, id) == xs
  {
    RemoveIdAppend([x], xs, key, id);
    RemoveIdAbsent(xs, key, id);
    assert RemoveId([x], key, id) == [];
  }

  /** `action.error.message || fallback` */
  function ErrorText(message: string, fallback: string): (r: string)
    ensures r != [] || fallback == []
    ensures message != [] ==> r == message
    ensures message == [] ==> r == fallback
  {
    if message != [] then message else fallback
  }

  // ---- invoiceSlice ----

  /** An invoice as the store holds it: its `_id`, its `pdfPath`, and everything else. */
  datatype InvoiceRecord<Rest> = InvoiceRecord(id: Option<string>, pdfPath: Option<string>, rest: Rest)

  function InvoiceId<Rest>(r: InvoiceRecord<Rest>): Option<string> {
    r.id
  }

  /** `currentInvoice?._id`: undefined both for no current invoice and for an unsaved one. */
  function CurrentId<Rest>(current: Option<InvoiceRecord<Rest>>): Option<string> {
    if current.Some? then current.value.id else None
  }

  /** `invoice.pdfPath = pdfUrl` on the first record with the id, when there is one. */
  function SetPdfPath<Rest>(xs: seq<InvoiceRecord<Rest>>, id: Option<string>, pdfUrl: string): seq<InvoiceRecord<Rest>> {
    match FindFirst(xs, InvoiceId, id)
    case None => xs
    case Some(i) => xs[i := xs[i].(pdfPath := Some(pdfUrl))]
  }

  /** Only the first record with the id changes, and only in its `pdfPath`. */
  lemma SetPdfPathFacts<Rest>(xs: seq<InvoiceRecord<Rest>>, id: Option<string>, pdfUrl: string)
    ensures var r := SetPdfPath(xs, id, pdfUrl);
      && |r| == |xs|
      && (forall i :: 0 <= i < |xs| ==> r[i].id == xs[i].id && r[i].rest == xs[i].rest)
      && (forall i :: 0 <= i < |xs| && FindFirst(xs, InvoiceId, id) != Some(i) ==> r[i] == xs[i])
      && (FindFirst(xs, InvoiceId, id).Some? ==> r[FindFirst(xs, InvoiceId, id).value].pdfPath == Some(pdfUrl))
  {
  }

  class InvoiceSlice<Rest, Stats> {
    var invoices: seq<InvoiceRecord<Rest>>
    var currentInvoice: Option<InvoiceRecord<Rest>>
    var loading: bool
    var error: Option<string>
    var stats: Option<Stats>

    /** `initialState` */
    constructor ()
      ensures invoices == [] && currentInvoice == None && !loading && error == None && stats == None
    {
      invoices := [];
      currentInvoice := None;
      loading := false;
      error := None;
      stats := None;
    }

    /** `setCurrentInvoice(invoice)` */
    method SetCurrentInvoice(invoice: Option<InvoiceRecord<Rest>>)
      modifies this
      ensures currentInvoice == invoice
      ensures invoices == old(invoices) && loading == old(loading) && error == old(error) && stats == old(stats)
    {
      currentInvoice := invoice;
    }

    /** `clearError()` */
    method ClearError()
      modifies this
      ensures error == None
      ensures invoices == old(invoices) && currentInvoice == old(currentInvoice) && loading == old(loading) && stats == old(stats)
    {
      error := None;
    }

    /** `fetchInvoices.pending` */
    method FetchInvoicesPending()
      modifies this
      ensures loading && error == None
      ensures invoices == old(invoices) && currentInvoice == old(currentInvoice) && stats == old(stats)
    {
      loading := true;
      error := None;
    }

    /** `fetchInvoices.fulfilled`: the fetched list replaces the old one. */
    method FetchInvoicesFulfilled(payload: seq<InvoiceRecord<Rest>>)
      modifies this
      ensures !loading && invoices == payload
      ensures currentInvoice == old(currentInvoice) && error == old(error) && stats == old(stats)
    {
      loading := false;
      invoices := payload;
    }

    /** `fetchInvoices.rejected` */
    method FetchInvoicesRejected(message: string)
      modifies this
      ensures !loading && error == Some(ErrorText(message, "Failed to fetch invoices"))
      ensures invoices == old(invoices) && currentInvoice == old(currentInvoice) && stats == old(stats)
    {
      loading := false;
      error := Some(ErrorText(message, "Failed to fetch invoices"));
    }

    /** `fetchInvoice.fulfilled` */
    method FetchInvoiceFulfilled(payload: InvoiceRecord<Rest>)
      modifies this
      ensures currentInvoice == Some(payload)
      ensures invoices == old(invoices) && loading == old(loading) && error == old(error) && stats == old(stats)
    {
      currentInvoice := Some(payload);
    }

    /** `createInvoice.fulfilled`: the new invoice goes first and becomes the current one. */
    method CreateInvoiceFulfilled(payload: InvoiceRecord<Rest>)
      modifies this
      ensures invoices == [payload] + old(invoices) && currentInvoice == Some(payload)
      ensures loading == old(loading) && error == old(error) && stats == old(stats)
    {
      invoices := [payload] + invoices;
      currentInvoice := Some(payload);
    }

    /**
     * `updateInvoice.fulfilled`: the first invoice with the payload's `_id` is replaced,
     * and so is the current invoice when the two `_id`s compare equal.
     */
    method UpdateInvoiceFulfilled(payload: InvoiceRecord<Rest>)
      modifies this
      ensures invoices == ReplaceFirst(old(invoices), InvoiceId, payload)
      ensures currentInvoice == if CurrentId(old(currentInvoice)) == payload.id then Some(payload) else old(currentInvoice)
      ensures loading == old(loading) && error == old(error) && stats == old(stats)
    {
      var index := FindFirst(invoices, InvoiceId, payload.id);
      if index.Some? {
        invoices := invoices[index.value := payload];
      }
      if CurrentId(currentInvoice) == payload.id {
        currentInvoice := Some(payload);
      }
    }

    /** `deleteInvoice.fulfilled`: every invoice with the id goes, and a current one with it is cleared. */
    method DeleteInvoiceFulfilled(id: string)
      modifies this
      ensures invoices == RemoveId(old(invoices), InvoiceId, id)
      ensures currentInvoice == if CurrentId(old(currentInvoice)) == Some(id) then None else old(currentInvoice)
      ensures loading == old(loading) && error == old(error) && stats == old(stats)
    {
      invoices := RemoveId(invoices, InvoiceId, id);
      if CurrentId(currentInvoice) == Some(id) {
        currentInvoice := None;
      }
    }

    /** `generatePDF.fulfilled`: the path goes on the first listed match and on a matching current invoice. */
    method GeneratePdfFulfilled(invoiceId: Option<string>, pdfUrl: string)
      modifies this
      ensures invoices == SetPdfPath(old(invoices), invoiceId, pdfUrl)
      ensures currentInvoice ==
        if old(currentInvoice).Some? && old(currentInvoice).value.id == invoiceId
        then Some(old(currentInvoice).value.(pdfPath := Some(pdfUrl))) else old(currentInvoice)
      ensures loading == old(loading) && error == old(error) && stats == old(stats)
    {
      var index := FindFirst(invoices, InvoiceId, invoiceId);
      if index.Some? {
        invoices := invoices[index.value := invoices[index.value].(pdfPath := Some(pdfUrl))];
      }
      if currentInvoice.Some? && currentInvoice.value.id == invoiceId {
        currentInvoice := Some(currentInvoice.value.(pdfPath := Some(pdfUrl)));
      }
    }

    /** `fetchStats.fulfilled` */
    method FetchStatsFulfilled(payload: Stats)
      modifies this
      ensures stats == Some(payload)
      ensures invoices == old(invoices) && currentInvoice == old(currentInvoice) && loading == old(loading) && error == old(error)
    {
      stats := Some(payload);
    }

    /** `updateInvoiceStatus.fulfilled`: the lists are refreshed by a later fetch, so nothing changes here. */
    method UpdateInvoiceStatusFulfilled()
      modifies this
      ensures invoices == old(invoices) && currentInvoice == old(currentInvoice)
      ensures loading == old(loading) && error == old(error) && stats == old(stats)
    {
    }
  }

  /**
   * Deleting an invoice leaves no invoice with that id in the list and keeps the rest
   * in order; the current invoice survives exactly when its id differs.
   */
  lemma DeleteInvoiceFacts<Rest>(xs: seq<InvoiceRecord<Rest>>, current: Option<InvoiceRecord<Rest>>, id: string)
    ensures forall i :: 0 <= i < |RemoveId(xs, InvoiceId, id)| ==> RemoveId(xs, InvoiceId, id)[i].id != Some(id)
    ensures (if CurrentId(current) == Some(id) then None else current).Some? <==>
      current.Some? && current.value.id != Some(id)
  {
  }

  /**
   * An update whose payload has no `_id` matches an unsaved record, and installs the
   * payload as the current invoice even when there was none: `undefined === undefined`.
   */
  lemma UpdateWithoutIdSetsCurrent<Rest>(current: Option<InvoiceRecord<Rest>>, payload: InvoiceRecord<Rest>)
    requires payload.id == None
    requires current.None? || current.value.id == None
    ensures (if CurrentId(current) == payload.id then Some(payload) else current) == Some(payload)
  {
  }

  // ---- clientSlice ----

  /** A client as the store holds it: its `_id` and everything else. */
  datatype Record<Rest> = Record(id: Option<string>, rest: Rest)

  function RecordId<Rest>(r: Record<Rest>): Option<string> {
    r.id
  }

  class ClientSlice<Rest> {
    var clients: seq<Record<Rest>>
    var loading: bool
    var error: Option<string>

    /** `initialState` */
    constructor ()
      ensures clients == [] && !loading && error == None
    {
      clients := [];
      loading := false;
      error := None;
    }

    /** `clearError()` */
    method ClearError()
      modifies this
      ensures error == None && clients == old(clients) && loading == old(loading)
    {
      error := None;
    }

    /** `fetchClients.pending` */
    method FetchClientsPending()
      modifies this
      ensures loading && error == None && clients == old(clients)
    {
      loading := true;
      error := None;
    }

    /** `fetchClients.fulfilled` */
    method FetchClientsFulfilled(payload: seq<Record<Rest>>)
      modifies this
      ensures !loading && clients == payload && error == old(error)
    {
      loading := false;
      clients := payload;
    }

    /** `fetchClients.rejected` */
    method FetchClientsRejected(message: string)
      modifies this
      ensures !loading && error == Some(ErrorText(message, "Failed to fetch clients")) && clients == old(clients)
    {
      loading := false;
      error := Some(ErrorText(message, "Failed to fetch clients"));
    }

    /** `createClient.fulfilled`: the new client goes first. */
    method CreateClientFulfilled(payload: Record<Rest>)
      modifies this
      ensures clients == [payload] + old(clients) && loading == old(loading) && error == old(error)
    {
      clients := [payload] + clients;
    }

    /** `updateClient.fulfilled`: the first client with the payload's `_id` is replaced. */
    method UpdateClientFulfilled(payload: Record<Rest>)
      modifies this
      ensures clients == ReplaceFirst(old(clients), RecordId, payload) && loading == old(loading) && error == old(error)
    {
      var index := FindFirst(clients, RecordId, payload.id);
      if index.Some? {
        clients := clients[index.value := payload];
      }
    }

    /** `deleteClient.fulfilled`: every client with the id goes. */
    method DeleteClientFulfilled(id: string)
      modifies this
      ensures clients == RemoveId(old(clients), RecordId, id) && loading == old(loading) && error == old(error)
    {
      clients := RemoveId(clients, RecordId, id);
    }
  }

  // ---- templateSlice ----

  class TemplateSlice<Rest> {
    var templates: seq<Record<Rest>>
    var loading: bool
    var error: Option<string>

    /** `initialState` */
    constructor ()
      ensures templates == [] && !loading && error == None
    {
      templates := [];
      loading := false;
      error := None;
    }

    /** `clearError()` */
    method ClearError()
      modifies this
      ensures error == None && templates == old(templates) && loading == old(loading)
    {
      error := None;
    }

    /** `fetchTemplates.pending` */
    method FetchTemplatesPending()
      modifies this
      ensures loading && error == None && templates == old(templates)
    {
      loading := true;
      error := None;
    }

    /** `fetchTemplates.fulfilled` */
    method FetchTemplatesFulfilled(payload: seq<Record<Rest>>)
      modifies this
      ensures !loading && templates == payload && error == old(error)
    {
      loading := false;
      templates := payload;
    }

    /** `fetchTemplates.rejected` */
    method FetchTemplatesRejected(message: string)
      modifies this
      ensures !loading && error == Some(ErrorText(message, "Failed to fetch templates")) && templates == old(templates)
    {
      loading := false;
      error := Some(ErrorText(message, "Failed to fetch templates"));
    }

    /** `createTemplate.fulfilled`: the new template goes first. */
    method CreateTemplateFulfilled(payload: Record<Rest>)
      modifies this
      ensures templates == [payload] + old(templates) && loading == old(loading) && error == old(error)
    {
      templates := [payload] + templates;
    }

    /** `deleteTemplate.fulfilled`: every template with the id goes. */
    method DeleteTemplateFulfilled(id: string)
      modifies this
      ensures templates == RemoveId(old(templates), RecordId, id) && loading == old(loading) && error == old(error)
    {
      templates := RemoveId(templates, RecordId, id);
    }

    /** `createInvoiceFromTemplate` settling: the slice has no case for it, so nothing changes. */
    method CreateInvoiceFromTemplateSettled()
      modifies this
      ensures templates == old(templates) && loading == old(loading) && error == old(error)
    {
    }
  }
}
