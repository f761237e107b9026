/**
 * The invoice document of src/models/Invoice.js: its shape, the constraints the
 * schema enforces on save (required strings, enums, minimums), and the
 * `subtotal` and `total` virtuals. Money is `real`.
 */
module Invoices {
  import opened Common
  import opened Recurring

  datatype Company = Company(
    name: string, tagline: string, logo: string, phone: string, email: string,
    address: string, city: string, country: string, vatId: string)

  datatype Customer = Customer(
    name: string, company: string, address: string, city: string, country: string,
    phone: string, email: string, vatId: string)

  datatype InvoiceInfo = InvoiceInfo(
    number: string, date: string, dueDate: string, currency: string,
    paymentTerms: string, purchaseOrder: string)

  datatype Item = Item(name: string, description: string, quantity: real, unitCost: real)

  /** `fields.tax` is one of '%', 'true', 'false'; the flags switch discounts and shipping on. */
  datatype FieldsConfig = FieldsConfig(tax: string, discounts: bool, shipping: bool)

  datatype Financial = Financial(tax: real, shipping: real, discounts: real, amountPaid: real)

  datatype CustomField = CustomField(name: string, value: string)

  datatype AccountDetails = AccountDetails(
    bankName: string, accountHolderName: string, accountNumber: string, iban: string,
    swiftBic: string, branchName: string, branchAddress: string)

  /**
   * One stored invoice. `id` stands for `_id`, `createdAt` for the timestamp the
   * store sets on insert (milliseconds).
   */
  datatype Invoice = Invoice(
    id: nat,
    company: Company,
    customer: Customer,
    invoice: InvoiceInfo,
    items: seq<Item>,
    fields: FieldsConfig,
    financial: Financial,
    customFields: seq<CustomField>,
    accountDetails: AccountDetails,
    notes: string,
    terms: string,
    isTemplate: bool,
    templateName: string,
    pdfPath: string,
    status: string,
    amountPaid: real,
    recurring: RecurringConfig,
    createdAt: int)

  predicate IsStatus(s: string) {
    s == "unpaid" || s == "partial" || s == "paid"
  }

  predicate IsTaxMode(s: string) {
    s == "%" || s == "true" || s == "false"
  }

  /** What saving a document checks: required strings non-empty, the two enums, and the minimums. */
  predicate SchemaValid(inv: Invoice) {
    && inv.company.name != []
    && inv.customer.name != []
    && inv.invoice.number != []
    && inv.invoice.date != []
    && ItemsValid(inv.items)
    && IsTaxMode(inv.fields.tax)
    && inv.financial.tax >= 0.0 && inv.financial.shipping >= 0.0
    && inv.financial.discounts >= 0.0 && inv.financial.amountPaid >= 0.0
    && CustomFieldsValid(inv.customFields)
    && IsStatus(inv.status)
    && inv.amountPaid >= 0.0
  }

  /** Every line has a name and non-negative quantity and unit cost. */
  predicate ItemsValid(items: seq<Item>) {
    items == [] ||
    (ItemsValid(items[..|items| - 1]) && var it := items[|items| - 1]; it.name != [] && it.quantity >= 0.0 && it.unitCost >= 0.0)
  }

  /** Every custom field has a name and a value. */
  predicate CustomFieldsValid(fs: seq<CustomField>) {
    fs == [] || (CustomFieldsValid(fs[..|fs| - 1]) && fs[|fs| - 1].name != [] && fs[|fs| - 1].value != [])
  }

  /** The recursive reading of the line rules, one line at a time. */
  lemma {:induction false} ItemsValidAt(items: seq<Item>, i: nat)
    requires ItemsValid(items) && i < |items|
    ensures items[i].name != [] && items[i].quantity >= 0.0 && items[i].unitCost >= 0.0
  {
    if i < |items| - 1 {
      ItemsValidAt(items[..|items| - 1], i);
    }
  }

  /** The `subtotal` virtual: the sum of quantity times unit cost over the items. */
  function Subtotal(items: seq<Item>): real {
    if items == [] then 0.0
    else Subtotal(items[..|items| - 1]) + items[|items| - 1].quantity * items[|items| - 1].unitCost
  }

  /** Adding a line adds exactly its quantity times its unit cost. */
  lemma SubtotalAppend(items: seq<Item>, it: Item)
    ensures Subtotal(items + [it]) == Subtotal(items) + it.quantity * it.unitCost
  {
    assert (items + [it])[..|items|] == items;
  }

  /** With non-negative quantities and unit costs the subtotal is never negative. */
  lemma {:induction false} SubtotalNonNegative(items: seq<Item>)
    requires forall i :: 0 <= i < |items| ==> items[i].quantity >= 0.0 && items[i].unitCost >= 0.0
    ensures Subtotal(items) >= 0.0
  {
    if items != [] {
      var last := items[|items| - 1];
      SubtotalNonNegative(items[..|items| - 1]);
      assert last.quantity * last.unitCost >= 0.0;
    }
  }

  /** The discount actually subtracted: only when the flag is on and the amount is non-zero. */
  function DiscountApplied(inv: Invoice): real {
    if inv.fields.discounts && inv.financial.discounts != 0.0 then inv.financial.discounts else 0.0
  }

  /** The shipping actually added: only when the flag is on and the amount is non-zero. */
  function ShippingApplied(inv: Invoice): real {
    if inv.fields.shipping && inv.financial.shipping != 0.0 then inv.financial.shipping else 0.0
  }

  /**
   * The `total` virtual: subtotal, minus the discount, then a positive tax either as
   * a percentage of that (tax mode '%') or as a flat amount, then plus shipping.
   */
  function Total(inv: Invoice): real {
    var afterDiscount := Subtotal(inv.items) - DiscountApplied(inv);
    var afterTax :=
      if inv.fields.tax == "%" && inv.financial.tax > 0.0 then afterDiscount + afterDiscount * inv.financial.tax / 100.0
      else if inv.financial.tax > 0.0 then afterDiscount + inv.financial.tax
      else afterDiscount;
    afterTax + ShippingApplied(inv)
  }

  /** With the discount and shipping flags off and no tax the total is the subtotal. */
  lemma TotalPlain(inv: Invoice)
    requires !inv.fields.discounts && !inv.fields.shipping && inv.financial.tax == 0.0
    ensures Total(inv) == Subtotal(inv.items)
  {
  }

  /** The total as a formula: a percentage tax scales the discounted subtotal, a flat tax is added to it. */
  lemma TotalFormula(inv: Invoice)
    requires inv.financial.tax >= 0.0
    ensures inv.fields.tax == "%" ==>
      Total(inv) == (Subtotal(inv.items) - DiscountApplied(inv)) * (1.0 + inv.financial.tax / 100.0) + ShippingApplied(inv)
    ensures inv.fields.tax != "%" ==>
      Total(inv) == Subtotal(inv.items) - DiscountApplied(inv) + inv.financial.tax + ShippingApplied(inv)
  {
  }

  /** Adding a line with non-negative quantity and cost never lowers the total of a valid invoice. */
  lemma TotalMonotoneInItems(inv: Invoice, it: Item)
    requires SchemaValid(inv) && it.quantity >= 0.0 && it.unitCost >= 0.0
    ensures Total(inv.(items := inv.items + [it])) >= Total(inv)
  {
    var more := inv.(items := inv.items + [it]);
    var x := it.quantity * it.unitCost;
    var base := Subtotal(inv.items) - DiscountApplied(inv);
    SubtotalAppend(inv.items, it);
    assert DiscountApplied(more) == DiscountApplied(inv) && ShippingApplied(more) == ShippingApplied(inv);
    assert Subtotal(more.items) - DiscountApplied(more) == base + x;
    TotalFormula(inv);
    TotalFormula(more);
    ProductNonNegative(it.quantity, it.unitCost);
    if inv.fields.tax == "%" {
      ScaledGrowth(base, x, 1.0 + inv.financial.tax / 100.0);
    }
  }

  lemma ProductNonNegative(a: real, b: real)
    requires a >= 0.0 && b >= 0.0
    ensures a * b >= 0.0
  {
  }

  lemma ScaledGrowth(a: real, x: real, f: real)
    requires x >= 0.0 && f >= 1.0
    ensures (a + x) * f >= a * f
  {
    assert (a + x) * f == a * f + x * f;
    ProductNonNegative(x, f);
  }
}
