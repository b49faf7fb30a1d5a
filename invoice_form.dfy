/**
 * The logic of the invoice form: editing the draft list of lines, computing
 * the totals, deciding between intra-state (CGST + SGST) and inter-state
 * (IGST) tax, and the save action that writes the buyer and the invoice to
 * the store.
 */
module InvoiceForm {
  import opened Types
  import opened Collections
  import opened Storage

  // ------------------------------------------------------ line arithmetic

  /** Quantity times price, less the discount percentage. */
  function TaxableValue(item: InvoiceItem): real
  {
    var amount := item.quantity * item.price;
    var discountAmount := amount * (item.discount / 100.0);
    amount - discountAmount
  }

  /** The tax rate percentage of the taxable value. */
  function TaxAmount(item: InvoiceItem): real
  {
    TaxableValue(item) * (item.taxRate / 100.0)
  }

  /** A line contributes q * p * (1 - d/100) * (1 + t/100) to the grand total. */
  lemma LineTotal(item: InvoiceItem)
    ensures TaxableValue(item) + TaxAmount(item)
         == item.quantity * item.price * (1.0 - item.discount / 100.0) * (1.0 + item.taxRate / 100.0)
  {
    var amount := item.quantity * item.price;
    var taxable := TaxableValue(item);
    assert taxable == amount * (1.0 - item.discount / 100.0);
    assert taxable + TaxAmount(item) == taxable * (1.0 + item.taxRate / 100.0);
  }

  /** Two units at 100 with 10% discount and 18% tax: 180 taxable, 32.4 tax. */
  lemma ExampleLine()
    ensures var item := InvoiceItem("1", None, "", "", 2.0, 100.0, 10.0, 18.0);
      TaxableValue(item) == 180.0 && TaxAmount(item) == 32.4
  {
  }

  // ---------------------------------------------------------------- totals

  datatype Totals = Totals(totalBeforeTax: real, totalTax: real, totalAmount: real)

  /** The accumulation loop of the form: one pass over the lines, two running sums. */
  method CalculateTotals(items: seq<InvoiceItem>) returns (totals: Totals)
    ensures totals.totalBeforeTax == Sum(items, TaxableValue)
    ensures totals.totalTax == Sum(items, TaxAmount)
    ensures totals.totalAmount == totals.totalBeforeTax + totals.totalTax
    ensures items == [] ==> totals == Totals(0.0, 0.0, 0.0)
  {
    var totalBeforeTax, totalTax := 0.0, 0.0;
    for i := 0 to |items|
      invariant totalBeforeTax == Sum(items[..i], TaxableValue)
      invariant totalTax == Sum(items[..i], TaxAmount)
    {
      var item := items[i];
      var amount := item.quantity * item.price;
      var discountAmount := amount * (item.discount / 100.0);
      var taxableValue := amount - discountAmount;
      var taxAmount := taxableValue * (item.taxRate / 100.0);
      assert items[..i + 1][..i] == items[..i];
      totalBeforeTax := totalBeforeTax + taxableValue;
      totalTax := totalTax + taxAmount;
    }
    assert items[..|items|] == items;
    totals := Totals(totalBeforeTax, totalTax, totalBeforeTax + totalTax);
  }

  // ------------------------------------------------------ inter-state rule

  /** JavaScript truthiness of an optional string: present and not empty. */
  predicate Truthy(s: Option<string>)
  {
    s.Some? && s.value != ""
  }

  /** `gstin.substring(0, 2)`: the state code, or the whole string when shorter. */
  function StateCode(gstin: string): (r: string)
    ensures r <= gstin
    ensures |r| == if |gstin| < 2 then |gstin| else 2
  {
    if |gstin| < 2 then gstin else gstin[..2]
  }

  /** Inter-state when both parties have a GSTIN and their state codes differ. */
  function IsInterState(buyerGstin: Option<string>, sellerGstin: string): bool
  {
    if Truthy(buyerGstin) && sellerGstin != "" then
      StateCode(buyerGstin.value) != StateCode(sellerGstin)
    else
      false
  }

  /** A party without a GSTIN makes the sale intra-state, whatever the other has. */
  lemma MissingGstinIsIntraState(buyerGstin: Option<string>, sellerGstin: string)
    requires !Truthy(buyerGstin) || sellerGstin == ""
    ensures !IsInterState(buyerGstin, sellerGstin)
  {
  }

  /** For GSTINs of two or more characters the rule compares the first two characters. */
  lemma InterStateByFirstTwo(buyerGstin: string, sellerGstin: string)
    requires |buyerGstin| >= 2 && |sellerGstin| >= 2
    ensures IsInterState(Some(buyerGstin), sellerGstin)
        <==> buyerGstin[0] != sellerGstin[0] || buyerGstin[1] != sellerGstin[1]
  {
    var b, s := StateCode(buyerGstin), StateCode(sellerGstin);
    if b == s {
      assert b[0] == s[0] && b[1] == s[1];
    }
    if buyerGstin[0] == sellerGstin[0] && buyerGstin[1] == sellerGstin[1] {
      assert b == [b[0], b[1]] && s == [s[0], s[1]];
    }
  }

  /** Swapping the two GSTINs does not change the outcome. */
  lemma InterStateSymmetric(a: string, b: string)
    ensures IsInterState(Some(a), b) == IsInterState(Some(b), a)
  {
  }

  /** Maharashtra (27) selling to Karnataka (29) is inter-state; 27 to 27 is not. */
  lemma ExampleInterState()
    ensures IsInterState(Some("29BBBBB1111B2Z6"), "27AAAAA0000A1Z5")
    ensures !IsInterState(Some("27BBBBB1111B2Z6"), "27AAAAA0000A1Z5")
    ensures !IsInterState(None, "27AAAAA0000A1Z5")
  {
    InterStateByFirstTwo("29BBBBB1111B2Z6", "27AAAAA0000A1Z5");
    InterStateByFirstTwo("27BBBBB1111B2Z6", "27AAAAA0000A1Z5");
  }

  // ------------------------------------------------------------- tax split

  datatype TaxSplit = TaxSplit(cgst: real, sgst: real, igst: real)

  /**
   * Inter-state tax is all IGST; intra-state tax is halved between CGST and
   * SGST. Either way the three parts add up to the total tax.
   */
  function SplitTax(totalTax: real, isInterState: bool): (r: TaxSplit)
    ensures r.cgst + r.sgst + r.igst == totalTax
    ensures r.cgst == r.sgst
    ensures isInterState ==> r.igst == totalTax
    ensures !isInterState ==> r.igst == 0.0
  {
    TaxSplit(
      if isInterState then 0.0 else totalTax / 2.0,
      if isInterState then 0.0 else totalTax / 2.0,
      if isInterState then totalTax else 0.0)
  }

  /** When there is tax, exactly one of IGST and CGST + SGST is non-zero. */
  lemma SplitIsExclusive(totalTax: real, isInterState: bool)
    requires totalTax != 0.0
    ensures var r := SplitTax(totalTax, isInterState);
      (r.igst != 0.0) != (r.cgst + r.sgst != 0.0)
  {
  }

  // ----------------------------------------------------------- line edits

  /** Append a blank line: quantity 1, price 0, no discount, 18% tax unless non-GST. */
  function AddItem(items: seq<InvoiceItem>, invoiceType: InvoiceType, newId: string): (r: seq<InvoiceItem>)
    ensures |r| == |items| + 1 && r[..|items|] == items
    ensures var added := r[|items|];
      added.id == newId && added.productId == None && added.name == "" && added.hsnSac == "" &&
      added.quantity == 1.0 && added.price == 0.0 && added.discount == 0.0 &&
      added.taxRate == if invoiceType == NON_GST then 0.0 else 18.0
  {
    items + [InvoiceItem(newId, None, "", "", 1.0, 0.0, 0.0, if invoiceType == NON_GST then 0.0 else 18.0)]
  }

  /** A blank line is priced 0, so adding one leaves the totals as they were. */
  lemma AddItemKeepsTotals(items: seq<InvoiceItem>, invoiceType: InvoiceType, newId: string)
    ensures Sum(AddItem(items, invoiceType, newId), TaxableValue) == Sum(items, TaxableValue)
    ensures Sum(AddItem(items, invoiceType, newId), TaxAmount) == Sum(items, TaxAmount)
  {
    var r := AddItem(items, invoiceType, newId);
    assert r[..|r| - 1] == items;
  }

  /** Drop every line with the id; the others keep their order. */
  function RemoveItem(items: seq<InvoiceItem>, id: string): (r: seq<InvoiceItem>)
    ensures forall item :: item in r <==> item in items && item.id != id
    ensures id !in Keys(r, ItemId)
  {
    RemoveKey(items, id, ItemId)
  }

  /** The fields of a line, for `updateItem(id, field, value)`. */
  datatype Field = IdField | ProductIdField | NameField | HsnSacField
                 | QuantityField | PriceField | DiscountField | TaxRateField

  datatype FieldValue = Text(text: string) | OptionalText(optText: Option<string>) | Number(number: real)

  /** One `(field, value)` pair with a value of the field's type. */
  datatype ItemEdit =
    | SetId(id: string)
    | SetProductId(productId: Option<string>)
    | SetName(name: string)
    | SetHsnSac(hsnSac: string)
    | SetQuantity(quantity: real)
    | SetPrice(price: real)
    | SetDiscount(discount: real)
    | SetTaxRate(taxRate: real)

  function FieldOf(e: ItemEdit): Field
  {
    match e
    case SetId(_) => IdField
    case SetProductId(_) => ProductIdField
    case SetName(_) => NameField
    case SetHsnSac(_) => HsnSacField
    case SetQuantity(_) => QuantityField
    case SetPrice(_) => PriceField
    case SetDiscount(_) => DiscountField
    case SetTaxRate(_) => TaxRateField
  }

  function ValueOf(e: ItemEdit): FieldValue
  {
    match e
    case SetId(v) => Text(v)
    case SetProductId(v) => OptionalText(v)
    case SetName(v) => Text(v)
    case SetHsnSac(v) => Text(v)
    case SetQuantity(v) => Number(v)
    case SetPrice(v) => Number(v)
    case SetDiscount(v) => Number(v)
    case SetTaxRate(v) => Number(v)
  }

  /** `item[field]`. */
  function Get(item: InvoiceItem, f: Field): FieldValue
  {
    match f
    case IdField => Text(item.id)
    case ProductIdField => OptionalText(item.productId)
    case NameField => Text(item.name)
    case HsnSacField => Text(item.hsnSac)
    case QuantityField => Number(item.quantity)
    case PriceField => Number(item.price)
    case DiscountField => Number(item.discount)
    case TaxRateField => Number(item.taxRate)
  }

  /** `{ ...item, [field]: value }`: the named field takes the value, every other field is kept. */
  function ApplyEdit(item: InvoiceItem, e: ItemEdit): (r: InvoiceItem)
    ensures Get(r, FieldOf(e)) == ValueOf(e)
    ensures forall f :: f != FieldOf(e) ==> Get(r, f) == Get(item, f)
  {
    match e
    case SetId(v) => item.(id := v)
    case SetProductId(v) => item.(productId := v)
    case SetName(v) => item.(name := v)
    case SetHsnSac(v) => item.(hsnSac := v)
    case SetQuantity(v) => item.(quantity := v)
    case SetPrice(v) => item.(price := v)
    case SetDiscount(v) => item.(discount := v)
    case SetTaxRate(v) => item.(taxRate := v)
  }

  /** Apply the edit to every line with the id and to no other line. */
  function UpdateItem(items: seq<InvoiceItem>, id: string, e: ItemEdit): (r: seq<InvoiceItem>)
    ensures |r| == |items|
    ensures forall i :: 0 <= i < |items| && items[i].id != id ==> r[i] == items[i]
    ensures forall i :: 0 <= i < |items| && items[i].id == id ==>
      Get(r[i], FieldOf(e)) == ValueOf(e) &&
      forall f :: f != FieldOf(e) ==> Get(r[i], f) == Get(items[i], f)
  {
    seq(|items|, i requires 0 <= i < |items| =>
      if items[i].id == id then ApplyEdit(items[i], e) else items[i])
  }

  /** Editing a line that is not there changes nothing. */
  lemma UpdateUnknownItem(items: seq<InvoiceItem>, id: string, e: ItemEdit)
    requires id !in Keys(items, ItemId)
    ensures UpdateItem(items, id, e) == items
  {
    forall i | 0 <= i < |items| ensures items[i].id != id {
      assert Keys(items, ItemId)[i] == items[i].id;
    }
  }

  /** Repeating an edit has no further effect. */
  lemma UpdateItemIdempotent(items: seq<InvoiceItem>, id: string, e: ItemEdit)
    ensures UpdateItem(UpdateItem(items, id, e), id, e) == UpdateItem(items, id, e)
  {
    var once := UpdateItem(items, id, e);
    forall i | 0 <= i < |items|
      ensures UpdateItem(once, id, e)[i] == once[i]
    {
      if once[i].id == id {
        if items[i].id == id {
          ApplyEditIdempotent(items[i], e);
        }
      }
    }
  }

  /** Setting a field to the value it already has is no change. */
  lemma ApplyEditIdempotent(item: InvoiceItem, e: ItemEdit)
    ensures ApplyEdit(ApplyEdit(item, e), e) == ApplyEdit(item, e)
  {
  }

  /** Editing the id, product link, name or HSN/SAC code of lines leaves the totals unchanged. */
  lemma DescriptiveEditKeepsTotals(items: seq<InvoiceItem>, id: string, e: ItemEdit)
    requires FieldOf(e) in {IdField, ProductIdField, NameField, HsnSacField}
    ensures Sum(UpdateItem(items, id, e), TaxableValue) == Sum(items, TaxableValue)
    ensures Sum(UpdateItem(items, id, e), TaxAmount) == Sum(items, TaxAmount)
  {
    var r := UpdateItem(items, id, e);
    forall i | 0 <= i < |items|
      ensures TaxableValue(r[i]) == TaxableValue(items[i]) && TaxAmount(r[i]) == TaxAmount(items[i])
    {
      if items[i].id == id {
        assert Get(r[i], QuantityField) == Get(items[i], QuantityField);
        assert Get(r[i], PriceField) == Get(items[i], PriceField);
        assert Get(r[i], DiscountField) == Get(items[i], DiscountField);
        assert Get(r[i], TaxRateField) == Get(items[i], TaxRateField);
      }
    }
    SumPointwise(r, items, TaxableValue);
    SumPointwise(r, items, TaxAmount);
  }

  /** Fill a line from a catalogue product; non-GST invoices carry no tax. */
  function ApplyProduct(item: InvoiceItem, product: Product, invoiceType: InvoiceType): InvoiceItem
  {
    item.(productId := Some(product.id), name := product.name, hsnSac := product.hsnSac,
          price := product.sellingPrice,
          taxRate := if invoiceType == NON_GST then 0.0 else product.taxRate)
  }

  /**
   * Choosing a product for a line: the first product with the id fills every
   * line with `itemId`; an unknown product leaves the lines as they are.
   */
  function HandleProductSelect(items: seq<InvoiceItem>, products: seq<Product>, itemId: string,
                               productId: string, invoiceType: InvoiceType): (r: seq<InvoiceItem>)
    ensures |r| == |items|
    ensures forall i :: 0 <= i < |items| && items[i].id != itemId ==> r[i] == items[i]
    ensures forall i :: 0 <= i < |items| ==>
      r[i].id == items[i].id && r[i].quantity == items[i].quantity && r[i].discount == items[i].discount
  {
    var k := FirstIndex(products, productId, ProductId);
    if k < 0 then items
    else
      seq(|items|, i requires 0 <= i < |items| =>
        if items[i].id == itemId then ApplyProduct(items[i], products[k], invoiceType) else items[i])
  }

  /** An unknown product id leaves the lines unchanged. */
  lemma ProductSelectUnknown(items: seq<InvoiceItem>, products: seq<Product>, itemId: string,
                             productId: string, invoiceType: InvoiceType)
    requires productId !in Keys(products, ProductId)
    ensures HandleProductSelect(items, products, itemId, productId, invoiceType) == items
  {
  }

  /** A known product: the selected lines take its name, code, selling price and tax rate. */
  lemma ProductSelectFills(items: seq<InvoiceItem>, products: seq<Product>, itemId: string,
                           productId: string, invoiceType: InvoiceType, k: nat)
    requires k < |products| && products[k].id == productId
    requires forall j :: 0 <= j < k ==> products[j].id != productId
    ensures var r := HandleProductSelect(items, products, itemId, productId, invoiceType);
      forall i :: 0 <= i < |items| && items[i].id == itemId ==>
        r[i].productId == Some(productId) && r[i].name == products[k].name &&
        r[i].hsnSac == products[k].hsnSac && r[i].price == products[k].sellingPrice &&
        r[i].taxRate == (if invoiceType == NON_GST then 0.0 else products[k].taxRate)
  {
    assert Keys(products, ProductId)[k] == productId;
  }

  // ------------------------------------------------------------------ save

  /** The form state the save action reads. */
  datatype FormState = FormState(
    invoiceType: InvoiceType,
    invoiceDate: string,
    dueDate: string,
    profile: BusinessProfile,
    selectedClient: Option<Client>,
    isNewClient: bool,
    newClient: Client,
    items: seq<InvoiceItem>)

  /** The buyer: the new client stamped with a fresh id, or the selected client. */
  function Buyer(form: FormState, clientStamp: string): (b: Option<Client>)
    ensures form.isNewClient ==> b == Some(form.newClient.(id := clientStamp))
    ensures !form.isNewClient ==> b == form.selectedClient
  {
    if form.isNewClient then Some(form.newClient.(id := clientStamp)) else form.selectedClient
  }

  /** Saving needs a buyer and at least one line. */
  predicate CanSave(buyer: Option<Client>, items: seq<InvoiceItem>)
  {
    buyer.Some? && |items| > 0
  }

  /** The invariant every created invoice satisfies. */
  ghost predicate Consistent(inv: Invoice)
  {
    && inv.totalBeforeTax == Sum(inv.items, TaxableValue)
    && inv.totalTax == Sum(inv.items, TaxAmount)
    && inv.totalAmount == inv.totalBeforeTax + inv.totalTax
    && inv.isInterState == IsInterState(inv.buyer.gstin, inv.seller.gstin)
    && TaxSplit(inv.cgst, inv.sgst, inv.igst) == SplitTax(inv.totalTax, inv.isInterState)
  }

  /**
   * The invoice record the save action builds. `inWords` stands for the
   * rounding and formatting of the grand total into words.
   */
  function AssembleInvoice(id: string, invoiceNumber: string, form: FormState, buyer: Client,
                           inWords: real -> string): (inv: Invoice)
    ensures Consistent(inv)
    ensures inv.cgst + inv.sgst + inv.igst == inv.totalTax
    ensures inv.id == id && inv.invoiceNumber == invoiceNumber
    ensures inv.date == form.invoiceDate && inv.dueDate == form.dueDate
    ensures inv.invoiceType == form.invoiceType && inv.status == Unpaid
    ensures inv.seller == form.profile && inv.buyer == buyer && inv.items == form.items
    ensures inv.amountInWords == inWords(inv.totalAmount)
  {
    var totalBeforeTax := Sum(form.items, TaxableValue);
    var totalTax := Sum(form.items, TaxAmount);
    var totalAmount := totalBeforeTax + totalTax;
    var isInterState := IsInterState(buyer.gstin, form.profile.gstin);
    var split := SplitTax(totalTax, isInterState);
    Invoice(id, invoiceNumber, form.invoiceDate, form.dueDate, form.invoiceType, form.profile,
            buyer, form.items, totalBeforeTax, totalTax, totalAmount,
            split.cgst, split.sgst, split.igst, isInterState, Unpaid, inWords(totalAmount))
  }

  /**
   * The record-building part of the save action: the totals loop, the
   * inter-state rule and the split, put together into the invoice.
   */
  method BuildInvoice(id: string, invoiceNumber: string, form: FormState, buyer: Client,
                      inWords: real -> string) returns (invoice: Invoice)
    ensures invoice == AssembleInvoice(id, invoiceNumber, form, buyer, inWords)
  {
    var totals := CalculateTotals(form.items);
    var isInterState := IsInterState(buyer.gstin, form.profile.gstin);
    var split := SplitTax(totals.totalTax, isInterState);
    invoice := Invoice(id, invoiceNumber, form.invoiceDate, form.dueDate, form.invoiceType,
                       form.profile, buyer, form.items,
                       totals.totalBeforeTax, totals.totalTax, totals.totalAmount,
                       split.cgst, split.sgst, split.igst, isInterState, Unpaid,
                       inWords(totals.totalAmount));
  }

  /**
   * The save action. A new client is written first, so it stays saved even
   * when the save is then refused for want of lines. On success the invoice
   * gets the number for the current count of invoices plus one and is
   * written to the invoice list; profile and products are never touched.
   * `clientStamp` and `invoiceStamp` stand for the two readings of the clock.
   */
  method HandleSave(store: Store, form: FormState, clientStamp: string, invoiceStamp: string,
                    inWords: real -> string) returns (saved: Option<Invoice>)
    modifies store
    ensures form.isNewClient ==>
      store.clientsData == Some(Upsert(old(store.GetClients()), form.newClient.(id := clientStamp), ClientId))
    ensures !form.isNewClient ==> store.clientsData == old(store.clientsData)
    ensures store.profileData == old(store.profileData) && store.productsData == old(store.productsData)
    ensures saved.Some? <==> CanSave(Buyer(form, clientStamp), form.items)
    ensures saved.None? ==> store.invoicesData == old(store.invoicesData)
    ensures saved.Some? ==>
      && saved.value == AssembleInvoice(invoiceStamp, InvoiceNumber(|old(store.GetInvoices())| + 1),
                                        form, Buyer(form, clientStamp).value, inWords)
      && store.invoicesData == Some(Upsert(old(store.GetInvoices()), saved.value, InvoiceId))
  {
    ghost var invoicesBefore := store.GetInvoices();
    var buyer := form.selectedClient;
    if form.isNewClient {
      buyer := Some(form.newClient.(id := clientStamp));
      store.SaveClient(buyer.value);
    }

    if buyer.None? || |form.items| == 0 {
      return None;
    }

    var number := store.GetNextInvoiceNumber();
    assert store.GetInvoices() == invoicesBefore;
    var invoice := BuildInvoice(invoiceStamp, number, form, buyer.value, inWords);
    store.SaveInvoice(invoice);
    saved := Some(invoice);
  }
}
