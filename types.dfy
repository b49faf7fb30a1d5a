/**
 * The record shapes of the GST billing application: the seller's profile,
 * clients, catalogue products, invoice lines and invoices.
 *
 * Money, quantities and percentages are JavaScript numbers in the
 * application; here they are `real`, so that the arithmetic identities the
 * application relies on hold exactly. Optional fields (`email?`, `gstin?`,
 * `productId?`, ...) become `Option`.
 */
module Types {

  datatype Option<+T> = None | Some(value: T)

  /** The seller: one instance, replaced wholesale when saved. */
  datatype BusinessProfile = BusinessProfile(
    name: string,
    address: string,
    phone: string,
    email: string,
    gstin: string,
    logoUrl: Option<string>,
    signatureUrl: Option<string>,
    terms: string)

  /** A buyer. `id` is an opaque string (a creation time stamp in practice). */
  datatype Client = Client(
    id: string,
    name: string,
    address: string,
    phone: string,
    email: Option<string>,
    gstin: Option<string>)

  /** A catalogue entry; `taxRate` is a percentage (0, 5, 12, 18 or 28 in the UI). */
  datatype Product = Product(
    id: string,
    name: string,
    hsnSac: string,
    costPrice: real,
    sellingPrice: real,
    taxRate: real,
    stock: Option<real>)

  /** One line of an invoice; `discount` and `taxRate` are percentages. */
  datatype InvoiceItem = InvoiceItem(
    id: string,
    productId: Option<string>,
    name: string,
    hsnSac: string,
    quantity: real,
    price: real,
    discount: real,
    taxRate: real)

  datatype InvoiceType = GST | NON_GST | BILL

  datatype Status = Draft | Paid | Unpaid

  /**
   * A saved invoice. Seller and buyer are embedded copies, not references.
   * `cgst`, `sgst` and `igst` are optional in the record type but every
   * invoice the application creates sets all three, so they are plain reals.
   */
  datatype Invoice = Invoice(
    id: string,
    invoiceNumber: string,
    date: string,
    dueDate: string,
    invoiceType: InvoiceType,
    seller: BusinessProfile,
    buyer: Client,
    items: seq<InvoiceItem>,
    totalBeforeTax: real,
    totalTax: real,
    totalAmount: real,
    cgst: real,
    sgst: real,
    igst: real,
    isInterState: bool,
    status: Status,
    amountInWords: string)

  // Key functions: the `id` each collection is indexed by.

  function ClientId(c: Client): string { c.id }

  function ProductId(p: Product): string { p.id }

  function ItemId(i: InvoiceItem): string { i.id }

  function InvoiceId(i: Invoice): string { i.id }
}
