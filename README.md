# GST billing: a verified model of the store, the invoice form and the dashboard

This Dafny project models the non-UI logic of a small GST billing web
application. It has three parts:

- **The persistence service.** There are four independent entries in the
  browser's key-value store. The business profile is a single record with a
  default. Clients, products and invoices are lists that support read-or-empty,
  save (upsert by id) and delete (filter by id). Invoice numbers are derived
  from the length of the invoice list.
- **The invoice form.** This covers line arithmetic (taxable value and tax per
  line, and the totals), the intra-state versus inter-state rule and the
  CGST/SGST/IGST split. It also covers the edits to the draft line list (add,
  remove, update one field, fill from a product) and the save action with its
  validation and its ordered writes.
- **The dashboard.** This covers total sales, GST collected, the count of
  unpaid invoices, and the sales-per-month chart built by a reduce that
  mutates its accumulator.

Modules:

| module | file | models |
|---|---|---|
| `Types` | `types.dfy` | the record shapes: profile, client, product, line, invoice |
| `Collections` | `collections.dfy` | `findIndex`, save-by-id, `filter` by id and `reduce`, written once over a key function |
| `Decimal` | `decimal.dfy` | `String(n)` for naturals, `padStart`, and the inverse reading |
| `Storage` | `storage.dfy` | the storage service: class `Store` and the invoice numbering |
| `InvoiceForm` | `invoice_form.dfy` | the form's calculations, edits and save action |
| `Dashboard` | `dashboard.dfy` | the stats and the monthly chart |

Modelling choices:

- **Money.** Money is `real`, so the identities between totals hold exactly.
- **The store.** `Store` is a class with one `Option` field per storage key.
  `None` means the key is absent. Writing and reading back JSON is the
  identity.
- **Save methods.** They run the `findIndex` scan (`Collections.FindIndex`, a
  loop proved against `FirstIndex`). They then overwrite in place or append,
  and state the new entry as `Upsert` of the old list.
- **Opaque inputs.** Clock and locale readings are parameters:
  - `clientStamp` and `invoiceStamp` stand for the two `Date.now()` ids of
    the save action, and `AddItem`'s `newId` for the new line's id;
  - `FormState.invoiceDate` and `FormState.dueDate` stand for the dates the
    form starts with (today's, from `toISOString`) or the user picks;
  - `monthOf` stands for the month label of a date;
  - `inWords` stands for the amount-in-words text.
- **`updateItem`.** Its `(field, value)` pair is the tagged `ItemEdit`, so a
  value always has its field's type.
- **The chart reduce.** It is the method `MonthlyChart`. Its callback is
  `Accumulate`, which adds to the found entry or pushes a new one. Both are
  proved against the fold `ChartData`.

Definitions without a row of their own, each specified by the rows named:

- `Collections.Upsert` (services/storageService.ts:35-37): save by id. See
  UpsertNewKey, UpsertExistingKey, UpsertContains, UpsertKeys,
  UpsertKeepsUniqueKeys, UpsertIdempotent and the Store save methods.
- `Collections.Sum` (components/Dashboard.tsx:34-35, components/InvoiceForm.tsx:85-86):
  the left fold of `reduce` and `+=`. See SumAppend, CalculateTotals,
  ComputeStats and ChartTotal.
- `InvoiceForm.TaxableValue` and `InvoiceForm.TaxAmount`
  (components/InvoiceForm.tsx:80-83): a line's value after discount and its
  tax. See LineTotal, ExampleLine and CalculateTotals.
- `InvoiceForm.IsInterState` (components/InvoiceForm.tsx:105): the
  inter-state rule. See MissingGstinIsIntraState, InterStateByFirstTwo,
  InterStateSymmetric, ExampleInterState and StateCode.
- `InvoiceForm.ApplyProduct` (components/InvoiceForm.tsx:61-68): a line filled
  from a product. See ProductSelectFills and HandleProductSelect.
- `InvoiceForm.CanSave` (components/InvoiceForm.tsx:99): a buyer and at least
  one line. See HandleSave.
- `Storage.InvoiceNumber` (services/storageService.ts:80): "INV-" and the
  count padded to four digits. See InvoiceNumberRoundTrip,
  InvoiceNumberInjective, InvoiceNumberWidth and FirstInvoiceNumber.
- `Dashboard.AddSale`, `Dashboard.AddAt` and `Dashboard.ChartData`
  (components/Dashboard.tsx:46-55): the reduce callback, the same callback
  taking the found index, and the fold. See Accumulate, MonthlyChart,
  AddSaleNames, AddSaleAt, AddSaleTotal, ChartOrder, ChartEntrySales and
  ChartTotal.

## Model

| member | source | states |
|---|---|---|
| Collections.FirstIndex | services/storageService.ts:35 | -1 exactly when no element has the id; otherwise the position of the first element with it |
| Collections.FindIndex | services/storageService.ts:35 | the `findIndex` scan stops at the first match, or gives -1 |
| Collections.UpsertNewKey | services/storageService.ts:33-38 | saving an unknown id appends it at the end: length grows by one, earlier elements unchanged |
| Collections.UpsertExistingKey | services/storageService.ts:35-36 | saving a known id overwrites only its first occurrence; length and every other position unchanged |
| Collections.UpsertContains | services/storageService.ts:29-38 | after a save the saved element (and its id) is in the list |
| Collections.UpsertKeys | services/storageService.ts:33-38 | the set of ids after a save is the old set plus the saved id |
| Collections.UpsertKeepsUniqueKeys | services/storageService.ts:33-38 | saving keeps ids unique when they were |
| Collections.UpsertIdempotent | services/storageService.ts:33-38 | saving the same record twice is the same as saving it once |
| Collections.RemoveKey | services/storageService.ts:40-43 | no element with the id remains, and an element remains iff it was there with another id |
| Collections.KeptIndices | services/storageService.ts:41 | the increasing positions whose id differs, all of them and only them |
| Collections.RemoveKeyKeepsOrder | services/storageService.ts:41 | the result of a delete is the list read at the kept positions, so relative order is preserved |
| Collections.RemoveKeyAppend | services/storageService.ts:41 | delete distributes over concatenation |
| Collections.RemoveKeyAbsent | services/storageService.ts:40-43 | deleting an id nobody has changes nothing |
| Collections.RemoveKeyIdempotent | services/storageService.ts:40-43 | deleting twice equals deleting once |
| Collections.RemoveKeyLength | services/storageService.ts:41 | a delete removes exactly as many elements as carry the id |
| Collections.RemoveKeyKeepsUniqueKeys | services/storageService.ts:41 | deleting keeps ids unique when they were |
| Collections.RemoveKeyAfterUpsert | services/storageService.ts:33-43 | delete after save of the same id equals delete alone |
| Collections.RemoveKeyOverwrite | services/storageService.ts:36 | overwriting an element with one of the same id does not change what a delete of that id leaves |
| Collections.SumAppend | components/Dashboard.tsx:34 | the reduce over a concatenation is the sum of the two reduces |
| Decimal.ToDecimal | services/storageService.ts:80 | `String(count)` is a non-empty digit string without leading zero |
| Decimal.PadStart | services/storageService.ts:80 | `padStart` fills on the left to the width, keeps the string as suffix, never truncates |
| Decimal.ParseToDecimal | services/storageService.ts:80 | reading back `String(n)` gives `n` |
| Decimal.ParseLeadingZeros | services/storageService.ts:80 | leading '0' fill does not change the value read |
| Storage.InvoiceNumberRoundTrip | services/storageService.ts:77-81 | the number is "INV-" followed by at least four digits whose value is the count |
| Storage.InvoiceNumberInjective | services/storageService.ts:77-81 | different counts give different numbers |
| Storage.InvoiceNumberWidth | services/storageService.ts:80 | exactly four digits below 10000; unpadded and untruncated from 1000 on |
| Storage.FirstInvoiceNumber | services/storageService.ts:77-81 | the first invoice is "INV-0001" |
| Storage.NumberRepeatsAfterDelete | services/storageService.ts:72-81 | after an add and a delete the next number equals that of an invoice still in the list |
| Storage.Store.constructor | services/storageService.ts:3-8 | a fresh store has all four keys absent |
| Storage.Store.GetProfile | services/storageService.ts:11-24 | the stored profile, or the default profile when none is stored |
| Storage.Store.SaveProfile | services/storageService.ts:25-27 | the profile entry becomes the profile; the three lists unchanged |
| Storage.Store.GetClients | services/storageService.ts:29-32 | the stored list, or empty |
| Storage.Store.SaveClient | services/storageService.ts:33-39 | clients become the upsert of the old list; the client reads back; id uniqueness preserved; other keys unchanged |
| Storage.Store.DeleteClient | services/storageService.ts:40-43 | clients become the old list without the id; id uniqueness preserved; other keys unchanged |
| Storage.Store.GetProducts | services/storageService.ts:45-48 | the stored list, or empty |
| Storage.Store.SaveProduct | services/storageService.ts:49-55 | as SaveClient, for products |
| Storage.Store.DeleteProduct | services/storageService.ts:56-59 | as DeleteClient, for products |
| Storage.Store.GetInvoices | services/storageService.ts:61-64 | the stored list, or empty |
| Storage.Store.SaveInvoice | services/storageService.ts:65-71 | as SaveClient, for invoices |
| Storage.Store.DeleteInvoice | services/storageService.ts:72-75 | as DeleteClient, for invoices |
| Storage.Store.GetNextInvoiceNumber | services/storageService.ts:77-81 | the number for the current invoice count plus one, fixed by the length alone |
| InvoiceForm.LineTotal | components/InvoiceForm.tsx:80-83 | taxable + tax of a line is q·p·(1 − d/100)·(1 + t/100) |
| InvoiceForm.ExampleLine | components/InvoiceForm.tsx:80-83 | 2 × 100 at 10% discount and 18% tax: 180 taxable, 32.4 tax |
| InvoiceForm.CalculateTotals | components/InvoiceForm.tsx:75-90 | the loop's sums are the sums of the per-line taxable values and taxes; grand total = before tax + tax; no lines gives zeros |
| InvoiceForm.StateCode | components/InvoiceForm.tsx:105 | `substring(0, 2)`: a prefix of length min(2, length) |
| InvoiceForm.MissingGstinIsIntraState | components/InvoiceForm.tsx:105 | a missing or empty GSTIN on either side makes the sale intra-state |
| InvoiceForm.InterStateByFirstTwo | components/InvoiceForm.tsx:105 | for GSTINs of two or more characters: inter-state iff the first two characters differ |
| InvoiceForm.InterStateSymmetric | components/InvoiceForm.tsx:105 | swapping buyer and seller GSTIN does not change the outcome |
| InvoiceForm.ExampleInterState | components/InvoiceForm.tsx:105 | state 29 buying from 27 is inter-state; 27 from 27 and no GSTIN are not |
| InvoiceForm.SplitTax | components/InvoiceForm.tsx:119-121 | inter-state: all IGST; otherwise CGST = SGST = half; the three add up to the total tax |
| InvoiceForm.SplitIsExclusive | components/InvoiceForm.tsx:119-121 | with non-zero tax exactly one of IGST and CGST + SGST is non-zero |
| InvoiceForm.AddItem | components/InvoiceForm.tsx:30-41 | appends exactly one line with the given id, no product, empty name and HSN/SAC, quantity 1, price 0, discount 0, tax 0 for NON_GST and 18 otherwise |
| InvoiceForm.AddItemKeepsTotals | components/InvoiceForm.tsx:30-41 | adding a blank line leaves both sums unchanged |
| InvoiceForm.RemoveItem | components/InvoiceForm.tsx:43-45 | drops every line with the id and keeps all others |
| InvoiceForm.ApplyEdit | components/InvoiceForm.tsx:50 | the named field takes the value; every other field is kept |
| InvoiceForm.UpdateItem | components/InvoiceForm.tsx:47-54 | same length; lines with another id unchanged; matching lines change only the named field |
| InvoiceForm.UpdateUnknownItem | components/InvoiceForm.tsx:47-54 | editing an id no line has changes nothing |
| InvoiceForm.UpdateItemIdempotent | components/InvoiceForm.tsx:47-54 | repeating an edit has no further effect |
| InvoiceForm.ApplyEditIdempotent | components/InvoiceForm.tsx:50 | setting a field to the value it already holds is no change |
| InvoiceForm.DescriptiveEditKeepsTotals | components/InvoiceForm.tsx:47-54 | editing id, product link, name or HSN/SAC leaves the totals unchanged |
| InvoiceForm.HandleProductSelect | components/InvoiceForm.tsx:56-73 | same length; lines with another id unchanged; no line's id, quantity or discount changes |
| InvoiceForm.ProductSelectUnknown | components/InvoiceForm.tsx:57-58 | an unknown product id leaves the lines unchanged |
| InvoiceForm.ProductSelectFills | components/InvoiceForm.tsx:56-73 | with a known product the selected lines take its id, name, code, selling price and tax rate (0 for NON_GST) |
| InvoiceForm.Buyer | components/InvoiceForm.tsx:93-96 | the new client stamped with the fresh id, or the selected client |
| InvoiceForm.AssembleInvoice | components/InvoiceForm.tsx:104-126 | the invoice record: totals from the lines, inter-state by the GSTIN rule, split adding up to the tax, status Unpaid, the form's dates, parties and lines |
| InvoiceForm.BuildInvoice | components/InvoiceForm.tsx:104-126 | the totals loop, the inter-state rule and the split build exactly the record AssembleInvoice describes |
| InvoiceForm.HandleSave | components/InvoiceForm.tsx:92-130 | a new client is saved first even when the save is refused; saved iff there is a buyer and a line; on success the invoice numbered from the prior count is upserted; profile and products untouched |
| Dashboard.UnpaidInvoices | components/Dashboard.tsx:36 | the unpaid invoices, each with its multiplicity, and no others |
| Dashboard.ComputeStats | components/Dashboard.tsx:34-43 | sales and GST are the sums over the invoices; pending is the number of unpaid invoices, counted with multiplicity (UnpaidInvoices); pending ≤ total = length; pending is 0 iff no invoice is unpaid; no invoices gives zeros |
| Dashboard.SalesAreNetPlusGst | components/Dashboard.tsx:34-35 | over invoices the form created, total sales = sales before tax + GST |
| Dashboard.Months | components/Dashboard.tsx:47 | the month label of each invoice in list order |
| Dashboard.ChartDataStep | components/Dashboard.tsx:46-55 | one more invoice folds into the chart by AddSale |
| Dashboard.Accumulate | components/Dashboard.tsx:47-54 | the reduce callback's in-place update or push equals AddSale |
| Dashboard.MonthlyChart | components/Dashboard.tsx:46-55 | the reduce over the invoices yields ChartData |
| Dashboard.AddSaleNames | components/Dashboard.tsx:48-53 | the callback keeps the entry names and appends the month only when new |
| Dashboard.ChartOrder | components/Dashboard.tsx:46-55 | the chart's month names are the distinct months in order of first occurrence |
| Dashboard.ChartNamesDistinct | components/Dashboard.tsx:46-55 | no month label appears twice in the chart |
| Dashboard.ChartMonths | components/Dashboard.tsx:46-55 | the chart has an entry for exactly the months of the invoices |
| Dashboard.MonthSalesAbsent | components/Dashboard.tsx:46-55 | a month with no invoice has no sales |
| Dashboard.AddSaleAt | components/Dashboard.tsx:48-53 | per entry: an old entry gains the amount iff it is the month's; a new entry is the month's and appears only when the month had none |
| Dashboard.AddSaleTotal | components/Dashboard.tsx:48-53 | the callback adds the invoice's amount to the total of the entries |
| Dashboard.ChartEntrySales | components/Dashboard.tsx:46-55 | each entry's sales are the sales of exactly the invoices of its month |
| Dashboard.ChartTotal | components/Dashboard.tsx:34-55 | the chart's sales add up to total sales |
| Dashboard.EmptyDashboard | components/Dashboard.tsx:34-46 | no invoices: zero stats and an empty chart |

## Left out

- Browser storage and JSON: `localStorage` and `JSON.parse`/`JSON.stringify` are a field per key, and serialisation is the identity. A stored entry that fails to parse is not modelled.
- Clock and locale: `Date.now()` ids, `new Date(...)`, `toISOString` and the `toLocaleString` month label are parameters (`clientStamp`, `invoiceStamp`, `AddItem`'s `newId`, `FormState.invoiceDate`, `FormState.dueDate`, `monthOf`). Their freshness is not modelled: two saves within one millisecond would collide in the application.
- Number arithmetic: JavaScript `number` is IEEE-754. The model uses exact `real`, so rounding error, NaN from `parseFloat` and the `toFixed`/`toLocaleString` display formatting are not modelled.
- InvoiceForm.AssembleInvoice: `amountInWords` is `inWords(totalAmount)` for a parameter `inWords`. The `Math.round` and the fixed "Rupees … Only" text are not modelled.
- Optional invoice fields: `cgst`, `sgst`, `igst` and `amountInWords` are optional in `types.ts`. The save action always sets them, so they are plain fields here. Other optional fields are `Option`s.
- The `DashboardStats` interface is unused by the dashboard, which builds its own stats record (`Dashboard.Stats`).
- The chart accumulator holds objects that are mutated through a reference returned by `find`. Here it holds values, replaced at the found position, which has the same effect on the list.
- Dashboard rendering: the stat cards, the bar chart and the recent-invoices list (the first five invoices) are display only, so they are left out.
- UI, routing and interaction: JSX, React state hooks, `navigate`, `alert`, `confirm` and `window.print` are left out. The invoice view, the layout and the app shell are display only. The settings page, the inventory page and the invoice list are UI too: they reach the store only through the operations modelled here (`Store.SaveProfile`, `Store.SaveClient`/`Store.DeleteClient`, `Store.SaveProduct`/`Store.DeleteProduct`, `Store.DeleteInvoice`), and their own logic is left out — for example the inventory page's id choice `formData.id || Date.now().toString()` and the invoice list's reversal for display.
- The line totals shown in the form's table and in the invoice view ignore the discount. They are never stored or summed, so they are left out.
- InvoiceForm.StateCode: takes the first two characters (Unicode scalar values), where `substring(0, 2)` takes two UTF-16 code units. The two agree on GSTINs, which are ASCII, and differ only on text outside the Basic Multilingual Plane.
- InvoiceForm.HandleProductSelect: the product list is the one loaded when the form opens, passed as a parameter. Later changes to the store do not reach it in the application either.
