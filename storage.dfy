/**
 * The persistence service: four independent entries of the browser's
 * key-value store, `gst_app_profile`, `gst_app_clients`, `gst_app_products`
 * and `gst_app_invoices`. Each entry is either absent or holds the value last
 * written to it; serialisation to and from JSON is taken to be the identity.
 */
module Storage {
  import opened Types
  import opened Collections
  import opened Decimal

  /** The profile read when none has been saved. */
  const DefaultProfile := BusinessProfile(
    "My Business",
    "123 Business St, Tech City",
    "9876543210",
    "contact@business.com",
    "",
    None,
    None,
    "1. Goods once sold will not be taken back.\n2. Interest @18% pa will be charged if payment is delayed.")

  /** The invoice number for the `count`-th invoice: "INV-" and `count` padded to four digits. */
  function InvoiceNumber(count: nat): string
  {
    "INV-" + PadStart(ToDecimal(count), 4, '0')
  }

  /**
   * The number reads back: "INV-" followed by at least four digits whose value
   * is `count`.
   */
  lemma InvoiceNumberRoundTrip(count: nat)
    ensures var r := InvoiceNumber(count);
      |r| >= 8 && r[..4] == "INV-" && AllDigits(r[4..]) && ParseDecimal(r[4..]) == count
  {
    var d := ToDecimal(count);
    var p := PadStart(d, 4, '0');
    var z := p[..|p| - |d|];
    assert p == z + d;
    ParseLeadingZeros(z, d);
    ParseToDecimal(count);
    assert InvoiceNumber(count)[4..] == p;
  }

  /** Different counts give different numbers. */
  lemma InvoiceNumberInjective(a: nat, b: nat)
    requires InvoiceNumber(a) == InvoiceNumber(b)
    ensures a == b
  {
    InvoiceNumberRoundTrip(a);
    InvoiceNumberRoundTrip(b);
  }

  /** Up to 9999 the number has exactly four digits; from 1000 on it is not padded, and never cut. */
  lemma InvoiceNumberWidth(count: nat)
    ensures count < 10000 ==> |InvoiceNumber(count)| == 8
    ensures count >= 1000 ==> InvoiceNumber(count) == "INV-" + ToDecimal(count)
  {
    ToDecimalLength(count);
  }

  /** The first invoice is "INV-0001". */
  lemma FirstInvoiceNumber()
    ensures InvoiceNumber(1) == "INV-0001"
  {
    assert ToDecimal(1) == "1";
    assert PadStart("1", 4, '0') == "000" + "1";
  }

  /**
   * The number depends on the length alone: after an invoice with a fresh id
   * is added and another invoice deleted, the next invoice receives the same
   * number as the one just added, which is still in the list.
   */
  lemma NumberRepeatsAfterDelete(invoices: seq<Invoice>, added: Invoice, deleted: string)
    requires added.id !in Keys(invoices, InvoiceId)
    requires multiset(Keys(invoices, InvoiceId))[deleted] == 1
    requires added.invoiceNumber == InvoiceNumber(|invoices| + 1)
    ensures var after := RemoveKey(Upsert(invoices, added, InvoiceId), deleted, InvoiceId);
      added in after && InvoiceNumber(|after| + 1) == added.invoiceNumber
  {
    var ks := Keys(invoices, InvoiceId);
    var saved := Upsert(invoices, added, InvoiceId);
    var after := RemoveKey(saved, deleted, InvoiceId);
    UpsertNewKey(invoices, added, InvoiceId);
    assert added.id != deleted by { assert deleted in multiset(ks); }
    assert Keys(saved, InvoiceId) == ks + [added.id];
    assert multiset(Keys(saved, InvoiceId))[deleted] == 1;
    RemoveKeyLength(saved, deleted, InvoiceId);
    assert |after| == |invoices|;
    assert saved[|invoices|] == added;
  }

  /** The browser store as seen by the application. */
  class Store {
    var profileData: Option<BusinessProfile>
    var clientsData: Option<seq<Client>>
    var productsData: Option<seq<Product>>
    var invoicesData: Option<seq<Invoice>>

    /** A store in which nothing has been saved yet. */
    constructor ()
      ensures profileData == None && clientsData == None
      ensures productsData == None && invoicesData == None
    {
      profileData, clientsData, productsData, invoicesData := None, None, None, None;
    }

    /** No collection holds two records with the same id. */
    ghost predicate IdsUnique()
      reads this
    {
      UniqueKeys(GetClients(), ClientId) &&
      UniqueKeys(GetProducts(), ProductId) &&
      UniqueKeys(GetInvoices(), InvoiceId)
    }

    function GetProfile(): (p: BusinessProfile)
      reads this
      ensures profileData == None ==> p == DefaultProfile
      ensures profileData != None ==> p == profileData.value
    {
      if profileData.Some? then profileData.value else DefaultProfile
    }

    method SaveProfile(profile: BusinessProfile)
      modifies this
      ensures profileData == Some(profile) && GetProfile() == profile
      ensures clientsData == old(clientsData) && productsData == old(productsData)
      ensures invoicesData == old(invoicesData)
    {
      profileData := Some(profile);
    }

    function GetClients(): (cs: seq<Client>)
      reads this
      ensures clientsData == None ==> cs == []
      ensures clientsData != None ==> cs == clientsData.value
    {
      if clientsData.Some? then clientsData.value else []
    }

    method SaveClient(client: Client)
      modifies this
      ensures clientsData == Some(Upsert(old(GetClients()), client, ClientId))
      ensures client in GetClients()
      ensures old(IdsUnique()) ==> IdsUnique()
      ensures profileData == old(profileData) && productsData == old(productsData)
      ensures invoicesData == old(invoicesData)
    {
      var clients := GetClients();
      var index := FindIndex(clients, client.id, ClientId);
      if index >= 0 {
        clients := clients[index := client];
      } else {
        clients := clients + [client];
      }
      UpsertContains(GetClients(), client, ClientId);
      if IdsUnique() { UpsertKeepsUniqueKeys(GetClients(), client, ClientId); }
      clientsData := Some(clients);
    }

    method DeleteClient(id: string)
      modifies this
      ensures clientsData == Some(RemoveKey(old(GetClients()), id, ClientId))
      ensures old(IdsUnique()) ==> IdsUnique()
      ensures profileData == old(profileData) && productsData == old(productsData)
      ensures invoicesData == old(invoicesData)
    {
      if IdsUnique() { RemoveKeyKeepsUniqueKeys(GetClients(), id, ClientId); }
      clientsData := Some(RemoveKey(GetClients(), id, ClientId));
    }

    function GetProducts(): (ps: seq<Product>)
      reads this
      ensures productsData == None ==> ps == []
      ensures productsData != None ==> ps == productsData.value
    {
      if productsData.Some? then productsData.value else []
    }

    method SaveProduct(product: Product)
      modifies this
      ensures productsData == Some(Upsert(old(GetProducts()), product, ProductId))
      ensures product in GetProducts()
      ensures old(IdsUnique()) ==> IdsUnique()
      ensures profileData == old(profileData) && clientsData == old(clientsData)
      ensures invoicesData == old(invoicesData)
    {
      var products := GetProducts();
      var index := FindIndex(products, product.id, ProductId);
      if index >= 0 {
        products := products[index := product];
      } else {
        products := products + [product];
      }
      UpsertContains(GetProducts(), product, ProductId);
      if IdsUnique() { UpsertKeepsUniqueKeys(GetProducts(), product, ProductId); }
      productsData := Some(products);
    }

    method DeleteProduct(id: string)
      modifies this
      ensures productsData == Some(RemoveKey(old(GetProducts()), id, ProductId))
      ensures old(IdsUnique()) ==> IdsUnique()
      ensures profileData == old(profileData) && clientsData == old(clientsData)
      ensures invoicesData == old(invoicesData)
    {
      if IdsUnique() { RemoveKeyKeepsUniqueKeys(GetProducts(), id, ProductId); }
      productsData := Some(RemoveKey(GetProducts(), id, ProductId));
    }

    function GetInvoices(): (invs: seq<Invoice>)
      reads this
      ensures invoicesData == None ==> invs == []
      ensures invoicesData != None ==> invs == invoicesData.value
    {
      if invoicesData.Some? then invoicesData.value else []
    }

    method SaveInvoice(invoice: Invoice)
      modifies this
      ensures invoicesData == Some(Upsert(old(GetInvoices()), invoice, InvoiceId))
      ensures invoice in GetInvoices()
      ensures old(IdsUnique()) ==> IdsUnique()
      ensures profileData == old(profileData) && clientsData == old(clientsData)
      ensures productsData == old(productsData)
    {
      var invoices := GetInvoices();
      var index := FindIndex(invoices, invoice.id, InvoiceId);
      if index >= 0 {
        invoices := invoices[index := invoice];
      } else {
        invoices := invoices + [invoice];
      }
      UpsertContains(GetInvoices(), invoice, InvoiceId);
      if IdsUnique() { UpsertKeepsUniqueKeys(GetInvoices(), invoice, InvoiceId); }
      invoicesData := Some(invoices);
    }

    method DeleteInvoice(id: string)
      modifies this
      ensures invoicesData == Some(RemoveKey(old(GetInvoices()), id, InvoiceId))
      ensures old(IdsUnique()) ==> IdsUnique()
      ensures profileData == old(profileData) && clientsData == old(clientsData)
      ensures productsData == old(productsData)
    {
      if IdsUnique() { RemoveKeyKeepsUniqueKeys(GetInvoices(), id, InvoiceId); }
      invoicesData := Some(RemoveKey(GetInvoices(), id, InvoiceId));
    }

    /**
     * The number the next invoice receives: that of the current number of
     * invoices plus one, so it is fixed by the length of the list alone.
     */
    function GetNextInvoiceNumber(): (r: string)
      reads this
      ensures r == InvoiceNumber(|GetInvoices()| + 1)
    {
      InvoiceNumber(|GetInvoices()| + 1)
    }
  }
}
