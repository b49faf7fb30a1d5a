/**
 * The dashboard's figures over the saved invoices: total sales, GST
 * collected, the number of unpaid invoices, and the sales per month for the
 * bar chart. The month label of an invoice date is locale- and
 * clock-dependent, so it is the parameter `monthOf`.
 */
module Dashboard {
  import opened Types
  import opened Collections
  import InvoiceForm

  function SaleAmount(inv: Invoice): real { inv.totalAmount }

  function GstAmount(inv: Invoice): real { inv.totalTax }

  function NetAmount(inv: Invoice): real { inv.totalBeforeTax }

  /** The invoices whose status is unpaid, in order. */
  function UnpaidInvoices(invs: seq<Invoice>): (r: seq<Invoice>)
    ensures |r| <= |invs|
    ensures forall inv :: inv in r <==> inv in invs && inv.status == Unpaid
    ensures forall inv :: multiset(r)[inv] == if inv.status == Unpaid then multiset(invs)[inv] else 0
  {
    if |invs| == 0 then []
    else
      assert invs == [invs[0]] + invs[1..];
      if invs[0].status == Unpaid then [invs[0]] + UnpaidInvoices(invs[1..])
      else UnpaidInvoices(invs[1..])
  }

  datatype Stats = Stats(totalSales: real, totalGst: real, pendingInvoices: nat, totalInvoices: nat)

  /** The four stat cards. */
  function ComputeStats(invs: seq<Invoice>): (s: Stats)
    ensures s.totalSales == Sum(invs, SaleAmount) && s.totalGst == Sum(invs, GstAmount)
    ensures s.pendingInvoices == |UnpaidInvoices(invs)|
    ensures s.totalInvoices == |invs| && s.pendingInvoices <= s.totalInvoices
    ensures s.pendingInvoices == 0 <==> forall inv :: inv in invs ==> inv.status != Unpaid
    ensures invs == [] ==> s == Stats(0.0, 0.0, 0, 0)
  {
    var unpaid := UnpaidInvoices(invs);
    assert unpaid != [] ==> unpaid[0] in unpaid;
    Stats(Sum(invs, SaleAmount), Sum(invs, GstAmount), |unpaid|, |invs|)
  }

  /**
   * When every invoice is one the form created, total sales split exactly into
   * the sales before tax and the GST collected.
   */
  lemma {:induction false} SalesAreNetPlusGst(invs: seq<Invoice>)
    requires forall inv :: inv in invs ==> InvoiceForm.Consistent(inv)
    ensures Sum(invs, SaleAmount) == Sum(invs, NetAmount) + Sum(invs, GstAmount)
  {
    if |invs| > 0 {
      var last := invs[|invs| - 1];
      assert last in invs;
      SalesAreNetPlusGst(invs[..|invs| - 1]);
    }
  }

  // ----------------------------------------------------------- chart data

  datatype ChartEntry = ChartEntry(name: string, sales: real)

  function EntryName(e: ChartEntry): string { e.name }

  function EntrySales(e: ChartEntry): real { e.sales }

  /** One invoice into the accumulator: add to its month's entry, or push a new entry. */
  function AddSale(acc: seq<ChartEntry>, month: string, amount: real): seq<ChartEntry>
  {
    AddAt(acc, FirstIndex(acc, month, EntryName), month, amount)
  }

  /** The entry at `k` gains the amount; with no entry (`k` negative) a new one is pushed. */
  function AddAt(acc: seq<ChartEntry>, k: int, month: string, amount: real): seq<ChartEntry>
    requires k < |acc|
  {
    if k >= 0 then acc[k := acc[k].(sales := acc[k].sales + amount)]
    else acc + [ChartEntry(month, amount)]
  }

  /** The chart data: the invoices folded left to right through AddSale. */
  function ChartData(invs: seq<Invoice>, monthOf: string -> string): seq<ChartEntry>
  {
    if |invs| == 0 then []
    else
      var last := invs[|invs| - 1];
      AddSale(ChartData(invs[..|invs| - 1], monthOf), monthOf(last.date), last.totalAmount)
  }

  /** The month label of every invoice, in list order. */
  function Months(invs: seq<Invoice>, monthOf: string -> string): (r: seq<string>)
    ensures |r| == |invs|
    ensures forall i :: 0 <= i < |invs| ==> r[i] == monthOf(invs[i].date)
  {
    seq(|invs|, i requires 0 <= i < |invs| => monthOf(invs[i].date))
  }

  /** The sales of the invoices dated in `month`. */
  function MonthSales(invs: seq<Invoice>, monthOf: string -> string, month: string): real
  {
    if |invs| == 0 then 0.0
    else
      var last := invs[|invs| - 1];
      MonthSales(invs[..|invs| - 1], monthOf, month)
        + (if monthOf(last.date) == month then last.totalAmount else 0.0)
  }

  /** One more invoice of the list folded into the chart. */
  lemma ChartDataStep(invs: seq<Invoice>, monthOf: string -> string, i: nat)
    requires i < |invs|
    ensures ChartData(invs[..i + 1], monthOf)
         == AddSale(ChartData(invs[..i], monthOf), monthOf(invs[i].date), invs[i].totalAmount)
  {
    assert invs[..i + 1][..i] == invs[..i];
  }

  /**
   * The reducer: find the month's entry and add to its sales in place, or
   * push a new entry.
   */
  method Accumulate(acc: seq<ChartEntry>, month: string, amount: real) returns (r: seq<ChartEntry>)
    ensures r == AddSale(acc, month, amount)
  {
    var existing := FindIndex(acc, month, EntryName);
    assert AddSale(acc, month, amount) == AddAt(acc, existing, month, amount);
    if existing >= 0 {
      var entry := acc[existing];
      r := acc[existing := entry.(sales := entry.sales + amount)];
    } else {
      r := acc + [ChartEntry(month, amount)];
    }
  }

  /** The reduce over the invoices, starting from an empty list. */
  method MonthlyChart(invs: seq<Invoice>, monthOf: string -> string) returns (data: seq<ChartEntry>)
    ensures data == ChartData(invs, monthOf)
  {
    data := [];
    for i := 0 to |invs|
      invariant data == ChartData(invs[..i], monthOf)
    {
      ChartDataStep(invs, monthOf, i);
      data := Accumulate(data, monthOf(invs[i].date), invs[i].totalAmount);
    }
    assert invs[..|invs|] == invs;
  }

  /** AddSale keeps the entry names, adding the month at the end when it is new. */
  lemma AddSaleNames(acc: seq<ChartEntry>, month: string, amount: real)
    ensures Keys(AddSale(acc, month, amount), EntryName)
         == if month in Keys(acc, EntryName) then Keys(acc, EntryName) else Keys(acc, EntryName) + [month]
  {
    var k := FirstIndex(acc, month, EntryName);
    var r := AddSale(acc, month, amount);
    if k >= 0 {
      assert forall i :: 0 <= i < |acc| ==> EntryName(r[i]) == EntryName(acc[i]);
    }
  }

  /** Months appear in the chart in the order of their first invoice, each once. */
  lemma {:induction false} ChartOrder(invs: seq<Invoice>, monthOf: string -> string)
    ensures Keys(ChartData(invs, monthOf), EntryName) == Dedup(Months(invs, monthOf))
  {
    if |invs| > 0 {
      var n := |invs| - 1;
      var last := invs[n];
      ChartOrder(invs[..n], monthOf);
      assert Months(invs, monthOf)[..n] == Months(invs[..n], monthOf);
      AddSaleNames(ChartData(invs[..n], monthOf), monthOf(last.date), last.totalAmount);
    }
  }

  /** No month label appears twice in the chart. */
  lemma ChartNamesDistinct(invs: seq<Invoice>, monthOf: string -> string)
    ensures UniqueKeys(ChartData(invs, monthOf), EntryName)
  {
    ChartOrder(invs, monthOf);
  }

  /** The chart has an entry for exactly the months of the invoices. */
  lemma ChartMonths(invs: seq<Invoice>, monthOf: string -> string)
    ensures forall m :: m in Keys(ChartData(invs, monthOf), EntryName) <==> m in Months(invs, monthOf)
  {
    ChartOrder(invs, monthOf);
  }

  /** A month without invoices has no sales. */
  lemma {:induction false} MonthSalesAbsent(invs: seq<Invoice>, monthOf: string -> string, month: string)
    requires month !in Months(invs, monthOf)
    ensures MonthSales(invs, monthOf, month) == 0.0
  {
    if |invs| > 0 {
      var n := |invs| - 1;
      assert Months(invs, monthOf)[..n] == Months(invs[..n], monthOf);
      assert Months(invs, monthOf)[n] == monthOf(invs[n].date);
      MonthSalesAbsent(invs[..n], monthOf, month);
    }
  }

  /**
   * What AddSale does to one entry: an old entry keeps its name and gains the
   * amount when it is the month's entry; a new entry is the month's, and
   * only when the month had none.
   */
  lemma AddSaleAt(acc: seq<ChartEntry>, month: string, amount: real, k: nat)
    requires UniqueKeys(acc, EntryName)
    requires k < |AddSale(acc, month, amount)|
    ensures var r := AddSale(acc, month, amount);
      && (k < |acc| ==> r[k].name == acc[k].name
                        && r[k].sales == acc[k].sales + (if acc[k].name == month then amount else 0.0))
      && (k >= |acc| ==> k == |acc| && r[k] == ChartEntry(month, amount) && month !in Keys(acc, EntryName))
  {
    var i := FirstIndex(acc, month, EntryName);
    if i >= 0 && k < |acc| && k != i {
      assert Keys(acc, EntryName)[k] != Keys(acc, EntryName)[i];
    }
  }

  /** Folding one more invoice adds its amount to the total of the entries. */
  lemma AddSaleTotal(acc: seq<ChartEntry>, month: string, amount: real)
    ensures Sum(AddSale(acc, month, amount), EntrySales) == Sum(acc, EntrySales) + amount
  {
    var i := FirstIndex(acc, month, EntryName);
    var r := AddSale(acc, month, amount);
    if i >= 0 {
      var e := acc[i].(sales := acc[i].sales + amount);
      assert r == acc[i := e];
      SumUpdate(acc, i, e, EntrySales);
      assert EntrySales(e) == EntrySales(acc[i]) + amount;
    } else {
      assert r == acc + [ChartEntry(month, amount)];
      assert r[..|r| - 1] == acc;
      assert Sum(r, EntrySales) == Sum(acc, EntrySales) + EntrySales(r[|r| - 1]);
    }
  }

  /** Each chart entry holds the sales of exactly the invoices of its month. */
  lemma {:induction false} ChartEntrySales(invs: seq<Invoice>, monthOf: string -> string)
    ensures forall k :: 0 <= k < |ChartData(invs, monthOf)| ==>
      ChartData(invs, monthOf)[k].sales == MonthSales(invs, monthOf, ChartData(invs, monthOf)[k].name)
  {
    if |invs| > 0 {
      var n := |invs| - 1;
      var last := invs[n];
      var m := monthOf(last.date);
      var acc := ChartData(invs[..n], monthOf);
      var data := ChartData(invs, monthOf);
      assert data == AddSale(acc, m, last.totalAmount);
      ChartEntrySales(invs[..n], monthOf);
      assert forall j :: 0 <= j < |acc| ==> acc[j].sales == MonthSales(invs[..n], monthOf, acc[j].name);
      ChartNamesDistinct(invs[..n], monthOf);
      forall k | 0 <= k < |data|
        ensures data[k].sales == MonthSales(invs, monthOf, data[k].name)
      {
        AddSaleAt(acc, m, last.totalAmount, k);
        assert MonthSales(invs, monthOf, data[k].name)
            == MonthSales(invs[..n], monthOf, data[k].name) + (if m == data[k].name then last.totalAmount else 0.0);
        if k < |acc| {
          assert acc[k].sales == MonthSales(invs[..n], monthOf, acc[k].name);
        } else {
          ChartMonths(invs[..n], monthOf);
          MonthSalesAbsent(invs[..n], monthOf, m);
        }
      }
    }
  }

  /** The chart's sales add up to the total sales. */
  lemma {:induction false} ChartTotal(invs: seq<Invoice>, monthOf: string -> string)
    ensures Sum(ChartData(invs, monthOf), EntrySales) == Sum(invs, SaleAmount)
  {
    if |invs| > 0 {
      var n := |invs| - 1;
      var last := invs[n];
      ChartTotal(invs[..n], monthOf);
      AddSaleTotal(ChartData(invs[..n], monthOf), monthOf(last.date), last.totalAmount);
    }
  }

  /** No invoices: no sales, no GST, nothing pending, an empty chart. */
  lemma EmptyDashboard(monthOf: string -> string)
    ensures ComputeStats([]) == Stats(0.0, 0.0, 0, 0)
    ensures ChartData([], monthOf) == []
  {
  }
}
