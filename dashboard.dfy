/**
 * `components/Dashboard.tsx`: the totals over the shown entries, the chart
 * series, the pie of payment channels, net and average markup, and the
 * empty state.
 */
module Dashboard {
  import opened Wrappers
  import opened Numbers
  import opened Types
  import opened Seqs
  import opened Formatters
  import DataService

  /** The accumulator of the `totals` reduction. */
  datatype Totals = Totals(totalEntry: Num, totalExit: Num, totalMarkup: Num,
                           totalCash: Num, totalPix: Num, totalCard: Num)

  /** One step of the reduction: each field grows by its source field of `curr`. */
  function Accumulate(acc: Totals, curr: Entry): Totals {
    Totals(Plus(acc.totalEntry, curr.TotalEntry()), Plus(acc.totalExit, curr.exit),
           Plus(acc.totalMarkup, curr.Markup()), Plus(acc.totalCash, curr.cashIn),
           Plus(acc.totalPix, curr.pixIn), Plus(acc.totalCard, curr.cardIn))
  }

  /** `totals`: the reduction from all zeros, left to right. */
  function TotalsOf(entries: seq<Entry>): (t: Totals)
    ensures t.totalEntry.Some? <==> forall e :: e in entries ==> e.TotalEntry().Some?
    ensures t.totalExit.Some? <==> forall e :: e in entries ==> e.exit.Some?
    ensures t.totalMarkup.Some? <==> forall e :: e in entries ==> e.Markup().Some?
    ensures t.totalCash.Some? <==> forall e :: e in entries ==> e.cashIn.Some?
    ensures t.totalPix.Some? <==> forall e :: e in entries ==> e.pixIn.Some?
    ensures t.totalCard.Some? <==> forall e :: e in entries ==> e.cardIn.Some?
  {
    if entries == [] then Totals(Some(0.0), Some(0.0), Some(0.0), Some(0.0), Some(0.0), Some(0.0))
    else Accumulate(TotalsOf(entries[..|entries| - 1]), entries[|entries| - 1])
  }

  /** Each total is the sum, over every entry, of its own source field. */
  lemma {:induction false} TotalsAreSums(entries: seq<Entry>)
    ensures TotalsOf(entries).totalEntry == SumNum(entries, (e: Entry) => e.TotalEntry())
    ensures TotalsOf(entries).totalExit == SumNum(entries, (e: Entry) => e.exit)
    ensures TotalsOf(entries).totalMarkup == SumNum(entries, (e: Entry) => e.Markup())
    ensures TotalsOf(entries).totalCash == SumNum(entries, (e: Entry) => e.cashIn)
    ensures TotalsOf(entries).totalPix == SumNum(entries, (e: Entry) => e.pixIn)
    ensures TotalsOf(entries).totalCard == SumNum(entries, (e: Entry) => e.cardIn)
  {
    if entries != [] {
      TotalsAreSums(entries[..|entries| - 1]);
    }
  }

  /** The net card: total entry minus total exit. */
  function Net(t: Totals): (n: Num)
    ensures n.Some? <==> t.totalEntry.Some? && t.totalExit.Some?
  {
    Minus(t.totalEntry, t.totalExit)
  }

  /** On calculated entries with their exits recorded, net is the sum of the day balances. */
  lemma NetIsSumOfBalances(entries: seq<Entry>)
    requires forall e :: e in entries ==> DataService.Fresh(e) && e.exit.Some?
    ensures Net(TotalsOf(entries)) == SumNum(entries, (e: Entry) => e.Balance())
  {
    TotalsAreSums(entries);
    DataService.SumOfBalances(entries);
  }

  /**
   * The average-markup caption: total markup over total entry, times 100;
   * a total entry of 0 (or NaN) is replaced by 1, so nothing is divided by 0.
   */
  function AverageMarkupPercent(t: Totals): (pct: Num)
    ensures pct.Some? <==> t.totalMarkup.Some?
    ensures pct.Some? && t.totalEntry.Some? && t.totalEntry.value != 0.0 ==>
      pct.value * t.totalEntry.value == t.totalMarkup.value * 100.0
    ensures pct.Some? && (t.totalEntry.None? || t.totalEntry.value == 0.0) ==>
      pct.value == t.totalMarkup.value * 100.0
  {
    Times(Div(t.totalMarkup, OrOne(t.totalEntry)), Some(100.0))
  }

  /** One point of the line chart. */
  datatype ChartPoint = ChartPoint(name: string, total: Num, exit: Num, markup: Num)

  function Point(e: Entry): ChartPoint {
    ChartPoint(FormatDate(e.date), e.TotalEntry(), e.exit, e.Markup())
  }

  /** `chartData`: the entries in reverse order (oldest first, as they arrive newest first), one point each. */
  function ChartData(entries: seq<Entry>): (r: seq<ChartPoint>)
    ensures |r| == |entries|
    ensures forall i :: 0 <= i < |entries| ==> r[i] == Point(entries[|entries| - 1 - i])
  {
    var reversed := Reverse(entries);
    seq(|reversed|, i requires 0 <= i < |reversed| => Point(reversed[i]))
  }

  /** Entries shown newest first give a chart that runs oldest to newest. */
  lemma ChartRunsForward(entries: seq<Entry>, time: string -> int)
    requires DataService.SortedByDateDesc(entries, time)
    ensures var r := Reverse(entries);
      forall i, j :: 0 <= i < j < |r| ==> time(r[i].date) <= time(r[j].date)
    ensures forall i :: 0 <= i < |entries| ==> ChartData(entries)[i] == Point(Reverse(entries)[i])
  {
  }

  /** One slice of the pie. */
  datatype Slice = Slice(name: string, value: Num, color: string)

  /** `pieData`: cash, then PIX, then card, each with its channel total. */
  function PieData(t: Totals): (r: seq<Slice>)
    ensures |r| == 3
    ensures r[0].name == "Dinheiro" && r[1].name == "PIX" && r[2].name == "Cartão"
    ensures r[0].value == t.totalCash && r[1].value == t.totalPix && r[2].value == t.totalCard
  {
    [Slice("Dinheiro", t.totalCash, "#10b981"),
     Slice("PIX", t.totalPix, "#3b82f6"),
     Slice("Cartão", t.totalCard, "#f59e0b")]
  }

  /** On calculated entries with all three channels recorded, the slices add up to the total entry card. */
  lemma PieAddsUpToTotalEntry(entries: seq<Entry>)
    requires forall e :: e in entries ==>
      DataService.Fresh(e) && e.cashIn.Some? && e.pixIn.Some? && e.cardIn.Some?
    ensures var r := PieData(TotalsOf(entries));
      Plus(Plus(r[0].value, r[1].value), r[2].value) == TotalsOf(entries).totalEntry
  {
    TotalsAreSums(entries);
    var cashPix := (e: Entry) => Plus(e.cashIn, e.pixIn);
    SumNumPlus(entries, (e: Entry) => e.cashIn, (e: Entry) => e.pixIn, cashPix);
    forall e | e in entries
      ensures e.TotalEntry() == Plus(cashPix(e), e.cardIn)
    {
      var d := DataService.CalculateEntry(e).derived.value;
      assert d.totalEntry == e.cashIn.value + e.pixIn.value + e.cardIn.value;
    }
    SumNumPlus(entries, cashPix, (e: Entry) => e.cardIn, (e: Entry) => e.TotalEntry());
  }

  /** What the component renders. */
  datatype View =
    | EmptyState
    | Panel(totals: Totals, net: Num, averageMarkup: Num, chart: seq<ChartPoint>, pie: seq<Slice>)

  /** An empty list shows the empty state; otherwise the cards, the chart and the pie over all entries. */
  function Render(entries: seq<Entry>): (v: View)
    ensures v.EmptyState? <==> entries == []
    ensures v.Panel? ==>
      && v.totals == TotalsOf(entries) && v.net == Net(v.totals)
      && v.averageMarkup == AverageMarkupPercent(v.totals)
      && v.chart == ChartData(entries) && v.pie == PieData(v.totals)
      && |v.chart| == |entries| && |v.pie| == 3
  {
    if entries == [] then EmptyState
    else
      var totals := TotalsOf(entries);
      Panel(totals, Net(totals), AverageMarkupPercent(totals), ChartData(entries), PieData(totals))
  }
}
