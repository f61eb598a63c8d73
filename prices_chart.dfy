/**
 * The data behind the historical prices chart: the series is put in
 * chronological order, one x-axis tick is chosen per calendar month, and
 * the line colour follows the direction of the price over the period.
 */
module PricesChart {
  import opened Wrappers
  import opened JsArrays

  /** One end-of-day price as the historical prices tool returns it; symbol and volume are not read. */
  datatype PricePoint = PricePoint(date: string, price: real)

  /** The intraday quote; only the previous close is read by this model. */
  datatype Intraday = Intraday(previousClose: real)

  /** The component's `data` prop. */
  datatype PricesData = PricesData(intraday: Option<Intraday>, historical: Option<seq<PricePoint>>)

  /** One chart point; its formatted label is left out. */
  datatype ChartPoint = ChartPoint(date: string, price: real)

  function Reversed<T>(s: seq<T>): seq<T> {
    if s == [] then [] else Reversed(s[1..]) + [s[0]]
  }

  lemma {:induction false} ReversedIndex<T>(s: seq<T>)
    ensures |Reversed(s)| == |s|
    ensures forall i :: 0 <= i < |s| ==> Reversed(s)[i] == s[|s| - 1 - i]
  {
    if s != [] {
      ReversedIndex(s[1..]);
    }
  }

  function Historical(data: Option<PricesData>): Option<seq<PricePoint>> {
    if data.Some? then data.value.historical else None
  }

  function IntradayOf(data: Option<PricesData>): Option<Intraday> {
    if data.Some? then data.value.intraday else None
  }

  /** `chartData`: the historical series reversed, with date and price copied; empty when there is none. */
  function ChartData(historical: Option<seq<PricePoint>>): (r: seq<ChartPoint>)
    ensures historical.None? ==> r == []
    ensures historical.Some? ==> |r| == |historical.value|
    ensures historical.Some? ==> forall i :: 0 <= i < |r| ==>
      r[i].date == historical.value[|r| - 1 - i].date && r[i].price == historical.value[|r| - 1 - i].price
  {
    if historical.None? || |historical.value| == 0 then []
    else
      var rev := Reversed(historical.value);
      ReversedIndex(historical.value);
      seq(|rev|, i requires 0 <= i < |rev| => ChartPoint(rev[i].date, rev[i].price))
  }

  /** `date.slice(0, 7)`: the `YYYY-MM` prefix, or the whole date when it is shorter. */
  function MonthKey(date: string): (k: string)
    ensures k == date[..if |date| < 7 then |date| else 7]
  {
    if |date| < 7 then date else date[..7]
  }

  function DatesOf(points: seq<ChartPoint>): (r: seq<string>)
    ensures |r| == |points|
    ensures forall i :: 0 <= i < |r| ==> r[i] == points[i].date
  {
    seq(|points|, i requires 0 <= i < |points| => points[i].date)
  }

  /** The month keys in order of first appearance: the key order of the month map. */
  function Months(dates: seq<string>): (r: seq<string>)
    ensures |r| <= |dates|
  {
    if dates == [] then []
    else
      var m := Months(dates[..|dates| - 1]);
      var k := MonthKey(dates[|dates| - 1]);
      if k in m then m else m + [k]
  }

  /** The dates of one month in series order: the array the month map holds for that key. */
  function DatesIn(dates: seq<string>, k: string): seq<string> {
    if dates == [] then []
    else DatesIn(dates[..|dates| - 1], k) + (if MonthKey(dates[|dates| - 1]) == k then [dates[|dates| - 1]] else [])
  }

  lemma {:induction false} DatesInMonth(dates: seq<string>, k: string)
    ensures forall d :: d in DatesIn(dates, k) ==> d in dates && MonthKey(d) == k
  {
    if dates != [] {
      var init := dates[..|dates| - 1];
      DatesInMonth(init, k);
      forall d | d in init ensures d in dates {
        var j :| 0 <= j < |init| && init[j] == d;
        assert dates[j] == d;
      }
    }
  }

  lemma {:induction false} MonthsHaveDates(dates: seq<string>)
    ensures forall k :: k in Months(dates) ==> |DatesIn(dates, k)| > 0
  {
    if dates != [] {
      MonthsHaveDates(dates[..|dates| - 1]);
    }
  }

  lemma {:induction false} NoDatesOutsideMonths(dates: seq<string>, k: string)
    requires k !in Months(dates)
    ensures DatesIn(dates, k) == []
  {
    if dates != [] {
      NoDatesOutsideMonths(dates[..|dates| - 1], k);
    }
  }

  function Middle(ds: seq<string>): string
    requires |ds| > 0
  {
    ds[|ds| / 2]
  }

  /** How the month keys and month arrays grow when one more date is read. */
  lemma ExtendMonths(pre: seq<string>, date: string)
    ensures Months(pre + [date]) ==
      if MonthKey(date) in Months(pre) then Months(pre) else Months(pre) + [MonthKey(date)]
    ensures forall k :: DatesIn(pre + [date], k) == DatesIn(pre, k) + (if MonthKey(date) == k then [date] else [])
  {
    assert (pre + [date])[..|pre|] == pre;
  }

  /** The ticks the chart shows: for each month in order, the middle one of its dates. */
  function MonthTicks(dates: seq<string>): (r: seq<string>)
    ensures |r| == |Months(dates)|
  {
    var ms := Months(dates);
    MonthsHaveDates(dates);
    seq(|ms|, i requires 0 <= i < |ms| => Middle(DatesIn(dates, ms[i])))
  }

  /** The month map after reading `pre`: its keys are `keys` and each holds that month's dates. */
  ghost predicate GroupsMatch(groups: map<string, seq<string>>, keys: seq<string>, pre: seq<string>) {
    keys == Months(pre)
    && (forall k :: k in groups <==> k in keys)
    && (forall k :: k in groups ==> groups[k] == DatesIn(pre, k))
  }

  /** A date of a month already read goes to the end of that month's array. */
  lemma GroupsAppendSeen(groups: map<string, seq<string>>, keys: seq<string>, pre: seq<string>, date: string)
    requires GroupsMatch(groups, keys, pre) && MonthKey(date) in groups
    ensures GroupsMatch(groups[MonthKey(date) := groups[MonthKey(date)] + [date]], keys, pre + [date])
  {
    ExtendMonths(pre, date);
    var k := MonthKey(date);
    var g2 := groups[k := groups[k] + [date]];
    forall c | c in g2 ensures g2[c] == DatesIn(pre + [date], c) {
      if c != k {
        assert g2[c] == groups[c];
      }
    }
  }

  /** A date of a new month adds the month's key at the end and an array holding just that date. */
  lemma GroupsAppendNew(groups: map<string, seq<string>>, keys: seq<string>, pre: seq<string>, date: string)
    requires GroupsMatch(groups, keys, pre) && MonthKey(date) !in groups
    ensures GroupsMatch(groups[MonthKey(date) := [date]], keys + [MonthKey(date)], pre + [date])
  {
    ExtendMonths(pre, date);
    var k := MonthKey(date);
    NoDatesOutsideMonths(pre, k);
    var g2 := groups[k := [date]];
    forall c | c in g2 ensures g2[c] == DatesIn(pre + [date], c) {
      if c != k {
        assert g2[c] == groups[c];
      }
    }
  }

  /** One more date read: the month map gains the key if it is new, and the date under its key. */
  lemma GroupsAppend(groups: map<string, seq<string>>, keys: seq<string>, pre: seq<string>, date: string)
    requires GroupsMatch(groups, keys, pre)
    ensures var k := MonthKey(date);
      var g := if k in groups then groups else groups[k := []];
      var ks := if k in groups then keys else keys + [k];
      GroupsMatch(g[k := g[k] + [date]], ks, pre + [date])
  {
    var k := MonthKey(date);
    if k in groups {
      GroupsAppendSeen(groups, keys, pre, date);
    } else {
      GroupsAppendNew(groups, keys, pre, date);
      assert groups[k := []][k := [] + [date]] == groups[k := [date]];
    }
  }

  /** One step of the first loop keeps the month map in step with the dates read. */
  lemma GroupsStep(groups: map<string, seq<string>>, keys: seq<string>, dates: seq<string>, i: nat)
    requires i < |dates| && GroupsMatch(groups, keys, dates[..i])
    ensures var k := MonthKey(dates[i]);
      var g := if k in groups then groups else groups[k := []];
      var ks := if k in groups then keys else keys + [k];
      GroupsMatch(g[k := g[k] + [dates[i]]], ks, dates[..i + 1])
  {
    assert dates[..i + 1] == dates[..i] + [dates[i]];
    GroupsAppend(groups, keys, dates[..i], dates[i]);
  }

  /** Reading the month map in key order yields the specified ticks. */
  lemma TicksFromGroups(groups: map<string, seq<string>>, keys: seq<string>, dates: seq<string>)
    requires GroupsMatch(groups, keys, dates)
    ensures forall t :: 0 <= t < |keys| ==>
      keys[t] in groups && |groups[keys[t]]| > 0 && Middle(groups[keys[t]]) == MonthTicks(dates)[t]
  {
    MonthsHaveDates(dates);
  }

  /** The first loop of `monthlyTicks`: the month map and its keys in insertion order. */
  method GroupByMonth(dates: seq<string>) returns (keys: seq<string>, groups: map<string, seq<string>>)
    ensures GroupsMatch(groups, keys, dates)
  {
    keys := [];
    groups := map[];
    var i := 0;
    while i < |dates|
      invariant 0 <= i <= |dates|
      invariant GroupsMatch(groups, keys, dates[..i])
    {
      GroupsStep(groups, keys, dates, i);
      var monthKey := MonthKey(dates[i]);
      var g := if monthKey in groups then groups else groups[monthKey := []];
      keys := if monthKey in groups then keys else keys + [monthKey];
      groups := g[monthKey := g[monthKey] + [dates[i]]];
      i := i + 1;
    }
    assert dates[..i] == dates;
  }

  /** The second loop of `monthlyTicks`: the middle date of each month, in key order. */
  method MiddleDates(keys: seq<string>, groups: map<string, seq<string>>) returns (ticks: seq<string>)
    requires forall t :: 0 <= t < |keys| ==> keys[t] in groups && |groups[keys[t]]| > 0
    ensures |ticks| == |keys|
    ensures forall t :: 0 <= t < |keys| ==> ticks[t] == Middle(groups[keys[t]])
  {
    ticks := [];
    var j := 0;
    while j < |keys|
      invariant 0 <= j <= |keys|
      invariant |ticks| == j
      invariant forall t :: 0 <= t < j ==> ticks[t] == Middle(groups[keys[t]])
    {
      var ds := groups[keys[j]];
      var middleIndex := |ds| / 2;
      ticks := ticks + [ds[middleIndex]];
      j := j + 1;
    }
  }

  /**
   * `monthlyTicks`: the month map is filled in one pass over the series,
   * then the middle date of each month is collected in key order.
   */
  method MonthlyTicks(chartData: seq<ChartPoint>) returns (ticks: seq<string>)
    ensures ticks == MonthTicks(DatesOf(chartData))
  {
    var dates := DatesOf(chartData);
    if |chartData| == 0 {
      return [];
    }
    var keys, groups := GroupByMonth(dates);
    TicksFromGroups(groups, keys, dates);
    ticks := MiddleDates(keys, groups);
  }

  /** There are never more ticks than chart points, and no points give no ticks. */
  lemma TickCount(dates: seq<string>)
    ensures |MonthTicks(dates)| <= |dates|
    ensures dates == [] ==> MonthTicks(dates) == []
  {
  }

  /** Each tick is the middle date of its own month, so it is a date of the series in that month. */
  lemma TicksInTheirMonth(dates: seq<string>, i: nat)
    requires i < |MonthTicks(dates)|
    ensures var ds := DatesIn(dates, Months(dates)[i]);
      |ds| > 0 && MonthTicks(dates)[i] == ds[|ds| / 2]
    ensures MonthTicks(dates)[i] in dates
    ensures MonthKey(MonthTicks(dates)[i]) == Months(dates)[i]
  {
    var k := Months(dates)[i];
    MonthsHaveDates(dates);
    DatesInMonth(dates, k);
    assert MonthTicks(dates)[i] in DatesIn(dates, k);
  }

  /** Every month of the series appears exactly once among the tick months, and no other. */
  lemma {:induction false} MonthsAreTheDistinctKeys(dates: seq<string>)
    ensures forall i, j :: 0 <= i < j < |Months(dates)| ==> Months(dates)[i] != Months(dates)[j]
    ensures forall k :: k in Months(dates) <==> exists d :: d in dates && MonthKey(d) == k
  {
    if dates != [] {
      var init := dates[..|dates| - 1];
      var last := dates[|dates| - 1];
      MonthsAreTheDistinctKeys(init);
      assert dates == init + [last];
      forall k | k in Months(dates) ensures exists d :: d in dates && MonthKey(d) == k {
        if k in Months(init) {
          var d :| d in init && MonthKey(d) == k;
          assert d in dates;
        } else {
          assert MonthKey(last) == k;
        }
      }
      forall k | exists d :: d in dates && MonthKey(d) == k ensures k in Months(dates) {
        var d :| d in dates && MonthKey(d) == k;
        if d != last {
          assert d in init;
        }
      }
    }
  }

  function InMonth(k: string): string -> bool {
    d => MonthKey(d) == k
  }

  /** The first position of a month in a prefix stays its first position in the whole series. */
  lemma FirstIndexStable(dates: seq<string>, last: string, k: string)
    requires exists d :: d in dates && MonthKey(d) == k
    ensures FindIndex(dates + [last], InMonth(k)) == FindIndex(dates, InMonth(k))
    ensures 0 <= FindIndex(dates, InMonth(k)) < |dates|
  {
    var d :| d in dates && MonthKey(d) == k;
    var j0 :| 0 <= j0 < |dates| && dates[j0] == d;
    var s := dates + [last];
    assert s[j0] == d && InMonth(k)(s[j0]);
    assert InMonth(k)(dates[j0]);
    var a := FindIndex(s, InMonth(k));
    var b := FindIndex(dates, InMonth(k));
    assert 0 <= a <= j0 && 0 <= b <= j0;
    assert s[b] == dates[b];
    assert s[a] == dates[a];
  }

  /** The tick months are ordered by the position where each month first occurs. */
  lemma {:induction false} MonthsInFirstAppearanceOrder(dates: seq<string>)
    ensures forall i, j :: 0 <= i < j < |Months(dates)| ==>
      FindIndex(dates, InMonth(Months(dates)[i])) < FindIndex(dates, InMonth(Months(dates)[j]))
  {
    if dates != [] {
      var init := dates[..|dates| - 1];
      var last := dates[|dates| - 1];
      var m := Months(init);
      MonthsInFirstAppearanceOrder(init);
      MonthsAreTheDistinctKeys(init);
      assert dates == init + [last];
      forall i | 0 <= i < |m|
        ensures FindIndex(dates, InMonth(m[i])) == FindIndex(init, InMonth(m[i]))
        ensures 0 <= FindIndex(init, InMonth(m[i])) < |init|
      {
        assert m[i] in m;
        FirstIndexStable(init, last, m[i]);
      }
      var k := MonthKey(last);
      if k !in m {
        var f := FindIndex(dates, InMonth(k));
        assert InMonth(k)(dates[|init|]);
        forall j | 0 <= j < |init| ensures !InMonth(k)(dates[j]) {
          assert dates[j] == init[j];
          assert init[j] in init;
        }
        assert f == |init|;
      }
    }
  }

  /** The stroke of the price line. */
  datatype LineColor = Ruby | Jade

  function LineColorVar(c: LineColor): string {
    match c
    case Ruby => "var(--color-ruby-9)"
    case Jade => "var(--color-jade-9)"
  }

  /** `chartData.at(0)?.price ?? 0` and `chartData.at(-1)?.price ?? 0`. */
  function FirstPrice(points: seq<ChartPoint>): real {
    if |points| > 0 then points[0].price else 0.0
  }

  function LastPrice(points: seq<ChartPoint>): real {
    if |points| > 0 then points[|points| - 1].price else 0.0
  }

  /** `priceLineColor`: ruby when the first price is at least the last, jade otherwise. */
  function PriceLineColor(points: seq<ChartPoint>): (c: LineColor)
    ensures c == Ruby <==> FirstPrice(points) >= LastPrice(points)
  {
    if FirstPrice(points) >= LastPrice(points) then Ruby else Jade
  }

  /**
   * In terms of the fetched series, newest first: the line is jade exactly
   * when the newest price is above the oldest one.
   */
  lemma LineColorOfSeries(historical: seq<PricePoint>)
    ensures PriceLineColor(ChartData(Some(historical))) == Jade <==>
      |historical| > 0 && historical[0].price > historical[|historical| - 1].price
  {
  }

  /** `intraday?.previousClose ?? 0`. */
  function PreviousClose(data: Option<PricesData>): (r: real)
    ensures IntradayOf(data).None? ==> r == 0.0
    ensures IntradayOf(data).Some? ==> r == IntradayOf(data).value.previousClose
  {
    match IntradayOf(data)
    case None => 0.0
    case Some(q) => q.previousClose
  }

  datatype PricesView =
    | NoPricesPlaceholder
    | PricesAreaChart(points: seq<ChartPoint>, ticks: seq<string>, line: LineColor, previousClose: real)

  const NoPricesText := "No historical price data to display."

  /** `HistoricalPricesChart`: the placeholder without a quote or without a non-empty series. */
  function PricesChartView(data: Option<PricesData>): (v: PricesView)
    ensures v.NoPricesPlaceholder? <==>
      IntradayOf(data).None? || Historical(data).None? || |Historical(data).value| == 0
    ensures v.PricesAreaChart? ==>
      v.points == ChartData(Historical(data)) && v.ticks == MonthTicks(DatesOf(v.points))
      && v.line == PriceLineColor(v.points) && v.previousClose == PreviousClose(data)
  {
    var points := ChartData(Historical(data));
    if IntradayOf(data).None? || Historical(data).None? || |Historical(data).value| == 0 then NoPricesPlaceholder
    else PricesAreaChart(points, MonthTicks(DatesOf(points)), PriceLineColor(points), PreviousClose(data))
  }
}
