/**
 * The data behind the historical earnings chart: each quarter is
 * classified as beat or missed, the quarters are filtered and sorted by
 * date, and the tick labels and dot colours follow the classification.
 */
module EarningsChart {
  import opened Wrappers
  import opened JsStrings

  /** One quarter as the earnings tool returns it; the fields the chart does not read are left out. */
  datatype EarningsRecord = EarningsRecord(
    symbol: string,
    date: string,
    epsActual: Option<real>,
    epsEstimated: Option<real>)

  datatype Expectation = Beat | Missed

  /** A number that is neither `null` nor 0: the test `!x` fails for it. */
  predicate Truthy(x: Option<real>) {
    x.Some? && x.value != 0.0
  }

  /** `getExpectation`: no classification when either value is null or zero; beat when the actual reaches the estimate. */
  function GetExpectation(actual: Option<real>, estimated: Option<real>): (r: Option<Expectation>)
    ensures r.None? <==> !Truthy(actual) || !Truthy(estimated)
    ensures r == Some(Beat) <==> Truthy(actual) && Truthy(estimated) && actual.value >= estimated.value
    ensures r == Some(Missed) <==> Truthy(actual) && Truthy(estimated) && actual.value < estimated.value
  {
    if !Truthy(actual) || !Truthy(estimated) then None
    else if actual.value >= estimated.value then Some(Beat)
    else Some(Missed)
  }

  /** `calculatePercentageDiff`: defined exactly when the quarter is classified, and then (actual - estimated) / estimated * 100. */
  function PercentageDiff(actual: Option<real>, estimated: Option<real>): (r: Option<real>)
    ensures r.None? <==> GetExpectation(actual, estimated).None?
    ensures r.Some? ==> r.value * estimated.value == (actual.value - estimated.value) * 100.0
  {
    if !Truthy(actual) || !Truthy(estimated) || estimated.value == 0.0 then None
    else Some((actual.value - estimated.value) / estimated.value * 100.0)
  }

  /**
   * The sign of the difference agrees with the classification for a
   * positive estimate and is reversed for a negative one: a beaten negative
   * estimate shows a difference of at most zero.
   */
  lemma PercentageDiffSign(actual: real, estimated: real)
    requires actual != 0.0 && estimated != 0.0
    ensures var d := PercentageDiff(Some(actual), Some(estimated)).value;
      var beat := GetExpectation(Some(actual), Some(estimated)) == Some(Beat);
      (estimated > 0.0 ==> (d >= 0.0 <==> beat)) && (estimated < 0.0 ==> (d <= 0.0 <==> beat))
  {
    var d := PercentageDiff(Some(actual), Some(estimated)).value;
    assert d * estimated == (actual - estimated) * 100.0;
    if estimated > 0.0 {
      if d >= 0.0 { assert d * estimated >= 0.0; }
      if d < 0.0 { assert d * estimated < 0.0; }
    } else {
      if d <= 0.0 { assert d * estimated >= 0.0; }
      if d > 0.0 { assert d * estimated < 0.0; }
    }
  }

  /** The filter's test: at least one EPS value is not `null` (a zero value passes). */
  predicate HasSomeEps(r: EarningsRecord) {
    r.epsActual.Some? || r.epsEstimated.Some?
  }

  /** `earnings.filter(...)`: exactly the records with some EPS value, each as often as in the input. */
  function KeepReported(rs: seq<EarningsRecord>): (r: seq<EarningsRecord>)
    ensures forall x :: multiset(r)[x] == if HasSomeEps(x) then multiset(rs)[x] else 0
  {
    if rs == [] then []
    else
      var rest := KeepReported(rs[1..]);
      assert rs == [rs[0]] + rs[1..];
      if HasSomeEps(rs[0]) then [rs[0]] + rest else rest
  }

  predicate SortedByDate(s: seq<EarningsRecord>) {
    forall i, j :: 0 <= i < j < |s| ==> LessOrEqual(s[i].date, s[j].date)
  }

  /** Inserts `x` before the first element whose date is not smaller. */
  function InsertByDate(x: EarningsRecord, t: seq<EarningsRecord>): (r: seq<EarningsRecord>)
    ensures multiset(r) == multiset(t) + multiset{x}
  {
    if t == [] then [x]
    else if LessOrEqual(x.date, t[0].date) then [x] + t
    else
      assert t == [t[0]] + t[1..];
      [t[0]] + InsertByDate(x, t[1..])
  }

  /** A sorted sequence stays sorted with an element in front that precedes all of it. */
  lemma SortedCons(a: EarningsRecord, t: seq<EarningsRecord>)
    requires SortedByDate(t)
    requires forall y | y in t :: LessOrEqual(a.date, y.date)
    ensures SortedByDate([a] + t)
  {
    var r := [a] + t;
    forall i, j | 0 <= i < j < |r| ensures LessOrEqual(r[i].date, r[j].date) {
      assert r[j] == t[j - 1];
      if i > 0 { assert r[i] == t[i - 1]; }
    }
  }

  lemma FirstPrecedesSorted(t: seq<EarningsRecord>, y: EarningsRecord)
    requires SortedByDate(t) && y in t && t[0] != y
    ensures LessOrEqual(t[0].date, y.date)
  {
    var j :| 0 <= j < |t| && t[j] == y;
  }

  lemma {:induction false} InsertSorted(x: EarningsRecord, t: seq<EarningsRecord>)
    requires SortedByDate(t)
    ensures SortedByDate(InsertByDate(x, t))
  {
    if t == [] {
    } else if LessOrEqual(x.date, t[0].date) {
      forall y | y in t ensures LessOrEqual(x.date, y.date) {
        if y != t[0] {
          FirstPrecedesSorted(t, y);
          LessOrEqualTransitive(x.date, t[0].date, y.date);
        }
      }
      SortedCons(x, t);
    } else {
      var tail := t[1..];
      var rest := InsertByDate(x, tail);
      assert SortedByDate(tail);
      InsertSorted(x, tail);
      LessAsymmetric(t[0].date, x.date);
      forall y | y in rest ensures LessOrEqual(t[0].date, y.date) {
        assert y in multiset(rest);
        if y != x {
          assert y in multiset(tail);
          var j :| 0 <= j < |tail| && tail[j] == y;
          assert t[j + 1] == y;
        }
      }
      SortedCons(t[0], rest);
    }
  }

  /** The stable sort by date string: sorted, and a permutation of its input. */
  function SortByDate(s: seq<EarningsRecord>): (r: seq<EarningsRecord>)
    ensures SortedByDate(r)
    ensures multiset(r) == multiset(s)
  {
    if s == [] then []
    else
      var t := SortByDate(s[1..]);
      InsertSorted(s[0], t);
      assert s == [s[0]] + s[1..];
      InsertByDate(s[0], t)
  }

  function WithDate(s: seq<EarningsRecord>, d: string): seq<EarningsRecord> {
    if s == [] then [] else (if s[0].date == d then [s[0]] else []) + WithDate(s[1..], d)
  }

  /** Two records with different dates can be passed in either order by `WithDate`. */
  lemma WithDateSwap(a: EarningsRecord, x: EarningsRecord, rest: seq<EarningsRecord>, tail: seq<EarningsRecord>, d: string)
    requires a.date != x.date
    requires WithDate(rest, d) == (if x.date == d then [x] else []) + WithDate(tail, d)
    ensures WithDate([a] + rest, d) == (if x.date == d then [x] else []) + WithDate([a] + tail, d)
  {
    assert ([a] + rest)[1..] == rest;
    assert ([a] + tail)[1..] == tail;
  }

  lemma {:induction false} InsertKeepsOrderOfEqualDates(x: EarningsRecord, t: seq<EarningsRecord>, d: string)
    ensures WithDate(InsertByDate(x, t), d) == (if x.date == d then [x] else []) + WithDate(t, d)
  {
    if t == [] {
    } else if LessOrEqual(x.date, t[0].date) {
      assert ([x] + t)[1..] == t;
    } else {
      InsertKeepsOrderOfEqualDates(x, t[1..], d);
      LessIrreflexive(x.date);
      WithDateSwap(t[0], x, InsertByDate(x, t[1..]), t[1..], d);
      assert [t[0]] + t[1..] == t;
    }
  }

  /** The sort is stable: records with the same date keep their input order. */
  lemma {:induction false} SortIsStable(s: seq<EarningsRecord>, d: string)
    ensures WithDate(SortByDate(s), d) == WithDate(s, d)
  {
    if s != [] {
      SortIsStable(s[1..], d);
      InsertKeepsOrderOfEqualDates(s[0], SortByDate(s[1..]), d);
    }
  }

  /** One chart row; the quarter label is left out. */
  datatype EarningsRow = EarningsRow(
    symbol: string,
    date: string,
    epsActual: Option<real>,
    epsEstimated: Option<real>,
    expectation: Option<Expectation>)

  function ToRow(r: EarningsRecord): (row: EarningsRow)
    ensures row.symbol == r.symbol && row.date == r.date
    ensures row.epsActual == r.epsActual && row.epsEstimated == r.epsEstimated
    ensures row.expectation == GetExpectation(row.epsActual, row.epsEstimated)
  {
    EarningsRow(r.symbol, r.date, r.epsActual, r.epsEstimated, GetExpectation(r.epsActual, r.epsEstimated))
  }

  /** The records the chart shows, in the order it shows them. */
  function ChartRecords(earnings: Option<seq<EarningsRecord>>): (r: seq<EarningsRecord>)
    ensures SortedByDate(r)
    ensures earnings.None? ==> r == []
    ensures earnings.Some? ==> forall x :: multiset(r)[x] == if HasSomeEps(x) then multiset(earnings.value)[x] else 0
  {
    match earnings
    case None => []
    case Some(rs) => SortByDate(KeepReported(rs))
  }

  /** `earningsData`. */
  function EarningsData(earnings: Option<seq<EarningsRecord>>): (rows: seq<EarningsRow>)
    ensures |rows| == |ChartRecords(earnings)|
    ensures forall i :: 0 <= i < |rows| ==> rows[i] == ToRow(ChartRecords(earnings)[i])
  {
    var recs := ChartRecords(earnings);
    seq(|recs|, i requires 0 <= i < |recs| => ToRow(recs[i]))
  }

  /**
   * The rows come in ascending date order and are, record for record, the
   * records with some EPS value, each exactly as often as in the input.
   */
  lemma EarningsDataSpec(rs: seq<EarningsRecord>)
    ensures var rows := EarningsData(Some(rs));
      forall i, j :: 0 <= i < j < |rows| ==> LessOrEqual(rows[i].date, rows[j].date)
    ensures forall x :: multiset(ChartRecords(Some(rs)))[x] == if HasSomeEps(x) then multiset(rs)[x] else 0
  {
    var recs := ChartRecords(Some(rs));
    var rows := EarningsData(Some(rs));
    forall i, j | 0 <= i < j < |rows| ensures LessOrEqual(rows[i].date, rows[j].date) {
      assert rows[i].date == recs[i].date && rows[j].date == recs[j].date;
    }
  }

  /** Without any record with an EPS value there are no rows. */
  lemma NoRowsIff(earnings: Option<seq<EarningsRecord>>)
    ensures EarningsData(earnings) == [] <==>
      earnings.None? || forall i :: 0 <= i < |earnings.value| ==> !HasSomeEps(earnings.value[i])
  {
    if earnings.Some? {
      var rs := earnings.value;
      var kept := KeepReported(rs);
      if kept == [] {
        forall i | 0 <= i < |rs| ensures !HasSomeEps(rs[i]) {
          assert rs[i] in multiset(rs);
          assert multiset(kept)[rs[i]] == 0;
        }
      } else {
        assert kept[0] in multiset(kept);
        assert kept[0] in multiset(rs);
        assert HasSomeEps(kept[0]);
        assert SortByDate(kept) != [] by {
          assert |multiset(SortByDate(kept))| == |multiset(kept)|;
        }
      }
    }
  }

  /** The colour pair of a series. */
  datatype Swatch = Swatch(stroke: string, fill: string)

  const BeatColors := Swatch("var(--color-jade-10)", "var(--color-jade-9)")
  const MissedColors := Swatch("var(--color-ruby-10)", "var(--color-ruby-9)")
  const GrayColors := Swatch("var(--color-gray-10)", "var(--color-gray-11)")

  /** The row behind tick `index`, when there is one (`earningsData[payload.index]`). */
  function RowAt(rows: seq<EarningsRow>, index: int): Option<EarningsRow> {
    if 0 <= index < |rows| then Some(rows[index]) else None
  }

  function ExpectationAt(rows: seq<EarningsRow>, index: int): Option<Expectation> {
    match RowAt(rows, index)
    case Some(row) => row.expectation
    case None => None
  }

  /** The second line of an x-axis tick. */
  function TickLabel(rows: seq<EarningsRow>, index: int): (r: string)
    ensures r == "Beat" <==> ExpectationAt(rows, index) == Some(Beat)
    ensures r == "Missed" <==> ExpectationAt(rows, index) == Some(Missed)
    ensures r == "-" <==> ExpectationAt(rows, index).None?
  {
    match ExpectationAt(rows, index)
    case Some(Beat) => "Beat"
    case Some(Missed) => "Missed"
    case None => "-"
  }

  /** The fill of that second line: jade, ruby, or gray for an unclassified quarter. */
  function TickFill(rows: seq<EarningsRow>, index: int): (r: string)
    ensures r == BeatColors.fill <==> ExpectationAt(rows, index) == Some(Beat)
    ensures r == MissedColors.fill <==> ExpectationAt(rows, index) == Some(Missed)
    ensures r == GrayColors.fill <==> ExpectationAt(rows, index).None?
  {
    match ExpectationAt(rows, index)
    case Some(Beat) => BeatColors.fill
    case Some(Missed) => MissedColors.fill
    case None => GrayColors.fill
  }

  /** The second tick line of every row names that row's own classification. */
  lemma TickLabelsFollowRows(earnings: Option<seq<EarningsRecord>>, i: nat)
    requires i < |EarningsData(earnings)|
    ensures var rec := ChartRecords(earnings)[i];
      TickLabel(EarningsData(earnings), i) ==
        match GetExpectation(rec.epsActual, rec.epsEstimated)
        case Some(Beat) => "Beat"
        case Some(Missed) => "Missed"
        case None => "-"
  {
  }

  /**
   * The dot of the actual EPS: none without a position or without an
   * actual value; the beat colours only for a beaten quarter, the missed
   * colours otherwise, an unclassified quarter included.
   */
  function ActualDot(cx: Option<real>, cy: Option<real>, row: EarningsRow): (r: Option<Swatch>)
    ensures r.None? <==> !Truthy(cx) || !Truthy(cy) || row.epsActual.None?
    ensures r == Some(BeatColors) <==> Truthy(cx) && Truthy(cy) && row.epsActual.Some? && row.expectation == Some(Beat)
    ensures r.Some? && row.expectation != Some(Beat) ==> r == Some(MissedColors)
  {
    if !Truthy(cx) || !Truthy(cy) || row.epsActual.None? then None
    else if row.expectation == Some(Beat) then Some(BeatColors)
    else Some(MissedColors)
  }

  datatype EarningsView = NoEarningsPlaceholder | EarningsLineChart(rows: seq<EarningsRow>)

  const NoEarningsText := "No earnings data to display."

  /** `EarningsHistoricalChart`: the placeholder when there are no rows, the line chart otherwise. */
  function EarningsChartView(earnings: Option<seq<EarningsRecord>>): (v: EarningsView)
    ensures v.NoEarningsPlaceholder? <==>
      earnings.None? || forall i :: 0 <= i < |earnings.value| ==> !HasSomeEps(earnings.value[i])
    ensures v.EarningsLineChart? ==> v.rows == EarningsData(earnings)
  {
    NoRowsIff(earnings);
    var rows := EarningsData(earnings);
    if |rows| == 0 then NoEarningsPlaceholder else EarningsLineChart(rows)
  }
}
