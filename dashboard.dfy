/**
 * The data shaping of the dashboard, src/public/static/app.js: the window
 * of the last days, the last element, the padding series, the ticks and
 * tick labels of logarithmic axes, the window-then-filter preparation of a
 * chart's data, the date labels, and the prefix of the history the date
 * picker hands the charts. JavaScript's `Array.prototype.slice` and
 * `String.prototype.slice` are modelled by `JsSlice`.
 */
module Dashboard {
  import opened Common

  // ---------------------------------------------------------------------
  // JavaScript's slice

  /** A slice bound: a negative one counts from the end; both are clamped to `[0, len]`. */
  function Bound(k: int, len: nat): (b: nat)
    ensures b <= len
    ensures 0 <= k <= len ==> b == k
  {
    if k < 0 then Max(len + k, 0) else Min(k, len)
  }

  /** `s.slice(begin, end)`: the elements from the first bound up to, not including, the second; empty when they cross. */
  function JsSlice<T>(s: seq<T>, begin: int, end: int): (r: seq<T>)
    ensures |r| == Max(Bound(end, |s|) - Bound(begin, |s|), 0)
    ensures forall k :: 0 <= k < |r| ==> r[k] == s[Bound(begin, |s|) + k]
  {
    var b, e := Bound(begin, |s|), Bound(end, |s|);
    if b < e then s[b..e] else []
  }

  // ---------------------------------------------------------------------
  // getLastNumDays, getLast, getPaddingFrom

  /**
   * `getLastNumDays(data, days)`: the last `days` elements, the whole
   * array when it is shorter, and nothing for a non-positive count.
   */
  function GetLastNumDays<T>(data: seq<T>, days: int): (r: seq<T>)
    ensures |r| == Min(Max(days, 0), |data|)
    ensures r == data[|data| - |r|..]
  {
    var begin := Max(|data| - days, 0);
    var kept := Min(Max(days, 0), |data|);
    assert Bound(begin, |data|) == |data| - kept;
    var r := JsSlice(data, begin, |data|);
    assert r == data[|data| - kept..] by {
      forall k | 0 <= k < kept ensures r[k] == data[|data| - kept + k] {
      }
    }
    r
  }

  /** `getLast(data)`: the last element, or `null` for an empty array. */
  function GetLast<T>(data: seq<T>): (r: Option<T>)
    ensures r.None? <==> |data| == 0
    ensures r.Some? ==> r.value == data[|data| - 1]
  {
    if |data| > 0 then Some(data[|data| - 1]) else None
  }

  /** A window of at least one day still ends on the last day. */
  lemma WindowKeepsLast<T>(data: seq<T>, days: int)
    requires days >= 1
    ensures GetLast(GetLastNumDays(data, days)) == GetLast(data)
  {
  }

  /** `getPaddingFrom(data)`: one `null` for every element but the last. */
  function GetPaddingFrom<T>(data: seq<T>): (r: seq<Option<T>>)
    ensures |r| == Max(|data| - 1, 0)
    ensures forall k :: 0 <= k < |r| ==> r[k].None?
  {
    var head := JsSlice(data, 0, |data| - 1);
    seq(|head|, k requires 0 <= k < |head| => None)
  }

  /** The padding and the last element together are as long as the data. */
  lemma PaddingThenLast<T>(data: seq<T>)
    requires |data| > 0
    ensures |GetPaddingFrom(data) + [GetLast(data)]| == |data|
  {
  }

  // ---------------------------------------------------------------------
  // Logarithmic axes

  /** The ticks `logTickBuilder` puts on a logarithmic axis. */
  const LogTicks: seq<real> := [1.0, 10.0, 100.0, 1000.0, 10000.0]

  function Pow10(k: nat): real {
    if k == 0 then 1.0 else 10.0 * Pow10(k - 1)
  }

  /** The scale of a chart axis, whose tick list Chart.js hands to `afterBuildTicks`. */
  class Axis {
    var ticks: seq<real>

    constructor (ticks: seq<real>)
      ensures this.ticks == ticks
    {
      this.ticks := ticks;
    }

    /**
     * `logTickBuilder(chartObj)`: empties the tick list in place and pushes
     * the powers of ten from one to ten thousand.
     */
    method BuildLogTicks()
      modifies this
      ensures ticks == LogTicks
      ensures forall k :: 0 <= k < |ticks| ==> ticks[k] == Pow10(k)
    {
      ticks := ticks[..0];
      ticks := ticks + LogTicks;
      assert Pow10(4) == 10000.0 by {
        assert Pow10(2) == 100.0;
      }
    }
  }

  /**
   * `logTickMapper(value)`: the label of a tick, `null` for every value
   * that is not 0 or a power of ten from 10 to a million.
   */
  function LogTickMapper(value: real): Option<string> {
    if value == 1000000.0 then Some("1M")
    else if value == 100000.0 then Some("100K")
    else if value == 10000.0 then Some("10K")
    else if value == 1000.0 then Some("1K")
    else if value == 100.0 then Some("100")
    else if value == 10.0 then Some("10")
    else if value == 0.0 then Some("0")
    else None
  }

  /** Reference definition of the labelled ticks. */
  ghost predicate LabelledTick(value: real) {
    value == 0.0 || exists k :: 1 <= k <= 6 && value == Pow10(k)
  }

  /** A tick gets a label exactly when it is 0 or a power of ten from 10 to a million. */
  lemma MapperLabelsPowersOfTen(value: real)
    ensures LogTickMapper(value).Some? <==> LabelledTick(value)
  {
    assert Pow10(1) == 10.0 && Pow10(2) == 100.0 && Pow10(3) == 1000.0;
    assert Pow10(4) == 10000.0 && Pow10(5) == 100000.0 && Pow10(6) == 1000000.0;
    if LabelledTick(value) && value != 0.0 {
      var k :| 1 <= k <= 6 && value == Pow10(k);
      assert k == 1 || k == 2 || k == 3 || k == 4 || k == 5 || k == 6;
    }
  }

  /** Every tick `logTickBuilder` makes is labelled except the first, 1. */
  lemma BuiltTicksLabels()
    ensures forall k :: 0 <= k < |LogTicks| ==> (LogTickMapper(LogTicks[k]).Some? <==> k != 0)
  {
    assert LogTicks[0] == 1.0 && LogTickMapper(1.0).None?;
  }

  /**
   * The value of a decimal numeral, if `s` is one. This reader and
   * `LabelValue` below are not part of the dashboard, which never parses a
   * label: they give the meaning of a tick label so that `MapperRoundTrip`
   * can state that each label names its tick.
   */
  function Numeral(s: string): Option<nat> {
    if s == [] || !('0' <= s[|s| - 1] <= '9') then None
    else
      var d := (s[|s| - 1] as int - '0' as int) as nat;
      if |s| == 1 then Some(d)
      else
        var rest := Numeral(s[..|s| - 1]);
        if rest.None? then None else Some(rest.value * 10 + d)
  }

  /** Reads a tick label back: a numeral, optionally followed by `K` (thousands) or `M` (millions). */
  function LabelValue(text: string): Option<real> {
    if text == [] then None
    else
      var last := text[|text| - 1];
      var scale := if last == 'K' then 1000 else if last == 'M' then 1000000 else 1;
      var digits := if scale == 1 then text else text[..|text| - 1];
      var n := Numeral(digits);
      if n.None? then None else Some((n.value * scale) as real)
  }

  /** Every text `logTickMapper` produces reads back as the tick it labels. */
  lemma MapperRoundTrip(value: real)
    requires LogTickMapper(value).Some?
    ensures LabelValue(LogTickMapper(value).value) == Some(value)
  {
    assert "10"[..1] == "1" && Numeral("1") == Some(1);
    assert "100"[..2] == "10" && Numeral("10") == Some(10);
    assert Numeral("100") == Some(100);
    assert "1M"[..1] == "1" && "1K"[..1] == "1" && "10K"[..2] == "10" && "100K"[..3] == "100";
  }

  // ---------------------------------------------------------------------
  // createChart: prepareData, getLabels

  /**
   * `xs.filter(p)`: the elements that pass `p`, in order. Each value occurs
   * as often as in `xs` when it passes and not at all otherwise; the order is
   * stated by `FilterAppend` and `FilterSingle`.
   */
  function Filter<T>(xs: seq<T>, p: T -> bool): (r: seq<T>)
    ensures |r| <= |xs|
    ensures forall x :: x in xs ==> multiset(r)[x] == if p(x) then multiset(xs)[x] else 0
    ensures forall x :: x in r ==> x in xs && p(x)
    ensures forall x :: x in xs && p(x) ==> x in r
  {
    if xs == [] then []
    else
      var init, last := xs[..|xs| - 1], xs[|xs| - 1];
      var rest := Filter(init, p);
      assert xs == init + [last];
      assert multiset(xs) == multiset(init) + multiset{last};
      if p(last) then
        assert multiset(rest + [last]) == multiset(rest) + multiset{last};
        rest + [last]
      else rest
  }

  /** A filtered element keeps its place: filtering a concatenation filters each part. */
  lemma {:induction false} FilterAppend<T>(xs: seq<T>, ys: seq<T>, p: T -> bool)
    ensures Filter(xs + ys, p) == Filter(xs, p) + Filter(ys, p)
  {
    if ys != [] {
      var init := ys[..|ys| - 1];
      assert (xs + ys)[..|xs + ys| - 1] == xs + init;
      assert (xs + ys)[|xs + ys| - 1] == ys[|ys| - 1];
      FilterAppend(xs, init, p);
    } else {
      assert xs + ys == xs;
    }
  }

  /** A single element is kept exactly when it passes. */
  lemma FilterSingle<T>(x: T, p: T -> bool)
    ensures Filter([x], p) == if p(x) then [x] else []
  {
    assert [x][..0] == [];
  }

  /** `opts.window || null`: an absent or zero window means none. */
  function WindowOf(window: Option<int>): Option<int> {
    if window.Some? && window.value != 0 then window else None
  }

  /**
   * `prepareData(data)`: the window of the last days when the chart has
   * one, then the chart's filter when it has one. The result holds only
   * elements of that window and all of its elements that pass the filter;
   * with neither option the data is passed through unchanged.
   */
  function PrepareData<T>(data: seq<T>, window: Option<int>, filter: Option<T -> bool>): (r: seq<T>)
    ensures |r| <= |data|
    ensures WindowOf(window).None? && filter.None? ==> r == data
    ensures filter.None? && WindowOf(window).Some? ==> r == GetLastNumDays(data, window.value)
    ensures filter.Some? ==> forall x :: x in r ==> filter.value(x)
    ensures forall x :: x in r ==> x in data
    ensures WindowOf(window).Some? ==> |r| <= Max(window.value, 0)
    ensures WindowOf(window).Some? ==> forall x :: x in r ==> x in GetLastNumDays(data, window.value)
    ensures filter.Some? ==>
              r == Filter(if WindowOf(window).Some? then GetLastNumDays(data, window.value) else data, filter.value)
  {
    var windowed := if WindowOf(window).Some? then GetLastNumDays(data, window.value) else data;
    assert forall x :: x in windowed ==> x in data;
    if filter.Some? then Filter(windowed, filter.value) else windowed
  }

  /**
   * The window is taken before the filter: a chart with a one-day window
   * whose last day fails the filter shows nothing, although an earlier day
   * passes it.
   */
  lemma WindowBeforeFilter()
    ensures PrepareData([1, 0], Some(1), Some((x: int) => x > 0)) == []
    ensures Filter([1, 0], (x: int) => x > 0) == [1]
  {
    assert GetLastNumDays([1, 0], 1) == [0];
    assert [1, 0][..1] == [1];
  }

  /** The default label of a record: characters 5 to 9 of its ISO date. */
  function DefaultLabel(date: string): string {
    JsSlice(date, 5, 10)
  }

  /** For an ISO date `YYYY-MM-DD...` the default label is `MM-DD`. */
  lemma DefaultLabelIsMonthDay(date: string)
    requires |date| >= 10 && date[4] == '-' && date[7] == '-'
    ensures DefaultLabel(date) == [date[5], date[6], '-', date[8], date[9]]
  {
  }

  /** A date shorter than six characters has an empty label. */
  lemma ShortDateHasNoLabel(date: string)
    requires |date| <= 5
    ensures DefaultLabel(date) == ""
  {
  }

  /** `getLabels(ldata)`: the chart's label getter when it has one, the default date label otherwise, one label per record. */
  function GetLabels<T>(ldata: seq<T>, labelGetter: Option<T -> string>, dateOf: T -> string): (r: seq<string>)
    ensures |r| == |ldata|
    ensures labelGetter.None? ==> forall k :: 0 <= k < |r| ==> r[k] == DefaultLabel(dateOf(ldata[k]))
    ensures labelGetter.Some? ==> forall k :: 0 <= k < |r| ==> r[k] == labelGetter.value(ldata[k])
  {
    seq(|ldata|, k requires 0 <= k < |ldata| =>
      if labelGetter.Some? then labelGetter.value(ldata[k]) else DefaultLabel(dateOf(ldata[k])))
  }

  // ---------------------------------------------------------------------
  // bindDatePicker

  /** `data.slice(0, i + 1)`: the history up to and including the picked day. */
  function DatePickerData<T>(data: seq<T>, i: int): (r: seq<T>)
    ensures 0 <= i < |data| ==> r == data[..i + 1]
  {
    JsSlice(data, 0, i + 1)
  }

  /**
   * After picking day `i`, a chart without a filter ends on day `i`: the
   * picked day is the last point every such chart shows.
   */
  lemma PickedDayIsLast<T>(data: seq<T>, i: int, window: Option<int>)
    requires 0 <= i < |data|
    requires WindowOf(window).Some? ==> window.value >= 1
    ensures GetLast(PrepareData(DatePickerData(data, i), window, None)) == Some(data[i])
  {
    var picked := DatePickerData(data, i);
    if WindowOf(window).Some? {
      WindowKeepsLast(picked, window.value);
    }
  }
}
