/**
 * The data collection of src/collector.py: the rows of the two feeds are
 * turned into per-date field dictionaries, the two histories are merged,
 * and the collector keeps the resulting statistics and their snapshot.
 */
module Collector {
  import opened Common
  import opened Utils
  import opened Models

  /** One row of a case-feed series: a date and that day's value. */
  datatype Point = Point(date: string, value: real)

  /** One row of a hospital series; the first rows of the feed carry null. */
  datatype Reading = Reading(date: string, value: Option<real>)

  /**
   * One row of the vaccination feed: the date and the object under "new",
   * whose counts may be absent, null or a number.
   */
  datatype VaccineRow = VaccineRow(date: string, counts: map<string, Option<real>>)

  /** The seven series of the case feed that are read, named by what they hold. */
  datatype CaseFeed = CaseFeed(
    deaths: seq<Point>,
    cases: seq<Point>,
    tests: seq<Point>,
    positive: seq<Point>,
    hospitalized: seq<Reading>,
    intensiveCare: seq<Reading>,
    ventilator: seq<Reading>)

  /** An HTTP response: its status and the decoded "items". */
  datatype Response<T> = Response(status: int, items: T)

  // ---------------------------------------------------------------------
  // Building a history from writes

  /** One `stats.setdefault(date, {})[key] = value`. */
  datatype Entry = Entry(date: string, key: Key, value: real)

  /** The history after one write. */
  function Put(stats: History, e: Entry): History {
    stats[e.date := CollectedOn(stats, e.date)[e.key := e.value]]
  }

  /** The history after the writes `es`, in order. */
  function Apply(stats: History, es: seq<Entry>): History {
    if es == [] then stats else Put(Apply(stats, es[..|es| - 1]), es[|es| - 1])
  }

  lemma {:induction false} ApplyAppend(stats: History, es: seq<Entry>, fs: seq<Entry>)
    ensures Apply(stats, es + fs) == Apply(Apply(stats, es), fs)
  {
    if fs == [] {
      assert es + fs == es;
    } else {
      var all := es + fs;
      assert all[..|all| - 1] == es + fs[..|fs| - 1];
      assert all[|all| - 1] == fs[|fs| - 1];
      ApplyAppend(stats, es, fs[..|fs| - 1]);
    }
  }

  lemma ApplyTwo(stats: History, e1: Entry, e2: Entry)
    ensures Apply(stats, [e1, e2]) == Put(Put(stats, e1), e2)
  {
    assert [e1][..0] == [];
    assert Apply(stats, [e1]) == Put(stats, e1);
    assert [e1, e2][..1] == [e1];
  }

  lemma ApplyThree(stats: History, e1: Entry, e2: Entry, e3: Entry)
    ensures Apply(stats, [e1, e2, e3]) == Put(Put(Put(stats, e1), e2), e3)
  {
    ApplyTwo(stats, e1, e2);
    assert [e1, e2, e3][..2] == [e1, e2];
  }

  /** Two writes to the same date update one day's fields. */
  lemma PutsOnOneDay(stats: History, d: string, k1: Key, v1: real, k2: Key, v2: real)
    ensures Put(Put(stats, Entry(d, k1, v1)), Entry(d, k2, v2)) == stats[d := CollectedOn(stats, d)[k1 := v1][k2 := v2]]
  {
  }

  /** Three writes to the same date update one day's fields. */
  lemma PutsOnOneDay3(stats: History, d: string, k1: Key, v1: real, k2: Key, v2: real, k3: Key, v3: real)
    ensures Put(Put(Put(stats, Entry(d, k1, v1)), Entry(d, k2, v2)), Entry(d, k3, v3)) ==
            stats[d := CollectedOn(stats, d)[k1 := v1][k2 := v2][k3 := v3]]
  {
    PutsOnOneDay(stats, d, k1, v1, k2, v2);
  }

  /** Some write of `es` is for the date `d`. */
  ghost predicate Mentions(es: seq<Entry>, d: string) {
    exists j :: 0 <= j < |es| && es[j].date == d
  }

  /** Reference definition: the value of the last write of `es` to field `k` of date `d`, if any. */
  function LastWrite(es: seq<Entry>, d: string, k: Key): Option<real> {
    if es == [] then None
    else if es[|es| - 1].date == d && es[|es| - 1].key == k then Some(es[|es| - 1].value)
    else LastWrite(es[..|es| - 1], d, k)
  }

  /**
   * Applying writes in order: a date is present when it was present or
   * written to, and each field holds the last value written to it, or its
   * old value when nothing wrote to it.
   */
  lemma {:induction false} ApplyLookup(stats: History, es: seq<Entry>, d: string, k: Key)
    ensures d in Apply(stats, es) <==> d in stats || Mentions(es, d)
    ensures d in Apply(stats, es) ==>
              (k in Apply(stats, es)[d] <==> LastWrite(es, d, k).Some? || (d in stats && k in stats[d]))
    ensures d in Apply(stats, es) && k in Apply(stats, es)[d] ==>
              Apply(stats, es)[d][k] == (if LastWrite(es, d, k).Some? then LastWrite(es, d, k).value else stats[d][k])
  {
    if es != [] {
      var init := es[..|es| - 1];
      var e := es[|es| - 1];
      ApplyLookup(stats, init, d, k);
      LastWriteMentions(init, d, k);
      MentionsSnoc(es, d);
      PutLookup(Apply(stats, init), e, d, k);
    }
  }

  /** A date is written to by `es` when the last write or one before it is to that date. */
  lemma MentionsSnoc(es: seq<Entry>, d: string)
    requires es != []
    ensures Mentions(es, d) <==> Mentions(es[..|es| - 1], d) || es[|es| - 1].date == d
  {
    var init := es[..|es| - 1];
    if Mentions(es, d) && es[|es| - 1].date != d {
      var j :| 0 <= j < |es| && es[j].date == d;
      assert init[j] == es[j];
    }
    if Mentions(init, d) {
      var j :| 0 <= j < |init| && init[j].date == d;
      assert es[j] == init[j];
    }
  }

  /** One write adds its date and sets its field, and leaves every other date and field as it was. */
  lemma PutLookup(stats: History, e: Entry, d: string, k: Key)
    ensures d in Put(stats, e) <==> d in stats || e.date == d
    ensures d in Put(stats, e) ==>
              (k in Put(stats, e)[d] <==> (e.date == d && e.key == k) || (d in stats && k in stats[d]))
    ensures d in Put(stats, e) && k in Put(stats, e)[d] ==>
              Put(stats, e)[d][k] == (if e.date == d && e.key == k then e.value else stats[d][k])
  {
  }

  lemma {:induction false} LastWriteMentions(es: seq<Entry>, d: string, k: Key)
    ensures LastWrite(es, d, k).Some? ==> Mentions(es, d)
  {
    if es != [] {
      var init := es[..|es| - 1];
      if es[|es| - 1].date == d {
        assert es[|es| - 1].date == d;
      } else {
        LastWriteMentions(init, d, k);
        if Mentions(init, d) {
          var j :| 0 <= j < |init| && init[j].date == d;
          assert es[j] == init[j];
        }
      }
    }
  }

  /** Writes that never touch field `k` leave its last write where it was. */
  lemma {:induction false} LastWriteSkips(es: seq<Entry>, fs: seq<Entry>, d: string, k: Key)
    requires forall j :: 0 <= j < |fs| ==> fs[j].key != k
    ensures LastWrite(es + fs, d, k) == LastWrite(es, d, k)
  {
    if fs == [] {
      assert es + fs == es;
    } else {
      var all := es + fs;
      assert all[..|all| - 1] == es + fs[..|fs| - 1];
      assert all[|all| - 1] == fs[|fs| - 1];
      LastWriteSkips(es, fs[..|fs| - 1], d, k);
    }
  }

  /** Writes that come first and never touch field `k` do not matter for it. */
  lemma {:induction false} LastWriteIgnoresPrefix(es: seq<Entry>, fs: seq<Entry>, d: string, k: Key)
    requires forall j :: 0 <= j < |es| ==> es[j].key != k
    ensures LastWrite(es + fs, d, k) == LastWrite(fs, d, k)
  {
    if fs == [] {
      assert es + fs == [] + es;
      LastWriteSkips([], es, d, k);
    } else {
      var all := es + fs;
      assert all[..|all| - 1] == es + fs[..|fs| - 1];
      assert all[|all| - 1] == fs[|fs| - 1];
      LastWriteIgnoresPrefix(es, fs[..|fs| - 1], d, k);
    }
  }

  // ---------------------------------------------------------------------
  // _collect_case_history_vg

  /** `x if x else 0`: a null reading counts as zero. */
  function NullToZero(x: Option<real>): real {
    if x.Some? then x.value else 0.0
  }

  /**
   * The three ward totals written for a hospital reading: general
   * `t - i`, intensive care `max(i - v, 0)` and ventilator `v`. The
   * intensive-care figure is never negative, and the three add up to the
   * hospitalised count exactly when no more patients are on a ventilator
   * than in intensive care.
   */
  function WardTotals(t: real, i: real, v: real): (r: (real, real, real))
    ensures r.1 >= 0.0 && r.2 == v
    ensures r.0 + r.1 + r.2 == t + MaxReal(v - i, 0.0)
    ensures r.0 + r.1 + r.2 == t <==> v <= i
  {
    (t - i, MaxReal(i - v, 0.0), v)
  }

  /** The writes of one loop over a plain series: the row's value under `k`. */
  function Writes(rows: seq<Point>, k: Key): (es: seq<Entry>)
    ensures |es| == |rows|
    ensures forall j :: 0 <= j < |rows| ==> es[j] == Entry(rows[j].date, k, rows[j].value)
  {
    seq(|rows|, j requires 0 <= j < |rows| => Entry(rows[j].date, k, rows[j].value))
  }

  /** The writes of the tests loop: the tests count and the positive share, both under the tests row's date. */
  function TestWrites(pairs: seq<(Point, Point)>): (es: seq<Entry>)
    ensures |es| == 2 * |pairs|
  {
    if pairs == [] then []
    else
      var (a, b) := pairs[|pairs| - 1];
      TestWrites(pairs[..|pairs| - 1]) + [Entry(a.date, Today(Tests), a.value), Entry(a.date, TestsPositive, b.value)]
  }

  /** The three writes for one hospital reading, under the hospitalised row's date. */
  function HospitalRowWrites(a: Reading, b: Reading, c: Reading): seq<Entry> {
    var totals := WardTotals(NullToZero(a.value), NullToZero(b.value), NullToZero(c.value));
    [ Entry(a.date, WardTotal(General), totals.0),
      Entry(a.date, WardTotal(IntensiveCare), totals.1),
      Entry(a.date, WardTotal(Ventilator), totals.2) ]
  }

  /** The writes of the hospital loop over the zipped hospitalised, intensive-care and ventilator series. */
  function HospitalWrites(triples: seq<(Reading, (Reading, Reading))>): (es: seq<Entry>)
    ensures |es| == 3 * |triples|
  {
    if triples == [] then []
    else
      var (a, (b, c)) := triples[|triples| - 1];
      HospitalWrites(triples[..|triples| - 1]) + HospitalRowWrites(a, b, c)
  }

  function TestPairs(feed: CaseFeed): seq<(Point, Point)> {
    Zip(feed.tests, feed.positive)
  }

  function HospitalTriples(feed: CaseFeed): seq<(Reading, (Reading, Reading))> {
    Zip(feed.hospitalized, Zip(feed.intensiveCare, feed.ventilator))
  }

  /** Every write of the case feed, in the order the four loops make them. */
  function CaseWrites(feed: CaseFeed): seq<Entry> {
    Writes(feed.cases, Today(Infected)) + Writes(feed.deaths, Today(Dead))
      + TestWrites(TestPairs(feed)) + HospitalWrites(HospitalTriples(feed))
  }

  /** The history `_collect_case_history_vg` returns: empty unless the status is 200. */
  function CaseHistory(response: Response<CaseFeed>): History {
    if response.status == 200 then Apply(map[], CaseWrites(response.items)) else map[]
  }

  /** `Apply` of a single write is that write. */
  lemma ApplyOne(stats: History, e: Entry)
    ensures Apply(stats, [e]) == Put(stats, e)
  {
    assert [e][..0] == [];
  }

  /** The loop over the rows of one series, writing each value under `k`. */
  method WriteSeries(stats: History, rows: seq<Point>, k: Key) returns (r: History)
    ensures r == Apply(stats, Writes(rows, k))
  {
    r := stats;
    var j := 0;
    while j < |rows|
      invariant 0 <= j <= |rows|
      invariant r == Apply(stats, Writes(rows[..j], k))
    {
      var row := rows[j];
      ghost var e := Entry(row.date, k, row.value);
      assert Writes(rows[..j + 1], k) == Writes(rows[..j], k) + [e];
      ApplyAppend(stats, Writes(rows[..j], k), [e]);
      ApplyOne(r, e);
      var day := CollectedOn(r, row.date);
      r := r[row.date := day[k := row.value]];
      j := j + 1;
    }
    assert rows[..j] == rows;
  }

  /** The loop over the zipped tests and positive-share series. */
  method WriteTests(stats: History, pairs: seq<(Point, Point)>) returns (r: History)
    ensures r == Apply(stats, TestWrites(pairs))
  {
    r := stats;
    var j := 0;
    while j < |pairs|
      invariant 0 <= j <= |pairs|
      invariant r == Apply(stats, TestWrites(pairs[..j]))
    {
      var (a, b) := pairs[j];
      assert pairs[..j + 1][..j] == pairs[..j];
      ghost var before := TestWrites(pairs[..j]);
      ghost var e1, e2 := Entry(a.date, Today(Tests), a.value), Entry(a.date, TestsPositive, b.value);
      assert TestWrites(pairs[..j + 1]) == before + [e1, e2];
      ApplyAppend(stats, before, [e1, e2]);
      ApplyTwo(r, e1, e2);
      PutsOnOneDay(r, a.date, Today(Tests), a.value, TestsPositive, b.value);
      var day := CollectedOn(r, a.date);
      day := day[Today(Tests) := a.value];
      day := day[TestsPositive := b.value];
      r := r[a.date := day];
      j := j + 1;
    }
    assert pairs[..j] == pairs;
  }

  lemma HospitalRowApplied(r: History, a: Reading, b: Reading, c: Reading)
    ensures
      var t, i, v := NullToZero(a.value), NullToZero(b.value), NullToZero(c.value);
      Apply(r, HospitalRowWrites(a, b, c)) ==
        r[a.date := CollectedOn(r, a.date)[WardTotal(General) := t - i][WardTotal(IntensiveCare) := MaxReal(i - v, 0.0)][WardTotal(Ventilator) := v]]
  {
    var t, i, v := NullToZero(a.value), NullToZero(b.value), NullToZero(c.value);
    var row := HospitalRowWrites(a, b, c);
    assert row == [Entry(a.date, WardTotal(General), t - i), Entry(a.date, WardTotal(IntensiveCare), MaxReal(i - v, 0.0)), Entry(a.date, WardTotal(Ventilator), v)];
    ApplyThree(r, row[0], row[1], row[2]);
    PutsOnOneDay3(r, a.date, WardTotal(General), t - i, WardTotal(IntensiveCare), MaxReal(i - v, 0.0), WardTotal(Ventilator), v);
  }

  /** The loop over the zipped hospitalised, intensive-care and ventilator series. */
  method WriteHospital(stats: History, triples: seq<(Reading, (Reading, Reading))>) returns (r: History)
    ensures r == Apply(stats, HospitalWrites(triples))
  {
    r := stats;
    var j := 0;
    while j < |triples|
      invariant 0 <= j <= |triples|
      invariant r == Apply(stats, HospitalWrites(triples[..j]))
    {
      var (a, (b, c)) := triples[j];
      assert triples[..j + 1][..j] == triples[..j];
      ghost var before := HospitalWrites(triples[..j]);
      ghost var row := HospitalRowWrites(a, b, c);
      assert HospitalWrites(triples[..j + 1]) == before + row;
      ApplyAppend(stats, before, row);
      HospitalRowApplied(r, a, b, c);
      var t := NullToZero(a.value);
      var i := NullToZero(b.value);
      var v := NullToZero(c.value);
      var day := CollectedOn(r, a.date);
      day := day[WardTotal(General) := t - i];
      day := day[WardTotal(IntensiveCare) := MaxReal(i - v, 0.0)];
      day := day[WardTotal(Ventilator) := v];
      r := r[a.date := day];
      j := j + 1;
    }
    assert triples[..j] == triples;
  }

  /** `_collect_case_history_vg` after the request: the four row loops, one after the other. */
  method CollectCaseHistory(response: Response<CaseFeed>) returns (stats: History)
    ensures stats == CaseHistory(response)
  {
    if response.status != 200 {
      return map[];
    }
    var feed := response.items;
    stats := map[];
    stats := WriteSeries(stats, feed.cases, Today(Infected));
    stats := WriteSeries(stats, feed.deaths, Today(Dead));
    stats := WriteTests(stats, Zip(feed.tests, feed.positive));
    stats := WriteHospital(stats, Zip(feed.hospitalized, Zip(feed.intensiveCare, feed.ventilator)));
    ghost var cases, deaths := Writes(feed.cases, Today(Infected)), Writes(feed.deaths, Today(Dead));
    ApplyAppend(map[], cases, deaths);
    ApplyAppend(map[], cases + deaths, TestWrites(TestPairs(feed)));
    ApplyAppend(map[], cases + deaths + TestWrites(TestPairs(feed)), HospitalWrites(HospitalTriples(feed)));
  }

  /** A response other than 200 yields an empty history. */
  lemma FailedCaseRequestIsEmpty(response: Response<CaseFeed>)
    requires response.status != 200
    ensures CaseHistory(response) == map[]
  {
  }

  /**
   * `zip` stops at the shorter series: a tests row with no positive row
   * beside it writes nothing.
   */
  lemma UnpairedTestsIgnored(feed: CaseFeed, extra: Point)
    requires |feed.tests| >= |feed.positive|
    ensures CaseWrites(feed.(tests := feed.tests + [extra])) == CaseWrites(feed)
  {
    var longer := feed.(tests := feed.tests + [extra]);
    assert Zip(longer.tests, longer.positive) == Zip(feed.tests, feed.positive);
  }

  /** Only the writes of one series touch `infected.today`. */
  lemma {:induction false} InfectedFromCasesOnly(feed: CaseFeed, d: string)
    ensures LastWrite(CaseWrites(feed), d, Today(Infected)) == LastWrite(Writes(feed.cases, Today(Infected)), d, Today(Infected))
  {
    var tests := TestWrites(TestPairs(feed));
    var hospital := HospitalWrites(HospitalTriples(feed));
    TestWritesKeys(TestPairs(feed));
    HospitalWritesKeys(HospitalTriples(feed));
    var rest := Writes(feed.deaths, Today(Dead)) + tests + hospital;
    assert forall j :: 0 <= j < |rest| ==> rest[j].key != Today(Infected) by {
      forall j | 0 <= j < |rest| ensures rest[j].key != Today(Infected) {
        if j < |feed.deaths| {
        } else if j < |feed.deaths| + |tests| {
          assert rest[j] == tests[j - |feed.deaths|];
        } else {
          assert rest[j] == hospital[j - |feed.deaths| - |tests|];
        }
      }
    }
    assert CaseWrites(feed) == Writes(feed.cases, Today(Infected)) + rest;
    LastWriteSkips(Writes(feed.cases, Today(Infected)), rest, d, Today(Infected));
  }

  /** Only the hospital loop writes the ward totals. */
  lemma {:induction false} WardTotalsFromHospitalOnly(feed: CaseFeed, d: string, w: Ward)
    ensures LastWrite(CaseWrites(feed), d, WardTotal(w)) == LastWrite(HospitalWrites(HospitalTriples(feed)), d, WardTotal(w))
  {
    var tests := TestWrites(TestPairs(feed));
    TestWritesKeys(TestPairs(feed));
    var first := Writes(feed.cases, Today(Infected)) + Writes(feed.deaths, Today(Dead)) + tests;
    assert forall j :: 0 <= j < |first| ==> first[j].key != WardTotal(w) by {
      forall j | 0 <= j < |first| ensures first[j].key != WardTotal(w) {
        if j >= |feed.cases| + |feed.deaths| {
          assert first[j] == tests[j - |feed.cases| - |feed.deaths|];
        }
      }
    }
    LastWriteIgnoresPrefix(first, HospitalWrites(HospitalTriples(feed)), d, WardTotal(w));
  }

  lemma {:induction false} TestWritesKeys(pairs: seq<(Point, Point)>)
    ensures forall j :: 0 <= j < |TestWrites(pairs)| ==> TestWrites(pairs)[j].key in {Today(Tests), TestsPositive}
  {
    if pairs != [] {
      TestWritesKeys(pairs[..|pairs| - 1]);
    }
  }

  lemma {:induction false} HospitalWritesKeys(triples: seq<(Reading, (Reading, Reading))>)
    ensures forall j :: 0 <= j < |HospitalWrites(triples)| ==> HospitalWrites(triples)[j].key.WardTotal?
  {
    if triples != [] {
      HospitalWritesKeys(triples[..|triples| - 1]);
    }
  }

  // ---------------------------------------------------------------------
  // _collect_vaccine_history_vg

  /** `row["new"].get(name, 0) or 0`: an absent or null count is zero. */
  function DoseCount(counts: map<string, Option<real>>, name: string): real {
    if name in counts && counts[name].Some? then counts[name].value else 0.0
  }

  /** The three writes for one vaccination row: both doses together, then each dose. */
  function VaccineRowWrites(row: VaccineRow): seq<Entry> {
    var d1 := DoseCount(row.counts, "peopleDose1");
    var d2 := DoseCount(row.counts, "peopleDose2");
    [ Entry(row.date, Today(Doses), d1 + d2),
      Entry(row.date, Today(Dose1), d1),
      Entry(row.date, Today(Dose2), d2) ]
  }

  /** Every write of the vaccination feed, row after row. */
  function VaccineWrites(rows: seq<VaccineRow>): (es: seq<Entry>)
    ensures |es| == 3 * |rows|
  {
    if rows == [] then [] else VaccineWrites(rows[..|rows| - 1]) + VaccineRowWrites(rows[|rows| - 1])
  }

  lemma VaccineRowApplied(r: History, row: VaccineRow)
    ensures
      var d1, d2 := DoseCount(row.counts, "peopleDose1"), DoseCount(row.counts, "peopleDose2");
      Apply(r, VaccineRowWrites(row)) ==
        r[row.date := CollectedOn(r, row.date)[Today(Doses) := d1 + d2][Today(Dose1) := d1][Today(Dose2) := d2]]
  {
    var d1, d2 := DoseCount(row.counts, "peopleDose1"), DoseCount(row.counts, "peopleDose2");
    var writes := VaccineRowWrites(row);
    ApplyThree(r, writes[0], writes[1], writes[2]);
    PutsOnOneDay3(r, row.date, Today(Doses), d1 + d2, Today(Dose1), d1, Today(Dose2), d2);
  }

  /** The history `_collect_vaccine_history_vg` returns: empty unless the status is 200. */
  function VaccineHistory(response: Response<seq<VaccineRow>>): History {
    if response.status == 200 then Apply(map[], VaccineWrites(response.items)) else map[]
  }

  /** `_collect_vaccine_history_vg` after the request: the row loop. */
  method CollectVaccineHistory(response: Response<seq<VaccineRow>>) returns (stats: History)
    ensures stats == VaccineHistory(response)
  {
    if response.status != 200 {
      return map[];
    }
    var rows := response.items;
    stats := map[];
    var j := 0;
    while j < |rows|
      invariant 0 <= j <= |rows|
      invariant stats == Apply(map[], VaccineWrites(rows[..j]))
    {
      var row := rows[j];
      assert rows[..j + 1][..j] == rows[..j];
      ghost var before := VaccineWrites(rows[..j]);
      ghost var writes := VaccineRowWrites(row);
      assert VaccineWrites(rows[..j + 1]) == before + writes;
      ApplyAppend(map[], before, writes);
      VaccineRowApplied(stats, row);
      var d1 := DoseCount(row.counts, "peopleDose1");
      var d2 := DoseCount(row.counts, "peopleDose2");
      var day := CollectedOn(stats, row.date);
      day := day[Today(Doses) := d1 + d2];
      day := day[Today(Dose1) := d1];
      day := day[Today(Dose2) := d2];
      stats := stats[row.date := day];
      j := j + 1;
    }
    assert rows[..j] == rows;
  }

  /** Every date of a history has all three dose counts, and the doses are the sum of the two. */
  ghost predicate DosesAddUp(h: History) {
    forall d :: d in h ==>
      && Today(Doses) in h[d] && Today(Dose1) in h[d] && Today(Dose2) in h[d]
      && h[d][Today(Doses)] == h[d][Today(Dose1)] + h[d][Today(Dose2)]
  }

  lemma RowKeepsDosesAddingUp(h: History, row: VaccineRow)
    requires DosesAddUp(h)
    ensures DosesAddUp(Apply(h, VaccineRowWrites(row)))
  {
    var writes := VaccineRowWrites(row);
    ApplyThree(h, writes[0], writes[1], writes[2]);
  }

  /** In the vaccination history every date's doses are dose 1 plus dose 2. */
  lemma {:induction false} VaccineDosesAddUp(rows: seq<VaccineRow>)
    ensures DosesAddUp(Apply(map[], VaccineWrites(rows)))
  {
    if rows != [] {
      var init := rows[..|rows| - 1];
      VaccineDosesAddUp(init);
      ApplyAppend(map[], VaccineWrites(init), VaccineRowWrites(rows[|rows| - 1]));
      RowKeepsDosesAddingUp(Apply(map[], VaccineWrites(init)), rows[|rows| - 1]);
    }
  }

  /** A row whose dose counts are absent or null records zero doses. */
  lemma MissingDosesCountZero(row: VaccineRow)
    requires "peopleDose1" !in row.counts || row.counts["peopleDose1"].None?
    requires "peopleDose2" !in row.counts || row.counts["peopleDose2"].None?
    ensures VaccineRowWrites(row) == [Entry(row.date, Today(Doses), 0.0), Entry(row.date, Today(Dose1), 0.0), Entry(row.date, Today(Dose2), 0.0)]
  {
  }

  // ---------------------------------------------------------------------
  // _populate_timeseries

  /**
   * The merged history: every date of either history, with the vaccination
   * fields laid over the case fields.
   */
  function Combined(caseHistory: History, vaccineHistory: History): History {
    map d | d in caseHistory.Keys + vaccineHistory.Keys :: CollectedOn(caseHistory, d) + CollectedOn(vaccineHistory, d)
  }

  /**
   * The merge keeps every date of both histories and no other; on a date,
   * a field comes from the vaccination history when it has it and from the
   * case history otherwise.
   */
  lemma CombinedFields(caseHistory: History, vaccineHistory: History, d: string, k: Key)
    ensures d in Combined(caseHistory, vaccineHistory) <==> d in caseHistory || d in vaccineHistory
    ensures d in Combined(caseHistory, vaccineHistory) ==>
              (k in Combined(caseHistory, vaccineHistory)[d] <==>
                 k in CollectedOn(caseHistory, d) || k in CollectedOn(vaccineHistory, d))
    ensures k in CollectedOn(vaccineHistory, d) ==>
              Combined(caseHistory, vaccineHistory)[d][k] == vaccineHistory[d][k]
    ensures k !in CollectedOn(vaccineHistory, d) && k in CollectedOn(caseHistory, d) ==>
              Combined(caseHistory, vaccineHistory)[d][k] == caseHistory[d][k]
  {
  }

  /** `acc` after `combined.setdefault(k, {}).update(v)` for every date `k` of `h`. */
  function Merged(acc: History, h: History): History {
    map d | d in acc.Keys + h.Keys :: CollectedOn(acc, d) + CollectedOn(h, d)
  }

  /** One merge loop of `_populate_timeseries`. */
  method MergeInto(acc: History, h: History) returns (r: History)
    ensures r == Merged(acc, h)
  {
    r := acc;
    var todo := h.Keys;
    while todo != {}
      invariant todo <= h.Keys
      invariant r.Keys == acc.Keys + (h.Keys - todo)
      invariant forall d :: d in r && d in todo ==> r[d] == acc[d]
      invariant forall d :: d in r && d !in todo ==> r[d] == CollectedOn(acc, d) + CollectedOn(h, d)
      decreases todo
    {
      var d :| d in todo;
      r := r[d := CollectedOn(r, d) + h[d]];
      todo := todo - {d};
    }
    MergedFromParts(acc, h, r);
  }

  lemma MergedFromParts(acc: History, h: History, m: History)
    requires m.Keys == acc.Keys + h.Keys
    requires forall d :: d in m ==> m[d] == CollectedOn(acc, d) + CollectedOn(h, d)
    ensures m == Merged(acc, h)
  {
  }

  /** Merging the case history and then the vaccination history into an empty one gives `Combined`. */
  lemma MergedTwice(caseHistory: History, vaccineHistory: History)
    ensures Merged(Merged(map[], caseHistory), vaccineHistory) == Combined(caseHistory, vaccineHistory)
  {
    var first := Merged(map[], caseHistory);
    assert first == caseHistory by {
      assert forall d :: d in first ==> first[d] == map[] + caseHistory[d];
      assert forall f: Fields :: map[] + f == f;
    }
  }

  /** The two merge loops of `_populate_timeseries`. */
  method Combine(caseHistory: History, vaccineHistory: History) returns (combined: History)
    ensures combined == Combined(caseHistory, vaccineHistory)
  {
    combined := MergeInto(map[], caseHistory);
    combined := MergeInto(combined, vaccineHistory);
    MergedTwice(caseHistory, vaccineHistory);
  }

  // ---------------------------------------------------------------------
  // The collector

  /**
   * `self.stats`. Its "history" entry is the time series' own list and its
   * "current" entry that list's last element, so the model keeps the
   * series itself; `History()` and `Current()` below read them off.
   */
  datatype Stats = Stats(status: string, updated: string, series: TimeSeries)

  /** Builds the time series from the two histories; the dates `create_date_range` yields are a parameter. */
  method Publish(caseHistory: History, vaccineHistory: History, dates: seq<string>) returns (timeseries: TimeSeries)
    ensures fresh(timeseries)
    ensures timeseries.data == Enriched(Overlaid(dates, Combined(caseHistory, vaccineHistory)))
    ensures |timeseries.data| == |dates|
  {
    var combined := Combine(caseHistory, vaccineHistory);
    timeseries := new TimeSeries(combined, dates);
  }

  class Collector {
    /** `self.status`: the status new statistics are published with. */
    var status: string
    var stats: Stats
    /** `self.json`: the snapshot of `stats` served to clients (its encoding is not modelled). */
    var json: Stats
    var timeseries: TimeSeries

    /** The statistics describe the collector's own, non-empty time series. */
    ghost predicate Valid()
      reads this, timeseries
    {
      stats.series == timeseries && |timeseries.data| > 0
    }

    /** `stats["history"]`. */
    function History(): seq<Record>
      reads this, stats.series
    {
      stats.series.data
    }

    /** `stats["current"]`: the last day of the history. */
    function Current(): (r: Record)
      requires Valid()
      reads this, timeseries
      ensures r == History()[|History()| - 1]
      ensures r.date == timeseries.data[|timeseries.data| - 1].date
    {
      timeseries.data[|timeseries.data| - 1]
    }

    /**
     * `Collector()`: status "ok" and statistics over a time series with no
     * collected data; `now` is the reading of `get_now_local()`.
     */
    constructor (dates: seq<string>, now: string)
      requires |dates| > 0
      ensures status == "ok"
      ensures timeseries.data == Enriched(Overlaid(dates, map[]))
      ensures stats == Stats("ok", now, timeseries) && json == stats
      ensures Valid()
    {
      status := "ok";
      var ts := Publish(map[], map[], dates);
      assert Combined(map[], map[]) == map[];
      timeseries := ts;
      stats := Stats("ok", now, ts);
      json := stats;
    }

    /**
     * `_populate_timeseries`: merges the histories, rebuilds the time series
     * and republishes the statistics with the collector's status.
     */
    method PopulateTimeseries(caseHistory: History, vaccineHistory: History, dates: seq<string>, now: string)
      requires |dates| > 0
      modifies this
      ensures fresh(timeseries)
      ensures timeseries.data == Enriched(Overlaid(dates, Combined(caseHistory, vaccineHistory)))
      ensures stats == Stats(status, now, timeseries) && json == stats
      ensures status == old(status)
      ensures Valid()
    {
      timeseries := Publish(caseHistory, vaccineHistory, dates);
      stats := Stats(status, now, timeseries);
      json := stats;
    }

    /**
     * `_set_error`: marks the published statistics as failed and refreshes
     * the snapshot; `self.status` and the time series are left as they were.
     */
    method SetError()
      modifies this
      ensures stats == old(stats).(status := "error") && json == stats
      ensures status == old(status) && timeseries == old(timeseries)
      ensures old(Valid()) ==> Valid()
    {
      stats := stats.(status := "error");
      json := stats;
    }
  }
}
