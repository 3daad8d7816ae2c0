/**
 * The daily time series of src/models.py: one record per date, seeded with
 * default counts, overlaid with the collected per-date fields, then enriched
 * in place with running totals, day-to-day differences, moving averages,
 * percent changes and population ratios.
 */
module Models {
  import opened Common
  import opened PyRound
  import opened Utils

  /** The population the ratios are taken against. */
  const POPULATION: int := 5367580

  /**
   * The counted series that have a `.today` and a `.total` field: "infected",
   * "dead", "tests", "vaccinated.doses", "vaccinated.dose_1" and
   * "vaccinated.dose_2".
   */
  datatype Metric = Infected | Dead | Tests | Doses | Dose1 | Dose2

  /**
   * The hospital series, reported as standing totals: "hospitalized.general",
   * "hospitalized.intensive_care" and "hospitalized.ventilator".
   */
  datatype Ward = General | IntensiveCare | Ventilator

  /**
   * The field names of a day record. The source builds them with f-strings
   * from a series name and a suffix; the comment beside each constructor
   * gives the string it stands for. Distinct constructors stand for
   * distinct strings, so field names never collide.
   */
  datatype Key =
    | Today(metric: Metric)                  // "<metric>.today"
    | Total(metric: Metric)                  // "<metric>.total"
    | TestsPositive                          // "tests.positive"
    | WardTotal(ward: Ward)                  // "hospitalized.<ward>.total"
    | WardToday(ward: Ward)                  // "hospitalized.<ward>.today"
    | MovingAverage(field: Key, window: nat) // "<field>_avg_<window>"
    | DeltaPercent(changed: Metric)          // "<metric>.delta_percent"
    | PopulationTotal                        // "population.total"
    | MortalityRate                          // "dead.mortality_rate"
    | PopulationInfected                     // "population.infected"
    | PopulationVaccinated                   // "population.vaccinated"
    | PopulationVaccinatedFull               // "population.vaccinated_full"

  type Fields = map<Key, real>

  /** Collected fields per ISO date, as handed to the time series. */
  type History = map<string, Fields>

  /** One day: the ISO date under "date" and the numeric fields. */
  datatype Record = Record(date: string, fields: Fields)

  /** `TimeSeries.DEFAULT`: every record starts with these fields at zero. */
  const DEFAULT: Fields := map[
    Today(Infected) := 0.0,
    Today(Dead) := 0.0,
    Today(Tests) := 0.0,
    TestsPositive := 0.0,
    WardTotal(General) := 0.0,
    WardTotal(IntensiveCare) := 0.0,
    WardTotal(Ventilator) := 0.0,
    Today(Doses) := 0.0,
    Today(Dose1) := 0.0,
    Today(Dose2) := 0.0
  ]

  /** The series `compute_totals` accumulates, in the source's order. */
  const TotalMetrics: seq<Metric> := [Infected, Dead, Tests, Doses, Dose1, Dose2]

  /** The hospital series `compute_dailies` differences. */
  const Wards: seq<Ward> := [General, IntensiveCare, Ventilator]

  /** The fields `compute_averages` smooths, and the two window sizes. */
  const AveragedFields: seq<Key> :=
    [Today(Infected), Today(Dead), Today(Tests), TestsPositive, Today(Doses), Today(Dose1), Today(Dose2)]
  const Windows: seq<nat> := [3, 7]

  /** The series `compute_changes` gives a percent change. */
  const ChangeMetrics: seq<Metric> := [Infected, Tests, Doses]

  // ---------------------------------------------------------------------
  // Field presence and columns

  /** Every record of `data` has the field `k`, so reading it cannot fail. */
  ghost predicate Has(data: seq<Record>, k: Key) {
    forall i :: 0 <= i < |data| ==> k in data[i].fields
  }

  /** Every day has the daily counts `compute_totals` reads. */
  ghost predicate Counted(data: seq<Record>) {
    forall i, m: Metric :: 0 <= i < |data| ==> Today(m) in data[i].fields
  }

  /** Every day has the standing ward totals `compute_dailies` reads. */
  ghost predicate Hospitalized(data: seq<Record>) {
    forall i, w: Ward :: 0 <= i < |data| ==> WardTotal(w) in data[i].fields
  }

  /** Every day has the running totals `compute_totals` writes. */
  ghost predicate Totaled(data: seq<Record>) {
    forall i, m: Metric :: 0 <= i < |data| ==> Total(m) in data[i].fields
  }

  /** The default fields are present in every record. */
  ghost predicate Seeded(data: seq<Record>) {
    Counted(data) && Has(data, TestsPositive) && Hospitalized(data)
  }

  /** `data` and `r` hold the same dates in the same order. */
  ghost predicate SameDates(data: seq<Record>, r: seq<Record>) {
    |r| == |data| && forall i {:trigger r[i]} :: 0 <= i < |data| ==> r[i].date == data[i].date
  }

  /** Every field present on a day of `data` is still present on that day of `r`. */
  ghost predicate KeepsFields(data: seq<Record>, r: seq<Record>)
    requires |r| == |data|
  {
    forall i {:trigger r[i]} :: 0 <= i < |data| ==> data[i].fields.Keys <= r[i].fields.Keys
  }

  lemma KeptField(data: seq<Record>, r: seq<Record>, k: Key)
    requires |r| == |data| && KeepsFields(data, r) && Has(data, k)
    ensures Has(r, k)
  {
  }

  /** A step that keeps every field keeps the defaults and the totals. */
  lemma KeptStages(data: seq<Record>, r: seq<Record>)
    requires |r| == |data| && KeepsFields(data, r)
    ensures Seeded(data) ==> Seeded(r)
    ensures Totaled(data) ==> Totaled(r)
  {
    if Has(data, TestsPositive) {
      KeptField(data, r, TestsPositive);
    }
  }

  lemma MetricListed(m: Metric)
    ensures m in TotalMetrics
  {
  }

  lemma WardListed(w: Ward)
    ensures w in Wards
  {
  }

  lemma AllMetricsListed()
    ensures forall m: Metric :: m in TotalMetrics
  {
    forall m: Metric ensures m in TotalMetrics {
      MetricListed(m);
    }
  }

  lemma AllWardsListed()
    ensures forall w: Ward :: w in Wards
  {
    forall w: Ward ensures w in Wards {
      WardListed(w);
    }
  }

  lemma DefaultsPresent(f: Fields)
    requires DEFAULT.Keys <= f.Keys
    ensures forall m: Metric :: Today(m) in f
    ensures TestsPositive in f
    ensures forall w: Ward :: WardTotal(w) in f
  {
    forall m: Metric ensures Today(m) in f {
      match m
      case Infected =>
      case Dead =>
      case Tests =>
      case Doses =>
      case Dose1 =>
      case Dose2 =>
    }
    forall w: Ward ensures WardTotal(w) in f {
      match w
      case General =>
      case IntensiveCare =>
      case Ventilator =>
    }
  }

  /** Updating a union is updating its right-hand side. */
  lemma UnionThenUpdate(a: Fields, b: Fields, k: Key, v: real)
    ensures (a + b)[k := v] == a + b[k := v]
  {
  }

  /** The values of field `k` across the days: `[obj[k] for obj in data]`. */
  function Column(data: seq<Record>, k: Key): (c: seq<real>)
    requires Has(data, k)
    ensures |c| == |data|
    ensures forall i :: 0 <= i < |data| ==> c[i] == data[i].fields[k]
  {
    seq(|data|, i requires 0 <= i < |data| => data[i].fields[k])
  }

  /** Python's `sum`: adds the elements from the first to the last. */
  function Sum(xs: seq<real>): real {
    if xs == [] then 0.0 else Sum(xs[..|xs| - 1]) + xs[|xs| - 1]
  }

  /** Reference definition of running totals: element i is the sum of elements 0..i. */
  function PrefixSums(xs: seq<real>): (r: seq<real>)
    ensures |r| == |xs|
  {
    seq(|xs|, i requires 0 <= i < |xs| => Sum(xs[..i + 1]))
  }

  /** Reference definition of day-to-day differences, the first day kept as it is. */
  function Differences(xs: seq<real>): (r: seq<real>)
    ensures |r| == |xs|
  {
    seq(|xs|, i requires 0 <= i < |xs| => if i == 0 then xs[0] else xs[i] - xs[i - 1])
  }

  lemma SumSingle(x: real)
    ensures Sum([x]) == x
  {
    assert [x][..0] == [];
  }

  /** Differencing running totals gives back the original series. */
  lemma {:induction false} DifferencesUndoPrefixSums(xs: seq<real>)
    ensures Differences(PrefixSums(xs)) == xs
  {
    var p := PrefixSums(xs);
    forall i | 0 <= i < |xs| ensures Differences(p)[i] == xs[i] {
      if i == 0 {
        assert xs[..1] == [xs[0]];
        SumSingle(xs[0]);
      } else {
        assert xs[..i + 1][..i] == xs[..i];
      }
    }
  }

  /** Running totals of the differences give back the original series. */
  lemma {:induction false} PrefixSumsUndoDifferences(ys: seq<real>)
    ensures PrefixSums(Differences(ys)) == ys
  {
    forall i | 0 <= i < |ys| ensures Sum(Differences(ys)[..i + 1]) == ys[i] {
      SumOfDifferences(ys, i);
    }
  }

  lemma {:induction false} SumOfDifferences(ys: seq<real>, i: nat)
    requires i < |ys|
    ensures Sum(Differences(ys)[..i + 1]) == ys[i]
  {
    var d := Differences(ys);
    if i == 0 {
      assert d[..1] == [d[0]];
      SumSingle(d[0]);
    } else {
      SumOfDifferences(ys, i - 1);
      assert d[..i + 1][..i] == d[..i];
    }
  }

  // ---------------------------------------------------------------------
  // TimeSeries.__init__: defaults, then the overlay of collected fields

  /** The collected fields for `day`, or none when the day was not collected. */
  function CollectedOn(raw: History, day: string): Fields {
    if day in raw then raw[day] else map[]
  }

  /**
   * The records `__init__` builds before enriching: one per date, the
   * defaults updated with the collected fields of that date.
   */
  function Overlaid(dates: seq<string>, raw: History): (r: seq<Record>)
    ensures |r| == |dates|
    ensures forall i :: 0 <= i < |r| ==> r[i].date == dates[i]
    ensures forall i :: 0 <= i < |r| ==> DEFAULT.Keys <= r[i].fields.Keys
    ensures forall i, k :: 0 <= i < |r| && k in DEFAULT && !(dates[i] in raw && k in raw[dates[i]]) ==>
              r[i].fields[k] == 0.0
    ensures forall i, k :: 0 <= i < |r| && dates[i] in raw && k in raw[dates[i]] ==>
              k in r[i].fields && r[i].fields[k] == raw[dates[i]][k]
    ensures forall i, k :: 0 <= i < |r| && k in r[i].fields ==>
              k in DEFAULT || (dates[i] in raw && k in raw[dates[i]])
    ensures Seeded(r)
  {
    var r := seq(|dates|, i requires 0 <= i < |dates| => Record(dates[i], DEFAULT + CollectedOn(raw, dates[i])));
    forall i | 0 <= i < |r| ensures OverlayOf(raw, dates[i], r[i].fields) {
      OverlayFields(raw, dates[i]);
    }
    DefaultsEverywhere(r);
    r
  }

  /** The fields of `day` are the defaults overlaid with what was collected for it. */
  ghost predicate OverlayOf(raw: History, day: string, f: Fields) {
    && DEFAULT.Keys <= f.Keys
    && (forall k :: k in DEFAULT && !(day in raw && k in raw[day]) ==> f[k] == 0.0)
    && (forall k :: day in raw && k in raw[day] ==> k in f && f[k] == raw[day][k])
    && (forall k :: k in f ==> k in DEFAULT || (day in raw && k in raw[day]))
  }

  lemma OverlayFields(raw: History, day: string)
    ensures OverlayOf(raw, day, DEFAULT + CollectedOn(raw, day))
  {
  }

  lemma DefaultsEverywhere(r: seq<Record>)
    requires forall i :: 0 <= i < |r| ==> DEFAULT.Keys <= r[i].fields.Keys
    ensures Seeded(r)
  {
    forall i | 0 <= i < |r|
      ensures (forall m: Metric :: Today(m) in r[i].fields) && TestsPositive in r[i].fields
      ensures forall w: Ward :: WardTotal(w) in r[i].fields
    {
      DefaultsPresent(r[i].fields);
    }
  }

  /** Collected dates outside the generated range have no effect. */
  lemma OverlayIgnoresOtherDates(dates: seq<string>, raw: History, extra: string, fields: Fields)
    requires extra !in dates
    ensures Overlaid(dates, raw[extra := fields]) == Overlaid(dates, raw)
  {
    var a, b := Overlaid(dates, raw[extra := fields]), Overlaid(dates, raw);
    forall i | 0 <= i < |dates| ensures a[i] == b[i] {
      assert dates[i] != extra;
      assert CollectedOn(raw[extra := fields], dates[i]) == CollectedOn(raw, dates[i]);
    }
  }


  // ---------------------------------------------------------------------
  // compute_totals

  /** The in-place recurrence of `compute_totals`: today's count plus yesterday's total. */
  function RunningTotal(data: seq<Record>, m: Metric, i: nat): real
    requires i < |data| && Has(data, Today(m))
  {
    if i == 0 then data[0].fields[Today(m)]
    else RunningTotal(data, m, i - 1) + data[i].fields[Today(m)]
  }

  /** The total fields the inner loop writes on day i for the series `ms`. */
  function TotalsFor(data: seq<Record>, i: nat, ms: seq<Metric>): Fields
    requires i < |data| && Counted(data)
  {
    if ms == [] then map[]
    else
      var m := ms[|ms| - 1];
      TotalsFor(data, i, ms[..|ms| - 1])[Total(m) := RunningTotal(data, m, i)]
  }

  lemma TotalsForSnoc(data: seq<Record>, i: nat, ms: seq<Metric>, m: Metric)
    requires i < |data| && Counted(data)
    ensures TotalsFor(data, i, ms + [m]) == TotalsFor(data, i, ms)[Total(m) := RunningTotal(data, m, i)]
  {
    assert (ms + [m])[..|ms|] == ms;
  }

  /** The inner loop writes exactly the totals of the series it has visited. */
  lemma {:induction false} TotalsForLookup(data: seq<Record>, i: nat, ms: seq<Metric>, k: Key)
    requires i < |data| && Counted(data)
    ensures k in TotalsFor(data, i, ms) <==> k.Total? && k.metric in ms
    ensures k in TotalsFor(data, i, ms) ==> TotalsFor(data, i, ms)[k] == RunningTotal(data, k.metric, i)
  {
    if ms != [] {
      assert ms == ms[..|ms| - 1] + [ms[|ms| - 1]];
      TotalsForLookup(data, i, ms[..|ms| - 1], k);
    }
  }

  /** Day i after `compute_totals`. */
  function TotalsRecord(data: seq<Record>, i: nat): Record
    requires i < |data| && Counted(data)
  {
    data[i].(fields := data[i].fields + TotalsFor(data, i, TotalMetrics))
  }

  lemma TotalsRecordLookup(data: seq<Record>, i: nat, k: Key)
    requires i < |data| && Counted(data)
    ensures k in TotalsRecord(data, i).fields <==> k in data[i].fields || k.Total?
    ensures k.Total? ==> TotalsRecord(data, i).fields[k] == RunningTotal(data, k.metric, i)
    ensures !k.Total? && k in data[i].fields ==> TotalsRecord(data, i).fields[k] == data[i].fields[k]
  {
    TotalsForLookup(data, i, TotalMetrics, k);
    if k.Total? {
      MetricListed(k.metric);
    }
  }

  /** Day i after `compute_totals` keeps every field, has every total, and keeps every value but the totals. */
  lemma TotalsDay(data: seq<Record>, i: nat)
    requires i < |data| && Counted(data)
    ensures data[i].fields.Keys <= TotalsRecord(data, i).fields.Keys
    ensures forall m :: Total(m) in TotalsRecord(data, i).fields && TotalsRecord(data, i).fields[Total(m)] == RunningTotal(data, m, i)
    ensures forall k: Key :: !k.Total? && k in data[i].fields ==> TotalsRecord(data, i).fields[k] == data[i].fields[k]
  {
    forall m ensures Total(m) in TotalsRecord(data, i).fields && TotalsRecord(data, i).fields[Total(m)] == RunningTotal(data, m, i) {
      TotalsRecordLookup(data, i, Total(m));
    }
    forall k: Key | !k.Total? && k in data[i].fields ensures TotalsRecord(data, i).fields[k] == data[i].fields[k] {
      TotalsRecordLookup(data, i, k);
    }
  }

  lemma TotalsRecords(data: seq<Record>)
    requires Counted(data)
    ensures forall i :: 0 <= i < |data| ==> data[i].fields.Keys <= TotalsRecord(data, i).fields.Keys
    ensures forall i, m :: 0 <= i < |data| ==>
              Total(m) in TotalsRecord(data, i).fields && TotalsRecord(data, i).fields[Total(m)] == RunningTotal(data, m, i)
    ensures forall i, k: Key :: 0 <= i < |data| && !k.Total? && k in data[i].fields ==>
              TotalsRecord(data, i).fields[k] == data[i].fields[k]
  {
    forall i | 0 <= i < |data|
      ensures data[i].fields.Keys <= TotalsRecord(data, i).fields.Keys
      ensures forall m :: Total(m) in TotalsRecord(data, i).fields && TotalsRecord(data, i).fields[Total(m)] == RunningTotal(data, m, i)
      ensures forall k: Key :: !k.Total? && k in data[i].fields ==> TotalsRecord(data, i).fields[k] == data[i].fields[k]
    {
      TotalsDay(data, i);
    }
  }

  /** The records after `compute_totals`. */
  function WithTotals(data: seq<Record>): (r: seq<Record>)
    requires Counted(data)
    ensures SameDates(data, r) && KeepsFields(data, r) && Totaled(r)
    ensures forall i, m :: 0 <= i < |r| ==> Total(m) in r[i].fields && r[i].fields[Total(m)] == RunningTotal(data, m, i)
    ensures forall i, k: Key :: 0 <= i < |r| && !k.Total? && k in data[i].fields ==>
              r[i].fields[k] == data[i].fields[k]
  {
    TotalsRecords(data);
    seq(|data|, i requires 0 <= i < |data| => TotalsRecord(data, i))
  }

  /**
   * The inner loop of `compute_totals` on day i: each series' total is
   * today's count on the first day, yesterday's total plus today's count
   * after that.
   */
  method TotalsOfDay(ghost data: seq<Record>, i: nat, yesterday: Record, today: Record) returns (day: Record)
    requires i < |data| && Counted(data)
    requires today == data[i]
    requires i > 0 ==> yesterday == TotalsRecord(data, i - 1)
    ensures day == TotalsRecord(data, i)
  {
    day := today;
    var f := 0;
    while f < |TotalMetrics|
      invariant 0 <= f <= |TotalMetrics|
      invariant day == data[i].(fields := data[i].fields + TotalsFor(data, i, TotalMetrics[..f]))
    {
      day := TotalOfSeries(data, i, yesterday, day, f);
      f := f + 1;
    }
    assert TotalMetrics[..f] == TotalMetrics;
  }

  /** One turn of the inner loop of `compute_totals`: the total of the f-th series on day i. */
  method TotalOfSeries(ghost data: seq<Record>, i: nat, yesterday: Record, day: Record, f: nat) returns (day': Record)
    requires i < |data| && Counted(data) && f < |TotalMetrics|
    requires i > 0 ==> yesterday == TotalsRecord(data, i - 1)
    requires day == data[i].(fields := data[i].fields + TotalsFor(data, i, TotalMetrics[..f]))
    ensures day' == data[i].(fields := data[i].fields + TotalsFor(data, i, TotalMetrics[..f + 1]))
  {
    var m := TotalMetrics[f];
    ghost var before := TotalsFor(data, i, TotalMetrics[..f]);
    assert TotalMetrics[..f + 1] == TotalMetrics[..f] + [m];
    TotalsForSnoc(data, i, TotalMetrics[..f], m);
    TotalsForLookup(data, i, TotalMetrics[..f], Today(m));
    assert day.fields[Today(m)] == data[i].fields[Today(m)];
    var total;
    if i == 0 {
      total := day.fields[Today(m)];
    } else {
      TotalsRecordLookup(data, i - 1, Total(m));
      total := yesterday.fields[Total(m)] + day.fields[Today(m)];
    }
    assert total == RunningTotal(data, m, i);
    UnionThenUpdate(data[i].fields, before, Total(m), total);
    day' := day.(fields := day.fields[Total(m) := total]);
  }

  /** The running total on day i is the sum of the daily counts of days 0..i. */
  lemma {:induction false} RunningTotalIsPrefixSum(data: seq<Record>, m: Metric, i: nat)
    requires i < |data| && Has(data, Today(m))
    ensures RunningTotal(data, m, i) == Sum(Column(data, Today(m))[..i + 1])
  {
    var c := Column(data, Today(m));
    if i == 0 {
      SumPrefixStep(c, 0);
    } else {
      RunningTotalIsPrefixSum(data, m, i - 1);
      SumPrefixStep(c, i);
    }
  }

  /** The sum of the first i + 1 values adds the i-th value to the sum of the first i. */
  lemma SumPrefixStep(xs: seq<real>, i: nat)
    requires i < |xs|
    ensures Sum(xs[..i + 1]) == Sum(xs[..i]) + xs[i]
  {
    assert xs[..i + 1][..i] == xs[..i];
  }

  /** After `compute_totals`, each `.total` column is the running sum of the `.today` column. */
  lemma TotalsArePrefixSums(data: seq<Record>, m: Metric)
    requires Counted(data)
    ensures Column(WithTotals(data), Total(m)) == PrefixSums(Column(data, Today(m)))
  {
    var totals := Column(WithTotals(data), Total(m));
    var sums := PrefixSums(Column(data, Today(m)));
    forall i | 0 <= i < |data| ensures totals[i] == sums[i] {
      TotalIsPrefixSum(data, m, i);
    }
  }

  lemma TotalIsPrefixSum(data: seq<Record>, m: Metric, i: nat)
    requires Counted(data) && i < |data|
    ensures Column(WithTotals(data), Total(m))[i] == PrefixSums(Column(data, Today(m)))[i]
  {
    RunningTotalIsPrefixSum(data, m, i);
  }

  lemma {:induction false} RunningTotalMonotone(data: seq<Record>, m: Metric, j: nat, k: nat)
    requires Has(data, Today(m))
    requires forall i :: 0 <= i < |data| ==> data[i].fields[Today(m)] >= 0.0
    requires j <= k < |data|
    ensures RunningTotal(data, m, j) <= RunningTotal(data, m, k)
  {
    if j < k {
      RunningTotalMonotone(data, m, j, k - 1);
    }
  }

  /** With no negative daily count, the totals `compute_totals` writes never decrease. */
  lemma TotalsNonDecreasing(data: seq<Record>, m: Metric, j: nat, k: nat)
    requires Counted(data)
    requires forall i :: 0 <= i < |data| ==> data[i].fields[Today(m)] >= 0.0
    requires j <= k < |data|
    ensures WithTotals(data)[j].fields[Total(m)] <= WithTotals(data)[k].fields[Total(m)]
  {
    RunningTotalMonotone(data, m, j, k);
  }

  // ---------------------------------------------------------------------
  // compute_dailies

  /** `hospitalized.<w>.today` on day i: the change of the standing total since the day before. */
  function WardDaily(data: seq<Record>, w: Ward, i: nat): real
    requires i < |data| && Has(data, WardTotal(w))
  {
    if i == 0 then data[0].fields[WardTotal(w)]
    else data[i].fields[WardTotal(w)] - data[i - 1].fields[WardTotal(w)]
  }

  /** The daily fields the inner loop writes on day i for the wards `ws`. */
  function DailiesFor(data: seq<Record>, i: nat, ws: seq<Ward>): Fields
    requires i < |data| && Hospitalized(data)
  {
    if ws == [] then map[]
    else
      var w := ws[|ws| - 1];
      DailiesFor(data, i, ws[..|ws| - 1])[WardToday(w) := WardDaily(data, w, i)]
  }

  lemma DailiesForSnoc(data: seq<Record>, i: nat, ws: seq<Ward>, w: Ward)
    requires i < |data| && Hospitalized(data)
    ensures DailiesFor(data, i, ws + [w]) == DailiesFor(data, i, ws)[WardToday(w) := WardDaily(data, w, i)]
  {
    assert (ws + [w])[..|ws|] == ws;
  }

  /** The inner loop writes exactly the dailies of the wards it has visited. */
  lemma {:induction false} DailiesForLookup(data: seq<Record>, i: nat, ws: seq<Ward>, k: Key)
    requires i < |data| && Hospitalized(data)
    ensures k in DailiesFor(data, i, ws) <==> k.WardToday? && k.ward in ws
    ensures k in DailiesFor(data, i, ws) ==> DailiesFor(data, i, ws)[k] == WardDaily(data, k.ward, i)
  {
    if ws != [] {
      assert ws == ws[..|ws| - 1] + [ws[|ws| - 1]];
      DailiesForLookup(data, i, ws[..|ws| - 1], k);
    }
  }

  /** Day i after `compute_dailies`. */
  function DailiesRecord(data: seq<Record>, i: nat): Record
    requires i < |data| && Hospitalized(data)
  {
    data[i].(fields := data[i].fields + DailiesFor(data, i, Wards))
  }

  lemma DailiesRecordLookup(data: seq<Record>, i: nat, k: Key)
    requires i < |data| && Hospitalized(data)
    ensures k in DailiesRecord(data, i).fields <==> k in data[i].fields || k.WardToday?
    ensures k.WardToday? ==> DailiesRecord(data, i).fields[k] == WardDaily(data, k.ward, i)
    ensures !k.WardToday? && k in data[i].fields ==> DailiesRecord(data, i).fields[k] == data[i].fields[k]
  {
    DailiesForLookup(data, i, Wards, k);
    if k.WardToday? {
      WardListed(k.ward);
    }
  }

  lemma DailiesRecords(data: seq<Record>)
    requires Hospitalized(data)
    ensures forall i, k :: 0 <= i < |data| && k in data[i].fields ==> k in DailiesRecord(data, i).fields
  {
    forall i, k | 0 <= i < |data| && k in data[i].fields
      ensures k in DailiesRecord(data, i).fields
    {
      DailiesRecordLookup(data, i, k);
    }
  }

  /** The records after `compute_dailies`. */
  function WithDailies(data: seq<Record>): (r: seq<Record>)
    requires Hospitalized(data)
    ensures SameDates(data, r) && KeepsFields(data, r)
    ensures forall i :: 0 <= i < |r| ==> r[i] == DailiesRecord(data, i)
  {
    DailiesRecords(data);
    seq(|data|, i requires 0 <= i < |data| => DailiesRecord(data, i))
  }

  /**
   * After `compute_dailies`, every day has each ward's daily value, and
   * every field it had before keeps its value.
   */
  lemma DailiesWritten(data: seq<Record>)
    requires Hospitalized(data)
    ensures forall i, w :: 0 <= i < |data| ==>
              WardToday(w) in WithDailies(data)[i].fields && WithDailies(data)[i].fields[WardToday(w)] == WardDaily(data, w, i)
    ensures forall i, k: Key :: 0 <= i < |data| && !k.WardToday? && k in data[i].fields ==>
              WithDailies(data)[i].fields[k] == data[i].fields[k]
  {
    var r := WithDailies(data);
    forall i, w | 0 <= i < |data|
      ensures WardToday(w) in r[i].fields && r[i].fields[WardToday(w)] == WardDaily(data, w, i)
    {
      assert r[i] == DailiesRecord(data, i);
      DailiesRecordLookup(data, i, WardToday(w));
    }
    forall i, k: Key | 0 <= i < |data| && !k.WardToday? && k in data[i].fields
      ensures r[i].fields[k] == data[i].fields[k]
    {
      assert r[i] == DailiesRecord(data, i);
      DailiesRecordLookup(data, i, k);
    }
  }

  /**
   * The inner loop of `compute_dailies` on day i: each ward's daily value is
   * its total on the first day, the change of its total after that.
   */
  method DailiesOfDay(ghost data: seq<Record>, i: nat, yesterday: Record, today: Record) returns (day: Record)
    requires i < |data| && Hospitalized(data)
    requires today == data[i]
    requires i > 0 ==> yesterday == DailiesRecord(data, i - 1)
    ensures day == DailiesRecord(data, i)
  {
    day := today;
    var f := 0;
    while f < |Wards|
      invariant 0 <= f <= |Wards|
      invariant day == data[i].(fields := data[i].fields + DailiesFor(data, i, Wards[..f]))
    {
      day := DailyOfWard(data, i, yesterday, day, f);
      f := f + 1;
    }
    assert Wards[..f] == Wards;
  }

  /** One turn of the inner loop of `compute_dailies`: the daily value of the f-th ward on day i. */
  method DailyOfWard(ghost data: seq<Record>, i: nat, yesterday: Record, day: Record, f: nat) returns (day': Record)
    requires i < |data| && Hospitalized(data) && f < |Wards|
    requires i > 0 ==> yesterday == DailiesRecord(data, i - 1)
    requires day == data[i].(fields := data[i].fields + DailiesFor(data, i, Wards[..f]))
    ensures day' == data[i].(fields := data[i].fields + DailiesFor(data, i, Wards[..f + 1]))
  {
    var w := Wards[f];
    ghost var before := DailiesFor(data, i, Wards[..f]);
    assert Wards[..f + 1] == Wards[..f] + [w];
    DailiesForSnoc(data, i, Wards[..f], w);
    DailiesForLookup(data, i, Wards[..f], WardTotal(w));
    assert day.fields[WardTotal(w)] == data[i].fields[WardTotal(w)];
    var daily;
    if i == 0 {
      daily := day.fields[WardTotal(w)];
    } else {
      DailiesRecordLookup(data, i - 1, WardTotal(w));
      daily := day.fields[WardTotal(w)] - yesterday.fields[WardTotal(w)];
    }
    assert daily == WardDaily(data, w, i);
    UnionThenUpdate(data[i].fields, before, WardToday(w), daily);
    day' := day.(fields := day.fields[WardToday(w) := daily]);
  }

  /** After `compute_dailies`, each ward's `.today` column is the differences of its `.total` column. */
  lemma DailiesAreDifferences(data: seq<Record>, w: Ward)
    requires Hospitalized(data)
    ensures forall i :: 0 <= i < |data| ==>
              WardToday(w) in WithDailies(data)[i].fields &&
              WithDailies(data)[i].fields[WardToday(w)] == Differences(Column(data, WardTotal(w)))[i]
  {
    var totals := Column(data, WardTotal(w));
    forall i | 0 <= i < |data|
      ensures WardToday(w) in WithDailies(data)[i].fields
      ensures WithDailies(data)[i].fields[WardToday(w)] == Differences(totals)[i]
    {
      DailiesRecordLookup(data, i, WardToday(w));
    }
  }

  /**
   * The differencing of `compute_dailies`, applied to the totals that
   * `compute_totals` produces, gives back the daily counts.
   */
  lemma DifferencingTotalsRecoversDailies(data: seq<Record>, m: Metric)
    requires Counted(data)
    ensures Differences(Column(WithTotals(data), Total(m))) == Column(data, Today(m))
  {
    TotalsArePrefixSums(data, m);
    DifferencesUndoPrefixSums(Column(data, Today(m)));
  }

  // ---------------------------------------------------------------------
  // calculate_moving_average and compute_averages

  /** `data[max(i - (w - 1), 0) : i + 1]`: the trailing window of at most w values ending at i. */
  function Window(xs: seq<real>, w: nat, i: nat): (win: seq<real>)
    requires w >= 1 && i < |xs|
    ensures |win| == Min(i + 1, w)
    ensures forall j :: 0 <= j < |win| ==> win[j] == xs[i + 1 - |win| + j]
  {
    var lo := Max(i - (w - 1), 0);
    seq(i + 1 - lo, j requires 0 <= j < i + 1 - lo => xs[lo + j])
  }

  /** The exact moving average on day i: the window's sum, always divided by w. */
  function WindowMean(xs: seq<real>, w: nat, i: nat): real
    requires w >= 1 && i < |xs|
  {
    Sum(Window(xs, w, i)) / (w as real)
  }

  /** The value `calculate_moving_average` stores on day i: the exact average to two decimals. */
  function MovingAverageAt(data: seq<Record>, k: Key, w: nat, i: nat): real
    requires w >= 1 && i < |data| && Has(data, k)
  {
    Round(WindowMean(Column(data, k), w, i), 100)
  }

  /** Day i after `calculate_moving_average(data, k, w)`: the average added under `MovingAverage(k, w)`. */
  function AveragedDay(data: seq<Record>, k: Key, w: nat, i: nat): Record
    requires w >= 1 && i < |data| && Has(data, k)
  {
    data[i].(fields := data[i].fields[MovingAverage(k, w) := MovingAverageAt(data, k, w, i)])
  }

  /**
   * The records after `calculate_moving_average(data, k, w)`: the field
   * `MovingAverage(k, w)` is added to every day and nothing else changes.
   */
  function WithAverage(data: seq<Record>, k: Key, w: nat): (r: seq<Record>)
    requires w >= 1 && Has(data, k)
    ensures SameDates(data, r) && KeepsFields(data, r)
    ensures forall i :: 0 <= i < |r| ==>
              MovingAverage(k, w) in r[i].fields && r[i].fields[MovingAverage(k, w)] == MovingAverageAt(data, k, w, i)
    ensures forall i, k' :: 0 <= i < |r| && k' != MovingAverage(k, w) ==>
              (k' in r[i].fields <==> k' in data[i].fields)
    ensures forall i, k' :: 0 <= i < |r| && k' != MovingAverage(k, w) && k' in data[i].fields ==>
              r[i].fields[k'] == data[i].fields[k']
  {
    seq(|data|, i requires 0 <= i < |data| => AveragedDay(data, k, w, i))
  }

  /** A loop that rewrites `xs` into `ys` front to back, after n turns: `ys` up to n, `xs` from there. */
  function Spliced<T>(xs: seq<T>, ys: seq<T>, n: nat): (r: seq<T>)
    requires |xs| == |ys| && n <= |xs|
    ensures |r| == |xs|
  {
    if n == 0 then xs else Spliced(xs, ys, n - 1)[n - 1 := ys[n - 1]]
  }

  lemma {:induction false} SplicedAt<T>(xs: seq<T>, ys: seq<T>, n: nat, j: nat)
    requires |xs| == |ys| && n <= |xs| && j < |xs|
    ensures Spliced(xs, ys, n)[j] == if j < n then ys[j] else xs[j]
  {
    if n > 0 {
      SplicedAt(xs, ys, n - 1, j);
    }
  }

  lemma SplicedAll<T>(xs: seq<T>, ys: seq<T>)
    requires |xs| == |ys|
    ensures Spliced(xs, ys, |xs|) == ys
  {
    forall j | 0 <= j < |xs| ensures Spliced(xs, ys, |xs|)[j] == ys[j] {
      SplicedAt(xs, ys, |xs|, j);
    }
  }

  /**
   * `calculate_moving_average`: for each day, the trailing window of the
   * field's values is summed, divided by the window size, rounded to two
   * decimals and written under the field's average key.
   */
  method CalculateMovingAverage(data: seq<Record>, field: Key, windowSize: nat) returns (r: seq<Record>)
    requires windowSize >= 1 && Has(data, field)
    ensures r == WithAverage(data, field, windowSize)
  {
    r := data;
    var i := 0;
    while i < |data|
      invariant 0 <= i <= |data|
      invariant r == Spliced(data, WithAverage(data, field, windowSize), i)
    {
      r := AverageDay(data, field, windowSize, i, r);
      i := i + 1;
    }
    SplicedAll(data, WithAverage(data, field, windowSize));
  }

  /** One turn of the loop of `calculate_moving_average`: day i gets its average. */
  method AverageDay(ghost data: seq<Record>, field: Key, windowSize: nat, i: nat, r: seq<Record>) returns (r': seq<Record>)
    requires windowSize >= 1 && Has(data, field) && i < |data|
    requires r == Spliced(data, WithAverage(data, field, windowSize), i)
    ensures r' == Spliced(data, WithAverage(data, field, windowSize), i + 1)
  {
    ghost var target := WithAverage(data, field, windowSize);
    SplicedAt(data, target, i, i);
    PartlyAveragedKeepsField(data, field, windowSize, i);
    var ma := AverageOfDay(data, field, windowSize, i, r);
    assert target[i] == AveragedDay(data, field, windowSize, i);
    r' := r[i := r[i].(fields := r[i].fields[MovingAverage(field, windowSize) := ma])];
  }

  /**
   * The body of the loop of `calculate_moving_average` on day i: the
   * trailing window of the field's values, summed, divided by the window
   * size and rounded to two decimals.
   */
  method AverageOfDay(ghost data: seq<Record>, field: Key, windowSize: nat, i: nat, r: seq<Record>) returns (ma: real)
    requires windowSize >= 1 && Has(data, field) && i < |data| == |r|
    requires forall j :: 0 <= j < |r| ==> field in r[j].fields && r[j].fields[field] == data[j].fields[field]
    ensures ma == MovingAverageAt(data, field, windowSize, i)
  {
    var start := windowSize - 1;
    var lo := Max(i - start, 0);
    var currentWindow := seq(i + 1 - lo, j requires 0 <= j < i + 1 - lo => r[lo + j].fields[field]);
    WindowOfColumn(data, field, windowSize, i, r, currentWindow);
    ma := Round(Sum(currentWindow) / (windowSize as real), 100);
  }

  /** Halfway through the loop, every day still holds the averaged field's original value. */
  lemma PartlyAveragedKeepsField(data: seq<Record>, field: Key, w: nat, i: nat)
    requires w >= 1 && Has(data, field) && i <= |data|
    ensures forall j :: 0 <= j < |data| ==>
              field in Spliced(data, WithAverage(data, field, w), i)[j].fields &&
              Spliced(data, WithAverage(data, field, w), i)[j].fields[field] == data[j].fields[field]
  {
    var target := WithAverage(data, field, w);
    forall j | 0 <= j < |data|
      ensures field in Spliced(data, target, i)[j].fields
      ensures Spliced(data, target, i)[j].fields[field] == data[j].fields[field]
    {
      SplicedAt(data, target, i, j);
    }
  }

  /** The window the loop reads from the partly updated records is the window of the original column. */
  lemma WindowOfColumn(data: seq<Record>, field: Key, w: nat, i: nat, r: seq<Record>, win: seq<real>)
    requires w >= 1 && Has(data, field) && i < |data| == |r|
    requires forall j :: 0 <= j < |r| ==> field in r[j].fields && r[j].fields[field] == data[j].fields[field]
    requires |win| == i + 1 - Max(i - (w - 1), 0)
    requires forall j :: 0 <= j < |win| ==> win[j] == r[Max(i - (w - 1), 0) + j].fields[field]
    ensures win == Window(Column(data, field), w, i)
  {
  }

  /** A window holds min(i + 1, w) values, so a short leading window is still divided by w. */
  lemma LeadingWindowsDivideByW(xs: seq<real>, w: nat, i: nat, c: real)
    requires w >= 1 && i < |xs|
    requires forall j :: 0 <= j < |xs| ==> xs[j] == c
    ensures WindowMean(xs, w, i) == c * (Min(i + 1, w) as real) / (w as real)
  {
    var win := Window(xs, w, i);
    ConstantWindow(xs, w, i, c);
    SumOfConstant(win, c);
    assert Sum(win) == c * (Min(i + 1, w) as real);
    assert WindowMean(xs, w, i) == Sum(win) / (w as real);
  }

  /** On a positive constant series, a leading window shorter than w averages to less than the constant. */
  lemma LeadingWindowsUnderstate(xs: seq<real>, w: nat, i: nat, c: real)
    requires w >= 1 && i < |xs| && i + 1 < w && c > 0.0
    requires forall j :: 0 <= j < |xs| ==> xs[j] == c
    ensures WindowMean(xs, w, i) < c
  {
    LeadingWindowsDivideByW(xs, w, i, c);
    var n, d := (i + 1) as real, w as real;
    assert Min(i + 1, w) == i + 1;
    assert d - n > 0.0;
    assert c * (d - n) > 0.0;
    assert c - c * n / d == c * (d - n) / d;
  }

  lemma ConstantWindow(xs: seq<real>, w: nat, i: nat, c: real)
    requires w >= 1 && i < |xs|
    requires forall j :: 0 <= j < |xs| ==> xs[j] == c
    ensures |Window(xs, w, i)| == Min(i + 1, w)
    ensures forall j :: 0 <= j < |Window(xs, w, i)| ==> Window(xs, w, i)[j] == c
  {
  }

  lemma {:induction false} SumOfConstant(xs: seq<real>, c: real)
    requires forall j :: 0 <= j < |xs| ==> xs[j] == c
    ensures Sum(xs) == c * (|xs| as real)
  {
    if xs != [] {
      SumOfConstant(xs[..|xs| - 1], c);
    }
  }

  /** Every window is at least one day long. */
  ghost predicate PositiveWindows(windows: seq<nat>) {
    forall j :: 0 <= j < |windows| ==> windows[j] >= 1
  }

  /** Every field is present in `data` and is not itself an average. */
  ghost predicate AveragedInputs(data: seq<Record>, fields: seq<Key>) {
    forall j :: 0 <= j < |fields| ==> Has(data, fields[j]) && !fields[j].MovingAverage?
  }

  /** The records after the average of `field` over each of `windows` was added, in order. */
  function WithWindows(data: seq<Record>, field: Key, windows: seq<nat>): (r: seq<Record>)
    requires Has(data, field) && PositiveWindows(windows)
    ensures SameDates(data, r) && KeepsFields(data, r)
    ensures forall i, k: Key :: 0 <= i < |r| && !k.MovingAverage? && k in data[i].fields ==>
              r[i].fields[k] == data[i].fields[k]
  {
    if windows == [] then data
    else
      var before := WithWindows(data, field, windows[..|windows| - 1]);
      KeptField(data, before, field);
      WithAverage(before, field, windows[|windows| - 1])
  }

  /** The records after the averages of each of `fields` over each of `windows` were added, field by field. */
  function WithFieldAverages(data: seq<Record>, fields: seq<Key>, windows: seq<nat>): (r: seq<Record>)
    requires AveragedInputs(data, fields) && PositiveWindows(windows)
    ensures SameDates(data, r) && KeepsFields(data, r)
    ensures forall i, k: Key :: 0 <= i < |r| && !k.MovingAverage? && k in data[i].fields ==>
              r[i].fields[k] == data[i].fields[k]
  {
    if fields == [] then data
    else
      var before := WithFieldAverages(data, fields[..|fields| - 1], windows);
      KeptField(data, before, fields[|fields| - 1]);
      WithWindows(before, fields[|fields| - 1], windows)
  }

  /** The averages `compute_averages` adds: each averaged field over 3 and over 7 days. */
  function WithAverages(data: seq<Record>): (r: seq<Record>)
    requires AveragedInputs(data, AveragedFields)
  {
    WithFieldAverages(data, AveragedFields, Windows)
  }

  /** One more window adds one more average. */
  lemma WindowsStep(data: seq<Record>, field: Key, windows: seq<nat>, n: nat)
    requires Has(data, field) && PositiveWindows(windows) && n < |windows|
    ensures PositiveWindows(windows[..n]) && PositiveWindows(windows[..n + 1])
    ensures Has(WithWindows(data, field, windows[..n]), field)
    ensures WithWindows(data, field, windows[..n + 1]) == WithAverage(WithWindows(data, field, windows[..n]), field, windows[n])
  {
    assert windows[..n + 1][..n] == windows[..n];
    KeptField(data, WithWindows(data, field, windows[..n]), field);
  }

  /** One more field adds that field's averages. */
  lemma FieldsStep(data: seq<Record>, fields: seq<Key>, windows: seq<nat>, n: nat)
    requires AveragedInputs(data, fields) && PositiveWindows(windows) && n < |fields|
    ensures AveragedInputs(data, fields[..n]) && AveragedInputs(data, fields[..n + 1])
    ensures Has(WithFieldAverages(data, fields[..n], windows), fields[n])
    ensures WithFieldAverages(data, fields[..n + 1], windows) == WithWindows(WithFieldAverages(data, fields[..n], windows), fields[n], windows)
  {
    assert fields[..n + 1][..n] == fields[..n];
    KeptField(data, WithFieldAverages(data, fields[..n], windows), fields[n]);
  }

  /** The inner loop of `compute_averages`: the average of `field` over each window in turn. */
  method AveragesOfField(days: seq<Record>, field: Key, windows: seq<nat>) returns (days': seq<Record>)
    requires Has(days, field) && PositiveWindows(windows)
    ensures days' == WithWindows(days, field, windows)
  {
    days' := days;
    var wi := 0;
    assert windows[..0] == [];
    while wi < |windows|
      invariant 0 <= wi <= |windows|
      invariant days' == WithWindows(days, field, windows[..wi])
    {
      WindowsStep(days, field, windows, wi);
      days' := CalculateMovingAverage(days', field, windows[wi]);
      wi := wi + 1;
    }
    assert windows[..|windows|] == windows;
  }

  /** The outer loop of `compute_averages`: the averages of each field in turn. */
  method AveragesOfFields(data: seq<Record>, fields: seq<Key>, windows: seq<nat>) returns (days: seq<Record>)
    requires AveragedInputs(data, fields) && PositiveWindows(windows)
    ensures days == WithFieldAverages(data, fields, windows)
  {
    days := data;
    var fi := 0;
    assert fields[..0] == [];
    while fi < |fields|
      invariant 0 <= fi <= |fields|
      invariant days == WithFieldAverages(data, fields[..fi], windows)
    {
      FieldsStep(data, fields, windows, fi);
      days := AveragesOfField(days, fields[fi], windows);
      fi := fi + 1;
    }
    assert fields[..|fields|] == fields;
  }

  /** The averaged fields are among the defaults, and none of them is an average. */
  lemma AveragedFieldsSeeded(data: seq<Record>)
    requires Seeded(data)
    ensures AveragedInputs(data, AveragedFields)
  {
  }

  /**
   * An average of a field over a window is taken over the field's values as
   * they were before: the averages over the other windows never disturb it.
   */
  lemma {:induction false} WindowsReadOriginalValues(data: seq<Record>, field: Key, windows: seq<nat>, j: nat, i: nat)
    requires Has(data, field) && !field.MovingAverage? && PositiveWindows(windows)
    requires j < |windows| && i < |data|
    ensures MovingAverage(field, windows[j]) in WithWindows(data, field, windows)[i].fields
    ensures WithWindows(data, field, windows)[i].fields[MovingAverage(field, windows[j])] ==
            MovingAverageAt(data, field, windows[j], i)
  {
    var w := windows[j];
    var n := |windows| - 1;
    WindowsStep(data, field, windows, n);
    assert windows[..n + 1] == windows;
    var before := WithWindows(data, field, windows[..n]);
    if w == windows[n] {
      forall t | 0 <= t < |data| ensures before[t].fields[field] == data[t].fields[field] {
        assert field in data[t].fields;
      }
      SameColumn(data, before, field, w, i);
    } else {
      WindowsReadOriginalValues(data, field, windows[..n], j, i);
      assert MovingAverage(field, w) != MovingAverage(field, windows[n]);
    }
  }

  /** The averages of one field leave every value that is not an average of that field as it was. */
  lemma {:induction false} WindowsKeepOthers(data: seq<Record>, field: Key, windows: seq<nat>, key: Key, i: nat)
    requires Has(data, field) && PositiveWindows(windows) && i < |data|
    requires key in data[i].fields && !(key.MovingAverage? && key.field == field)
    ensures WithWindows(data, field, windows)[i].fields[key] == data[i].fields[key]
  {
    if windows != [] {
      var n := |windows| - 1;
      WindowsStep(data, field, windows, n);
      assert windows[..n + 1] == windows;
      WindowsKeepOthers(data, field, windows[..n], key, i);
    }
  }

  /** Records that keep the values of a field have the same averages of it. */
  lemma SameColumn(data: seq<Record>, r: seq<Record>, field: Key, w: nat, i: nat)
    requires Has(data, field) && Has(r, field) && |r| == |data| && w >= 1 && i < |data|
    requires forall t :: 0 <= t < |data| ==> r[t].fields[field] == data[t].fields[field]
    ensures MovingAverageAt(r, field, w, i) == MovingAverageAt(data, field, w, i)
  {
    assert Column(r, field) == Column(data, field);
  }

  /**
   * Every average `compute_averages` adds is taken over the field's values
   * as they were before any average was added: writing one average never
   * disturbs the values another one reads.
   */
  lemma {:induction false} AveragesReadOriginalValues(data: seq<Record>, fields: seq<Key>, windows: seq<nat>, fj: nat, wj: nat, i: nat)
    requires AveragedInputs(data, fields) && PositiveWindows(windows)
    requires fj < |fields| && wj < |windows| && i < |data|
    ensures MovingAverage(fields[fj], windows[wj]) in WithFieldAverages(data, fields, windows)[i].fields
    ensures WithFieldAverages(data, fields, windows)[i].fields[MovingAverage(fields[fj], windows[wj])] ==
            MovingAverageAt(data, fields[fj], windows[wj], i)
  {
    var k, w := fields[fj], windows[wj];
    var last := fields[|fields| - 1];
    var init := fields[..|fields| - 1];
    assert AveragedInputs(data, init);
    var before := WithFieldAverages(data, init, windows);
    KeptField(data, before, last);
    if k == last {
      SameColumn(data, before, k, w, i);
      WindowsReadOriginalValues(before, k, windows, wj, i);
    } else {
      assert init[fj] == k;
      AveragesReadOriginalValues(data, init, windows, fj, wj, i);
      WindowsKeepOthers(before, last, windows, MovingAverage(k, w), i);
    }
  }

  // ---------------------------------------------------------------------
  // compute_changes

  /** `<m>.delta_percent` for one day: `percent_change(total, total - today)`. */
  function DeltaPercentOf(f: Fields, m: Metric): real
    requires Today(m) in f && Total(m) in f
  {
    var d := f[Today(m)];
    var t := f[Total(m)];
    PercentChange(t, t - d)
  }

  /**
   * The delta percent works out to the previous day's total relative to
   * today's count: `(total - today) / max(today, 1) * 100`, rounded.
   */
  lemma DeltaPercentFormula(f: Fields, m: Metric)
    requires Today(m) in f && Total(m) in f
    ensures DeltaPercentOf(f, m) ==
            Round((f[Total(m)] - f[Today(m)]) / AtLeastOne(f[Today(m)]) * 100.0, 100)
  {
  }

  /** The delta fields the inner loop writes for the series `ms`. */
  function ChangesFor(f: Fields, ms: seq<Metric>): Fields
    requires forall m :: m in ms ==> Today(m) in f && Total(m) in f
  {
    if ms == [] then map[]
    else
      var m := ms[|ms| - 1];
      ChangesFor(f, ms[..|ms| - 1])[DeltaPercent(m) := DeltaPercentOf(f, m)]
  }

  lemma ChangesForSnoc(f: Fields, ms: seq<Metric>, m: Metric)
    requires forall m' :: m' in ms + [m] ==> Today(m') in f && Total(m') in f
    ensures ChangesFor(f, ms + [m]) == ChangesFor(f, ms)[DeltaPercent(m) := DeltaPercentOf(f, m)]
  {
    assert (ms + [m])[..|ms|] == ms;
  }

  /** The inner loop writes exactly the deltas of the series it has visited. */
  lemma {:induction false} ChangesForLookup(f: Fields, ms: seq<Metric>, k: Key)
    requires forall m :: m in ms ==> Today(m) in f && Total(m) in f
    ensures k in ChangesFor(f, ms) <==> k.DeltaPercent? && k.changed in ms
    ensures k in ChangesFor(f, ms) ==> ChangesFor(f, ms)[k] == DeltaPercentOf(f, k.changed)
  {
    if ms != [] {
      assert ms == ms[..|ms| - 1] + [ms[|ms| - 1]];
      ChangesForLookup(f, ms[..|ms| - 1], k);
    }
  }

  /** A day has the counts and totals `compute_changes` reads. */
  ghost predicate ChangeInputs(f: Fields) {
    && Today(Infected) in f && Total(Infected) in f
    && Today(Tests) in f && Total(Tests) in f
    && Today(Doses) in f && Total(Doses) in f
  }

  /** One day after `compute_changes`. */
  function ChangesRecord(day: Record): Record
    requires ChangeInputs(day.fields)
  {
    day.(fields := day.fields + ChangesFor(day.fields, ChangeMetrics))
  }

  /**
   * `compute_changes` on one day adds the delta percent of each changed
   * series and keeps every other field as it was.
   */
  lemma ChangesRecordLookup(day: Record, k: Key)
    requires ChangeInputs(day.fields)
    ensures ChangesRecord(day).date == day.date
    ensures k in ChangesRecord(day).fields <==> k in day.fields || (k.DeltaPercent? && k.changed in ChangeMetrics)
    ensures k.DeltaPercent? && k.changed in ChangeMetrics ==>
              ChangesRecord(day).fields[k] == DeltaPercentOf(day.fields, k.changed)
    ensures !k.DeltaPercent? && k in day.fields ==> ChangesRecord(day).fields[k] == day.fields[k]
  {
    ChangesForLookup(day.fields, ChangeMetrics, k);
  }

  /** The records after `compute_changes`. */
  function WithChanges(data: seq<Record>): (r: seq<Record>)
    requires forall i :: 0 <= i < |data| ==> ChangeInputs(data[i].fields)
    ensures SameDates(data, r) && KeepsFields(data, r)
    ensures forall i :: 0 <= i < |r| ==> r[i] == ChangesRecord(data[i])
  {
    var r := seq(|data|, i requires 0 <= i < |data| => ChangesRecord(data[i]));
    forall i, k | 0 <= i < |data| && k in data[i].fields ensures k in r[i].fields {
      ChangesRecordLookup(data[i], k);
    }
    r
  }

  /** The inner loop of `compute_changes` on one day. */
  method ChangesOfDay(day: Record, metrics: seq<Metric>) returns (r: Record)
    requires forall m :: m in metrics ==> Today(m) in day.fields && Total(m) in day.fields
    ensures r == day.(fields := day.fields + ChangesFor(day.fields, metrics))
  {
    r := day;
    var f := 0;
    assert metrics[..0] == [];
    while f < |metrics|
      invariant 0 <= f <= |metrics|
      invariant r == day.(fields := day.fields + ChangesFor(day.fields, metrics[..f]))
    {
      r := ChangeOfSeries(day, metrics, r, f);
      f := f + 1;
    }
    assert metrics[..f] == metrics;
  }

  /** One turn of the inner loop of `compute_changes`: the delta percent of the f-th series. */
  method ChangeOfSeries(day: Record, metrics: seq<Metric>, r: Record, f: nat) returns (r': Record)
    requires forall m :: m in metrics ==> Today(m) in day.fields && Total(m) in day.fields
    requires f < |metrics|
    requires r == day.(fields := day.fields + ChangesFor(day.fields, metrics[..f]))
    ensures r' == day.(fields := day.fields + ChangesFor(day.fields, metrics[..f + 1]))
  {
    var m := metrics[f];
    ChangeStep(day.fields, metrics, f);
    var d := r.fields[Today(m)];
    var t := r.fields[Total(m)];
    r' := r.(fields := r.fields[DeltaPercent(m) := PercentChange(t, t - d)]);
  }

  /**
   * The f-th series reads its count and total from the day as collected,
   * and its delta percent extends the changes of the series before it.
   */
  lemma ChangeStep(f: Fields, metrics: seq<Metric>, n: nat)
    requires forall m :: m in metrics ==> Today(m) in f && Total(m) in f
    requires n < |metrics|
    ensures var m := metrics[n];
            var done := f + ChangesFor(f, metrics[..n]);
            && Today(m) in done && Total(m) in done
            && done[Today(m)] == f[Today(m)] && done[Total(m)] == f[Total(m)]
            && f + ChangesFor(f, metrics[..n + 1]) ==
               done[DeltaPercent(m) := PercentChange(f[Total(m)], f[Total(m)] - f[Today(m)])]
  {
    var m := metrics[n];
    var done := metrics[..n];
    assert metrics[..n + 1] == done + [m];
    assert forall m' :: m' in done + [m] ==> m' in metrics;
    ChangesForSnoc(f, done, m);
    ChangesForLookup(f, done, Today(m));
    ChangesForLookup(f, done, Total(m));
    UnionThenUpdate(f, ChangesFor(f, done), DeltaPercent(m), DeltaPercentOf(f, m));
  }

  // ---------------------------------------------------------------------
  // compute_additional_metrics

  /** A day has the totals `compute_additional_metrics` reads. */
  ghost predicate MetricInputs(f: Fields) {
    Total(Dead) in f && Total(Infected) in f && Total(Dose1) in f && Total(Dose2) in f
  }

  /** `dead.mortality_rate`: the deaths as a percentage of the infections (at least one), to three decimals. */
  function MortalityRateOf(f: Fields): real
    requires MetricInputs(f)
  {
    Round(f[Total(Dead)] / AtLeastOne(f[Total(Infected)]) * 100.0, 1000)
  }

  /** A count as a percentage of the population, to three decimals. */
  function PopulationShare(count: real): real {
    Round(count / (POPULATION as real) * 100.0, 1000)
  }

  /** A share of at most the whole, rounded to three decimals as a percentage, lies between 0 and 100. */
  lemma PercentageBounds(part: real, whole: real)
    requires 0.0 <= part <= whole && whole > 0.0
    ensures 0.0 <= Round(part / whole * 100.0, 1000) <= 100.0
  {
    QuotientAtMostOne(part, whole);
    var exact := part / whole * 100.0;
    RoundMonotone(0.0, exact, 1000);
    RoundMonotone(exact, 100.0, 1000);
    RoundKeepsSign(0.0, 1000);
    assert RoundHalfEven(Scaled(100.0, 1000)) == 100000;
  }

  /** The five fields `compute_additional_metrics` writes. */
  predicate IsMetricKey(k: Key) {
    k.PopulationTotal? || k.MortalityRate? || k.PopulationInfected? || k.PopulationVaccinated? || k.PopulationVaccinatedFull?
  }

  /**
   * One day after `compute_additional_metrics`: the five fields are written
   * one after the other, and every other field keeps its value.
   */
  function MetricsRecord(day: Record): Record
    requires MetricInputs(day.fields)
  {
    var f := day.fields;
    day.(fields := f[PopulationTotal := POPULATION as real]
                    [MortalityRate := MortalityRateOf(f)]
                    [PopulationInfected := PopulationShare(f[Total(Infected)])]
                    [PopulationVaccinated := PopulationShare(f[Total(Dose1)])]
                    [PopulationVaccinatedFull := PopulationShare(f[Total(Dose2)])])
  }

  /** `compute_additional_metrics` keeps the date and every field other than the five it writes. */
  lemma MetricsKeepOtherFields(day: Record)
    requires MetricInputs(day.fields)
    ensures MetricsRecord(day).date == day.date
    ensures day.fields.Keys <= MetricsRecord(day).fields.Keys
    ensures forall k :: k in day.fields && !IsMetricKey(k) ==> MetricsRecord(day).fields[k] == day.fields[k]
  {
  }

  /** After `compute_additional_metrics`, every day holds `population.total` with the value `POPULATION`. */
  lemma PopulationTotalEveryDay(data: seq<Record>)
    requires forall i :: 0 <= i < |data| ==> MetricInputs(data[i].fields)
    ensures forall i :: 0 <= i < |data| ==>
              PopulationTotal in WithMetrics(data)[i].fields && WithMetrics(data)[i].fields[PopulationTotal] == POPULATION as real
  {
  }

  /**
   * When the deaths are a share of the infections (both counts non-negative),
   * the mortality rate lies between 0 and 100 percent, rounding included.
   */
  lemma MortalityRateIsPercentage(day: Record)
    requires MetricInputs(day.fields)
    requires 0.0 <= day.fields[Total(Dead)] <= day.fields[Total(Infected)]
    ensures 0.0 <= MetricsRecord(day).fields[MortalityRate] <= 100.0
  {
    var f := day.fields;
    PercentageBounds(f[Total(Dead)], AtLeastOne(f[Total(Infected)]));
  }

  /**
   * When the infections and first and second doses do not exceed the
   * population, the three population ratios lie between 0 and 100 percent.
   */
  lemma PopulationRatiosArePercentages(day: Record)
    requires MetricInputs(day.fields)
    requires forall m :: m in [Infected, Dose1, Dose2] ==> 0.0 <= day.fields[Total(m)] <= POPULATION as real
    ensures 0.0 <= MetricsRecord(day).fields[PopulationInfected] <= 100.0
    ensures 0.0 <= MetricsRecord(day).fields[PopulationVaccinated] <= 100.0
    ensures 0.0 <= MetricsRecord(day).fields[PopulationVaccinatedFull] <= 100.0
    ensures MetricsRecord(day).fields[PopulationTotal] == POPULATION as real
  {
    var f := day.fields;
    assert Infected in [Infected, Dose1, Dose2] && Dose1 in [Infected, Dose1, Dose2] && Dose2 in [Infected, Dose1, Dose2];
    PercentageBounds(f[Total(Infected)], POPULATION as real);
    PercentageBounds(f[Total(Dose1)], POPULATION as real);
    PercentageBounds(f[Total(Dose2)], POPULATION as real);
  }

  /** The body of the loop of `compute_additional_metrics` on one day. */
  method MetricsOfDay(day: Record) returns (r: Record)
    requires MetricInputs(day.fields)
    ensures r == MetricsRecord(day)
  {
    var population := POPULATION as real;
    var f := day.fields[PopulationTotal := population];
    f := f[MortalityRate := Round(f[Total(Dead)] / AtLeastOne(f[Total(Infected)]) * 100.0, 1000)];
    f := f[PopulationInfected := Round(f[Total(Infected)] / population * 100.0, 1000)];
    f := f[PopulationVaccinated := Round(f[Total(Dose1)] / population * 100.0, 1000)];
    f := f[PopulationVaccinatedFull := Round(f[Total(Dose2)] / population * 100.0, 1000)];
    r := day.(fields := f);
  }

  /** The loop of `compute_additional_metrics` over the days. */
  method AddMetrics(data: seq<Record>) returns (days: seq<Record>)
    requires forall i :: 0 <= i < |data| ==> MetricInputs(data[i].fields)
    ensures days == WithMetrics(data)
  {
    days := data;
    var i := 0;
    while i < |days|
      invariant 0 <= i <= |days| == |data|
      invariant forall j :: 0 <= j < i ==> days[j] == MetricsRecord(data[j])
      invariant forall j :: i <= j < |days| ==> days[j] == data[j]
    {
      var day := MetricsOfDay(days[i]);
      days := days[i := day];
      i := i + 1;
    }
  }

  /** The records after `compute_additional_metrics`. */
  function WithMetrics(data: seq<Record>): (r: seq<Record>)
    requires forall i :: 0 <= i < |data| ==> MetricInputs(data[i].fields)
    ensures SameDates(data, r)
    ensures forall i :: 0 <= i < |r| ==> r[i] == MetricsRecord(data[i])
  {
    seq(|data|, i requires 0 <= i < |data| => MetricsRecord(data[i]))
  }

  // ---------------------------------------------------------------------
  // The whole enrichment

  /** Once the totals exist, every day has what `compute_changes` and `compute_additional_metrics` read. */
  lemma InputsOfLaterSteps(data: seq<Record>)
    requires Seeded(data) && Totaled(data)
    ensures forall i :: 0 <= i < |data| ==> ChangeInputs(data[i].fields) && MetricInputs(data[i].fields)
  {
  }

  /** The records `__init__` leaves behind: every enrichment step, in the source's order. */
  function Enriched(data: seq<Record>): (r: seq<Record>)
    requires Seeded(data)
    ensures SameDates(data, r)
  {
    var totals := WithTotals(data);
    KeptStages(data, totals);
    var dailies := WithDailies(totals);
    KeptStages(totals, dailies);
    AveragedFieldsSeeded(dailies);
    var averages := WithAverages(dailies);
    KeptStages(dailies, averages);
    InputsOfLaterSteps(averages);
    var changes := WithChanges(averages);
    KeptStages(averages, changes);
    InputsOfLaterSteps(changes);
    WithMetrics(changes)
  }

  /**
   * The first part of `TimeSeries.__init__`: a copy of the defaults for
   * every date, each updated with the fields collected for its date.
   */
  method OverlayDays(rawData: History, dates: seq<string>) returns (days: seq<Record>)
    ensures days == Overlaid(dates, rawData)
  {
    days := seq(|dates|, i requires 0 <= i < |dates| => Record(dates[i], DEFAULT));
    var i := 0;
    while i < |days|
      invariant 0 <= i <= |days| == |dates|
      invariant forall j :: 0 <= j < i ==> days[j] == Overlaid(dates, rawData)[j]
      invariant forall j :: i <= j < |days| ==> days[j] == Record(dates[j], DEFAULT)
    {
      var day := days[i].date;
      if day in rawData {
        days := days[i := days[i].(fields := days[i].fields + rawData[day])];
      }
      i := i + 1;
    }
  }

  class TimeSeries {
    /** `self.data`: one record per date, enriched in place. */
    var data: seq<Record>

    /**
     * `TimeSeries(raw_data)`. The dates `create_date_range(START, date.today())`
     * yields are a parameter.
     */
    constructor (rawData: History, dates: seq<string>)
      ensures data == Enriched(Overlaid(dates, rawData))
      ensures |data| == |dates|
      ensures forall i :: 0 <= i < |dates| ==> data[i].date == dates[i]
    {
      var days := OverlayDays(rawData, dates);
      data := days;
      new;
      ghost var seeded := data;
      ComputeTotals();
      ghost var totals := data;
      KeptStages(seeded, totals);
      ComputeDailies();
      ghost var dailies := data;
      KeptStages(totals, dailies);
      AveragedFieldsSeeded(dailies);
      ComputeAverages();
      ghost var averages := data;
      KeptStages(dailies, averages);
      InputsOfLaterSteps(averages);
      ComputeChanges();
      ghost var changes := data;
      KeptStages(averages, changes);
      InputsOfLaterSteps(changes);
      ComputeAdditionalMetrics();
    }

    /** `compute_totals`: `<m>.total` is yesterday's total plus today's count. */
    method ComputeTotals()
      requires Counted(data)
      modifies this
      ensures data == WithTotals(old(data))
    {
      ghost var data0 := data;
      var days := data;
      var i := 0;
      while i < |days|
        invariant 0 <= i <= |days| == |data0|
        invariant forall j :: 0 <= j < i ==> days[j] == TotalsRecord(data0, j)
        invariant forall j :: i <= j < |days| ==> days[j] == data0[j]
      {
        var today := TotalsOfDay(data0, i, days[Max(i - 1, 0)], days[i]);
        days := days[i := today];
        i := i + 1;
      }
      data := days;
    }

    /** `compute_dailies`: `hospitalized.<w>.today` is the change of the ward's total. */
    method ComputeDailies()
      requires Hospitalized(data)
      modifies this
      ensures data == WithDailies(old(data))
    {
      ghost var data0 := data;
      var days := data;
      var i := 0;
      while i < |days|
        invariant 0 <= i <= |days| == |data0|
        invariant forall j :: 0 <= j < i ==> days[j] == DailiesRecord(data0, j)
        invariant forall j :: i <= j < |days| ==> days[j] == data0[j]
      {
        var today := DailiesOfDay(data0, i, days[Max(i - 1, 0)], days[i]);
        days := days[i := today];
        i := i + 1;
      }
      data := days;
    }

    /** `compute_averages`: a 3- and a 7-day average of each averaged field. */
    method ComputeAverages()
      requires AveragedInputs(data, AveragedFields)
      modifies this
      ensures data == WithAverages(old(data))
    {
      data := AveragesOfFields(data, AveragedFields, Windows);
    }

    /** `compute_changes`: the delta percent of the infected, tests and doses series. */
    method ComputeChanges()
      requires forall i :: 0 <= i < |data| ==> ChangeInputs(data[i].fields)
      modifies this
      ensures data == WithChanges(old(data))
    {
      ghost var data0 := data;
      var days := data;
      var i := 0;
      while i < |days|
        invariant 0 <= i <= |days| == |data0|
        invariant forall j :: 0 <= j < i ==> days[j] == ChangesRecord(data0[j])
        invariant forall j :: i <= j < |days| ==> days[j] == data0[j]
      {
        var day := ChangesOfDay(days[i], ChangeMetrics);
        days := days[i := day];
        i := i + 1;
      }
      data := days;
    }

    /** `compute_additional_metrics`: population and ratio fields of each day. */
    method ComputeAdditionalMetrics()
      requires forall i :: 0 <= i < |data| ==> MetricInputs(data[i].fields)
      modifies this
      ensures data == WithMetrics(old(data))
    {
      data := AddMetrics(data);
    }
  }
}
