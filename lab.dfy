/**
 * The simulation lab of src/public/static/lab.js: the SIR derivative handed
 * to the integrator, and the normalisation of the initial state before
 * integration and the scaling back of the integrator's samples after it.
 * The integrator itself is not part of this model: its samples are a
 * parameter.
 */
module Lab {
  import opened Common

  /** `this.population`: the population the lab starts from. */
  const Population: real := 5367579.0

  /** A point of the SIR system: susceptible, infectious and removed. */
  datatype State = State(s: real, i: real, r: real)

  function Total(y: State): real {
    y.s + y.i + y.r
  }

  /**
   * The derivative `sir(n, beta, gamma)` returns for the state `y`. Nobody
   * enters or leaves the population: the three rates add up to zero. The
   * removed grow at `gamma` times the infectious; without contacts
   * (`beta = 0`) the susceptible stay put and the infectious only recover;
   * with non-negative parameters and state the susceptible never grow and
   * the removed never shrink.
   */
  function Sir(n: real, beta: real, gamma: real, y: State): (d: State)
    requires n != 0.0
    ensures Total(d) == 0.0
    ensures d.s == -beta * y.s * y.i / n
    ensures d.r == gamma * y.i
    ensures d.i == beta * y.s * y.i / n - gamma * y.i
    ensures beta == 0.0 ==> d.s == 0.0 && d.i == -d.r
    ensures beta >= 0.0 && n > 0.0 && y.s >= 0.0 && y.i >= 0.0 ==> d.s <= 0.0
    ensures gamma >= 0.0 && y.i >= 0.0 ==> d.r >= 0.0
  {
    var s := -beta * y.s * y.i / n;
    var r := gamma * y.i;
    InfectionTermNonNegative(beta, y.s, y.i, n);
    ProductNonNegative(gamma, y.i);
    State(s, -(s + r), r)
  }

  lemma ProductNonNegative(a: real, b: real)
    ensures a >= 0.0 && b >= 0.0 ==> a * b >= 0.0
  {
  }

  lemma InfectionTermNonNegative(beta: real, s: real, i: real, n: real)
    requires n != 0.0
    ensures beta >= 0.0 && n > 0.0 && s >= 0.0 && i >= 0.0 ==> beta * s * i / n >= 0.0
  {
    if beta >= 0.0 && n > 0.0 && s >= 0.0 && i >= 0.0 {
      ProductNonNegative(beta, s);
      ProductNonNegative(beta * s, i);
      assert beta * s * i / n == (beta * s * i) * (1.0 / n);
      ProductNonNegative(beta * s * i, 1.0 / n);
    }
  }

  /**
   * What `solve` hands the integrator: the normalised initial state, the
   * `n` of `sir`, the contact and recovery rates, and the base the samples
   * are scaled back by.
   */
  datatype Setup = Setup(init: State, n: real, beta: real, gamma: real, base: real)

  /**
   * The arithmetic of `solve` before the integrator runs, for the
   * infectious and removed counts and the recovery time read from the
   * page. Everything is divided by the population plus the infectious, so
   * the removed are left out of the base and the normalised susceptible
   * and infectious add up to one; `n` is the normalised susceptible share
   * and `gamma` is one over the recovery time. A zero base or a zero
   * recovery time would make JavaScript compute an infinity or NaN; those
   * inputs yield `None`.
   */
  function Normalize(infectious: int, removed: int, beta: real, recoveryDays: int): (r: Option<Setup>)
    ensures r.Some? <==> Population + infectious as real != 0.0 && recoveryDays != 0
    ensures r.Some? ==> r.value.base == Population + infectious as real
    ensures r.Some? ==> r.value.init.s + r.value.init.i == 1.0
    ensures r.Some? ==> r.value.n == r.value.init.s && r.value.beta == beta
    ensures r.Some? ==> r.value.gamma * recoveryDays as real == 1.0
    ensures r.Some? && infectious >= 0 ==> 0.0 < r.value.n <= 1.0
  {
    var base := Population + infectious as real;
    if base == 0.0 || recoveryDays == 0 then None
    else
      var s := Population / base;
      var i := infectious as real / base;
      SharesAddUp(Population, infectious as real, base);
      assert 0 <= infectious ==> s <= 1.0 by {
        if 0 <= infectious {
          QuotientAtMostOne(Population, base);
        }
      }
      Some(Setup(State(s, i, removed as real / base), s, beta, 1.0 / recoveryDays as real, base))
  }

  lemma SharesAddUp(a: real, b: real, base: real)
    requires base == a + b && base != 0.0
    ensures a / base + b / base == 1.0
  {
    assert a / base + b / base == (a + b) / base;
  }

  /** One sample scaled back by the base, as the grid callback does. */
  function Denormalized(y: State, base: real): State {
    State(y.s * base, y.i * base, y.r * base)
  }

  lemma ScaleBack(x: real, base: real)
    requires base != 0.0
    ensures x / base * base == x
  {
  }

  /**
   * Normalising and scaling back the initial state gives back the
   * population, the infectious and the removed counts read from the page.
   */
  lemma NormalizeRoundTrip(infectious: int, removed: int, beta: real, recoveryDays: int)
    requires Normalize(infectious, removed, beta, recoveryDays).Some?
    ensures var setup := Normalize(infectious, removed, beta, recoveryDays).value;
            Denormalized(setup.init, setup.base) == State(Population, infectious as real, removed as real)
  {
    var setup := Normalize(infectious, removed, beta, recoveryDays).value;
    ScaleBack(Population, setup.base);
    ScaleBack(infectious as real, setup.base);
    ScaleBack(removed as real, setup.base);
  }

  /** Scaling back multiplies the total by the base. */
  lemma DenormalizedTotal(y: State, base: real)
    ensures Total(Denormalized(y, base)) == Total(y) * base
  {
  }

  /**
   * If the integrator keeps the total of every sample at the total of the
   * initial state, as the exact flow of `Sir` does, every day of the
   * curves adds up to the population plus the initial infectious and
   * removed counts.
   */
  lemma CurvesKeepTotal(infectious: int, removed: int, beta: real, recoveryDays: int, y: State)
    requires Normalize(infectious, removed, beta, recoveryDays).Some?
    requires Total(y) == Total(Normalize(infectious, removed, beta, recoveryDays).value.init)
    ensures Total(Denormalized(y, Normalize(infectious, removed, beta, recoveryDays).value.base)) ==
            Population + infectious as real + removed as real
  {
    var setup := Normalize(infectious, removed, beta, recoveryDays).value;
    DenormalizedTotal(y, setup.base);
    DenormalizedTotal(setup.init, setup.base);
    NormalizeRoundTrip(infectious, removed, beta, recoveryDays);
  }

  /**
   * `solve`: normalises the state read from the page, and writes every
   * sample of the integrator, scaled back by the base, into the three
   * curves. `samples` stands for the integrator's output on the grid of
   * days; `problem` is what the integrator is given.
   */
  method Solve(infectious: int, removed: int, beta: real, recoveryDays: int, samples: seq<State>)
    returns (problem: Option<Setup>, sCurve: array<real>, iCurve: array<real>, rCurve: array<real>)
    ensures problem == Normalize(infectious, removed, beta, recoveryDays)
    ensures fresh(sCurve) && fresh(iCurve) && fresh(rCurve)
    ensures problem.Some? ==> sCurve.Length == iCurve.Length == rCurve.Length == |samples|
    ensures problem.Some? ==> forall x :: 0 <= x < |samples| ==>
              State(sCurve[x], iCurve[x], rCurve[x]) == Denormalized(samples[x], problem.value.base)
    ensures problem.None? ==> sCurve.Length == iCurve.Length == rCurve.Length == 0
  {
    var s := Population;
    var i := infectious as real;
    var r := removed as real;
    var population := s + i;
    if population == 0.0 || recoveryDays == 0 {
      problem := None;
      sCurve, iCurve, rCurve := new real[0], new real[0], new real[0];
      return;
    }
    var gamma := 1.0 / recoveryDays as real;
    s := s / population;
    i := i / population;
    r := r / population;
    problem := Some(Setup(State(s, i, r), s, beta, gamma, population));

    sCurve, iCurve, rCurve := new real[|samples|], new real[|samples|], new real[|samples|];
    var x := 0;
    while x < |samples|
      invariant 0 <= x <= |samples|
      invariant forall j :: 0 <= j < x ==> State(sCurve[j], iCurve[j], rCurve[j]) == Denormalized(samples[j], population)
    {
      var y := samples[x];
      sCurve[x] := y.s * population;
      iCurve[x] := y.i * population;
      rCurve[x] := y.r * population;
      x := x + 1;
    }
  }
}
