/** The pure helpers of src/utils.py: `pairwise` and `percent_change`. */
module Utils {
  import opened Common
  import opened PyRound

  /** Python's `zip(a, b)`: pairs up elements until the shorter input runs out. */
  function Zip<A, B>(a: seq<A>, b: seq<B>): (r: seq<(A, B)>)
    ensures |r| == Min(|a|, |b|)
    ensures forall k :: 0 <= k < |r| ==> r[k] == (a[k], b[k])
  {
    if a == [] || b == [] then [] else [(a[0], b[0])] + Zip(a[1..], b[1..])
  }

  /**
   * `pairwise(xs)`: `tee` gives two copies of the input, `next(b, None)`
   * advances the second one by one element (doing nothing on an empty input),
   * and `zip` pairs them up.
   */
  function Pairwise<T>(xs: seq<T>): (r: seq<(T, T)>)
    ensures |r| == Max(|xs| - 1, 0)
    ensures forall k :: 0 <= k < |r| ==> r[k] == (xs[k], xs[k + 1])
  {
    var b := if xs == [] then xs else xs[1..];
    Zip(xs, b)
  }

  /** Consecutive pairs chain: the second half of one pair is the first half of the next. */
  lemma PairwiseChains<T>(xs: seq<T>, k: nat)
    requires k + 1 < |Pairwise(xs)|
    ensures Pairwise(xs)[k].1 == Pairwise(xs)[k + 1].0
  {
  }

  /** Python's `max(x, 1)`: never less than one, so safe to divide by. */
  function AtLeastOne(x: real): (m: real)
    ensures m >= 1.0 && m >= x
    ensures m == x || m == 1.0
  {
    MaxReal(x, 1.0)
  }

  /**
   * The value `percent_change(new, change)` rounds: with `old = new - change`,
   * `(new - old) / max(old, 1) * 100`. (`new` is a reserved word in Dafny,
   * so the parameter is called `newValue`.)
   */
  function PercentChangeExact(newValue: real, change: real): (p: real)
    ensures p * AtLeastOne(newValue - change) == change * 100.0
    ensures change == 0.0 <==> p == 0.0
    ensures change > 0.0 <==> p > 0.0
    ensures change < 0.0 <==> p < 0.0
  {
    var previous := newValue - change;
    (newValue - previous) / AtLeastOne(previous) * 100.0
  }

  /** `percent_change(new, change)`: the exact value rounded to two decimals. */
  function PercentChange(newValue: real, change: real): (r: real)
    ensures change == 0.0 ==> r == 0.0
    ensures change >= 0.0 ==> r >= 0.0
    ensures change <= 0.0 ==> r <= 0.0
    ensures -(1.0 / 2.0) <= (r - PercentChangeExact(newValue, change)) * 100.0 <= 1.0 / 2.0
  {
    var exact := PercentChangeExact(newValue, change);
    RoundKeepsSign(exact, 100);
    RoundError(exact, 100);
    Round(exact, 100)
  }
}
