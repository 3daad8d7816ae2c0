/** Small shared vocabulary: nullable values, integer/real bounds, and two facts about quotients. */
module Common {

  /** A value that may be absent: JSON `null`, Python `None`, JavaScript `null`. */
  datatype Option<+T> = None | Some(value: T)

  function Max(a: int, b: int): int { if a < b then b else a }

  function Min(a: int, b: int): int { if a < b then a else b }

  function MaxReal(a: real, b: real): real { if a < b then b else a }

  /** Dividing by a positive number keeps the order. */
  lemma DivideMonotone(a: real, b: real, s: real)
    requires a <= b && s > 0.0
    ensures a / s <= b / s
  {
    assert b / s - a / s == (b - a) / s;
  }

  /** A part of a positive whole, divided by the whole, is a share between 0 and 1; positive when the part is. */
  lemma QuotientAtMostOne(a: real, b: real)
    requires 0.0 <= a <= b && b > 0.0
    ensures 0.0 <= a / b <= 1.0
    ensures a > 0.0 ==> a / b > 0.0
  {
    DivideMonotone(a, b, b);
    DivideMonotone(0.0, a, b);
    assert b / b == 1.0;
    if a > 0.0 {
      assert a / b * b == a;
    }
  }
}
