/** Definitions shared by every part of the note-list delegate model. */
module Base {

  datatype Option<T> = None | Some(value: T)

  /** The delegate's animation state (NoteListState). Normal is the rest state. */
  datatype NoteListState = Normal | Insert | Remove | MoveOut | MoveIn

  /** The last frame of the timeline's frame range; the range is [0, MAX_FRAME]. */
  const MAX_FRAME: int := 200

  /** What C++'s conversion of a double quotient to int does: division that
      truncates toward zero, for a positive divisor. */
  function TruncDiv(a: int, d: int): (q: int)
    requires d > 0
    ensures a >= 0 ==> 0 <= q * d <= a < q * d + d
    ensures a < 0 ==> q * d - d < a <= q * d && q <= 0
  {
    if a >= 0 then
      FloorDivBounds(a, d);
      a / d
    else
      FloorDivBounds(-a, d);
      var m := (-a) / d;
      assert (-m) * d == -(m * d);
      -m
  }

  lemma FloorDivBounds(a: int, d: int)
    requires 0 <= a && d > 0
    ensures 0 <= a / d && 0 <= (a / d) * d <= a < (a / d) * d + d
  {
    assert a == (a / d) * d + a % d;
  }

  /** A height scaled by frame / MAX_FRAME and truncated to an integer: the
      animated share of a row of height h at the given frame. */
  function Scale(h: int, frame: int): int
  {
    TruncDiv(h * frame, MAX_FRAME)
  }

  lemma MulMonotone(h: int, a: int, b: int)
    requires 0 <= h && a <= b
    ensures h * a <= h * b
  {
    var d := b - a;
    assert h * b == h * a + h * d;
    assert 0 <= h * d;
  }

  /** A nonnegative height scaled by a frame in range lies between 0 and the height,
      and the two ends of the range give 0 and the full height. */
  lemma ScaleWithin(h: int, frame: int)
    requires 0 <= h && 0 <= frame <= MAX_FRAME
    ensures 0 <= Scale(h, frame) <= h
    ensures Scale(h, 0) == 0 && Scale(h, MAX_FRAME) == h
  {
    MulMonotone(h, 0, frame);
    MulMonotone(h, frame, MAX_FRAME);
    assert h * MAX_FRAME / MAX_FRAME == h;
  }

  /** For a nonnegative height, the scaled height never decreases as the frame grows. */
  lemma ScaleMonotone(h: int, f1: int, f2: int)
    requires 0 <= h && 0 <= f1 <= f2
    ensures Scale(h, f1) <= Scale(h, f2)
  {
    MulMonotone(h, 0, f1);
    MulMonotone(h, f1, f2);
    DivMonotone(h * f1, h * f2);
  }

  lemma DivMonotone(a: int, b: int)
    requires 0 <= a <= b
    ensures a / MAX_FRAME <= b / MAX_FRAME
  {
  }
}
