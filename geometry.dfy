/** The optional value the board uses for "nothing selected", "no gesture", "no hit". */
module Wrappers {
  datatype Option<+T> = None | Some(value: T)
}

/**
 * Logical pitch space. The pitch is a fixed rectangle of width `w` and height `h`
 * (the renderer's PITCH_W and PITCH_H); the playable margins sit 15 units inside
 * each edge.
 */
module Geometry {
  datatype Point = Point(x: real, y: real)

  datatype Pitch = Pitch(w: real, h: real) {
    /** The margins are only ordered (PL < PR, PT < PB) when both sides exceed 30. */
    predicate Valid() { w > 30.0 && h > 30.0 }

    function PL(): real { 15.0 }
    function PR(): real { w - 15.0 }
    function PT(): real { 15.0 }
    function PB(): real { h - 15.0 }

    /** Where the ball starts and where "ball to centre" puts it. */
    function Center(): (c: Point)
      requires Valid()
      ensures 0.0 < c.x < w && 0.0 < c.y < h
      ensures c.x == w - c.x && c.y == h - c.y
    {
      Point(w / 2.0, h / 2.0)
    }
  }

  predicate InPitch(pitch: Pitch, p: Point) {
    0.0 <= p.x <= pitch.w && 0.0 <= p.y <= pitch.h
  }

  predicate InMargins(pitch: Pitch, p: Point) {
    pitch.PL() <= p.x <= pitch.PR() && pitch.PT() <= p.y <= pitch.PB()
  }

  function Min(a: real, b: real): real { if a <= b then a else b }
  function Max(a: real, b: real): real { if a >= b then a else b }

  /** `max(lo, min(hi, v))`: the nearest value to `v` inside `[lo, hi]`. */
  function Clamp(v: real, lo: real, hi: real): (r: real)
    requires lo <= hi
    ensures lo <= r <= hi
    ensures lo <= v <= hi ==> r == v
    ensures v < lo ==> r == lo
    ensures v > hi ==> r == hi
  {
    Max(lo, Min(hi, v))
  }

  function Sub(a: Point, b: Point): Point { Point(a.x - b.x, a.y - b.y) }

  /**
   * Where a dragged player or the ball goes when the pointer is at `pointer` and the
   * grab offset recorded at press time is `offset`: each axis of `pointer - offset`
   * clamped to the pitch independently.
   */
  function DragTarget(pitch: Pitch, pointer: Point, offset: Point): (r: Point)
    requires pitch.Valid()
    ensures InPitch(pitch, r)
    ensures r.x == Clamp(pointer.x - offset.x, 0.0, pitch.w)
    ensures r.y == Clamp(pointer.y - offset.y, 0.0, pitch.h)
    ensures InPitch(pitch, Sub(pointer, offset)) ==> r == Sub(pointer, offset)
  {
    Point(Clamp(pointer.x - offset.x, 0.0, pitch.w), Clamp(pointer.y - offset.y, 0.0, pitch.h))
  }

  /**
   * The grab point is preserved: an entity at `pos` pressed at `press` follows the
   * pointer by exactly the pointer's displacement, as long as that stays on the pitch.
   */
  lemma DragKeepsGrabPoint(pitch: Pitch, pos: Point, press: Point, pointer: Point)
    requires pitch.Valid()
    requires InPitch(pitch, Point(pos.x + (pointer.x - press.x), pos.y + (pointer.y - press.y)))
    ensures DragTarget(pitch, pointer, Sub(press, pos))
            == Point(pos.x + (pointer.x - press.x), pos.y + (pointer.y - press.y))
  {
    assert Sub(pointer, Sub(press, pos)) == Point(pos.x + (pointer.x - press.x), pos.y + (pointer.y - press.y));
  }

  // ---------------------------------------------------------------- real arithmetic

  lemma NonNegMul(a: real, b: real)
    requires a >= 0.0 && b >= 0.0
    ensures a * b >= 0.0
  {
  }

  lemma PositiveMul(a: real, b: real)
    requires a > 0.0 && b > 0.0
    ensures a * b > 0.0
  {
  }

  /** A factor of at least one does not shrink a positive quantity. */
  lemma MulAtLeast(a: real, b: real)
    requires a >= 1.0 && b > 0.0
    ensures a * b >= b
  {
    assert a * b == b + (a - 1.0) * b;
    NonNegMul(a - 1.0, b);
  }
}
