/**
 * Per-drawing transforms of the board: the eraser's removal, the commit of a
 * sketched shape or a text label, and the handle edit that reshapes the selected
 * drawing.
 */
module Drawings {
  import opened Geometry
  import opened Entities

  /** Every committed drawing is stroked at this width. */
  const StrokeWidth: real := 2.5

  /** A sketch is kept only when its start and end are more than this far apart. */
  const MinLength: real := 6.0

  predicate UniqueIds(ds: seq<Drawing>) {
    forall i, j :: 0 <= i < j < |ds| ==> ds[i].id != ds[j].id
  }

  predicate Present(ds: seq<Drawing>, id: string) {
    exists d :: d in ds && d.id == id
  }

  /** An id no drawing uses yet: what the random id generator is trusted to produce. */
  predicate FreshId(ds: seq<Drawing>, id: string) {
    forall d :: d in ds ==> d.id != id
  }

  lemma AppendFreshKeepsUnique(ds: seq<Drawing>, d: Drawing)
    requires UniqueIds(ds) && FreshId(ds, d.id)
    ensures UniqueIds(ds + [d])
  {
    var r := ds + [d];
    forall i, j | 0 <= i < j < |r| ensures r[i].id != r[j].id {
      if j == |ds| { assert r[i] in ds; }
    }
  }

  // ---------------------------------------------------------------- eraser

  /** The drawings whose id differs from `id`, in their original order. */
  function Erase(ds: seq<Drawing>, id: string): (r: seq<Drawing>)
    ensures |r| <= |ds|
    ensures forall d :: d in r <==> d in ds && d.id != id
  {
    if ds == [] then []
    else if ds[0].id == id then Erase(ds[1..], id)
    else [ds[0]] + Erase(ds[1..], id)
  }

  lemma {:induction false} EraseAbsent(ds: seq<Drawing>, id: string)
    requires FreshId(ds, id)
    ensures Erase(ds, id) == ds
  {
    if ds != [] {
      EraseAbsent(ds[1..], id);
      assert [ds[0]] + ds[1..] == ds;
    }
  }

  /** With unique ids the eraser removes exactly the matched drawing and keeps the rest in order. */
  lemma {:induction false} EraseRemovesExactlyOne(ds: seq<Drawing>, k: nat)
    requires UniqueIds(ds) && k < |ds|
    ensures Erase(ds, ds[k].id) == ds[..k] + ds[k + 1..]
  {
    var id := ds[k].id;
    if k == 0 {
      forall d | d in ds[1..] ensures d.id != id {
        var j :| 0 <= j < |ds[1..]| && ds[1..][j] == d;
        assert ds[j + 1] == d;
      }
      EraseAbsent(ds[1..], id);
    } else {
      assert ds[0].id != id;
      assert UniqueIds(ds[1..]) by {
        forall i, j | 0 <= i < j < |ds[1..]| ensures ds[1..][i].id != ds[1..][j].id {
          assert ds[1..][i] == ds[i + 1] && ds[1..][j] == ds[j + 1];
        }
      }
      assert ds[1..][k - 1] == ds[k];
      EraseRemovesExactlyOne(ds[1..], k - 1);
      assert ds[1..][..k - 1] + ds[1..][k..] == ds[1..k] + ds[k + 1..];
      assert [ds[0]] + ds[1..k] == ds[..k];
    }
  }

  /** With unique ids, the tail has unique ids and none of them is the head's. */
  lemma UniqueTail(ds: seq<Drawing>)
    requires UniqueIds(ds) && ds != []
    ensures UniqueIds(ds[1..])
    ensures forall d :: d in ds[1..] ==> d.id != ds[0].id
  {
    var tail := ds[1..];
    forall i, j | 0 <= i < j < |tail| ensures tail[i].id != tail[j].id {
      assert tail[i] == ds[i + 1] && tail[j] == ds[j + 1];
    }
    forall d | d in tail ensures d.id != ds[0].id {
      var m :| 0 <= m < |tail| && tail[m] == d;
      assert ds[m + 1] == d;
    }
  }

  lemma {:induction false} EraseKeepsUnique(ds: seq<Drawing>, id: string)
    requires UniqueIds(ds)
    ensures UniqueIds(Erase(ds, id))
  {
    if ds != [] {
      var tail := ds[1..];
      UniqueTail(ds);
      EraseKeepsUnique(tail, id);
      if ds[0].id != id {
        var rest := Erase(tail, id);
        var r := [ds[0]] + rest;
        forall i, j | 0 <= i < j < |r| ensures r[i].id != r[j].id {
          assert r[j] == rest[j - 1];
          if i > 0 {
            assert r[i] == rest[i - 1];
          }
        }
      }
    }
  }

  // ---------------------------------------------------------------- commits

  /** `dx² + dy² > 36`: the squared form of "the stroke is longer than `MinLength`". */
  predicate LongEnough(pv: Preview) {
    var dx, dy := pv.end.x - pv.start.x, pv.end.y - pv.start.y;
    dx * dx + dy * dy > MinLength * MinLength
  }

  /** For the Euclidean length `len` of the stroke, `len > 6` is exactly `LongEnough`. */
  lemma LongEnoughIsLength(pv: Preview, len: real)
    requires len >= 0.0
    requires len * len == (pv.end.x - pv.start.x) * (pv.end.x - pv.start.x) + (pv.end.y - pv.start.y) * (pv.end.y - pv.start.y)
    ensures len > MinLength <==> LongEnough(pv)
  {
    if len > MinLength {
      assert len * len > MinLength * len by {
        assert len * len - MinLength * len == (len - MinLength) * len;
        PositiveMul(len - MinLength, len);
      }
    } else {
      assert len * len <= MinLength * MinLength by {
        assert MinLength * MinLength - len * len == (MinLength - len) * (MinLength + len);
        NonNegMul(MinLength - len, MinLength + len);
      }
    }
  }

  /**
   * The drawing a long-enough sketch becomes: the preview's kind, endpoints, colour
   * and fill at the standard stroke width. A triangle gets its three vertices from
   * the box of start and end: the apex on the start row above the middle of a base
   * that runs along the end row from start.x to end.x.
   */
  function NewShape(pv: Preview, id: string): (d: Drawing)
    ensures d.id == id && d.kind == pv.kind && d.start == pv.start && d.end == pv.end
    ensures d.color == pv.color && d.filled == pv.filled && d.strokeWidth == StrokeWidth && d.text == ""
    ensures pv.kind != Triangle ==> d.points == []
    ensures pv.kind == Triangle ==>
              |d.points| == 3
              && d.points[1] == Point(pv.start.x, pv.end.y) && d.points[2] == pv.end
              && d.points[0].y == pv.start.y
              && d.points[0].x - d.points[1].x == d.points[2].x - d.points[0].x
  {
    var pts := if pv.kind == Triangle then
      [Point((pv.start.x + pv.end.x) / 2.0, pv.start.y), Point(pv.start.x, pv.end.y), Point(pv.end.x, pv.end.y)]
    else [];
    Drawing(id, pv.kind, pv.start, pv.end, pv.color, pv.filled, StrokeWidth, pts, "")
  }

  /** A text label anchored at `at`. */
  function NewText(at: Point, value: string, color: string, id: string): (d: Drawing)
    ensures d.id == id && d.kind == TextLabel && d.start == at && d.end == at
    ensures d.text == value && d.color == color && d.strokeWidth == StrokeWidth
    ensures !d.filled && d.points == []
  {
    Drawing(id, TextLabel, at, at, color, false, StrokeWidth, [], value)
  }

  // ---------------------------------------------------------------- text

  /** The characters a JavaScript string trim removes: white space and line terminators. */
  predicate IsSpace(c: char) {
    c == '\t' || c == '\n' || c == '\U{000B}' || c == '\U{000C}' || c == '\r' || c == ' '
    || c == '\U{00A0}' || c == '\U{1680}' || ('\U{2000}' <= c <= '\U{200A}')
    || c == '\U{2028}' || c == '\U{2029}' || c == '\U{202F}' || c == '\U{205F}'
    || c == '\U{3000}' || c == '\U{FEFF}'
  }

  predicate IsBlank(s: string) {
    forall i :: 0 <= i < |s| ==> IsSpace(s[i])
  }

  function TrimStart(s: string): (r: string)
    ensures |r| <= |s| && r == s[|s| - |r|..]
    ensures r != [] ==> !IsSpace(r[0])
    ensures IsBlank(s[..|s| - |r|])
  {
    if s != [] && IsSpace(s[0]) then
      var r := TrimStart(s[1..]);
      assert s[1..][..|s| - 1 - |r|] == s[1..|s| - |r|];
      r
    else s
  }

  function TrimEnd(s: string): (r: string)
    ensures |r| <= |s| && r == s[..|r|]
    ensures r != [] ==> !IsSpace(r[|r| - 1])
    ensures IsBlank(s[|r|..])
  {
    if s != [] && IsSpace(s[|s| - 1]) then
      var r := TrimEnd(s[..|s| - 1]);
      assert s[..|s| - 1][..|r|] == s[..|r|];
      assert s[|r|..] == s[..|s| - 1][|r|..] + [s[|s| - 1]];
      r
    else s
  }

  /** A string with leading and trailing white space removed. */
  function Trim(s: string): string {
    TrimEnd(TrimStart(s))
  }

  /** A value trims to the empty string exactly when every character is white space. */
  lemma TrimEmptyIffBlank(s: string)
    ensures Trim(s) == "" <==> IsBlank(s)
  {
    var t := TrimStart(s);
    if Trim(s) == "" {
      assert t[0..] == t;
      assert t == [];
      assert s[..|s|] == s;
    } else {
      var r := Trim(s);
      assert !IsSpace(r[0]);
      assert t[..|r|] == r;
      assert t == s[|s| - |t|..];
      assert s[|s| - |t|] == r[0];
    }
  }

  // ---------------------------------------------------------------- handle editing

  predicate IsBox(k: Kind) { k == Rect || k == Zone }

  /**
   * Corner `i` of the axis-aligned box spanned by start and end, clockwise from
   * start: start, (end.x, start.y), end, (start.x, end.y).
   */
  function Corner(d: Drawing, i: nat): Point {
    if i == 0 then d.start
    else if i == 1 then Point(d.end.x, d.start.y)
    else if i == 2 then d.end
    else Point(d.start.x, d.end.y)
  }

  function Mid(d: Drawing): Point {
    Point((d.start.x + d.end.x) / 2.0, (d.start.y + d.end.y) / 2.0)
  }

  function Abs(v: real): real { if v < 0.0 then -v else v }

  /** What the handle edit needs of the drawing's handle list: the dragged index exists,
      and a curved arrow has its control point at index 1. */
  predicate HandlesFit(k: Kind, idx: nat, handles: seq<Point>) {
    idx < |handles| && (k == CurvedArrow ==> |handles| >= 2)
  }

  predicate SameStyle(d: Drawing, r: Drawing) {
    r.id == d.id && r.kind == d.kind && r.color == d.color && r.filled == d.filled
    && r.strokeWidth == d.strokeWidth && r.text == d.text
  }

  /**
   * Handle `idx` of `d` (whose handle list is `handles`) dragged to `p`.
   * A box keeps the opposite corner fixed; a circle keeps its centre and takes `p`
   * as a corner of its new box (the two half-axes are set independently); a
   * triangle moves only that vertex; a curved arrow keeps its endpoints and takes
   * handle 1 as its control point; the other kinds move their start for handle 0
   * and their end for any other handle.
   */
  function EditHandle(d: Drawing, idx: nat, handles: seq<Point>, p: Point): (r: Drawing)
    requires HandlesFit(d.kind, idx, handles)
    ensures SameStyle(d, r)
    ensures IsBox(d.kind) && idx < 4 ==>
              Corner(r, idx) == p && Corner(r, (idx + 2) % 4) == Corner(d, (idx + 2) % 4) && r.points == d.points
    ensures IsBox(d.kind) && idx >= 4 ==>
              r.start == handles[0] && r.end == handles[2] && r.points == d.points
    ensures d.kind == Circle ==>
              Mid(r) == Mid(d) && r.start.x <= r.end.x && r.start.y <= r.end.y
              && (p.x == r.start.x || p.x == r.end.x) && (p.y == r.start.y || p.y == r.end.y)
              && r.points == d.points
    ensures d.kind == Triangle ==>
              r.start == d.start && r.end == d.end && |r.points| == |handles| && r.points[idx] == p
              && forall j :: 0 <= j < |handles| && j != idx ==> r.points[j] == handles[j]
    ensures d.kind == CurvedArrow ==>
              r.start == d.start && r.end == d.end && r.points == [if idx == 1 then p else handles[1]]
    ensures d.kind in {Line, Arrow, TextLabel} ==>
              r.points == d.points
              && (if idx == 0 then r.start == p && r.end == d.end else r.end == p && r.start == d.start)
  {
    var hs := handles[idx := p];
    match d.kind
    case Triangle => d.(points := hs)
    case CurvedArrow => d.(points := [hs[1]])
    case Rect | Zone =>
      if idx == 0 then d.(start := p)
      else if idx == 1 then d.(end := Point(p.x, d.end.y), start := Point(d.start.x, p.y))
      else if idx == 2 then d.(end := p)
      else if idx == 3 then d.(start := Point(p.x, d.start.y), end := Point(d.end.x, p.y))
      else d.(start := hs[0], end := hs[2])
    case Circle =>
      var c := Mid(d);
      var rx, ry := Abs(p.x - c.x), Abs(p.y - c.y);
      d.(start := Point(c.x - rx, c.y - ry), end := Point(c.x + rx, c.y + ry))
    case _ =>
      if idx == 0 then d.(start := p) else d.(end := p)
  }

  /** Applies a handle edit to the drawing with the given id; every other drawing is untouched. */
  function EditDrawings(ds: seq<Drawing>, id: string, idx: nat, handles: seq<Point>, p: Point): (r: seq<Drawing>)
    requires forall d :: d in ds && d.id == id ==> HandlesFit(d.kind, idx, handles)
    ensures |r| == |ds|
    ensures forall i :: 0 <= i < |ds| && ds[i].id != id ==> r[i] == ds[i]
    ensures forall i :: 0 <= i < |ds| && ds[i].id == id ==> r[i] == EditHandle(ds[i], idx, handles, p)
    ensures forall i :: 0 <= i < |ds| ==> r[i].id == ds[i].id
  {
    seq(|ds|, i requires 0 <= i < |ds| =>
      if ds[i].id == id then EditHandle(ds[i], idx, handles, p) else ds[i])
  }

  lemma EditKeepsUnique(ds: seq<Drawing>, id: string, idx: nat, handles: seq<Point>, p: Point)
    requires forall d :: d in ds && d.id == id ==> HandlesFit(d.kind, idx, handles)
    requires UniqueIds(ds)
    ensures UniqueIds(EditDrawings(ds, id, idx, handles, p))
  {
  }
}
