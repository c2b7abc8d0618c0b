/**
 * The bounded undo stack: oldest snapshot first, at most `Capacity` entries.
 * Pushing keeps the newest `Capacity - 1` entries and appends the new one;
 * undo pops the newest entry and hands it back to be applied verbatim.
 */
module History {
  import opened Wrappers

  const Capacity: nat := 50

  function Push<T>(h: seq<T>, s: T): (r: seq<T>)
    ensures |r| <= Capacity
    ensures |r| > 0 && r[|r| - 1] == s
    ensures |h| < Capacity ==> r == h + [s]
    ensures |h| >= Capacity ==> |r| == Capacity && r[..|r| - 1] == h[|h| - (Capacity - 1)..]
    ensures forall x :: x in r ==> x in h || x == s
  {
    if |h| < Capacity then h + [s]
    else
      var kept := h[|h| - (Capacity - 1)..];
      assert forall x :: x in kept ==> x in h;
      kept + [s]
  }

  /** Commits a pending snapshot if there is one; without one nothing changes. */
  function Commit<T>(h: seq<T>, pending: Option<T>): (r: seq<T>)
    ensures pending.None? ==> r == h
    ensures pending.Some? ==> r == Push(h, pending.value)
  {
    match pending
    case None => h
    case Some(s) => Push(h, s)
  }

  /**
   * Undo of the board state `current` against history `h`: the new state and the
   * new history. An empty history changes nothing; otherwise the newest snapshot
   * becomes the state and the rest is the history.
   */
  function Undo<T>(current: T, h: seq<T>): (r: (T, seq<T>))
    ensures h == [] ==> r == (current, h)
    ensures h != [] ==> r.1 + [r.0] == h
  {
    if h == [] then (current, h) else (h[|h| - 1], h[..|h| - 1])
  }

  /** The history after committing `xs[0]`, then `xs[1]`, ... in turn. */
  function PushAll<T>(h: seq<T>, xs: seq<T>): seq<T>
  {
    if xs == [] then h else Push(PushAll(h, xs[..|xs| - 1]), xs[|xs| - 1])
  }

  /** The state and history after `n` undos. */
  function UndoTimes<T>(current: T, h: seq<T>, n: nat): (T, seq<T>)
  {
    if n == 0 then (current, h)
    else
      var (c, h') := Undo(current, h);
      UndoTimes(c, h', n - 1)
  }

  /** Undo right after a commit gives back the committed snapshot and the old history. */
  lemma UndoAfterPush<T>(current: T, h: seq<T>, s: T)
    requires |h| < Capacity
    ensures Undo(current, Push(h, s)) == (s, h)
  {
    assert (h + [s])[..|h|] == h;
  }

  /** However many snapshots are committed, the history never exceeds its capacity. */
  lemma {:induction false} PushAllBounded<T>(h: seq<T>, xs: seq<T>)
    requires |h| <= Capacity
    ensures |PushAll(h, xs)| <= Capacity
  {
    if xs != [] {
      PushAllBounded(h, xs[..|xs| - 1]);
    }
  }

  /** Without overflow, committing appends. */
  lemma {:induction false} PushAllNoEviction<T>(h: seq<T>, xs: seq<T>)
    requires |h| + |xs| <= Capacity
    ensures PushAll(h, xs) == h + xs
  {
    if xs != [] {
      var init := xs[..|xs| - 1];
      PushAllNoEviction(h, init);
      assert init + [xs[|xs| - 1]] == xs;
      assert h + init + [xs[|xs| - 1]] == h + xs;
    }
  }

  /** The newest `|xs|` entries are the last `|xs|` commits, as long as `|xs| <= Capacity`. */
  lemma {:induction false} PushAllKeepsRecent<T>(h: seq<T>, xs: seq<T>)
    requires |xs| <= Capacity
    ensures |PushAll(h, xs)| >= |xs|
    ensures PushAll(h, xs)[|PushAll(h, xs)| - |xs|..] == xs
  {
    if xs != [] {
      var init := xs[..|xs| - 1];
      var last := xs[|xs| - 1];
      PushAllKeepsRecent(h, init);
      var H := PushAll(h, init);
      var r := Push(H, last);
      assert r == PushAll(h, xs);
      assert H[|H| - |init|..] == init;
      if |H| < Capacity {
        assert r == H + [last];
        assert r[|r| - |xs|..] == H[|H| - |init|..] + [last];
      } else {
        var kept := H[|H| - (Capacity - 1)..];
        assert r == kept + [last];
        assert |init| <= Capacity - 1;
        assert kept[|kept| - |init|..] == H[|H| - |init|..];
        assert r[|r| - |xs|..] == kept[|kept| - |init|..] + [last];
      }
      assert init + [last] == xs;
    }
  }

  /** `n` undos against a history that ends with `xs` (`n = |xs|`) pop exactly `xs`. */
  lemma {:induction false} UndoTimesPops<T>(current: T, p: seq<T>, xs: seq<T>)
    requires |xs| >= 1
    ensures UndoTimes(current, p + xs, |xs|) == (xs[0], p)
  {
    var n := |xs|;
    var init := xs[..n - 1];
    assert p + xs != [];
    assert (p + xs)[..|p + xs| - 1] == p + init;
    assert (p + xs)[|p + xs| - 1] == xs[n - 1];
    assert Undo(current, p + xs) == (xs[n - 1], p + init);
    if n == 1 {
      assert p + init == p;
    } else {
      UndoTimesPops(xs[n - 1], p, init);
    }
  }

  /** The (n+1)-th undo acts on what the first n left behind. */
  lemma {:induction false} UndoTimesLast<T>(current: T, h: seq<T>, n: nat)
    ensures UndoTimes(current, h, n + 1) == Undo(UndoTimes(current, h, n).0, UndoTimes(current, h, n).1)
  {
    if n > 0 {
      var (c, h') := Undo(current, h);
      UndoTimesLast(c, h', n - 1);
    }
  }

  /**
   * `states[i]` is the board before the (i+1)-th committed gesture and `last` the
   * board after all of them. Undoing as many times as there were gestures restores
   * the board before the first gesture, provided at most `Capacity` were committed;
   * when nothing was evicted the history is also back where it started, and one
   * more undo on an empty history is a no-op.
   */
  lemma UndoRestores<T>(h: seq<T>, states: seq<T>, last: T)
    requires 1 <= |states| <= Capacity
    ensures UndoTimes(last, PushAll(h, states), |states|).0 == states[0]
    ensures |h| + |states| <= Capacity ==> UndoTimes(last, PushAll(h, states), |states|) == (states[0], h)
    ensures h == [] ==> UndoTimes(last, PushAll(h, states), |states| + 1) == (states[0], [])
  {
    var H := PushAll(h, states);
    PushAllKeepsRecent(h, states);
    var p := H[..|H| - |states|];
    assert H == p + states;
    UndoTimesPops(last, p, states);
    if |h| + |states| <= Capacity {
      PushAllNoEviction(h, states);
      assert p == h;
    }
    UndoTimesLast(last, H, |states|);
  }
}
