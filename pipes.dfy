/** Pipe pairs: creation at the right edge, scrolling left, and culling off the left edge
    (`create_pipe` and `move_pipes` in flappybird.py). */
module Pipes {
  import opened Config
  import opened Rects

  /** One gate: the lower pipe rising from the floor and the upper pipe hanging from the ceiling. */
  datatype PipePair = PipePair(bottom: Rect, top: Rect)

  /** The shape every pair has from creation on: two rectangles of pipe width in the same
      column, the lower one standing on the floor, the upper one starting at the top of the
      window, and exactly `PipeGap` pixels of opening between them. */
  predicate WellFormed(p: PipePair)
  {
    p.bottom.x == p.top.x && p.bottom.w == PipeWidth && p.top.w == PipeWidth &&
    p.top.Top() == 0 && p.bottom.Bottom() == FloorY &&
    p.bottom.Top() - p.top.Bottom() == PipeGap &&
    MinPipeHeight <= p.bottom.Top() <= MaxPipeHeight
  }

  /** Builds the pair whose gap ends at `pipeHeight`; the opening above it is `gap` tall. */
  function CreatePipe(pipeHeight: PipeHeight, gap: int): (p: PipePair)
    ensures p.bottom.x == SpawnX && p.top.x == SpawnX
    ensures p.bottom.w == PipeWidth && p.top.w == PipeWidth
    ensures p.bottom.Top() == pipeHeight && p.bottom.Bottom() == FloorY
    ensures p.top.Top() == 0 && p.top.Bottom() == pipeHeight - gap
    ensures p.bottom.Top() - p.top.Bottom() == gap
    ensures gap == PipeGap ==> WellFormed(p)
  {
    PipePair(Rect(SpawnX, pipeHeight, PipeWidth, Height - pipeHeight - FloorHeight),
             Rect(SpawnX, 0, PipeWidth, pipeHeight - gap))
  }

  /** Vertical midpoint of the opening between the two pipes. */
  function GapCenter(p: PipePair): real
  {
    (p.top.Bottom() + p.bottom.Top()) as real / 2.0
  }

  lemma GapCenterInsideGap(p: PipePair)
    requires WellFormed(p)
    ensures p.top.Bottom() as real < GapCenter(p) < p.bottom.Top() as real
    ensures GapCenter(p) == p.bottom.Top() as real - (PipeGap as real) / 2.0
  {
  }

  /** Moves both pipes of a pair `speed` pixels to the left. */
  function Shift(p: PipePair, speed: int): (q: PipePair)
    ensures q.bottom.x == p.bottom.x - speed && q.top.x == p.top.x - speed
    ensures q.bottom.(x := 0) == p.bottom.(x := 0) && q.top.(x := 0) == p.top.(x := 0)
    ensures WellFormed(p) ==> WellFormed(q)
  {
    PipePair(p.bottom.(x := p.bottom.x - speed), p.top.(x := p.top.x - speed))
  }

  function ShiftAll(pairs: seq<PipePair>, speed: int): (r: seq<PipePair>)
    ensures |r| == |pairs|
    ensures forall i :: 0 <= i < |pairs| ==> r[i] == Shift(pairs[i], speed)
  {
    seq(|pairs|, i requires 0 <= i < |pairs| => Shift(pairs[i], speed))
  }

  /** A pair is kept while its right edge is still right of the culling margin. */
  predicate OnScreen(p: PipePair)
  {
    p.bottom.Right() > CullMargin
  }

  /** The pairs of `s` that are on screen, in their original order. */
  function Survivors(s: seq<PipePair>): seq<PipePair>
  {
    if s == [] then []
    else if OnScreen(s[0]) then [s[0]] + Survivors(s[1..])
    else Survivors(s[1..])
  }

  /** The track after one scroll step: every pair shifted, off-screen ones dropped. */
  function Moved(pairs: seq<PipePair>, speed: int): seq<PipePair>
  {
    Survivors(ShiftAll(pairs, speed))
  }

  /** `a` can be obtained from `b` by deleting elements. */
  predicate IsSubsequence<T(==)>(a: seq<T>, b: seq<T>)
    decreases |b|
  {
    if a == [] then true
    else if b == [] then false
    else (a[0] == b[0] && IsSubsequence(a[1..], b[1..])) || IsSubsequence(a, b[1..])
  }

  lemma {:induction false} SurvivorsAppend(a: seq<PipePair>, b: seq<PipePair>)
    ensures Survivors(a + b) == Survivors(a) + Survivors(b)
  {
    if a != [] {
      assert (a + b)[1..] == a[1..] + b;
      SurvivorsAppend(a[1..], b);
    } else {
      assert a + b == b;
    }
  }

  /** Culling keeps exactly the on-screen pairs. */
  lemma {:induction false} SurvivorsExact(s: seq<PipePair>)
    ensures forall p :: p in Survivors(s) <==> p in s && OnScreen(p)
  {
    if s != [] {
      SurvivorsExact(s[1..]);
      assert s == [s[0]] + s[1..];
    }
  }

  /** Culling never adds or reorders pairs. */
  lemma {:induction false} SurvivorsSubsequence(s: seq<PipePair>)
    ensures IsSubsequence(Survivors(s), s)
  {
    if s != [] {
      SurvivorsSubsequence(s[1..]);
      if OnScreen(s[0]) {
        assert Survivors(s)[1..] == Survivors(s[1..]);
      }
    }
  }

  /** Culling never lengthens the track, and it shortens it exactly when some pair is off screen. */
  lemma {:induction false} SurvivorsLength(s: seq<PipePair>)
    ensures |Survivors(s)| <= |s|
    ensures |Survivors(s)| == |s| <==> forall i :: 0 <= i < |s| ==> OnScreen(s[i])
  {
    if s != [] {
      SurvivorsLength(s[1..]);
      assert forall i :: 1 <= i < |s| ==> s[i] == s[1..][i - 1];
    }
  }

  /** Culling keeps every copy of an on-screen pair and no copy of an off-screen one. */
  lemma {:induction false} SurvivorsCount(s: seq<PipePair>)
    ensures forall r :: multiset(Survivors(s))[r] == if OnScreen(r) then multiset(s)[r] else 0
  {
    if s != [] {
      SurvivorsCount(s[1..]);
      assert s == [s[0]] + s[1..];
    }
  }

  /** One scroll step: every pair moves left by exactly `speed`, the pairs whose right edge
      reached the margin are dropped, the others are kept in order, and pair shape survives. */
  lemma MovedSpec(pairs: seq<PipePair>, speed: int)
    ensures IsSubsequence(Moved(pairs, speed), ShiftAll(pairs, speed))
    ensures forall q :: q in Moved(pairs, speed) <==>
      (exists i :: 0 <= i < |pairs| && q == Shift(pairs[i], speed)) && OnScreen(q)
    ensures forall q ::
      multiset(Moved(pairs, speed))[q] == if OnScreen(q) then multiset(ShiftAll(pairs, speed))[q] else 0
    ensures |Moved(pairs, speed)| <= |pairs|
    ensures (forall i :: 0 <= i < |pairs| ==> WellFormed(pairs[i])) ==>
      forall q :: q in Moved(pairs, speed) ==> WellFormed(q)
  {
    var shifted := ShiftAll(pairs, speed);
    SurvivorsSubsequence(shifted);
    SurvivorsExact(shifted);
    SurvivorsLength(shifted);
    SurvivorsCount(shifted);
    forall q | q in shifted ensures exists i :: 0 <= i < |pairs| && q == Shift(pairs[i], speed) {
      var i :| 0 <= i < |shifted| && shifted[i] == q;
    }
  }

  /** `move_pipes`: shifts every pair in place, then keeps the ones still on screen. */
  method MovePipes(pairs: seq<PipePair>, speed: int) returns (kept: seq<PipePair>)
    ensures kept == Moved(pairs, speed)
    ensures |kept| <= |pairs|
    ensures forall j :: 0 <= j < |kept| ==> OnScreen(kept[j])
    ensures (forall i :: 0 <= i < |pairs| ==> WellFormed(pairs[i])) ==>
      forall j :: 0 <= j < |kept| ==> WellFormed(kept[j])
  {
    var moved := pairs;
    for i := 0 to |moved|
      invariant |moved| == |pairs|
      invariant forall j :: 0 <= j < i ==> moved[j] == Shift(pairs[j], speed)
      invariant forall j :: i <= j < |pairs| ==> moved[j] == pairs[j]
    {
      moved := moved[i := Shift(moved[i], speed)];
    }
    assert moved == ShiftAll(pairs, speed);
    kept := [];
    for i := 0 to |moved|
      invariant kept == Survivors(moved[..i])
    {
      assert moved[..i + 1] == moved[..i] + [moved[i]];
      SurvivorsAppend(moved[..i], [moved[i]]);
      if moved[i].bottom.Right() > CullMargin {
        kept := kept + [moved[i]];
      }
    }
    assert moved[..|moved|] == moved;
    MovedSpec(pairs, speed);
  }
}
