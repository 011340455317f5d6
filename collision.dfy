/** The survival test of manual play (`check_collision`, which answers "still alive"). */
module Collision {
  import opened Config
  import opened Rects
  import opened Pipes

  predicate HitsPair(bird: Rect, p: PipePair)
  {
    Collides(bird, p.bottom) || Collides(bird, p.top)
  }

  /** The bird is alive when it is strictly between ceiling and floor and touches no pipe. */
  predicate Alive(pairs: seq<PipePair>, bird: Rect)
  {
    0 < bird.Top() && bird.Bottom() < FloorY &&
    forall i :: 0 <= i < |pairs| ==> !HitsPair(bird, pairs[i])
  }

  /** `check_collision`: false exactly when the bird touches the ceiling, touches the floor,
      or overlaps a pipe of some pair; true otherwise. */
  method CheckCollision(pairs: seq<PipePair>, bird: Rect) returns (alive: bool)
    ensures alive == Alive(pairs, bird)
    ensures !alive <==>
      bird.Top() <= 0 || bird.Bottom() >= FloorY ||
      exists i :: 0 <= i < |pairs| && HitsPair(bird, pairs[i])
  {
    if bird.Top() <= 0 || bird.Bottom() >= FloorY {
      return false;
    }
    for i := 0 to |pairs|
      invariant forall j :: 0 <= j < i ==> !HitsPair(bird, pairs[j])
    {
      if Collides(bird, pairs[i].bottom) || Collides(bird, pairs[i].top) {
        return false;
      }
    }
    return true;
  }

  /** Inside a pipe's column, a bird within the play band hits the pair exactly when it
      leaves the gap, so a pair never blocks a bird that stays inside its opening. */
  lemma HitIffOutsideGap(bird: Rect, p: PipePair)
    requires WellFormed(p)
    requires bird.w > 0 && bird.h > 0
    requires bird.x < p.bottom.Right() && p.bottom.x < bird.Right()
    requires 0 < bird.Top() && bird.Bottom() < FloorY
    ensures HitsPair(bird, p) <==> bird.Top() < p.top.Bottom() || bird.Bottom() > p.bottom.Top()
  {
  }

  /** A bird outside every pipe's column is alive whenever it is inside the play band. */
  lemma ClearOfColumnsIsAlive(pairs: seq<PipePair>, bird: Rect)
    requires bird.w > 0 && bird.h > 0
    requires 0 < bird.Top() && bird.Bottom() < FloorY
    requires forall i :: 0 <= i < |pairs| ==>
      WellFormed(pairs[i]) && (bird.Right() <= pairs[i].bottom.x || pairs[i].bottom.Right() <= bird.x)
    ensures Alive(pairs, bird)
  {
  }

  /** The gap is wider than the bird, so every pair leaves room for it to pass alive. */
  lemma GapAdmitsBird(p: PipePair, bird: Rect)
    requires WellFormed(p)
    requires bird.w > 0 && bird.h == BirdHeight
    requires bird.Top() == Max(1, p.top.Bottom())
    ensures 0 < bird.Top() && bird.Bottom() < FloorY
    ensures !HitsPair(bird, p)
  {
  }
}
