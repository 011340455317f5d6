/** The auto-mode controller (`auto_controller`): it centres the bird when no pipe is ahead,
    otherwise steers it toward the gap of the nearest pipe ahead and keeps it on screen. */
module Controller {
  import opened Config
  import opened Rects
  import opened Pipes

  datatype Option<T> = None | Some(value: T)

  /** `max(-m, min(m, x))`: the value of `x` limited to `[-m, m]`. */
  function Clamp(x: real, m: real): (r: real)
    requires m >= 0.0
    ensures -m <= r <= m
    ensures -m <= x <= m ==> r == x
    ensures x > m ==> r == m
    ensures x < -m ==> r == -m
  {
    RMax(-m, RMin(m, x))
  }

  /** Mid-screen height the bird drifts to when no pipe is ahead. */
  const CenterTarget := Height / 2
  /** Largest speed of the centring drift. */
  const CenteringMaxStep := 8.0

  /** Velocity of the centring branch: a proportional pull toward mid-screen, smoothed with
      the previous velocity and limited to 8 pixels per tick. */
  function CenteringVelocity(centerY: int, v: real): (nv: real)
    ensures -CenteringMaxStep <= nv <= CenteringMaxStep
    ensures centerY < CenterTarget && v >= 0.0 ==> nv > 0.0
    ensures centerY > CenterTarget && v <= 0.0 ==> nv < 0.0
    ensures centerY == CenterTarget && v == 0.0 ==> nv == 0.0
  {
    var desired := (CenterTarget - centerY) as real * 0.04;
    Clamp(v * 0.85 + desired * 0.15, CenteringMaxStep)
  }

  /** Speed limit of the tracking branch; it grows with the scroll speed. */
  function MaxStep(speed: int): real
  {
    10.0 + speed as real * 0.5
  }

  /** Estimated number of ticks before a pipe `dx` pixels ahead reaches the bird. */
  function FramesAhead(dx: int, speed: int): (f: real)
    ensures f >= 1.0
  {
    RMax(1.0, dx as real / RMax(1.0, speed as real))
  }

  /** Velocity of the tracking branch: the per-tick move that would reach the gap centre by
      the time the pipe arrives, limited, blended 70/30 with the previous velocity and
      limited again. */
  function TrackingVelocity(gapCenter: real, centerY: int, v: real, dx: int, speed: int): (nv: real)
    requires speed >= 0
    ensures -MaxStep(speed) <= nv <= MaxStep(speed)
    ensures gapCenter > centerY as real && v >= 0.0 ==> nv > 0.0
    ensures gapCenter < centerY as real && v <= 0.0 ==> nv < 0.0
    ensures gapCenter == centerY as real && v == 0.0 ==> nv == 0.0
  {
    var m := MaxStep(speed);
    var error := gapCenter - centerY as real;
    var frames := FramesAhead(dx, speed);
    var desired := Clamp(error / frames, m);
    Clamp(v * 0.7 + desired * 0.3, m)
  }

  /** Highest centre and lowest bottom edge the tracking branch lets the bird reach. */
  const BandTop := 20
  const BandBottom := FloorY - 2

  /** The bounds check after a tracking move: a bird above the band is put back with its
      centre at the band's top, one below it with its bottom at the band's bottom, and in
      either case its velocity is zeroed; a bird inside the band is left alone. */
  function KeepInBand(r: Rect, v: real): (res: (Rect, real))
    requires r.h == BirdHeight
    ensures res.0.x == r.x && res.0.w == r.w && res.0.h == r.h
    ensures res.0.CenterY() >= BandTop && res.0.Bottom() <= BandBottom
    ensures r.CenterY() < BandTop || r.Bottom() > BandBottom ==> res.1 == 0.0
    ensures BandTop <= r.CenterY() && r.Bottom() <= BandBottom ==> res == (r, v)
  {
    var (r1, v1) := if r.CenterY() < BandTop then (r.WithCenterY(BandTop), 0.0) else (r, v);
    if r1.Bottom() > BandBottom then (r1.WithBottom(BandBottom), 0.0) else (r1, v1)
  }

  /** Horizontal distance from the bird's centre to a pair's centre (positive when ahead). */
  function Dx(p: PipePair, birdX: int): int
  {
    p.bottom.CenterX() - birdX
  }

  /** Among the first `n` pairs, `k` is ahead of the bird, no pair ahead is nearer, and every
      pair ahead that comes before `k` is strictly farther. */
  predicate NearestAmong(pairs: seq<PipePair>, n: nat, birdX: int, k: nat)
    requires n <= |pairs|
  {
    k < n && Dx(pairs[k], birdX) > 0 &&
    (forall i :: 0 <= i < n && Dx(pairs[i], birdX) > 0 ==> Dx(pairs[k], birdX) <= Dx(pairs[i], birdX)) &&
    (forall i :: 0 <= i < k && Dx(pairs[i], birdX) > 0 ==> Dx(pairs[k], birdX) < Dx(pairs[i], birdX))
  }

  predicate IsNearestAhead(pairs: seq<PipePair>, birdX: int, k: nat)
  {
    NearestAmong(pairs, |pairs|, birdX, k)
  }

  predicate NoneAhead(pairs: seq<PipePair>, birdX: int)
  {
    forall i :: 0 <= i < |pairs| ==> Dx(pairs[i], birdX) <= 0
  }

  /** At most one pair is the nearest one ahead. */
  lemma NearestAheadUnique(pairs: seq<PipePair>, birdX: int, j: nat, k: nat)
    requires IsNearestAhead(pairs, birdX, j) && IsNearestAhead(pairs, birdX, k)
    ensures j == k
  {
  }

  /** The pair the controller steers toward: the earliest pair with the least positive
      distance, or none when no pair is ahead. */
  function NearestAhead(pairs: seq<PipePair>, birdX: int): (r: Option<nat>)
    ensures r.None? <==> NoneAhead(pairs, birdX)
    ensures r.Some? ==> IsNearestAhead(pairs, birdX, r.value)
    decreases |pairs|
  {
    if pairs == [] then None
    else
      var rest := NearestAhead(pairs[1..], birdX);
      if Dx(pairs[0], birdX) > 0 &&
         (rest.None? || Dx(pairs[0], birdX) <= Dx(pairs[1..][rest.value], birdX))
      then Some(0)
      else if rest.Some? then Some(rest.value + 1)
      else None
  }

  /** The next-pipe search of `auto_controller`: a left-to-right scan keeping the first pair
      whose distance ahead is smaller than every one seen so far. */
  method NextPipe(pairs: seq<PipePair>, birdX: int) returns (next: Option<nat>)
    ensures next == NearestAhead(pairs, birdX)
    ensures next.None? <==> NoneAhead(pairs, birdX)
    ensures next.Some? ==> IsNearestAhead(pairs, birdX, next.value)
  {
    next := None;
    for i := 0 to |pairs|
      invariant next.None? ==> forall j :: 0 <= j < i ==> Dx(pairs[j], birdX) <= 0
      invariant next.Some? ==> NearestAmong(pairs, i, birdX, next.value)
    {
      var dx := Dx(pairs[i], birdX);
      if dx > 0 && (next.None? || dx < Dx(pairs[next.value], birdX)) {
        next := Some(i);
      }
    }
    var spec := NearestAhead(pairs, birdX);
    if next.Some? {
      NearestAheadUnique(pairs, birdX, next.value, spec.value);
    }
  }

  /** What one call of the controller does to the bird and its velocity. */
  function Steer(bird: Rect, v: real, pairs: seq<PipePair>, speed: int, conv: real -> int): (res: (Rect, real))
    requires speed >= 0 && bird.h == BirdHeight
    ensures res.0.x == bird.x && res.0.w == bird.w && res.0.h == bird.h
    ensures NoneAhead(pairs, bird.CenterX()) ==>
      -CenteringMaxStep <= res.1 <= CenteringMaxStep &&
      res.0.CenterY() == conv(bird.CenterY() as real + res.1)
    ensures !NoneAhead(pairs, bird.CenterX()) ==>
      -MaxStep(speed) <= res.1 <= MaxStep(speed) &&
      res.0.CenterY() >= BandTop && res.0.Bottom() <= BandBottom &&
      (res.1 == 0.0 || res.0.CenterY() == conv(bird.CenterY() as real + res.1))
  {
    match NearestAhead(pairs, bird.CenterX())
    case None =>
      var nv := CenteringVelocity(bird.CenterY(), v);
      (bird.WithCenterY(conv(bird.CenterY() as real + nv)), nv)
    case Some(k) =>
      var p := pairs[k];
      var nv := TrackingVelocity(GapCenter(p), bird.CenterY(), v, Dx(p, bird.CenterX()), speed);
      KeepInBand(bird.WithCenterY(conv(bird.CenterY() as real + nv)), nv)
  }

  /** `auto_controller`: returns the moved bird and its new velocity. */
  method AutoController(bird: Rect, v: real, pairs: seq<PipePair>, speed: int, conv: real -> int)
    returns (moved: Rect, newV: real)
    requires speed >= 0 && bird.h == BirdHeight
    ensures (moved, newV) == Steer(bird, v, pairs, speed, conv)
    ensures NoneAhead(pairs, bird.CenterX()) ==> -CenteringMaxStep <= newV <= CenteringMaxStep
    ensures !NoneAhead(pairs, bird.CenterX()) ==>
      -MaxStep(speed) <= newV <= MaxStep(speed) &&
      moved.CenterY() >= BandTop && moved.Bottom() <= BandBottom
    decreases |pairs|
  {
    if pairs == [] {
      newV := CenteringVelocity(bird.CenterY(), v);
      moved := bird.WithCenterY(conv(bird.CenterY() as real + newV));
      return;
    }
    var next := NextPipe(pairs, bird.CenterX());
    if next.None? {
      // no pair ahead: behave as with no pipes at all
      moved, newV := AutoController(bird, v, [], speed, conv);
      return;
    }
    var p := pairs[next.value];
    newV := TrackingVelocity(GapCenter(p), bird.CenterY(), v, Dx(p, bird.CenterX()), speed);
    moved := bird.WithCenterY(conv(bird.CenterY() as real + newV));
    if moved.CenterY() < BandTop {
      moved := moved.WithCenterY(BandTop);
      newV := 0.0;
    }
    if moved.Bottom() > BandBottom {
      moved := moved.WithBottom(BandBottom);
      newV := 0.0;
    }
  }
}
