/** One play session (`run_game`): the waiting phase of manual play, pipe spawning, the
    per-tick physics or auto controller, scrolling, scoring, the difficulty ramp and the
    survival test. */
module Game {
  import opened Config
  import opened Rects
  import opened Pipes
  import opened Collision
  import opened Controller

  datatype Mode = Manual | Auto

  /** Inputs drained at the start of a tick. `SpawnPipe` is the pipe timer firing, carrying
      the height the random draw produced. */
  datatype Event = Space | Escape | SpawnPipe(height: PipeHeight) | OtherEvent

  datatype TickOutcome = Continue | ReturnHome | GameOver

  /** The bird's sprite rectangle at the start of an episode, centred at (200, 300). */
  const StartBird := Rect(Width / 4 - BirdWidth / 2, Height / 2 - BirdHeight / 2, BirdWidth, BirdHeight)

  /** The bird only ever moves vertically. */
  predicate BirdShape(bird: Rect)
  {
    bird.x == StartBird.x && bird.w == BirdWidth && bird.h == BirdHeight
  }

  /** Difficulty ramp: the scroll speed gains one pixel per tick for every 20 points. */
  function Difficulty(score: real): (speed: int)
    requires score >= 0.0
    ensures speed >= BasePipeSpeed
    ensures (speed - BasePipeSpeed) as real * ScorePerLevel <= score
    ensures score < (speed - BasePipeSpeed + 1) as real * ScorePerLevel
  {
    BasePipeSpeed + (score / ScorePerLevel).Floor
  }

  lemma DifficultyMonotone(s1: real, s2: real)
    requires 0.0 <= s1 <= s2
    ensures Difficulty(s1) <= Difficulty(s2)
  {
  }

  /** After `n` running ticks the scroll speed has gone up once every 2000 ticks. */
  lemma DifficultyAfterTicks(n: nat)
    ensures Difficulty(n as real * ScoreStep) == BasePipeSpeed + n / 2000
  {
  }

  /** The part of the state the event loop touches. */
  datatype Input = Input(waiting: bool, velocity: real, pipes: seq<PipePair>)

  /** One event: SPACE in manual mode starts the episode and flaps; a timer event adds a
      new pair unless the episode is still waiting; everything else is ignored here. */
  function HandleEvent(mode: Mode, s: Input, e: Event): Input
  {
    match e
    case Space => if mode == Manual then s.(waiting := false, velocity := JumpStrength) else s
    case SpawnPipe(h) => if s.waiting then s else s.(pipes := s.pipes + [CreatePipe(h, PipeGap)])
    case _ => s
  }

  /** The event loop over a burst of events, in order. Spawning only appends to the
      track, waiting is never re-entered, and an episode still waiting afterwards has
      spawned nothing. */
  function HandleEvents(mode: Mode, s: Input, events: seq<Event>): (r: Input)
    ensures s.pipes <= r.pipes
    ensures !s.waiting ==> !r.waiting
    ensures r.waiting ==> r.pipes == s.pipes
  {
    if events == [] then s
    else HandleEvent(mode, HandleEvents(mode, s, events[..|events| - 1]), events[|events| - 1])
  }

  /** The pairs the timer events of a burst would create in a running episode. */
  function Spawned(events: seq<Event>): (r: seq<PipePair>)
    ensures forall j :: 0 <= j < |r| ==> WellFormed(r[j]) && r[j].bottom.x == SpawnX
  {
    if events == [] then []
    else
      var last := events[|events| - 1];
      Spawned(events[..|events| - 1]) + (if last.SpawnPipe? then [CreatePipe(last.height, PipeGap)] else [])
  }

  /** While waiting, events other than a manual SPACE change nothing: no pair is spawned. */
  lemma {:induction false} WaitingIgnoresEvents(mode: Mode, s: Input, events: seq<Event>)
    requires s.waiting
    requires mode == Auto || Space !in events
    ensures HandleEvents(mode, s, events) == s
  {
    if events != [] {
      assert events[..|events| - 1] <= events;
      WaitingIgnoresEvents(mode, s, events[..|events| - 1]);
    }
  }

  /** In manual mode a SPACE anywhere in the burst leaves the episode running with the
      flap velocity (later events never change velocity). */
  lemma {:induction false} SpaceStarts(s: Input, events: seq<Event>)
    requires Space in events
    ensures !HandleEvents(Manual, s, events).waiting
    ensures HandleEvents(Manual, s, events).velocity == JumpStrength
  {
    var init := events[..|events| - 1];
    if events[|events| - 1] != Space {
      assert events == init + [events[|events| - 1]];
      SpaceStarts(s, init);
    }
  }

  /** Auto mode ignores SPACE: waiting flag and velocity pass through the event loop. */
  lemma {:induction false} AutoIgnoresSpace(s: Input, events: seq<Event>)
    ensures HandleEvents(Auto, s, events).waiting == s.waiting
    ensures HandleEvents(Auto, s, events).velocity == s.velocity
  {
    if events != [] {
      AutoIgnoresSpace(s, events[..|events| - 1]);
    }
  }

  /** A running episode stays running, and every timer event appends its pair, in order. */
  lemma {:induction false} RunningSpawnsEveryPair(mode: Mode, s: Input, events: seq<Event>)
    requires !s.waiting
    ensures !HandleEvents(mode, s, events).waiting
    ensures HandleEvents(mode, s, events).pipes == s.pipes + Spawned(events)
  {
    if events != [] {
      RunningSpawnsEveryPair(mode, s, events[..|events| - 1]);
    }
  }

  class Episode {
    const mode: Mode
    var bird: Rect
    var velocity: real
    var pipes: seq<PipePair>
    var score: real
    var speed: int
    var waiting: bool
    /** Best score of the process so far, updated when an episode ends in a crash. */
    var highScore: real
    /** Number of ticks played since the start (waiting ticks excluded). */
    ghost var runningTicks: nat

    ghost predicate Valid()
      reads this
    {
      BirdShape(bird) &&
      score == runningTicks as real * ScoreStep &&
      speed == Difficulty(score) &&
      (waiting ==> mode == Manual && runningTicks == 0 && pipes == [] &&
                   velocity == 0.0 && bird == StartBird) &&
      (forall i :: 0 <= i < |pipes| ==> WellFormed(pipes[i]))
    }

    function InputOf(): Input
      reads this
    {
      Input(waiting, velocity, pipes)
    }

    /** A new episode: the bird at its start position, no pipes, zero score, base speed;
        only a manual episode waits for SPACE. */
    constructor (mode: Mode, highScore: real)
      ensures Valid()
      ensures this.mode == mode && this.highScore == highScore
      ensures waiting == (mode == Manual)
      ensures bird == StartBird && velocity == 0.0 && pipes == []
      ensures score == 0.0 && speed == BasePipeSpeed
    {
      this.mode := mode;
      this.highScore := highScore;
      bird := StartBird;
      velocity := 0.0;
      pipes := [];
      score := 0.0;
      speed := BasePipeSpeed;
      waiting := mode == Manual;
      runningTicks := 0;
    }

    /** The event loop at the top of a tick. It stops at the first ESC, which leaves the
        episode; otherwise every event is handled in order. */
    method DrainEvents(events: seq<Event>) returns (escaped: bool)
      requires Valid()
      modifies this
      ensures Valid()
      ensures escaped <==> Escape in events
      ensures !escaped ==> InputOf() == HandleEvents(mode, old(InputOf()), events)
      ensures bird == old(bird) && score == old(score) && speed == old(speed)
      ensures runningTicks == old(runningTicks) && highScore == old(highScore)
      ensures old(!waiting) ==> !waiting
    {
      ghost var start := InputOf();
      for i := 0 to |events|
        invariant Valid()
        invariant Escape !in events[..i]
        invariant InputOf() == HandleEvents(mode, start, events[..i])
        invariant bird == old(bird) && score == old(score) && speed == old(speed)
        invariant runningTicks == old(runningTicks) && highScore == old(highScore)
        invariant old(!waiting) ==> !waiting
      {
        assert events[..i + 1] == events[..i] + [events[i]];
        assert events[..i + 1][..i] == events[..i];
        match events[i]
        case Escape =>
          return true;
        case Space =>
          if mode == Manual {
            if waiting {
              waiting := false;
            }
            velocity := JumpStrength;
          }
        case SpawnPipe(h) =>
          if !waiting {
            pipes := pipes + [CreatePipe(h, PipeGap)];
          }
        case OtherEvent =>
      }
      assert events[..|events|] == events;
      return false;
    }

    /** The bird's motion: gravity in manual play, the controller in auto play, nothing
        while waiting. Returns whether the auto mode's exit button ends the episode. */
    method Fly(exitPressed: bool, conv: real -> int) returns (home: bool)
      requires Valid()
      modifies this`bird, this`velocity
      ensures Valid()
      ensures home <==> !waiting && mode == Auto && exitPressed
      ensures waiting ==> bird == old(bird) && velocity == old(velocity)
      ensures !waiting && mode == Manual ==>
        velocity == old(velocity) + Gravity &&
        bird == old(bird).WithCenterY(conv(old(bird).CenterY() as real + velocity))
      ensures !waiting && mode == Auto ==>
        (bird, velocity) == Steer(old(bird), old(velocity), pipes, speed, conv)
    {
      home := false;
      if !waiting {
        if mode == Manual {
          velocity := velocity + Gravity;
          bird := bird.WithCenterY(conv(bird.CenterY() as real + velocity));
        } else {
          bird, velocity := AutoController(bird, velocity, pipes, speed, conv);
          home := exitPressed;
        }
      }
    }

    /** Scrolling and scoring: pipes always move; a running episode also scores and
        recomputes its speed from the score. */
    method Scroll()
      requires Valid()
      modifies this`pipes, this`score, this`speed, this`runningTicks
      ensures Valid()
      ensures pipes == Moved(old(pipes), old(speed))
      ensures waiting ==> pipes == [] && score == old(score) && speed == old(speed)
      ensures !waiting ==> score == old(score) + ScoreStep && speed == Difficulty(score)
    {
      pipes := MovePipes(pipes, speed);
      if !waiting {
        score := score + ScoreStep;
        runningTicks := runningTicks + 1;
        speed := Difficulty(score);
      }
    }

    /** The end of a tick: only a running manual episode can die, and a death records the
        high score. */
    method Judge() returns (outcome: TickOutcome)
      requires Valid()
      modifies this`highScore
      ensures Valid()
      ensures outcome != ReturnHome
      ensures outcome == GameOver <==> mode == Manual && !waiting && !Alive(pipes, bird)
      ensures outcome == GameOver ==> highScore == RMax(old(highScore), score)
      ensures outcome != GameOver ==> highScore == old(highScore)
    {
      var alive: bool;
      if mode == Manual && !waiting {
        alive := CheckCollision(pipes, bird);
      } else {
        alive := true;  // auto mode cannot die
      }
      if !alive {
        highScore := RMax(highScore, score);
        outcome := GameOver;
      } else {
        outcome := Continue;
      }
    }

    /** One pass of the game loop. `events` are the inputs drained this tick, `exitPressed`
        is the state of the auto mode's exit button, and `conv` is the conversion pygame
        applies when a real value is written into an integer rectangle field. */
    method Tick(events: seq<Event>, exitPressed: bool, conv: real -> int) returns (outcome: TickOutcome)
      requires Valid()
      modifies this
      ensures Valid()
      ensures speed >= BasePipeSpeed && speed == BasePipeSpeed + runningTicks / 2000
      ensures old(!waiting) ==> !waiting
      ensures mode == Auto ==> outcome != GameOver
      ensures outcome == GameOver ==> mode == Manual && !waiting && !Alive(pipes, bird)
      ensures outcome == GameOver ==> highScore == RMax(old(highScore), score)
      ensures outcome != GameOver ==> highScore == old(highScore)
      ensures Escape in events ==> outcome == ReturnHome
      ensures Escape !in events ==>
        var s := HandleEvents(mode, old(InputOf()), events);
        waiting == s.waiting &&
        (s.waiting ==>
          outcome == Continue && bird == old(bird) && velocity == s.velocity && pipes == [] &&
          score == old(score) && speed == old(speed)) &&
        (!s.waiting && mode == Manual ==>
          velocity == s.velocity + Gravity &&
          bird == old(bird).WithCenterY(conv(old(bird).CenterY() as real + velocity)) &&
          pipes == Moved(s.pipes, old(speed)) &&
          score == old(score) + ScoreStep && speed == Difficulty(score) &&
          outcome == (if Alive(pipes, bird) then Continue else GameOver)) &&
        (!s.waiting && mode == Auto ==>
          (bird, velocity) == Steer(old(bird), s.velocity, s.pipes, old(speed), conv) &&
          (outcome == ReturnHome <==> exitPressed) &&
          (!exitPressed ==>
            pipes == Moved(s.pipes, old(speed)) &&
            score == old(score) + ScoreStep && speed == Difficulty(score)))
    {
      var escaped := DrainEvents(events);
      if escaped {
        outcome := ReturnHome;
      } else {
        var home := Fly(exitPressed, conv);
        if home {
          outcome := ReturnHome;
        } else {
          Scroll();
          outcome := Judge();
        }
      }
      DifficultyAfterTicks(runningTicks);
    }
  }
}
