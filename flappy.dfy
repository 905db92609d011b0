/** Flappy Bird (assets/script.js:179-333): a 24x24 bird at x = 80 on a 500x350
    canvas falls under gravity, is lifted by flaps, and must pass through the
    100-pixel openings of pipes 60 wide that scroll in from the right. Heights
    and speeds are exact reals, the score is an integer; the Math.random draw
    of a spawn is the parameter r. */
module FlappyBird {
  import opened Geometry
  import opened Seqs

  const Width: real := 500.0
  const Height: real := 350.0
  const BirdX: real := 80.0
  const BirdSize: real := 24.0
  const StartY: real := Height / 2.0
  const Gravity: real := 0.5
  const FlapVelocity: real := -9.0
  const PipeWidth: real := 60.0
  const PipeGap: real := 100.0
  const MinTop: real := 50.0
  const MaxTop: real := Height - PipeGap - MinTop
  const ScrollStep: real := 5.0
  const SpawnInterval: int := 90

  /** A pipe pair: the opening spans top .. top + gap; scored is set once the
      bird has passed it. */
  datatype Pipe = Pipe(x: real, top: real, gap: real, scored: bool)

  function PipeX(p: Pipe): real { p.x }

  /** The pipe spawnPipe appends, at the right edge, for a draw r. */
  function NewPipe(r: real): (p: Pipe)
    requires 0.0 <= r < 1.0
    ensures p.x == Width && !p.scored && p.gap == PipeGap
    ensures MinTop <= p.top < MaxTop
  {
    Pipe(Width, MinTop + r * (MaxTop - MinTop), PipeGap, false)
  }

  /** The bird's columns overlap the pipe's. */
  predicate Alongside(p: Pipe) {
    SpansOverlap(BirdX, BirdSize, p.x, PipeWidth)
  }

  /** The bird at height y is wholly inside the opening of p. */
  predicate InOpening(y: real, p: Pipe) {
    p.top <= y && y + BirdSize <= p.top + p.gap
  }

  /** An unscored pipe the bird is alongside but not through: a crash. */
  predicate Crashes(y: real, p: Pipe) {
    !p.scored && Alongside(p) && !InOpening(y, p)
  }

  /** An unscored pipe whose trailing edge the bird has passed: a point. */
  predicate Passed(p: Pipe) {
    !p.scored && BirdX > p.x + PipeWidth
  }

  /** The bird at height y has left the canvas at the top or the bottom. */
  predicate OutOfRange(y: real) {
    y + BirdSize > Height || y < 0.0
  }

  /** The bird at height y crashes into none of the pipes of s. */
  predicate NoCrash(y: real, s: seq<Pipe>) {
    forall i :: 0 <= i < |s| ==> !Crashes(y, s[i])
  }

  /** Some part of p is still right of the canvas' left edge. */
  predicate OnScreen(p: Pipe) {
    p.x + PipeWidth > 0.0
  }

  /** A pipe after the scoring test: passed pipes get their flag, others are untouched. */
  function Mark(p: Pipe): Pipe {
    if Passed(p) then p.(scored := true) else p
  }

  /** Every pipe of s after the scoring test. */
  function Marked(s: seq<Pipe>): (r: seq<Pipe>)
    ensures |r| == |s|
    ensures forall i :: 0 <= i < |s| ==> r[i] == Mark(s[i])
  {
    seq(|s|, i requires 0 <= i < |s| => Mark(s[i]))
  }

  /** How many pipes of s score a point. */
  function CountPassed(s: seq<Pipe>): (n: nat)
    ensures n <= |s|
  {
    if s == [] then 0
    else (if Passed(s[0]) then 1 else 0) + CountPassed(s[1..])
  }

  /** How many pipes of s carry the scored flag. */
  function CountScored(s: seq<Pipe>): (n: nat)
    ensures n <= |s|
  {
    if s == [] then 0
    else (if s[0].scored then 1 else 0) + CountScored(s[1..])
  }

  /** Every point the scoring test awards is one flag going from false to true. */
  lemma {:induction false} MarkedScoresOnce(s: seq<Pipe>)
    ensures CountScored(Marked(s)) == CountScored(s) + CountPassed(s)
  {
    if s != [] {
      assert Marked(s)[1..] == Marked(s[1..]);
      MarkedScoresOnce(s[1..]);
    }
  }

  /** After the scoring test no pipe can score again: each pipe is worth one point at most. */
  lemma {:induction false} NothingPassesTwice(s: seq<Pipe>)
    ensures CountPassed(Marked(s)) == 0
  {
    if s != [] {
      assert Marked(s)[1..] == Marked(s[1..]);
      NothingPassesTwice(s[1..]);
    }
  }

  /** What the pipe loop of update carries from one pipe to the next. */
  datatype Tally = Tally(score: int, high: int, playing: bool)

  /** The pipe loop's treatment of one pipe: a crash ends the session and
      records the score so far as the high score if it is higher, then a
      passed pipe scores a point. */
  function Visit(y: real, t: Tally, p: Pipe): Tally {
    var t' := if Crashes(y, p) then Tally(t.score, MaxInt(t.high, t.score), false) else t;
    if Passed(p) then t'.(score := t'.score + 1) else t'
  }

  /** The pipe loop of update over the pipes s, front to back; it does not
      stop at a crash. */
  function PipeLoop(y: real, s: seq<Pipe>, t: Tally): Tally {
    if s == [] then t else PipeLoop(y, s[1..], Visit(y, t, s[0]))
  }

  /** The pipe loop scores one point per passed pipe. */
  lemma {:induction false} PipeLoopScore(y: real, s: seq<Pipe>, t: Tally)
    ensures PipeLoop(y, s, t).score == t.score + CountPassed(s)
  {
    if s != [] {
      PipeLoopScore(y, s[1..], Visit(y, t, s[0]));
    }
  }

  /** The session survives the pipe loop exactly when it was running and
      the bird crashes into none of the pipes. */
  lemma {:induction false} PipeLoopPlaying(y: real, s: seq<Pipe>, t: Tally)
    ensures PipeLoop(y, s, t).playing <==> t.playing && NoCrash(y, s)
  {
    if s != [] {
      PipeLoopPlaying(y, s[1..], Visit(y, t, s[0]));
      assert NoCrash(y, s) <==> !Crashes(y, s[0]) && NoCrash(y, s[1..]) by {
        assert forall k :: 0 <= k < |s| - 1 ==> s[1..][k] == s[k + 1];
        assert s == [s[0]] + s[1..];
      }
    }
  }

  /** The high score never drops in the pipe loop, is untouched unless the
      bird crashes, and is never more than the score reached. */
  lemma {:induction false} PipeLoopHigh(y: real, s: seq<Pipe>, t: Tally)
    ensures t.high <= PipeLoop(y, s, t).high <= MaxInt(t.high, PipeLoop(y, s, t).score)
    ensures PipeLoop(y, s, t).playing ==> PipeLoop(y, s, t).high == t.high
  {
    if s != [] {
      var t' := Visit(y, t, s[0]);
      PipeLoopHigh(y, s[1..], t');
      PipeLoopScore(y, s[1..], t');
      PipeLoopPlaying(y, s[1..], t');
    }
  }

  /** With the pipes in left-to-right order, no pipe after the one the bird
      crashed into can have been passed, so a session ended in the pipe loop
      records exactly the final score as the high score if it is higher.
      (!t.playing stands for a crash before s: then nothing in s scores and
      the high score already covers the score.) */
  lemma {:induction false} PipeLoopOrdered(y: real, s: seq<Pipe>, t: Tally)
    requires Ascending(s, PipeX)
    requires !t.playing ==> t.high >= t.score && forall k :: 0 <= k < |s| ==> !Passed(s[k])
    ensures !PipeLoop(y, s, t).playing ==> PipeLoop(y, s, t).high == MaxInt(t.high, PipeLoop(y, s, t).score)
  {
    if s != [] {
      var t' := Visit(y, t, s[0]);
      TailAscending(s, PipeX);
      if !t'.playing {
        forall k | 0 <= k < |s| - 1 ensures !Passed(s[1..][k]) {
          assert PipeX(s[0]) < PipeX(s[k + 1]);
        }
      }
      PipeLoopOrdered(y, s[1..], t');
      PipeLoopScore(y, s[1..], t');
    }
  }

  /** What the pipe loop of a running session comes to when the pipes are
      in left-to-right order: one point per passed pipe, the session ends
      exactly on a crash, and then the high score is the larger of the old
      high score and the final score. */
  lemma PipeLoopOutcome(y: real, s: seq<Pipe>, t: Tally)
    requires Ascending(s, PipeX) && t.playing
    ensures PipeLoop(y, s, t).score == t.score + CountPassed(s)
    ensures PipeLoop(y, s, t).playing <==> NoCrash(y, s)
    ensures PipeLoop(y, s, t).high ==
      if PipeLoop(y, s, t).playing then t.high else MaxInt(t.high, PipeLoop(y, s, t).score)
  {
    PipeLoopScore(y, s, t);
    PipeLoopPlaying(y, s, t);
    PipeLoopHigh(y, s, t);
    PipeLoopOrdered(y, s, t);
  }

  /** Out of order, the loop's failure to stop at a crash shows: a pipe
      passed after the crash scores a point the high score misses. */
  lemma UnorderedCrashMissesAPoint()
    ensures var t := PipeLoop(100.0, [Pipe(50.0, 0.0, PipeGap, false), Pipe(0.0, 0.0, PipeGap, false)], Tally(0, 0, true));
      !t.playing && t.high < t.score
  {
    var s := [Pipe(50.0, 0.0, PipeGap, false), Pipe(0.0, 0.0, PipeGap, false)];
    var t1 := Visit(100.0, Tally(0, 0, true), s[0]);
    assert Crashes(100.0, s[0]) && !Passed(s[0]);
    assert t1 == Tally(0, 0, false);
    assert !Crashes(100.0, s[1]) && Passed(s[1]);
    assert s[1..][1..] == [];
    assert PipeLoop(100.0, s, Tally(0, 0, true)) == PipeLoop(100.0, s[1..][1..], Visit(100.0, t1, s[1]));
  }

  /** The pipe test is not a box overlap: above the canvas and beside a pipe,
      the bird crashes although it overlaps neither of the pipe's two rectangles. */
  lemma CrashAboveCanvas()
    ensures var p := Pipe(70.0, 50.0, PipeGap, false);
      var bird := Box(BirdX, -30.0, BirdSize, BirdSize);
      Crashes(-30.0, p) &&
      !Overlaps(bird, Box(p.x, 0.0, PipeWidth, p.top)) &&
      !Overlaps(bird, Box(p.x, p.top + p.gap, PipeWidth, Height - p.top - p.gap))
  {
  }

  /** One frame of gravity; there is no floor, the bird keeps falling. */
  function Fall(m: Vertical): (n: Vertical)
    ensures n.vy == m.vy + Gravity
    ensures n.y - m.y == n.vy
  {
    var vy := m.vy + Gravity;
    Vertical(m.y + vy, vy)
  }

  /** The bird n frames after a reset when it never flaps. */
  function Drop(n: nat): Vertical {
    if n == 0 then Vertical(StartY, 0.0) else Fall(Drop(n - 1))
  }

  /** The height of a bird that never flapped, m frames after a reset. */
  function DropY(m: real): real {
    StartY + 0.25 * m * (m + 1.0)
  }

  /** Without flaps the bird falls on a parabola from the middle of the canvas. */
  lemma {:induction false} DropClosedForm(n: nat)
    ensures Drop(n) == Vertical(DropY(n as real), 0.5 * n as real)
  {
    if n > 0 {
      DropClosedForm(n - 1);
      var m := n as real;
      assert DropY(m - 1.0) + 0.5 * m == DropY(m);
    }
  }

  /** Without flaps the bird is lower on every frame. */
  lemma NoFlapKeepsFalling(n: nat)
    ensures Drop(n + 1).y > Drop(n).y
  {
    DropClosedForm(n);
  }

  /** The parabola stays on the canvas for its first 24 frames. */
  lemma DropYInRange(m: real)
    requires 0.0 <= m <= 24.0
    ensures 0.0 <= DropY(m) && DropY(m) + BirdSize <= Height
  {
    var k := m + 1.0;
    MulMonotone(m, 24.0, k);
    assert m * k <= 24.0 * k <= 600.0;
    assert m * k >= 0.0;
  }

  /** Without flaps the bird stays on the canvas for 24 frames after a reset. */
  lemma NoFlapInRange(n: nat)
    requires n <= 24
    ensures !OutOfRange(Drop(n).y)
  {
    DropClosedForm(n);
    DropYInRange(n as real);
  }

  lemma MulMonotone(a: real, b: real, c: real)
    requires a <= b && c >= 0.0
    ensures a * c <= b * c
  {
    assert (b - a) * c >= 0.0;
  }

  /** ... and has left it on the 25th, which ends the session. */
  lemma NoFlapOutOnFrame25()
    ensures OutOfRange(Drop(25).y)
  {
    DropClosedForm(25);
    assert DropY(25.0) == 337.5;
  }

  /** Every pipe moved left by the scroll step; nothing else about it changes. */
  function Scrolled(s: seq<Pipe>): (r: seq<Pipe>)
    ensures |r| == |s|
    ensures forall i :: 0 <= i < |s| ==> r[i] == s[i].(x := s[i].x - ScrollStep)
  {
    seq(|s|, i requires 0 <= i < |s| => s[i].(x := s[i].x - ScrollStep))
  }

  /** The list after a spawn on frame f (a spawn happens every 90th frame). */
  function AfterSpawn(pipes: seq<Pipe>, f: int, r: real): seq<Pipe>
    requires 0.0 <= r < 1.0
  {
    if f % SpawnInterval == 0 then pipes + [NewPipe(r)] else pipes
  }

  /** The pipes of frame f before the scoring test: spawned, scrolled and
      purged of those that left the screen. */
  function Advanced(pipes: seq<Pipe>, f: int, r: real): seq<Pipe>
    requires 0.0 <= r < 1.0
  {
    Filter(Scrolled(AfterSpawn(pipes, f, r)), OnScreen)
  }

  /** The pipe list between frames: ordered left to right, each on screen,
      left of the spawn point, and with an opening where spawnPipe puts one. */
  ghost predicate GoodPipes(s: seq<Pipe>) {
    Ascending(s, PipeX) &&
    forall p :: p in s ==>
      OnScreen(p) && p.x <= Width - ScrollStep && p.gap == PipeGap && MinTop <= p.top < MaxTop
  }

  /** The conditions GoodPipes puts on each pipe, with the spawn point as the
      bound on x before the scroll. */
  ghost predicate PipeShape(p: Pipe, maxX: real) {
    p.x <= maxX && p.gap == PipeGap && MinTop <= p.top < MaxTop
  }

  /** A spawn appends a pipe right of all others. */
  lemma SpawnKeepsOrder(pipes: seq<Pipe>, f: int, r: real)
    requires GoodPipes(pipes) && 0.0 <= r < 1.0
    ensures Ascending(AfterSpawn(pipes, f, r), PipeX)
    ensures forall p :: p in AfterSpawn(pipes, f, r) ==> PipeShape(p, Width)
  {
    var spawned := AfterSpawn(pipes, f, r);
    if f % SpawnInterval == 0 {
      forall i, j | 0 <= i < j < |spawned| ensures PipeX(spawned[i]) < PipeX(spawned[j]) {
        assert spawned[i] == pipes[i] && spawned[i] in pipes;
        if j < |pipes| {
          assert spawned[j] == pipes[j];
        }
      }
    }
  }

  /** Scrolling every pipe by the same step keeps their order and moves the
      spawn point out of reach. */
  lemma ScrollKeepsOrder(s: seq<Pipe>)
    requires Ascending(s, PipeX) && forall p :: p in s ==> PipeShape(p, Width)
    ensures Ascending(Scrolled(s), PipeX)
    ensures forall p :: p in Scrolled(s) ==> PipeShape(p, Width - ScrollStep)
  {
    var scrolled := Scrolled(s);
    forall i, j | 0 <= i < j < |scrolled| ensures PipeX(scrolled[i]) < PipeX(scrolled[j]) {
      assert PipeX(s[i]) < PipeX(s[j]);
    }
    forall p | p in scrolled ensures PipeShape(p, Width - ScrollStep) {
      var i :| 0 <= i < |scrolled| && scrolled[i] == p;
      assert s[i] in s;
    }
  }

  /** The scoring test changes flags only, so it keeps a good list good. */
  lemma MarkKeepsGood(s: seq<Pipe>)
    requires GoodPipes(s)
    ensures GoodPipes(Marked(s))
  {
    var marked := Marked(s);
    forall i, j | 0 <= i < j < |marked| ensures PipeX(marked[i]) < PipeX(marked[j]) {
      assert PipeX(s[i]) < PipeX(s[j]);
    }
    forall p | p in marked
      ensures OnScreen(p) && p.x <= Width - ScrollStep && p.gap == PipeGap && MinTop <= p.top < MaxTop
    {
      var i :| 0 <= i < |marked| && marked[i] == p;
      assert s[i] in s;
    }
  }

  /** A frame keeps the pipe list well formed. */
  lemma AdvancedIsGood(pipes: seq<Pipe>, f: int, r: real)
    requires GoodPipes(pipes) && 0.0 <= r < 1.0
    ensures GoodPipes(Advanced(pipes, f, r))
  {
    SpawnKeepsOrder(pipes, f, r);
    var scrolled := Scrolled(AfterSpawn(pipes, f, r));
    ScrollKeepsOrder(AfterSpawn(pipes, f, r));
    FilterAscending(scrolled, OnScreen, PipeX);
    var kept := Filter(scrolled, OnScreen);
    assert forall p :: p in kept ==> p in scrolled && OnScreen(p);
  }

  /** The state of the resume-page game. */
  class Game {
    var y: real
    var vy: real
    var score: int
    var high: int
    var playing: bool
    var gameOver: bool
    var frameCount: int
    var pipes: seq<Pipe>

    /** Between frames: a running session has the bird on the canvas, the
        game-over screen shows exactly when no session runs, and the pipe
        list is well formed. */
    ghost predicate Valid()
      reads this
    {
      frameCount >= 0 && score >= 0 && gameOver == !playing &&
      (playing ==> !OutOfRange(y)) && GoodPipes(pipes)
    }

    /** Page load: the stored high score is read, then reset() starts a session. */
    constructor (storedHigh: int)
      ensures Valid()
      ensures playing && !gameOver && score == 0 && frameCount == 0 && pipes == []
      ensures y == StartY && vy == 0.0 && high == storedHigh
    {
      playing := false;
      gameOver := false;
      score := 0;
      high := storedHigh;
      y := Height / 2.0;
      vy := 0.0;
      pipes := [];
      frameCount := 0;
      new;
      Reset();
    }

    /** reset: a fresh session with the bird in the middle and no pipes. */
    method Reset()
      modifies this
      ensures Valid()
      ensures playing && !gameOver && score == 0 && frameCount == 0 && pipes == []
      ensures y == StartY && vy == 0.0 && high == old(high)
    {
      score := 0;
      frameCount := 0;
      pipes := [];
      y := Height / 2.0;
      vy := 0.0;
      playing := true;
      gameOver := false;
    }

    /** flap (Space or a click): restart a finished session; otherwise set the
        bird's speed to the flap speed, whatever it was. */
    method Flap()
      requires Valid()
      modifies this
      ensures Valid()
      ensures !old(playing) ==>
        playing && !gameOver && score == 0 && frameCount == 0 && pipes == [] &&
        y == StartY && vy == 0.0 && high == old(high)
      ensures old(playing) ==>
        vy == FlapVelocity && playing && y == old(y) && score == old(score) &&
        frameCount == old(frameCount) && pipes == old(pipes) && high == old(high) &&
        gameOver == old(gameOver)
    {
      if !playing {
        Reset();
      } else {
        vy := FlapVelocity;
      }
    }

    /** spawnPipe: append the pipe the draw r selects. */
    method SpawnPipe(r: real)
      requires 0.0 <= r < 1.0
      modifies this`pipes
      ensures pipes == old(pipes) + [NewPipe(r)]
    {
      var gap := 100.0;
      var minH := 50.0;
      var maxH := Height - gap - minH;
      var h := minH + r * (maxH - minH);
      pipes := pipes + [Pipe(Width, h, gap, false)];
    }

    /** pipes.forEach(p => p.x -= 5): move every pipe left, in place. */
    method ScrollPipes()
      modifies this`pipes
      ensures pipes == Scrolled(old(pipes))
    {
      var i := 0;
      while i < |pipes|
        invariant 0 <= i <= |pipes| == |old(pipes)|
        invariant forall j :: 0 <= j < i ==> pipes[j] == old(pipes[j]).(x := old(pipes[j]).x - ScrollStep)
        invariant forall j :: i <= j < |pipes| ==> pipes[j] == old(pipes[j])
      {
        pipes := pipes[i := pipes[i].(x := pipes[i].x - 5.0)];
        i := i + 1;
      }
    }

    /** The pipe loop of update: a crash into an unscored pipe ends the session
        and records the score reached so far as the high score if it is higher;
        a passed unscored pipe is flagged and scores a point. The loop does not
        stop at a crash, so a later pipe in the list could still score after
        the high score was recorded; when the pipes are in left-to-right order,
        as the game keeps them, no pipe after a crash can have been passed. */
    method ScorePipes()
      requires playing && !gameOver
      modifies this`pipes, this`score, this`playing, this`gameOver, this`high
      ensures pipes == Marked(old(pipes))
      ensures Tally(score, high, playing) == PipeLoop(y, old(pipes), Tally(old(score), old(high), true))
      ensures gameOver == !playing
    {
      ghost var s, start := pipes, Tally(score, high, playing);
      var i := 0;
      while i < |pipes|
        invariant 0 <= i <= |pipes| == |s|
        invariant forall j :: 0 <= j < i ==> pipes[j] == Mark(s[j])
        invariant forall j :: i <= j < |s| ==> pipes[j] == s[j]
        invariant PipeLoop(y, s[i..], Tally(score, high, playing)) == PipeLoop(y, s, start)
        invariant gameOver == !playing
      {
        var p := pipes[i];
        assert s[i..] == [p] + s[i + 1..];
        if !p.scored && BirdX + BirdSize > p.x && BirdX < p.x + PipeWidth {
          if y < p.top || y + BirdSize > p.top + p.gap {
            playing := false;
            gameOver := true;
            high := MaxInt(high, score);
          }
        }
        if !p.scored && BirdX > p.x + PipeWidth {
          pipes := pipes[i := p.(scored := true)];
          score := score + 1;
        }
        i := i + 1;
      }
    }

    /** The pipe list part of update: spawn on every 90th frame, scroll, and
        purge the pipes that left the screen (pipes.filter). */
    method AdvancePipes(r: real)
      requires GoodPipes(pipes) && 0.0 <= r < 1.0
      modifies this`pipes
      ensures pipes == Advanced(old(pipes), frameCount, r)
      ensures GoodPipes(pipes)
    {
      if frameCount % SpawnInterval == 0 {
        SpawnPipe(r);
      }
      ScrollPipes();
      pipes := Filter(pipes, OnScreen);
      AdvancedIsGood(old(pipes), frameCount, r);
    }

    /** update: one frame. Nothing happens once the session is over; otherwise
        gravity acts, pipes spawn, scroll and are purged, the pipe loop scores
        and detects crashes, and leaving the canvas vertically ends the session. */
    method Update(r: real)
      requires Valid() && 0.0 <= r < 1.0
      modifies this
      ensures Valid()
      ensures !old(playing) ==> unchanged(this)
      ensures old(playing) ==>
        && frameCount == old(frameCount) + 1
        && Vertical(y, vy) == Fall(Vertical(old(y), old(vy)))
        && pipes == Marked(Advanced(old(pipes), frameCount, r))
        && score == old(score) + CountPassed(Advanced(old(pipes), frameCount, r))
        && (playing <==> !OutOfRange(y) && NoCrash(y, Advanced(old(pipes), frameCount, r)))
        && gameOver == !playing
        && high == (if playing then old(high) else MaxInt(old(high), score))
    {
      if !playing {
        return;
      }
      Step(r);
    }

    /** The bird's part of update: one more frame, and one frame of gravity. */
    method Fly()
      modifies this`frameCount, this`vy, this`y
      ensures frameCount == old(frameCount) + 1
      ensures Vertical(y, vy) == Fall(Vertical(old(y), old(vy)))
    {
      frameCount := frameCount + 1;
      vy := vy + Gravity;
      y := y + vy;
    }

    /** The end of update: leaving the canvas at the top or the bottom ends
        the session and records the high score. */
    method CheckBounds()
      modifies this`playing, this`gameOver, this`high
      ensures OutOfRange(y) ==> !playing && gameOver && high == MaxInt(old(high), score)
      ensures !OutOfRange(y) ==> playing == old(playing) && gameOver == old(gameOver) && high == old(high)
    {
      if y + BirdSize > Height || y < 0.0 {
        playing := false;
        gameOver := true;
        high := MaxInt(high, score);
      }
    }

    /** The pipe part of update for a running session: the list advances,
        then the pipe loop scores and detects crashes. */
    method PlayPipes(r: real)
      requires GoodPipes(pipes) && playing && !gameOver && 0.0 <= r < 1.0
      modifies this`pipes, this`score, this`playing, this`gameOver, this`high
      ensures GoodPipes(pipes)
      ensures pipes == Marked(Advanced(old(pipes), frameCount, r))
      ensures score == old(score) + CountPassed(Advanced(old(pipes), frameCount, r))
      ensures playing <==> NoCrash(y, Advanced(old(pipes), frameCount, r))
      ensures gameOver == !playing
      ensures high == if playing then old(high) else MaxInt(old(high), score)
    {
      ghost var advanced := Advanced(pipes, frameCount, r);
      AdvancePipes(r);
      ScorePipes();
      MarkKeepsGood(advanced);
      PipeLoopOutcome(y, advanced, Tally(old(score), old(high), true));
    }

    /** The body of update for a running session. */
    method Step(r: real)
      requires Valid() && playing && 0.0 <= r < 1.0
      modifies this
      ensures Valid()
      ensures frameCount == old(frameCount) + 1
      ensures Vertical(y, vy) == Fall(Vertical(old(y), old(vy)))
      ensures pipes == Marked(Advanced(old(pipes), frameCount, r))
      ensures score == old(score) + CountPassed(Advanced(old(pipes), frameCount, r))
      ensures playing <==> !OutOfRange(y) && NoCrash(y, Advanced(old(pipes), frameCount, r))
      ensures gameOver == !playing
      ensures high == (if playing then old(high) else MaxInt(old(high), score))
    {
      Fly();
      PlayPipes(r);
      CheckBounds();
    }
  }
}
