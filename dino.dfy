/** Dino Jump (assets/script.js:54-177): a 30x30 avatar on a 720x160 canvas
    jumps over ground obstacles and passes under flying ones that scroll in
    from the right, faster as the score grows. Positions and the score are exact reals;
    the two Math.random draws of a spawn are the parameters r1 and r2. */
module DinoJump {
  import opened Geometry
  import opened Seqs

  const Width: real := 720.0
  const GroundY: real := 120.0
  const Gravity: real := 0.6
  const JumpVelocity: real := -11.0
  const DinoX: real := 50.0
  const DinoSize: real := 30.0
  /** The dino's y while standing on the ground. */
  const Rest: real := GroundY - DinoSize
  const ObstacleWidth: real := 20.0
  const FlyingChance: real := 0.3
  const SpawnInterval: int := 60
  const ScorePerFrame: real := 0.1

  datatype Obstacle = Obstacle(x: real, y: real, w: real, h: real, isFlying: bool)

  function ObstacleX(o: Obstacle): real { o.x }

  function DinoBox(y: real): Box { Box(DinoX, y, DinoSize, DinoSize) }

  function ObstacleBox(o: Obstacle): Box { Box(o.x, o.y, o.w, o.h) }

  /** The dino at height y touches obstacle o. */
  predicate Hits(y: real, o: Obstacle) {
    Overlaps(DinoBox(y), ObstacleBox(o))
  }

  /** Some part of o is still right of the canvas' left edge. */
  predicate OnScreen(o: Obstacle) {
    o.x + o.w > 0.0
  }

  /** The two shapes spawnObstacle makes: a 20x20 flyer 60 above the ground
      line, or a 20x30 block standing on it. */
  predicate WellShaped(o: Obstacle) {
    o.w == ObstacleWidth &&
    if o.isFlying then o.y == GroundY - 60.0 && o.h == 20.0
    else o.y == GroundY - 30.0 && o.h == 30.0
  }

  /** The distance drawn between consecutive obstacles, for a draw r. */
  function Gap(r: real, score: real): (g: real)
    requires 0.0 <= r < 1.0
    ensures 300.0 <= g <= 500.0
  {
    var spread := 400.0 - Min(300.0, score);
    assert r * spread >= 0.0 by {
      assert spread >= 100.0;
    }
    300.0 + Min(200.0, r * spread)
  }

  /** For the same draw, a higher score never widens the gap. */
  lemma GapShrinks(r: real, low: real, high: real)
    requires 0.0 <= r < 1.0 && low <= high
    ensures Gap(r, high) <= Gap(r, low)
  {
    var a, b := 400.0 - Min(300.0, high), 400.0 - Min(300.0, low);
    assert b - a >= 0.0;
    assert r * (b - a) >= 0.0;
    assert r * b - r * a == r * (b - a);
    assert r * a <= r * b;
  }

  /** The x of the last obstacle, or the canvas width when there is none. */
  function LastX(obstacles: seq<Obstacle>): real {
    if obstacles == [] then Width else obstacles[|obstacles| - 1].x
  }

  /** The obstacle spawnObstacle appends, for the draws r1 (kind) and r2 (gap). */
  function NewObstacle(obstacles: seq<Obstacle>, score: real, r1: real, r2: real): (o: Obstacle)
    requires 0.0 <= r1 < 1.0 && 0.0 <= r2 < 1.0
    ensures WellShaped(o)
    ensures o.isFlying <==> r1 < FlyingChance
    ensures o.x >= Width && o.x >= LastX(obstacles) + 300.0
    ensures o.x <= Max(Width, LastX(obstacles) + 500.0)
  {
    var isFlying := r1 < FlyingChance;
    var h := if isFlying then 20.0 else 30.0;
    var y := if isFlying then GroundY - 60.0 else GroundY - h;
    var gap := Gap(r2, score);
    Obstacle(Max(Width, LastX(obstacles) + gap), y, ObstacleWidth, h, isFlying)
  }

  /** The scroll speed: 6 pixels per frame, one more for every 50 points, at most 12. */
  function Speed(score: real): (v: int)
    ensures score >= 0.0 ==> 6 <= v <= 12
    ensures score >= 300.0 ==> v == 12
  {
    6 + MinInt(6, (score / 50.0).Floor)
  }

  /** The scroll speed never drops as the score rises. */
  lemma SpeedRises(low: real, high: real)
    requires low <= high
    ensures Speed(low) <= Speed(high)
  {
    assert low / 50.0 <= high / 50.0;
  }

  /** One frame of gravity: accelerate, move, and clamp to the ground,
      stopping the fall when the clamp fires. */
  function Fall(m: Vertical): (n: Vertical)
    ensures n.y <= Rest
    ensures m.y + m.vy + Gravity > Rest ==> n == Vertical(Rest, 0.0)
    ensures m.y + m.vy + Gravity <= Rest ==> n == Vertical(m.y + m.vy + Gravity, m.vy + Gravity)
  {
    var vy := m.vy + Gravity;
    var y := m.y + vy;
    if y > Rest then Vertical(Rest, 0.0) else Vertical(y, vy)
  }

  /** n frames of gravity from m. */
  function Flight(m: Vertical, n: nat): Vertical {
    if n == 0 then m else Fall(Flight(m, n - 1))
  }

  /** A standing dino stays on the ground. */
  lemma StandingIsStable(n: nat)
    ensures Flight(Vertical(Rest, 0.0), n) == Vertical(Rest, 0.0)
  {
  }

  /** The height on the parabola of a jump, m frames after take-off. */
  function ArcY(m: real): real {
    Rest - 11.0 * m + 0.3 * m * (m + 1.0)
  }

  /** One frame further along the parabola, with the speed of that frame. */
  lemma ArcStep(m: real)
    ensures ArcY(m - 1.0) + (JumpVelocity + 0.6 * m) == ArcY(m)
  {
  }

  /** While fewer than 36 frames have passed the parabola stays above the ground. */
  lemma ArcAboveGround(m: real)
    requires 0.0 < m <= 35.0
    ensures ArcY(m) < Rest
  {
    assert ArcY(m) - Rest == m * (0.3 * (m + 1.0) - 11.0);
    assert 0.3 * (m + 1.0) - 11.0 < 0.0;
  }

  /** The arc of a jump from the ground: for 35 frames the dino is in the air
      on the parabola ArcY, and on the 36th it lands and stops. */
  lemma {:induction false} JumpArc(n: nat)
    requires n <= 35
    ensures Flight(Vertical(Rest, JumpVelocity), n) == Vertical(ArcY(n as real), JumpVelocity + 0.6 * n as real)
  {
    if n > 0 {
      JumpArc(n - 1);
      ArcStep(n as real);
      ArcAboveGround(n as real);
    }
  }

  /** A jump lands on its 36th frame: the parabola would dip below the ground,
      so the clamp puts the dino back on it at rest. */
  lemma JumpLands()
    ensures Flight(Vertical(Rest, JumpVelocity), 36) == Vertical(Rest, 0.0)
  {
    JumpArc(35);
    ArcStep(36.0);
    assert ArcY(36.0) > Rest;
  }

  /** Every obstacle moved left by d; nothing else about it changes. */
  function Scrolled(s: seq<Obstacle>, d: real): (r: seq<Obstacle>)
    ensures |r| == |s|
    ensures forall i :: 0 <= i < |s| ==> r[i] == s[i].(x := s[i].x - d)
  {
    seq(|s|, i requires 0 <= i < |s| => s[i].(x := s[i].x - d))
  }

  /** The list after a spawn on frame t (a spawn happens every 60th frame). */
  function AfterSpawn(obstacles: seq<Obstacle>, t: int, score: real, r1: real, r2: real): seq<Obstacle>
    requires 0.0 <= r1 < 1.0 && 0.0 <= r2 < 1.0
  {
    if t % SpawnInterval == 0 then obstacles + [NewObstacle(obstacles, score, r1, r2)] else obstacles
  }

  /** The obstacles of frame t: spawned, scrolled at the speed of the score,
      and purged of those that left the screen. */
  function Advanced(obstacles: seq<Obstacle>, t: int, score: real, r1: real, r2: real): seq<Obstacle>
    requires 0.0 <= r1 < 1.0 && 0.0 <= r2 < 1.0
  {
    Filter(Scrolled(AfterSpawn(obstacles, t, score, r1, r2), Speed(score) as real), OnScreen)
  }

  /** The obstacle list between frames: ordered left to right, each of a
      spawnable shape and still on screen. */
  ghost predicate GoodObstacles(s: seq<Obstacle>) {
    Ascending(s, ObstacleX) && forall o :: o in s ==> WellShaped(o) && OnScreen(o)
  }

  /** A frame keeps the obstacle list well formed. */
  lemma AdvancedIsGood(obstacles: seq<Obstacle>, t: int, score: real, r1: real, r2: real)
    requires GoodObstacles(obstacles)
    requires 0.0 <= r1 < 1.0 && 0.0 <= r2 < 1.0
    ensures GoodObstacles(Advanced(obstacles, t, score, r1, r2))
  {
    var spawned := AfterSpawn(obstacles, t, score, r1, r2);
    if t % SpawnInterval == 0 {
      var o := NewObstacle(obstacles, score, r1, r2);
      forall i | 0 <= i < |obstacles| ensures obstacles[i].x <= LastX(obstacles) {
        if i < |obstacles| - 1 {
          assert ObstacleX(obstacles[i]) < ObstacleX(obstacles[|obstacles| - 1]);
        }
      }
      forall i, j | 0 <= i < j < |spawned| ensures ObstacleX(spawned[i]) < ObstacleX(spawned[j]) {
        if j == |obstacles| {
          assert spawned[i] == obstacles[i];
        } else {
          assert spawned[i] == obstacles[i] && spawned[j] == obstacles[j];
          assert ObstacleX(obstacles[i]) < ObstacleX(obstacles[j]);
        }
      }
    }
    assert Ascending(spawned, ObstacleX);
    assert forall o :: o in spawned ==> WellShaped(o);
    var d := Speed(score) as real;
    var scrolled := Scrolled(spawned, d);
    forall i, j | 0 <= i < j < |scrolled| ensures ObstacleX(scrolled[i]) < ObstacleX(scrolled[j]) {
      assert ObstacleX(spawned[i]) < ObstacleX(spawned[j]);
    }
    forall o | o in scrolled ensures WellShaped(o) {
      var i :| 0 <= i < |scrolled| && scrolled[i] == o;
      assert spawned[i] in spawned;
    }
    FilterAscending(scrolled, OnScreen, ObstacleX);
  }

  /** The state of the home-page game. */
  class Game {
    var y: real
    var vy: real
    var score: real
    var high: int
    var playing: bool
    var t: int
    var obstacles: seq<Obstacle>

    /** Between frames: the dino is not below the ground, the score and the
        frame count are not negative, and the obstacle list is well formed. */
    ghost predicate Valid()
      reads this
    {
      y <= Rest && score >= 0.0 && t >= 0 && GoodObstacles(obstacles)
    }

    /** Page load: the stored high score is read, then reset() starts a session. */
    constructor (storedHigh: int)
      ensures Valid()
      ensures playing && score == 0.0 && t == 0 && obstacles == []
      ensures y == Rest && vy == 0.0 && high == storedHigh
    {
      playing := false;
      score := 0.0;
      high := storedHigh;
      y := Rest;
      vy := 0.0;
      obstacles := [];
      t := 0;
      new;
      Reset();
    }

    /** reset: a fresh session with the dino standing and no obstacles. */
    method Reset()
      modifies this
      ensures Valid()
      ensures playing && score == 0.0 && t == 0 && obstacles == []
      ensures y == Rest && vy == 0.0 && high == old(high)
    {
      score := 0.0;
      t := 0;
      obstacles := [];
      y := GroundY - DinoSize;
      vy := 0.0;
      playing := true;
    }

    /** dino.jump: take off only when (within half a pixel of) standing. */
    method Jump()
      modifies this`vy
      ensures old(y) >= Rest - 0.5 ==> vy == JumpVelocity
      ensures old(y) < Rest - 0.5 ==> vy == old(vy)
    {
      if y >= GroundY - DinoSize - 0.5 {
        vy := -11.0;
      }
    }

    /** onJump (Space or a tap): restart a finished session, otherwise jump. */
    method OnJump()
      requires Valid()
      modifies this
      ensures Valid()
      ensures !old(playing) ==>
        playing && score == 0.0 && t == 0 && obstacles == [] &&
        y == Rest && vy == 0.0 && high == old(high)
      ensures old(playing) ==>
        playing && score == old(score) && t == old(t) && obstacles == old(obstacles) &&
        y == old(y) && high == old(high) &&
        vy == (if old(y) >= Rest - 0.5 then JumpVelocity else old(vy))
    {
      if !playing {
        Reset();
      } else {
        Jump();
      }
    }

    /** spawnObstacle: append the obstacle the draws r1 and r2 select. */
    method SpawnObstacle(r1: real, r2: real)
      requires 0.0 <= r1 < 1.0 && 0.0 <= r2 < 1.0
      modifies this`obstacles
      ensures obstacles == old(obstacles) + [NewObstacle(old(obstacles), score, r1, r2)]
    {
      var isFlying := r1 < FlyingChance;
      var h := if isFlying then 20.0 else 30.0;
      var w := ObstacleWidth;
      var oy := if isFlying then GroundY - 60.0 else GroundY - h;
      var gap := Gap(r2, score);
      var lastX := if |obstacles| > 0 then obstacles[|obstacles| - 1].x else Width;
      obstacles := obstacles + [Obstacle(Max(Width, lastX + gap), oy, w, h, isFlying)];
    }

    /** obstacles.forEach(o => o.x -= d): move every obstacle left by d, in place. */
    method ScrollBy(d: real)
      modifies this`obstacles
      ensures obstacles == Scrolled(old(obstacles), d)
    {
      var i := 0;
      while i < |obstacles|
        invariant 0 <= i <= |obstacles| == |old(obstacles)|
        invariant forall j :: 0 <= j < i ==> obstacles[j] == old(obstacles[j]).(x := old(obstacles[j]).x - d)
        invariant forall j :: i <= j < |obstacles| ==> obstacles[j] == old(obstacles[j])
      {
        obstacles := obstacles[i := obstacles[i].(x := obstacles[i].x - d)];
        i := i + 1;
      }
    }

    /** The collision loop of update: every obstacle the dino touches ends the
        session and records the floored score as the high score if it is higher.
        The loop does not stop at the first hit. */
    method CheckCollisions()
      requires playing
      modifies this`playing, this`high
      ensures playing <==> forall o :: o in obstacles ==> !Hits(y, o)
      ensures high == if playing then old(high) else MaxInt(old(high), score.Floor)
    {
      for k := 0 to |obstacles|
        invariant playing <==> forall j :: 0 <= j < k ==> !Hits(y, obstacles[j])
        invariant high == if playing then old(high) else MaxInt(old(high), score.Floor)
      {
        if Hits(y, obstacles[k]) {
          playing := false;
          high := MaxInt(high, score.Floor);
        }
        assert Hits(y, obstacles[k]) ==> !playing;
      }
    }

    /** The dino's part of update: one more frame, a tenth of a point, and
        one frame of gravity with the ground as the floor. */
    method Run()
      modifies this`t, this`score, this`vy, this`y
      ensures t == old(t) + 1 && score == old(score) + ScorePerFrame
      ensures Vertical(y, vy) == Fall(Vertical(old(y), old(vy)))
    {
      t := t + 1;
      score := score + 0.1;
      vy := vy + Gravity;
      y := y + vy;
      if y > GroundY - DinoSize {
        y := GroundY - DinoSize;
        vy := 0.0;
      }
    }

    /** The obstacle list part of update: spawn on every 60th frame, scroll
        at the current speed, and purge what left the screen (obstacles.filter). */
    method AdvanceObstacles(r1: real, r2: real)
      requires GoodObstacles(obstacles) && score >= 0.0
      requires 0.0 <= r1 < 1.0 && 0.0 <= r2 < 1.0
      modifies this`obstacles
      ensures obstacles == Advanced(old(obstacles), t, score, r1, r2)
      ensures GoodObstacles(obstacles)
    {
      if t % SpawnInterval == 0 {
        SpawnObstacle(r1, r2);
      }
      assert obstacles == AfterSpawn(old(obstacles), t, score, r1, r2);
      var speed := Speed(score);
      ScrollBy(speed as real);
      obstacles := Filter(obstacles, OnScreen);
      AdvancedIsGood(old(obstacles), t, score, r1, r2);
    }

    /** update: one frame. Nothing happens once the session is over; otherwise
        the score grows, gravity acts, obstacles spawn, scroll and are purged,
        and touching any obstacle ends the session and records the high score. */
    method Update(r1: real, r2: real)
      requires Valid()
      requires 0.0 <= r1 < 1.0 && 0.0 <= r2 < 1.0
      modifies this
      ensures Valid()
      ensures !old(playing) ==> unchanged(this)
      ensures old(playing) ==>
        && t == old(t) + 1
        && score == old(score) + ScorePerFrame
        && Vertical(y, vy) == Fall(Vertical(old(y), old(vy)))
        && obstacles == Advanced(old(obstacles), t, score, r1, r2)
        && (playing <==> forall o :: o in obstacles ==> !Hits(y, o))
        && high == (if playing then old(high) else MaxInt(old(high), score.Floor))
    {
      if !playing {
        return;
      }
      Step(r1, r2);
    }

    /** The body of update for a running session. */
    method Step(r1: real, r2: real)
      requires Valid() && playing
      requires 0.0 <= r1 < 1.0 && 0.0 <= r2 < 1.0
      modifies this
      ensures Valid()
      ensures t == old(t) + 1
      ensures score == old(score) + ScorePerFrame
      ensures Vertical(y, vy) == Fall(Vertical(old(y), old(vy)))
      ensures obstacles == Advanced(old(obstacles), t, score, r1, r2)
      ensures playing <==> forall o :: o in obstacles ==> !Hits(y, o)
      ensures high == if playing then old(high) else MaxInt(old(high), score.Floor)
    {
      Run();
      AdvanceObstacles(r1, r2);
      CheckCollisions();
    }
  }
}
