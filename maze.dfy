/** Maze Escape (assets/script.js:336-645): a 15x15 player moves through one of
    fifteen fixed wall layouts on a 400x300 canvas towards a 20x20 exit; reaching
    the exit puts the player back at the start and swaps in a new layout.
    Coordinates are integers throughout. */
module Maze {
  import opened Geometry

  const Width: int := 400
  const Height: int := 300
  const PlayerSize: int := 15
  const Speed: int := 3
  const StartX: int := 20
  const StartY: int := 20
  const ExitX: int := Width - 40
  const ExitY: int := Height - 40
  const ExitSize: int := 20
  const LayoutCount: int := 15

  /** One wall segment of a layout. */
  datatype Wall = Wall(x: int, y: int, w: int, h: int)

  /** A position of the player's top-left corner. */
  datatype Pos = Pos(x: int, y: int)

  /** Which of the four movement keys are held: w up, a left, s down, d right. */
  datatype Keys = Keys(w: bool, a: bool, s: bool, d: bool)

  function WallBox(wall: Wall): Box {
    Box(wall.x as real, wall.y as real, wall.w as real, wall.h as real)
  }

  function PlayerBox(p: Pos): Box {
    Box(p.x as real, p.y as real, PlayerSize as real, PlayerSize as real)
  }

  function ExitBoxAt(ex: int, ey: int): Box {
    Box(ex as real, ey as real, ExitSize as real, ExitSize as real)
  }

  predicate HitsWall(p: Pos, wall: Wall) {
    Overlaps(PlayerBox(p), WallBox(wall))
  }

  /** No wall of the layout overlaps the player placed at p. */
  predicate Free(walls: seq<Wall>, p: Pos) {
    forall i :: 0 <= i < |walls| ==> !HitsWall(p, walls[i])
  }

  /** The player placed at p lies wholly on the canvas. */
  predicate InCanvas(p: Pos) {
    0 <= p.x && p.x + PlayerSize <= Width && 0 <= p.y && p.y + PlayerSize <= Height
  }

  /** The player placed at p touches the exit square. */
  predicate AtExit(p: Pos) {
    Overlaps(PlayerBox(p), ExitBoxAt(ExitX, ExitY))
  }

  /** The fifteen wall layouts of generateMaze, in source order. */
  function Catalog(): (layouts: seq<seq<Wall>>)
    ensures |layouts| == LayoutCount
  {
    [
      // maze 1
      [ Wall(0, 0, 400, 20), Wall(0, 280, 400, 20), Wall(0, 0, 20, 300), Wall(380, 0, 20, 300),
        Wall(40, 40, 320, 20), Wall(40, 40, 20, 100), Wall(40, 120, 320, 20), Wall(340, 120, 20, 100),
        Wall(60, 200, 300, 20) ],
      // maze 2
      [ Wall(0, 0, 400, 20), Wall(0, 280, 400, 20), Wall(0, 0, 20, 300), Wall(380, 0, 20, 300),
        Wall(60, 50, 280, 20), Wall(60, 50, 20, 70), Wall(60, 100, 280, 20), Wall(320, 100, 20, 70),
        Wall(60, 150, 280, 20), Wall(60, 150, 20, 70), Wall(60, 200, 280, 20) ],
      // maze 3
      [ Wall(0, 0, 400, 20), Wall(0, 280, 400, 20), Wall(0, 0, 20, 300), Wall(380, 0, 20, 300),
        Wall(100, 40, 200, 20), Wall(100, 40, 20, 100), Wall(280, 40, 20, 100), Wall(40, 120, 320, 20),
        Wall(40, 120, 20, 100), Wall(340, 120, 20, 100), Wall(60, 200, 280, 20) ],
      // maze 4
      [ Wall(0, 0, 400, 20), Wall(0, 280, 400, 20), Wall(0, 0, 20, 300), Wall(380, 0, 20, 300),
        Wall(80, 60, 240, 20), Wall(180, 40, 20, 100), Wall(80, 120, 240, 20), Wall(80, 160, 240, 20),
        Wall(180, 140, 20, 100), Wall(80, 220, 240, 20) ],
      // maze 5
      [ Wall(0, 0, 400, 20), Wall(0, 280, 400, 20), Wall(0, 0, 20, 300), Wall(380, 0, 20, 300),
        Wall(50, 50, 300, 20), Wall(50, 50, 20, 80), Wall(50, 110, 300, 20), Wall(330, 110, 20, 80),
        Wall(70, 170, 260, 20), Wall(70, 170, 20, 60), Wall(70, 220, 260, 20) ],
      // maze 6
      [ Wall(0, 0, 400, 20), Wall(0, 280, 400, 20), Wall(0, 0, 20, 300), Wall(380, 0, 20, 300),
        Wall(100, 50, 200, 20), Wall(100, 50, 20, 80), Wall(280, 50, 20, 80), Wall(100, 110, 200, 20),
        Wall(60, 150, 280, 20), Wall(60, 150, 20, 80), Wall(320, 150, 20, 80), Wall(80, 220, 240, 20) ],
      // maze 7
      [ Wall(0, 0, 400, 20), Wall(0, 280, 400, 20), Wall(0, 0, 20, 300), Wall(380, 0, 20, 300),
        Wall(60, 50, 280, 20), Wall(60, 50, 20, 60), Wall(60, 90, 280, 20), Wall(320, 90, 20, 60),
        Wall(60, 130, 280, 20), Wall(60, 130, 20, 60), Wall(60, 170, 280, 20), Wall(320, 170, 20, 60),
        Wall(60, 220, 280, 20) ],
      // maze 8
      [ Wall(0, 0, 400, 20), Wall(0, 280, 400, 20), Wall(0, 0, 20, 300), Wall(380, 0, 20, 300),
        Wall(80, 50, 20, 80), Wall(160, 50, 20, 80), Wall(240, 50, 20, 80), Wall(320, 50, 20, 80),
        Wall(80, 110, 260, 20), Wall(80, 160, 20, 80), Wall(160, 160, 20, 80), Wall(240, 160, 20, 80),
        Wall(320, 160, 20, 80), Wall(80, 220, 260, 20) ],
      // maze 9
      [ Wall(0, 0, 400, 20), Wall(0, 280, 400, 20), Wall(0, 0, 20, 300), Wall(380, 0, 20, 300),
        Wall(80, 60, 240, 20), Wall(80, 60, 20, 100), Wall(300, 60, 20, 100), Wall(80, 140, 240, 20),
        Wall(120, 160, 160, 20), Wall(120, 160, 20, 80), Wall(260, 160, 20, 80) ],
      // maze 10
      [ Wall(0, 0, 400, 20), Wall(0, 280, 400, 20), Wall(0, 0, 20, 300), Wall(380, 0, 20, 300),
        Wall(60, 50, 280, 20), Wall(60, 50, 20, 70), Wall(140, 50, 20, 70), Wall(220, 50, 20, 70),
        Wall(300, 50, 20, 70), Wall(60, 100, 280, 20), Wall(100, 100, 20, 70), Wall(180, 100, 20, 70),
        Wall(260, 100, 20, 70), Wall(60, 160, 280, 20), Wall(80, 160, 20, 80), Wall(240, 160, 20, 80),
        Wall(60, 230, 280, 20) ],
      // maze 11
      [ Wall(0, 0, 400, 20), Wall(0, 280, 400, 20), Wall(0, 0, 20, 300), Wall(380, 0, 20, 300),
        Wall(40, 60, 320, 20), Wall(40, 60, 20, 80), Wall(340, 60, 20, 80), Wall(60, 120, 280, 20),
        Wall(60, 120, 20, 80), Wall(320, 120, 20, 80), Wall(80, 190, 240, 20) ],
      // maze 12
      [ Wall(0, 0, 400, 20), Wall(0, 280, 400, 20), Wall(0, 0, 20, 300), Wall(380, 0, 20, 300),
        Wall(50, 50, 300, 20), Wall(50, 50, 20, 60), Wall(50, 100, 300, 20), Wall(330, 100, 20, 60),
        Wall(70, 150, 260, 20), Wall(70, 150, 20, 60), Wall(70, 200, 260, 20) ],
      // maze 13
      [ Wall(0, 0, 400, 20), Wall(0, 280, 400, 20), Wall(0, 0, 20, 300), Wall(380, 0, 20, 300),
        Wall(60, 50, 280, 20), Wall(60, 50, 20, 60), Wall(320, 50, 20, 60), Wall(120, 100, 160, 20),
        Wall(120, 100, 20, 80), Wall(260, 100, 20, 80), Wall(60, 170, 280, 20), Wall(60, 170, 20, 60),
        Wall(320, 170, 20, 60) ],
      // maze 14
      [ Wall(0, 0, 400, 20), Wall(0, 280, 400, 20), Wall(0, 0, 20, 300), Wall(380, 0, 20, 300),
        Wall(50, 60, 300, 20), Wall(50, 60, 20, 100), Wall(330, 60, 20, 100), Wall(50, 140, 300, 20),
        Wall(100, 160, 200, 20), Wall(100, 160, 20, 80), Wall(280, 160, 20, 80) ],
      // maze 15
      [ Wall(0, 0, 400, 20), Wall(0, 280, 400, 20), Wall(0, 0, 20, 300), Wall(380, 0, 20, 300),
        Wall(40, 50, 320, 20), Wall(340, 50, 20, 70), Wall(60, 110, 280, 20), Wall(60, 110, 20, 70),
        Wall(60, 170, 280, 20), Wall(320, 170, 20, 70), Wall(80, 230, 240, 20) ]
    ]
  }

  /** Math.floor(Math.random() * 15) for a draw r in [0, 1). */
  function LayoutIndex(r: real): (k: int)
    requires 0.0 <= r < 1.0
    ensures 0 <= k < LayoutCount
    ensures k as real <= r * LayoutCount as real < (k + 1) as real
  {
    (r * LayoutCount as real).Floor
  }

  /** The start square is on the canvas and clear of every wall in every layout,
      so resetting the player after a new layout is drawn is always safe. */
  lemma StartIsFree(k: int)
    requires 0 <= k < LayoutCount
    ensures InCanvas(Pos(StartX, StartY)) && Free(Catalog()[k], Pos(StartX, StartY))
  {
  }

  /** Where the held keys ask to move: each key shifts one axis by Speed,
      and two opposite keys cancel. */
  function Tentative(p: Pos, k: Keys): (q: Pos)
    ensures k.d && !k.a ==> q.x == p.x + Speed
    ensures k.a && !k.d ==> q.x == p.x - Speed
    ensures k.a == k.d ==> q.x == p.x
    ensures k.s && !k.w ==> q.y == p.y + Speed
    ensures k.w && !k.s ==> q.y == p.y - Speed
    ensures k.w == k.s ==> q.y == p.y
  {
    Pos(p.x - (if k.a then Speed else 0) + (if k.d then Speed else 0),
        p.y - (if k.w then Speed else 0) + (if k.s then Speed else 0))
  }

  /** A tentative position the player may take: clear of walls and on the canvas. */
  predicate Accepts(walls: seq<Wall>, q: Pos) {
    Free(walls, q) && InCanvas(q)
  }

  /** The position after the move of one frame, before the exit is checked:
      the whole move is taken or the whole move is refused. */
  function Resolve(walls: seq<Wall>, p: Pos, k: Keys): (q: Pos)
    ensures q == Tentative(p, k) <==> Accepts(walls, Tentative(p, k)) || Tentative(p, k) == p
    ensures q != Tentative(p, k) ==> q == p
  {
    var t := Tentative(p, k);
    if Accepts(walls, t) then t else p
  }

  /** A frame's move never takes a player that is on the canvas and clear of
      the walls to a place that is not. */
  lemma ResolveKeepsSafe(walls: seq<Wall>, p: Pos, k: Keys)
    requires Accepts(walls, p)
    ensures Accepts(walls, Resolve(walls, p, k))
  {
  }

  /** The game state of the maze page: the player, the exit and the active layout. */
  class Game {
    var playerX: int
    var playerY: int
    var exitX: int
    var exitY: int
    var walls: seq<Wall>

    /** The exit never moves, the walls are always one of the catalog layouts,
        and the player is on the canvas and overlaps no wall. */
    ghost predicate Valid()
      reads this
    {
      exitX == ExitX && exitY == ExitY && walls in Catalog() &&
      Accepts(walls, Pos(playerX, playerY))
    }

    /** Page load: the player at the start and a first layout drawn with r. */
    constructor (r: real)
      requires 0.0 <= r < 1.0
      ensures Valid()
      ensures playerX == StartX && playerY == StartY
      ensures walls == Catalog()[LayoutIndex(r)]
    {
      playerX, playerY := StartX, StartY;
      exitX, exitY := ExitX, ExitY;
      walls := [];
      new;
      GenerateMaze(r);
      StartIsFree(LayoutIndex(r));
    }

    /** generateMaze: replace the walls by (a copy of) the layout that r
        selects, and put the exit back in the bottom-right corner. */
    method GenerateMaze(r: real)
      requires 0.0 <= r < 1.0
      modifies this`walls, this`exitX, this`exitY
      ensures walls == Catalog()[LayoutIndex(r)]
      ensures exitX == ExitX && exitY == ExitY
    {
      walls := [];
      var config := Catalog()[LayoutIndex(r)];
      walls := config;
      exitX := Width - 40;
      exitY := Height - 40;
    }

    /** The wall scan of update: is any wall overlapping the player placed at p?
        Stops at the first wall found. */
    method Collides(p: Pos) returns (collision: bool)
      ensures collision <==> !Free(walls, p)
    {
      collision := false;
      var i := 0;
      while i < |walls|
        invariant 0 <= i <= |walls|
        invariant forall j :: 0 <= j < i ==> !HitsWall(p, walls[j])
      {
        if HitsWall(p, walls[i]) {
          collision := true;
          break;
        }
        i := i + 1;
      }
    }

    /** The movement part of update: try the move the held keys ask for and
        take it only if the player then overlaps no wall and stays on the canvas. */
    method Move(keys: Keys)
      modifies this`playerX, this`playerY
      ensures Pos(playerX, playerY) == Resolve(walls, Pos(old(playerX), old(playerY)), keys)
    {
      var nx, ny := playerX, playerY;
      if keys.w { ny := ny - Speed; }
      if keys.s { ny := ny + Speed; }
      if keys.a { nx := nx - Speed; }
      if keys.d { nx := nx + Speed; }
      assert Pos(nx, ny) == Tentative(Pos(playerX, playerY), keys);

      var collision := Collides(Pos(nx, ny));
      if !collision && nx >= 0 && nx + PlayerSize <= Width && ny >= 0 && ny + PlayerSize <= Height {
        playerX := nx;
        playerY := ny;
      }
    }

    /** One frame of update with the held keys; r is the draw used if the
        exit is reached. */
    method Update(keys: Keys, r: real)
      requires Valid() && 0.0 <= r < 1.0
      modifies this
      ensures Valid()
      ensures var q := Resolve(old(walls), Pos(old(playerX), old(playerY)), keys);
        if AtExit(q) then
          playerX == StartX && playerY == StartY && walls == Catalog()[LayoutIndex(r)]
        else
          playerX == q.x && playerY == q.y && walls == old(walls)
    {
      Move(keys);
      ResolveKeepsSafe(walls, Pos(old(playerX), old(playerY)), keys);
      if Overlaps(PlayerBox(Pos(playerX, playerY)), ExitBoxAt(exitX, exitY)) {
        playerX := StartX;
        playerY := StartY;
        GenerateMaze(r);
        StartIsFree(LayoutIndex(r));
      }
    }
  }
}
