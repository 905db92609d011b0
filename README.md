# Portfolio mini-games, per-frame logic

A Dafny model of the game logic in `assets/script.js`, the script of a personal portfolio site. Each of three pages embeds a canvas mini-game:

- **Maze Escape** (projects page). A 15x15 player is steered with W/A/S/D through one of fifteen fixed wall layouts towards a 20x20 exit. Reaching the exit puts the player back at the start and swaps in a new layout.
- **Dino Jump** (home page). An avatar jumps over obstacles that scroll in from the right, faster as the score grows.
- **Flappy Bird** (resume page). A bird falls under gravity, is lifted by flaps, and must pass through the openings of scrolling pipes.

Each game keeps its state in variables closed over by its functions; `update` runs once per animation frame. The model makes each game a `class` with those variables as fields, and its functions as methods:

- `update` becomes `Update`, cut into sub-methods that follow its phases: move, advance the list, check collisions.
- `reset`, `spawnObstacle`/`spawnPipe`, `jump`/`onJump`, `flap` and `generateMaze` are methods of the same names.
- Obstacles and pipes are datatype values held in a `seq` field.
- The in-place `forEach(o => o.x -= …)` and the `p.scored = true` become loops that rewrite element `i`.
- `filter` becomes the generic `Seqs.Filter`.

Each method is proved against specification functions:

- `Resolve` (maze move), `Fall` (gravity), `Advanced` (spawn, scroll and purge of one frame), `Marked` (the scoring flags), `PipeLoop` (the flappy pipe loop).
- Lemmas about these functions state what the games promise:
  - a maze move is taken whole or refused whole;
  - the player never ends in a wall or off the canvas;
  - a jump lands after exactly 36 frames;
  - a bird that never flaps leaves the canvas on frame 25;
  - the obstacle and pipe lists stay ordered left to right and on screen;
  - each pipe scores at most once;
  - a session's end records the larger of the old high score and the final score.

The bounding-box overlap test written out inline for the dino (line 122) and twice for the maze (lines 610 and 621) is `Geometry.Overlaps`. It is proved equivalent, for boxes of positive size, to "some point lies inside both boxes". Flappy's pipe test (lines 239-240) shares only its horizontal half, `Geometry.SpansOverlap`. Its vertical half asks whether the bird is wholly inside the opening, so it is not a box overlap: a bird above the canvas beside a pipe crashes without overlapping either pipe rectangle (`FlappyBird.CrashAboveCanvas`).

Conventions:

- The maze works on integers.
- Dino and flappy heights, speeds and the dino score are exact reals.
- Every `Math.random()` draw is a parameter `r` with `0 <= r < 1`.
- Held keys are a `Keys` value.
- A jump or flap is a method call.
- The `high` values read from and written to `localStorage` are a plain field; the constructor takes the stored value.

Two behaviours of the script are kept as written:

- **Flappy's pipe loop does not stop at a crash.** A pipe later in the list can still score after the crash has recorded the high score. Out of order this would leave the high score a point short (`FlappyBird.UnorderedCrashMissesAPoint`). The game only appends pipes at the right edge and scrolls them all alike, so the list is always ordered (`FlappyBird.GoodPipes`, kept by `FlappyBird.AdvancedIsGood`). With that order, the high score is exactly the larger of the old high score and the final score (`FlappyBird.PipeLoopOrdered`).
- **Flappy's collision floor is the canvas bottom (350).** It is not the strip drawn 30 pixels above it.

## Model

| member | source | states |
|---|---|---|
| Geometry.Overlaps | assets/script.js:122 | the inline bounding-box test of the dino and the maze: the boxes' spans overlap on both axes, edges that only touch do not count |
| Geometry.OverlapsIffCommonPoint | assets/script.js:610 | two boxes of positive size pass the inline overlap test exactly when some point lies strictly inside both (both directions) |
| Geometry.Min | assets/script.js:104 | Math.min: the result is one of the arguments and no larger than either |
| Geometry.Max | assets/script.js:106 | Math.max: the result is one of the arguments and no smaller than either |
| Geometry.MinInt | assets/script.js:117 | Math.min on the integer speed bonus: the same function as Geometry.Min at type int, one of the arguments and no larger than either |
| Geometry.MaxInt | assets/script.js:124 | Math.max on high scores: the same function as Geometry.Max at type int, one of the arguments and no smaller than either |
| Seqs.Filter | assets/script.js:119 | filter keeps exactly the elements that satisfy the predicate, never more elements than it was given |
| Seqs.FilterAppend | assets/script.js:236 | filtering distributes over concatenation, i.e. it works element by element in order |
| Seqs.FilterAscending | assets/script.js:236 | filtering a list ordered by a key leaves it ordered |
| Maze.HitsWall | assets/script.js:610 | the player placed at p overlaps the wall: `Geometry.Overlaps` of the 15x15 player box and the wall box, the inline test |
| Maze.Free | assets/script.js:608-614 | no wall of the layout overlaps the player at p: the wall scan ends with collision still false |
| Maze.InCanvas | assets/script.js:616 | the player box lies within the 400x300 canvas: 0 <= x, x + 15 <= 400, 0 <= y, y + 15 <= 300 |
| Maze.Accepts | assets/script.js:616 | the move is taken exactly when there is no collision and the player stays inside the canvas |
| Maze.AtExit | assets/script.js:621 | the player box overlaps the 20x20 exit at (360, 260) |
| Maze.Catalog | assets/script.js:366-588 | the fifteen wall layouts of generateMaze, in source order |
| Maze.LayoutIndex | assets/script.js:589 | Math.floor(r * 15) is a valid layout index in 0..14 and is the floor of r * 15 |
| Maze.StartIsFree | assets/script.js:360 | the start square (20, 20) is on the canvas and overlaps no wall of any of the fifteen layouts |
| Maze.Tentative | assets/script.js:600-606 | each held key shifts one axis by 3 and two opposite keys cancel |
| Maze.Resolve | assets/script.js:608-619 | the player ends at the tentative position exactly when it is clear of walls and on the canvas (or no move was asked); otherwise both coordinates stay, so there is no sliding along one axis |
| Maze.ResolveKeepsSafe | assets/script.js:608-619 | a player on the canvas and clear of the walls stays so after any move |
| Maze.Game.constructor | assets/script.js:360-361 | page load: the player at (20, 20), the exit at (360, 260), walls the layout floor(r * 15) |
| Maze.Game.GenerateMaze | assets/script.js:364-593 | walls become (a copy of) catalog layout floor(r * 15) and the exit is put back at (360, 260) |
| Maze.Game.Collides | assets/script.js:608-614 | the wall scan, which stops at the first hit, reports a collision exactly when some wall overlaps the tentative position |
| Maze.Game.Move | assets/script.js:599-619 | the player's new position is Resolve of the old position and the held keys |
| Maze.Game.Update | assets/script.js:599-626 | a frame keeps the player on the canvas and clear of the walls; touching the exit after the move resets the player to (20, 20) with layout floor(r * 15), otherwise the player is at the resolved position and the walls are unchanged |
| DinoJump.OnScreen | assets/script.js:119 | the filter keeps an obstacle while its right edge x + w is past 0 |
| DinoJump.LastX | assets/script.js:105 | the x of the last obstacle, or the canvas width 720 when there is none |
| DinoJump.Gap | assets/script.js:104 | the spawn gap lies in [300, 500] for every score |
| DinoJump.GapShrinks | assets/script.js:104 | for the same draw, a higher score never gives a wider gap |
| DinoJump.NewObstacle | assets/script.js:99-106 | the spawned obstacle is a 20x20 flyer at y 60 exactly when r1 < 0.3, otherwise a 20x30 block at y 90; its x is at least 720 and at least 300 past the last obstacle, and at most the larger of 720 and 500 past it |
| DinoJump.Speed | assets/script.js:117 | the scroll speed lies in [6, 12] for a non-negative score and is 12 from score 300 on |
| DinoJump.SpeedRises | assets/script.js:117 | the scroll speed never drops as the score rises |
| DinoJump.Fall | assets/script.js:113 | after a frame of gravity the dino is never below the ground; when the clamp fires it stands on the ground at speed 0, otherwise it moved by its new speed |
| DinoJump.StandingIsStable | assets/script.js:113 | a dino standing on the ground stays there, frame after frame |
| DinoJump.JumpArc | assets/script.js:91 | for 35 frames after a take-off from the ground the dino follows the parabola 90 - 11m + 0.3m(m+1) with speed -11 + 0.6m |
| DinoJump.JumpLands | assets/script.js:113 | a jump lands on its 36th frame, standing on the ground at speed 0 |
| DinoJump.Hits | assets/script.js:122 | the dino at height y touches obstacle o: their boxes pass Overlaps |
| DinoJump.AfterSpawn | assets/script.js:115 | the list after the spawn test of frame t: NewObstacle appended exactly when t is a multiple of 60 |
| DinoJump.Advanced | assets/script.js:115-119 | the obstacles of frame t: spawned, scrolled at Speed(score), and purged of those with x + w <= 0 |
| DinoJump.Scrolled | assets/script.js:118 | scrolling moves every obstacle left by the same distance and changes nothing else about it |
| DinoJump.AdvancedIsGood | assets/script.js:115-119 | spawn, scroll and purge keep the obstacle list ordered left to right, of spawnable shapes, and on screen |
| DinoJump.Game.constructor | assets/script.js:87 | page load: the stored high score is read (line 87) and reset() starts a fresh session (line 175) |
| DinoJump.Game.Reset | assets/script.js:95-97 | a fresh session: score 0, frame 0, no obstacles, the dino standing at rest, playing; the high score is kept |
| DinoJump.Game.Jump | assets/script.js:91 | the speed becomes -11 exactly when the dino is within half a pixel of the ground; otherwise nothing changes |
| DinoJump.Game.OnJump | assets/script.js:171 | when no session runs a fresh one starts; otherwise only the speed may change, as Jump says |
| DinoJump.Game.SpawnObstacle | assets/script.js:99-107 | NewObstacle is appended at the end of the list |
| DinoJump.Game.ScrollBy | assets/script.js:118 | the in-place forEach leaves exactly the scrolled list |
| DinoJump.Game.CheckCollisions | assets/script.js:121-127 | the session survives exactly when the dino touches no obstacle; a hit records max(high, floor(score)) |
| DinoJump.Game.Run | assets/script.js:111-113 | one more frame, a tenth of a point, and one frame of gravity as Fall says |
| DinoJump.Game.AdvanceObstacles | assets/script.js:115-119 | the list becomes Advanced (spawn on every 60th frame, scroll at Speed, purge) and stays well formed |
| DinoJump.Game.Update | assets/script.js:109-128 | nothing changes when no session runs; otherwise frame, score, motion and list advance, the session survives exactly when no obstacle is touched, and a hit records max(high, floor(score)) |
| DinoJump.Game.Step | assets/script.js:110-127 | the running-session body of update with the same outcome as Update |
| FlappyBird.NewPipe | assets/script.js:218-223 | a spawned pipe enters at x 500, unscored, with a 100-pixel opening whose top lies in [50, 200) |
| FlappyBird.Alongside | assets/script.js:239 | the bird's columns 80..104 overlap the pipe's columns x..x+60 |
| FlappyBird.InOpening | assets/script.js:240 | the bird is wholly inside the opening, top <= y and y + 24 <= top + gap: the negation of the vertical test |
| FlappyBird.Crashes | assets/script.js:239-240 | an unscored pipe the bird is alongside while not wholly inside its opening: y < top or y + 24 > top + gap |
| FlappyBird.Passed | assets/script.js:246 | an unscored pipe whose trailing edge x + 60 the bird's x = 80 is past |
| FlappyBird.OutOfRange | assets/script.js:253 | the bird has left the canvas: y + 24 > 350 or y < 0 |
| FlappyBird.NoCrash | assets/script.js:238-245 | the bird at height y crashes into none of the pipes: the loop ends no session |
| FlappyBird.CrashAboveCanvas | assets/script.js:239-240 | a bird at y = -30 beside a pipe crashes while overlapping neither pipe rectangle, so the pipe test is not a box overlap |
| FlappyBird.Mark | assets/script.js:246-248 | one pipe after the scoring test: a passed pipe gets scored = true, any other is unchanged |
| FlappyBird.Marked | assets/script.js:246-248 | the scoring test flags exactly the passed pipes and leaves the others as they were |
| FlappyBird.CountPassed | assets/script.js:246-249 | the points a pipe list is worth: one per unscored pipe the bird is past, never more than the number of pipes |
| FlappyBird.MarkedScoresOnce | assets/script.js:246-249 | every point awarded is one scored flag going from false to true |
| FlappyBird.NothingPassesTwice | assets/script.js:246-249 | after the scoring test no pipe can score again, so each pipe is worth at most one point |
| FlappyBird.Visit | assets/script.js:239-250 | one turn of the pipe loop: a crash sets playing false and high to max(high, score); then a passed pipe adds a point |
| FlappyBird.PipeLoop | assets/script.js:238-251 | the pipe loop over the whole list, front to back, never stopping at a crash |
| FlappyBird.PipeLoopScore | assets/script.js:238-251 | the pipe loop adds exactly one point per passed pipe, so the score never decreases |
| FlappyBird.PipeLoopPlaying | assets/script.js:238-245 | the session survives the pipe loop exactly when it was running and the bird crashes into no unscored pipe alongside it |
| FlappyBird.PipeLoopHigh | assets/script.js:238-245 | the pipe loop never lowers the high score, leaves it alone without a crash, and never raises it above the score |
| FlappyBird.PipeLoopOrdered | assets/script.js:238-251 | with pipes ordered left to right, a session ended by a crash records exactly max(high, final score) despite the loop not stopping |
| FlappyBird.PipeLoopOutcome | assets/script.js:238-251 | the pipe loop over an ordered list: score plus passed pipes, survival exactly without a crash, and high max(high, score) after a crash |
| FlappyBird.UnorderedCrashMissesAPoint | assets/script.js:238-251 | out of order, a pipe passed after the crash scores a point the recorded high score misses |
| FlappyBird.Fall | assets/script.js:229-230 | a frame of gravity adds 0.5 to the speed and then moves the bird by the new speed; there is no floor |
| FlappyBird.DropClosedForm | assets/script.js:229-230 | a bird that never flaps is at 175 + m(m+1)/4 with speed m/2, m frames after a reset |
| FlappyBird.NoFlapKeepsFalling | assets/script.js:229-230 | without flaps the bird is lower on every frame |
| FlappyBird.NoFlapInRange | assets/script.js:253 | without flaps the bird stays on the canvas for the first 24 frames after a reset |
| FlappyBird.NoFlapOutOnFrame25 | assets/script.js:253 | without flaps the bird is below the canvas on frame 25, which ends the session |
| FlappyBird.OnScreen | assets/script.js:236 | the filter keeps a pipe while its right edge x + 60 is past 0 |
| FlappyBird.Scrolled | assets/script.js:235 | scrolling moves every pipe left by 5 and changes nothing else about it |
| FlappyBird.AfterSpawn | assets/script.js:233 | the list after the spawn test of frame f: NewPipe appended exactly when f is a multiple of 90 |
| FlappyBird.Advanced | assets/script.js:233-236 | the pipes of frame f before scoring: spawned, scrolled by 5, and purged of those with x + 60 <= 0 |
| FlappyBird.SpawnKeepsOrder | assets/script.js:223 | appending a spawned pipe at x 500 keeps the list ordered left to right |
| FlappyBird.ScrollKeepsOrder | assets/script.js:235 | moving every pipe by the same step keeps the order |
| FlappyBird.MarkKeepsGood | assets/script.js:246-247 | setting scored flags keeps a well-formed pipe list well formed |
| FlappyBird.AdvancedIsGood | assets/script.js:233-236 | spawn, scroll and purge keep the pipe list ordered, on screen and with openings where spawnPipe puts them |
| FlappyBird.Game.constructor | assets/script.js:205 | page load: the stored high score is read (line 205) and reset() starts a fresh session (line 331) |
| FlappyBird.Game.Reset | assets/script.js:214-216 | a fresh session: score 0, frame 0, no pipes, the bird in the middle at rest, playing and not game over; the high score is kept |
| FlappyBird.Game.Flap | assets/script.js:327 | when no session runs a fresh one starts; otherwise the speed becomes -9 whatever it was and nothing else changes |
| FlappyBird.Game.SpawnPipe | assets/script.js:218-224 | NewPipe is appended at the end of the list |
| FlappyBird.Game.ScrollPipes | assets/script.js:235 | the in-place forEach moves every pipe left by 5 |
| FlappyBird.Game.ScorePipes | assets/script.js:238-251 | the in-place pipe loop flags exactly the passed pipes and ends with the score, high score and playing flag that PipeLoop gives; game over exactly when not playing |
| FlappyBird.Game.AdvancePipes | assets/script.js:233-236 | the list becomes Advanced (spawn on every 90th frame, scroll by 5, purge) and stays well formed |
| FlappyBird.Game.PlayPipes | assets/script.js:233-251 | the advanced list is scored: points per passed pipe, survival exactly without a crash, high max(high, score) after one |
| FlappyBird.Game.Fly | assets/script.js:228-230 | one more frame and one frame of gravity as Fall says |
| FlappyBird.Game.CheckBounds | assets/script.js:253-258 | leaving the 0..350 range ends the session and records max(high, score); otherwise nothing changes |
| FlappyBird.Game.Update | assets/script.js:226-259 | nothing changes when no session runs; otherwise gravity, list advance and scoring happen, the session survives exactly when the bird is on the canvas and crashed into no pipe, and its end records max(high, score) |
| FlappyBird.Game.Step | assets/script.js:227-258 | the running-session body of update with the same outcome as Update |

## Left out

- Rendering, canvas and card construction, and every `draw` function: pure output. `requestAnimationFrame` and the event listeners are also out: a frame is one `Update` call and an input is one method call.
- `localStorage` and `parseInt`: the stored high score is the constructors' `storedHigh` parameter, and writes to storage are not modelled.
- `Math.random`: each draw is a parameter in [0, 1).
- IEEE floating point: gravity, jump and flap speeds and the dino's `score += 0.1` are exact reals. No claim is made about rounding, in particular about where `Math.floor(score)` and the speed bonus step under float arithmetic.
- The bird's rotation, which only affects drawing.
- The theme manager, the year stamp, navigation highlighting and page detection: page glue with no game logic.
- Object identity of obstacles, pipes and walls: they are values. The maze's `config.map(w => ({ ...w }))` copy makes the active walls independent of the catalog, which value semantics gives for free. Nothing in the script aliases an obstacle or a pipe.
- The maze's `keys` dictionary, filled by key listeners: it is the `Keys` argument of `Update`.
