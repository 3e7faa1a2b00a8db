# Tear-catch game engine, modelled in Dafny

This project models the game manager of a browser "catch the falling tears" game (`src/GameManager.js`). The player moves a bucket along the bottom of a canvas. Four kinds of tears fall from the top:

- blue teardrops: one point each;
- gold tears: fifteen points each;
- red tears: cost a life when caught;
- black tears, drawn green: give a life back when caught.

Any tear except a red one costs a life when it falls off the bottom. Every 100 points the fall speed of new tears is multiplied by 1.1. The session ends when the lives run out.

The model has three modules:

- `Tears` (`tears.dfy`) holds the values: tears, the bucket, splash effects and the tear categories. It also holds the rules for one tear in one frame:
  - the fall step (`Teardrop.update`);
  - the strict box-overlap test (`checkCollision`);
  - the fate of a tear: caught, missed or still falling;
  - the scoring table;
  - the tear constructors, with their random draws as parameters;
  - the spawn delays, the pointer clamp, the checkpoint step and the splash update.

  A whole back-to-front pass over one tear array is specified by front-to-back recursive functions. These are `Survivors`, `ScoreGain`, `LifeChange` and `CatchSplashes`.
- `Session` (`session.dfy`) holds the manager's whole state as one `State` value. Each operation is a function from the state before to the state after: `Tick` for `updateGame`, `LoopStep` for `gameLoop`, `SpawnStep`, `PointerStep`, `ResizeStep`, `ClearStep`, `InitStep` and `StartStep`. Lemmas state what a frame, or a whole run of events, promises.
- `Engine` (`engine.dfy`) holds `class GameManager` with the source's fields. Its methods update those fields in place, as the source does. `UpdateEntities` walks the array from the back and splices out caught and fallen tears. Every method that stands for a whole operation of the manager is proved to move `Snapshot()` exactly as the matching `Session` function says. `UpdateEntities` and `HandleCollision` only touch the score, the lives and the splashes, so their contracts state those fields one by one.

Coordinates, speeds and the speed multiplier are exact reals. Each `Math.random()` draw is a parameter: `rx`, `r1` and `r2` for a new tear, `rDelay` for the next spawn timer. The model gets the canvas size as constructor or `ResizeCanvas` parameters. The pointer position arrives already relative to the canvas.

Some rules of the code are easy to misread. The model follows the code:

- **Checkpoints.** `updateGame` moves the checkpoint with an `if`, not a `while` (src/GameManager.js:214-217). So the checkpoint moves at most 100 per frame and can lag the score.
  - `CheckpointStepLaw` states the single step.
  - `CheckpointCatchUp` states that the checkpoint catches up in later frames.
  - The invariant `Inv` ties the multiplier to the checkpoint (`1.1` to the power `lastCheckpoint / 100`), not to `score / 100`.
- **Lives.** Lives are never clamped at zero. Two misses in one frame take one life to minus one (`LivesCanGoBelowZero`). The game then ends.
- **Missed red tears.** A missed red tear costs nothing. A caught one costs a life.
- **Splashes.** Splashes age and are pruned in `drawGame`, not in `updateGame`.
- **Start position.** `initGame` puts the bucket's left edge 50 left of the canvas centre, but the bucket is 70 wide. So it is not exactly centred (`StartBucket`).
- **Resize.** `resizeCanvas` only pulls the bucket left when it sticks out on the right. It never clamps at 0.

## Model

| member | source | states |
|---|---|---|
| Tears.NewTearBounds | src/GameManager.js:439-476 | with draws in [0, 1), a new tear starts one tear-height above the canvas (y = -50), 30 by 50, with 0 <= x < canvasWidth - 50 and 0 <= speed < (base + 5) * multiplier, where base is 4, 6, 3, 4 by kind |
| Tears.SpawnDelay | src/GameManager.js:178-204 | for a draw in [0, 1) the re-arm delay lies in [300, 1050) ms for blue, [1500, 4500) for gold, [3000, 15000) for red and [3000, 9000) for black tears |
| Tears.CollisionIffSharedInterior | src/GameManager.js:243-249 | for boxes of positive size the strict overlap test holds exactly when some point lies inside both boxes, so boxes that only touch do not collide |
| Tears.PassAccounting | src/GameManager.js:227-240 | every tear of an array is kept, caught or missed in a pass, exactly one of the three |
| Tears.SurvivorsKeepOrder | src/GameManager.js:227-240 | the array after a pass holds exactly the tears that neither hit the bucket nor fell below the canvas, each advanced by its speed, in their original order |
| Tears.ScoreGainByKind | src/GameManager.js:253-267 | a pass adds the kind's points (1, 15, 0, 0) times the number of caught tears |
| Tears.LifeChangeByKind | src/GameManager.js:232-267 | a pass changes lives by the catch row (-1 red, +1 black, 0 otherwise) per caught tear plus the miss row (0 red, -1 otherwise) per missed tear; for red tears only catches count |
| Tears.CatchSplashesShape | src/GameManager.js:253-267 | a pass appends one splash per caught tear, each on the bucket's top, in the kind's colour, size 30, opacity 1 |
| Tears.ClampBucketX | src/GameManager.js:159-170 | the bucket never sticks out on the right, never out on the left when the canvas is wide enough, and sits centred under the pointer whenever that fits; when the centred spot is left of the canvas it is at 0 (if the canvas is wide enough), and when it is right of the canvas it is at canvasWidth - width |
| Tears.CheckpointStepLaw | src/GameManager.js:213-217 | one checkpoint test keeps the checkpoint a multiple of 100 between 0 and the score and advances it by exactly 100 iff the score is at least 100 above it, otherwise not at all |
| Tears.CheckpointCatchUp | src/GameManager.js:213-217 | repeated single-step checkpoint tests with the score unchanged reach the largest multiple of 100 not above the score after score/100 - checkpoint/100 frames |
| Tears.PowAtLeastOne | src/GameManager.js:213-216 | a multiplier made of factors 1.1 is at least 1 |
| Tears.SplashFades | src/GameManager.js:479-490 | after n updates a new splash has size 30 + 5n and opacity 1 - n/20, is fully faded exactly from the 20th update on, and keeps its position and colour |
| Session.Initial | src/GameManager.js:3-24 | the fresh manager is inactive, with score 0, 10 lives, multiplier 1, checkpoint 0, no bucket, no tears, no splashes and the given canvas size, and satisfies the session invariant |
| Session.AllPassesInOrder | src/GameManager.js:207-211 | the passes of one frame are the four updateEntities calls on the blue, gold, red and black arrays, in that order |
| Session.LoopStep | src/GameManager.js:334-340 | a frame of an inactive session changes nothing |
| Session.SpawnStep | src/GameManager.js:178-204 | while active, a spawn appends to its kind's array the tear the kind's constructor builds from the current canvas width and multiplier, and changes no other field; while inactive it changes nothing |
| Session.SpawnedTearBounds | src/GameManager.js:178-204 | with draws in [0, 1), the tear a spawn appends starts at y = -50, with 0 <= x < canvasWidth - 50 and 0 <= speed < (base + 5) times the current multiplier |
| Session.PointerStep | src/GameManager.js:159-170 | a pointer move while active with a bucket sets the bucket's x to ClampBucketX of the pointer, the bucket's width and the canvas width, keeping it on the canvas, and changes nothing else; otherwise it changes nothing |
| Session.ResizeStep | src/GameManager.js:85-96 | a resize sets the canvas size and puts the bucket 80 above the new bottom; it leaves x alone when the bucket fits and sets it to width - bucket width when it sticks out; the bucket's size and every other field are unchanged |
| Session.ClearStep | src/GameManager.js:110-126 | clearGame empties the four tear arrays and the splashes and changes nothing else |
| Session.StartStep | src/GameManager.js:99-156 | after startGame the session is active with score 0, 10 lives, multiplier 1, checkpoint 0, the start bucket, no tears, no splashes, the same canvas, and satisfies the invariant |
| Session.FirstFrameIsQuiet | src/GameManager.js:129-156 | the frame initGame runs at once, with no tears on screen, changes nothing |
| Session.TickScore | src/GameManager.js:207-267 | a frame adds one point per caught blue teardrop and fifteen per caught gold tear, and nothing else; the score never goes down |
| Session.TickLives | src/GameManager.js:207-267 | a frame takes one life per missed blue, gold or black tear and per caught red tear and gives one per caught black tear; a missed red tear costs nothing |
| Session.QuietTickCheckpoint | src/GameManager.js:207-217 | a frame in which no blue or gold tear is caught keeps the score and takes exactly one checkpoint step from it, so runs of such frames are what CheckpointCatchUp is about |
| Session.TickCheckpoint | src/GameManager.js:213-217 | in a frame the checkpoint moves by 0 or exactly 100, by 100 iff the new score is at least 100 above the old checkpoint, and the multiplier is multiplied by 1.1 exactly then and never decreases |
| Session.TickKeepsInv | src/GameManager.js:207-224 | a frame keeps the session invariant: checkpoint a multiple of 100 in [0, score], multiplier 1.1 to the checkpoints passed, an active session has a bucket and lives left |
| Session.TickGameOver | src/GameManager.js:219-223 | a frame ends the session exactly when it hands over to handleGameOver, only once lives are at or below 0; an inactive session stays inactive |
| Session.LivesCanGoBelowZero | src/GameManager.js:219-238 | two missed blue teardrops in one frame take a session with one life to -1 and end it |
| Session.Apply | src/GameManager.js:159-204 | no event reactivates a session; pointer moves, spawns and resizes never change whether it is active, the score or the lives |
| Session.AtMostOneHandoff | src/GameManager.js:219-223 | along any run of frames, spawns, pointer moves and resizes, the game-over handover happens at most once, and never once the session is over |
| Session.ApplyKeepsInv | src/GameManager.js:207-224 | every event keeps the session invariant |
| Session.RunKeepsInv | src/GameManager.js:207-224 | along any run of events the invariant holds and the score never goes down |
| Engine.GameManager.constructor | src/GameManager.js:3-24 | the new manager's state is the initial state |
| Engine.GameManager.ResizeCanvas | src/GameManager.js:85-96 | the new state is ResizeStep of the old one |
| Engine.GameManager.StartGame | src/GameManager.js:99-107 | the new state is StartStep of the old one, and the first frame never hands over to game over |
| Engine.GameManager.ClearGame | src/GameManager.js:110-126 | the new state is ClearStep of the old one |
| Engine.GameManager.InitGame | src/GameManager.js:129-156 | the new state is the field resets followed by one gameLoop frame; it hands over iff lives are at or below 0 afterwards |
| Engine.GameManager.HandlePointerMove | src/GameManager.js:159-170 | the new state is PointerStep of the old one |
| Engine.GameManager.SpawnTeardrop | src/GameManager.js:178-183 | the new state is SpawnStep for blue teardrops, and the timer is re-armed with the blue delay exactly when the session was active |
| Engine.GameManager.SpawnGoldtear | src/GameManager.js:185-190 | the same for gold tears and the gold delay |
| Engine.GameManager.SpawnRedtear | src/GameManager.js:192-197 | the same for red tears and the red delay |
| Engine.GameManager.SpawnBlacktear | src/GameManager.js:199-204 | the same for black tears and the black delay |
| Engine.GameManager.UpdateGame | src/GameManager.js:207-224 | the new state is Tick of the old one, and handleGameOver is called iff the session was active and lives are at or below 0 |
| Engine.GameManager.UpdateAllEntities | src/GameManager.js:208-211 | the four updateEntities calls together move the state as the four passes |
| Engine.GameManager.UpdateKind | src/GameManager.js:208-211 | one updateEntities call, written back to its array, moves the state as one pass |
| Engine.GameManager.UpdateEntities | src/GameManager.js:227-240 | the back-to-front splice loop leaves exactly Survivors of the array and adds ScoreGain, LifeChange and CatchSplashes to score, lives and splashes |
| Engine.GameManager.HandleCollision | src/GameManager.js:253-267 | exactly one row of the scoring table applies (+15 gold, -1 life red, +1 life black, +1 blue), and one splash is appended at the tear's centre on the bucket's top |
| Engine.GameManager.GameLoop | src/GameManager.js:334-340 | the new state is LoopStep of the old one; the next frame is requested iff the session was active at the frame's start; the handover is reported iff it was active and lives ran out |

## Left out

- `initialize` and image loading (src/GameManager.js:26-82): DOM lookups, event listener registration and promises. The constructor takes the canvas size that `initialize`'s first `resizeCanvas` would read. So the model has no state in which the canvas is missing, and `resizeCanvas`'s canvas-null branch is not modelled.
- Rendering: `drawGame`, `drawUI`, `drawLegend` and the `draw` methods only make canvas calls.
- Splash ageing and pruning in `drawGame` (src/GameManager.js:286-290). `Splash.update` is modelled as `Age`, with `SplashFades`. The prune loop splices inside `forEach`, so it can skip the splash after a removed one. That loop is tied to drawing and is not part of this model.
- Engine.GameManager.GameLoop: does not include the splash ageing that `drawGame` does in the same frame, so the splashes after a frame are those before it plus the new ones, not yet aged.
- `requestAnimationFrame`, `cancelAnimationFrame`, `setTimeout` and `clearTimeout` are host scheduling. A method reports what it would schedule instead: `GameLoop`'s `nextFrame` and the spawn methods' re-arm delay. The 2000 ms warm-up timer of `initGame` is not stored in `spawnTimers`, so `clearGame` cannot cancel it. Timer cancellation is not modelled.
- `handleGameOver`, `submitScore`, `updateLeaderboards`, `fetchLeaderboard` and `updateLeaderboardUI` use HTTP and the DOM. `UpdateGame` and `GameLoop` only report that the handover happens.
- `startGame`'s `gameMode` and `sessionToken` fields only matter to score submission.
- Floating point: the 1.1 multiplier, the 0.05 opacity step and all coordinates are exact reals.
- Tears are values, not mutable objects. `Teardrop.update` becomes `Advance`, and the pass writes the advanced tear back into its array slot. Nothing else aliases a tear.
- The bucket's `speed` field is never read and is not modelled.
- Engine.GameManager.UpdateGame: requires a bucket. `updateGame` is only called from `gameLoop` while the session is active, and every active session has a bucket (`Inv`, `WellFormed`).
- The gold, red and black tear constructors draw a speed twice, first in the base `Teardrop` constructor and then in their own. Only the final speed is observable, so `NewTear` takes the last two speed draws. The blue `Teardrop` draws its speed once.
