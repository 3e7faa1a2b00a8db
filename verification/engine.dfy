/** The game manager object: its fields are updated in place by the pointer and
    resize handlers, the spawn timers and the frame loop. Each method is proved
    to move the object's state exactly as the matching function of module
    Session says. */
module Engine {
  import opened Tears
  import opened Session

  class GameManager {
    var canvasWidth: real
    var canvasHeight: real
    var gameActive: bool
    var score: int
    var lives: int
    var speedMultiplier: real
    var lastCheckpoint: int
    var bucket: Option<Bucket>
    var teardrops: seq<Tear>
    var goldtears: seq<Tear>
    var redtears: seq<Tear>
    var blacktears: seq<Tear>
    var splashes: seq<Splash>

    /** The object's state as a value. */
    function Snapshot(): State
      reads this
    {
      State(canvasWidth, canvasHeight, gameActive, score, lives, speedMultiplier, lastCheckpoint,
            bucket, teardrops, goldtears, redtears, blacktears, splashes)
    }

    /** A manager whose canvas has just been attached and sized. */
    constructor (width: real, height: real)
      ensures Snapshot() == Initial(width, height)
    {
      canvasWidth, canvasHeight := width, height;
      gameActive := false;
      score, lives := 0, 10;
      speedMultiplier, lastCheckpoint := 1.0, 0;
      bucket := None;
      teardrops, goldtears, redtears, blacktears := [], [], [], [];
      splashes := [];
    }

    /** resizeCanvas, with the parent element's new size as parameters. */
    method ResizeCanvas(width: real, height: real)
      modifies this
      ensures Snapshot() == ResizeStep(old(Snapshot()), width, height)
    {
      canvasWidth := width;
      canvasHeight := height;
      if bucket.Some? {
        var b := bucket.value;
        bucket := Some(b.(y := canvasHeight - 80.0, x := Min(b.x, canvasWidth - b.width)));
      }
    }

    /** startGame: clear, then initialise; reports whether the first frame
        handed over to the game-over handler. */
    method StartGame() returns (handOff: bool)
      modifies this
      ensures Snapshot() == StartStep(old(Snapshot()))
      ensures !handOff
    {
      ClearGame();
      handOff := InitGame();
    }

    /** clearGame (the cancelled frame request and timers are host handles). */
    method ClearGame()
      modifies this
      ensures Snapshot() == ClearStep(old(Snapshot()))
    {
      teardrops := [];
      goldtears := [];
      redtears := [];
      blacktears := [];
      splashes := [];
    }

    /** initGame: reset the session fields, place the bucket, run the first
        frame. The spawners it starts 2000 ms later are the Spawn methods. */
    method InitGame() returns (handOff: bool)
      modifies this
      ensures Snapshot() == InitStep(old(Snapshot()))
      ensures handOff == (lives <= 0)
    {
      score := 0;
      lives := 10;
      speedMultiplier := 1.0;
      lastCheckpoint := 0;
      gameActive := true;
      bucket := Some(Bucket(canvasWidth / 2.0 - 50.0, canvasHeight - 80.0, 70.0, 70.0));
      assert Snapshot() == ResetStep(old(Snapshot()));
      var nextFrame;
      nextFrame, handOff := GameLoop();
    }

    /** handlePointerMove, with the pointer's x already relative to the canvas. */
    method HandlePointerMove(pointerX: real)
      modifies this
      ensures Snapshot() == PointerStep(old(Snapshot()), pointerX)
    {
      if !gameActive || bucket.None? {
        return;
      }
      var b := bucket.value;
      bucket := Some(b.(x := Min(Max(pointerX - b.width / 2.0, 0.0), canvasWidth - b.width)));
    }

    /** spawnTeardrop: rx, r1, r2 are the constructor's random draws, rDelay the
        draw for the next timer; the result is the re-arm delay, if any. */
    method SpawnTeardrop(rx: real, r1: real, r2: real, rDelay: real) returns (rearm: Option<real>)
      modifies this
      ensures Snapshot() == SpawnStep(old(Snapshot()), Teardrop, rx, r1, r2)
      ensures rearm == if old(gameActive) then Some(SpawnDelay(Teardrop, rDelay)) else None
    {
      if !gameActive {
        return None;
      }
      teardrops := teardrops + [NewTear(Teardrop, canvasWidth, speedMultiplier, rx, r1, r2)];
      rearm := Some(rDelay * 750.0 + 300.0);
    }

    /** spawnGoldtear. */
    method SpawnGoldtear(rx: real, r1: real, r2: real, rDelay: real) returns (rearm: Option<real>)
      modifies this
      ensures Snapshot() == SpawnStep(old(Snapshot()), Goldtear, rx, r1, r2)
      ensures rearm == if old(gameActive) then Some(SpawnDelay(Goldtear, rDelay)) else None
    {
      if !gameActive {
        return None;
      }
      goldtears := goldtears + [NewTear(Goldtear, canvasWidth, speedMultiplier, rx, r1, r2)];
      rearm := Some(rDelay * 3000.0 + 1500.0);
    }

    /** spawnRedtear. */
    method SpawnRedtear(rx: real, r1: real, r2: real, rDelay: real) returns (rearm: Option<real>)
      modifies this
      ensures Snapshot() == SpawnStep(old(Snapshot()), Redtear, rx, r1, r2)
      ensures rearm == if old(gameActive) then Some(SpawnDelay(Redtear, rDelay)) else None
    {
      if !gameActive {
        return None;
      }
      redtears := redtears + [NewTear(Redtear, canvasWidth, speedMultiplier, rx, r1, r2)];
      rearm := Some(rDelay * 12000.0 + 3000.0);
    }

    /** spawnBlacktear. */
    method SpawnBlacktear(rx: real, r1: real, r2: real, rDelay: real) returns (rearm: Option<real>)
      modifies this
      ensures Snapshot() == SpawnStep(old(Snapshot()), Blacktear, rx, r1, r2)
      ensures rearm == if old(gameActive) then Some(SpawnDelay(Blacktear, rDelay)) else None
    {
      if !gameActive {
        return None;
      }
      blacktears := blacktears + [NewTear(Blacktear, canvasWidth, speedMultiplier, rx, r1, r2)];
      rearm := Some(rDelay * 6000.0 + 3000.0);
    }

    /** updateGame; the result says whether handleGameOver was called. */
    method UpdateGame() returns (handOff: bool)
      requires bucket.Some?
      modifies this
      ensures Snapshot() == Tick(old(Snapshot()))
      ensures handOff == (old(gameActive) && lives <= 0)
    {
      UpdateAllEntities();
      if score >= lastCheckpoint + 100 {
        speedMultiplier := speedMultiplier * 1.1;
        lastCheckpoint := lastCheckpoint + 100;
      }

      handOff := false;
      if lives <= 0 && gameActive {
        gameActive := false;
        handOff := true;
      }
    }

    /** The four updateEntities calls at the head of updateGame, in their order. */
    method UpdateAllEntities()
      requires bucket.Some?
      modifies this
      ensures Snapshot() == AllPasses(old(Snapshot()))
    {
      AllPassesInOrder(Snapshot());
      UpdateKind(Teardrop);
      UpdateKind(Goldtear);
      UpdateKind(Redtear);
      UpdateKind(Blacktear);
    }

    /** updateEntities on the array of one kind, written back to its field. */
    method UpdateKind(kind: Kind)
      requires bucket.Some?
      modifies this
      ensures Snapshot() == Pass(old(Snapshot()), kind)
    {
      var rest := UpdateEntities(TearsOf(Snapshot(), kind), kind);
      match kind
      case Teardrop => teardrops := rest;
      case Goldtear => goldtears := rest;
      case Redtear => redtears := rest;
      case Blacktear => blacktears := rest;
    }

    /** updateEntities: walk the array from the back, advance each tear, splice
        out the caught and the fallen ones and apply their effects. The array is
        passed in and the updated array returned. */
    method UpdateEntities(entities: seq<Tear>, kind: Kind) returns (rest: seq<Tear>)
      requires bucket.Some?
      modifies this`score, this`lives, this`splashes
      ensures rest == Survivors(entities, bucket.value, canvasHeight)
      ensures score == old(score) + ScoreGain(entities, bucket.value, canvasHeight, kind)
      ensures lives == old(lives) + LifeChange(entities, bucket.value, canvasHeight, kind)
      ensures splashes == old(splashes) + CatchSplashes(entities, bucket.value, canvasHeight, kind)
    {
      var b, h := bucket.value, canvasHeight;
      rest := entities;
      var i := |entities| - 1;
      while i >= 0
        invariant -1 <= i < |entities|
        invariant rest == entities[..i + 1] + Survivors(entities[i + 1..], b, h)
        invariant score == old(score) + ScoreGain(entities[i + 1..], b, h, kind)
        invariant lives == old(lives) + LifeChange(entities[i + 1..], b, h, kind)
        invariant splashes == old(splashes) + CatchSplashes(entities[i + 1..], b, h, kind)
        invariant bucket == Some(b) && canvasHeight == h
      {
        assert entities[i..][1..] == entities[i + 1..];
        assert rest[i] == entities[i];
        var entity := Advance(rest[i]);
        if CheckCollision(entity, b) {
          rest := rest[..i] + rest[i + 1..];
          HandleCollision(entity, kind);
        } else if entity.y > h {
          rest := rest[..i] + rest[i + 1..];
          if kind != Redtear {
            lives := lives - 1;
          }
        } else {
          rest := rest[i := entity];
        }
        i := i - 1;
      }
      assert entities[0..] == entities;
    }

    /** handleCollision: exactly one row of the scoring table, and one splash
        at the tear's centre on the bucket's top. */
    method HandleCollision(entity: Tear, kind: Kind)
      requires bucket.Some?
      modifies this`score, this`lives, this`splashes
      ensures kind == Goldtear ==> score == old(score) + 15 && lives == old(lives)
      ensures kind == Redtear ==> score == old(score) && lives == old(lives) - 1
      ensures kind == Blacktear ==> score == old(score) && lives == old(lives) + 1
      ensures kind == Teardrop ==> score == old(score) + 1 && lives == old(lives)
      ensures splashes == old(splashes) + [Splash(entity.x + entity.width / 2.0, bucket.value.y, 30.0, 1.0, kind)]
    {
      var centre := entity.x + entity.width / 2.0;
      if kind == Goldtear {
        score := score + 15;
        splashes := splashes + [NewSplash(centre, bucket.value.y, Goldtear)];
      } else if kind == Redtear {
        lives := lives - 1;
        splashes := splashes + [NewSplash(centre, bucket.value.y, Redtear)];
      } else if kind == Blacktear {
        lives := lives + 1;
        splashes := splashes + [NewSplash(centre, bucket.value.y, Blacktear)];
      } else {
        score := score + 1;
        splashes := splashes + [NewSplash(centre, bucket.value.y, Teardrop)];
      }
    }

    /** gameLoop: one frame while active (drawing is not modelled); the first
        result says whether the next frame is requested. */
    method GameLoop() returns (nextFrame: bool, handOff: bool)
      requires gameActive ==> bucket.Some?
      modifies this
      ensures Snapshot() == LoopStep(old(Snapshot()))
      ensures nextFrame == old(gameActive)
      ensures handOff == (old(gameActive) && lives <= 0)
    {
      nextFrame, handOff := false, false;
      if gameActive {
        handOff := UpdateGame();
        nextFrame := true;
      }
    }
  }
}
