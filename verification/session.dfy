/** The game manager's whole state as one value, and each of its operations as a
    function from the state before to the state after. The class in module
    Engine runs these operations in place and is proved against these functions;
    the lemmas here state what the operations promise. */
module Session {
  import opened Tears

  /** Everything the game manager owns during a session. */
  datatype State = State(
    canvasWidth: real,
    canvasHeight: real,
    gameActive: bool,
    score: int,
    lives: int,
    speedMultiplier: real,
    lastCheckpoint: int,
    bucket: Option<Bucket>,
    teardrops: seq<Tear>,
    goldtears: seq<Tear>,
    redtears: seq<Tear>,
    blacktears: seq<Tear>,
    splashes: seq<Splash>)

  /** The array that holds the tears of kind `k`. */
  function TearsOf(st: State, k: Kind): seq<Tear>
  {
    match k
    case Teardrop => st.teardrops
    case Goldtear => st.goldtears
    case Redtear => st.redtears
    case Blacktear => st.blacktears
  }

  /** `st` with the array of kind `k` replaced by `s` and nothing else changed. */
  function WithTears(st: State, k: Kind, s: seq<Tear>): (r: State)
    ensures TearsOf(r, k) == s
    ensures forall k' :: k' != k ==> TearsOf(r, k') == TearsOf(st, k')
    ensures r.(teardrops := st.teardrops, goldtears := st.goldtears,
               redtears := st.redtears, blacktears := st.blacktears) == st
  {
    match k
    case Teardrop => st.(teardrops := s)
    case Goldtear => st.(goldtears := s)
    case Redtear => st.(redtears := s)
    case Blacktear => st.(blacktears := s)
  }

  /** The session invariant: the checkpoint is a multiple of 100 between 0 and
      the score, the speed multiplier is 1.1 to the number of checkpoints
      passed, and an active session has a bucket and lives left. */
  predicate Inv(st: State)
  {
    && 0 <= st.lastCheckpoint <= st.score
    && st.lastCheckpoint % 100 == 0
    && st.speedMultiplier == Pow(1.1, st.lastCheckpoint / 100)
    && (st.gameActive ==> st.bucket.Some? && st.lives > 0)
  }

  /** The manager once its canvas is attached: no session, no bucket. */
  function Initial(canvasWidth: real, canvasHeight: real): (r: State)
    ensures Inv(r) && !r.gameActive
    ensures r.score == 0 && r.lives == 10 && r.speedMultiplier == 1.0 && r.lastCheckpoint == 0
    ensures r.bucket.None? && (forall k :: TearsOf(r, k) == []) && r.splashes == []
    ensures r.canvasWidth == canvasWidth && r.canvasHeight == canvasHeight
  {
    State(canvasWidth, canvasHeight, false, 0, 10, 1.0, 0, None, [], [], [], [], [])
  }

  // ---------------------------------------------------------------------------
  // updateGame

  /** The four updateEntities calls of updateGame, on the blue, gold, red and
      black arrays in that order: each array keeps its survivors, the score and
      the lives collect every category's changes, and each category's splashes
      are appended after those of the categories before it. */
  function AllPasses(st: State): State
    requires st.bucket.Some?
  {
    var b, h := st.bucket.value, st.canvasHeight;
    st.(
      teardrops := Survivors(st.teardrops, b, h),
      goldtears := Survivors(st.goldtears, b, h),
      redtears := Survivors(st.redtears, b, h),
      blacktears := Survivors(st.blacktears, b, h),
      score := st.score + ScoreGain(st.teardrops, b, h, Teardrop) + ScoreGain(st.goldtears, b, h, Goldtear)
               + ScoreGain(st.redtears, b, h, Redtear) + ScoreGain(st.blacktears, b, h, Blacktear),
      lives := st.lives + LifeChange(st.teardrops, b, h, Teardrop) + LifeChange(st.goldtears, b, h, Goldtear)
               + LifeChange(st.redtears, b, h, Redtear) + LifeChange(st.blacktears, b, h, Blacktear),
      splashes := st.splashes + CatchSplashes(st.teardrops, b, h, Teardrop)
                  + CatchSplashes(st.goldtears, b, h, Goldtear)
                  + CatchSplashes(st.redtears, b, h, Redtear)
                  + CatchSplashes(st.blacktears, b, h, Blacktear))
  }

  /** One updateEntities call on the array of kind `k`, as a state change. */
  function Pass(st: State, k: Kind): (r: State)
    requires st.bucket.Some?
    ensures r.bucket == st.bucket && r.canvasHeight == st.canvasHeight
  {
    var b, h, s := st.bucket.value, st.canvasHeight, TearsOf(st, k);
    var effects := st.(score := st.score + ScoreGain(s, b, h, k),
                       lives := st.lives + LifeChange(s, b, h, k),
                       splashes := st.splashes + CatchSplashes(s, b, h, k));
    match k
    case Teardrop => effects.(teardrops := Survivors(s, b, h))
    case Goldtear => effects.(goldtears := Survivors(s, b, h))
    case Redtear => effects.(redtears := Survivors(s, b, h))
    case Blacktear => effects.(blacktears := Survivors(s, b, h))
  }

  /** The four passes are the four updateEntities calls, one after another. */
  lemma AllPassesInOrder(st: State)
    requires st.bucket.Some?
    ensures AllPasses(st) == Pass(Pass(Pass(Pass(st, Teardrop), Goldtear), Redtear), Blacktear)
  {
    var s1 := Pass(st, Teardrop);
    var s2 := Pass(s1, Goldtear);
    var s3 := Pass(s2, Redtear);
    var s4 := Pass(s3, Blacktear);
    assert s4.teardrops == s1.teardrops && s4.goldtears == s2.goldtears && s4.redtears == s3.redtears;
  }

  /** updateGame: the four passes, one checkpoint test, the game-over test. */
  function Tick(st: State): State
    requires st.bucket.Some?
  {
    var p := AllPasses(st);
    var crossed := p.score >= p.lastCheckpoint + 100;
    p.(speedMultiplier := if crossed then p.speedMultiplier * 1.1 else p.speedMultiplier,
       lastCheckpoint := CheckpointStep(p.score, p.lastCheckpoint),
       gameActive := p.gameActive && p.lives > 0)
  }

  /** Whether updateGame hands the session over to handleGameOver. */
  predicate HandsOff(st: State)
    requires st.gameActive ==> st.bucket.Some?
  {
    st.gameActive && Tick(st).lives <= 0
  }

  /** gameLoop: a tick only while the session is active. */
  function LoopStep(st: State): (r: State)
    requires st.gameActive ==> st.bucket.Some?
    ensures !st.gameActive ==> r == st
  {
    if st.gameActive then Tick(st) else st
  }

  // ---------------------------------------------------------------------------
  // Spawning, pointer, resize, reset

  /** spawnTeardrop and its siblings: append one new tear while active. */
  function SpawnStep(st: State, k: Kind, rx: real, r1: real, r2: real): (r: State)
    ensures !st.gameActive ==> r == st
    ensures st.gameActive ==>
      && |TearsOf(r, k)| == |TearsOf(st, k)| + 1
      && TearsOf(r, k)[..|TearsOf(st, k)|] == TearsOf(st, k)
      && (forall k' :: k' != k ==> TearsOf(r, k') == TearsOf(st, k'))
      && r.score == st.score && r.lives == st.lives && r.bucket == st.bucket
      && r.gameActive && r.splashes == st.splashes
      && r.lastCheckpoint == st.lastCheckpoint && r.speedMultiplier == st.speedMultiplier
    ensures st.gameActive ==>
      TearsOf(r, k)[|TearsOf(st, k)|] == NewTear(k, st.canvasWidth, st.speedMultiplier, rx, r1, r2)
    ensures r.(teardrops := st.teardrops, goldtears := st.goldtears,
               redtears := st.redtears, blacktears := st.blacktears) == st
  {
    if !st.gameActive then st
    else
      var t := NewTear(k, st.canvasWidth, st.speedMultiplier, rx, r1, r2);
      WithTears(st, k, TearsOf(st, k) + [t])
  }

  /** handlePointerMove, with the pointer's x relative to the canvas. */
  function PointerStep(st: State, pointerX: real): (r: State)
    ensures !st.gameActive || st.bucket.None? ==> r == st
    ensures r.bucket.Some? <==> st.bucket.Some?
    ensures st.gameActive && st.bucket.Some? && st.canvasWidth >= st.bucket.value.width ==>
      0.0 <= r.bucket.value.x <= r.canvasWidth - r.bucket.value.width
    ensures r.(bucket := st.bucket) == st
    ensures r.bucket.Some? ==> r.bucket.value.(x := st.bucket.value.x) == st.bucket.value
    ensures st.gameActive && st.bucket.Some? ==>
      r.bucket.value.x == ClampBucketX(pointerX, st.bucket.value.width, st.canvasWidth)
  {
    if !st.gameActive || st.bucket.None? then st
    else
      var b := st.bucket.value;
      st.(bucket := Some(b.(x := ClampBucketX(pointerX, b.width, st.canvasWidth))))
  }

  /** resizeCanvas: new canvas size, bucket moved to the new bottom and pulled
      left if it now sticks out on the right. */
  function ResizeStep(st: State, width: real, height: real): (r: State)
    ensures r.canvasWidth == width && r.canvasHeight == height
    ensures r.bucket.Some? <==> st.bucket.Some?
    ensures r.bucket.Some? ==>
      && r.bucket.value.y == height - 80.0
      && r.bucket.value.x <= width - r.bucket.value.width
      && r.bucket.value.x <= st.bucket.value.x
      && (st.bucket.value.x <= width - st.bucket.value.width ==> r.bucket.value.x == st.bucket.value.x)
      && (st.bucket.value.x > width - st.bucket.value.width ==> r.bucket.value.x == width - st.bucket.value.width)
      && r.bucket.value.(x := st.bucket.value.x, y := st.bucket.value.y) == st.bucket.value
    ensures r.(canvasWidth := st.canvasWidth, canvasHeight := st.canvasHeight, bucket := st.bucket) == st
  {
    var moved := match st.bucket
      case None => None
      case Some(b) => Some(b.(y := height - 80.0, x := Min(b.x, width - b.width)));
    st.(canvasWidth := width, canvasHeight := height, bucket := moved)
  }

  /** clearGame: empty the four tear arrays and the splashes. */
  function ClearStep(st: State): (r: State)
    ensures forall k :: TearsOf(r, k) == []
    ensures r.splashes == []
    ensures r.(teardrops := st.teardrops, goldtears := st.goldtears, redtears := st.redtears,
               blacktears := st.blacktears, splashes := st.splashes) == st
  {
    st.(teardrops := [], goldtears := [], redtears := [], blacktears := [], splashes := [])
  }

  /** The bucket initGame places: 70 by 70, its left edge 50 left of the
      canvas centre, 80 above the bottom. */
  function StartBucket(canvasWidth: real, canvasHeight: real): Bucket
  {
    Bucket(canvasWidth / 2.0 - 50.0, canvasHeight - 80.0, 70.0, 70.0)
  }

  /** The field resets of initGame. */
  function ResetStep(st: State): State
  {
    st.(score := 0, lives := 10, speedMultiplier := 1.0, lastCheckpoint := 0, gameActive := true,
        bucket := Some(StartBucket(st.canvasWidth, st.canvasHeight)))
  }

  /** initGame: the resets, then the first gameLoop frame. */
  function InitStep(st: State): State
  {
    LoopStep(ResetStep(st))
  }

  /** startGame: clearGame, then initGame. */
  function StartStep(st: State): (r: State)
    ensures Inv(r)
    ensures r.score == 0 && r.lives == 10 && r.speedMultiplier == 1.0 && r.lastCheckpoint == 0
    ensures r.gameActive && r.bucket == Some(StartBucket(st.canvasWidth, st.canvasHeight))
    ensures forall k :: TearsOf(r, k) == []
    ensures r.splashes == []
    ensures r.canvasWidth == st.canvasWidth && r.canvasHeight == st.canvasHeight
  {
    var c := ResetStep(ClearStep(st));
    FirstFrameIsQuiet(c);
    InitStep(ClearStep(st))
  }

  /** With no tear on screen, lives left and no checkpoint due, a frame
      changes nothing. */
  lemma FirstFrameIsQuiet(st: State)
    requires st.bucket.Some? && st.lives > 0 && st.score < st.lastCheckpoint + 100
    requires forall k :: TearsOf(st, k) == []
    ensures Tick(st) == st
  {
    var b, h := st.bucket.value, st.canvasHeight;
    assert TearsOf(st, Teardrop) == [] && TearsOf(st, Goldtear) == [];
    assert TearsOf(st, Redtear) == [] && TearsOf(st, Blacktear) == [];
    assert AllPasses(st) == st;
  }

  // ---------------------------------------------------------------------------
  // What one tick promises

  /** A tick adds one point per caught blue teardrop and fifteen per caught gold
      tear, and nothing else; the score never goes down. */
  lemma {:induction false} TickScore(st: State)
    requires st.bucket.Some?
    ensures var b, h := st.bucket.value, st.canvasHeight;
      Tick(st).score == st.score + Count(st.teardrops, b, h, Caught) + 15 * Count(st.goldtears, b, h, Caught)
    ensures Tick(st).score >= st.score
  {
    var b, h := st.bucket.value, st.canvasHeight;
    ScoreGainByKind(st.teardrops, b, h, Teardrop);
    ScoreGainByKind(st.goldtears, b, h, Goldtear);
    ScoreGainByKind(st.redtears, b, h, Redtear);
    ScoreGainByKind(st.blacktears, b, h, Blacktear);
    assert ScoreGain(st.teardrops, b, h, Teardrop) == Count(st.teardrops, b, h, Caught);
    assert ScoreGain(st.goldtears, b, h, Goldtear) == 15 * Count(st.goldtears, b, h, Caught);
    assert ScoreGain(st.redtears, b, h, Redtear) == 0 && ScoreGain(st.blacktears, b, h, Blacktear) == 0;
    assert Tick(st).score == AllPasses(st).score;
  }

  /** A tick costs one life per missed blue, gold or black tear and per caught
      red tear, gives one per caught black tear, and nothing for a missed red
      tear. */
  lemma {:induction false} TickLives(st: State)
    requires st.bucket.Some?
    ensures var b, h := st.bucket.value, st.canvasHeight;
      Tick(st).lives == st.lives
        - Count(st.teardrops, b, h, Missed)
        - Count(st.goldtears, b, h, Missed)
        - Count(st.redtears, b, h, Caught)
        + Count(st.blacktears, b, h, Caught) - Count(st.blacktears, b, h, Missed)
  {
    var b, h := st.bucket.value, st.canvasHeight;
    LifeChangeByKind(st.teardrops, b, h, Teardrop);
    LifeChangeByKind(st.goldtears, b, h, Goldtear);
    LifeChangeByKind(st.redtears, b, h, Redtear);
    LifeChangeByKind(st.blacktears, b, h, Blacktear);
  }

  /** The checkpoint moves by 0 or by exactly 100 in a tick, by 100 exactly when
      the new score is at least 100 above the old checkpoint, and the speed
      multiplier is multiplied by 1.1 exactly then; it never decreases. */
  lemma TickCheckpoint(st: State)
    requires st.bucket.Some? && Inv(st)
    ensures var r := Tick(st);
      && (r.lastCheckpoint == st.lastCheckpoint || r.lastCheckpoint == st.lastCheckpoint + 100)
      && (r.lastCheckpoint == st.lastCheckpoint + 100 <==> r.score >= st.lastCheckpoint + 100)
      && r.speedMultiplier == (if r.lastCheckpoint == st.lastCheckpoint then st.speedMultiplier
                               else st.speedMultiplier * 1.1)
      && r.speedMultiplier >= st.speedMultiplier >= 1.0
  {
    PowAtLeastOne(1.1, st.lastCheckpoint / 100);
  }

  /** A tick keeps the session invariant. */
  lemma TickKeepsInv(st: State)
    requires st.bucket.Some? && Inv(st)
    ensures Inv(Tick(st))
  {
    var p := AllPasses(st);
    TickScore(st);
    CheckpointStepLaw(p.score, p.lastCheckpoint);
    var n := st.lastCheckpoint / 100;
    if p.score >= p.lastCheckpoint + 100 {
      assert (st.lastCheckpoint + 100) / 100 == n + 1;
      assert Pow(1.1, n + 1) == 1.1 * Pow(1.1, n);
    }
  }

  /** A tick ends the session exactly when it hands over to handleGameOver, and
      that happens only to an active session whose lives have run out; an
      inactive session stays inactive. */
  lemma TickGameOver(st: State)
    requires st.bucket.Some?
    ensures !st.gameActive ==> !Tick(st).gameActive
    ensures (st.gameActive && !Tick(st).gameActive) <==> HandsOff(st)
    ensures HandsOff(st) ==> Tick(st).lives <= 0
    ensures Tick(st).gameActive ==> Tick(st).lives > 0
  {
  }

  /** A spawned tear starts one tear-height above the canvas, inside it
      horizontally, at a speed below (base + 5) times the current multiplier. */
  lemma SpawnedTearBounds(st: State, k: Kind, rx: real, r1: real, r2: real)
    requires Inv(st) && st.gameActive && st.canvasWidth > 50.0
    requires 0.0 <= rx < 1.0 && 0.0 <= r1 < 1.0 && 0.0 <= r2 < 1.0
    ensures var s := TearsOf(SpawnStep(st, k, rx, r1, r2), k);
      var t := s[|s| - 1];
      && t.y == -50.0 && 0.0 <= t.x < st.canvasWidth - 50.0
      && 0.0 <= t.speed < (BaseSpeed(k) + 5.0) * st.speedMultiplier
  {
    PowAtLeastOne(1.1, st.lastCheckpoint / 100);
    NewTearBounds(k, st.canvasWidth, st.speedMultiplier, rx, r1, r2);
  }

  /** A frame in which no blue or gold tear is caught takes exactly one
      checkpoint step from the unchanged score, so a run of such frames is
      CheckpointsAfter and catches up as CheckpointCatchUp states. */
  lemma QuietTickCheckpoint(st: State)
    requires st.bucket.Some?
    requires Count(st.teardrops, st.bucket.value, st.canvasHeight, Caught) == 0
    requires Count(st.goldtears, st.bucket.value, st.canvasHeight, Caught) == 0
    ensures Tick(st).score == st.score
    ensures Tick(st).lastCheckpoint == CheckpointStep(st.score, st.lastCheckpoint)
  {
    TickScore(st);
  }

  /** Lives are not clamped at zero: two blue teardrops leaving the canvas in
      the same tick take a session with one life left to minus one, and the
      session ends there. */
  lemma LivesCanGoBelowZero()
    ensures var fallen := Tear(500.0, 595.0, 10.0, 30.0, 50.0);
      var st := State(800.0, 600.0, true, 0, 1, 1.0, 0, Some(Bucket(0.0, 520.0, 70.0, 70.0)),
                      [fallen, fallen], [], [], [], []);
      Tick(st).lives == -1 && !Tick(st).gameActive && HandsOff(st)
  {
    var fallen := Tear(500.0, 595.0, 10.0, 30.0, 50.0);
    var b := Bucket(0.0, 520.0, 70.0, 70.0);
    assert FateOf(fallen, b, 600.0) == Missed;
    assert [fallen, fallen][1..] == [fallen];
  }

  // ---------------------------------------------------------------------------
  // A session as a run of events

  /** What can happen between two startGame calls: a frame of the loop, a
      spawn timer firing (with its random draws), a pointer move, a resize. */
  datatype Event =
    | Frame
    | Spawn(kind: Kind, rx: real, r1: real, r2: real)
    | PointerMove(pointerX: real)
    | Resize(width: real, height: real)

  /** An active session always has a bucket. */
  predicate WellFormed(st: State)
  {
    st.gameActive ==> st.bucket.Some?
  }

  function Apply(st: State, e: Event): (r: State)
    requires WellFormed(st)
    ensures WellFormed(r)
    ensures r.gameActive ==> st.gameActive
    ensures !e.Frame? ==> r.gameActive == st.gameActive && r.score == st.score && r.lives == st.lives
  {
    match e
    case Frame => LoopStep(st)
    case Spawn(k, rx, r1, r2) => SpawnStep(st, k, rx, r1, r2)
    case PointerMove(px) => PointerStep(st, px)
    case Resize(w, h) => ResizeStep(st, w, h)
  }

  function Run(st: State, evs: seq<Event>): State
    requires WellFormed(st)
    decreases |evs|
  {
    if evs == [] then st else Run(Apply(st, evs[0]), evs[1..])
  }

  /** How many times a run hands over to handleGameOver. */
  function Handoffs(st: State, evs: seq<Event>): nat
    requires WellFormed(st)
    decreases |evs|
  {
    if evs == [] then 0
    else (if evs[0].Frame? && HandsOff(st) then 1 else 0) + Handoffs(Apply(st, evs[0]), evs[1..])
  }

  /** Within a session the game-over handover happens at most once, and never
      once the session is over. */
  lemma {:induction false} AtMostOneHandoff(st: State, evs: seq<Event>)
    requires WellFormed(st)
    ensures Handoffs(st, evs) <= (if st.gameActive then 1 else 0)
    decreases |evs|
  {
    if evs != [] {
      var next := Apply(st, evs[0]);
      AtMostOneHandoff(next, evs[1..]);
      if evs[0].Frame? && HandsOff(st) {
        TickGameOver(st);
      }
    }
  }

  /** Every event keeps the session invariant. */
  lemma ApplyKeepsInv(st: State, e: Event)
    requires Inv(st)
    ensures Inv(Apply(st, e))
  {
    if e.Frame? && st.gameActive {
      TickKeepsInv(st);
    }
  }

  /** Along any run the invariant holds and the score never goes down. */
  lemma {:induction false} RunKeepsInv(st: State, evs: seq<Event>)
    requires Inv(st)
    ensures Inv(Run(st, evs))
    ensures Run(st, evs).score >= st.score
    decreases |evs|
  {
    if evs != [] {
      ApplyKeepsInv(st, evs[0]);
      var next := Apply(st, evs[0]);
      if evs[0].Frame? && st.gameActive {
        TickScore(st);
      }
      RunKeepsInv(next, evs[1..]);
    }
  }
}
