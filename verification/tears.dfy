/** Falling tears, the bucket, splash effects, and the rules that decide the fate
    of one tear in one tick of the tear-catch game. Coordinates and speeds are
    exact reals; the host's random draws are parameters. */
module Tears {

  datatype Option<T> = None | Some(value: T)

  /** The four tear categories: blue teardrops, gold tears, red tears and
      black tears (drawn green, they give a life back). */
  datatype Kind = Teardrop | Goldtear | Redtear | Blacktear

  /** A falling tear: top-left corner, fall per tick, size. */
  datatype Tear = Tear(x: real, y: real, speed: real, width: real, height: real)

  /** The player's catcher. */
  datatype Bucket = Bucket(x: real, y: real, width: real, height: real)

  /** A splash effect; `kind` picks the colour subclass (Splash, GoldSplash,
      RedSplash, GreenSplash). */
  datatype Splash = Splash(x: real, y: real, size: real, opacity: real, kind: Kind)

  /** What one tick does to a tear. */
  datatype Fate = Caught | Missed | Falling

  function Min(a: real, b: real): real { if a <= b then a else b }
  function Max(a: real, b: real): real { if a >= b then a else b }

  // ---------------------------------------------------------------------------
  // Construction

  /** Base factor of a category's fall speed. */
  function BaseSpeed(k: Kind): real
  {
    match k
    case Teardrop => 4.0
    case Goldtear => 6.0
    case Redtear => 3.0
    case Blacktear => 4.0
  }

  /** The tear constructors. `rx` is the draw that places the tear, `r1` and
      `r2` the two draws that set its speed (a subclass replaces the speed the
      base constructor drew, so only the last two speed draws matter). */
  function NewTear(k: Kind, canvasWidth: real, multiplier: real, rx: real, r1: real, r2: real): Tear
  {
    Tear(Scaled(rx, canvasWidth - 50.0), -50.0, TearSpeed(k, multiplier, r1, r2), 30.0, 50.0)
  }

  /** A random draw in [0, 1) stretched over [0, range). */
  function Scaled(r: real, range: real): real
  {
    r * range
  }

  function TearSpeed(k: Kind, multiplier: real, r1: real, r2: real): real
  {
    r1 * BaseSpeed(k) * multiplier + r2 * 100.0 * multiplier / 20.0
  }

  lemma ScaledBelow(r: real, c: real)
    requires 0.0 <= r < 1.0 && c > 0.0
    ensures 0.0 <= Scaled(r, c) < c
  {
  }

  lemma SpeedBelow(k: Kind, m: real, r1: real, r2: real)
    requires m > 0.0 && 0.0 <= r1 < 1.0 && 0.0 <= r2 < 1.0
    ensures 0.0 <= TearSpeed(k, m, r1, r2) < (BaseSpeed(k) + 5.0) * m
  {
    var base := BaseSpeed(k);
    assert r1 * base * m == r1 * (base * m);
    assert r2 * 100.0 * m / 20.0 == r2 * (5.0 * m);
    ScaledBelow(r1, base * m);
    ScaledBelow(r2, 5.0 * m);
  }

  /** With draws in [0, 1) a new tear starts just above the canvas, inside it
      horizontally, with a speed in [0, (base + 5) * multiplier). */
  lemma NewTearBounds(k: Kind, canvasWidth: real, multiplier: real, rx: real, r1: real, r2: real)
    requires 0.0 <= rx < 1.0 && 0.0 <= r1 < 1.0 && 0.0 <= r2 < 1.0
    requires multiplier > 0.0 && canvasWidth > 50.0
    ensures var t := NewTear(k, canvasWidth, multiplier, rx, r1, r2);
      && t.y == -t.height && t.width == 30.0 && t.height == 50.0
      && 0.0 <= t.x < canvasWidth - 50.0
      && 0.0 <= t.speed < (BaseSpeed(k) + 5.0) * multiplier
  {
    ScaledBelow(rx, canvasWidth - 50.0);
    SpeedBelow(k, multiplier, r1, r2);
  }

  /** Delay before a category's next spawn, from one random draw `r`. */
  function SpawnDelay(k: Kind, r: real): (ms: real)
    ensures 0.0 <= r < 1.0 ==>
      match k
      case Teardrop => 300.0 <= ms < 1050.0
      case Goldtear => 1500.0 <= ms < 4500.0
      case Redtear => 3000.0 <= ms < 15000.0
      case Blacktear => 3000.0 <= ms < 9000.0
  {
    match k
    case Teardrop => r * 750.0 + 300.0
    case Goldtear => r * 3000.0 + 1500.0
    case Redtear => r * 12000.0 + 3000.0
    case Blacktear => r * 6000.0 + 3000.0
  }

  // ---------------------------------------------------------------------------
  // Movement and collision

  /** Teardrop.update: fall by one speed step. */
  function Advance(t: Tear): Tear
  {
    t.(y := t.y + t.speed)
  }

  /** checkCollision: both axis ranges overlap, with strict comparisons. */
  function CheckCollision(e: Tear, b: Bucket): bool
  {
    && e.x < b.x + b.width
    && e.x + e.width > b.x
    && e.y < b.y + b.height
    && e.y + e.height > b.y
  }

  ghost predicate InsideTear(e: Tear, px: real, py: real)
  {
    e.x < px < e.x + e.width && e.y < py < e.y + e.height
  }

  ghost predicate InsideBucket(b: Bucket, px: real, py: real)
  {
    b.x < px < b.x + b.width && b.y < py < b.y + b.height
  }

  /** For boxes of positive size, the strict test holds exactly when some point
      lies in the interior of both boxes; boxes that only touch along an edge or
      at a corner do not collide. */
  lemma CollisionIffSharedInterior(e: Tear, b: Bucket)
    requires e.width > 0.0 && e.height > 0.0 && b.width > 0.0 && b.height > 0.0
    ensures CheckCollision(e, b) <==> exists px, py :: InsideTear(e, px, py) && InsideBucket(b, px, py)
  {
    if CheckCollision(e, b) {
      var px := (Max(e.x, b.x) + Min(e.x + e.width, b.x + b.width)) / 2.0;
      var py := (Max(e.y, b.y) + Min(e.y + e.height, b.y + b.height)) / 2.0;
      assert InsideTear(e, px, py) && InsideBucket(b, px, py);
    }
  }

  /** The branch updateEntities takes for a tear: advance it, then caught if it
      overlaps the bucket, else missed if it is below the canvas. */
  function FateOf(t: Tear, b: Bucket, h: real): Fate
  {
    var a := Advance(t);
    if CheckCollision(a, b) then Caught
    else if a.y > h then Missed
    else Falling
  }

  // ---------------------------------------------------------------------------
  // Scoring table

  /** Score added when a tear of kind `k` is caught. */
  function Points(k: Kind): nat
  {
    match k
    case Teardrop => 1
    case Goldtear => 15
    case Redtear => 0
    case Blacktear => 0
  }

  /** Lives changed when a tear of kind `k` is caught. */
  function LifeOnCatch(k: Kind): int
  {
    match k
    case Redtear => -1
    case Blacktear => 1
    case _ => 0
  }

  /** Lives changed when a tear of kind `k` falls off the bottom. */
  function LifeOnMiss(k: Kind): int
  {
    if k == Redtear then 0 else -1
  }

  /** The splash object's constructor. */
  function NewSplash(x: real, y: real, k: Kind): Splash
  {
    Splash(x, y, 30.0, 1.0, k)
  }

  /** The splash a caught tear leaves: at its centre, on the bucket's top. */
  function SplashFor(t: Tear, b: Bucket, k: Kind): Splash
  {
    var a := Advance(t);
    NewSplash(a.x + a.width / 2.0, b.y, k)
  }

  // ---------------------------------------------------------------------------
  // One category pass, stated front to back

  /** The tears still falling after one pass, advanced, in their order. */
  function Survivors(s: seq<Tear>, b: Bucket, h: real): seq<Tear>
  {
    if s == [] then []
    else (if FateOf(s[0], b, h) == Falling then [Advance(s[0])] else []) + Survivors(s[1..], b, h)
  }

  function Count(s: seq<Tear>, b: Bucket, h: real, f: Fate): nat
  {
    if s == [] then 0
    else (if FateOf(s[0], b, h) == f then 1 else 0) + Count(s[1..], b, h, f)
  }

  /** Score a pass adds: the catch points of every caught tear. */
  function ScoreGain(s: seq<Tear>, b: Bucket, h: real, k: Kind): nat
  {
    if s == [] then 0
    else (if FateOf(s[0], b, h) == Caught then Points(k) else 0) + ScoreGain(s[1..], b, h, k)
  }

  /** Lives a pass adds (negative for losses). */
  function LifeChange(s: seq<Tear>, b: Bucket, h: real, k: Kind): int
  {
    if s == [] then 0
    else
      (match FateOf(s[0], b, h)
       case Caught => LifeOnCatch(k)
       case Missed => LifeOnMiss(k)
       case Falling => 0)
      + LifeChange(s[1..], b, h, k)
  }

  /** Splashes a pass appends. The pass walks the array from the back, so the
      splash of a later tear comes first. */
  function CatchSplashes(s: seq<Tear>, b: Bucket, h: real, k: Kind): seq<Splash>
  {
    if s == [] then []
    else CatchSplashes(s[1..], b, h, k) + (if FateOf(s[0], b, h) == Caught then [SplashFor(s[0], b, k)] else [])
  }

  /** Indices j >= lo of the tears still falling, ascending. */
  function KeptIndices(s: seq<Tear>, b: Bucket, h: real, lo: nat): seq<nat>
    requires lo <= |s|
    decreases |s| - lo
  {
    if lo == |s| then []
    else (if FateOf(s[lo], b, h) == Falling then [lo] else []) + KeptIndices(s, b, h, lo + 1)
  }

  /** Every tear is caught, missed or kept, and nothing else. */
  lemma {:induction false} PassAccounting(s: seq<Tear>, b: Bucket, h: real)
    ensures |Survivors(s, b, h)| + Count(s, b, h, Caught) + Count(s, b, h, Missed) == |s|
  {
    if s != [] {
      PassAccounting(s[1..], b, h);
    }
  }

  /** The survivors of s[lo..] are exactly the still-falling tears of s[lo..],
      each advanced by its speed, in their original order: the k-th survivor is
      the advanced tear at the k-th kept index, the kept indices increase, and an
      index is kept exactly when its tear neither hit the bucket nor left the
      canvas. */
  lemma {:induction false} SurvivorsKeepOrder(s: seq<Tear>, b: Bucket, h: real, lo: nat)
    requires lo <= |s|
    ensures var idx := KeptIndices(s, b, h, lo);
      var r := Survivors(s[lo..], b, h);
      && |idx| == |r|
      && (forall k :: 0 <= k < |idx| ==> lo <= idx[k] < |s| && r[k] == Advance(s[idx[k]]))
      && (forall k1, k2 :: 0 <= k1 < k2 < |idx| ==> idx[k1] < idx[k2])
      && (forall j :: lo <= j < |s| ==> (FateOf(s[j], b, h) == Falling <==> j in idx))
    decreases |s| - lo
  {
    if lo < |s| {
      SurvivorsKeepOrder(s, b, h, lo + 1);
      assert s[lo..][1..] == s[lo + 1..];
      assert s[lo..][0] == s[lo];
    }
  }

  /** Only catches score: one point per blue teardrop, fifteen per gold tear,
      nothing for red and black tears. */
  lemma {:induction false} ScoreGainByKind(s: seq<Tear>, b: Bucket, h: real, k: Kind)
    ensures ScoreGain(s, b, h, k) == Points(k) * Count(s, b, h, Caught)
  {
    if s != [] {
      ScoreGainByKind(s[1..], b, h, k);
    }
  }

  /** Lives change by the catch row for each caught tear and by the miss row for
      each missed one; a missed red tear costs nothing. */
  lemma {:induction false} LifeChangeByKind(s: seq<Tear>, b: Bucket, h: real, k: Kind)
    ensures LifeChange(s, b, h, k)
      == LifeOnCatch(k) * Count(s, b, h, Caught) + LifeOnMiss(k) * Count(s, b, h, Missed)
    ensures k == Redtear ==> LifeChange(s, b, h, k) == -(Count(s, b, h, Caught) as int)
  {
    if s != [] {
      LifeChangeByKind(s[1..], b, h, k);
    }
  }

  /** One splash per caught tear, each on the bucket's top with the category's
      colour, full opacity and the initial size. */
  lemma {:induction false} CatchSplashesShape(s: seq<Tear>, b: Bucket, h: real, k: Kind)
    ensures var sp := CatchSplashes(s, b, h, k);
      && |sp| == Count(s, b, h, Caught)
      && forall i :: 0 <= i < |sp| ==>
           sp[i].y == b.y && sp[i].kind == k && sp[i].opacity == 1.0 && sp[i].size == 30.0
  {
    if s != [] {
      CatchSplashesShape(s[1..], b, h, k);
    }
  }

  // ---------------------------------------------------------------------------
  // Bucket movement

  /** handlePointerMove's placement: centre the bucket under the pointer, then
      clamp it to the canvas. */
  function ClampBucketX(pointerX: real, width: real, canvasWidth: real): (x: real)
    ensures x <= canvasWidth - width
    ensures canvasWidth >= width ==> 0.0 <= x
    ensures 0.0 <= pointerX - width / 2.0 <= canvasWidth - width ==> x == pointerX - width / 2.0
    ensures canvasWidth >= width && pointerX - width / 2.0 < 0.0 ==> x == 0.0
    ensures pointerX - width / 2.0 > canvasWidth - width ==> x == canvasWidth - width
  {
    Min(Max(pointerX - width / 2.0, 0.0), canvasWidth - width)
  }

  // ---------------------------------------------------------------------------
  // Speed checkpoints

  /** One checkpoint test of updateGame: at most one step of 100 per call. */
  function CheckpointStep(score: int, last: int): int
  {
    if score >= last + 100 then last + 100 else last
  }

  /** The checkpoint after n ticks during which the score stays put. */
  function CheckpointsAfter(score: int, last: int, n: nat): int
    decreases n
  {
    if n == 0 then last else CheckpointsAfter(score, CheckpointStep(score, last), n - 1)
  }

  /** A checkpoint step keeps the checkpoint a multiple of 100 between 0 and the
      score, and moves it by 0 or by exactly 100, the latter exactly when the
      score is at least 100 above it. */
  lemma CheckpointStepLaw(score: int, last: int)
    requires 0 <= last <= score && last % 100 == 0
    ensures var r := CheckpointStep(score, last);
      && 0 <= r <= score && r % 100 == 0
      && (r == last || r == last + 100)
      && (r == last + 100 <==> score >= last + 100)
  {
  }

  /** A single-step checkpoint can lag the score by more than 100, but it
      catches up: after score/100 - last/100 further ticks without a score
      change it equals the largest multiple of 100 not above the score. */
  lemma {:induction false} CheckpointCatchUp(score: int, last: int, n: nat)
    requires 0 <= last <= score && last % 100 == 0
    requires n >= score / 100 - last / 100
    ensures CheckpointsAfter(score, last, n) == score / 100 * 100
    decreases n
  {
    if n == 0 {
      assert last == last / 100 * 100;
    } else if score >= last + 100 {
      assert (last + 100) / 100 == last / 100 + 1;
      CheckpointCatchUp(score, last + 100, n - 1);
    } else {
      assert score / 100 == last / 100;
      assert last == last / 100 * 100;
      CheckpointCatchUp(score, last, n - 1);
    }
  }

  /** b to the power n. */
  function Pow(b: real, n: nat): real
  {
    if n == 0 then 1.0 else b * Pow(b, n - 1)
  }

  /** A speed multiplier built from factors of at least one is at least one. */
  lemma {:induction false} PowAtLeastOne(b: real, n: nat)
    requires b >= 1.0
    ensures Pow(b, n) >= 1.0
  {
    if n > 0 {
      PowAtLeastOne(b, n - 1);
      assert b * Pow(b, n - 1) >= 1.0 * Pow(b, n - 1);
    }
  }

  // ---------------------------------------------------------------------------
  // Splash effects

  /** Splash.update: grow by 5 and fade by 0.05. */
  function Age(sp: Splash): Splash
  {
    sp.(size := sp.size + 5.0, opacity := sp.opacity - 0.05)
  }

  function AgeTimes(sp: Splash, n: nat): Splash
  {
    if n == 0 then sp else Age(AgeTimes(sp, n - 1))
  }

  /** After n updates a new splash has grown to 30 + 5n and faded to
      1 - n/20; it is fully faded exactly from the twentieth update on, and it
      never moves or changes colour. */
  lemma {:induction false} SplashFades(x: real, y: real, k: Kind, n: nat)
    ensures var sp := AgeTimes(NewSplash(x, y, k), n);
      && sp.size == 30.0 + 5.0 * n as real
      && sp.opacity == 1.0 - n as real / 20.0
      && (sp.opacity <= 0.0 <==> n >= 20)
      && sp.x == x && sp.y == y && sp.kind == k
  {
    if n > 0 {
      SplashFades(x, y, k, n - 1);
    }
  }
}
