/** The session's score and combo ledger, the speed/difficulty ramp and the
    floating point indicators, as values (src/js/modules/GameEngine.js). The
    GameEngine class keeps these in its fields and is proved against them. */
module Scoring {
  import opened JsMath

  // ---------------------------------------------------------------------------
  // Combo ledger

  /** Frames a combo survives without a new clear. */
  const ComboTimeLimit: nat := 180

  /** Base points per obstacle type name. */
  const ObstaclePoints: map<string, int> :=
    map["box" := 10, "spike" := 15, "tall" := 20, "moving" := 25, "breakable" := 30, "powerup" := 50]

  /** Points for a type name missing from the table. */
  const DefaultPoints: int := 10

  datatype Ledger = Ledger(score: int, combo: nat, maxCombo: nat, multiplier: real, comboTimer: nat)

  /** The ledger `start` establishes. */
  const FreshLedger: Ledger := Ledger(0, 0, 0, 1.0, 0)

  function BasePoints(obstacleType: string): (p: int)
    ensures DefaultPoints <= p <= 50 && p % 5 == 0
    ensures obstacleType !in ObstaclePoints ==> p == DefaultPoints
  {
    if obstacleType in ObstaclePoints then ObstaclePoints[obstacleType] else DefaultPoints
  }

  /** The multiplier a combo earns: one half more for every three clears in a row. */
  function Multiplier(combo: nat): (m: real)
    ensures m >= 1.0
    ensures combo < 3 <==> m == 1.0
  {
    1.0 + (combo / 3) as real * 0.5
  }

  /** What every ledger operation keeps: the best combo bounds the current one,
      a live combo's timer stays within the limit and an idle one's is zero, and
      the multiplier is always the one the combo earns. */
  ghost predicate Coherent(l: Ledger) {
    && l.maxCombo >= l.combo
    && l.comboTimer <= ComboTimeLimit
    && (l.combo == 0 ==> l.comboTimer == 0)
    && l.multiplier == Multiplier(l.combo)
  }

  /** The points a clear earns when it brings the combo to `combo`. */
  function ClearPoints(obstacleType: string, combo: nat, difficultyLevel: nat, gameSpeed: real): (p: int)
    ensures p >= BasePoints(obstacleType) + 2 * difficultyLevel + (gameSpeed * 3.0).Floor
    ensures p == (BasePoints(obstacleType) as real * Multiplier(combo)).Floor
                 + 2 * difficultyLevel + (gameSpeed * 3.0).Floor
  {
    var base := BasePoints(obstacleType);
    var multiplied := if combo >= 3 then (base as real * Multiplier(combo)).Floor else base;
    // The difficulty level is a whole number, so flooring twice it changes nothing.
    multiplied + 2 * difficultyLevel + (gameSpeed * 3.0).Floor
  }

  /** `addObstaclePoints` on the ledger: the new ledger and the points awarded. */
  function Award(l: Ledger, obstacleType: string, difficultyLevel: nat, gameSpeed: real): (r: (Ledger, int))
    ensures r.0.combo == l.combo + 1 && r.0.comboTimer == 0
    ensures r.0.maxCombo == Max(l.maxCombo, l.combo + 1)
    ensures r.1 == ClearPoints(obstacleType, l.combo + 1, difficultyLevel, gameSpeed)
    ensures r.0.score == l.score + r.1
    ensures r.0.combo >= 3 ==> r.0.multiplier == Multiplier(r.0.combo)
    ensures r.0.combo < 3 ==> r.0.multiplier == l.multiplier
    ensures Coherent(l) ==> Coherent(r.0)
  {
    var combo := l.combo + 1;
    var maxCombo := Max(l.maxCombo, combo);
    var multiplier := if combo >= 3 then Multiplier(combo) else l.multiplier;
    var total := ClearPoints(obstacleType, combo, difficultyLevel, gameSpeed);
    (Ledger(l.score + total, combo, maxCombo, multiplier, 0), total)
  }

  function ResetCombo(l: Ledger): (r: Ledger)
    ensures r.combo == 0 && r.multiplier == 1.0 && r.comboTimer == 0
    ensures r.score == l.score && r.maxCombo == l.maxCombo
    ensures Coherent(l) ==> Coherent(r)
  {
    l.(combo := 0, multiplier := 1.0, comboTimer := 0)
  }

  /** One frame of combo decay. */
  function DecayCombo(l: Ledger): (r: Ledger)
    ensures l.combo == 0 ==> r == l
    ensures r.combo > 0 ==> r.comboTimer <= ComboTimeLimit
    ensures r.score == l.score && r.maxCombo == l.maxCombo
    ensures l.combo > 0 ==> (r.combo == 0 <==> l.comboTimer + 1 > ComboTimeLimit)
    ensures r.combo > 0 ==> r == l.(comboTimer := l.comboTimer + 1)
    ensures Coherent(l) ==> Coherent(r)
  {
    if l.combo > 0 then
      var t := l.(comboTimer := l.comboTimer + 1);
      if t.comboTimer > ComboTimeLimit then ResetCombo(t) else t
    else l
  }

  /** `n` frames of decay with no clear in between. */
  function DecayComboTimes(l: Ledger, n: nat): Ledger {
    if n == 0 then l else DecayCombo(DecayComboTimes(l, n - 1))
  }

  /** A combo fresh from a clear survives exactly 180 frames without another
      clear: it is intact, its timer counting, through frame 180, and frame 181
      resets it. */
  lemma {:induction false} ComboLifetime(l: Ledger, n: nat)
    requires l.combo > 0 && l.comboTimer == 0
    ensures n <= ComboTimeLimit ==> DecayComboTimes(l, n) == l.(comboTimer := n)
    ensures n == ComboTimeLimit + 1 ==> DecayComboTimes(l, n) == ResetCombo(l)
  {
    if n > 0 && n <= ComboTimeLimit + 1 {
      ComboLifetime(l, n - 1);
    }
  }

  /** Clearing more obstacles in a row never earns fewer points per clear. */
  lemma ClearPointsGrowWithCombo(obstacleType: string, c1: nat, c2: nat, difficultyLevel: nat, gameSpeed: real)
    requires c1 <= c2
    ensures ClearPoints(obstacleType, c1, difficultyLevel, gameSpeed)
            <= ClearPoints(obstacleType, c2, difficultyLevel, gameSpeed)
  {
  }

  /** Points earned by surviving one frame. */
  function SurvivalPoints(gameSpeed: real): (p: int)
    ensures gameSpeed >= 0.0 ==> p >= 0
    ensures p as real <= gameSpeed / 3.0 < p as real + 1.0
  {
    (gameSpeed / 3.0).Floor
  }

  // ---------------------------------------------------------------------------
  // Speed and difficulty ramp

  const StartSpeed: real := 1.5
  const SpeedStep: real := 0.3
  /** The speed timer runs until it exceeds this many frames. */
  const RampFrames: nat := 300

  datatype Pace = Pace(gameSpeed: real, speedIncreaseTimer: nat, difficultyLevel: nat)

  /** The pace `start` establishes. */
  const StartPace: Pace := Pace(StartSpeed, 0, 0)

  /** Speed is a function of difficulty, and the ramp timer stays within its period. */
  ghost predicate OnSchedule(p: Pace) {
    p.gameSpeed == StartSpeed + SpeedStep * p.difficultyLevel as real && p.speedIncreaseTimer <= RampFrames
  }

  /** One frame of the speed ramp. */
  function Ramp(p: Pace): (q: Pace)
    ensures q.difficultyLevel == p.difficultyLevel || q.difficultyLevel == p.difficultyLevel + 1
    ensures q.difficultyLevel == p.difficultyLevel + 1 <==> p.speedIncreaseTimer + 1 > RampFrames
    ensures q.gameSpeed >= p.gameSpeed
    ensures OnSchedule(p) ==> OnSchedule(q)
  {
    var timer := p.speedIncreaseTimer + 1;
    if timer > RampFrames then Pace(p.gameSpeed + SpeedStep, 0, p.difficultyLevel + 1)
    else p.(speedIncreaseTimer := timer)
  }

  function RampTimes(p: Pace, n: nat): Pace {
    if n == 0 then p else Ramp(RampTimes(p, n - 1))
  }

  /** From the start of a run, difficulty rises once every 301 frames. */
  lemma {:induction false} RampSchedule(n: nat)
    ensures var period := RampFrames + 1;
            RampTimes(StartPace, n)
              == Pace(StartSpeed + SpeedStep * (n / period) as real, n % period, n / period)
  {
    if n > 0 {
      RampSchedule(n - 1);
      var q, s := (n - 1) / 301, (n - 1) % 301;
      assert n - 1 == 301 * q + s && s <= 300;
      if s == 300 {
        DivModUnique(n, q + 1, 0);
        assert Ramp(Pace(StartSpeed + SpeedStep * q as real, s, q))
               == Pace(StartSpeed + SpeedStep * (q + 1) as real, 0, q + 1);
      } else {
        DivModUnique(n, q, s + 1);
      }
    }
  }

  /** On schedule and in exact real arithmetic, surviving a frame is worth one
      point per ten difficulty levels, rounded from level 5: the first five
      levels (1505 frames) earn nothing. */
  lemma SurvivalPointsOnSchedule(p: Pace)
    requires OnSchedule(p)
    ensures SurvivalPoints(p.gameSpeed) == (p.difficultyLevel + 5) / 10
    ensures SurvivalPoints(p.gameSpeed) == 0 <==> p.difficultyLevel < 5
  {
  }

  lemma DivModUnique(n: nat, q: nat, s: nat)
    requires s <= 300 && n == 301 * q + s
    ensures n / (RampFrames + 1) == q && n % (RampFrames + 1) == s
  {
  }

  // ---------------------------------------------------------------------------
  // Floating point indicators

  /** Frames an indicator stays on screen. */
  const PointLife: int := 60

  datatype FloatingPoint = FloatingPoint(x: real, y: real, points: int, life: int, velocityY: real, alpha: real)

  /** The indicator `addFloatingPoint` pushes: 20 above the clear, rising 2 per frame. */
  function NewFloatingPoint(points: int, x: real, y: real): (p: FloatingPoint)
    ensures p.points == points && p.x == x && p.y == y - 20.0
    ensures p.life == PointLife && p.velocityY < 0.0
    ensures p.alpha * PointLife as real == p.life as real
  {
    FloatingPoint(x, y - 20.0, points, PointLife, -2.0, 1.0)
  }

  /** One indicator after a draw pass. */
  function Faded(p: FloatingPoint): (q: FloatingPoint)
    ensures q.life == p.life - 1 && q.y == p.y + p.velocityY
    ensures q.alpha * PointLife as real == q.life as real
  {
    p.(y := p.y + p.velocityY, life := p.life - 1, alpha := (p.life - 1) as real / PointLife as real)
  }

  /** The list after one draw pass: every indicator faded, the spent ones dropped. */
  function Aged(points: seq<FloatingPoint>): (r: seq<FloatingPoint>)
    ensures |r| <= |points|
    ensures forall q :: q in r ==> q.life > 0
  {
    if points == [] then []
    else
      var q := Faded(points[|points| - 1]);
      Aged(points[..|points| - 1]) + (if q.life > 0 then [q] else [])
  }

  /** Aging one more element of `points` extends the aged prefix by at most that element. */
  lemma AgedStep(points: seq<FloatingPoint>, i: nat)
    requires i < |points|
    ensures Aged(points[..i + 1])
              == Aged(points[..i]) + (if Faded(points[i]).life > 0 then [Faded(points[i])] else [])
  {
    assert points[..i + 1][..i] == points[..i];
  }

  /** Aging never lengthens an indicator's remaining life. */
  lemma {:induction false} AgedLife(points: seq<FloatingPoint>)
    requires forall p :: p in points ==> p.life <= PointLife
    ensures forall q :: q in Aged(points) ==> 0 < q.life <= PointLife
    decreases |points|
  {
    if points != [] {
      var front := points[..|points| - 1];
      assert forall p :: p in front ==> p in points;
      AgedLife(front);
    }
  }

  function AgedTimes(points: seq<FloatingPoint>, n: nat): seq<FloatingPoint> {
    if n == 0 then points else Aged(AgedTimes(points, n - 1))
  }

  /** Aging keeps the relative order: it works element by element. */
  lemma {:induction false} AgedAppend(a: seq<FloatingPoint>, b: seq<FloatingPoint>)
    ensures Aged(a + b) == Aged(a) + Aged(b)
    decreases |b|
  {
    if b == [] {
      assert a + b == a;
    } else {
      var b' := b[..|b| - 1];
      assert (a + b)[..|a + b| - 1] == a + b';
      assert (a + b)[|a + b| - 1] == b[|b| - 1];
      AgedAppend(a, b');
    }
  }

  lemma AgedSingle(p: FloatingPoint)
    ensures Aged([p]) == if p.life > 1 then [Faded(p)] else []
  {
  }

  /** The indicator after `n` passes, as long as it lives. */
  function FadedTimes(p: FloatingPoint, n: nat): FloatingPoint {
    p.(y := p.y + n as real * p.velocityY, life := p.life - n,
       alpha := (p.life - n) as real / PointLife as real)
  }

  lemma FadedStep(p: FloatingPoint, n: nat)
    requires n > 0
    ensures Faded(FadedTimes(p, n - 1)) == FadedTimes(p, n)
  {
  }

  /** An indicator with `life` frames left is on screen, risen `n` steps and with
      the matching alpha, after each of the first `life - 1` passes, and gone
      after pass `life`. */
  lemma {:induction false} FadeOut(p: FloatingPoint, n: nat)
    requires 0 < n <= p.life
    ensures n < p.life ==> AgedTimes([p], n) == [FadedTimes(p, n)]
    ensures n == p.life ==> AgedTimes([p], n) == []
  {
    if n == 1 {
      AgedSingle(p);
      FadedStep(p, 1);
      assert FadedTimes(p, 0).y == p.y;
      assert FadedTimes(p, 0) == p.(alpha := FadedTimes(p, 0).alpha);
    } else {
      FadeOut(p, n - 1);
      AgedSingle(FadedTimes(p, n - 1));
      FadedStep(p, n);
    }
  }

  /** A new indicator is drawn on exactly 60 passes. */
  lemma FloatingPointLifetime(points: int, x: real, y: real)
    ensures |AgedTimes([NewFloatingPoint(points, x, y)], PointLife - 1)| == 1
    ensures AgedTimes([NewFloatingPoint(points, x, y)], PointLife) == []
  {
    FadeOut(NewFloatingPoint(points, x, y), PointLife - 1);
    FadeOut(NewFloatingPoint(points, x, y), PointLife);
  }
}
