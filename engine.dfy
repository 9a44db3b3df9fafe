/** The game session: the per-frame update, starting and ending a run, the
    obstacle clear scoring, the floating point indicators and the jump controls
    (src/js/modules/GameEngine.js). Drawing, audio and the browser glue are not
    modelled; random draws are parameters. */
module Engine {
  import opened Options
  import opened PlayerPhysics
  import opened Obstacles
  import opened Scoring
  import opened JsMath

  class GameEngine {
    const player: Player
    const obstacleManager: ObstacleManager
    var gameRunning: bool
    var score: int
    var highScore: int
    var combo: nat
    var maxCombo: nat
    var multiplier: real
    var comboTimer: nat
    var floatingPoints: seq<FloatingPoint>
    var gameSpeed: real
    var speedIncreaseTimer: nat
    var difficultyLevel: nat

    /** The score and combo fields as one value. */
    function Ledger(): Scoring.Ledger
      reads this
    {
      Scoring.Ledger(score, combo, maxCombo, multiplier, comboTimer)
    }

    /** The speed and difficulty fields as one value. */
    function Pace(): Scoring.Pace
      reads this
    {
      Scoring.Pace(gameSpeed, speedIncreaseTimer, difficultyLevel)
    }

    ghost predicate Valid()
      reads this, player, obstacleManager
    {
      && player.Valid()
      && obstacleManager.Valid()
      && obstacleManager.canvasHeight == player.canvasHeight
      && Scoring.Coherent(Ledger())
      && OnSchedule(Pace())
      && forall p :: p in floatingPoints ==> 0 < p.life <= PointLife
    }

    /** `storedHighScore` is the value kept in browser storage, if any. */
    constructor (canvasWidth: real, canvasHeight: real, storedHighScore: Option<int>)
      ensures Valid() && fresh(player) && fresh(obstacleManager)
      ensures !gameRunning && highScore == storedHighScore.GetOr(0)
      ensures Ledger() == FreshLedger && Pace() == StartPace && floatingPoints == []
      ensures player.State() == Rest && obstacleManager.obstacles == []
    {
      gameRunning := false;
      score := 0;
      highScore := storedHighScore.GetOr(0);
      combo, maxCombo, multiplier, comboTimer := 0, 0, 1.0, 0;
      floatingPoints := [];
      gameSpeed := StartSpeed;
      speedIncreaseTimer := 0;
      difficultyLevel := 0;
      player := new Player(canvasHeight);
      obstacleManager := new ObstacleManager(canvasWidth, canvasHeight);
    }

    /** Starts (or restarts) a run. */
    method Start()
      requires Valid()
      modifies this, player, obstacleManager
      ensures Valid()
      ensures gameRunning && highScore == old(highScore)
      ensures Ledger() == FreshLedger && Pace() == StartPace && floatingPoints == []
      ensures player.State() == Rest
      ensures obstacleManager.obstacles == [] && obstacleManager.obstacleTimer == 0
    {
      gameRunning := true;
      score := 0;
      gameSpeed := StartSpeed;
      speedIncreaseTimer := 0;
      difficultyLevel := 0;
      combo := 0;
      maxCombo := 0;
      multiplier := 1.0;
      comboTimer := 0;
      floatingPoints := [];
      player.Reset();
      obstacleManager.Reset();
    }

    /** One frame of a run. `rSpawn`, `rKind` and `rTrailing` are the random draws
        of the obstacle manager. Returns the number of pass sounds and whether a
        trailing obstacle was scheduled. Does nothing when no run is going on. */
    method Update(rSpawn: real, rKind: real, rTrailing: real) returns (passes: nat, trailing: bool)
      requires Valid()
      requires 0.0 <= rSpawn < 1.0
      modifies this, player, obstacleManager
      ensures Valid()
      ensures !old(gameRunning) ==>
                unchanged(this, player, obstacleManager) && passes == 0 && !trailing
      ensures old(gameRunning) ==>
                var moved := Fall(old(player.State()), GroundY(player.canvasHeight));
                var spawned := SpawnDue(old(obstacleManager.obstacleTimer) + 1,
                                        CurrentInterval(BaseInterval, old(difficultyLevel)),
                                        CurrentRandomness(BaseRandomness, old(difficultyLevel)), rSpawn);
                && obstacleManager.obstacles
                     == Scrolled(old(obstacleManager.obstacles), old(gameSpeed), player.x)
                        + (if spawned then [MakeObstacle(PickedKind(old(difficultyLevel), rKind),
                                                         obstacleManager.canvasWidth, obstacleManager.canvasHeight)]
                           else [])
                && obstacleManager.obstacleTimer == (if spawned then 0 else old(obstacleManager.obstacleTimer) + 1)
                && passes == Passes(old(obstacleManager.obstacles), old(gameSpeed), player.x)
                && trailing == (spawned && TrailingScheduled(old(difficultyLevel), rTrailing))
                && Ledger() == DecayCombo(old(Ledger()).(score := old(score) + SurvivalPoints(old(gameSpeed))))
                && Pace() == Ramp(old(Pace()))
                && floatingPoints == old(floatingPoints)
                && gameRunning == !Collides(player.GetBounds(), obstacleManager.obstacles)
                && player.State() == (if gameRunning then moved else ClearCharge(moved))
                && highScore == (if gameRunning then old(highScore) else Max(old(highScore), score))
    {
      if !gameRunning {
        return 0, false;
      }
      player.Update();
      var spawned;
      passes, spawned, trailing := obstacleManager.Update(gameSpeed, difficultyLevel, player, rSpawn, rKind, rTrailing);
      AdvanceCounters();

      var hit := obstacleManager.CheckCollision(player);
      if hit {
        GameOver();
      }
    }

    /** The counter part of a frame: the survival points, the combo timer and
        the speed ramp. */
    method AdvanceCounters()
      requires Valid()
      modifies this
      ensures Valid()
      ensures Ledger() == DecayCombo(old(Ledger()).(score := old(score) + SurvivalPoints(old(gameSpeed))))
      ensures Pace() == Ramp(old(Pace()))
      ensures gameRunning == old(gameRunning) && highScore == old(highScore)
      ensures floatingPoints == old(floatingPoints)
    {
      score := score + (gameSpeed / 3.0).Floor;

      if combo > 0 {
        comboTimer := comboTimer + 1;
        if comboTimer > ComboTimeLimit {
          ResetCombo();
        }
      }

      speedIncreaseTimer := speedIncreaseTimer + 1;
      if speedIncreaseTimer > RampFrames {
        gameSpeed := gameSpeed + SpeedStep;
        speedIncreaseTimer := 0;
        difficultyLevel := difficultyLevel + 1;
      }
    }

    /** Scores a cleared obstacle of the given type at (x, y) and returns the points. */
    method AddObstaclePoints(obstacleType: string, x: real, y: real) returns (totalPoints: int)
      requires Valid()
      modifies this
      ensures Valid()
      ensures (Ledger(), totalPoints) == Award(old(Ledger()), obstacleType, difficultyLevel, gameSpeed)
      ensures floatingPoints == old(floatingPoints) + [NewFloatingPoint(totalPoints, x, y)]
      ensures gameRunning == old(gameRunning) && highScore == old(highScore) && Pace() == old(Pace())
    {
      var basePoints := if obstacleType in ObstaclePoints then ObstaclePoints[obstacleType] else DefaultPoints;
      assert basePoints == BasePoints(obstacleType);
      totalPoints := basePoints;

      combo := combo + 1;
      maxCombo := Max(maxCombo, combo);
      comboTimer := 0;

      if combo >= 3 {
        multiplier := 1.0 + (combo / 3) as real * 0.5;
        totalPoints := (totalPoints as real * multiplier).Floor;
      }
      assert totalPoints == (BasePoints(obstacleType) as real * Multiplier(combo)).Floor;

      var difficultyBonus := 2 * difficultyLevel;
      totalPoints := totalPoints + difficultyBonus;

      var speedBonus := (gameSpeed * 3.0).Floor;
      totalPoints := totalPoints + speedBonus;

      assert totalPoints == ClearPoints(obstacleType, combo, difficultyLevel, gameSpeed);
      score := score + totalPoints;
      assert Ledger() == Award(old(Ledger()), obstacleType, difficultyLevel, gameSpeed).0;
      assert Scoring.Coherent(Ledger()) && Pace() == old(Pace()) && floatingPoints == old(floatingPoints);
      assert Valid();
      AddFloatingPoint(totalPoints, x, y);
    }

    /** Called in the middle of a frame, when the combo timer has just passed
        its limit, so it does not require the invariant; it re-establishes the
        ledger's part of it. */
    method ResetCombo()
      modifies this
      ensures Scoring.Coherent(Ledger())
      ensures Ledger() == Scoring.ResetCombo(old(Ledger()))
      ensures gameRunning == old(gameRunning) && highScore == old(highScore) && Pace() == old(Pace())
      ensures floatingPoints == old(floatingPoints)
    {
      combo := 0;
      multiplier := 1.0;
      comboTimer := 0;
    }

    method AddFloatingPoint(points: int, x: real, y: real)
      requires Valid()
      modifies this
      ensures Valid()
      ensures floatingPoints == old(floatingPoints) + [NewFloatingPoint(points, x, y)]
      ensures gameRunning == old(gameRunning) && highScore == old(highScore)
      ensures Ledger() == old(Ledger()) && Pace() == old(Pace())
    {
      floatingPoints := floatingPoints + [FloatingPoint(x, y - 20.0, points, PointLife, -2.0, 1.0)];
    }

    /** The list aging of one draw pass over the indicators. */
    method DrawFloatingPoints()
      requires Valid()
      modifies this
      ensures Valid()
      ensures floatingPoints == Aged(old(floatingPoints))
      ensures gameRunning == old(gameRunning) && highScore == old(highScore)
      ensures Ledger() == old(Ledger()) && Pace() == old(Pace())
    {
      var kept: seq<FloatingPoint> := [];
      var i := 0;
      while i < |floatingPoints|
        invariant 0 <= i <= |floatingPoints|
        invariant kept == Aged(floatingPoints[..i])
        invariant unchanged(this)
      {
        var point := floatingPoints[i];
        point := point.(y := point.y + point.velocityY);
        point := point.(life := point.life - 1);
        point := point.(alpha := point.life as real / PointLife as real);
        assert point == Faded(floatingPoints[i]);
        AgedStep(floatingPoints, i);
        if point.life > 0 {
          kept := kept + [point];
        }
        i := i + 1;
      }
      assert floatingPoints[..|floatingPoints|] == floatingPoints;
      AgedLife(floatingPoints);
      floatingPoints := kept;
    }

    method StartJumpCharge()
      requires Valid()
      modifies player
      ensures Valid()
      ensures player.State() == if gameRunning then StartCharge(old(player.State())) else old(player.State())
    {
      if gameRunning {
        player.StartJumpCharge();
      }
    }

    /** Reports whether the jump was a big one (charge ratio above 0.7), which
        the game marks with extra particles. */
    method ExecuteJump() returns (bigJump: bool)
      requires Valid()
      modifies player
      ensures Valid()
      ensures !gameRunning ==> player.State() == old(player.State()) && !bigJump
      ensures gameRunning ==> player.State() == Jump(old(player.State())).0
                              && bigJump == (Jump(old(player.State())).1 > 0.7)
    {
      bigJump := false;
      if gameRunning {
        var chargeRatio := player.ExecuteJump();
        bigJump := chargeRatio > 0.7;
      }
    }

    /** The quick jump is offered exactly when, during a run, an ordinary jump
        would take effect. */
    predicate CanExecuteQuickJump()
      reads this, player
      ensures CanExecuteQuickJump() <==> gameRunning && Jump(player.State()).0 != player.State()
    {
      !player.jumping && gameRunning
    }

    method ExecuteQuickJump()
      requires Valid()
      modifies player
      ensures Valid()
      ensures player.State() == if old(CanExecuteQuickJump()) then QuickJump(old(player.State())) else old(player.State())
    {
      if CanExecuteQuickJump() {
        player.isCharging := false;
        player.chargeTime := 0;
        player.velocityY := MinJumpPower;
        player.jumping := true;
      }
    }

    method GameOver()
      requires Valid()
      modifies this, player
      ensures Valid()
      ensures !gameRunning
      ensures highScore == Max(old(highScore), score)
      ensures player.State() == ClearCharge(old(player.State()))
      ensures Ledger() == old(Ledger()) && Pace() == old(Pace()) && floatingPoints == old(floatingPoints)
    {
      gameRunning := false;
      player.isCharging := false;
      player.chargeTime := 0;
      if score > highScore {
        highScore := score;
      }
    }
  }
}
