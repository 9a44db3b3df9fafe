/** The obstacle manager: weighted choice of an obstacle kind, the records it
    builds, the per-frame scroll with pass scoring and eviction, the spawn timer
    and the collision query (src/js/modules/Obstacle.js). */
module Obstacles {
  import opened Options
  import opened JsMath
  import PlayerPhysics

  datatype Kind = Box | Spike | Tall

  /** The kinds in the order the weight tables refer to them. */
  const Kinds: seq<Kind> := [Box, Spike, Tall]

  /** One obstacle record; `scored` is set once the player has passed it. */
  datatype Obstacle = Obstacle(x: real, y: real, width: real, height: real, kind: Kind, scored: bool)

  /** An obstacle is kept while its left edge is strictly right of this. */
  const EvictAt: real := -50.0
  const BaseInterval: int := 100
  const BaseRandomness: int := 20
  const MinInterval: int := 40
  const MaxRandomness: int := 60
  /** No spawn happens before the timer passes this many frames. */
  const ShortestGap: nat := 40
  /** A spawn always happens once the timer reaches this many frames. */
  const LongestGap: nat := 120

  // ---------------------------------------------------------------------------
  // Weighted choice of a kind

  /** The sum of the first `n` weights. */
  function PrefixSum(w: seq<nat>, n: nat): nat
    requires n <= |w|
  {
    if n == 0 then 0 else PrefixSum(w, n - 1) + w[n - 1]
  }

  function Sum(w: seq<nat>): nat { PrefixSum(w, |w|) }

  /** Weights of box, spike and tall at a difficulty level. */
  function Weights(difficultyLevel: nat): (w: seq<nat>)
    ensures |w| == |Kinds| && Sum(w) == 5
    ensures forall i :: 0 <= i < |w| ==> w[i] >= 1
  {
    var w: seq<nat> :=
      if difficultyLevel > 6 then [1, 2, 2]
      else if difficultyLevel > 3 then [2, 2, 1]
      else [3, 1, 1];
    assert PrefixSum(w, 1) == w[0] && PrefixSum(w, 2) == w[0] + w[1];
    w
  }

  /** The roulette loop from index `i` on, with `random` still to be spent:
      the index where it breaks, or None when it runs off the end. */
  function RouletteFrom(w: seq<nat>, i: nat, random: real): (r: Option<nat>)
    requires i <= |w|
    ensures r.Some? ==> i <= r.value < |w|
    decreases |w| - i
  {
    if i == |w| then None
    else if random - w[i] as real <= 0.0 then Some(i)
    else RouletteFrom(w, i + 1, random - w[i] as real)
  }

  /** The index the roulette loop leaves in `typeIndex` (0 when it never breaks). */
  function ChosenIndex(w: seq<nat>, random: real): nat {
    RouletteFrom(w, 0, random).GetOr(0)
  }

  /** The roulette loop of `createObstacle`. */
  method PickTypeIndex(typeWeights: seq<nat>, r: real) returns (typeIndex: nat)
    ensures typeIndex == ChosenIndex(typeWeights, r * Sum(typeWeights) as real)
  {
    var totalWeight := Sum(typeWeights);
    var random := r * totalWeight as real;
    ghost var start := random;
    typeIndex := 0;
    var i := 0;
    while i < |typeWeights|
      invariant 0 <= i <= |typeWeights|
      invariant typeIndex == 0
      invariant RouletteFrom(typeWeights, 0, start) == RouletteFrom(typeWeights, i, random)
    {
      ghost var before := random;
      random := random - typeWeights[i] as real;
      if random <= 0.0 {
        assert RouletteFrom(typeWeights, i, before) == Some(i);
        typeIndex := i;
        break;
      }
      i := i + 1;
    }
    assert i == |typeWeights| ==> RouletteFrom(typeWeights, i, random) == None;
    assert typeIndex == RouletteFrom(typeWeights, 0, start).GetOr(0);
    assert start == r * Sum(typeWeights) as real;
    assert typeIndex == ChosenIndex(typeWeights, start);
  }

  /** From index `k` on, the roulette breaks at the first index whose running
      total reaches `random`, provided the whole table does. */
  lemma {:induction false} RouletteFromChoice(w: seq<nat>, k: nat, random: real)
    requires k < |w|
    requires random <= Sum(w) as real
    requires forall j :: 1 <= j <= k ==> (PrefixSum(w, j) as real) < random
    ensures RouletteFrom(w, k, random - PrefixSum(w, k) as real).Some?
    ensures var i := RouletteFrom(w, k, random - PrefixSum(w, k) as real).value;
            && random <= PrefixSum(w, i + 1) as real
            && forall j :: 1 <= j <= i ==> (PrefixSum(w, j) as real) < random
    decreases |w| - k
  {
    var rest := random - PrefixSum(w, k) as real;
    assert PrefixSum(w, k + 1) == PrefixSum(w, k) + w[k];
    if rest - w[k] as real > 0.0 {
      assert Sum(w) == PrefixSum(w, |w|);
      assert k + 1 < |w|;
      RouletteFromChoice(w, k + 1, random);
    }
  }

  /** With `random` at most the table's total, the loop always breaks, at the
      first index whose running total of weights is at least `random`. */
  lemma RouletteChoice(w: seq<nat>, random: real)
    requires |w| > 0
    requires random <= Sum(w) as real
    ensures RouletteFrom(w, 0, random).Some?
    ensures var i := RouletteFrom(w, 0, random).value;
            && random <= PrefixSum(w, i + 1) as real
            && forall j :: 1 <= j <= i ==> (PrefixSum(w, j) as real) < random
  {
    RouletteFromChoice(w, 0, random);
  }

  /** The kind `createObstacle` picks at a difficulty level for Math.random() = r. */
  function PickedKind(difficultyLevel: nat, r: real): Kind {
    var i := ChosenIndex(Weights(difficultyLevel), r * Sum(Weights(difficultyLevel)) as real);
    if i < |Kinds| then Kinds[i] else Box
  }

  /** Each kind owns a band of [0, 5) as wide as its weight, so it is picked with
      probability weight / 5; the loop never falls through. */
  lemma PickedKindBands(difficultyLevel: nat, r: real)
    requires 0.0 <= r < 1.0
    ensures var w := Weights(difficultyLevel);
            var random := r * 5.0;
            && RouletteFrom(w, 0, random).Some?
            && (PickedKind(difficultyLevel, r) == Box <==> random <= w[0] as real)
            && (PickedKind(difficultyLevel, r) == Spike <==>
                  w[0] as real < random <= (w[0] + w[1]) as real)
            && (PickedKind(difficultyLevel, r) == Tall <==> (w[0] + w[1]) as real < random)
  {
    var w := Weights(difficultyLevel);
    var random := r * 5.0;
    RouletteChoice(w, random);
    assert PrefixSum(w, 1) == w[0];
    assert PrefixSum(w, 2) == w[0] + w[1];
  }

  // ---------------------------------------------------------------------------
  // Records

  /** The bottom edge of every obstacle: the line the player stands on. */
  function GroundLine(canvasHeight: real): real {
    PlayerPhysics.GroundY(canvasHeight) + PlayerPhysics.Height
  }

  /** An obstacle resting on the ground line with a positive size. */
  predicate Rests(o: Obstacle, canvasHeight: real) {
    o.y + o.height == GroundLine(canvasHeight) && o.width > 0.0 && o.height > 0.0
  }

  /** A new record of the given kind at the right edge of the canvas. */
  function MakeObstacle(kind: Kind, canvasWidth: real, canvasHeight: real): (o: Obstacle)
    ensures o.x == canvasWidth && o.kind == kind && !o.scored
    ensures Rests(o, canvasHeight)
  {
    match kind
    case Box => Obstacle(canvasWidth, canvasHeight - 135.0, 30.0, 35.0, Box, false)
    case Spike => Obstacle(canvasWidth, canvasHeight - 115.0, 25.0, 15.0, Spike, false)
    case Tall => Obstacle(canvasWidth, canvasHeight - 155.0, 20.0, 55.0, Tall, false)
  }

  /** Whether `createObstacle` schedules a trailing obstacle: never below
      difficulty 5, and for every draw from difficulty 40 on. */
  predicate TrailingScheduled(difficultyLevel: nat, r: real)
    ensures TrailingScheduled(difficultyLevel, r) ==> difficultyLevel >= 5
    ensures difficultyLevel >= 40 && r < 1.0 ==> TrailingScheduled(difficultyLevel, r)
  {
    difficultyLevel > 4 && r < 0.2 + difficultyLevel as real * 0.02
  }

  /** The kind of the trailing obstacle: a spike for draws below 0.7, otherwise
      a box, never a tall one. */
  function TrailingKind(r: real): (k: Kind)
    ensures k != Tall
    ensures k == Spike <==> r < 0.7
  {
    if r < 0.7 then Spike else Box
  }

  // ---------------------------------------------------------------------------
  // Scrolling, pass scoring and eviction

  /** One obstacle after a frame: moved left, and scored if now passed. */
  function Moved(o: Obstacle, gameSpeed: real, playerX: real): (q: Obstacle)
    ensures q.x == o.x - gameSpeed
    ensures q.y == o.y && q.width == o.width && q.height == o.height && q.kind == o.kind
    ensures q.scored <==> o.scored || q.x + q.width < playerX
  {
    var m := o.(x := o.x - gameSpeed);
    if !m.scored && m.x + m.width < playerX then m.(scored := true) else m
  }

  /** Whether the pass sound plays for this obstacle this frame. */
  predicate Fired(o: Obstacle, gameSpeed: real, playerX: real) {
    !o.scored && o.x - gameSpeed + o.width < playerX
  }

  /** The list after the scroll and eviction of one frame. */
  function Scrolled(obs: seq<Obstacle>, gameSpeed: real, playerX: real): (r: seq<Obstacle>)
    ensures |r| <= |obs|
    ensures forall q :: q in r ==> q.x > EvictAt
  {
    if obs == [] then []
    else
      var q := Moved(obs[|obs| - 1], gameSpeed, playerX);
      Scrolled(obs[..|obs| - 1], gameSpeed, playerX) + (if q.x > EvictAt then [q] else [])
  }

  /** Every kept obstacle is one of the old ones after its move. */
  lemma {:induction false} ScrolledFrom(obs: seq<Obstacle>, gameSpeed: real, playerX: real)
    ensures forall q :: q in Scrolled(obs, gameSpeed, playerX) ==>
              exists o :: o in obs && q == Moved(o, gameSpeed, playerX)
    decreases |obs|
  {
    if obs != [] {
      var front := obs[..|obs| - 1];
      ScrolledFrom(front, gameSpeed, playerX);
      assert forall o :: o in front ==> o in obs;
    }
  }

  /** The number of obstacles not yet scored. */
  function Unscored(obs: seq<Obstacle>): nat {
    if obs == [] then 0
    else Unscored(obs[..|obs| - 1]) + (if obs[|obs| - 1].scored then 0 else 1)
  }

  /** The number of pass sounds in one frame. */
  function Passes(obs: seq<Obstacle>, gameSpeed: real, playerX: real): (n: nat)
    ensures n <= Unscored(obs)
  {
    if obs == [] then 0
    else Passes(obs[..|obs| - 1], gameSpeed, playerX)
         + (if Fired(obs[|obs| - 1], gameSpeed, playerX) then 1 else 0)
  }

  /** Extending the list by one obstacle extends the scroll by that obstacle's fate. */
  lemma ScrollStep(obs: seq<Obstacle>, i: nat, gameSpeed: real, playerX: real)
    requires i < |obs|
    ensures var q := Moved(obs[i], gameSpeed, playerX);
            Scrolled(obs[..i + 1], gameSpeed, playerX)
              == Scrolled(obs[..i], gameSpeed, playerX) + (if q.x > EvictAt then [q] else [])
    ensures Passes(obs[..i + 1], gameSpeed, playerX)
              == Passes(obs[..i], gameSpeed, playerX) + (if Fired(obs[i], gameSpeed, playerX) then 1 else 0)
  {
    assert obs[..i + 1][..i] == obs[..i];
  }

  /** Scrolling moves obstacles only sideways, so they keep resting on the ground line. */
  lemma ScrolledRests(obs: seq<Obstacle>, gameSpeed: real, playerX: real, canvasHeight: real)
    requires forall o :: o in obs ==> Rests(o, canvasHeight)
    ensures forall q :: q in Scrolled(obs, gameSpeed, playerX) ==> Rests(q, canvasHeight)
  {
    ScrolledFrom(obs, gameSpeed, playerX);
    forall q | q in Scrolled(obs, gameSpeed, playerX) ensures Rests(q, canvasHeight) {
      var o :| o in obs && q == Moved(o, gameSpeed, playerX);
    }
  }

  /** Scrolling keeps the relative order: it works element by element. */
  lemma {:induction false} ScrolledAppend(a: seq<Obstacle>, b: seq<Obstacle>, gameSpeed: real, playerX: real)
    ensures Scrolled(a + b, gameSpeed, playerX) == Scrolled(a, gameSpeed, playerX) + Scrolled(b, gameSpeed, playerX)
    decreases |b|
  {
    if b == [] {
      assert a + b == a;
    } else {
      var b' := b[..|b| - 1];
      assert (a + b)[..|a + b| - 1] == a + b';
      assert (a + b)[|a + b| - 1] == b[|b| - 1];
      ScrolledAppend(a, b', gameSpeed, playerX);
    }
  }

  /** Every obstacle whose moved left edge is right of the eviction line is kept. */
  lemma {:induction false} ScrolledKeeps(obs: seq<Obstacle>, i: nat, gameSpeed: real, playerX: real)
    requires i < |obs|
    requires Moved(obs[i], gameSpeed, playerX).x > EvictAt
    ensures Moved(obs[i], gameSpeed, playerX) in Scrolled(obs, gameSpeed, playerX)
    decreases |obs|
  {
    if i < |obs| - 1 {
      var front := obs[..|obs| - 1];
      assert front[i] == obs[i];
      ScrolledKeeps(front, i, gameSpeed, playerX);
    }
  }

  /** After a frame every kept obstacle whose right edge is behind the player is scored. */
  lemma ScrolledPassedAreScored(obs: seq<Obstacle>, gameSpeed: real, playerX: real)
    ensures forall q :: q in Scrolled(obs, gameSpeed, playerX) && q.x + q.width < playerX ==> q.scored
  {
  }

  /** The number of pass sounds an obstacle causes over successive frames with
      the given speeds (ignoring its eviction, which can only end them sooner):
      at most one, and none once it is scored. */
  function PassEvents(o: Obstacle, speeds: seq<real>, playerX: real): (n: nat)
    ensures n <= if o.scored then 0 else 1
    decreases |speeds|
  {
    if speeds == [] then 0
    else (if Fired(o, speeds[0], playerX) then 1 else 0)
         + PassEvents(Moved(o, speeds[0], playerX), speeds[1..], playerX)
  }

  // ---------------------------------------------------------------------------
  // Spawn timer

  function CurrentInterval(baseObstacleInterval: int, difficultyLevel: nat): (i: int)
    ensures i >= MinInterval
    ensures i <= Max(MinInterval, baseObstacleInterval)
  {
    Max(MinInterval, baseObstacleInterval - difficultyLevel * 5)
  }

  function CurrentRandomness(obstacleRandomness: int, difficultyLevel: nat): (k: int)
    ensures k <= MaxRandomness
    ensures k >= Min(MaxRandomness, obstacleRandomness)
  {
    Min(MaxRandomness, obstacleRandomness + difficultyLevel * 3)
  }

  /** The interval only shrinks as difficulty rises and the randomness only grows. */
  lemma SpawnTimingMonotone(base: int, randomness: int, d1: nat, d2: nat)
    requires d1 <= d2
    ensures CurrentInterval(base, d2) <= CurrentInterval(base, d1)
    ensures CurrentRandomness(randomness, d2) >= CurrentRandomness(randomness, d1)
  {
  }

  /** Whether a frame whose incremented timer is `timer` spawns, for Math.random() = r. */
  predicate SpawnDue(timer: nat, interval: int, randomness: int, r: real) {
    timer as real > interval as real + r * randomness as real
  }

  /** With the manager's constants, a spawn never comes before the timer passes
      40 frames and always comes once it reaches 120. */
  lemma SpawnCadence(timer: nat, difficultyLevel: nat, r: real)
    requires 0.0 <= r < 1.0
    ensures var interval := CurrentInterval(BaseInterval, difficultyLevel);
            var randomness := CurrentRandomness(BaseRandomness, difficultyLevel);
            && (timer <= ShortestGap ==> !SpawnDue(timer, interval, randomness, r))
            && (timer >= LongestGap ==> SpawnDue(timer, interval, randomness, r))
  {
    var interval := CurrentInterval(BaseInterval, difficultyLevel);
    var randomness := CurrentRandomness(BaseRandomness, difficultyLevel);
    assert ShortestGap <= interval && 20 <= randomness && interval + randomness <= LongestGap;
    SpawnWindow(timer, interval, randomness, r);
  }

  /** For any interval and spread, a timer at most the interval never spawns and
      one at least interval + spread always does. */
  lemma SpawnWindow(timer: nat, interval: int, randomness: int, r: real)
    requires 0.0 <= r < 1.0 && randomness > 0
    ensures timer <= interval ==> !SpawnDue(timer, interval, randomness, r)
    ensures timer >= interval + randomness ==> SpawnDue(timer, interval, randomness, r)
  {
  }

  // ---------------------------------------------------------------------------
  // Collision

  /** Strict AABB overlap: boxes that only touch do not overlap. */
  predicate Overlaps(b: PlayerPhysics.Bounds, o: Obstacle) {
    && b.x < o.x + o.width
    && b.x + b.width > o.x
    && b.y < o.y + o.height
    && b.y + b.height > o.y
  }

  predicate Collides(b: PlayerPhysics.Bounds, obs: seq<Obstacle>) {
    exists i :: 0 <= i < |obs| && Overlaps(b, obs[i])
  }

  /** A player standing on the ground always meets a resting obstacle vertically,
      so on the ground only the horizontal test decides. */
  lemma GroundedCollision(b: PlayerPhysics.Bounds, o: Obstacle, canvasHeight: real)
    requires Rests(o, canvasHeight)
    requires b.y == PlayerPhysics.GroundY(canvasHeight) && b.height == PlayerPhysics.Height
    ensures Overlaps(b, o) <==> b.x < o.x + o.width && b.x + b.width > o.x
  {
  }

  // ---------------------------------------------------------------------------
  // The manager

  class ObstacleManager {
    const canvasWidth: real
    const canvasHeight: real
    var obstacles: seq<Obstacle>
    var obstacleTimer: nat
    var baseObstacleInterval: int
    var obstacleRandomness: int

    /** The interval constants never change; the timer never reaches the longest
        gap; every obstacle rests on the ground line. */
    ghost predicate Valid()
      reads this
    {
      BaseConstantsAndResting() && obstacleTimer < LongestGap
    }

    /** The part of `Valid` that holds in the middle of a frame too: the
        interval constants are at their base values and every obstacle rests
        on the ground line. */
    ghost predicate BaseConstantsAndResting()
      reads this
    {
      && baseObstacleInterval == BaseInterval
      && obstacleRandomness == BaseRandomness
      && forall o :: o in obstacles ==> Rests(o, canvasHeight)
    }

    constructor (canvasWidth: real, canvasHeight: real)
      ensures this.canvasWidth == canvasWidth && this.canvasHeight == canvasHeight
      ensures obstacles == [] && obstacleTimer == 0
      ensures Valid()
    {
      this.canvasWidth := canvasWidth;
      this.canvasHeight := canvasHeight;
      obstacles := [];
      obstacleTimer := 0;
      baseObstacleInterval := BaseInterval;
      obstacleRandomness := BaseRandomness;
    }

    /** Appends one obstacle of a weighted-random kind; `rKind` and `rTrailing`
        are the two Math.random() draws. Reports whether a trailing obstacle was
        scheduled. */
    method CreateObstacle(difficultyLevel: nat, rKind: real, rTrailing: real) returns (trailing: bool)
      requires BaseConstantsAndResting()
      modifies this
      ensures BaseConstantsAndResting()
      ensures obstacles == old(obstacles) + [MakeObstacle(PickedKind(difficultyLevel, rKind), canvasWidth, canvasHeight)]
      ensures trailing == TrailingScheduled(difficultyLevel, rTrailing)
      ensures obstacleTimer == old(obstacleTimer)
      ensures baseObstacleInterval == old(baseObstacleInterval) && obstacleRandomness == old(obstacleRandomness)
    {
      var typeWeights := Weights(difficultyLevel);
      var typeIndex := PickTypeIndex(typeWeights, rKind);
      var kind := if typeIndex < |Kinds| then Kinds[typeIndex] else Box;
      obstacles := obstacles + [MakeObstacle(kind, canvasWidth, canvasHeight)];
      trailing := difficultyLevel > 4 && rTrailing < 0.2 + difficultyLevel as real * 0.02;
    }

    /** The deferred second obstacle, without its delay. */
    method PushTrailingObstacle(rType: real)
      requires BaseConstantsAndResting()
      modifies this
      ensures BaseConstantsAndResting()
      ensures obstacles == old(obstacles) + [MakeObstacle(TrailingKind(rType), canvasWidth, canvasHeight)]
      ensures obstacleTimer == old(obstacleTimer)
      ensures baseObstacleInterval == old(baseObstacleInterval) && obstacleRandomness == old(obstacleRandomness)
    {
      var secondType := if rType < 0.7 then Spike else Box;
      obstacles := obstacles + [MakeObstacle(secondType, canvasWidth, canvasHeight)];
    }

    /** The filter pass of a frame: every obstacle moves left by the game speed
        and is scored once its right edge is behind the player, which plays the
        pass sound; obstacles at or left of the eviction line are dropped.
        Returns the number of pass sounds. */
    method Scroll(gameSpeed: real, playerX: real) returns (passes: nat)
      requires BaseConstantsAndResting()
      modifies this
      ensures BaseConstantsAndResting()
      ensures obstacles == Scrolled(old(obstacles), gameSpeed, playerX)
      ensures passes == Passes(old(obstacles), gameSpeed, playerX)
      ensures obstacleTimer == old(obstacleTimer)
      ensures baseObstacleInterval == old(baseObstacleInterval) && obstacleRandomness == old(obstacleRandomness)
    {
      ScrolledRests(obstacles, gameSpeed, playerX, canvasHeight);
      var kept: seq<Obstacle> := [];
      passes := 0;
      var i := 0;
      while i < |obstacles|
        invariant 0 <= i <= |obstacles|
        invariant kept == Scrolled(obstacles[..i], gameSpeed, playerX)
        invariant passes == Passes(obstacles[..i], gameSpeed, playerX)
        invariant unchanged(this)
      {
        ScrollStep(obstacles, i, gameSpeed, playerX);
        var obstacle := obstacles[i];
        obstacle := obstacle.(x := obstacle.x - gameSpeed);
        if !obstacle.scored && obstacle.x + obstacle.width < playerX {
          obstacle := obstacle.(scored := true);
          passes := passes + 1;
        }
        assert obstacle == Moved(obstacles[i], gameSpeed, playerX);
        if obstacle.x > EvictAt {
          kept := kept + [obstacle];
        }
        i := i + 1;
      }
      assert obstacles[..|obstacles|] == obstacles;
      obstacles := kept;

    }

    /** One frame: scroll, score passes, evict, then run the spawn timer.
        Returns the number of pass sounds, whether an obstacle was spawned and
        whether a trailing obstacle was scheduled. */
    method Update(gameSpeed: real, difficultyLevel: nat, player: PlayerPhysics.Player,
                  rSpawn: real, rKind: real, rTrailing: real)
      returns (passes: nat, spawned: bool, trailing: bool)
      requires Valid()
      requires 0.0 <= rSpawn < 1.0
      modifies this
      ensures Valid()
      ensures passes == Passes(old(obstacles), gameSpeed, player.x)
      ensures spawned == SpawnDue(old(obstacleTimer) + 1, CurrentInterval(BaseInterval, difficultyLevel),
                                  CurrentRandomness(BaseRandomness, difficultyLevel), rSpawn)
      ensures obstacles == Scrolled(old(obstacles), gameSpeed, player.x)
                           + (if spawned then [MakeObstacle(PickedKind(difficultyLevel, rKind), canvasWidth, canvasHeight)]
                              else [])
      ensures obstacleTimer == if spawned then 0 else old(obstacleTimer) + 1
      ensures trailing == (spawned && TrailingScheduled(difficultyLevel, rTrailing))
      ensures baseObstacleInterval == old(baseObstacleInterval) && obstacleRandomness == old(obstacleRandomness)
    {
      passes := Scroll(gameSpeed, player.x);

      var currentInterval := Max(MinInterval, baseObstacleInterval - difficultyLevel * 5);
      var currentRandomness := Min(MaxRandomness, obstacleRandomness + difficultyLevel * 3);

      obstacleTimer := obstacleTimer + 1;
      SpawnCadence(obstacleTimer, difficultyLevel, rSpawn);
      trailing := false;
      spawned := obstacleTimer as real > currentInterval as real + rSpawn * currentRandomness as real;
      assert spawned == SpawnDue(obstacleTimer, CurrentInterval(BaseInterval, difficultyLevel),
                                 CurrentRandomness(BaseRandomness, difficultyLevel), rSpawn);
      assert !spawned ==> obstacleTimer < LongestGap;
      if spawned {
        trailing := CreateObstacle(difficultyLevel, rKind, rTrailing);
        obstacleTimer := 0;
      }
    }

    /** Whether the player's box strictly overlaps any obstacle. */
    method CheckCollision(player: PlayerPhysics.Player) returns (hit: bool)
      ensures hit <==> Collides(player.GetBounds(), obstacles)
    {
      var playerBounds := player.GetBounds();
      var i := 0;
      while i < |obstacles|
        invariant 0 <= i <= |obstacles|
        invariant forall j :: 0 <= j < i ==> !Overlaps(playerBounds, obstacles[j])
      {
        var obstacle := obstacles[i];
        if playerBounds.x < obstacle.x + obstacle.width &&
           playerBounds.x + playerBounds.width > obstacle.x &&
           playerBounds.y < obstacle.y + obstacle.height &&
           playerBounds.y + playerBounds.height > obstacle.y {
          return true;
        }
        i := i + 1;
      }
      return false;
    }

    method Reset()
      modifies this
      ensures obstacles == [] && obstacleTimer == 0
      ensures baseObstacleInterval == BaseInterval && obstacleRandomness == BaseRandomness
      ensures Valid()
    {
      obstacles := [];
      obstacleTimer := 0;
      baseObstacleInterval := BaseInterval;
      obstacleRandomness := BaseRandomness;
    }
  }
}
