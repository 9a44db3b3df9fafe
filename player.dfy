/** The player character: gravity, the ground clamp, the charge-then-jump
    state machine and the bounding box used for collisions (src/js/modules/Player.js). */
module PlayerPhysics {
  import opened JsMath

  const StartX: real := 100.0
  const StartY: real := 200.0
  const Width: real := 40.0
  const Height: real := 40.0
  const Gravity: real := 0.6
  /** Velocity of an uncharged (or zero-charge) jump. */
  const MinJumpPower: real := -6.0
  /** Velocity of a fully charged jump. */
  const MaxJumpPower: real := -22.0
  /** Frames of charging that give a full jump. */
  const FullCharge: nat := 10
  const RotationStep: real := 0.1
  /** How far above the bottom of the canvas the player's top edge rests when on the ground. */
  const GroundClearance: real := 140.0

  /** An axis-aligned box, as returned by `getBounds`. */
  datatype Bounds = Bounds(x: real, y: real, width: real, height: real)

  /** The part of a player that changes during a run. */
  datatype Body = Body(y: real, velocityY: real, jumping: bool, rotation: real,
                       isCharging: bool, chargeTime: nat)

  /** The state `reset` and the constructor establish. */
  const Rest: Body := Body(StartY, 0.0, false, 0.0, false, 0)

  /** The lowest `y` the player can have: its top edge when standing on the ground. */
  function GroundY(canvasHeight: real): real { canvasHeight - GroundClearance }

  /** What every operation on a player keeps: a player that is not jumping is
      upright, a player charges only while not jumping, and the charge counter
      is zero whenever no charge is under way. "Not jumping" is not the same as
      "on the ground": after `reset` the player drops from y = 200 with
      `jumping` false, and may charge and jump during that drop. */
  ghost predicate Coherent(b: Body) {
    && (!b.jumping ==> b.rotation == 0.0)
    && (b.isCharging ==> !b.jumping)
    && (!b.isCharging ==> b.chargeTime == 0)
  }

  /** One frame of `update`: gravity, the ground clamp, charge counting, spin. */
  function Fall(b: Body, ground: real): (c: Body)
    ensures c.y <= ground
    ensures c.y == MinReal(b.y + b.velocityY + Gravity, ground)
    ensures b.y + b.velocityY + Gravity > ground ==>
              c.velocityY == 0.0 && !c.jumping && c.rotation == 0.0
    ensures b.y + b.velocityY + Gravity <= ground ==>
              c.velocityY == b.velocityY + Gravity && c.jumping == b.jumping
    ensures c.isCharging == b.isCharging
    ensures c.chargeTime == if b.isCharging && !c.jumping then b.chargeTime + 1 else b.chargeTime
    ensures c.jumping ==> c.rotation == b.rotation + RotationStep
    ensures Coherent(b) ==> Coherent(c)
  {
    var vy := b.velocityY + Gravity;
    var y := b.y + vy;
    var landed :=
      if y > ground then b.(y := ground, velocityY := 0.0, jumping := false, rotation := 0.0)
      else b.(y := y, velocityY := vy);
    var counted :=
      if landed.isCharging && !landed.jumping then landed.(chargeTime := landed.chargeTime + 1)
      else landed;
    if counted.jumping then counted.(rotation := counted.rotation + RotationStep) else counted
  }

  /** `startJumpCharge`: begin charging, unless jumping. */
  function StartCharge(b: Body): (c: Body)
    ensures b.jumping ==> c == b
    ensures !b.jumping ==> c.isCharging && c.chargeTime == 0
    ensures c.y == b.y && c.velocityY == b.velocityY && c.jumping == b.jumping && c.rotation == b.rotation
    ensures Coherent(b) ==> Coherent(c)
  {
    if !b.jumping then b.(isCharging := true, chargeTime := 0) else b
  }

  /** How much of a full charge `chargeTime` frames give. */
  function ChargeRatio(chargeTime: nat): (ratio: real)
    ensures 0.0 <= ratio <= 1.0
    ensures ratio == 1.0 <==> chargeTime >= FullCharge
    ensures ratio == 0.0 <==> chargeTime == 0
  {
    MinReal(chargeTime as real / FullCharge as real, 1.0)
  }

  /** Linear interpolation between the weakest and the strongest jump. */
  function JumpVelocity(ratio: real): (v: real)
    requires 0.0 <= ratio <= 1.0
    ensures MaxJumpPower <= v <= MinJumpPower
    ensures v == MinJumpPower <==> ratio == 0.0
    ensures v == MaxJumpPower <==> ratio == 1.0
  {
    MinJumpPower + (MaxJumpPower - MinJumpPower) * ratio
  }

  /** `executeJump`: the new body and the returned charge ratio. */
  function Jump(b: Body): (r: (Body, real))
    ensures 0.0 <= r.1 <= 1.0
    ensures b.jumping ==> r.0 == b && r.1 == 0.0
    ensures !b.jumping ==> r.0.jumping && !r.0.isCharging && r.0.velocityY == JumpVelocity(r.1)
    ensures !b.jumping ==> MaxJumpPower <= r.0.velocityY <= MinJumpPower
    ensures !b.isCharging ==> r.1 == 0.0
    ensures !b.jumping && b.isCharging ==> r.1 == ChargeRatio(b.chargeTime) && r.0.chargeTime == 0
    ensures r.0.y == b.y && r.0.rotation == b.rotation
    ensures Coherent(b) ==> Coherent(r.0) && r.0.chargeTime == 0
  {
    if !b.jumping then
      if b.isCharging then
        var ratio := ChargeRatio(b.chargeTime);
        (b.(velocityY := JumpVelocity(ratio), jumping := true, isCharging := false, chargeTime := 0), ratio)
      else
        (b.(velocityY := MinJumpPower, jumping := true), 0.0)
    else
      (b, 0.0)
  }

  /** The field writes of the game's quick jump (a short tap): an uncharged jump
      that also abandons any charge. */
  function QuickJump(b: Body): (c: Body)
    ensures c.jumping && !c.isCharging && c.chargeTime == 0 && c.velocityY == MinJumpPower
    ensures c.y == b.y && c.rotation == b.rotation
    ensures Coherent(b) && !b.jumping && b.chargeTime == 0 ==> c == Jump(b).0
    ensures Coherent(b) ==> Coherent(c)
  {
    b.(isCharging := false, chargeTime := 0, velocityY := MinJumpPower, jumping := true)
  }

  /** The field writes of `gameOver` on the player: any charge is abandoned. */
  function ClearCharge(b: Body): (c: Body)
    ensures !c.isCharging && c.chargeTime == 0
    ensures c.y == b.y && c.velocityY == b.velocityY && c.jumping == b.jumping && c.rotation == b.rotation
    ensures Coherent(b) ==> Coherent(c)
  {
    b.(isCharging := false, chargeTime := 0)
  }

  /** On a canvas at least 341 high the player starts above the ground line, so
      it falls after `reset` with `jumping` false: a charge started then is
      counted in mid-air, and the jump it releases starts in mid-air. */
  lemma ChargeDuringDrop(canvasHeight: real)
    requires canvasHeight >= 341.0
    ensures var ground := GroundY(canvasHeight);
            var c := Fall(StartCharge(Rest), ground);
            && Rest.y < ground && c.y < ground
            && c.isCharging && c.chargeTime == 1
            && Jump(c).0.jumping && Jump(c).0.y < ground
  {
  }

  class Player {
    const canvasHeight: real
    const x: real := StartX
    const width: real := Width
    const height: real := Height
    var y: real
    var velocityY: real
    var jumping: bool
    var rotation: real
    var isCharging: bool
    var chargeTime: nat

    /** The mutable fields as one value. */
    function State(): Body
      reads this
    {
      Body(y, velocityY, jumping, rotation, isCharging, chargeTime)
    }

    ghost predicate Valid()
      reads this
    {
      Coherent(State())
    }

    constructor (canvasHeight: real)
      ensures this.canvasHeight == canvasHeight
      ensures State() == Rest && Valid()
    {
      this.canvasHeight := canvasHeight;
      y, velocityY, jumping, rotation := StartY, 0.0, false, 0.0;
      isCharging, chargeTime := false, 0;
    }

    method Update()
      requires Valid()
      modifies this
      ensures Valid()
      ensures State() == Fall(old(State()), GroundY(canvasHeight))
    {
      velocityY := velocityY + Gravity;
      y := y + velocityY;
      if y > canvasHeight - GroundClearance {
        y := canvasHeight - GroundClearance;
        velocityY := 0.0;
        jumping := false;
        rotation := 0.0;
      }
      if isCharging && !jumping {
        chargeTime := chargeTime + 1;
      }
      if jumping {
        rotation := rotation + RotationStep;
      }
    }

    method StartJumpCharge()
      requires Valid()
      modifies this
      ensures Valid()
      ensures State() == StartCharge(old(State()))
    {
      if !jumping {
        isCharging := true;
        chargeTime := 0;
      }
    }

    /** Returns the charge ratio; the jump sound it plays is that value. */
    method ExecuteJump() returns (chargeRatio: real)
      requires Valid()
      modifies this
      ensures Valid()
      ensures (State(), chargeRatio) == Jump(old(State()))
    {
      if !jumping {
        if isCharging {
          chargeRatio := MinReal(chargeTime as real / FullCharge as real, 1.0);
          velocityY := MinJumpPower + (MaxJumpPower - MinJumpPower) * chargeRatio;
          jumping := true;
          isCharging := false;
          chargeTime := 0;
          return;
        } else {
          velocityY := MinJumpPower;
          jumping := true;
          return 0.0;
        }
      }
      return 0.0;
    }

    function GetBounds(): Bounds
      reads this
    {
      Bounds(x, y, width, height)
    }

    method Reset()
      modifies this
      ensures Valid()
      ensures State() == Rest
    {
      y := StartY;
      velocityY := 0.0;
      jumping := false;
      rotation := 0.0;
      isCharging := false;
      chargeTime := 0;
    }
  }
}
