/**
 One tick of the player's movement and collision (src/player/controller.rs):
 the box test against block centres, the all-or-nothing horizontal step, jump
 and gravity, the ground check and the respawn below the world floor.

 Positions are `real`. The camera's forward and right vectors, the frame time
 `dt` and the vector normalisation are inputs of the tick.
 */
module Controller {
  import opened Keyboard

  datatype Vec3 = Vec3(x: real, y: real, z: real)

  const Zero := Vec3(0.0, 0.0, 0.0)

  function Add(a: Vec3, b: Vec3): Vec3 { Vec3(a.x + b.x, a.y + b.y, a.z + b.z) }
  function Sub(a: Vec3, b: Vec3): Vec3 { Vec3(a.x - b.x, a.y - b.y, a.z - b.z) }
  function Scale(a: Vec3, k: real): Vec3 { Vec3(a.x * k, a.y * k, a.z * k) }
  /** The vector with its vertical component dropped. */
  function Flat(a: Vec3): Vec3 { Vec3(a.x, 0.0, a.z) }

  function Abs(r: real): real { if r < 0.0 then -r else r }

  /** Half-width of the box in which a block centre collides with a point. */
  const CollisionMargin: real := 0.75
  const Speed: real := 5.0
  const Gravity: real := -9.8 * 4.0
  const JumpVelocity: real := 5.0 * 2.0
  /** The tick respawns the player once `y - 1` falls below this. */
  const WorldFloor: real := -10.0
  const Spawn := Vec3(0.0, 1.0, 0.0)

  /** A block centre `b` lies strictly within the margin of (x, y, z) on all three axes. */
  predicate Near(b: Vec3, x: real, y: real, z: real)
  {
    Abs(b.x - x) < CollisionMargin && Abs(b.y - y) < CollisionMargin && Abs(b.z - z) < CollisionMargin
  }

  /** Some block centre is near (x, y, z). */
  predicate BlockAt(blocks: seq<Vec3>, x: real, y: real, z: real)
  {
    exists i :: 0 <= i < |blocks| && Near(blocks[i], x, y, z)
  }

  /** The search over the blocks, returning at the first block near the point. */
  method IsBlockAtPosition(x: real, y: real, z: real, blocks: seq<Vec3>) returns (found: bool)
    ensures found == BlockAt(blocks, x, y, z)
  {
    for i := 0 to |blocks|
      invariant forall j :: 0 <= j < i ==> !Near(blocks[j], x, y, z)
    {
      var b := blocks[i];
      if Abs(b.x - x) < CollisionMargin && Abs(b.y - y) < CollisionMargin && Abs(b.z - z) < CollisionMargin {
        return true;
      }
    }
    return false;
  }

  /** The player's position and vertical motion, as one tick sees them. */
  datatype Body = Body(position: Vec3, verticalVelocity: real, onGround: bool)

  function Neg(a: Vec3): Vec3 { Vec3(-a.x, -a.y, -a.z) }

  /** What a pair of opposite movement keys adds to the intent: `v` for the
      positive key alone, its opposite for the negative key alone, and
      nothing when both or neither are held. */
  function Axis(v: Vec3, positive: bool, negative: bool): Vec3
  {
    if positive == negative then Zero else if positive then v else Neg(v)
  }

  /** Which of the four movement actions are held this tick. */
  datatype MoveKeys = MoveKeys(forward: bool, backward: bool, left: bool, right: bool)

  function HeldMoveKeys(input: ButtonInput, keyMap: KeyMap): MoveKeys
  {
    MoveKeys(IsActionPressed(GameAction.MoveForward, input, keyMap),
             IsActionPressed(GameAction.MoveBackward, input, keyMap),
             IsActionPressed(GameAction.MoveLeft, input, keyMap),
             IsActionPressed(GameAction.MoveRight, input, keyMap))
  }

  /** The movement intent: the flattened camera vectors subtracted or added
      in the order the source tests the four movement actions. */
  function MoveDirection(keys: MoveKeys, forward: Vec3, right: Vec3): (d: Vec3)
    ensures d == Add(Axis(Flat(forward), keys.forward, keys.backward), Axis(Flat(right), keys.right, keys.left))
    ensures d.y == 0.0
  {
    var f, r := Flat(forward), Flat(right);
    var d1 := if keys.backward then Sub(Zero, f) else Zero;
    var d2 := if keys.forward then Add(d1, f) else d1;
    var d3 := if keys.left then Sub(d2, r) else d2;
    if keys.right then Add(d3, r) else d3
  }

  /** The source moves only when the intent's squared length is positive;
      over the reals a sum of squares is positive exactly when the vector is
      not zero, and that is how the model states the test. */
  predicate HasIntent(d: Vec3) { d != Zero }

  /** Where the horizontal step would take the player. */
  function Tentative(position: Vec3, direction: Vec3, normalize: Vec3 -> Vec3, dt: real): Vec3
  {
    Add(position, Scale(Scale(normalize(direction), Speed), dt))
  }

  /** The horizontal step: the whole tentative move or none of it. */
  function HorizontalStep(position: Vec3, direction: Vec3, normalize: Vec3 -> Vec3, dt: real, blocks: seq<Vec3>): (p: Vec3)
    ensures !HasIntent(direction) ==> p == position
    ensures var c := Tentative(position, direction, normalize, dt);
            HasIntent(direction) ==>
              (!BlockAt(blocks, c.x, position.y, c.z) ==> p == c) &&
              (BlockAt(blocks, c.x, position.y, c.z) ==> p == position)
  {
    if HasIntent(direction) then
      var c := Tentative(position, direction, normalize, dt);
      if !BlockAt(blocks, c.x, position.y, c.z) then c else position
    else position
  }

  /** Jump from the ground, or fall under gravity while airborne. */
  function JumpOrFall(b: Body, jump: bool, dt: real): (r: Body)
    ensures r.position == b.position
    ensures b.onGround && jump ==> r.verticalVelocity == JumpVelocity && !r.onGround
    ensures !b.onGround ==> r.verticalVelocity == b.verticalVelocity + Gravity * dt && !r.onGround
    ensures b.onGround && !jump ==> r == b
  {
    if b.onGround && jump then Body(b.position, JumpVelocity, false)
    else if !b.onGround then b.(verticalVelocity := b.verticalVelocity + Gravity * dt)
    else b
  }

  /** The vertical move and the ground check, made at the height before the move. */
  function GroundCheck(b: Body, dt: real, blocks: seq<Vec3>): (r: Body)
    ensures r.position == b.position.(y := b.position.y + b.verticalVelocity * dt)
    ensures var p := b.position;
            r.onGround == BlockAt(blocks, p.x, p.y - 1.0, p.z)
    ensures r.verticalVelocity == if r.onGround then 0.0 else b.verticalVelocity
  {
    var p := b.position;
    var newY := p.y + b.verticalVelocity * dt;
    if BlockAt(blocks, p.x, p.y - 1.0, p.z) then Body(p.(y := newY), 0.0, true)
    else Body(p.(y := newY), b.verticalVelocity, false)
  }

  predicate BelowWorld(p: Vec3) { p.y - 1.0 < WorldFloor }

  /** Back to the spawn point, at rest and grounded, below the world floor. */
  function Respawn(b: Body): (r: Body)
    ensures BelowWorld(b.position) ==> r == Body(Spawn, 0.0, true)
    ensures !BelowWorld(b.position) ==> r == b
  {
    if BelowWorld(b.position) then Body(Spawn, 0.0, true) else b
  }

  /** The state between the horizontal step and the vertical update: only
      the position can have changed. */
  function Stepped(b: Body, input: ButtonInput, keyMap: KeyMap, forward: Vec3, right: Vec3,
                   normalize: Vec3 -> Vec3, dt: real, blocks: seq<Vec3>): (s: Body)
    ensures s.verticalVelocity == b.verticalVelocity && s.onGround == b.onGround
  {
    var direction := MoveDirection(HeldMoveKeys(input, keyMap), forward, right);
    b.(position := HorizontalStep(b.position, direction, normalize, dt, blocks))
  }

  /** One full movement tick: the horizontal step, then jump or gravity,
      then the vertical move with the ground check, then the respawn. */
  function Tick(b: Body, input: ButtonInput, keyMap: KeyMap, forward: Vec3, right: Vec3,
                normalize: Vec3 -> Vec3, dt: real, blocks: seq<Vec3>): (r: Body)
    ensures r.onGround ==> r.verticalVelocity == 0.0
  {
    var stepped := Stepped(b, input, keyMap, forward, right, normalize, dt, blocks);
    Respawn(GroundCheck(JumpOrFall(stepped, IsActionPressed(GameAction.Jump, input, keyMap), dt), dt, blocks))
  }

  /** No movement key, or only pairs of opposite keys: the intent is zero. */
  lemma OppositeKeysCancel(keys: MoveKeys, forward: Vec3, right: Vec3)
    requires keys.forward == keys.backward && keys.left == keys.right
    ensures !HasIntent(MoveDirection(keys, forward, right))
  {
  }

  /** Without intent the tick keeps x and z, unless it respawns the player. */
  lemma NoIntentKeepsHorizontalPosition(b: Body, input: ButtonInput, keyMap: KeyMap, forward: Vec3, right: Vec3,
                                        normalize: Vec3 -> Vec3, dt: real, blocks: seq<Vec3>)
    requires !HasIntent(MoveDirection(HeldMoveKeys(input, keyMap), forward, right))
    ensures var r := Tick(b, input, keyMap, forward, right, normalize, dt, blocks);
            r == Body(Spawn, 0.0, true) || (r.position.x == b.position.x && r.position.z == b.position.z)
  {
  }

  /** With intent, the tick takes the whole tentative step when no block is
      at (new x, current y, new z), and leaves x, y and z as they were when
      there is one; no axis slides on its own. */
  lemma StepIsAllOrNothing(b: Body, input: ButtonInput, keyMap: KeyMap, forward: Vec3, right: Vec3,
                           normalize: Vec3 -> Vec3, dt: real, blocks: seq<Vec3>)
    requires HasIntent(MoveDirection(HeldMoveKeys(input, keyMap), forward, right))
    ensures var c := Tentative(b.position, MoveDirection(HeldMoveKeys(input, keyMap), forward, right), normalize, dt);
            var s := Stepped(b, input, keyMap, forward, right, normalize, dt, blocks).position;
            && (BlockAt(blocks, c.x, b.position.y, c.z) ==> s == b.position)
            && (!BlockAt(blocks, c.x, b.position.y, c.z) ==> s == c)
  {
  }

  /** Moving into a block: when a block is at (new x, current y, new z) the
      tick ends with x and z unchanged, unless it respawns the player. */
  lemma BlockedStepKeepsHorizontalPosition(b: Body, input: ButtonInput, keyMap: KeyMap, forward: Vec3, right: Vec3,
                                           normalize: Vec3 -> Vec3, dt: real, blocks: seq<Vec3>)
    requires var c := Tentative(b.position, MoveDirection(HeldMoveKeys(input, keyMap), forward, right), normalize, dt);
             BlockAt(blocks, c.x, b.position.y, c.z)
    ensures var r := Tick(b, input, keyMap, forward, right, normalize, dt, blocks);
            r == Body(Spawn, 0.0, true) || (r.position.x == b.position.x && r.position.z == b.position.z)
  {
  }

  /** The vertical stages on a body `s`: the velocity they use, the height
      they reach, the ground check at the height before the move, and the
      respawn when the new height is below the floor. */
  lemma VerticalStages(s: Body, jump: bool, dt: real, blocks: seq<Vec3>)
    ensures var v := JumpOrFall(s, jump, dt).verticalVelocity;
            var landed := Vec3(s.position.x, s.position.y + v * dt, s.position.z);
            var r := Respawn(GroundCheck(JumpOrFall(s, jump, dt), dt, blocks));
            && (s.onGround && jump ==> v == JumpVelocity)
            && (!s.onGround ==> v == s.verticalVelocity + Gravity * dt)
            && (s.onGround && !jump ==> v == s.verticalVelocity)
            && (BelowWorld(landed) ==> r == Body(Spawn, 0.0, true))
            && (!BelowWorld(landed) ==>
                  r.position == landed &&
                  r.onGround == BlockAt(blocks, s.position.x, s.position.y - 1.0, s.position.z) &&
                  r.verticalVelocity == (if r.onGround then 0.0 else v))
  {
  }

  /** A block just under a body makes the vertical stages end grounded and at rest. */
  lemma GroundedAfterVerticalStages(s: Body, jump: bool, dt: real, blocks: seq<Vec3>)
    requires BlockAt(blocks, s.position.x, s.position.y - 1.0, s.position.z)
    ensures var r := Respawn(GroundCheck(JumpOrFall(s, jump, dt), dt, blocks));
            r.onGround && r.verticalVelocity == 0.0
  {
  }

  /** Standing on a block after the step: the tick ends grounded and at rest. */
  lemma BlockBelowGrounds(b: Body, input: ButtonInput, keyMap: KeyMap, forward: Vec3, right: Vec3,
                          normalize: Vec3 -> Vec3, dt: real, blocks: seq<Vec3>)
    requires var s := Stepped(b, input, keyMap, forward, right, normalize, dt, blocks).position;
             BlockAt(blocks, s.x, s.y - 1.0, s.z)
    ensures var r := Tick(b, input, keyMap, forward, right, normalize, dt, blocks);
            r.onGround && r.verticalVelocity == 0.0
  {
    GroundedAfterVerticalStages(Stepped(b, input, keyMap, forward, right, normalize, dt, blocks),
                                IsActionPressed(GameAction.Jump, input, keyMap), dt, blocks);
  }

  /** A level intent and a normalisation that keeps it level: the step keeps the height. */
  lemma LevelStepKeepsHeight(position: Vec3, direction: Vec3, normalize: Vec3 -> Vec3, dt: real, blocks: seq<Vec3>)
    requires normalize(direction).y == 0.0
    ensures HorizontalStep(position, direction, normalize, dt, blocks).y == position.y
  {
  }

  /** An airborne body already below the floor height that is not rising
      stays below it through the vertical stages, and is respawned. */
  lemma FallingBelowFloorRespawns(s: Body, jump: bool, dt: real, blocks: seq<Vec3>)
    requires !s.onGround && s.verticalVelocity <= 0.0 && dt >= 0.0
    requires BelowWorld(s.position)
    ensures Respawn(GroundCheck(JumpOrFall(s, jump, dt), dt, blocks)) == Body(Spawn, 0.0, true)
  {
  }

  /** A tick of an airborne player below the floor height (say at y = -11)
      that is not moving up ends at the spawn point, grounded and at rest,
      whatever keys are held, given that the normalisation keeps level
      vectors level. */
  lemma AirborneBelowFloorRespawns(b: Body, input: ButtonInput, keyMap: KeyMap, forward: Vec3, right: Vec3,
                                   normalize: Vec3 -> Vec3, dt: real, blocks: seq<Vec3>)
    requires !b.onGround && b.verticalVelocity <= 0.0 && dt >= 0.0
    requires BelowWorld(b.position)
    requires forall w: Vec3 :: w.y == 0.0 ==> normalize(w).y == 0.0
    ensures Tick(b, input, keyMap, forward, right, normalize, dt, blocks) == Body(Spawn, 0.0, true)
  {
    SteppedStaysBelowFloor(b, input, keyMap, forward, right, normalize, dt, blocks);
    FallingBelowFloorRespawns(Stepped(b, input, keyMap, forward, right, normalize, dt, blocks),
                              IsActionPressed(GameAction.Jump, input, keyMap), dt, blocks);
  }

  /** The horizontal step keeps an airborne, non-rising body below the floor
      height when the normalisation keeps level vectors level. */
  lemma SteppedStaysBelowFloor(b: Body, input: ButtonInput, keyMap: KeyMap, forward: Vec3, right: Vec3,
                                normalize: Vec3 -> Vec3, dt: real, blocks: seq<Vec3>)
    requires !b.onGround && b.verticalVelocity <= 0.0
    requires BelowWorld(b.position)
    requires forall w: Vec3 :: w.y == 0.0 ==> normalize(w).y == 0.0
    ensures var s := Stepped(b, input, keyMap, forward, right, normalize, dt, blocks);
            !s.onGround && s.verticalVelocity <= 0.0 && BelowWorld(s.position)
  {
    var direction := MoveDirection(HeldMoveKeys(input, keyMap), forward, right);
    LevelStepKeepsHeight(b.position, direction, normalize, dt, blocks);
  }

  /** The player entity: its translation and its vertical motion. */
  class Player {
    var translation: Vec3
    var verticalVelocity: real
    var onGround: bool

    constructor (translation: Vec3, verticalVelocity: real, onGround: bool)
      ensures this.translation == translation
      ensures this.verticalVelocity == verticalVelocity && this.onGround == onGround
    {
      this.translation := translation;
      this.verticalVelocity := verticalVelocity;
      this.onGround := onGround;
    }

    function State(): Body
      reads this
    {
      Body(translation, verticalVelocity, onGround)
    }

    /** The movement system's physics, updating the fields in place, stage
        by stage in the order the source runs them. */
    method MovementTick(input: ButtonInput, keyMap: KeyMap, forward: Vec3, right: Vec3,
                        normalize: Vec3 -> Vec3, dt: real, blocks: seq<Vec3>)
      modifies this
      ensures State() == Tick(old(State()), input, keyMap, forward, right, normalize, dt, blocks)
      ensures onGround ==> verticalVelocity == 0.0
    {
      var direction := MoveDirection(HeldMoveKeys(input, keyMap), forward, right);
      StepHorizontally(direction, normalize, dt, blocks);
      ApplyJumpOrGravity(IsActionPressed(GameAction.Jump, input, keyMap), dt);
      MoveVerticallyAndCheckGround(dt, blocks);
      RespawnBelowWorld();
    }

    /** Moves by the whole tentative step unless a block is in the way. */
    method StepHorizontally(direction: Vec3, normalize: Vec3 -> Vec3, dt: real, blocks: seq<Vec3>)
      modifies this
      ensures State() == old(State()).(position := HorizontalStep(old(translation), direction, normalize, dt, blocks))
    {
      if HasIntent(direction) {
        var newPos := Add(translation, Scale(Scale(normalize(direction), Speed), dt));
        var blocked := IsBlockAtPosition(newPos.x, translation.y, newPos.z, blocks);
        if !blocked {
          translation := newPos;
        }
      }
    }

    method ApplyJumpOrGravity(jump: bool, dt: real)
      modifies this
      ensures State() == JumpOrFall(old(State()), jump, dt)
    {
      if onGround && jump {
        verticalVelocity := JumpVelocity;
        onGround := false;
      } else if !onGround {
        verticalVelocity := verticalVelocity + Gravity * dt;
      }
    }

    method MoveVerticallyAndCheckGround(dt: real, blocks: seq<Vec3>)
      modifies this
      ensures State() == GroundCheck(old(State()), dt, blocks)
    {
      var newY := translation.y + verticalVelocity * dt;
      var below := IsBlockAtPosition(translation.x, translation.y - 1.0, translation.z, blocks);
      if below {
        translation := translation.(y := newY);
        onGround := true;
        verticalVelocity := 0.0;
      } else {
        translation := translation.(y := newY);
        onGround := false;
      }
    }

    method RespawnBelowWorld()
      modifies this
      ensures State() == Respawn(old(State()))
    {
      if translation.y - 1.0 < WorldFloor {
        translation := Spawn;
        onGround := true;
        verticalVelocity := 0.0;
      }
    }
  }
}
