/**
 The chunk render distance and the system that adjusts it from the keyboard
 (client/src/world/render_distance.rs). The distance is a `u32`; the model
 uses checked arithmetic, so a decrement at 0 or an increment at the largest
 `u32` is a fault (a panic in a build with overflow checks) instead of a value.
 */
module RenderDistanceSystem {
  import opened Keyboard

  const U32Max: int := 0xFFFF_FFFF

  newtype u32 = x: int | 0 <= x <= U32Max

  datatype Fault = Underflow | Overflow

  /** What one run of the system leaves behind: the distance, and the fault
      that stopped it, if any. On a fault the distance is the value held
      when the failing operation was attempted. */
  datatype Outcome = Outcome(distance: u32, fault: Option<Fault>)

  /** The distance once a stored 0 has been replaced by the default. */
  function Effective(distance: u32, defaultRadius: u32): u32
  {
    if distance == 0 then defaultRadius else distance
  }

  /** One run: default substitution, then Minus, then Plus. */
  function Update(distance: u32, minus: bool, plus: bool, defaultRadius: u32): (r: Outcome)
    ensures r.fault == Some(Underflow) <==> minus && distance == 0 && defaultRadius == 0
    ensures r.fault == Some(Overflow) <==>
              plus && !(minus && Effective(distance, defaultRadius) == 0) &&
              Effective(distance, defaultRadius) as int - (if minus then 1 else 0) == U32Max
    ensures r.fault == None ==>
              r.distance as int == Effective(distance, defaultRadius) as int
                                   - (if minus then 1 else 0) + (if plus then 1 else 0)
  {
    var d := Effective(distance, defaultRadius);
    if minus && d == 0 then Outcome(d, Some(Underflow))
    else
      var d' := if minus then d - 1 else d;
      if plus && d' as int == U32Max then Outcome(d', Some(Overflow))
      else Outcome(if plus then d' + 1 else d', None)
  }

  /** With a default of at least 1 the decrement can never underflow. */
  lemma PositiveDefaultNeverUnderflows(distance: u32, minus: bool, plus: bool, defaultRadius: u32)
    requires defaultRadius >= 1
    ensures Update(distance, minus, plus, defaultRadius).fault != Some(Underflow)
  {
  }

  /** Minus and Plus in the same run cancel out. */
  lemma MinusAndPlusCancel(distance: u32, defaultRadius: u32)
    requires Effective(distance, defaultRadius) >= 1
    ensures Update(distance, true, true, defaultRadius) == Outcome(Effective(distance, defaultRadius), None)
  {
  }

  /** No key and a nonzero distance: nothing changes. */
  lemma IdleRunKeepsDistance(distance: u32, defaultRadius: u32)
    requires distance != 0
    ensures Update(distance, false, false, defaultRadius) == Outcome(distance, None)
  {
  }

  /** The decrement has no lower clamp: Minus at 1 stores 0, and the next run
      puts the default back before it handles any key. */
  lemma NoLowerClamp(defaultRadius: u32, minus: bool, plus: bool)
    ensures Update(1, true, false, defaultRadius) == Outcome(0, None)
    ensures Update(0, minus, plus, defaultRadius) == Update(defaultRadius, minus, plus, defaultRadius)
  {
  }

  /** The system's resource. */
  class RenderDistance {
    var distance: u32

    /** The derived default: a distance of 0, which the first run replaces. */
    constructor ()
      ensures distance == 0
    {
      distance := 0;
    }

    /** The render distance system, updating `distance` in place. */
    method UpdateSystem(input: ButtonInput, keyMap: KeyMap, defaultRadius: u32) returns (fault: Option<Fault>)
      modifies this
      ensures Outcome(distance, fault) ==
              Update(old(distance), IsActionJustPressed(GameAction.RenderDistanceMinus, input, keyMap),
                     IsActionJustPressed(GameAction.RenderDistancePlus, input, keyMap), defaultRadius)
    {
      if distance == 0 {
        distance := defaultRadius;
      }

      if IsActionJustPressed(GameAction.RenderDistanceMinus, input, keyMap) {
        if distance == 0 {
          return Some(Underflow);
        }
        distance := distance - 1;
      }

      if IsActionJustPressed(GameAction.RenderDistancePlus, input, keyMap) {
        if distance as int == U32Max {
          return Some(Overflow);
        }
        distance := distance + 1;
      }
      return None;
    }
  }
}
