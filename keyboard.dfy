/**
 Action bindings of the client's keyboard input (client/src/input/keyboard.rs):
 the three "is some key bound to this action in state S" queries, the partial
 lookup of an action's keys, and the fallback to the default key table when no
 stored bindings could be read.
 */
module Keyboard {

  datatype Option<T> = None | Some(value: T)

  /** The game actions that the default key table binds. */
  datatype GameAction =
    | MoveForward | MoveBackward | MoveLeft | MoveRight
    | Jump | Escape | ToggleFps | ToggleViewMode | ToggleChunkDebugMode
    | ToggleFlyMode | FlyUp | FlyDown | ToggleBlockWireframeDebugMode
    | ToggleInventory | OpenChat | RenderDistanceMinus | RenderDistancePlus

  /** The physical keys the default table names; any other key is `Other`. */
  datatype KeyCode =
    | KeyW | KeyA | KeyS | KeyD | KeyE | KeyF | KeyO | KeyP | KeyT
    | ArrowUp | ArrowDown | ArrowLeft | ArrowRight
    | Space | Escape | ShiftLeft | F3 | F4 | F5 | F6
    | Other(code: nat)

  /** The engine's per-frame keyboard state: keys held down, keys that went
      down this frame, and keys that came up this frame. */
  datatype ButtonInput = ButtonInput(
    pressed: set<KeyCode>,
    justPressed: set<KeyCode>,
    justReleased: set<KeyCode>)

  /** An ordered map from action to the list of keys bound to it. */
  datatype KeyMap = KeyMap(bindings: map<GameAction, seq<KeyCode>>)

  /** Scans `keys` in order and stops at the first key found in `held`. */
  function AnyKeyIn(keys: seq<KeyCode>, held: set<KeyCode>): (r: bool)
    ensures r <==> exists i :: 0 <= i < |keys| && keys[i] in held
  {
    if keys == [] then false
    else if keys[0] in held then true
    else AnyKeyIn(keys[1..], held)
  }

  /** True iff `action` is bound and one of its keys is in `held`. */
  predicate BoundKeyIn(action: GameAction, keyMap: KeyMap, held: set<KeyCode>)
  {
    action in keyMap.bindings && AnyKeyIn(keyMap.bindings[action], held)
  }

  function IsActionPressed(action: GameAction, input: ButtonInput, keyMap: KeyMap): (r: bool)
    ensures r <==> action in keyMap.bindings &&
                   exists i :: 0 <= i < |keyMap.bindings[action]| && keyMap.bindings[action][i] in input.pressed
  {
    BoundKeyIn(action, keyMap, input.pressed)
  }

  function IsActionJustPressed(action: GameAction, input: ButtonInput, keyMap: KeyMap): (r: bool)
    ensures r <==> action in keyMap.bindings &&
                   exists i :: 0 <= i < |keyMap.bindings[action]| && keyMap.bindings[action][i] in input.justPressed
  {
    BoundKeyIn(action, keyMap, input.justPressed)
  }

  function IsActionJustReleased(action: GameAction, input: ButtonInput, keyMap: KeyMap): (r: bool)
    ensures r <==> action in keyMap.bindings &&
                   exists i :: 0 <= i < |keyMap.bindings[action]| && keyMap.bindings[action][i] in input.justReleased
  {
    BoundKeyIn(action, keyMap, input.justReleased)
  }

  /** An action with no entry, or with an empty key list, satisfies none of
      the three queries, whatever the keyboard state. */
  lemma UnboundActionIsInactive(action: GameAction, input: ButtonInput, keyMap: KeyMap)
    requires action !in keyMap.bindings || keyMap.bindings[action] == []
    ensures !IsActionPressed(action, input, keyMap)
    ensures !IsActionJustPressed(action, input, keyMap)
    ensures !IsActionJustReleased(action, input, keyMap)
  {
  }

  /** Binding more keys to an action never turns a true query false. */
  lemma {:induction false} MoreKeysKeepAnyKey(keys: seq<KeyCode>, extra: seq<KeyCode>, held: set<KeyCode>)
    requires AnyKeyIn(keys, held)
    ensures AnyKeyIn(keys + extra, held)
  {
    if keys[0] !in held {
      MoreKeysKeepAnyKey(keys[1..], extra, held);
      assert (keys + extra)[1..] == keys[1..] + extra;
    }
  }

  lemma BindingMoreKeysIsMonotonic(action: GameAction, extra: seq<KeyCode>, input: ButtonInput, keyMap: KeyMap)
    requires action in keyMap.bindings
    ensures var wider := KeyMap(keyMap.bindings[action := keyMap.bindings[action] + extra]);
            && (IsActionPressed(action, input, keyMap) ==> IsActionPressed(action, input, wider))
            && (IsActionJustPressed(action, input, keyMap) ==> IsActionJustPressed(action, input, wider))
            && (IsActionJustReleased(action, input, keyMap) ==> IsActionJustReleased(action, input, wider))
  {
    var keys := keyMap.bindings[action];
    if AnyKeyIn(keys, input.pressed) { MoreKeysKeepAnyKey(keys, extra, input.pressed); }
    if AnyKeyIn(keys, input.justPressed) { MoreKeysKeepAnyKey(keys, extra, input.justPressed); }
    if AnyKeyIn(keys, input.justReleased) { MoreKeysKeepAnyKey(keys, extra, input.justReleased); }
  }

  /** The keys bound to `action`, in binding order; the source unwraps the
      lookup, so an unbound action is the caller's error. */
  function GetActionKeys(action: GameAction, keyMap: KeyMap): (keys: seq<KeyCode>)
    requires action in keyMap.bindings
    ensures keys == keyMap.bindings[action]
  {
    keyMap.bindings[action]
  }

  /** The lookup and the query agree: a bound action is pressed exactly when
      one of the keys the lookup returns is pressed. */
  lemma PressedIffSomeListedKeyPressed(action: GameAction, input: ButtonInput, keyMap: KeyMap)
    requires action in keyMap.bindings
    ensures IsActionPressed(action, input, keyMap) <==>
            exists k :: k in GetActionKeys(action, keyMap) && k in input.pressed
  {
  }

  /** Every action, in the order the default table inserts them. */
  const ActionOrder: seq<GameAction> := [
    GameAction.MoveForward, GameAction.MoveBackward, GameAction.MoveLeft, GameAction.MoveRight,
    GameAction.Jump, GameAction.Escape, GameAction.ToggleFps, GameAction.ToggleViewMode,
    GameAction.ToggleChunkDebugMode, GameAction.ToggleFlyMode, GameAction.FlyUp, GameAction.FlyDown,
    GameAction.ToggleBlockWireframeDebugMode, GameAction.ToggleInventory, GameAction.OpenChat,
    GameAction.RenderDistanceMinus, GameAction.RenderDistancePlus
  ]

  /** The position of each action in `ActionOrder`. */
  function Ordinal(action: GameAction): (n: nat)
    ensures n < |ActionOrder| && ActionOrder[n] == action
  {
    match action
    case MoveForward => 0
    case MoveBackward => 1
    case MoveLeft => 2
    case MoveRight => 3
    case Jump => 4
    case Escape => 5
    case ToggleFps => 6
    case ToggleViewMode => 7
    case ToggleChunkDebugMode => 8
    case ToggleFlyMode => 9
    case FlyUp => 10
    case FlyDown => 11
    case ToggleBlockWireframeDebugMode => 12
    case ToggleInventory => 13
    case OpenChat => 14
    case RenderDistanceMinus => 15
    case RenderDistancePlus => 16
  }

  predicate Distinct(s: seq<GameAction>)
  {
    forall i, j :: 0 <= i < j < |s| ==> s[i] != s[j]
  }

  lemma {:induction false} DistinctCount(s: seq<GameAction>)
    requires Distinct(s)
    ensures |set a | a in s| == |s|
  {
    if s != [] {
      DistinctCount(s[1..]);
      assert (set a | a in s) == {s[0]} + (set a | a in s[1..]);
    }
  }

  lemma ActionOrderIsDistinct()
    ensures Distinct(ActionOrder)
  {
    forall i | 0 <= i < |ActionOrder| ensures Ordinal(ActionOrder[i]) == i {
    }
  }

  /** The keys the default table binds to each action. */
  function DefaultKeys(action: GameAction): (keys: seq<KeyCode>)
    ensures keys != []
  {
    match action
    case MoveForward => [KeyW, ArrowUp]
    case MoveBackward => [KeyS, ArrowDown]
    case MoveLeft => [KeyA, ArrowLeft]
    case MoveRight => [KeyD, ArrowRight]
    case Jump => [Space]
    case Escape => [KeyCode.Escape]
    case ToggleFps => [F3]
    case ToggleViewMode => [F5]
    case ToggleChunkDebugMode => [F4]
    case ToggleFlyMode => [KeyF]
    case FlyUp => [Space]
    case FlyDown => [ShiftLeft]
    case ToggleBlockWireframeDebugMode => [F6]
    case ToggleInventory => [KeyE]
    case OpenChat => [KeyT]
    case RenderDistanceMinus => [KeyO]
    case RenderDistancePlus => [KeyP]
  }

  /** The table used when no stored bindings can be read: every action,
      bound to its default keys. */
  function DefaultKeyMap(): KeyMap
  {
    KeyMap(map a | a in ActionOrder :: DefaultKeys(a))
  }

  /** The default table binds `action` to `DefaultKeys(action)`. */
  lemma DefaultTableBinds(action: GameAction)
    ensures action in DefaultKeyMap().bindings
    ensures DefaultKeyMap().bindings[action] == DefaultKeys(action)
  {
    assert ActionOrder[Ordinal(action)] == action;
  }

  /** The default table binds every action, seventeen in all, each to a
      nonempty list of keys. */
  lemma DefaultTableBindsSeventeenActions()
    ensures forall a: GameAction :: a in DefaultKeyMap().bindings && DefaultKeyMap().bindings[a] != []
    ensures |DefaultKeyMap().bindings.Keys| == 17
  {
    var keys := DefaultKeyMap().bindings.Keys;
    forall a: GameAction ensures a in DefaultKeyMap().bindings && DefaultKeyMap().bindings[a] != [] && a in ActionOrder {
      DefaultTableBinds(a);
      assert ActionOrder[Ordinal(a)] == a;
    }
    ActionOrderIsDistinct();
    DistinctCount(ActionOrder);
    assert keys == set a | a in ActionOrder;
  }

  /** With the default table, Space drives both Jump and FlyUp. */
  lemma SpacePressesJumpAndFlyUp(input: ButtonInput)
    requires Space in input.pressed
    ensures IsActionPressed(GameAction.Jump, input, DefaultKeyMap())
    ensures IsActionPressed(GameAction.FlyUp, input, DefaultKeyMap())
  {
    DefaultTableBinds(GameAction.Jump);
    DefaultTableBinds(GameAction.FlyUp);
  }

  /** Returns the stored bindings when they were read and parsed (`stored`
      stands for the outcome of reading and parsing the bindings file), and
      otherwise builds the default table one insertion at a time. */
  method GetBindings(stored: Option<KeyMap>) returns (km: KeyMap)
    ensures stored.Some? ==> km == stored.value
    ensures stored.None? ==> km == DefaultKeyMap()
  {
    if stored.Some? {
      return stored.value;
    }
    var m: map<GameAction, seq<KeyCode>> := map[];
    m := m[GameAction.MoveForward := [KeyW, ArrowUp]];
    m := m[GameAction.MoveBackward := [KeyS, ArrowDown]];
    m := m[GameAction.MoveLeft := [KeyA, ArrowLeft]];
    m := m[GameAction.MoveRight := [KeyD, ArrowRight]];
    m := m[GameAction.Jump := [Space]];
    m := m[GameAction.Escape := [KeyCode.Escape]];
    m := m[GameAction.ToggleFps := [F3]];
    m := m[GameAction.ToggleViewMode := [F5]];
    m := m[GameAction.ToggleChunkDebugMode := [F4]];
    m := m[GameAction.ToggleFlyMode := [KeyF]];
    m := m[GameAction.FlyUp := [Space]];
    m := m[GameAction.FlyDown := [ShiftLeft]];
    m := m[GameAction.ToggleBlockWireframeDebugMode := [F6]];
    m := m[GameAction.ToggleInventory := [KeyE]];
    m := m[GameAction.OpenChat := [KeyT]];
    m := m[GameAction.RenderDistanceMinus := [KeyO]];
    m := m[GameAction.RenderDistancePlus := [KeyP]];
    forall a: GameAction ensures a in m && m[a] == DefaultKeys(a) {
      match a
      case MoveForward =>
      case MoveBackward =>
      case MoveLeft =>
      case MoveRight =>
      case Jump =>
      case Escape =>
      case ToggleFps =>
      case ToggleViewMode =>
      case ToggleChunkDebugMode =>
      case ToggleFlyMode =>
      case FlyUp =>
      case FlyDown =>
      case ToggleBlockWireframeDebugMode =>
      case ToggleInventory =>
      case OpenChat =>
      case RenderDistanceMinus =>
      case RenderDistancePlus =>
    }
    BindsAsDefault(m);
    km := KeyMap(m);
  }

  /** A map that binds every action to its default keys is the default table. */
  lemma BindsAsDefault(m: map<GameAction, seq<KeyCode>>)
    requires forall a: GameAction :: a in m && m[a] == DefaultKeys(a)
    ensures m == DefaultKeyMap().bindings
  {
    forall a: GameAction ensures a in DefaultKeyMap().bindings && DefaultKeyMap().bindings[a] == m[a] {
      DefaultTableBinds(a);
    }
  }
}
