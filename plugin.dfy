/** The plugin glue: the four configurable slots kept in $gameSystem, the
    SetTransition plugin command, the pattern test that decides which
    transition class a slot names (falling back to Transition_Base), and the
    scene, screen and spriteset hooks that create, start and update
    transitions. */
module Plugin {
  import opened Canvas
  import Base
  import Melt
  import Iris
  import Cut

  datatype Option<T> = None | Some(value: T)

  /** The slots SetTransition may set. */
  const Slots: set<string> := {"base", "fade", "battle", "transfer"}

  /** The transition classes. */
  datatype Kind = BaseKind | MeltKind | IrisKind | CutKind

  /** The class name a transition file registers, as a string to be
      evaluated by `new`. */
  function ClassName(k: Kind): string {
    match k
    case BaseKind => "my.Transition_Base"
    case MeltKind => "my.Transition_Melt"
    case IrisKind => "my.Transition_Iris"
    case CutKind => "my.Transition_Cut"
  }

  /** my.transitions: short name to class name, one entry per transition file. */
  const Registered: map<string, string> :=
    map["base" := ClassName(BaseKind), "melt" := ClassName(MeltKind),
        "iris" := ClassName(IrisKind), "cut" := ClassName(CutKind)]

  /** Every slot present and naming a registered class. */
  predicate SlotsRegistered(slots: map<string, string>) {
    forall slot :: slot in Slots ==> slot in slots && slots[slot] in Registered.Values
  }

  /** What a fresh Game_System stores: every slot set to Transition_Base. */
  function Defaults(): map<string, string> {
    map["base" := ClassName(BaseKind), "fade" := ClassName(BaseKind),
        "battle" := ClassName(BaseKind), "transfer" := ClassName(BaseKind)]
  }

  /** The defaults name a registered class in every slot, Transition_Base in each. */
  lemma DefaultsRegistered()
    ensures SlotsRegistered(Defaults())
    ensures forall slot :: slot in Slots ==> Defaults()[slot] == Registered["base"]
    ensures Defaults().Keys == Slots
  {
    assert Registered["base"] in Registered.Values;
  }

  /** Whether a plugin command changes a slot: it must be SetTransition,
      its first argument one of the four slots and its second a non-empty
      registered short name. */
  predicate Applies(command: string, args: seq<string>) {
    command == "SetTransition" && |args| >= 2 && args[0] in Slots
    && args[1] != "" && args[1] in Registered
  }

  /** The slots after a plugin command. */
  function Assigned(slots: map<string, string>, command: string, args: seq<string>): (r: map<string, string>)
    ensures Applies(command, args) ==> args[0] in r && r[args[0]] == Registered[args[1]]
    ensures forall slot :: slot in slots && !(Applies(command, args) && slot == args[0]) ==>
      slot in r && r[slot] == slots[slot]
    ensures r.Keys == slots.Keys + (if Applies(command, args) then {args[0]} else {})
  {
    if Applies(command, args) then slots[args[0] := Registered[args[1]]] else slots
  }

  /** No plugin command can make a slot name something unregistered. */
  lemma AssignedKeepsRegistered(slots: map<string, string>, command: string, args: seq<string>)
    requires SlotsRegistered(slots)
    ensures SlotsRegistered(Assigned(slots, command, args))
  {
    var r := Assigned(slots, command, args);
    forall slot | slot in Slots
      ensures slot in r && r[slot] in Registered.Values
    {
      if Applies(command, args) && slot == args[0] {
        assert r[slot] == Registered[args[1]];
      }
    }
  }

  /** Repeating a plugin command changes nothing more. */
  lemma AssignedIdempotent(slots: map<string, string>, command: string, args: seq<string>)
    ensures Assigned(Assigned(slots, command, args), command, args) == Assigned(slots, command, args)
  {
    var once := Assigned(slots, command, args);
    var twice := Assigned(once, command, args);
    assert twice.Keys == once.Keys;
    forall slot | slot in once
      ensures twice[slot] == once[slot]
    {
    }
  }

  /** The fixed text the pattern /my\.Transition_[0-9a-zA-Z_]+/ starts with. */
  const Prefix: string := "my.Transition_"

  predicate WordChar(c: char) {
    'a' <= c <= 'z' || 'A' <= c <= 'Z' || '0' <= c <= '9' || c == '_'
  }

  /** The pattern matches at index i: the prefix, then a word character. */
  predicate MatchesAt(s: string, i: int) {
    0 <= i && i + |Prefix| < |s| && s[i..i + |Prefix|] == Prefix && WordChar(s[i + |Prefix|])
  }

  /** The unanchored search for the pattern, trying each index from i on. */
  function MatchFrom(s: string, i: nat): (found: bool)
    ensures found <==> exists j :: i <= j && MatchesAt(s, j)
    decreases |s| - i
  {
    if i + |Prefix| >= |s| then false
    else MatchesAt(s, i) || MatchFrom(s, i + 1)
  }

  /** `regex.exec(name) != null`. */
  predicate Matches(name: string) {
    MatchFrom(name, 0)
  }

  /** The class `new` finds for a name that passed the pattern test, if any. */
  function KindNamed(name: string): Option<Kind> {
    if name == ClassName(BaseKind) then Some(BaseKind)
    else if name == ClassName(MeltKind) then Some(MeltKind)
    else if name == ClassName(IrisKind) then Some(IrisKind)
    else if name == ClassName(CutKind) then Some(CutKind)
    else None
  }

  /** The class a slot's name resolves to: the named class when the
      pattern matches, Transition_Base when it does not. None stands for
      a matching name that is not one of the four classes, whose
      evaluation fails. */
  function Resolve(name: string): (r: Option<Kind>)
    ensures !Matches(name) ==> r == Some(BaseKind)
    ensures r.Some? && r != Some(BaseKind) ==> Matches(name) && name == ClassName(r.value)
    ensures Matches(name) && (forall k :: name != ClassName(k)) ==> r == None
  {
    if Matches(name) then KindNamed(name) else Some(BaseKind)
  }

  /** Every class name passes the pattern test and resolves to its own class. */
  lemma ClassNameResolves(k: Kind)
    ensures Matches(ClassName(k)) && MatchesAt(ClassName(k), 0)
    ensures Resolve(ClassName(k)) == Some(k)
  {
    var s := ClassName(k);
    assert s[..|Prefix|] == Prefix;
    assert WordChar(s[|Prefix|]);
  }

  /** The pattern is not anchored: whatever precedes a class name, the test passes. */
  lemma MatchesAnywhere(pre: string, k: Kind)
    ensures Matches(pre + ClassName(k))
  {
    var s := pre + ClassName(k);
    ClassNameResolves(k);
    assert s[|pre|..|pre| + |Prefix|] == ClassName(k)[..|Prefix|];
    assert s[|pre| + |Prefix|] == ClassName(k)[|Prefix|];
    assert MatchesAt(s, |pre|);
  }

  /** The prefix alone does not match: at least one word character must follow. */
  lemma PrefixAloneFails()
    ensures !Matches(Prefix)
    ensures Resolve(Prefix) == Some(BaseKind)
  {
  }

  /** A slot that names a registered class always resolves to a class. */
  lemma RegisteredResolves(name: string)
    requires name in Registered.Values
    ensures Resolve(name).Some? && ClassName(Resolve(name).value) == name
  {
    var k :| k in {BaseKind, MeltKind, IrisKind, CutKind} && ClassName(k) == name;
    ClassNameResolves(k);
  }

  /** Game_System's share of the plugin state, saved with the game. */
  class GameSystem {
    var transitions: map<string, string>
    /** The last captured frame. */
    var snap: Frame

    ghost predicate Valid()
      reads this
    {
      SlotsRegistered(transitions)
    }

    /** initialize: every slot Transition_Base, and an empty frame of the
        screen's size as the snapshot. */
    constructor (graphics: Frame)
      ensures transitions == Defaults() && snap == graphics && Valid()
    {
      transitions := Defaults();
      snap := graphics;
      DefaultsRegistered();
    }

    /** pluginCommand: SetTransition <slot> <name> stores the class the
        name is registered under in the slot; anything else is ignored. */
    method PluginCommand(command: string, args: seq<string>)
      requires Valid()
      modifies this`transitions
      ensures Valid()
      ensures transitions == Assigned(old(transitions), command, args)
    {
      if command == "SetTransition" {
        if |args| >= 1 && args[0] in Slots {
          if |args| >= 2 && args[1] != "" && args[1] in Registered {
            transitions := transitions[args[0] := Registered[args[1]]];
          }
        }
      }
      AssignedKeepsRegistered(old(transitions), command, args);
    }
  }

  /** Game_Screen's fade request, read by the spriteset on its next update. */
  class GameScreen {
    var brightness: int
    /** +1 asked for by a fade-out event command, -1 by a fade-in. */
    var fadeSign: int
    var duration: int
    /** A fade was asked for and not yet started. */
    var starting: bool

    ghost predicate Valid()
      reads this
    {
      starting ==> duration >= 1
    }

    constructor ()
      ensures brightness == 255 && fadeSign == 0 && duration == 0 && !starting && Valid()
    {
      brightness := 255;
      fadeSign := 0;
      duration := 0;
      starting := false;
    }

    /** startFadeOut: ask for a +1 fade of `duration` and capture the screen. */
    method StartFadeOut(duration: int, sys: GameSystem, shot: Frame)
      requires duration >= 1
      modifies this`fadeSign, this`duration, this`starting, sys`snap
      ensures fadeSign == 1 && this.duration == duration && starting && Valid()
      ensures sys.snap == shot
    {
      fadeSign := 1;
      this.duration := duration;
      starting := true;
      sys.snap := shot;
    }

    /** startFadeIn: ask for a -1 fade of `duration` and capture the screen. */
    method StartFadeIn(duration: int, sys: GameSystem, shot: Frame)
      requires duration >= 1
      modifies this`fadeSign, this`duration, this`starting, sys`snap
      ensures fadeSign == -1 && this.duration == duration && starting && Valid()
      ensures sys.snap == shot
    {
      fadeSign := -1;
      this.duration := duration;
      starting := true;
      sys.snap := shot;
    }

    /** clearFade: full brightness and no fade asked for. */
    method ClearFade()
      modifies this
      ensures brightness == 255 && fadeSign == 0 && duration == 0 && !starting && Valid()
    {
      brightness := 255;
      fadeSign := 0;
      duration := 0;
      starting := false;
    }
  }

  /** The random draws a start may make: Transition_Melt's offsets and
      Transition_Cut's angle and cut point. */
  datatype Dice = Dice(first: int, steps: seq<int>, vertical: bool, slope: real, jx: real, jy: real)

  predicate DiceInRange(dice: Dice) {
    Melt.DrawsInRange(dice.first, dice.steps) && 0.0 <= dice.jx < 1.0 && 0.0 <= dice.jy < 1.0
  }

  /** A scene's or spriteset's `transition` field: none yet, or one object
      of one of the four classes. */
  datatype Playing =
    | Idle
    | PlaysBase(base: Base.BaseTransition)
    | PlaysMelt(melt: Melt.MeltTransition)
    | PlaysIris(iris: Iris.IrisTransition)
    | PlaysCut(cut: Cut.CutTransition)

  /** The transition object itself. */
  function Objects(p: Playing): set<object> {
    match p
    case Idle => {}
    case PlaysBase(t) => {t}
    case PlaysMelt(t) => {t}
    case PlaysIris(t) => {t}
    case PlaysCut(t) => {t}
  }

  /** Everything starting or updating the transition may change. */
  function Footprint(p: Playing): set<object>
    reads Objects(p)
  {
    match p
    case Idle => {}
    case PlaysBase(t) => {t, t.screen}
    case PlaysMelt(t) => {t, t.screen, t.heights}
    case PlaysIris(t) => {t, t.screen}
    case PlaysCut(t) => {t, t.screen}
  }

  function KindOf(p: Playing): Option<Kind> {
    match p
    case Idle => None
    case PlaysBase(_) => Some(BaseKind)
    case PlaysMelt(_) => Some(MeltKind)
    case PlaysIris(_) => Some(IrisKind)
    case PlaysCut(_) => Some(CutKind)
  }

  /** The sprite the transition draws on. */
  function ScreenOf(p: Playing): Sprite?
  {
    match p
    case Idle => null
    case PlaysBase(t) => t.screen
    case PlaysMelt(t) => t.screen
    case PlaysIris(t) => t.screen
    case PlaysCut(t) => t.screen
  }

  function WhiteOf(p: Playing): int {
    match p
    case Idle => 0
    case PlaysBase(t) => t.white
    case PlaysMelt(t) => t.white
    case PlaysIris(t) => t.white
    case PlaysCut(t) => t.white
  }

  function SignOf(p: Playing): int {
    match p
    case Idle => 0
    case PlaysBase(t) => t.fadeSign
    case PlaysMelt(t) => t.fadeSign
    case PlaysIris(t) => t.fadeSign
    case PlaysCut(t) => t.fadeSign
  }

  /** The captured frame a transition works from; Transition_Base has none. */
  function SnapOf(p: Playing): Option<Frame>
    reads Objects(p)
  {
    match p
    case Idle => None
    case PlaysBase(_) => None
    case PlaysMelt(t) => Some(t.snap)
    case PlaysIris(t) => if |t.snaps| >= 1 then Some(t.snaps[0].frame) else None
    case PlaysCut(t) => if |t.snaps| >= 1 then Some(t.snaps[0].frame) else None
  }

  /** `transition && transition.active`. */
  predicate Active(p: Playing)
    reads Objects(p)
  {
    match p
    case Idle => false
    case PlaysBase(t) => t.active
    case PlaysMelt(t) => t.active
    case PlaysIris(t) => t.active
    case PlaysCut(t) => t.active
  }

  ghost predicate Sound(p: Playing)
    reads Objects(p)
  {
    match p
    case Idle => true
    case PlaysBase(t) => t.Valid()
    case PlaysMelt(t) => t.Valid()
    case PlaysIris(t) => t.Valid()
    case PlaysCut(t) => t.Valid()
  }

  /** What start(d) leaves on a transition of each class. */
  ghost predicate Launched(p: Playing, d: int, dice: Dice)
    requires DiceInRange(dice)
    reads Footprint(p)
  {
    match p
    case Idle => true
    case PlaysBase(t) => t.StartedWith(d)
    case PlaysMelt(t) => t.StartedWith(d, dice.first, dice.steps)
    case PlaysIris(t) => t.StartedWith(d)
    case PlaysCut(t) => t.StartedWith(d, dice.vertical, dice.slope, dice.jx, dice.jy)
  }

  /** Whether start leaves a transition of class k running: Transition_Base
      when its colour is black (0) or white (1), the other classes only on a
      fade-in (+1). */
  predicate Starts(k: Option<Kind>, white: int, sign: int) {
    k.Some? && if k.value == BaseKind then white == 0 || white == 1 else sign > 0
  }

  /** A fade-out (-1) plays only as Transition_Base in black or white: a
      melt, iris or cut chosen for a fade-out leaves the screen alone. */
  lemma FadeOutPlaysOnlyAsBase(k: Kind, white: int)
    ensures Starts(Some(k), white, -1) <==> k == BaseKind && (white == 0 || white == 1)
  {
  }

  /** One update of a transition of each class. */
  twostate predicate Stepped(p: Playing)
    requires old(Sound(p))
    reads Footprint(p)
  {
    match p
    case Idle => true
    case PlaysBase(t) => t.Ticked()
    case PlaysMelt(t) => t.Ticked()
    case PlaysIris(t) => t.Ticked()
    case PlaysCut(t) => t.Ticked()
  }

  /** `new <class>(screen, white, sign)`: a stopped transition; the
      snapshot-based classes take the current captured frame. */
  method Make(k: Kind, screen: Sprite, white: int, sign: int, snap: Frame) returns (p: Playing)
    ensures KindOf(p) == Some(k) && ScreenOf(p) == screen && WhiteOf(p) == white && SignOf(p) == sign
    ensures SnapOf(p) == (if k == BaseKind then None else Some(snap))
    ensures fresh(Objects(p)) && (p.PlaysMelt? ==> fresh(p.melt.heights))
    ensures Sound(p) && !Active(p)
  {
    match k
    case BaseKind =>
      var t := new Base.BaseTransition(screen, white, sign);
      p := PlaysBase(t);
    case MeltKind =>
      var t := new Melt.MeltTransition(screen, white, sign, snap);
      p := PlaysMelt(t);
    case IrisKind =>
      var t := new Iris.IrisTransition(screen, white, sign, snap);
      p := PlaysIris(t);
    case CutKind =>
      var t := new Cut.CutTransition(screen, white, sign, snap);
      p := PlaysCut(t);
  }

  /** `transition.start(d)` on a stopped transition. */
  method StartPlaying(p: Playing, d: int, dice: Dice)
    requires Sound(p) && !Active(p) && d >= 1 && DiceInRange(dice)
    modifies Footprint(p)
    ensures Sound(p) && Launched(p, d, dice)
    ensures Active(p) <==> Starts(KindOf(p), WhiteOf(p), SignOf(p))
    ensures SnapOf(p) == old(SnapOf(p))
    ensures p.PlaysMelt? ==> fresh(p.melt.heights) || p.melt.heights == old(p.melt.heights)
  {
    match p
    case Idle =>
    case PlaysBase(t) => t.Start(d);
    case PlaysMelt(t) => t.Start(d, dice.first, dice.steps);
    case PlaysIris(t) => t.Start(d);
    case PlaysCut(t) => t.Start(d, dice.vertical, dice.slope, dice.jx, dice.jy);
  }

  /** Resolve a slot's class name, create the transition and start it:
      the body shared by every hook that begins a transition. */
  method Launch(name: string, screen: Sprite, white: int, sign: int, snap: Frame, d: int, dice: Dice)
    returns (p: Playing)
    requires name in Registered.Values && d >= 1 && DiceInRange(dice)
    modifies screen
    ensures KindOf(p) == Resolve(name) && ScreenOf(p) == screen && WhiteOf(p) == white && SignOf(p) == sign
    ensures KindOf(p) != Some(BaseKind) ==> SnapOf(p) == Some(snap)
    ensures fresh(Objects(p)) && (p.PlaysMelt? ==> fresh(p.melt.heights))
    ensures Sound(p) && Launched(p, d, dice)
    ensures Active(p) <==> Starts(Resolve(name), white, sign)
  {
    RegisteredResolves(name);
    p := Make(Resolve(name).value, screen, white, sign, snap);
    StartPlaying(p, d, dice);
  }

  /** `transition.update()`. */
  method UpdatePlaying(p: Playing)
    requires Sound(p)
    modifies Footprint(p)
    ensures Sound(p) && Stepped(p)
  {
    match p
    case Idle =>
    case PlaysBase(t) => t.Update();
    case PlaysMelt(t) => t.Update();
    case PlaysIris(t) => t.Update();
    case PlaysCut(t) => t.Update();
  }

  /** `duration || 30`: a missing (0) duration becomes 30. */
  function OrThirty(duration: int): (d: int)
    ensures duration >= 0 ==> d >= 1
    ensures d == duration || (duration == 0 && d == 30)
  {
    if duration == 0 then 30 else duration
  }

  /** Which part of Scene_Battle.update ran. */
  datatype BattleStep = FirstBattleUpdate | TransitionUpdate | BattleUpdate

  /** The branch Scene_Battle.update takes and the new `init` flag: the
      first call while a transition plays runs the battle once and closes
      the gate; later calls only advance the transition. */
  function BattleGate(playing: bool, init: bool): (r: (BattleStep, bool))
    ensures r.0 == FirstBattleUpdate <==> playing && !init
    ensures r.0 == TransitionUpdate <==> playing && init
    ensures r.0 == BattleUpdate <==> !playing
    ensures r.1 == (init || playing)
  {
    if playing && !init then (FirstBattleUpdate, true)
    else if playing && init then (TransitionUpdate, init)
    else (BattleUpdate, init)
  }

  /** While a transition keeps playing, the battle itself runs exactly once,
      on the first of any number of calls. */
  lemma {:induction false} BattleRunsOnce(init: bool, n: nat)
    decreases n
    ensures GateRun(init, n) == (if n == 0 || init then 0 else 1)
  {
    if n > 0 {
      BattleRunsOnce(BattleGate(true, init).1, n - 1);
    }
  }

  /** How many of n successive calls with a transition playing run the battle. */
  function GateRun(init: bool, n: nat): nat
    decreases n
  {
    if n == 0 then 0
    else
      var (step, init') := BattleGate(true, init);
      (if step == FirstBattleUpdate then 1 else 0) + GateRun(init', n - 1)
  }

  /** A scene (Scene_Base and its Scene_Map and Scene_Battle kinds) with
      its lazily created fade sprite and its transition. */
  class Scene {
    /** Graphics.width x Graphics.height. */
    const graphics: Frame
    var fadeSprite: Sprite?
    var transition: Playing
    /** Scene_Battle: the battle has had its first update. */
    var init: bool

    ghost predicate Valid()
      reads this, Objects(transition)
    {
      Sound(transition)
    }

    constructor (graphics: Frame)
      ensures this.graphics == graphics && fadeSprite == null && transition == Idle && !init
      ensures Valid()
    {
      this.graphics := graphics;
      fadeSprite := null;
      transition := Idle;
      init := false;
    }

    /** isBusy: a transition exists and is playing. */
    predicate Busy()
      reads this, Objects(transition)
    {
      Active(transition)
    }

    /** Resolve the slot's class, create it on the fade sprite (made on
        first use), and start it for d ticks. */
    method Play(slot: string, white: int, sign: int, d: int, sys: GameSystem, dice: Dice)
      requires slot in Slots && sys.Valid() && d >= 1 && DiceInRange(dice)
      modifies this`fadeSprite, this`transition, fadeSprite
      ensures old(fadeSprite) != null ==> fadeSprite == old(fadeSprite)
      ensures old(fadeSprite) == null ==>
        fresh(fadeSprite) && fadeSprite.width == graphics.width && fadeSprite.height == graphics.height
      ensures fresh(Objects(transition)) && Valid()
      ensures KindOf(transition) == Resolve(sys.transitions[slot])
      ensures ScreenOf(transition) == fadeSprite && WhiteOf(transition) == white && SignOf(transition) == sign
      ensures KindOf(transition) != Some(BaseKind) ==> SnapOf(transition) == Some(sys.snap)
      ensures Launched(transition, d, dice)
      ensures Busy() <==> Starts(KindOf(transition), white, sign)
    {
      if fadeSprite == null {
        fadeSprite := new Sprite(graphics.width, graphics.height);
      }
      transition := Launch(sys.transitions[slot], fadeSprite, white, sign, sys.snap, d, dice);
    }

    /** Scene_Base.startFadeIn: the "base" slot's class, fading in (+1),
        for `duration || 30` ticks. */
    method StartFadeIn(duration: int, white: int, sys: GameSystem, dice: Dice)
      requires duration >= 0 && sys.Valid() && DiceInRange(dice)
      modifies this`fadeSprite, this`transition, fadeSprite
      ensures fresh(Objects(transition)) && Valid()
      ensures KindOf(transition) == Resolve(sys.transitions["base"])
      ensures ScreenOf(transition) == fadeSprite && WhiteOf(transition) == white && SignOf(transition) == 1
      ensures Launched(transition, OrThirty(duration), dice)
      ensures Busy() <==> Starts(KindOf(transition), white, 1)
    {
      Play("base", white, 1, OrThirty(duration), sys, dice);
    }

    /** Scene_Battle.startFadeIn: as the scene's, from the "battle" slot. */
    method BattleStartFadeIn(duration: int, white: int, sys: GameSystem, dice: Dice)
      requires duration >= 0 && sys.Valid() && DiceInRange(dice)
      modifies this`fadeSprite, this`transition, fadeSprite
      ensures fresh(Objects(transition)) && Valid()
      ensures KindOf(transition) == Resolve(sys.transitions["battle"])
      ensures ScreenOf(transition) == fadeSprite && WhiteOf(transition) == white && SignOf(transition) == 1
      ensures Launched(transition, OrThirty(duration), dice)
      ensures Busy() <==> Starts(KindOf(transition), white, 1)
    {
      Play("battle", white, 1, OrThirty(duration), sys, dice);
    }

    /** Scene_Base.startFadeOut: no fade is started; the screen is only
        captured for the transition of the next scene. */
    method StartFadeOut(shot: Frame, sys: GameSystem)
      modifies sys`snap
      ensures sys.snap == shot
    {
      sys.snap := shot;
    }

    /** Scene_Map.fadeInForTransfer: the "transfer" slot's class, fading
        in (+1) in the player's fade colour at the map's fade speed. */
    method FadeInForTransfer(fadeType: int, fadeSpeed: int, sys: GameSystem, dice: Dice)
      requires fadeSpeed >= 1 && sys.Valid() && DiceInRange(dice)
      modifies this`fadeSprite, this`transition, fadeSprite
      ensures fresh(Objects(transition)) && Valid()
      ensures KindOf(transition) == Resolve(sys.transitions["transfer"])
      ensures ScreenOf(transition) == fadeSprite && WhiteOf(transition) == fadeType && SignOf(transition) == 1
      ensures Launched(transition, fadeSpeed, dice)
      ensures Busy() <==> Starts(KindOf(transition), fadeType, 1)
    {
      Play("transfer", fadeType, 1, fadeSpeed, sys, dice);
    }

    /** Scene_Map.fadeOutForTransfer: the "transfer" slot's class, fading
        out (-1). The transition is created before the screen is captured,
        so it works from the previous capture. */
    method FadeOutForTransfer(fadeType: int, fadeSpeed: int, shot: Frame, sys: GameSystem, dice: Dice)
      requires fadeSpeed >= 1 && sys.Valid() && DiceInRange(dice)
      modifies this`fadeSprite, this`transition, fadeSprite, sys`snap
      ensures fresh(Objects(transition)) && Valid()
      ensures KindOf(transition) == Resolve(old(sys.transitions["transfer"]))
      ensures ScreenOf(transition) == fadeSprite && WhiteOf(transition) == fadeType && SignOf(transition) == -1
      ensures KindOf(transition) != Some(BaseKind) ==> SnapOf(transition) == Some(old(sys.snap))
      ensures sys.snap == shot
      ensures Launched(transition, fadeSpeed, dice)
      ensures Busy() <==> Starts(KindOf(transition), fadeType, -1)
    {
      Play("transfer", fadeType, -1, fadeSpeed, sys, dice);
      sys.snap := shot;
    }

    /** Scene_Map.startEncounterEffect: the "battle" slot's class in black
        (0), fading out (-1), for 30 ticks, after capturing the screen. */
    method StartEncounterEffect(shot: Frame, sys: GameSystem, dice: Dice)
      requires sys.Valid() && DiceInRange(dice)
      modifies this`fadeSprite, this`transition, fadeSprite, sys`snap
      ensures fresh(Objects(transition)) && Valid()
      ensures KindOf(transition) == Resolve(old(sys.transitions["battle"]))
      ensures ScreenOf(transition) == fadeSprite && WhiteOf(transition) == 0 && SignOf(transition) == -1
      ensures KindOf(transition) != Some(BaseKind) ==> SnapOf(transition) == Some(old(sys.snap))
      ensures sys.snap == shot
      ensures Launched(transition, 30, dice)
      ensures Busy() <==> Starts(KindOf(transition), 0, -1)
    {
      Play("battle", 0, -1, 30, sys, dice);
      sys.snap := shot;
    }

    /** updateFade: one update of the transition while it plays. */
    method UpdateFade()
      requires Valid()
      modifies Footprint(transition)
      ensures Valid()
      ensures old(Busy()) ==> Stepped(transition)
      ensures !old(Busy()) ==> unchanged(old(Footprint(transition)))
    {
      if Active(transition) {
        UpdatePlaying(transition);
      }
    }

    /** Scene_Battle.update: the step taken, per BattleGate; the battle's
        own update is the host's and only reported. */
    method BattleSceneUpdate() returns (step: BattleStep)
      requires Valid()
      modifies this`init, Footprint(transition)
      ensures Valid()
      ensures (step, init) == BattleGate(old(Busy()), old(init))
      ensures step == TransitionUpdate ==> Stepped(transition)
      ensures step != TransitionUpdate ==> unchanged(old(Footprint(transition)))
    {
      if Active(transition) && !init {
        init := true;
        step := FirstBattleUpdate;
      } else if Active(transition) && init {
        UpdatePlaying(transition);
        step := TransitionUpdate;
      } else {
        step := BattleUpdate;
      }
    }
  }

  /** The spriteset's fade sprite and the transition of fade event commands. */
  class Spriteset {
    const fadeSprite: Sprite
    var transition: Playing

    ghost predicate Valid()
      reads this, Objects(transition)
    {
      Sound(transition) && (transition != Idle ==> ScreenOf(transition) == fadeSprite)
    }

    /** createScreenSprites: a fade sprite of the screen's size. */
    constructor (graphics: Frame)
      ensures fresh(fadeSprite) && fadeSprite.width == graphics.width && fadeSprite.height == graphics.height
      ensures transition == Idle && Valid()
    {
      fadeSprite := new Sprite(graphics.width, graphics.height);
      transition := Idle;
    }

    /** The first half of updateScreenSprites: a pending fade request
        creates and starts a "fade" slot transition in black (0) in the
        requested direction, and is consumed. */
    method TakeRequest(screen: GameScreen, sys: GameSystem, dice: Dice)
      requires Valid() && screen.Valid() && sys.Valid() && DiceInRange(dice)
      modifies this`transition, screen`starting, fadeSprite
      ensures Valid() && !screen.starting
      ensures old(screen.starting) ==>
        && fresh(Objects(transition)) && (transition.PlaysMelt? ==> fresh(transition.melt.heights))
        && KindOf(transition) == Resolve(sys.transitions["fade"])
        && WhiteOf(transition) == 0 && SignOf(transition) == screen.fadeSign
        && Launched(transition, screen.duration, dice)
        && (Active(transition) <==> Starts(KindOf(transition), 0, screen.fadeSign))
      ensures !old(screen.starting) ==> transition == old(transition) && unchanged(Footprint(transition))
    {
      if screen.starting {
        transition := Launch(sys.transitions["fade"], fadeSprite, 0, screen.fadeSign, sys.snap, screen.duration, dice);
        screen.starting := false;
      }
    }

    /** updateScreenSprites: take a pending fade request, then update the
        transition, new or old, once if it plays. */
    method UpdateScreenSprites(screen: GameScreen, sys: GameSystem, dice: Dice)
      requires Valid() && screen.Valid() && sys.Valid() && DiceInRange(dice)
      modifies this`transition, screen`starting, Footprint(transition), fadeSprite
      ensures Valid() && !screen.starting
      ensures old(screen.starting) ==>
        && fresh(Objects(transition))
        && KindOf(transition) == Resolve(sys.transitions["fade"])
        && WhiteOf(transition) == 0 && SignOf(transition) == screen.fadeSign
      ensures !old(screen.starting) ==> transition == old(transition)
      ensures !old(screen.starting) && old(Active(transition)) ==> Stepped(transition)
      ensures !old(screen.starting) && !old(Active(transition)) ==>
        unchanged(old(Footprint(transition)))
    {
      if screen.starting {
        Restart(screen, sys, dice);
      } else {
        Advance();
      }
    }

    /** updateScreenSprites with a pending request: the new transition of
        the "fade" slot's class is created in black in the requested
        direction, and started for the requested duration; one that does
        not play is left exactly as started. */
    method Restart(screen: GameScreen, sys: GameSystem, dice: Dice)
      requires Valid() && screen.Valid() && sys.Valid() && DiceInRange(dice) && screen.starting
      modifies this`transition, screen`starting, fadeSprite
      ensures Valid() && !screen.starting
      ensures fresh(Objects(transition))
      ensures KindOf(transition) == Resolve(sys.transitions["fade"])
      ensures WhiteOf(transition) == 0 && SignOf(transition) == screen.fadeSign
      ensures !Starts(KindOf(transition), 0, screen.fadeSign) ==> Launched(transition, screen.duration, dice)
    {
      TakeRequest(screen, sys, dice);
      Advance();
    }

    /** The second half of updateScreenSprites: one update while the
        transition plays. */
    method Advance()
      requires Valid()
      modifies Footprint(transition)
      ensures Valid()
      ensures old(Active(transition)) ==> Stepped(transition)
      ensures !old(Active(transition)) ==> unchanged(old(Footprint(transition)))
    {
      if Active(transition) {
        UpdatePlaying(transition);
      }
    }
  }
}
