/** The Windows global hotkey (key_listener/windows.rs): the hotkey parser, the
    modifier check, and the gesture machine that the low-level keyboard hook and the
    hold timers drive.

    The hook's inputs are the hook code, the window message and the virtual-key code;
    the clock is an explicit `now` in milliseconds.  A hold timer is an explicit event
    carrying the instant of the press that scheduled it.  Every hook call ends in
    `CallNextHookEx`, so no event is swallowed here; the outputs are the intent the
    call emits and the hold timer it schedules. */
module WindowsListener {
  import opened Wrappers
  import opened Text
  import opened Gesture

  // ---------------------------------------------------------------------------
  // The hotkey and its parser

  datatype Hotkey = Hotkey(win: bool, shift: bool, ctrl: bool, alt: bool, keyVk: nat)

  /** `D`, the key of a hotkey string with no one-character token. */
  const DefaultKeyVk: nat := 0x44

  /** The tokens `split('+').map(|s| s.trim()).filter(|s| !s.is_empty())` yields
      from the pieces `parts`. */
  function Tokens(parts: seq<string>): (ts: seq<string>)
    ensures forall t :: t in ts ==> t != []
  {
    if parts == [] then []
    else
      var init := Tokens(parts[..|parts| - 1]);
      var t := Trim(parts[|parts| - 1]);
      if t == [] then init else init + [t]
  }

  /** The tokens of a hotkey string. */
  function HotkeyTokens(input: string): seq<string>
  {
    Tokens(Split(input, '+'))
  }

  datatype Modifier = Win | Shift | Ctrl | Alt

  /** What a token means for the hotkey. */
  datatype TokenKind = ModifierToken(m: Modifier) | KeyToken(code: nat) | Ignored

  /** The `match` on a lower-cased token: the modifier names, then a token of one byte
      (one ASCII character), whose upper-cased code becomes the key; anything else is
      ignored. */
  function Classify(lower: string): TokenKind
  {
    if lower == "win" || lower == "meta" || lower == "super" then ModifierToken(Win)
    else if lower == "shift" then ModifierToken(Shift)
    else if lower == "ctrl" || lower == "control" then ModifierToken(Ctrl)
    else if lower == "alt" then ModifierToken(Alt)
    else if |lower| == 1 && (lower[0] as int) < 128 then KeyToken(AsciiUpper(lower[0]) as nat)
    else Ignored
  }

  /** Some token names modifier `m`, in any letter case. */
  predicate Mentions(ts: seq<string>, m: Modifier)
  {
    exists t :: t in ts && Classify(ToAsciiLowercase(t)) == ModifierToken(m)
  }

  lemma {:induction false} MentionsAppend(ts: seq<string>, t: string, m: Modifier)
    ensures Mentions(ts + [t], m) <==> Mentions(ts, m) || Classify(ToAsciiLowercase(t)) == ModifierToken(m)
  {
    if Classify(ToAsciiLowercase(t)) == ModifierToken(m) {
      assert t in ts + [t];
    }
    if Mentions(ts, m) {
      var u :| u in ts && Classify(ToAsciiLowercase(u)) == ModifierToken(m);
      assert u in ts + [t];
    }
  }

  /** The key code of the last one-character token, or `D` when there is none. */
  function LastKey(ts: seq<string>): nat
  {
    if ts == [] then DefaultKeyVk
    else
      match Classify(ToAsciiLowercase(ts[|ts| - 1]))
      case KeyToken(code) => code
      case _ => LastKey(ts[..|ts| - 1])
  }

  lemma {:induction false} LastKeyAppend(ts: seq<string>, t: string)
    ensures LastKey(ts + [t]) == match Classify(ToAsciiLowercase(t)) case KeyToken(code) => code case _ => LastKey(ts)
  {
    assert (ts + [t])[..|ts|] == ts;
  }

  /** The key of the hotkey is set by the last one-character token, and when there is
      no such token it is `D`. */
  lemma {:induction false} LastKeyToken(ts: seq<string>) returns (j: int)
    ensures -1 <= j < |ts|
    ensures forall i :: j < i < |ts| ==> !Classify(ToAsciiLowercase(ts[i])).KeyToken?
    ensures j == -1 ==> LastKey(ts) == DefaultKeyVk
    ensures 0 <= j ==> Classify(ToAsciiLowercase(ts[j])) == KeyToken(LastKey(ts))
    decreases |ts|
  {
    if ts == [] {
      j := -1;
    } else if Classify(ToAsciiLowercase(ts[|ts| - 1])).KeyToken? {
      j := |ts| - 1;
    } else {
      var init := ts[..|ts| - 1];
      j := LastKeyToken(init);
      forall i | j < i < |ts|
        ensures !Classify(ToAsciiLowercase(ts[i])).KeyToken?
      {
        if i < |ts| - 1 {
          assert ts[i] == init[i];
        }
      }
    }
  }

  /** The `match` arm of `parse_hotkey` for one token. */
  method ApplyToken(hk: Hotkey, part: string) returns (hk': Hotkey)
    ensures var kind := Classify(ToAsciiLowercase(part));
      && hk'.win == (hk.win || kind == ModifierToken(Win))
      && hk'.shift == (hk.shift || kind == ModifierToken(Shift))
      && hk'.ctrl == (hk.ctrl || kind == ModifierToken(Ctrl))
      && hk'.alt == (hk.alt || kind == ModifierToken(Alt))
      && hk'.keyVk == match kind case KeyToken(code) => code case _ => hk.keyVk
  {
    hk' := hk;
    match Classify(ToAsciiLowercase(part)) {
      case ModifierToken(Win) => hk' := hk'.(win := true);
      case ModifierToken(Shift) => hk' := hk'.(shift := true);
      case ModifierToken(Ctrl) => hk' := hk'.(ctrl := true);
      case ModifierToken(Alt) => hk' := hk'.(alt := true);
      case KeyToken(code) => hk' := hk'.(keyVk := code);
      case Ignored =>
    }
  }

  /** `parse_hotkey`: starts from no modifiers and key `D`, then reads the tokens in
      order.  A modifier is required exactly when one of its names occurs among the
      tokens, in any letter case; the key is set by the last one-character token; other
      tokens are ignored. */
  method ParseHotkey(input: string) returns (hk: Hotkey)
    ensures hk.win == Mentions(HotkeyTokens(input), Win)
    ensures hk.shift == Mentions(HotkeyTokens(input), Shift)
    ensures hk.ctrl == Mentions(HotkeyTokens(input), Ctrl)
    ensures hk.alt == Mentions(HotkeyTokens(input), Alt)
    ensures hk.keyVk == LastKey(HotkeyTokens(input))
  {
    hk := Hotkey(false, false, false, false, DefaultKeyVk);
    var parts := Split(input, '+');
    ghost var seen: seq<string> := [];
    for i := 0 to |parts|
      invariant seen == Tokens(parts[..i])
      invariant hk.win == Mentions(seen, Win) && hk.shift == Mentions(seen, Shift)
      invariant hk.ctrl == Mentions(seen, Ctrl) && hk.alt == Mentions(seen, Alt)
      invariant hk.keyVk == LastKey(seen)
    {
      assert parts[..i + 1][..i] == parts[..i];
      var part := Trim(parts[i]);
      if part != [] {
        LastKeyAppend(seen, part);
        MentionsAppend(seen, part, Win);
        MentionsAppend(seen, part, Shift);
        MentionsAppend(seen, part, Ctrl);
        MentionsAppend(seen, part, Alt);
        hk := ApplyToken(hk, part);
        seen := seen + [part];
      }
    }
    assert parts[..|parts|] == parts;
  }

  /** No token is recognised, for example in an empty string: no modifier is required
      and the key is `D`. */
  lemma {:induction false} UnrecognisedGivesDefault(ts: seq<string>)
    requires forall t :: t in ts ==> Classify(ToAsciiLowercase(t)) == Ignored
    ensures !Mentions(ts, Win) && !Mentions(ts, Shift) && !Mentions(ts, Ctrl) && !Mentions(ts, Alt)
    ensures LastKey(ts) == DefaultKeyVk
  {
    var j := LastKeyToken(ts);
  }

  /** The tokens of the hotkey the configuration ships with, `Ctrl`. */
  lemma {:induction false} DefaultConfigTokens()
    ensures HotkeyTokens("Ctrl") == ["Ctrl"]
  {
    assert Split("Ctrl", '+') == ["Ctrl"];
    assert Trim("Ctrl") == "Ctrl";
    assert Tokens(["Ctrl"]) == [] + ["Ctrl"];
  }

  /** The shipped hotkey `Ctrl` names no key, so it means Ctrl+D. */
  lemma {:induction false} DefaultConfigHotkey()
    ensures var ts := HotkeyTokens("Ctrl");
      Mentions(ts, Ctrl) && !Mentions(ts, Win) && !Mentions(ts, Shift) && !Mentions(ts, Alt) && LastKey(ts) == 0x44
  {
    DefaultConfigTokens();
    assert ToAsciiLowercase("Ctrl") == "ctrl";
    assert [] + ["Ctrl"] == ["Ctrl"];
    MentionsAppend([], "Ctrl", Ctrl);
    MentionsAppend([], "Ctrl", Win);
    MentionsAppend([], "Ctrl", Shift);
    MentionsAppend([], "Ctrl", Alt);
    LastKeyAppend([], "Ctrl");
  }

  // ---------------------------------------------------------------------------
  // The listener state and the modifier check

  /** The modifier flags of `State`: `pressed_win`, `pressed_shift`, `pressed_ctrl`,
      `pressed_alt`. */
  datatype Mods = Mods(win: bool, shift: bool, ctrl: bool, alt: bool)

  /** The trigger-key fields of `State`: `pressed_key`, `key_down_at`, `hold_fired`,
      `last_tap_at`. */
  datatype Press = Press(pressedKey: bool, keyDownAt: Option<int>, holdFired: bool, lastTapAt: Option<int>)

  /** `State`. */
  datatype WinState = WinState(mods: Mods, press: Press)

  /** The state `init` installs. */
  const Initial := WinState(Mods(false, false, false, false), Press(false, None, false, None))

  /** `modifiers_match`. */
  predicate ModifiersMatch(hk: Hotkey, mods: Mods)
  {
    (!hk.win || mods.win) && (!hk.shift || mods.shift) && (!hk.ctrl || mods.ctrl) && (!hk.alt || mods.alt)
  }

  /** The modifiers the hotkey requires. */
  function Required(hk: Hotkey): set<Modifier>
  {
    (if hk.win then {Win} else {}) + (if hk.shift then {Shift} else {})
    + (if hk.ctrl then {Ctrl} else {}) + (if hk.alt then {Alt} else {})
  }

  /** The modifiers held down. */
  function Held(mods: Mods): set<Modifier>
  {
    (if mods.win then {Win} else {}) + (if mods.shift then {Shift} else {})
    + (if mods.ctrl then {Ctrl} else {}) + (if mods.alt then {Alt} else {})
  }

  /** The modifiers match exactly when every required modifier is held down. */
  lemma {:induction false} ModifiersMatchIff(hk: Hotkey, mods: Mods)
    ensures ModifiersMatch(hk, mods) <==> Required(hk) <= Held(mods)
  {
    assert hk.win ==> Win in Required(hk);
    assert hk.shift ==> Shift in Required(hk);
    assert hk.ctrl ==> Ctrl in Required(hk);
    assert hk.alt ==> Alt in Required(hk);
  }

  /** Holding more modifiers down never breaks a match. */
  lemma {:induction false} ExtraModifiersHarmless(hk: Hotkey, mods: Mods, more: Mods)
    requires Held(mods) <= Held(more) && ModifiersMatch(hk, mods)
    ensures ModifiersMatch(hk, more)
  {
    ModifiersMatchIff(hk, mods);
    ModifiersMatchIff(hk, more);
  }

  // ---------------------------------------------------------------------------
  // The hook and the hold timer, as functions of the state

  const WmKeyDown: nat := 0x0100
  const WmKeyUp: nat := 0x0101
  const WmSysKeyDown: nat := 0x0104
  const WmSysKeyUp: nat := 0x0105
  const VkLShift: nat := 0xA0
  const VkRShift: nat := 0xA1

  predicate IsKeyMessage(msg: nat)
  {
    msg == WmKeyDown || msg == WmKeyUp || msg == WmSysKeyDown || msg == WmSysKeyUp
  }

  predicate IsDownMessage(msg: nat)
  {
    msg == WmKeyDown || msg == WmSysKeyDown
  }

  /** The modifier flags after a key event. */
  function TrackModifier(mods: Mods, vk: nat, isDown: bool): Mods
  {
    if vk == 0x5B || vk == 0x5C then mods.(win := isDown)
    else if vk == VkLShift || vk == VkRShift then mods.(shift := isDown)
    else if vk == 0x11 then mods.(ctrl := isDown)
    else if vk == 0x12 then mods.(alt := isDown)
    else mods
  }

  /** A key event sets the flag of the modifier it is for to whether the key went down
      and leaves the other flags as they were. */
  lemma {:induction false} TrackModifierFlags(mods: Mods, vk: nat, isDown: bool)
    ensures var m := TrackModifier(mods, vk, isDown);
      && m.win == (if vk == 0x5B || vk == 0x5C then isDown else mods.win)
      && m.shift == (if vk == VkLShift || vk == VkRShift then isDown else mods.shift)
      && m.ctrl == (if vk == 0x11 then isDown else mods.ctrl)
      && m.alt == (if vk == 0x12 then isDown else mods.alt)
  {
  }

  /** The trigger-key fields after a trigger event, the intent it emits, and the press
      instant of the hold timer it schedules. */
  datatype TriggerResult = TriggerResult(press: Press, intent: Option<Intent>, timer: Option<int>)

  /** A trigger-key event, with the modifier flags already updated. */
  function TriggerStep(hk: Hotkey, th: Thresholds, mods: Mods, p: Press, isDown: bool, now: int): TriggerResult
  {
    if isDown && !p.pressedKey then
      TriggerResult(p.(pressedKey := true, keyDownAt := Some(now), holdFired := false), None,
                    if ModifiersMatch(hk, mods) then Some(now) else None)
    else if !isDown && p.pressedKey then
      if p.holdFired then
        TriggerResult(p.(pressedKey := false, keyDownAt := None, holdFired := false), Some(Stop), None)
      else
        var isTap := Within(p.keyDownAt, now, th.holdMs);
        var released := p.(pressedKey := false, keyDownAt := None);
        if isTap && ModifiersMatch(hk, mods) then
          if Within(released.lastTapAt, now, th.doubleClickMs) then
            TriggerResult(released.(lastTapAt := None), Some(Toggle), None)
          else
            TriggerResult(released.(lastTapAt := Some(now)), None, None)
        else
          TriggerResult(released, None, None)
    else
      TriggerResult(p, None, None)
  }

  /** The state after a hook call, the intent it emits, and the press instant of the
      hold timer it schedules. */
  datatype Step = Step(st: WinState, intent: Option<Intent>, timer: Option<int>)

  /** One call of `hook_proc`. */
  function HookStep(hk: Hotkey, th: Thresholds, st: WinState, code: int, msg: nat, vk: nat, now: int): Step
  {
    if code < 0 || !IsKeyMessage(msg) then Step(st, None, None)
    else
      var isDown := IsDownMessage(msg);
      var mods := TrackModifier(st.mods, vk, isDown);
      if vk != hk.keyVk then Step(WinState(mods, st.press), None, None)
      else
        var t := TriggerStep(hk, th, mods, st.press, isDown, now);
        Step(WinState(mods, t.press), t.intent, t.timer)
  }

  /** The check made by the hold timer of the press at `pressedAt` when it fires. */
  function HoldTimerStep(st: WinState, pressedAt: int): (WinState, Option<Intent>)
  {
    var p := st.press;
    if p.pressedKey && !p.holdFired && p.keyDownAt == Some(pressedAt) then
      (st.(press := p.(holdFired := true)), Some(Toggle))
    else
      (st, None)
  }

  // ---------------------------------------------------------------------------
  // Properties of the machine

  /** The hook skips negative codes and messages that are not key messages. */
  lemma {:induction false} HookIgnoresOthers(hk: Hotkey, th: Thresholds, st: WinState, code: int, msg: nat, vk: nat, now: int)
    requires code < 0 || !IsKeyMessage(msg)
    ensures HookStep(hk, th, st, code, msg, vk, now) == Step(st, None, None)
  {
  }

  /** Every key event updates the modifier flags, whatever key it is for; a key other
      than the trigger changes nothing else and emits nothing. */
  lemma {:induction false} ModifierTracking(hk: Hotkey, th: Thresholds, st: WinState, code: int, msg: nat, vk: nat, now: int)
    requires code >= 0 && IsKeyMessage(msg)
    ensures var r := HookStep(hk, th, st, code, msg, vk, now);
      && r.st.mods == TrackModifier(st.mods, vk, IsDownMessage(msg))
      && (vk != hk.keyVk ==> r.st.press == st.press && r.intent == None && r.timer == None)
  {
  }

  /** The first down event of the trigger records the press: the key is pressed, held
      since `now`, no hold has fired, and a hold timer for this press is scheduled
      exactly when the required modifiers are held. */
  lemma {:induction false} TriggerPress(hk: Hotkey, th: Thresholds, st: WinState, code: int, msg: nat, now: int)
    requires code >= 0 && IsKeyMessage(msg) && IsDownMessage(msg) && !st.press.pressedKey
    ensures var r := HookStep(hk, th, st, code, msg, hk.keyVk, now);
      && r.st.press == st.press.(pressedKey := true, keyDownAt := Some(now), holdFired := false)
      && r.intent == None
      && (r.timer == Some(now) <==> ModifiersMatch(hk, r.st.mods))
      && (r.timer == None <==> !ModifiersMatch(hk, r.st.mods))
  {
  }

  /** An auto-repeated down event of the trigger while it is held changes nothing but the
      modifier flags. */
  lemma {:induction false} AutoRepeatQuiet(hk: Hotkey, th: Thresholds, st: WinState, code: int, msg: nat, now: int)
    requires code >= 0 && IsKeyMessage(msg) && IsDownMessage(msg) && st.press.pressedKey
    ensures var r := HookStep(hk, th, st, code, msg, hk.keyVk, now);
      r.st.press == st.press && r.intent == None && r.timer == None
  {
  }

  /** Releasing the trigger after its hold fired stops the recording and forgets the
      press; the tap record is kept. */
  lemma {:induction false} ReleaseAfterHold(hk: Hotkey, th: Thresholds, st: WinState, code: int, msg: nat, now: int)
    requires code >= 0 && IsKeyMessage(msg) && !IsDownMessage(msg)
    requires st.press.pressedKey && st.press.holdFired
    ensures var r := HookStep(hk, th, st, code, msg, hk.keyVk, now);
      && r.intent == Some(Stop) && r.timer == None
      && r.st.press == Press(false, None, false, st.press.lastTapAt)
  {
  }

  /** Releasing the trigger without a fired hold: it is a tap exactly when it was held
      less than `hold_ms`.  A tap with the modifiers held toggles when the previous tap
      was less than `double_click_ms` ago, and then forgets the tap so that a third one
      starts afresh; otherwise it records `now` as the last tap.  Anything else leaves
      the last tap as it was. */
  lemma {:induction false} ReleaseWithoutHold(hk: Hotkey, th: Thresholds, st: WinState, code: int, msg: nat, now: int)
    requires code >= 0 && IsKeyMessage(msg) && !IsDownMessage(msg)
    requires st.press.pressedKey && !st.press.holdFired
    ensures var r := HookStep(hk, th, st, code, msg, hk.keyVk, now);
      var tap := Within(st.press.keyDownAt, now, th.holdMs) && ModifiersMatch(hk, r.st.mods);
      var double := Within(st.press.lastTapAt, now, th.doubleClickMs);
      && r.st.press == Press(false, None, false, if !tap then st.press.lastTapAt else if double then None else Some(now))
      && (r.intent == Some(Toggle) <==> tap && double)
      && r.intent != Some(Stop) && r.timer == None
  {
  }

  /** Only a release of the held trigger emits an intent, and it is a stop exactly when
      the hold had fired. */
  lemma {:induction false} IntentsOnRelease(hk: Hotkey, th: Thresholds, st: WinState, code: int, msg: nat, vk: nat, now: int)
    ensures var r := HookStep(hk, th, st, code, msg, vk, now);
      && (r.intent != None ==> code >= 0 && IsKeyMessage(msg) && !IsDownMessage(msg) && vk == hk.keyVk
                               && st.press.pressedKey)
      && (r.intent == Some(Stop) <==> r.intent != None && st.press.holdFired)
  {
  }

  /** The hold timer toggles exactly when the key is still held by the press that
      scheduled it and no hold has fired for that press; it changes nothing else, and a
      stale timer changes nothing at all. */
  lemma {:induction false} HoldTimerGuard(st: WinState, pressedAt: int)
    ensures var (st', intent) := HoldTimerStep(st, pressedAt);
      && (intent == Some(Toggle) <==> st.press.pressedKey && !st.press.holdFired && st.press.keyDownAt == Some(pressedAt))
      && (intent == None ==> st' == st)
      && (intent != None ==> st' == st.(press := st.press.(holdFired := true)))
  {
  }

  /** A hold toggles at most once per press: once a timer has fired, every timer finds
      the hold already fired. */
  lemma {:induction false} HoldFiresOnce(st: WinState, pressedAt: int, later: int)
    requires HoldTimerStep(st, pressedAt).1 != None
    ensures HoldTimerStep(HoldTimerStep(st, pressedAt).0, later).1 == None
  {
  }

  /** The key is held exactly when a press instant is recorded, and a hold only fires
      while the key is held. */
  ghost predicate Consistent(st: WinState)
  {
    (st.press.pressedKey <==> st.press.keyDownAt.Some?) && (st.press.holdFired ==> st.press.pressedKey)
  }

  /** The initial state is consistent and both the hook and the hold timer keep the
      state consistent. */
  lemma {:induction false} ConsistentPreserved(hk: Hotkey, th: Thresholds, st: WinState, code: int, msg: nat, vk: nat, now: int, pressedAt: int)
    requires Consistent(st)
    ensures Consistent(Initial)
    ensures Consistent(HookStep(hk, th, st, code, msg, vk, now).st)
    ensures Consistent(HoldTimerStep(st, pressedAt).0)
  {
  }

  // ---------------------------------------------------------------------------
  // Runs of events

  /** What reaches the machine: a hook call, or the hold timer of the press at
      `pressedAt` firing. */
  datatype Input = Key(code: int, msg: nat, vk: nat, now: int) | HoldTimer(pressedAt: int)

  /** One input: the next state and the intent emitted. */
  function Apply(hk: Hotkey, th: Thresholds, st: WinState, input: Input): (WinState, Option<Intent>)
  {
    match input
    case Key(code, msg, vk, now) =>
      var r := HookStep(hk, th, st, code, msg, vk, now); (r.st, r.intent)
    case HoldTimer(pressedAt) => HoldTimerStep(st, pressedAt)
  }

  /** The intents a sequence of inputs emits, in order, and the final state. */
  function Run(hk: Hotkey, th: Thresholds, st: WinState, inputs: seq<Input>): (WinState, seq<Intent>)
    decreases |inputs|
  {
    if inputs == [] then (st, [])
    else
      var (next, out) := Apply(hk, th, st, inputs[0]);
      var (final, rest) := Run(hk, th, next, inputs[1..]);
      (final, (if out.Some? then [out.value] else []) + rest)
  }

  /** Every run from a consistent state ends in a consistent state. */
  lemma {:induction false} RunConsistent(hk: Hotkey, th: Thresholds, st: WinState, inputs: seq<Input>)
    requires Consistent(st)
    ensures Consistent(Run(hk, th, st, inputs).0)
    decreases |inputs|
  {
    if inputs != [] {
      match inputs[0] {
        case Key(code, msg, vk, now) =>
          ConsistentPreserved(hk, th, st, code, msg, vk, now, 0);
        case HoldTimer(pressedAt) =>
          ConsistentPreserved(hk, th, st, 0, 0, 0, 0, pressedAt);
      }
      RunConsistent(hk, th, Apply(hk, th, st, inputs[0]).0, inputs[1..]);
    }
  }

  /** The hotkey `D` with no modifiers and the default thresholds 180 ms and 300 ms. */
  const PlainD := Hotkey(false, false, false, false, DefaultKeyVk)
  const DefaultThresholds := Thresholds(180, 300)

  /** Running one input and then the rest. */
  lemma {:induction false} RunCons(hk: Hotkey, th: Thresholds, st: WinState, input: Input, rest: seq<Input>)
    ensures var (next, out) := Apply(hk, th, st, input);
      Run(hk, th, st, [input] + rest)
        == (Run(hk, th, next, rest).0, (if out.Some? then [out.value] else []) + Run(hk, th, next, rest).1)
  {
    assert ([input] + rest)[0] == input && ([input] + rest)[1..] == rest;
  }

  /** A state with no modifier held. */
  function NoMods(p: Press): WinState
  {
    WinState(Mods(false, false, false, false), p)
  }

  /** Three quick taps toggle once: the second tap completes a double tap and the third
      starts a new one. */
  lemma {:induction false} TripleTapTogglesOnce()
    ensures Run(PlainD, DefaultThresholds, Initial,
                [Key(0, WmKeyDown, 0x44, 0), Key(0, WmKeyUp, 0x44, 50),
                 Key(0, WmKeyDown, 0x44, 100), Key(0, WmKeyUp, 0x44, 150),
                 Key(0, WmKeyDown, 0x44, 200), Key(0, WmKeyUp, 0x44, 250)]).1 == [Toggle]
  {
    var hk, th := PlainD, DefaultThresholds;
    var e1, e2, e3 := Key(0, WmKeyDown, 0x44, 0), Key(0, WmKeyUp, 0x44, 50), Key(0, WmKeyDown, 0x44, 100);
    var e4, e5, e6 := Key(0, WmKeyUp, 0x44, 150), Key(0, WmKeyDown, 0x44, 200), Key(0, WmKeyUp, 0x44, 250);
    var s1 := NoMods(Press(true, Some(0), false, None));
    var s2 := NoMods(Press(false, None, false, Some(50)));
    var s3 := NoMods(Press(true, Some(100), false, Some(50)));
    var s4 := NoMods(Press(false, None, false, None));
    var s5 := NoMods(Press(true, Some(200), false, None));
    var s6 := NoMods(Press(false, None, false, Some(250)));
    assert Apply(hk, th, Initial, e1) == (s1, None);
    assert Apply(hk, th, s1, e2) == (s2, None);
    assert Apply(hk, th, s2, e3) == (s3, None);
    assert Apply(hk, th, s3, e4) == (s4, Some(Toggle));
    assert Apply(hk, th, s4, e5) == (s5, None);
    assert Apply(hk, th, s5, e6) == (s6, None);
    RunCons(hk, th, s5, e6, []);
    RunCons(hk, th, s4, e5, [e6]);
    RunCons(hk, th, s3, e4, [e5, e6]);
    RunCons(hk, th, s2, e3, [e4, e5, e6]);
    RunCons(hk, th, s1, e2, [e3, e4, e5, e6]);
    RunCons(hk, th, Initial, e1, [e2, e3, e4, e5, e6]);
  }

  /** A short tap followed by a new press: the timer of the first press fires during the
      second one and does nothing. */
  lemma {:induction false} StaleTimerIgnored()
    ensures Run(PlainD, DefaultThresholds, Initial,
                [Key(0, WmKeyDown, 0x44, 0), Key(0, WmKeyUp, 0x44, 50),
                 Key(0, WmKeyDown, 0x44, 100), HoldTimer(0)]).1 == []
  {
    var hk, th := PlainD, DefaultThresholds;
    var e1, e2, e3, e4 := Key(0, WmKeyDown, 0x44, 0), Key(0, WmKeyUp, 0x44, 50), Key(0, WmKeyDown, 0x44, 100), HoldTimer(0);
    var s1 := NoMods(Press(true, Some(0), false, None));
    var s2 := NoMods(Press(false, None, false, Some(50)));
    var s3 := NoMods(Press(true, Some(100), false, Some(50)));
    assert Apply(hk, th, Initial, e1) == (s1, None);
    assert Apply(hk, th, s1, e2) == (s2, None);
    assert Apply(hk, th, s2, e3) == (s3, None);
    assert Apply(hk, th, s3, e4) == (s3, None);
    RunCons(hk, th, s3, e4, []);
    RunCons(hk, th, s2, e3, [e4]);
    RunCons(hk, th, s1, e2, [e3, e4]);
    RunCons(hk, th, Initial, e1, [e2, e3, e4]);
  }

  // ---------------------------------------------------------------------------
  // The state object

  /** `State`, updated in place by the hook and the hold timers. */
  class HookState {
    var pressedWin: bool
    var pressedShift: bool
    var pressedCtrl: bool
    var pressedAlt: bool
    var pressedKey: bool
    var keyDownAt: Option<int>
    var holdFired: bool
    var lastTapAt: Option<int>

    function Snapshot(): WinState
      reads this
    {
      WinState(Mods(pressedWin, pressedShift, pressedCtrl, pressedAlt),
               Press(pressedKey, keyDownAt, holdFired, lastTapAt))
    }

    /** The state `init` installs. */
    constructor ()
      ensures Snapshot() == Initial
    {
      pressedWin, pressedShift, pressedCtrl, pressedAlt := false, false, false, false;
      pressedKey, keyDownAt, holdFired, lastTapAt := false, None, false, None;
    }

    /** `hook_proc`: returns the intent emitted and the press instant of the hold timer
        scheduled, if any. */
    method HookProc(hk: Hotkey, th: Thresholds, code: int, msg: nat, vk: nat, now: int)
      returns (intent: Option<Intent>, timer: Option<int>)
      modifies this
      ensures Step(Snapshot(), intent, timer) == HookStep(hk, th, old(Snapshot()), code, msg, vk, now)
    {
      intent, timer := None, None;
      if code < 0 || !IsKeyMessage(msg) {
        return;
      }
      var isDown := IsDownMessage(msg);
      if vk == 0x5B || vk == 0x5C {
        pressedWin := isDown;
      } else if vk == VkLShift || vk == VkRShift {
        pressedShift := isDown;
      } else if vk == 0x11 {
        pressedCtrl := isDown;
      } else if vk == 0x12 {
        pressedAlt := isDown;
      }
      if vk == hk.keyVk {
        intent, timer := OnTrigger(hk, th, isDown, now);
      }
    }

    /** The `if vk == hotkey.key_vk` block of `hook_proc`. */
    method OnTrigger(hk: Hotkey, th: Thresholds, isDown: bool, now: int) returns (intent: Option<Intent>, timer: Option<int>)
      modifies this
      ensures pressedWin == old(pressedWin) && pressedShift == old(pressedShift)
      ensures pressedCtrl == old(pressedCtrl) && pressedAlt == old(pressedAlt)
      ensures TriggerResult(Snapshot().press, intent, timer)
              == TriggerStep(hk, th, old(Snapshot()).mods, old(Snapshot()).press, isDown, now)
    {
      intent, timer := None, None;
      if isDown && !pressedKey {
        pressedKey := true;
        keyDownAt := Some(now);
        holdFired := false;
        if ModifiersMatch(hk, Snapshot().mods) {
          timer := Some(now);
        }
      } else if !isDown && pressedKey {
        pressedKey := false;
        if holdFired {
          keyDownAt := None;
          holdFired := false;
          intent := Some(Stop);
        } else {
          var isTap := Within(keyDownAt, now, th.holdMs);
          keyDownAt := None;
          if isTap && ModifiersMatch(hk, Snapshot().mods) {
            var double := Within(lastTapAt, now, th.doubleClickMs);
            lastTapAt := Some(now);
            if double {
              lastTapAt := None;
              intent := Some(Toggle);
            }
          }
        }
      }
    }

    /** The hold timer of the press at `pressedAt` firing. */
    method HoldTimerFires(pressedAt: int) returns (intent: Option<Intent>)
      modifies this
      ensures (Snapshot(), intent) == HoldTimerStep(old(Snapshot()), pressedAt)
    {
      intent := None;
      if pressedKey && !holdFired && keyDownAt == Some(pressedAt) {
        holdFired := true;
        intent := Some(Toggle);
      }
    }
  }
}
