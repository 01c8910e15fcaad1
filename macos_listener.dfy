/** The macOS Fn-key gesture machine (key_listener/macos.rs): the event-tap callback
    `handle_event` and the hold timer it spawns on every press.

    An event is its key code, whether the Fn flag is set (`is_down`) and the instant
    `now` in milliseconds.  The callback's outputs are whether the event is passed on
    (`Some(event)`) or swallowed (`None`), the intent it emits, and the hold timer it
    schedules, named by the instant of the press that scheduled it.

    The timer in the source checks only that the key is down and that no hold has fired
    yet (`HoldTimerAsWritten`), so the timer of an earlier short press can fire during a
    later press.  `HoldTimer` also checks that the key has been down since the press
    that scheduled the timer.  The state object has both: `HoldTimerFires` as written
    and `CheckedHoldTimerFires` with the press check. */
module MacosListener {
  import opened Wrappers
  import opened Gesture

  /** `FN_KEYCODE`. */
  const FnKeycode: int := 63

  /** The fields of `State`. */
  datatype MacState = MacState(down: bool, downAt: Option<int>, holdFired: bool, lastTapAt: Option<int>)

  /** The state `init` creates. */
  const Initial := MacState(false, None, false, None)

  /** The state after a callback, the intent it emits, the press instant of the hold
      timer it schedules, and whether the event is passed on. */
  datatype Handled = Handled(st: MacState, intent: Option<Intent>, timer: Option<int>, pass: bool)

  /** `handle_event`. */
  function EventStep(th: Thresholds, st: MacState, keycode: int, isDown: bool, now: int): Handled
  {
    if keycode != FnKeycode then Handled(st, None, None, true)
    else if isDown && !st.down then
      Handled(st.(down := true, downAt := Some(now), holdFired := false), None, Some(now), true)
    else if !isDown && st.down then
      var up := st.(down := false);
      if up.holdFired then
        Handled(up.(downAt := None, holdFired := false), Some(Stop), None, false)
      else
        var wasTap := Within(up.downAt, now, th.holdMs);
        var released := up.(downAt := None);
        if wasTap then
          if Within(released.lastTapAt, now, th.doubleClickMs) then
            Handled(released.(lastTapAt := None), Some(Toggle), None, false)
          else
            Handled(released.(lastTapAt := Some(now)), None, None, true)
        else
          Handled(released, None, None, true)
    else
      Handled(st, None, None, true)
  }

  /** The hold timer's check as the source writes it: any timer toggles while the key
      is down and no hold has fired. */
  function HoldTimerAsWritten(st: MacState): (MacState, Option<Intent>)
  {
    if st.down && !st.holdFired then (st.(holdFired := true), Some(Toggle)) else (st, None)
  }

  /** The hold timer of the press at `pressedAt`, checking also that the key has been
      down since that press. */
  function HoldTimer(st: MacState, pressedAt: int): (MacState, Option<Intent>)
  {
    if st.down && !st.holdFired && st.downAt == Some(pressedAt) then (st.(holdFired := true), Some(Toggle))
    else (st, None)
  }

  // ---------------------------------------------------------------------------
  // Properties of the callback

  /** Events of other keys are passed on and leave the state as it was. */
  lemma {:induction false} OtherKeysPassThrough(th: Thresholds, st: MacState, keycode: int, isDown: bool, now: int)
    requires keycode != FnKeycode
    ensures EventStep(th, st, keycode, isDown, now) == Handled(st, None, None, true)
  {
  }

  /** Fn going down while up records the press, schedules its hold timer and passes the
      event on. */
  lemma {:induction false} FnPress(th: Thresholds, st: MacState, now: int)
    requires !st.down
    ensures EventStep(th, st, FnKeycode, true, now)
            == Handled(MacState(true, Some(now), false, st.lastTapAt), None, Some(now), true)
  {
  }

  /** Fn going up after a fired hold stops the recording, forgets the press and
      swallows the event. */
  lemma {:induction false} ReleaseAfterHold(th: Thresholds, st: MacState, now: int)
    requires st.down && st.holdFired
    ensures EventStep(th, st, FnKeycode, false, now)
            == Handled(MacState(false, None, false, st.lastTapAt), Some(Stop), None, false)
  {
  }

  /** Fn going up without a fired hold is a tap exactly when it was down less than
      `hold_ms`.  A tap less than `double_click_ms` after the previous one toggles, forgets
      the tap and swallows the event; any other tap records `now` and passes the event.
      A release that is not a tap only forgets the press, and passes the event. */
  lemma {:induction false} ReleaseWithoutHold(th: Thresholds, st: MacState, now: int)
    requires st.down && !st.holdFired
    ensures var r := EventStep(th, st, FnKeycode, false, now);
      var tap := Within(st.downAt, now, th.holdMs);
      var double := tap && Within(st.lastTapAt, now, th.doubleClickMs);
      && r.st == MacState(false, None, false, if !tap then st.lastTapAt else if double then None else Some(now))
      && (r.intent == Some(Toggle) <==> double) && r.intent != Some(Stop)
      && r.pass == !double && r.timer == None
  {
  }

  /** Fn going down while down, or up while up, emits nothing, changes nothing and
      passes the event on. */
  lemma {:induction false} RepeatQuiet(th: Thresholds, st: MacState, isDown: bool, now: int)
    requires isDown == st.down
    ensures EventStep(th, st, FnKeycode, isDown, now) == Handled(st, None, None, true)
  {
  }

  /** After any Fn-up the key is up and no press is recorded. */
  lemma {:induction false} UpForgetsPress(th: Thresholds, st: MacState, now: int)
    requires st.down
    ensures var r := EventStep(th, st, FnKeycode, false, now); !r.st.down && r.st.downAt == None
  {
  }

  /** An event is swallowed exactly when it emits an intent, and that comes only from
      Fn going up. */
  lemma {:induction false} SwallowedIffIntent(th: Thresholds, st: MacState, keycode: int, isDown: bool, now: int)
    ensures var r := EventStep(th, st, keycode, isDown, now);
      && (!r.pass <==> r.intent != None)
      && (r.intent != None ==> keycode == FnKeycode && !isDown && st.down)
      && (r.intent == Some(Stop) <==> r.intent != None && st.holdFired)
  {
  }

  // ---------------------------------------------------------------------------
  // Properties of the hold timer

  /** As written, the timer toggles exactly when the key is down and no hold has fired,
      whichever press scheduled it. */
  lemma {:induction false} HoldTimerAsWrittenGuard(st: MacState)
    ensures var (st', intent) := HoldTimerAsWritten(st);
      && (intent == Some(Toggle) <==> st.down && !st.holdFired)
      && st' == (if intent == None then st else st.(holdFired := true))
  {
  }

  /** The timer toggles only for the press that scheduled it: the key has been down
      since `pressedAt`, no hold has fired for that press, and nothing else changes. */
  lemma {:induction false} HoldTimerGuard(st: MacState, pressedAt: int)
    ensures var (st', intent) := HoldTimer(st, pressedAt);
      && (intent == Some(Toggle) <==> st.down && !st.holdFired && st.downAt == Some(pressedAt))
      && st' == (if intent == None then st else st.(holdFired := true))
  {
  }

  /** The key is down exactly when a press instant is recorded, and a hold only fires
      while the key is down. */
  ghost predicate Consistent(st: MacState)
  {
    (st.down <==> st.downAt.Some?) && (st.holdFired ==> st.down)
  }

  /** The initial state is consistent, and the callback and both timers keep it so. */
  lemma {:induction false} ConsistentPreserved(th: Thresholds, st: MacState, keycode: int, isDown: bool, now: int, pressedAt: int)
    requires Consistent(st)
    ensures Consistent(Initial)
    ensures Consistent(EventStep(th, st, keycode, isDown, now).st)
    ensures Consistent(HoldTimerAsWritten(st).0) && Consistent(HoldTimer(st, pressedAt).0)
  {
  }

  /** The thresholds the configuration ships with: 180 ms and 300 ms. */
  const DefaultThresholds := Thresholds(180, 300)

  /** The state after a short tap at 0-50 ms and a new press at 100 ms. */
  function TapThenPress(): MacState
  {
    var s1 := EventStep(DefaultThresholds, Initial, FnKeycode, true, 0).st;
    var s2 := EventStep(DefaultThresholds, s1, FnKeycode, false, 50).st;
    EventStep(DefaultThresholds, s2, FnKeycode, true, 100).st
  }

  /** As written, the timer of the tap at 0 ms fires at 180 ms during the press that
      began at 100 ms and toggles, although that press has lasted only 80 ms. */
  lemma {:induction false} StaleTimerToggles()
    ensures TapThenPress() == MacState(true, Some(100), false, Some(50))
    ensures HoldTimerAsWritten(TapThenPress()).1 == Some(Toggle)
    ensures 0 + DefaultThresholds.holdMs - 100 < DefaultThresholds.holdMs
  {
  }

  /** With the press check, the stale timer does nothing, and the timer of the press at
      100 ms still toggles. */
  lemma {:induction false} StaleTimerIgnored()
    ensures HoldTimer(TapThenPress(), 0) == (TapThenPress(), None)
    ensures HoldTimer(TapThenPress(), 100).1 == Some(Toggle)
  {
  }

  // ---------------------------------------------------------------------------
  // The state object

  /** `State`, shared by the callback and the hold timers. */
  class FnState {
    var down: bool
    var downAt: Option<int>
    var holdFired: bool
    var lastTapAt: Option<int>

    function Snapshot(): MacState
      reads this
    {
      MacState(down, downAt, holdFired, lastTapAt)
    }

    /** The state `init` creates. */
    constructor ()
      ensures Snapshot() == Initial
    {
      down, downAt, holdFired, lastTapAt := false, None, false, None;
    }

    /** `handle_event`: returns whether the event is passed on, the intent emitted and
        the press instant of the hold timer scheduled, if any. */
    method HandleEvent(th: Thresholds, keycode: int, isDown: bool, now: int)
      returns (pass: bool, intent: Option<Intent>, timer: Option<int>)
      modifies this
      ensures Handled(Snapshot(), intent, timer, pass) == EventStep(th, old(Snapshot()), keycode, isDown, now)
    {
      pass, intent, timer := true, None, None;
      if keycode != FnKeycode {
        return;
      }
      if isDown && !down {
        down := true;
        downAt := Some(now);
        holdFired := false;
        timer := Some(now);
        return;
      }
      if !isDown && down {
        down := false;
        if holdFired {
          downAt := None;
          holdFired := false;
          intent, pass := Some(Stop), false;
          return;
        }
        var wasTap := Within(downAt, now, th.holdMs);
        downAt := None;
        if wasTap {
          var isDouble := Within(lastTapAt, now, th.doubleClickMs);
          lastTapAt := Some(now);
          if isDouble {
            lastTapAt := None;
            intent, pass := Some(Toggle), false;
            return;
          }
        }
      }
    }

    /** A hold timer firing, with the source's check: the key is down and no hold has
        fired, whichever press scheduled the timer. */
    method HoldTimerFires() returns (intent: Option<Intent>)
      modifies this
      ensures (Snapshot(), intent) == HoldTimerAsWritten(old(Snapshot()))
    {
      intent := None;
      if down && !holdFired {
        holdFired := true;
        intent := Some(Toggle);
      }
    }

    /** The hold timer of the press at `pressedAt` firing, with the press check. */
    method CheckedHoldTimerFires(pressedAt: int) returns (intent: Option<Intent>)
      modifies this
      ensures (Snapshot(), intent) == HoldTimer(old(Snapshot()), pressedAt)
    {
      intent := None;
      if down && !holdFired && downAt == Some(pressedAt) {
        holdFired := true;
        intent := Some(Toggle);
      }
    }
  }
}
