/** What the two key listeners share: the intents they emit, the thresholds they read
    from the configuration, and the time measurements they make.  Instants are integer
    milliseconds. */
module Gesture {
  import opened Wrappers

  /** The recording action a gesture asks for: `toggle_recording_impl` or
      `stop_recording_impl`. */
  datatype Intent = Toggle | Stop

  /** `hold_ms` and `double_click_ms`. */
  datatype Thresholds = Thresholds(holdMs: nat, doubleClickMs: nat)

  /** `now.duration_since(t)` in milliseconds; it saturates at zero when `t` is later. */
  function Elapsed(now: int, t: int): (d: nat)
    ensures t <= now ==> t + d == now
    ensures now <= t ==> d == 0
  {
    if t <= now then now - t else 0
  }

  /** `since.is_some_and(|t| now.duration_since(t) < Duration::from_millis(limitMs))`. */
  predicate Within(since: Option<int>, now: int, limitMs: nat)
  {
    since.Some? && Elapsed(now, since.value) < limitMs
  }
}
