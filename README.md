# VoiceDictation core, modelled in Dafny

VoiceDictation is a desktop dictation app written in Rust on Tauri. The user holds or
double-taps a hot key. The app records the microphone, resamples the audio to 16 kHz
mono 16-bit PCM and sends it to an Azure OpenAI transcription deployment. A tray icon
shows the app's status, and errors are appended to a log file. This project models
the pieces of that app that are sequential logic, and proves what they promise.

- **Capture and resampling** (`audio.rs`), in modules `Resampler` and `Capture`:
  - `LinearResampler` is a class over an exact rational read position. Its `next` is
    given as written (`NextAsWritten`, pure step `PullAsWritten`) and corrected (`Next`,
    pure step `Pull`).
  - The three input callbacks keep the first channel of every whole frame.
  - The writer loop clamps each resampled sample and casts it to `i16`. It is given
    over both steps (`WriteSamplesAsWritten`, `WriteSamples`).
  - With the corrected step `Pull`, the output on chunked input equals a
    chunk-independent reference `RefFrom`: linear interpolation at absolute positions
    `k * in_rate / 16000`. The source's step does not on every chunking (see
    Findings); it agrees with the reference when the whole input arrives in one chunk.
- **Windows hot key** (`key_listener/windows.rs`), in module `WindowsListener`:
  - `parse_hotkey` is a method with a loop over the `+`-separated parts.
  - The low-level keyboard hook is a class that mirrors `State`, specified by
    `HookStep`.
  - The hold timer is `HoldTimerStep`.
  - The gesture lemmas cover press, hold, tap and double tap.
- **macOS Fn key** (`key_listener/macos.rs`), in module `MacosListener`: the event-tap
  callback `EventStep` with whether the event is passed on, the hold timer as written
  and with a press check, and the class `FnState`.
- **Tray** (`tray.rs`), in module `Tray`: the toggle menu item, the icon and tooltip
  choice, and the SVG stroke substitution.
- **Transcription request** (`azure_transcribe.rs`), in module `AzureTranscribe`: the
  configuration checks in their fixed order, the URL, and the outcome for a response
  status and body.
- **Error log** (`logger.rs`), in module `Logger`: the context and message
  sanitisation, the record line, and "one line per call" over a sequence of calls.
- **Shared modules**:
  - `Text` models the `str` operations the source uses: `trim`, `trim_end_matches`,
    `split`, `to_ascii_lowercase` and `replace`.
  - `Gesture` holds the intents, the thresholds and a saturating `duration_since`.
  - `Wrappers` and `Arith` hold `Option`/`Result` and arithmetic lemmas.

Instants are integer milliseconds, and `duration_since` saturates at zero. Audio
samples are mathematical reals, and each output sample is the interpolation
`s0 + (s1 - s0) * frac` computed exactly.

An endpoint made only of `/` and whitespace is not always rejected. The code trims
whitespace first and then strips only trailing `/`, so `"/ /"` is accepted as `"/ "`
(`AzureTranscribe.EndpointRejectedIffSlashes`, `AzureTranscribe.SlashSpaceSlashAccepted`).

## Model

| member | source | states |
|---|---|---|
| Resampler.LerpBetween | src-tauri/src/audio.rs:204-207 | an interpolated sample lies between its two neighbours, and is the first one when the fraction is 0 |
| Resampler.DropFrontSlice | src-tauri/src/audio.rs:211-215 | popping `k` samples from the front one at a time, where a pop on an empty buffer does nothing, leaves the buffer from index `min(k, len)` on |
| Resampler.PositionParts | src-tauri/src/audio.rs:198-206 | the exact position `num / 16000` has integer part `num div 16000` and fraction `num mod 16000 / 16000` |
| Resampler.PullAsWritten | src-tauri/src/audio.rs:197-220 | `next` as written: `None`, with the state unchanged, exactly when `floor(pos) + 1 >= len`; otherwise the new position is below 1 |
| Resampler.Pull | src-tauri/src/audio.rs:197-220 | `next` corrected: `None`, with the state unchanged, exactly when `floor(pos) + 1 >= len` |
| Resampler.PullSample | src-tauri/src/audio.rs:198-207 | a produced sample is the interpolation between indices `floor(pos)` and `floor(pos)+1` weighted by `pos - floor(pos)`; it lies between them, and both versions agree on it |
| Resampler.PullAsWrittenAdvances | src-tauri/src/audio.rs:209-217 | as written, the new position is `(pos + ratio) - floor(pos + ratio)`, while the buffer loses only the samples it had |
| Resampler.PullAdvances | src-tauri/src/audio.rs:209-217 | corrected, the new position is `pos + ratio` minus the number of samples actually popped |
| Resampler.RefFromIndex | src-tauri/src/audio.rs:197-220 | output `j` of the reference is the interpolation at absolute input position `p + j * ratio`, and both neighbours exist |
| Resampler.RefFromAt | src-tauri/src/audio.rs:197-220 | the reference emits exactly the positions `p + j * ratio` whose right neighbour exists, and stops at the first that lacks one |
| Resampler.DrainEnds | src-tauri/src/audio.rs:162 | after `while let Some(s) = next()` the next call returns `None` |
| Resampler.DrainFrom | src-tauri/src/audio.rs:162-220 | draining a buffer from position `p` gives exactly the reference outputs from `p` |
| Resampler.OneChunkAsWritten | src-tauri/src/audio.rs:160-220 | with the whole input in one chunk, the source's step gives exactly the reference |
| Resampler.StreamMatchesReference | src-tauri/src/audio.rs:160-220 | corrected: resampling chunk by chunk gives the reference on the concatenated input, however the input is split |
| Resampler.SplitChunkAsWritten | src-tauri/src/audio.rs:211-216 | a 3:1 input split as `[0,1]`,`[2,3,4,5]` gives `[0,2]` as written, where the unsplit input and the corrected step give `[0,3]` |
| Resampler.RampOutputs | src-tauri/src/audio.rs:197-220 | on the input `f(n) = n` pushed as one chunk, output `k` is exactly the position `k * ratio`, and outputs continue while `floor(k * ratio) + 1 < n`; the source's step gives the same outputs |
| Resampler.IntegerRatioTest | src-tauri/src/audio.rs:227-246 | with the source's step, 48000 to 16000 Hz on 480 ramp samples pushed at once gives between 100 and 1000 outputs, and output `k` is `3k` |
| Resampler.OutputCountBound | src-tauri/src/audio.rs:160-169 | corrected: `n` input samples give at most `floor(n / ratio) + 1` outputs, however they are chunked |
| Resampler.OutputCountBoundAsWritten | src-tauri/src/audio.rs:209-217 | as written, four 2-sample chunks at a 3:1 ratio give 4 outputs, above the bound `floor(8 / 3) + 1 = 3` |
| Resampler.LinearResampler.constructor | src-tauri/src/audio.rs:185-191 | the ratio is `in_rate / 16000`, the position is 0 and the buffer is empty |
| Resampler.LinearResampler.Push | src-tauri/src/audio.rs:193-195 | the samples are appended to the buffer and the position is unchanged |
| Resampler.LinearResampler.PopFront | src-tauri/src/audio.rs:211-214 | pops `min(count, len)` samples from the front |
| Resampler.LinearResampler.NextAsWritten | src-tauri/src/audio.rs:197-220 | the sample returned and the new state are those of the source's step `PullAsWritten` |
| Resampler.LinearResampler.Next | src-tauri/src/audio.rs:197-220 | corrected: the sample returned and the new state are those of the corrected step `Pull` |
| Capture.NormI16Range | src-tauri/src/audio.rs:83 | `x / 32767` is in [-1, 1] for every `i16` except -32768; it is 1 only for 32767, and the sign is kept |
| Capture.NormU16Range | src-tauri/src/audio.rs:110-111 | `(x - 32768) / 32768` is in [-1, 1); it is -1 only for 0, and 0 only for 32768 |
| Capture.FrameHeadsIndex | src-tauri/src/audio.rs:81-84 | there is one output per whole frame, `len / channels` in all, and output `k` is sample `k * channels` |
| Capture.FrameHeadsFromIndex | src-tauri/src/audio.rs:82 | from offset `start`, head `k` is sample `start + k * channels`, and there are `(len - start) / channels` heads |
| Capture.FirstChannel | src-tauri/src/audio.rs:78-85 | nothing is sent exactly when `channels == 0`; otherwise the normalised first sample of every whole frame is sent |
| Capture.CallbackI16 | src-tauri/src/audio.rs:77-85 | the `i16` callback sends `x / 32767` of each frame head |
| Capture.CallbackU16 | src-tauri/src/audio.rs:104-113 | the `u16` callback sends `(x - 32768) / 32768` of each frame head |
| Capture.CallbackF32 | src-tauri/src/audio.rs:132-140 | the `f32` callback sends the frame heads unchanged |
| Capture.Truncate | src-tauri/src/audio.rs:164 | a float-to-integer `as` cast rounds toward zero |
| Capture.ToPcm16Range | src-tauri/src/audio.rs:164 | a PCM sample lies in [-32767, 32767]; full scale and beyond give exactly ±32767, and inside the range it is `sample * 32767` rounded toward zero |
| Capture.ToPcm16Monotone | src-tauri/src/audio.rs:164 | the conversion to PCM keeps the order of samples |
| Capture.PcmAllRange | src-tauri/src/audio.rs:163-167 | each written sample is the conversion of the matching resampled sample, and lies in range |
| Capture.WriteDrainedAsWritten | src-tauri/src/audio.rs:162-168 | with the source's step, the inner loop writes the PCM of exactly the drained samples and leaves the resampler in the drained state |
| Capture.WriteChunkAsWritten | src-tauri/src/audio.rs:161-168 | with the source's step, one chunk: push, then drain and write |
| Capture.WriteSamplesAsWritten | src-tauri/src/audio.rs:148-176 | with the source's step, the samples written are the PCM of the source's chunked stream, each in [-32767, 32767]; for input in one chunk they are the PCM of the reference |
| Capture.WriteDrained | src-tauri/src/audio.rs:162-168 | corrected: the inner loop writes the PCM of exactly the drained samples and leaves the resampler in the drained state |
| Capture.WriteChunk | src-tauri/src/audio.rs:161-168 | corrected: one chunk, push, then drain and write |
| Capture.WriteSamples | src-tauri/src/audio.rs:148-176 | corrected: the samples written are the PCM of the chunked stream, which is the PCM of the reference on the whole input, however it is chunked; each is in [-32767, 32767] |
| Text.TrimSlice | src-tauri/src/key_listener/windows.rs:219 | `trim` removes a maximal whitespace prefix and suffix and nothing else |
| Text.TrimEmptyIffBlank | src-tauri/src/azure_transcribe.rs:11-12 | a trimmed string is empty exactly when every character is whitespace |
| Text.TrimEndMatches | src-tauri/src/azure_transcribe.rs:16 | `trim_end_matches('/')` keeps a prefix, removes only `/`, and leaves no trailing `/` |
| Text.Split | src-tauri/src/key_listener/windows.rs:219 | `split('+')` gives at least one part, no part contains `+`, and joining the parts with `+` gives the input back |
| Text.ToAsciiLowercase | src-tauri/src/key_listener/windows.rs:220 | the same length, with every character lowered when it is `A`-`Z` |
| Text.ReplaceIsSplitJoin | src-tauri/src/tray.rs:38 | `replace` equals splitting at the non-overlapping matches and joining with the replacement |
| Text.SplitOnJoin | src-tauri/src/tray.rs:38 | the pieces joined with the pattern give the input back |
| Text.SplitOnPiecesFree | src-tauri/src/tray.rs:38 | no piece between matches contains the pattern |
| Text.ReplaceAbsent | src-tauri/src/tray.rs:38 | a text without the pattern is unchanged |
| Text.ReplaceCharLength | src-tauri/src/logger.rs:24 | replacing a character by `rep` grows the text by `len(rep) - 1` per copy |
| WindowsListener.Tokens | src-tauri/src/key_listener/windows.rs:219 | the trimmed parts never include an empty one |
| WindowsListener.MentionsAppend | src-tauri/src/key_listener/windows.rs:220-224 | a modifier is mentioned by a list with one more part exactly when it was before or the new part names it |
| WindowsListener.LastKeyAppend | src-tauri/src/key_listener/windows.rs:225-227 | the key of a list with one more part is that part's key if it names one, and the previous key otherwise |
| WindowsListener.LastKeyToken | src-tauri/src/key_listener/windows.rs:216-227 | the key code comes from the last single-character part; with none it is the default `0x44` (`D`) |
| WindowsListener.ApplyToken | src-tauri/src/key_listener/windows.rs:220-229 | one part sets the modifier it names (`win`/`meta`/`super`, `shift`, `ctrl`/`control`, `alt`), or sets the key to the upper-cased single ASCII character, or changes nothing |
| WindowsListener.ParseHotkey | src-tauri/src/key_listener/windows.rs:210-233 | each flag is set exactly when some trimmed, non-empty, case-folded part names that modifier, and the key is the last single-character part, default `D` |
| WindowsListener.UnrecognisedGivesDefault | src-tauri/src/key_listener/windows.rs:211-217 | when no part is recognised, no modifier is required and the key is `D` |
| WindowsListener.DefaultConfigHotkey | src-tauri/src/config.rs:91 | the shipped hotkey string `Ctrl` parses to Ctrl alone with the default key `D`, so through `ParseHotkey` it means Ctrl+D |
| WindowsListener.ModifiersMatchIff | src-tauri/src/key_listener/windows.rs:183-188 | the modifiers match exactly when the required set is a subset of the held set |
| WindowsListener.ExtraModifiersHarmless | src-tauri/src/key_listener/windows.rs:183-188 | holding more modifiers never breaks a match |
| WindowsListener.TrackModifierFlags | src-tauri/src/key_listener/windows.rs:124-130 | `0x5B`/`0x5C` set the Win flag, `0xA0`/`0xA1` Shift, `0x11` Ctrl and `0x12` Alt, each to whether the key is down; other keys change no flag |
| WindowsListener.HookIgnoresOthers | src-tauri/src/key_listener/windows.rs:93-100 | a negative code or a non-key message changes nothing |
| WindowsListener.ModifierTracking | src-tauri/src/key_listener/windows.rs:124-132 | every key event updates the modifier flags; a key other than the trigger does nothing else |
| WindowsListener.TriggerPress | src-tauri/src/key_listener/windows.rs:133-141 | the first down event of the trigger records the press, and schedules a hold timer exactly when the modifiers match |
| WindowsListener.AutoRepeatQuiet | src-tauri/src/key_listener/windows.rs:133-142 | a repeated down event while the trigger is held changes no press field and emits nothing |
| WindowsListener.ReleaseAfterHold | src-tauri/src/key_listener/windows.rs:146-154 | a release after a fired hold emits Stop and clears the press, with no tap logic |
| WindowsListener.ReleaseWithoutHold | src-tauri/src/key_listener/windows.rs:155-176 | a release without a hold is a tap when held less than `hold_ms` with the modifiers matching; a tap within `double_click_ms` of the last emits Toggle and forgets the last tap; any other tap records `now` |
| WindowsListener.IntentsOnRelease | src-tauri/src/key_listener/windows.rs:142-177 | only a release of the held trigger emits an intent, and it is Stop exactly when the hold had fired |
| WindowsListener.HoldTimerGuard | src-tauri/src/key_listener/windows.rs:197-206 | the timer toggles exactly when its own press is still held and no hold has fired; it changes nothing else |
| WindowsListener.HoldFiresOnce | src-tauri/src/key_listener/windows.rs:197-198 | once a hold has fired, no timer fires again |
| WindowsListener.ConsistentPreserved | src-tauri/src/key_listener/windows.rs:124-206 | a recorded press instant exists exactly while the key is held, and a hold only fires while it is held; the hook and the timer keep this |
| WindowsListener.RunConsistent | src-tauri/src/key_listener/windows.rs:92-206 | the invariant holds after any sequence of key events and timer firings |
| WindowsListener.TripleTapTogglesOnce | src-tauri/src/key_listener/windows.rs:155-175 | three quick taps toggle once: the second tap toggles, and the third starts afresh |
| WindowsListener.StaleTimerIgnored | src-tauri/src/key_listener/windows.rs:197 | the timer of an earlier tap does nothing during a later press |
| WindowsListener.HookState.constructor | src-tauri/src/key_listener/windows.rs:55-66 | every flag is false and no instant is recorded |
| WindowsListener.HookState.HookProc | src-tauri/src/key_listener/windows.rs:92-181 | the new fields, the intent and the scheduled timer are those of `HookStep` |
| WindowsListener.HookState.OnTrigger | src-tauri/src/key_listener/windows.rs:132-178 | a trigger event leaves the modifier flags alone and updates the press as `TriggerStep` says |
| WindowsListener.HookState.HoldTimerFires | src-tauri/src/key_listener/windows.rs:190-208 | the timer firing updates the state as `HoldTimerStep` says |
| MacosListener.OtherKeysPassThrough | src-tauri/src/key_listener/macos.rs:76-79 | events of other keys are passed on and change nothing |
| MacosListener.FnPress | src-tauri/src/key_listener/macos.rs:87-110 | Fn down while up records the press, clears the hold flag, schedules its timer and passes the event |
| MacosListener.ReleaseAfterHold | src-tauri/src/key_listener/macos.rs:112-123 | Fn up after a fired hold emits Stop, clears the press and swallows the event |
| MacosListener.ReleaseWithoutHold | src-tauri/src/key_listener/macos.rs:125-146 | Fn up without a hold is a tap when held less than `hold_ms`; a tap within `double_click_ms` of the last emits Toggle, forgets the tap and swallows the event; other taps record `now` and pass the event |
| MacosListener.RepeatQuiet | src-tauri/src/key_listener/macos.rs:87-148 | Fn down while down, or up while up, changes nothing and passes the event |
| MacosListener.UpForgetsPress | src-tauri/src/key_listener/macos.rs:113-128 | after any Fn up the key is up and no press is recorded |
| MacosListener.SwallowedIffIntent | src-tauri/src/key_listener/macos.rs:112-148 | an event is swallowed exactly when it emits an intent, which happens only on Fn up; the intent is Stop exactly when a hold had fired |
| MacosListener.HoldTimerAsWrittenGuard | src-tauri/src/key_listener/macos.rs:94-107 | as written, the timer toggles whenever the key is down and no hold has fired, whichever press scheduled it |
| MacosListener.HoldTimerGuard | src-tauri/src/key_listener/macos.rs:94-107 | corrected, the timer toggles only while the press that scheduled it is still held |
| MacosListener.ConsistentPreserved | src-tauri/src/key_listener/macos.rs:87-146 | a press instant is recorded exactly while the key is down, and a hold fires only while it is down; the callback and both timers keep this |
| MacosListener.StaleTimerToggles | src-tauri/src/key_listener/macos.rs:100 | after a tap at 0-50 ms and a press at 100 ms, the as-written timer of the tap toggles at 180 ms, 80 ms into the new press |
| MacosListener.StaleTimerIgnored | src-tauri/src/key_listener/macos.rs:100 | with the press check, that stale timer does nothing, while the new press's own timer still toggles |
| MacosListener.FnState.constructor | src-tauri/src/key_listener/macos.rs:29-34 | the initial state |
| MacosListener.FnState.HandleEvent | src-tauri/src/key_listener/macos.rs:69-149 | the new fields, whether the event is passed on, the intent and the timer are those of `EventStep` |
| MacosListener.FnState.HoldTimerFires | src-tauri/src/key_listener/macos.rs:94-107 | a timer firing updates the state as the source's check `HoldTimerAsWritten` says, whichever press scheduled it |
| MacosListener.FnState.CheckedHoldTimerFires | src-tauri/src/key_listener/macos.rs:94-107 | corrected: the timer of a given press updates the state as `HoldTimer` says, doing nothing for a stale press |
| Tray.ToggleMenuStateMaps | src-tauri/src/tray.rs:91-98 | Recording gives `("Stop", true)`, Transcribing and Inserting give `("Start", false)`, and every other state gives `("Start", true)`; the error is not consulted |
| Tray.ToggleDisabledIffBusy | src-tauri/src/tray.rs:96-97 | the item is disabled exactly in the two busy states, and says Stop exactly while recording |
| Tray.ToggleMenuStateCases | src-tauri/src/tray.rs:191-207 | the four cases of the source's test |
| Tray.ErrorFirst | src-tauri/src/tray.rs:106-117 | with an error, the icon is the error icon and the tooltip reads `VoiceDictation (Error)`, whatever the state |
| Tray.LookWithoutError | src-tauri/src/tray.rs:108-113 | without an error: the recording icon exactly when recording, the busy icon with the state's own name exactly in the busy states, and otherwise the idle icon with `Idle` |
| Tray.TooltipShape | src-tauri/src/tray.rs:106-117 | the tooltip is always `VoiceDictation (<s>)` for one of the five tooltip states |
| Tray.MenuAgreesWithIcon | src-tauri/src/tray.rs:91-113 | without an error, the item says Stop exactly under the recording icon, and is disabled exactly under the busy icon |
| Tray.StrokeReplacesEveryOccurrence | src-tauri/src/tray.rs:37-39 | every occurrence of `stroke="currentColor"` is replaced: the result joins the pattern-free pieces of the input with the new attribute |
| Tray.StrokeAbsentUnchanged | src-tauri/src/tray.rs:37-39 | an icon source without the attribute is unchanged |
| Tray.StrokeCurrentColorUnchanged | src-tauri/src/tray.rs:37-39 | substituting `currentColor` itself changes nothing |
| AzureTranscribe.CheckOrder | src-tauri/src/azure_transcribe.rs:11-27 | the fields are checked in the order apiKey, endpoint, deployment and apiVersion; the first field that is blank after trimming decides the message; the checks pass exactly when none is blank |
| AzureTranscribe.ValidRequest | src-tauri/src/azure_transcribe.rs:29-51 | on a valid configuration, the URL is `endpoint + "/openai/deployments/" + deployment + "/audio/transcriptions?api-version=" + apiVersion` from the trimmed values, and the key sent is the trimmed key |
| AzureTranscribe.EndpointNormalized | src-tauri/src/azure_transcribe.rs:16 | the normalised endpoint is a prefix of the trimmed one, loses only `/`, and does not end in `/` |
| AzureTranscribe.EndpointRejectedIffSlashes | src-tauri/src/azure_transcribe.rs:16-19 | the endpoint is rejected exactly when, once trimmed, it consists only of `/` |
| AzureTranscribe.SlashSpaceSlashAccepted | src-tauri/src/azure_transcribe.rs:16-19 | `"/ /"` is not rejected: it becomes `"/ "` |
| AzureTranscribe.OutcomeDecision | src-tauri/src/azure_transcribe.rs:63-70 | a failure status gives an error with the status and the whole body; the result is `Ok` exactly on success with a parsable body, and then it is the parsed text |
| AzureTranscribe.FailureIgnoresParser | src-tauri/src/azure_transcribe.rs:63-65 | on a failure status the body is never parsed: any parser gives the same result |
| AzureTranscribe.ChecksPrecedeIo | src-tauri/src/azure_transcribe.rs:10-70 | a configuration that fails a check gives that check's error whatever the file read, request and parser would do, so nothing is read or sent; a valid one sends the prepared request, a failed read or request gives its error, and a response is decided by `Outcome` |
| Logger.ContextSanitized | src-tauri/src/logger.rs:23 | the sanitised context has the input's length, with a space for each CR or LF and every other character kept |
| Logger.ContextClean | src-tauri/src/logger.rs:23 | the context holds no CR or LF, and a context without them is unchanged |
| Logger.MessageEscapesEachBreak | src-tauri/src/logger.rs:24 | the chained replacements write each CR as `\` `r`, each LF as `\` `n`, and keep every other character |
| Logger.MessageClean | src-tauri/src/logger.rs:24 | the message holds no CR or LF, grows by one character per line break, and is unchanged without them |
| Logger.EscapeLossy | src-tauri/src/logger.rs:24 | a CR and a backslash followed by `r` are logged alike |
| Logger.RecordClean | src-tauri/src/logger.rs:22-32 | a record holds no line break, and starts with the timestamp and ` [error] ` |
| Logger.OneLinePerEntry | src-tauri/src/logger.rs:32 | the log's text, split at newlines, is the records in call order followed by the empty text after the last newline |

## Left out

- Resampler.LinearResampler.Next: this method is the corrected step `Pull`, not the source's `pos -= drop_count`. `NextAsWritten` is the source's step, and the Findings table shows the difference.
- Capture.WriteSamples: runs the corrected `Next`, so its chunk-independent output is not the source's on every chunking. `Capture.WriteSamplesAsWritten` is the source's writer. It also requires `in_rate > 0`: with a zero rate the source's `next` never advances, and its inner loop never ends.
- Capture.WriteChunk: runs the corrected `Next`; `Capture.WriteChunkAsWritten` is the source's.
- Capture.WriteDrained: runs the corrected `Next`; `Capture.WriteDrainedAsWritten` is the source's.
- Resampler.LinearResampler.constructor: the output rate is fixed at 16000. That is the writer thread's only use (`audio.rs:149`), and it keeps the position an exact rational `num / 16000`.
- Capture.WriteSamplesAsWritten: requires `in_rate > 0`, for the same reason.
- `f32`/`f64` rounding is not modelled: samples and positions are exact reals. The cast to `i16` is modelled as rounding toward zero (`Capture.Truncate`).
- Writing the WAV file with `hound`, the channel between the callbacks and the writer thread, and device and stream set-up in `audio.rs` are I/O and are not modelled.
- The Windows hook always calls `CallNextHookEx`, so it never swallows an event; the model has no pass/swallow output for it.
- Installing the Windows hook or the macOS event tap, the run loops, and reading key codes and flags out of OS event structures are OS plumbing. The model takes the code, message, virtual key, Fn flag and instant directly.
- A poisoned mutex is not modelled: the Windows hook and timer fall back to passing the event or doing nothing, and the macOS callback returns `None`. So are the fallback hotkey and thresholds when the globals are unset (`windows.rs:106-118`).
- Timers are not threads: a hold timer is an input event that names its press instant. `toggle_recording_impl` and `stop_recording_impl` are emitted as intents; the recording lifecycle is not part of this model.
- `render_svg_icon`, `icons` and `setup` in `tray.rs` are rendering and menu wiring. The tray's setter calls are left out; the model returns the icon, tooltip and menu values they receive.
- `transcribe_wav` after building the URL (file read, multipart form, HTTP request, reading the body) is I/O. `AzureTranscribe.Transcribe` takes it as one function parameter `send`, and JSON parsing as a parameter `parse`.
- The log directory, the file open and the `chrono` timestamp are I/O. The timestamp is an input, and `Logger.OneLinePerEntry` requires it to hold no line break, which the `%Y-%m-%d %H:%M:%S` format never produces.
- Logger.EscapeLossy: the message escape is not injective, so there is no decoding round trip to prove.

## Findings

| source | as written | input that shows it | evidently intended | confidence | as-written member | corrected member |
|---|---|---|---|---|---|---|
| src-tauri/src/audio.rs:211-216 | `next` pops `floor(pos)` samples and then subtracts `floor(pos)` from `pos`, even when the buffer held fewer samples; pops on an empty deque do nothing | ratio 3 (48000 Hz), chunks `[0,1]` then `[2,3,4,5]`: output `[0,2]`, where the same input in one chunk gives `[0,3]` | the position should drop only by the samples actually popped, so the output does not depend on how the input is split into chunks | not executed | Resampler.SplitChunkAsWritten | Resampler.StreamMatchesReference |
| src-tauri/src/audio.rs:209-217 | because the position is reduced by more samples than were popped, short chunks each restart at their first sample, so the output count can exceed `floor(n / ratio) + 1` for `n` inputs | ratio 3 (48000 Hz), chunks `[0,1]`, `[2,3]`, `[4,5]`, `[6,7]`: 4 outputs from 8 inputs, where the bound is 3 | at most `floor(n / ratio) + 1` outputs for `n` inputs, whatever the chunking | not executed | Resampler.OutputCountBoundAsWritten | Resampler.OutputCountBound |
| src-tauri/src/key_listener/macos.rs:100 | the hold timer checks only `down && !hold_fired`, so a timer scheduled by an earlier press fires during a later one | Fn down at 0 ms, up at 50 ms, down at 100 ms with `hold_ms = 180`: the first press's timer toggles recording at 180 ms, 80 ms into the second press | the timer should fire only while its own press is still held, as the Windows timer checks with `key_down_at == Some(pressed_at)` (windows.rs:197) | not executed | MacosListener.StaleTimerToggles | MacosListener.HoldTimerGuard |
