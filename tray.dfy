/** The tray's view of the status (tray.rs): the toggle menu item, the icon and
    tooltip chosen in `update_for_status`, and the stroke colour substituted into the
    Lucide icon sources before they are rendered. */
module Tray {
  import opened Wrappers
  import opened Text

  /** `Status` (app_state.rs): the state name and the last error, if any. */
  datatype Status = Status(state: string, lastError: Option<string>)

  /** The two states in which a transcription is under way. */
  predicate IsBusy(state: string)
  {
    state == "Transcribing" || state == "Inserting"
  }

  /** `toggle_menu_state`: the toggle item's label and whether it is enabled. */
  function ToggleMenuState(status: Status): (string, bool)
  {
    if status.state == "Recording" then ("Stop", true)
    else ("Start", !IsBusy(status.state))
  }

  /** The four icons the tray renders. */
  datatype Icon = IdleIcon | RecordingIcon | BusyIcon | ErrorIcon

  /** The icon and the tooltip state `update_for_status` chooses. */
  function TrayLook(status: Status): (Icon, string)
  {
    if status.lastError.Some? then (ErrorIcon, "Error")
    else if status.state == "Recording" then (RecordingIcon, "Recording")
    else if IsBusy(status.state) then (BusyIcon, status.state)
    else (IdleIcon, "Idle")
  }

  /** The tooltip text `update_for_status` sets. */
  function Tooltip(status: Status): string
  {
    "VoiceDictation (" + TrayLook(status).1 + ")"
  }

  /** The attribute every Lucide icon source strokes with. */
  const CurrentColor: string := "stroke=\"currentColor\""

  /** `lucide_svg_with_stroke`. */
  function LucideSvgWithStroke(svg: string, stroke: string): string
  {
    Replace(svg, CurrentColor, "stroke=\"" + stroke + "\"")
  }

  // ---------------------------------------------------------------------------
  // The toggle item

  /** Recording offers "Stop"; the two busy states offer a disabled "Start"; every
      other state offers an enabled "Start".  The error is not consulted. */
  lemma {:induction false} ToggleMenuStateMaps(status: Status)
    ensures var (text, enabled) := ToggleMenuState(status);
      && (status.state == "Recording" ==> text == "Stop" && enabled)
      && (IsBusy(status.state) ==> text == "Start" && !enabled)
      && (status.state != "Recording" && !IsBusy(status.state) ==> text == "Start" && enabled)
      && ToggleMenuState(Status(status.state, None)) == (text, enabled)
  {
  }

  /** The toggle item is disabled exactly in the two busy states, and says "Stop"
      exactly while recording. */
  lemma {:induction false} ToggleDisabledIffBusy(status: Status)
    ensures !ToggleMenuState(status).1 <==> IsBusy(status.state)
    ensures ToggleMenuState(status).0 == "Stop" <==> status.state == "Recording"
  {
  }

  /** The four cases of the source's own test of `toggle_menu_state`. */
  lemma {:induction false} ToggleMenuStateCases()
    ensures ToggleMenuState(Status("Idle", None)) == ("Start", true)
    ensures ToggleMenuState(Status("Recording", None)) == ("Stop", true)
    ensures ToggleMenuState(Status("Transcribing", None)) == ("Start", false)
    ensures ToggleMenuState(Status("Inserting", None)) == ("Start", false)
  {
  }

  // ---------------------------------------------------------------------------
  // Icon and tooltip

  /** An error takes precedence over the state: the error icon with "Error". */
  lemma {:induction false} ErrorFirst(status: Status)
    requires status.lastError.Some?
    ensures TrayLook(status) == (ErrorIcon, "Error")
    ensures Tooltip(status) == "VoiceDictation (Error)"
  {
  }

  /** Without an error, recording shows the recording icon, the busy states the busy
      icon with their own name, and anything else the idle icon with "Idle". */
  lemma {:induction false} LookWithoutError(status: Status)
    requires status.lastError.None?
    ensures var (icon, tip) := TrayLook(status);
      && (icon == RecordingIcon <==> status.state == "Recording")
      && (icon == BusyIcon <==> IsBusy(status.state))
      && (icon == BusyIcon ==> tip == status.state)
      && (icon == IdleIcon <==> tip == "Idle")
      && icon != ErrorIcon
  {
  }

  /** The tooltip is always `VoiceDictation (<state>)` for one of the five tooltip
      states. */
  lemma {:induction false} TooltipShape(status: Status)
    ensures var t := Tooltip(status);
      var tip := TrayLook(status).1;
      && t == "VoiceDictation (" + tip + ")"
      && tip in {"Error", "Recording", "Transcribing", "Inserting", "Idle"}
  {
  }

  /** Without an error, the menu and the icon agree: the item says "Stop" exactly under
      the recording icon and is disabled exactly under the busy icon. */
  lemma {:induction false} MenuAgreesWithIcon(status: Status)
    requires status.lastError.None?
    ensures ToggleMenuState(status).0 == "Stop" <==> TrayLook(status).0 == RecordingIcon
    ensures !ToggleMenuState(status).1 <==> TrayLook(status).0 == BusyIcon
  {
  }

  // ---------------------------------------------------------------------------
  // Stroke substitution

  /** Every occurrence of `stroke="currentColor"` is replaced by the requested stroke:
      the result is the pieces between occurrences, none of which contains one, joined
      with the new attribute, and those pieces joined with the old one are the input. */
  lemma {:induction false} StrokeReplacesEveryOccurrence(svg: string, stroke: string)
    ensures var pieces := SplitOn(svg, CurrentColor);
      && LucideSvgWithStroke(svg, stroke) == Join(pieces, "stroke=\"" + stroke + "\"")
      && Join(pieces, CurrentColor) == svg
      && forall k :: 0 <= k < |pieces| ==> !Occurs(pieces[k], CurrentColor)
  {
    ReplaceIsSplitJoin(svg, CurrentColor, "stroke=\"" + stroke + "\"");
    SplitOnJoin(svg, CurrentColor);
    SplitOnPiecesFree(svg, CurrentColor);
  }

  /** An icon source without the attribute is returned unchanged. */
  lemma {:induction false} StrokeAbsentUnchanged(svg: string, stroke: string)
    requires !Occurs(svg, CurrentColor)
    ensures LucideSvgWithStroke(svg, stroke) == svg
  {
    ReplaceAbsent(svg, CurrentColor, "stroke=\"" + stroke + "\"");
  }

  /** Substituting `currentColor` itself changes nothing. */
  lemma {:induction false} StrokeCurrentColorUnchanged(svg: string)
    ensures LucideSvgWithStroke(svg, "currentColor") == svg
  {
    assert "stroke=\"" + "currentColor" + "\"" == CurrentColor;
    ReplaceIsSplitJoin(svg, CurrentColor, CurrentColor);
    SplitOnJoin(svg, CurrentColor);
  }
}
