// The Agile exposure window of the released line
// (TUI/Inst/Agile/AgileWindow.py): refuses to build an exposure command
// while the camera is known to be disconnected, and appends the gain and
// read rate to the generic command.

module AgileWindow {
  import opened Util
  import AgileWindowTrunk

  const NotConnectedMsg := "Wait for camera to be connected"

  /** A known camera connection state other than "connected" (in any letter
      case) blocks the command; an unknown (None) or empty state does not. */
  predicate ConnBlocks(connState: Option<string>)
  {
    connState.Some? && connState.value != "" && Lower(connState.value) != "connected"
  }

  /** `getExpCmdStr`: a RuntimeError while the camera is not connected;
      otherwise None when the exposure input has no command, else the
      command followed by " gain=<gain> readrate=<rate>" in lower case. */
  function GetExpCmdStr(connState: Option<string>, base: Option<string>, gain: string, readRate: string)
    : (r: Result<Option<string>>)
    ensures r.Raise? <==> ConnBlocks(connState)
    ensures r.Raise? ==> r.exc == RuntimeError(NotConnectedMsg)
    ensures r.Ok? ==> (r.value.None? <==> base.None?)
  {
    if ConnBlocks(connState) then Raise(RuntimeError(NotConnectedMsg))
    else if base.None? then Ok(None)
    else Ok(Some(base.value + " gain=" + Lower(gain) + " readrate=" + Lower(readRate)))
  }

  /** Once the connection does not block, the command is the development
      line's command with the external-sync control disabled. */
  lemma SameAsTrunkWithoutExtSync(connState: Option<string>, base: Option<string>, gain: string, readRate: string)
    requires !ConnBlocks(connState)
    ensures GetExpCmdStr(connState, base, gain, readRate)
      == Ok(AgileWindowTrunk.ExpCmdStr(base, gain, readRate, None))
  {
    if base.Some? {
      assert AgileWindowTrunk.Suffix(gain, readRate, None) == " gain=" + Lower(gain) + " readrate=" + Lower(readRate);
      assert base.value + " gain=" + Lower(gain) + " readrate=" + Lower(readRate)
        == base.value + (" gain=" + Lower(gain) + " readrate=" + Lower(readRate));
    }
  }

  /** The connection test ignores letter case: a state blocks exactly when
      its lower-case form does. */
  lemma ConnBlocksIgnoresCase(s: string)
    ensures ConnBlocks(Some(Lower(s))) == ConnBlocks(Some(s))
  {
    LowerIdempotent(s);
    assert |Lower(s)| == |s|;
  }
}
