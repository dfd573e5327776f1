// The Arctic configuration run (TUI/Inst/Arctic/ArcticWindow.py): instead
// of one command per changed setting, the settings are merged into a single
// "set" command for the instrument's actor.  Each setting command
// "field a b c" becomes "field=a, b, c".

module Arctic {
  import opened Util

  /** Python 2's message when `a, b = s.split(" ", 1)` finds no space. */
  const UnpackMsg := "need more than 1 value to unpack"

  /** One setting command as an item of the merged command: the field (the
      text before the first space), "=", then the remaining words joined by
      ", ".  None when the command has no space to split at. */
  function SetItem(cmdStr: string): (r: Option<string>)
    ensures r.None? <==> ' ' !in cmdStr
  {
    match SplitOnce(cmdStr, ' ')
    case None => None
    case Some(parts) => Some(parts.0 + "=" + Join(", ", SplitWS(parts.1)))
  }

  /** The items of all setting commands, in order; a ValueError when any
      command has no space. */
  function SetItems(cmds: seq<string>): (r: Result<seq<string>>)
    ensures r.Ok? <==> forall i :: 0 <= i < |cmds| ==> ' ' in cmds[i]
    ensures r.Raise? ==> r.exc == ValueError(UnpackMsg)
    ensures r.Ok? ==> (|r.value| == |cmds|
      && forall i :: 0 <= i < |cmds| ==> SetItem(cmds[i]) == Some(r.value[i]))
  {
    if cmds == [] then Ok([])
    else
      var init := cmds[..|cmds| - 1];
      var last := cmds[|cmds| - 1];
      assert forall i :: 0 <= i < |init| ==> init[i] == cmds[i];
      match SetItems(init)
      case Raise(e) => Raise(e)
      case Ok(items) =>
        match SetItem(last)
        case None => Raise(ValueError(UnpackMsg))
        case Some(item) => Ok(items + [item])
  }

  /** `" ".join(["set"] + items)`. */
  function WholeCommand(items: seq<string>): string
  {
    Join(" ", ["set"] + items)
  }

  /** A field followed by whitespace-free words comes back as
      "field=w1, w2, ...". */
  lemma SetItemOf(field: string, words: seq<string>)
    requires ' ' !in field
    requires forall k :: 0 <= k < |words| ==> words[k] != "" && NoSpace(words[k])
    ensures SetItem(field + " " + Join(" ", words)) == Some(field + "=" + Join(", ", words))
  {
    assert field + " " + Join(" ", words) == field + [' '] + Join(" ", words);
    SplitOnceOf(field, ' ', Join(" ", words));
    SplitWSJoin(words);
  }

  /** The field can be read back from its item: it is the text before the
      first "=" when the field itself has none. */
  lemma SetItemField(cmdStr: string)
    requires ' ' in cmdStr
    requires '=' !in SplitOnce(cmdStr, ' ').value.0
    ensures var parts := SplitOnce(cmdStr, ' ').value;
      SplitOnce(SetItem(cmdStr).value, '=') == Some((parts.0, Join(", ", SplitWS(parts.1))))
  {
    var parts := SplitOnce(cmdStr, ' ').value;
    var rest := Join(", ", SplitWS(parts.1));
    assert parts.0 + "=" + rest == parts.0 + ['='] + rest;
    SplitOnceOf(parts.0, '=', rest);
  }

  /** The merged command is "set" alone, or "set " followed by the items
      in order, one space between them. */
  lemma WholeCommandSplits(items: seq<string>)
    ensures items == [] ==> WholeCommand(items) == "set"
    ensures items != [] ==> SplitOnce(WholeCommand(items), ' ') == Some(("set", Join(" ", items)))
  {
    if items != [] {
      assert (["set"] + items)[1..] == items;
      assert WholeCommand(items) == "set" + [' '] + Join(" ", items);
      SplitOnceOf("set", ' ', Join(" ", items));
    }
  }

  /** The `doConfig` generator as written.  The actor is looked up from the
      loop variable after the loop, so an empty list of settings raises a
      NameError (the variable was never bound). */
  method DoConfigAsWritten(cmds: seq<string>, actorFor: string -> string) returns (r: Result<WaitCmd>)
    ensures cmds == [] ==> r == Raise(NameError("cmdStr"))
    ensures cmds != [] ==> r == match SetItems(cmds)
      case Raise(e) => Raise(e)
      case Ok(items) => Ok(WaitCmd(actorFor(cmds[|cmds| - 1]), WholeCommand(items)))
  {
    var items := MergeItems(cmds);
    if items.Raise? {
      return Raise(items.exc);
    }
    if cmds == [] {
      return Raise(NameError("cmdStr"));
    }
    r := Ok(WaitCmd(actorFor(cmds[|cmds| - 1]), WholeCommand(items.value)));
  }

  /** What the corrected run leads to: nothing to send for no settings,
      else the merged command to the actor of the last setting. */
  function DoConfigResult(cmds: seq<string>, actorFor: string -> string): (r: Result<Option<WaitCmd>>)
    ensures cmds == [] ==> r == Ok(None)
    ensures r.Raise? <==> exists i :: 0 <= i < |cmds| && ' ' !in cmds[i]
    ensures r.Ok? && cmds != [] ==> (r.value.Some?
      && r.value.value.actor == actorFor(cmds[|cmds| - 1])
      && SplitOnce(r.value.value.cmdStr, ' ') == Some(("set", Join(" ", SetItems(cmds).value))))
  {
    if cmds == [] then Ok(None)
    else
      match SetItems(cmds)
      case Raise(e) => Raise(e)
      case Ok(items) =>
        WholeCommandSplits(items);
        Ok(Some(WaitCmd(actorFor(cmds[|cmds| - 1]), WholeCommand(items))))
  }

  /** `doConfig` with the empty case handled: no settings, no command. */
  method DoConfig(cmds: seq<string>, actorFor: string -> string) returns (r: Result<Option<WaitCmd>>)
    ensures r == DoConfigResult(cmds, actorFor)
  {
    var items := MergeItems(cmds);
    if items.Raise? {
      return Raise(items.exc);
    }
    if cmds == [] {
      return Ok(None);
    }
    r := Ok(Some(WaitCmd(actorFor(cmds[|cmds| - 1]), WholeCommand(items.value))));
  }

  /** The loop of `doConfig`: convert each setting command in turn,
      stopping at the first that cannot be split. */
  method MergeItems(cmds: seq<string>) returns (r: Result<seq<string>>)
    ensures r == SetItems(cmds)
  {
    var whole: seq<string> := [];
    var i := 0;
    while i < |cmds|
      invariant 0 <= i <= |cmds|
      invariant SetItems(cmds[..i]) == Ok(whole)
    {
      var cmdStr := cmds[i];
      var split := SplitOnce(cmdStr, ' ');
      if split.None? {
        assert !(' ' in cmds[i]);
        return Raise(ValueError(UnpackMsg));
      }
      var field, settings := split.value.0, split.value.1;
      whole := whole + [field + "=" + Join(", ", SplitWS(settings))];
      assert cmds[..i + 1][..i] == cmds[..i];
      i := i + 1;
    }
    assert cmds[..i] == cmds;
    r := Ok(whole);
  }
}
