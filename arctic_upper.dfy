// The later ARCTIC configuration run (TUI/Inst/ARCTIC/ARCTICWindow.py):
// the input panel's command strings are sent as one "set" command, or not
// at all when nothing is to be configured.

module ArcticUpper {
  import opened Util
  import Arctic

  /** `_runConfig`: None when there is nothing to configure, else the one
      command, "set " and the strings joined by single spaces, sent to the
      actor chosen for that command. */
  function RunConfig(strList: seq<string>, actorFor: string -> string): (r: Option<WaitCmd>)
    ensures r.None? <==> strList == []
    ensures r.Some? ==> (r.value.actor == actorFor(r.value.cmdStr)
      && SplitOnce(r.value.cmdStr, ' ') == Some(("set", Join(" ", strList))))
  {
    if strList == [] then None
    else
      var cmdStr := "set " + Join(" ", strList);
      assert cmdStr == "set" + [' '] + Join(" ", strList);
      SplitOnceOf("set", ' ', Join(" ", strList));
      Some(WaitCmd(actorFor(cmdStr), cmdStr))
  }

  /** When the strings are single words, the command's words are "set"
      followed by exactly those strings, in order. */
  lemma RunConfigWords(strList: seq<string>, actorFor: string -> string)
    requires strList != []
    requires forall k :: 0 <= k < |strList| ==> strList[k] != "" && NoSpace(strList[k])
    ensures SplitWS(RunConfig(strList, actorFor).value.cmdStr) == ["set"] + strList
  {
    var words := ["set"] + strList;
    assert words[1..] == strList;
    assert Join(" ", words) == "set " + Join(" ", strList);
    assert NoSpace("set");
    SplitWSJoin(words);
  }

  /** The Arctic run sends the same command as this one given the
      converted "field=..." items of its settings. */
  lemma SameCommandAsArctic(cmds: seq<string>, actorFor: string -> string)
    requires Arctic.SetItems(cmds).Ok? && cmds != []
    ensures Arctic.DoConfigResult(cmds, actorFor).value.value.cmdStr
      == RunConfig(Arctic.SetItems(cmds).value, actorFor).value.cmdStr
  {
    var items := Arctic.SetItems(cmds).value;
    assert (["set"] + items)[1..] == items;
  }
}
