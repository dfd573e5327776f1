// TUI/Inst/SPIcam/StatusConfigWdg.py (tag 1.4.4): the configuration window
// sends the commands produced by its input widgets one at a time, in order,
// each only after the previous one has finished; a failure drops the rest.
// The Apply and Cancel buttons always have opposite enabled states. The
// input widgets, the status bar, the sounds and the hub are outside the
// model: the status bar and sound calls and the commands dispatched are
// recorded as events, and command replies arrive as message-type strings.

module SPIcam {
  import opened Util

  /** What the window does to the outside world, in order. */
  datatype Event =
    | Dispatch(cmd: string, timeLim: int)   // a CmdVar to the "spicam" actor
    | CmdDoneSound
    | CmdFailedSound
    | ErrorMsg(msg: string)                 // a temporary error message
    | ClearTempMsg
    | ClearStatus
    | RestoreDefault

  /** The time limit of a command: 80 seconds for filter moves, 10 otherwise. */
  function TimeLim(cmd: string): (t: int)
    ensures t == 80 || t == 10
    ensures t == 80 <==> "filter" <= cmd
  {
    if "filter" <= cmd then 80 else 10
  }

  /** The reply types that abort the queue: the source tests the type with
      `in ("f!")`, which is a substring test on the string "f!". */
  predicate IsFailure(msgType: string)
  {
    Contains("f!", msgType)
  }

  /** The substring test accepts exactly "", "f", "!" and "f!". */
  lemma FailureTypes(msgType: string)
    ensures IsFailure(msgType) <==> msgType in {"", "f", "!", "f!"}
  {
    if IsFailure(msgType) {
      var i := ContainsWitness("f!", msgType);
      assert i <= 2 && |msgType| <= 2 - i;
      if |msgType| == 1 {
        assert msgType == "f!"[i..i + 1];
        if i == 0 {
          assert msgType == "f";
        } else {
          assert msgType == "!";
        }
      } else if |msgType| == 2 {
        assert msgType == "f!"[0..2] == "f!";
      } else {
        assert msgType == "";
      }
    } else {
      assert "" <= "f!";
      assert "f" <= "f!";
      assert "f!" <= "f!";
      ContainsAt("f!", "!", 1);
    }
  }

  /** ":" (done) never counts as a failure, and neither do the
      informational types. */
  lemma NotFailures()
    ensures !IsFailure(":") && !IsFailure("i") && !IsFailure("w") && !IsFailure(">")
  {
    FailureTypes(":");
    FailureTypes("i");
    FailureTypes("w");
    FailureTypes(">");
  }

  /** The commands of the Dispatch events, in order. */
  function Dispatched(events: seq<Event>): (r: seq<string>)
    ensures |r| <= |events|
  {
    if events == [] then []
    else Dispatched(events[..|events| - 1])
         + (if events[|events| - 1].Dispatch? then [events[|events| - 1].cmd] else [])
  }

  lemma DispatchedAppend(events: seq<Event>, more: seq<Event>)
    ensures Dispatched(events + more) == Dispatched(events) + Dispatched(more)
    decreases |more|
  {
    if more == [] {
      assert events + more == events;
    } else {
      assert (events + more)[..|events + more| - 1] == events + more[..|more| - 1];
      DispatchedAppend(events, more[..|more| - 1]);
    }
  }

  class ConfigWdg {
    /** The commands still to be sent. */
    var cmdList: seq<string>
    var applyEnabled: bool
    var cancelEnabled: bool
    var events: seq<Event>
    /** The command list of the last successful Apply. */
    ghost var batch: seq<string>
    /** Where the events of that Apply begin. */
    ghost var since: nat

    /** The buttons are opposite; while commands wait, Apply is disabled;
        the commands dispatched since the last Apply, followed by those
        still waiting, are that Apply's list (unless the rest was dropped). */
    ghost predicate Valid()
      reads this
    {
      (cmdList != [] ==> !applyEnabled) && Queued()
    }

    ghost predicate Queued()
      reads this
    {
      applyEnabled == !cancelEnabled
      && since <= |events|
      && Dispatched(events[since..]) <= batch
      && (cmdList != [] ==> Dispatched(events[since..]) + cmdList == batch)
    }

    constructor ()
      ensures Valid()
      ensures cmdList == [] && applyEnabled && !cancelEnabled && events == []
    {
      cmdList := [];
      applyEnabled := true;
      cancelEnabled := false;
      events := [];
      batch := [];
      since := 0;
    }

    /** `_setApplyState`. */
    method SetApplyState(doEnable: bool)
      modifies this`applyEnabled, this`cancelEnabled
      ensures applyEnabled == doEnable && cancelEnabled == !doEnable
    {
      if doEnable {
        applyEnabled := true;
        cancelEnabled := false;
      } else {
        applyEnabled := false;
        cancelEnabled := true;
      }
    }

    /** `_doNextCmd`: send the oldest waiting command (disabling Apply), or,
        with none left, re-enable Apply and play the done sound. */
    method DoNextCmd()
      requires Queued()
      modifies this`cmdList, this`applyEnabled, this`cancelEnabled, this`events
      ensures Valid()
      ensures old(cmdList) != [] ==>
                cmdList == old(cmdList)[1..] && !applyEnabled
                && events == old(events) + [Dispatch(old(cmdList)[0], TimeLim(old(cmdList)[0]))]
      ensures old(cmdList) == [] ==>
                cmdList == [] && applyEnabled && events == old(events) + [CmdDoneSound]
    {
      if cmdList != [] {
        var cmd := cmdList[0];
        cmdList := cmdList[1..];
        SetApplyState(false);
        var e := Dispatch(cmd, TimeLim(cmd));
        DispatchedAppend(events[since..], [e]);
        assert (events + [e])[since..] == events[since..] + [e];
        assert Dispatched([e]) == [cmd] by {
          assert [e][..0] == [];
        }
        events := events + [e];
        assert Dispatched(events[since..]) + cmdList == Dispatched(old(events)[since..]) + old(cmdList);
      } else {
        SetApplyState(true);
        AppendNoDispatch(CmdDoneSound);
      }
    }

    /** Adds an event that sends nothing. */
    method AppendNoDispatch(e: Event)
      requires !e.Dispatch? && since <= |events|
      modifies this`events
      ensures events == old(events) + [e]
      ensures Dispatched(events[since..]) == Dispatched(old(events)[since..])
    {
      DispatchedAppend(events[since..], [e]);
      assert (events + [e])[since..] == events[since..] + [e];
      assert Dispatched([e]) == [] by {
        assert [e][..0] == [];
      }
      events := events + [e];
    }

    /** `doApply`: refused (RuntimeError) while commands wait; a ValueError
        from the input widgets is shown and nothing is sent; otherwise the
        new list is queued and its first command sent. Other exceptions pass
        through. */
    method DoApply(input: Result<seq<string>>) returns (r: Result<()>)
      requires Valid()
      modifies this`cmdList, this`applyEnabled, this`cancelEnabled, this`events, this`batch, this`since
      ensures Valid()
      ensures old(cmdList) != [] ==>
                r.Raise? && r.exc.RuntimeError? && cmdList == old(cmdList) && events == old(events)
      ensures old(cmdList) == [] && input.Raise? && input.exc.ValueError? ==>
                r.Ok? && cmdList == [] && events == old(events) + [ErrorMsg(input.exc.msg)]
      ensures old(cmdList) == [] && input.Raise? && !input.exc.ValueError? ==>
                r == Raise(input.exc) && cmdList == [] && events == old(events)
      ensures old(cmdList) == [] && input.Ok? ==>
                r.Ok? && batch == input.value
                && (input.value != [] ==>
                      cmdList == input.value[1..] && !applyEnabled
                      && events == old(events) + [Dispatch(input.value[0], TimeLim(input.value[0]))])
                && (input.value == [] ==> applyEnabled && events == old(events) + [CmdDoneSound])
    {
      if cmdList != [] {
        return Raise(RuntimeError("cannot issue new commands until the old ones are done"));
      }
      if input.Raise? {
        if input.exc.ValueError? {
          AppendNoDispatch(ErrorMsg(input.exc.msg));
          return Ok(());
        }
        return Raise(input.exc);
      }
      cmdList := input.value;
      batch := input.value;
      since := |events|;
      assert events[since..] == [];
      DoNextCmd();
      r := Ok(());
    }

    /** `doCancel`: drops the waiting commands and re-enables Apply; only
        temporary messages are cleared while commands were waiting. */
    method DoCancel()
      requires Valid()
      modifies this`cmdList, this`applyEnabled, this`cancelEnabled, this`events
      ensures Valid()
      ensures cmdList == [] && applyEnabled && !cancelEnabled
      ensures events == old(events) + [if old(cmdList) != [] then ClearTempMsg else ClearStatus]
    {
      if cmdList != [] {
        AppendNoDispatch(ClearTempMsg);
      } else {
        AppendNoDispatch(ClearStatus);
      }
      cmdList := [];
      SetApplyState(true);
    }

    /** `doCurrent`: restores the inputs' defaults; the waiting commands are
        kept. */
    method DoCurrent()
      requires Valid()
      modifies this`events
      ensures Valid()
      ensures events == old(events) + [RestoreDefault, if cmdList != [] then ClearTempMsg else ClearStatus]
    {
      AppendNoDispatch(RestoreDefault);
      if cmdList != [] {
        AppendNoDispatch(ClearTempMsg);
      } else {
        AppendNoDispatch(ClearStatus);
      }
    }

    /** `_cmdCallback`: ":" sends the next command, a failure type drops the
        rest; any other reply changes nothing. */
    method CmdCallback(msgType: string)
      requires Valid()
      modifies this`cmdList, this`applyEnabled, this`cancelEnabled, this`events
      ensures Valid()
      ensures msgType == ":" && old(cmdList) != [] ==>
                cmdList == old(cmdList)[1..] && !applyEnabled
                && events == old(events) + [Dispatch(old(cmdList)[0], TimeLim(old(cmdList)[0]))]
      ensures msgType == ":" && old(cmdList) == [] ==>
                cmdList == [] && applyEnabled && events == old(events) + [CmdDoneSound]
      ensures msgType != ":" && IsFailure(msgType) ==>
                cmdList == [] && applyEnabled && events == old(events) + [CmdFailedSound]
      ensures msgType != ":" && !IsFailure(msgType) ==>
                cmdList == old(cmdList) && applyEnabled == old(applyEnabled) && events == old(events)
    {
      if msgType == ":" {
        DoNextCmd();
      } else if IsFailure(msgType) {
        cmdList := [];
        SetApplyState(true);
        AppendNoDispatch(CmdFailedSound);
      }
    }
  }

  /** Applying a list and then receiving ":" for every command sends the
      whole list, in order, one command per reply, and ends with Apply
      enabled and the done sound. */
  method ApplyAndFinish(w: ConfigWdg, cmds: seq<string>)
    requires w.Valid() && w.cmdList == []
    modifies w
    ensures w.Valid()
    ensures w.cmdList == [] && w.applyEnabled
    ensures |old(w.events)| < |w.events|
    ensures Dispatched(w.events[|old(w.events)|..]) == cmds
    ensures w.events[|w.events| - 1] == CmdDoneSound
  {
    var start := |w.events|;
    var _ := w.DoApply(Ok(cmds));
    if cmds == [] {
      EventsTail(w.events, start, CmdDoneSound);
      return;
    }
    EventsTail(w.events, start, Dispatch(cmds[0], TimeLim(cmds[0])));
    ReplyUntilDone(w, start, cmds);
  }

  /** Receiving ":" for each waiting command and once more sends the rest
      of the list and ends with Apply enabled and the done sound. */
  method ReplyUntilDone(w: ConfigWdg, start: nat, cmds: seq<string>)
    requires w.Valid() && start <= |w.events|
    requires Dispatched(w.events[start..]) + w.cmdList == cmds
    modifies w
    ensures w.Valid()
    ensures w.cmdList == [] && w.applyEnabled
    ensures start < |w.events|
    ensures Dispatched(w.events[start..]) == cmds
    ensures w.events[|w.events| - 1] == CmdDoneSound
  {
    while w.cmdList != []
      invariant w.Valid() && start <= |w.events|
      invariant Dispatched(w.events[start..]) + w.cmdList == cmds
      decreases |w.cmdList|
    {
      var before := w.events;
      var c := w.cmdList[0];
      w.CmdCallback(":");
      StepTail(before, start, Dispatch(c, TimeLim(c)));
    }
    var before := w.events;
    w.CmdCallback(":");
    StepTail(before, start, CmdDoneSound);
  }

  lemma EventsTail(events: seq<Event>, start: nat, e: Event)
    requires start + 1 == |events| && events[start] == e
    ensures Dispatched(events[start..]) == (if e.Dispatch? then [e.cmd] else [])
  {
    assert events[start..] == [e];
    assert [e][..0] == [];
  }

  lemma StepTail(before: seq<Event>, start: nat, e: Event)
    requires start <= |before|
    ensures Dispatched((before + [e])[start..]) == Dispatched(before[start..]) + (if e.Dispatch? then [e.cmd] else [])
  {
    assert (before + [e])[start..] == before[start..] + [e];
    DispatchedAppend(before[start..], [e]);
    assert [e][..0] == [];
  }
}
