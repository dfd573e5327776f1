// TUI/Inst/FileGetter.py (branch betterGet): automatic download of the image
// files an instrument reports. New files are queued as a batch (one entry
// per camera) and a policy picks which batch to start once nothing is being
// downloaded any more. The HTTP downloads are foreign objects: a download is
// known here by its number (its position in the list of started downloads),
// and which downloads have finished is a parameter of each call.

module FileGetter {
  import opened Util

  /** The keyword arguments of one `downloadWdg.getFile` call. */
  datatype DownloadArgs = DownloadArgs(
    fromURL: string,
    toPath: string,
    isBinary: bool,
    overwrite: bool,
    createDir: bool,
    dispStr: string,
    camName: Option<string>)

  type Batch = seq<DownloadArgs>

  /** The queue state: pending batches (oldest first), the numbers of the
      downloads believed active, and every download started so far. */
  datatype Queue = Queue(pending: seq<Batch>, active: set<nat>, started: seq<DownloadArgs>)

  /** Every active download is one that was started. */
  predicate QueueOk(q: Queue)
  {
    forall id :: id in q.active ==> id < |q.started|
  }

  /** Which batch `_handlePendingDownloads` starts when nothing is active,
      and what stays pending: with `autoGetNum` = n > 0 it skips n-1 batches
      and starts the next one once n are pending; with n < 0 it starts the
      newest and drops the rest. */
  function Select(pending: seq<Batch>, autoGetNum: int): (r: (Batch, seq<Batch>))
    requires autoGetNum != 0
  {
    if autoGetNum > 0 then
      if |pending| >= autoGetNum then (pending[autoGetNum - 1], pending[autoGetNum..])
      else ([], pending)
    else
      if pending != [] then (pending[|pending| - 1], []) else ([], [])
  }

  /** The downloads numbered from `first` that are not already finished. */
  function NewlyActive(first: nat, count: nat, doneNow: set<nat>): (r: set<nat>)
    ensures forall id :: id in r <==> first <= id < first + count && id !in doneNow
  {
    set id | first <= id < first + count && id !in doneNow
  }

  /** `_handlePendingDownloads`, on values. */
  function Handle(q: Queue, autoGetNum: int, doneNow: set<nat>): Queue
  {
    if autoGetNum == 0 then q.(pending := [])
    else
      var stillActive := q.active - doneNow;
      if stillActive != {} then q.(active := stillActive)
      else
        var (batch, rest) := Select(q.pending, autoGetNum);
        Queue(rest, NewlyActive(|q.started|, |batch|, doneNow), q.started + batch)
  }

  /** With downloads switched off the queue is emptied and nothing starts. */
  lemma HandleOff(q: Queue, doneNow: set<nat>)
    ensures Handle(q, 0, doneNow).pending == []
    ensures Handle(q, 0, doneNow).started == q.started
    ensures Handle(q, 0, doneNow).active == q.active
  {
  }

  /** While a download that has not finished is active, nothing new starts
      and the queue is kept; finished ones are dropped from the active set. */
  lemma HandleBusy(q: Queue, autoGetNum: int, doneNow: set<nat>, id: nat)
    requires autoGetNum != 0 && id in q.active && id !in doneNow
    ensures Handle(q, autoGetNum, doneNow) == q.(active := q.active - doneNow)
  {
    assert id in q.active - doneNow;
  }

  /** Positive `autoGetNum` = n, nothing active: once n batches are pending,
      the oldest n-1 are discarded and the n-th is started, so exactly n
      leave the queue and the rest keep their order; with fewer, nothing
      happens. */
  lemma HandlePositive(q: Queue, n: int, doneNow: set<nat>)
    requires n > 0 && q.active <= doneNow
    ensures |q.pending| >= n ==>
              var h := Handle(q, n, doneNow);
              q.pending == q.pending[..n - 1] + [q.pending[n - 1]] + h.pending
              && |h.pending| == |q.pending| - n
              && h.started == q.started + q.pending[n - 1]
    ensures |q.pending| < n ==>
              Handle(q, n, doneNow) == q.(active := {})
  {
    if |q.pending| >= n {
      assert q.pending == q.pending[..n - 1] + [q.pending[n - 1]] + q.pending[n..];
    }
  }

  /** Negative `autoGetNum`, nothing active: only the newest pending batch
      starts and the queue is left empty. */
  lemma HandleNegative(q: Queue, n: int, doneNow: set<nat>)
    requires n < 0 && q.active <= doneNow
    ensures Handle(q, n, doneNow).pending == []
    ensures Handle(q, n, doneNow).started
            == q.started + (if q.pending == [] then [] else q.pending[|q.pending| - 1])
  {
  }

  /** Every download that is started and not already finished becomes
      active, and the active set only ever names started downloads. */
  lemma HandleKeepsQueueOk(q: Queue, autoGetNum: int, doneNow: set<nat>)
    requires QueueOk(q)
    ensures QueueOk(Handle(q, autoGetNum, doneNow))
    ensures var h := Handle(q, autoGetNum, doneNow);
            forall id :: |q.started| <= id < |h.started| && id !in doneNow ==> id in h.active
  {
  }

  // ----------------------------------------------------- building a batch

  /** The download arguments `_updFiles` builds for `fileNames[i..]`, where
      `i` is the position in the file list (used to find the camera). */
  function BatchFor(fileNames: seq<string>, i: nat, camNames: seq<string>, host: string,
                    fromRootDir: string, progDir: string, userDir: string, toRootDir: string): Batch
    requires i <= |fileNames|
    decreases |fileNames| - i
  {
    if i == |fileNames| then []
    else if fileNames[i] == "None" then BatchFor(fileNames, i + 1, camNames, host, fromRootDir, progDir, userDir, toRootDir)
    else
      [ArgsFor(fileNames[i], i, camNames, host, fromRootDir, progDir, userDir, toRootDir)]
      + BatchFor(fileNames, i + 1, camNames, host, fromRootDir, progDir, userDir, toRootDir)
  }

  function ArgsFor(fileName: string, i: nat, camNames: seq<string>, host: string,
                   fromRootDir: string, progDir: string, userDir: string, toRootDir: string): (a: DownloadArgs)
    ensures a.dispStr == progDir + userDir + fileName
    ensures a.fromURL == "http://" + host + fromRootDir + a.dispStr
    ensures a.isBinary && !a.overwrite && a.createDir
    ensures a.camName == if i < |camNames| then Some(camNames[i]) else None
  {
    DownloadArgs(
      fromURL := "http://" + host + fromRootDir + progDir + userDir + fileName,
      toPath := PathJoinAll(toRootDir, [progDir, userDir, fileName]),
      isBinary := true,
      overwrite := false,
      createDir := true,
      dispStr := progDir + userDir + fileName,
      camName := if i < |camNames| then Some(camNames[i]) else None)
  }

  function CountReal(names: seq<string>): nat
  {
    if names == [] then 0 else (if names[0] == "None" then 0 else 1) + CountReal(names[1..])
  }

  /** One download per file name other than "None", in file order, each
      showing exactly that file's name. */
  lemma {:induction false} BatchForShape(fileNames: seq<string>, i: nat, camNames: seq<string>, host: string,
                                         fromRootDir: string, progDir: string, userDir: string, toRootDir: string)
    requires i <= |fileNames|
    ensures var b := BatchFor(fileNames, i, camNames, host, fromRootDir, progDir, userDir, toRootDir);
            |b| == CountReal(fileNames[i..])
            && forall k :: 0 <= k < |b| ==>
                 exists j :: i <= j < |fileNames| && fileNames[j] != "None"
                             && b[k] == ArgsFor(fileNames[j], j, camNames, host, fromRootDir, progDir, userDir, toRootDir)
    decreases |fileNames| - i
  {
    if i < |fileNames| {
      BatchForShape(fileNames, i + 1, camNames, host, fromRootDir, progDir, userDir, toRootDir);
      assert fileNames[i..][1..] == fileNames[i + 1..];
      var b := BatchFor(fileNames, i, camNames, host, fromRootDir, progDir, userDir, toRootDir);
      var tail := BatchFor(fileNames, i + 1, camNames, host, fromRootDir, progDir, userDir, toRootDir);
      var skip := if fileNames[i] == "None" then 0 else 1;
      assert b[skip..] == tail;
      forall k | 0 <= k < |b|
        ensures exists j :: i <= j < |fileNames| && fileNames[j] != "None"
                            && b[k] == ArgsFor(fileNames[j], j, camNames, host, fromRootDir, progDir, userDir, toRootDir)
      {
        if k < skip {
          assert b[k] == ArgsFor(fileNames[i], i, camNames, host, fromRootDir, progDir, userDir, toRootDir);
        } else {
          assert b[k] == tail[k - skip];
          var j :| i + 1 <= j < |fileNames| && fileNames[j] != "None"
                   && tail[k - skip] == ArgsFor(fileNames[j], j, camNames, host, fromRootDir, progDir, userDir, toRootDir);
        }
      }
    }
  }

  /** Why `_updFiles` ignores a files report (before the "None" names). */
  datatype Verdict = Accept | NotCurrent | NotGenuine | DownloadsOff | BadCmdr | NoHttpRoot | OtherProgram | Collaborator

  /** `_updFiles`'s checks, in the source's order. */
  function Screen(isCurrent: bool, isGenuine: bool, autoGetNum: int, cmdr: string,
                  httpRoot: (Option<string>, Option<string>),
                  myProgID: string, myUsername: string, getCollab: bool): Verdict
  {
    if !isCurrent then NotCurrent
    else if !isGenuine then NotGenuine
    else if autoGetNum == 0 then DownloadsOff
    else if |SplitOn(cmdr, '.')| != 2 then BadCmdr
    else if httpRoot.0.None? || httpRoot.1.None? then NoHttpRoot
    else if myProgID != SplitOn(cmdr, '.')[0] && myProgID != "APO" then OtherProgram
    else if !getCollab && SplitOn(cmdr, '.')[1] != myUsername then Collaborator
    else Accept
  }

  /** Files are queued exactly when the report is current and genuine,
      downloads are on, the hub's http root is known, the program matches
      (or the user is APO) and the files are the user's own or collaborator
      files are wanted. */
  lemma ScreenQueuesExactly(isCurrent: bool, isGenuine: bool, autoGetNum: int, progID: string, username: string,
                            httpRoot: (Option<string>, Option<string>),
                            myProgID: string, myUsername: string, getCollab: bool)
    requires '.' !in progID && '.' !in username
    ensures var cmdr := progID + "." + username;
            Screen(isCurrent, isGenuine, autoGetNum, cmdr, httpRoot, myProgID, myUsername, getCollab) == Accept
            <==> isCurrent && isGenuine && autoGetNum != 0
                 && httpRoot.0.Some? && httpRoot.1.Some?
                 && (myProgID == progID || myProgID == "APO")
                 && (getCollab || username == myUsername)
  {
    var cmdr := progID + "." + username;
    assert cmdr[|progID|] == '.';
    assert '.' in cmdr;
    assert IndexOf(cmdr, '.') == |progID| by {
      assert cmdr[|progID|] == '.';
      assert cmdr[..|progID|] == progID;
    }
    assert cmdr[|progID| + 1..] == username;
    assert SplitOn(username, '.') == [username];
    assert SplitOn(cmdr, '.') == [progID] + SplitOn(username, '.');
  }

  const NoHttpRootMsg := "Cannot download images; hub httpRoot keyword not available"
  const RemoveErrorMsg := "FileGetter internal error: could not remove completed httpGet from activeDownloads"

  class FileGetter {
    var pending: seq<Batch>
    var active: set<nat>
    var started: seq<DownloadArgs>
    /** Messages logged (warnings and internal errors). */
    var log: seq<string>

    function State(): Queue
      reads this
    {
      Queue(pending, active, started)
    }

    ghost predicate Valid()
      reads this
    {
      QueueOk(State())
    }

    constructor ()
      ensures Valid() && State() == Queue([], {}, []) && log == []
    {
      pending, active, started, log := [], {}, [], [];
    }

    /** `_handlePendingDownloads`: `doneNow` holds the numbers of the
        downloads that have finished by now, including any that finish as
        soon as they are started. */
    method HandlePendingDownloads(autoGetNum: int, doneNow: set<nat>)
      requires Valid()
      modifies this`pending, this`active, this`started
      ensures Valid()
      ensures State() == Handle(old(State()), autoGetNum, doneNow)
    {
      ghost var q := State();
      HandleKeepsQueueOk(q, autoGetNum, doneNow);
      if autoGetNum == 0 {
        pending := [];
        return;
      }
      if active != {} {
        var trulyActive := active - doneNow;
        if trulyActive != active {
          active := trulyActive;
        }
        if active != {} {
          return;
        }
      }
      var argList: Batch := [];
      if autoGetNum > 0 {
        if |pending| >= autoGetNum {
          var x := 0;
          while x < autoGetNum - 1
            invariant 0 <= x <= autoGetNum - 1
            invariant pending == q.pending[x..]
            invariant started == q.started && active == {}
          {
            pending := pending[1..];
            x := x + 1;
          }
          argList := pending[0];
          pending := pending[1..];
        }
      } else if pending != [] {
        argList := pending[|pending| - 1];
        pending := [];
      }
      var k := 0;
      ghost var rest := pending;
      assert NewlyActive(|q.started|, 0, doneNow) == {};
      while k < |argList|
        invariant 0 <= k <= |argList|
        invariant pending == rest
        invariant started == q.started + argList[..k]
        invariant active == NewlyActive(|q.started|, k, doneNow)
      {
        var id := |started|;
        started := started + [argList[k]];
        if id !in doneNow {
          active := active + {id};
        }
        assert argList[..k + 1] == argList[..k] + [argList[k]];
        k := k + 1;
      }
      assert argList[..k] == argList;
    }

    /** `_downloadFinished`: forget the finished download (logging an
        internal error if it was not active) and look at the queue again.
        Showing the image in ds9 is not modelled. */
    method DownloadFinished(id: nat, autoGetNum: int, doneNow: set<nat>)
      requires Valid()
      modifies this`pending, this`active, this`started, this`log
      ensures Valid()
      ensures State() == Handle(old(State()).(active := old(active) - {id}), autoGetNum, doneNow)
      ensures log == old(log) + (if id in old(active) then [] else [RemoveErrorMsg])
    {
      if id in active {
        active := active - {id};
      } else {
        log := log + [RemoveErrorMsg];
      }
      HandlePendingDownloads(autoGetNum, doneNow);
    }

    /** `_updFiles` for a `files` report `fileInfo` = (cmdr, host, root
        directory, program directory, user directory, file names...). The
        report's declared value count guarantees the first five fields. A
        cmdr that is not "progID.username" makes the unpacking raise. */
    method UpdFiles(fileInfo: seq<string>, isCurrent: bool, isGenuine: bool, autoGetNum: int,
                    httpRoot: (Option<string>, Option<string>), myProgID: string, myUsername: string,
                    getCollab: bool, toRootDir: string, camNames: seq<string>, doneNow: set<nat>)
      returns (r: Result<()>)
      requires Valid() && |fileInfo| >= 5
      modifies this`pending, this`active, this`started, this`log
      ensures Valid()
      ensures var v := Screen(isCurrent, isGenuine, autoGetNum, fileInfo[0], httpRoot, myProgID, myUsername, getCollab);
              && (v == BadCmdr <==> r.Raise?)
              && (r.Raise? ==> r.exc.ValueError?)
              && (v == DownloadsOff ==> State() == old(State()).(pending := []) && log == old(log))
              && (v == NoHttpRoot ==> State() == old(State()) && log == old(log) + [NoHttpRootMsg])
              && (v != Accept && v != DownloadsOff && v != NoHttpRoot ==> State() == old(State()) && log == old(log))
              && (v == Accept ==>
                    var batch := BatchFor(fileInfo[5..], 0, camNames, httpRoot.0.value, httpRoot.1.value,
                                          fileInfo[3], fileInfo[4], toRootDir);
                    State() == Handle(old(State()).(pending := old(pending) + [batch]), autoGetNum, doneNow))
    {
      r := Ok(());
      if !isCurrent || !isGenuine {
        return;
      }
      if autoGetNum == 0 {
        pending := [];
        return;
      }
      var cmdr, progDir, userDir := fileInfo[0], fileInfo[3], fileInfo[4];
      var parts := SplitOn(cmdr, '.');
      if |parts| != 2 {
        return Raise(ValueError("need exactly one '.' in " + cmdr));
      }
      var progID, username := parts[0], parts[1];
      var fileNames := fileInfo[5..];
      if httpRoot.0.None? || httpRoot.1.None? {
        log := log + [NoHttpRootMsg];
        return;
      }
      var host, fromRootDir := httpRoot.0.value, httpRoot.1.value;
      if myProgID != progID && myProgID != "APO" {
        return;
      }
      if !getCollab && username != myUsername {
        return;
      }
      var argList: Batch := [];
      var ii := 0;
      while ii < |fileNames|
        invariant 0 <= ii <= |fileNames|
        invariant argList + BatchFor(fileNames, ii, camNames, host, fromRootDir, progDir, userDir, toRootDir)
                  == BatchFor(fileNames, 0, camNames, host, fromRootDir, progDir, userDir, toRootDir)
        invariant State() == old(State())
      {
        var fileName := fileNames[ii];
        if fileName != "None" {
          var dispStr := progDir + userDir + fileName;
          var fromURL := "http://" + host + fromRootDir + progDir + userDir + fileName;
          var toPath := PathJoinAll(toRootDir, [progDir, userDir, fileName]);
          var camName: Option<string> := if ii < |camNames| then Some(camNames[ii]) else None;
          if camName.None? {
            log := log + ["More files than known cameras for image " + fileName];
          }
          argList := argList + [DownloadArgs(fromURL, toPath, true, false, true, dispStr, camName)];
        }
        ii := ii + 1;
      }
      assert argList == BatchFor(fileNames, 0, camNames, host, fromRootDir, progDir, userDir, toRootDir);
      assert fileNames == fileInfo[5..];
      assert State() == old(State());
      pending := pending + [argList];
      HandlePendingDownloads(autoGetNum, doneNow);
    }
  }
}
