// RO/Comm/FTPGet.py (tag 20041119_0.931): a background FTP download with an
// integer state code. The socket, the thread and its lock are not modelled:
// the reads the socket returns are a parameter, and an abort() made from
// another thread while the transfer runs is a parameter saying before which
// read it happens.

module FTPGet {
  import opened Util

  // State codes; values <= 0 mean the transfer has finished.
  const Queued: int := 4
  const Connecting: int := 3
  const Running: int := 2
  const Aborting: int := 1
  const Done: int := 0
  const Aborted: int := -1
  const Failed: int := -2

  predicate IsKnownState(s: int)
  {
    s == Queued || s == Connecting || s == Running || s == Aborting
    || s == Done || s == Aborted || s == Failed
  }

  /** `_StateDict`: the name of each known state code. */
  function StateName(s: int): (r: Option<string>)
    ensures r.Some? <==> IsKnownState(s)
  {
    if s == Queued then Some("Queued")
    else if s == Connecting then Some("Connecting")
    else if s == Running then Some("Running")
    else if s == Aborting then Some("Aborting")
    else if s == Done then Some("Done")
    else if s == Aborted then Some("Aborted")
    else if s == Failed then Some("Failed")
    else None
  }

  /** `getStateStr(state)`: the table name, or "Unknown (<code>)". */
  function StateStr(s: int): string
  {
    match StateName(s)
    case Some(name) => name
    case None => "Unknown (" + IntToString(s) + ")"
  }

  /** Different known codes have different names, and no name of a known
      code looks like the "Unknown" text, so the state string identifies the
      state. */
  lemma StateStrIdentifies(s: int, t: int)
    requires StateStr(s) == StateStr(t)
    requires IsKnownState(s) || IsKnownState(t)
    ensures s == t
  {
  }

  lemma UnknownStateStr(s: int)
    requires !IsKnownState(s)
    ensures "Unknown (" <= StateStr(s)
    ensures StateStr(s) == "Unknown (" + IntToString(s) + ")"
  {
  }

  /** `StateStrMaxLen`, the longest state name ("Connecting"). */
  const StateStrMaxLen: nat := 10

  lemma StateStrMaxLenIsMax(s: int)
    requires IsKnownState(s)
    ensures |StateStr(s)| <= StateStrMaxLen
    ensures |StateStr(Connecting)| == StateStrMaxLen
  {
  }

  /** `isDone`: the transfer has finished (succeeded, aborted or failed). */
  predicate IsTerminal(s: int)
  {
    s <= 0
  }

  /** For the known codes, finished means Done, Aborted or Failed. */
  lemma TerminalStates(s: int)
    requires IsKnownState(s)
    ensures IsTerminal(s) <==> (s == Done || s == Aborted || s == Failed)
  {
  }

  /** The state `abort()` leaves behind. */
  function AfterAbort(s: int): int
  {
    if s == Queued then Aborted else if s > 0 then Aborting else s
  }

  /** The state code `_cleanup` records: an unknown code counts as Failed. */
  function CleanupCode(newState: int): (r: int)
    ensures IsKnownState(r)
    ensures IsKnownState(newState) ==> r == newState
  {
    if IsKnownState(newState) then newState else Failed
  }

  /** The state `_cleanup(newState)` leaves behind. */
  function AfterCleanup(s: int, newState: int): int
  {
    if IsTerminal(s) then s else CleanupCode(newState)
  }

  /** Abort never leaves a known state, and from an unfinished one it always
      reaches either Aborted (from Queued) or Aborting, which `_getTask`
      turns into Aborted at its next read. */
  lemma AbortOutcome(s: int)
    requires IsKnownState(s)
    ensures IsKnownState(AfterAbort(s))
    ensures !IsTerminal(s) ==> AfterAbort(s) in {Aborted, Aborting}
    ensures AfterAbort(s) == Aborted <==> s == Queued || s == Aborted
  {
  }

  /** The first terminal state wins: neither abort nor cleanup changes a
      finished transfer, and once cleanup has run the transfer is finished
      whenever the code it was given is a terminal one. */
  lemma TerminalIsFinal(s: int, newState: int)
    ensures IsTerminal(s) ==> AfterAbort(s) == s && AfterCleanup(s, newState) == s
    ensures (!IsTerminal(newState) && IsKnownState(newState) && !IsTerminal(s))
            ==> AfterCleanup(s, newState) == newState
    ensures IsTerminal(newState) || !IsKnownState(newState) ==> IsTerminal(AfterCleanup(s, newState))
  {
  }

  // ------------------------------------------------- the background received

  /** Index of the read that ends the transfer: the first empty read
      (end of file), or the end of the list. */
  function EndIndex(received: seq<seq<bv8>>): (n: nat)
    ensures n <= |received|
    ensures forall i :: 0 <= i < n ==> received[i] != []
    ensures n < |received| ==> received[n] == []
  {
    if received == [] || received[0] == [] then 0 else 1 + EndIndex(received[1..])
  }

  function MinOpt(n: nat, o: Option<nat>): (r: nat)
    ensures r <= n
    ensures o.Some? ==> r <= o.value
    ensures r == n || (o.Some? && r == o.value)
  {
    if o.Some? && o.value < n then o.value else n
  }

  /** How many received `_getTask` writes to the file: it stops at the end of
      file, at the read after an abort, or at the read that fails. */
  function Processed(received: seq<seq<bv8>>, abortAt: Option<nat>, failAt: Option<nat>): (n: nat)
    ensures n <= EndIndex(received) && n <= |received|
  {
    MinOpt(MinOpt(EndIndex(received), abortAt), failAt)
  }

  /** How the read loop ends at read `i`: on the failing read, on the read
      after an abort, at the end of file, or it goes on to the next read. */
  lemma ReadLoopExit(received: seq<seq<bv8>>, abortAt: Option<nat>, failAt: Option<nat>, i: nat)
    requires i <= Processed(received, abortAt, failAt)
    ensures failAt == Some(i) ==> (Processed(received, abortAt, failAt) == i
      && FinalState(received, abortAt, failAt) == Failed)
    ensures failAt != Some(i) && abortAt == Some(i) && i < |received| && received[i] != [] ==>
      (Processed(received, abortAt, failAt) == i && FinalState(received, abortAt, failAt) == Aborted)
    ensures failAt != Some(i) && (i >= |received| || received[i] == []) ==>
      (Processed(received, abortAt, failAt) == i && FinalState(received, abortAt, failAt) == Done)
    ensures failAt != Some(i) && abortAt != Some(i) && i < |received| && received[i] != [] ==>
      i + 1 <= Processed(received, abortAt, failAt)
  {
    var e := EndIndex(received);
    if i < |received| && received[i] != [] {
      assert i < e;
    } else {
      assert i >= e;
    }
  }

  /** The state `_getTask` finishes in, started from Connecting. */
  function FinalState(received: seq<seq<bv8>>, abortAt: Option<nat>, failAt: Option<nat>): int
  {
    var n := Processed(received, abortAt, failAt);
    if failAt == Some(n) then Failed
    else if abortAt == Some(n) && n < EndIndex(received) then Aborted
    else Done
  }

  /** Every run of the transfer finishes; it is Done when nothing aborts
      or fails before the end of file, Failed exactly when the failing read
      comes no later than the end of file and the abort, and Aborted only
      when an abort came before both. */
  lemma FinalStateOutcome(received: seq<seq<bv8>>, abortAt: Option<nat>, failAt: Option<nat>)
    ensures IsTerminal(FinalState(received, abortAt, failAt))
    ensures IsKnownState(FinalState(received, abortAt, failAt))
    ensures abortAt.None? && failAt.None? ==> FinalState(received, abortAt, failAt) == Done
    ensures (FinalState(received, abortAt, failAt) == Failed)
            <==> (failAt.Some? && failAt.value <= EndIndex(received)
                  && (abortAt.None? || failAt.value <= abortAt.value))
    ensures (FinalState(received, abortAt, failAt) == Aborted)
            ==> (abortAt.Some? && abortAt.value < EndIndex(received)
                 && (failAt.None? || abortAt.value < failAt.value))
  {
  }

  function TotalLen(chunks: seq<seq<bv8>>): nat
  {
    if chunks == [] then 0 else TotalLen(chunks[..|chunks| - 1]) + |chunks[|chunks| - 1]|
  }

  function Concat(chunks: seq<seq<bv8>>): (r: seq<bv8>)
  {
    if chunks == [] then [] else Concat(chunks[..|chunks| - 1]) + chunks[|chunks| - 1]
  }

  /** The byte counter and the file contents agree. */
  lemma {:induction false} ConcatLength(chunks: seq<seq<bv8>>)
    ensures |Concat(chunks)| == TotalLen(chunks)
  {
    if chunks != [] {
      ConcatLength(chunks[..|chunks| - 1]);
    }
  }

  class Transfer {
    var state: int
    var readBytes: nat
    var totBytes: Option<nat>
    var exception: Option<string>
    /** What has been written to the output file. */
    var written: seq<bv8>
    /** Whether the output file has been deleted. */
    var removed: bool
    /** How many times the callbacks have been run. */
    var callbacks: nat

    ghost predicate Valid()
      reads this
    {
      IsKnownState(state) && readBytes == |written|
    }

    /** `__init__`: a queued transfer; with `startNow` it is started
        at once, otherwise the callbacks run once. */
    constructor (startNow: bool)
      ensures Valid()
      ensures state == (if startNow then Connecting else Queued)
      ensures readBytes == 0 && totBytes == None && exception == None
      ensures written == [] && !removed
      ensures callbacks == (if startNow then 0 else 1)
    {
      state := if startNow then Connecting else Queued;
      readBytes := 0;
      totBytes := None;
      exception := None;
      written := [];
      removed := false;
      callbacks := if startNow then 0 else 1;
    }

    predicate IsDone()
      reads this
    {
      IsTerminal(state)
    }

    /** `start`: only a queued transfer can be started. */
    method Start() returns (r: Result<()>)
      modifies this
      ensures old(state) == Queued ==> r == Ok(()) && state == Connecting
      ensures old(state) != Queued ==> r.Raise? && r.exc.RuntimeError? && state == old(state)
      ensures readBytes == old(readBytes) && written == old(written) && exception == old(exception)
      ensures removed == old(removed) && callbacks == old(callbacks) && totBytes == old(totBytes)
    {
      if state != Queued {
        return Raise(RuntimeError("state = " + IntToString(state) + " not Queued"));
      }
      state := Connecting;
      r := Ok(());
    }

    /** `abort`: a queued transfer is aborted at once (and the callbacks
        run); a running one is asked to abort; a finished one is left alone. */
    method Abort()
      modifies this`state, this`callbacks
      ensures state == AfterAbort(old(state))
      ensures callbacks == old(callbacks) + (if old(state) == Queued then 1 else 0)
    {
      if state == Queued {
        state := Aborted;
        callbacks := callbacks + 1;
      } else if state > 0 {
        state := Aborting;
      }
    }

    /** `_cleanup`: records the final state unless the transfer has already
        finished; deletes the file on Aborted or Failed and records the
        exception on Failed. */
    method Cleanup(newState: int, exc: Option<string>)
      modifies this`state, this`exception, this`removed, this`callbacks
      ensures state == AfterCleanup(old(state), newState)
      ensures IsTerminal(old(state)) ==>
                exception == old(exception) && removed == old(removed) && callbacks == old(callbacks)
      ensures !IsTerminal(old(state)) ==>
                callbacks == old(callbacks) + 1
                && removed == (old(removed) || state == Aborted || state == Failed)
                && exception == (if state == Failed then exc else old(exception))
    {
      var code := CleanupCode(newState);
      if IsTerminal(state) {
        return;
      }
      state := code;
      if code == Aborted || code == Failed {
        removed := true;
        if code == Failed {
          exception := exc;
        }
      }
      callbacks := callbacks + 1;
    }

    /** `_getTask` once connected: the socket delivers `received` in order;
        `connectError` is an exception raised while preparing the file or
        opening the connection; `failAt`/`err` an exception raised by a
        read; `abortAt` the read before which another thread calls abort().
        The callbacks run once per chunk written and once at the end. */
    method GetTask(received: seq<seq<bv8>>, total: Option<nat>, connectError: Option<string>,
                   abortAt: Option<nat>, failAt: Option<nat>, err: string)
      requires Valid() && state == Connecting
      modifies this
      ensures Valid() && IsDone()
      ensures connectError.Some? ==>
                state == Failed && exception == connectError && removed
                && written == old(written) && totBytes == old(totBytes)
                && callbacks == old(callbacks) + 1
      ensures connectError.None? ==>
                var n := Processed(received, abortAt, failAt);
                state == FinalState(received, abortAt, failAt)
                && written == old(written) + Concat(received[..n])
                && readBytes == old(readBytes) + TotalLen(received[..n])
                && totBytes == total
                && removed == (old(removed) || state != Done)
                && exception == (if state == Failed then Some(err) else old(exception))
                && callbacks == old(callbacks) + n + 1
    {
      if connectError.Some? {
        Cleanup(Failed, connectError);
        return;
      }
      totBytes := total;
      state := Running;
      ghost var startWritten := written;
      ghost var startBytes := readBytes;
      ghost var startRemoved, startExc := removed, exception;
      ghost var startCallbacks := callbacks;
      var i := 0;
      while true
        invariant i <= Processed(received, abortAt, failAt)
        invariant Valid()
        invariant written == startWritten + Concat(received[..i])
        invariant readBytes == startBytes + TotalLen(received[..i])
        invariant totBytes == total && removed == startRemoved && exception == startExc
        invariant callbacks == startCallbacks + i
        invariant state == Running
        decreases |received| - i
      {
        ReadLoopExit(received, abortAt, failAt, i);
        if abortAt == Some(i) {
          Abort();
        }
        if failAt == Some(i) {
          Cleanup(Failed, Some(err));
          return;
        }
        var data: seq<bv8> := if i < |received| then received[i] else [];
        if data == [] {
          break;
        } else if state == Aborting {
          Cleanup(Aborted, None);
          return;
        }
        assert received[..i + 1] == received[..i] + [data];
        assert received[..i + 1][..i] == received[..i];
        ConcatLength(received[..i + 1]);
        readBytes := readBytes + |data|;
        written := written + data;
        callbacks := callbacks + 1;
        i := i + 1;
      }
      Cleanup(Done, None);
    }
  }
}
