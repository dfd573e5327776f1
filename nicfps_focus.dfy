// The NICFPS focus script (tags/20060519_1.2b5/TUI/Scripts/NICFPS/Focus.py):
// a scan of evenly spaced focus positions, one set of exposures at each,
// optionally followed by a move to the best focus, with backlash
// compensation before the first position and before the final move.

module NicfpsFocus {
  import opened Util

  const InstName := "NICFPS"
  /** The default focus range around the current focus (microns). */
  const DefDeltaFoc: int := 200
  /** The backlash compensation (microns; 0 would mean none). */
  const BacklashComp: int := 1000
  /** The centroid search radius (pixels). */
  const SearchRad: int := 50

  // --------------------------------------------------------- increment

  /** `updFocusIncr`: no increment (shown as not current) while any entry
      is blank; else (end - start) / (n - 1) in Python 2 integer division,
      which rounds towards minus infinity and fails for one position. */
  function FocusIncr(startPos: Option<int>, endPos: Option<int>, numPos: Option<int>): (r: Result<Option<int>>)
    ensures r == Ok(None) <==> startPos.None? || endPos.None? || numPos.None?
    ensures r.Raise? <==> startPos.Some? && endPos.Some? && numPos == Some(1)
    ensures r.Raise? ==> r.exc == ZeroDivisionError
    ensures r.Ok? && r.value.Some? && numPos.value > 1 ==> var inc, span, steps := r.value.value,
        endPos.value - startPos.value, numPos.value - 1;
      inc * steps <= span < inc * steps + steps
  {
    if startPos.None? || endPos.None? || numPos.None? then Ok(None)
    else if numPos.value - 1 == 0 then Raise(ZeroDivisionError)
    else Ok(Some(FloorDiv(endPos.value - startPos.value, numPos.value - 1)))
  }

  /** The scan's last position is never past the end position and falls
      short of it by less than the number of steps. */
  lemma LastPositionNearEnd(startPos: int, endPos: int, numPos: int)
    requires numPos >= 2
    ensures var r := FocusIncr(Some(startPos), Some(endPos), Some(numPos));
      && r.Ok? && r.value.Some?
      && var last := startPos + (numPos - 1) * r.value.value;
      && last <= endPos < last + (numPos - 1)
  {
    var inc := FocusIncr(Some(startPos), Some(endPos), Some(numPos)).value.value;
    assert (numPos - 1) * inc == inc * (numPos - 1);
  }

  /** `setDefFocus`: start and end bracket the current focus by half the
      default range on either side. */
  function DefFocus(currFocus: real): (r: (real, real))
    ensures r.1 - r.0 == DefDeltaFoc as real
    ensures r.0 + r.1 == 2.0 * currFocus
  {
    (currFocus - (DefDeltaFoc / 2) as real, currFocus + (DefDeltaFoc / 2) as real)
  }

  // ----------------------------------------------------------- moves

  /** The parameters `run` records from its entries. */
  datatype FocusParams = FocusParams(startFocPos: int, endFocPos: int, numFocPos: int, incFocus: int,
                                     numExpPerFoc: int, moveBest: bool)

  /** One focus move and its exposure sequence: the backlash position
      visited first (if any), the focus position, and the exposure
      numbers the expose command announces. */
  datatype FocusMove = FocusMove(backlashPos: Option<int>, focPos: int, startNum: int, totNum: int)

  /** The focus direction: towards larger positions. */
  function FocDir(p: FocusParams): bool
  {
    p.endFocPos > p.startFocPos
  }

  /** The number of exposures the whole run announces. */
  function TotNumExp(p: FocusParams): int
  {
    (if p.moveBest then p.numFocPos + 1 else p.numFocPos) * p.numExpPerFoc
  }

  /** The backlash position as written: the direction flag is a boolean,
      so it counts 1 when focusing upwards and 0 when focusing downwards. */
  function BacklashPosAsWritten(focPos: int, focDir: bool): int
  {
    focPos - BacklashComp * (if focDir then 1 else 0)
  }

  /** For a downward scan the as-written backlash position is the focus
      position itself: the compensating move does nothing. */
  lemma BacklashAsWrittenSkipsDownward(focPos: int)
    ensures BacklashPosAsWritten(focPos, false) == focPos
    ensures BacklashPos(focPos, false) == focPos + BacklashComp
  {
  }

  /** The backlash position with the direction as a sign: behind the
      focus position, as seen in the direction of the scan. */
  function BacklashPos(focPos: int, focDir: bool): int
  {
    focPos - BacklashComp * (if focDir then 1 else -1)
  }

  /** The move from the backlash position to the focus position goes in the
      scan's direction, by the full compensation. */
  lemma BacklashApproachesInScanDirection(focPos: int, startPos: int, endPos: int)
    requires startPos != endPos
    ensures var d := focPos - BacklashPos(focPos, endPos > startPos);
      (d > 0 <==> endPos > startPos) && (d == BacklashComp || d == -BacklashComp)
  {
  }

  /** `doBacklashComp and BacklashComp`: compensate only when asked and
      when there is compensation to do, at the position the script as
      written computes. */
  function Backlash(doBacklashComp: bool, focPos: int, focDir: bool): (r: Option<int>)
  {
    if doBacklashComp && BacklashComp != 0 then Some(BacklashPosAsWritten(focPos, focDir)) else None
  }

  /** The move at scan position `k`, after `k` sets of exposures. */
  function ScanMove(p: FocusParams, k: nat): FocusMove
  {
    var numExpTaken := k * p.numExpPerFoc;
    var focPos := p.startFocPos + k * p.incFocus;
    FocusMove(Backlash(numExpTaken == 0, focPos, FocDir(p)), focPos, numExpTaken + 1, TotNumExp(p))
  }

  /** The move to the best focus after the scan, always compensated. */
  function FinalMove(p: FocusParams, finalFocPos: int): FocusMove
  {
    var numExpTaken := p.numFocPos * p.numExpPerFoc;
    FocusMove(Backlash(true, finalFocPos, FocDir(p)), finalFocPos, numExpTaken + 1, numExpTaken + p.numExpPerFoc)
  }

  /** The moves of one run: the scan, then the move to best focus when
      asked for. */
  function Moves(p: FocusParams, finalFocPos: int): seq<FocusMove>
    requires p.numFocPos >= 0
  {
    seq(p.numFocPos, k requires 0 <= k < p.numFocPos => ScanMove(p, k))
      + (if p.moveBest then [FinalMove(p, finalFocPos)] else [])
  }

  /** The exposures are numbered 1, 2, ... without gap or overlap: the first
      move starts at 1, each next one where the previous one's exposures
      end, every move announces the same total, and the last one's
      exposures end exactly at that total. */
  lemma {:induction false} MovesNumbering(p: FocusParams, finalFocPos: int)
    requires p.numFocPos >= 2
    ensures var ms := Moves(p, finalFocPos);
      && ms[0].startNum == 1
      && (forall k :: 0 <= k < |ms| - 1 ==> ms[k + 1].startNum == ms[k].startNum + p.numExpPerFoc)
      && (forall k :: 0 <= k < |ms| ==> ms[k].totNum == TotNumExp(p))
      && ms[|ms| - 1].startNum + p.numExpPerFoc - 1 == TotNumExp(p)
  {
    var ms := Moves(p, finalFocPos);
    var n, e := p.numFocPos, p.numExpPerFoc;
    forall k | 0 <= k < |ms| - 1
      ensures ms[k + 1].startNum == ms[k].startNum + e
    {
      assert ms[k] == ScanMove(p, k);
      assert (k + 1) * e == k * e + e;
    }
    if p.moveBest {
      assert ms[n] == FinalMove(p, finalFocPos);
      assert n * e + e == (n + 1) * e;
    } else {
      assert ms[n - 1] == ScanMove(p, n - 1);
      assert (n - 1) * e + e == n * e;
    }
  }

  /** With at least one exposure per position, only the first scan position
      and the move to best focus are backlash compensated. */
  lemma {:induction false} MovesBacklash(p: FocusParams, finalFocPos: int)
    requires p.numFocPos >= 2 && p.numExpPerFoc >= 1
    ensures var ms := Moves(p, finalFocPos);
      forall k :: 0 <= k < |ms| ==> (ms[k].backlashPos.Some? <==> k == 0 || (p.moveBest && k == p.numFocPos))
  {
    var ms := Moves(p, finalFocPos);
    forall k | 0 <= k < |ms|
      ensures ms[k].backlashPos.Some? <==> k == 0 || (p.moveBest && k == p.numFocPos)
    {
      if k < p.numFocPos {
        assert ms[k] == ScanMove(p, k);
        if k > 0 {
          assert k * p.numExpPerFoc >= p.numExpPerFoc;
        }
      }
    }
  }

  /** The script's compensated moves as written: on an upward scan the
      backlash move goes the full compensation below the focus position; on
      a downward scan it goes to the focus position itself. */
  lemma {:induction false} MovesBacklashAsWritten(p: FocusParams, finalFocPos: int)
    requires p.numFocPos >= 0
    ensures var ms := Moves(p, finalFocPos);
      forall k :: 0 <= k < |ms| && ms[k].backlashPos.Some? ==>
        ms[k].backlashPos.value == if FocDir(p) then ms[k].focPos - BacklashComp else ms[k].focPos
  {
    var ms := Moves(p, finalFocPos);
    forall k | 0 <= k < |ms| && ms[k].backlashPos.Some?
      ensures ms[k].backlashPos.value == if FocDir(p) then ms[k].focPos - BacklashComp else ms[k].focPos
    {
      if k < p.numFocPos {
        assert ms[k] == ScanMove(p, k);
      } else {
        assert ms[k] == FinalMove(p, finalFocPos);
      }
    }
  }

  // -------------------------------------------------------- commands

  function SetFocusCmd(focPos: int): WaitCmd
  {
    WaitCmd("tcc", "set focus=" + IntToString(focPos))
  }

  /** "<prefix> startNum=<n> totNum=<m>". */
  function ExpCmdStr(expCmdPrefix: string, startNum: int, totNum: int): string
  {
    expCmdPrefix + " startNum=" + IntToString(startNum) + " totNum=" + IntToString(totNum)
  }

  /** The exposure file's path: components 2 to 5 of the files keyword,
      concatenated; the short path leaves out the root (component 2). */
  function FilePath(fileComponents: seq<string>): string
  {
    Join("", PySlice(fileComponents, 2, 6))
  }

  function ShortFilePath(fileComponents: seq<string>): string
  {
    Join("", PySlice(fileComponents, 3, 6))
  }

  /** The full path is the root followed by the short path. */
  lemma FilePathIsRootAndShortPath(fileComponents: seq<string>)
    requires |fileComponents| >= 3
    ensures FilePath(fileComponents) == fileComponents[2] + ShortFilePath(fileComponents)
  {
    var full := PySlice(fileComponents, 2, 6);
    var short := PySlice(fileComponents, 3, 6);
    assert full == [fileComponents[2]] + short;
    assert full[1..] == short;
    if short == [] {
      assert FilePath(fileComponents) == fileComponents[2];
    }
  }

  function CentroidCmd(fileComponents: seq<string>, starXPos: int, starYPos: int): WaitCmd
  {
    WaitCmd("nfocus", "centroid file=" + FilePath(fileComponents) + " on=" + IntToString(starXPos) + ","
      + IntToString(starYPos) + " radius=" + IntToString(SearchRad))
  }

  /** `waitSetFocus`: the commands of one move, in order: the backlash
      focus move if any, the focus move, the exposures, the centroid. */
  function MoveCmds(m: FocusMove, expCmdPrefix: string, expActor: string, fileComponents: seq<string>,
                    starXPos: int, starYPos: int): (r: seq<WaitCmd>)
    ensures |r| == if m.backlashPos.Some? then 4 else 3
    ensures r[|r| - 3] == SetFocusCmd(m.focPos)
    ensures m.backlashPos.Some? ==> r[0] == SetFocusCmd(m.backlashPos.value)
    ensures r[|r| - 2] == WaitCmd(expActor, ExpCmdStr(expCmdPrefix, m.startNum, m.totNum))
  {
    (if m.backlashPos.Some? then [SetFocusCmd(m.backlashPos.value)] else [])
      + [SetFocusCmd(m.focPos), WaitCmd(expActor, ExpCmdStr(expCmdPrefix, m.startNum, m.totNum)),
         CentroidCmd(fileComponents, starXPos, starYPos)]
  }

  /** The focus a focus command sets is read back from its text. */
  lemma SetFocusCmdParses(focPos: int)
    ensures var c := SetFocusCmd(focPos).cmdStr;
      |c| > 10 && c[..10] == "set focus=" && PyInt(c[10..]) == Some(focPos)
  {
    var c := SetFocusCmd(focPos).cmdStr;
    assert c[10..] == IntToString(focPos);
    PyIntOfIntToString(focPos);
  }

  /** The command `end` uses to restore the Fowler sample count. */
  function RestoreFowlerCmd(nfs: int): WaitCmd
  {
    WaitCmd("nicfps", "fowler nfs=" + IntToString(nfs))
  }

  /** The restored count is read back from the command. */
  lemma RestoreFowlerCmdParses(nfs: int)
    ensures var c := RestoreFowlerCmd(nfs).cmdStr;
      |c| > 11 && c[..11] == "fowler nfs=" && PyInt(c[11..]) == Some(nfs)
  {
    var c := RestoreFowlerCmd(nfs).cmdStr;
    assert c[11..] == IntToString(nfs);
    PyIntOfIntToString(nfs);
  }

  /** The instrument check of `run`: the current instrument's name must
      start with "NICFPS", in any letter case. */
  predicate IsCurrentInst(currInstName: string)
  {
    Lower(InstName) <= Lower(currInstName)
  }

  // ------------------------------------------------------------ script

  /** The values `run` passes to `waitSetFocus` and `end`. */
  class FocusScript {
    var currNFS: Option<int>
    var focDir: Option<bool>

    constructor ()
      ensures currNFS.None? && focDir.None?
    {
      currNFS, focDir := None, None;
    }

    /** `run` up to its commands: outside debug mode the instrument must be
        NICFPS and the Fowler sample count is recorded; fewer than two
        positions is refused; else the scan's moves are made in turn,
        counting the exposures taken, then the move to best focus. */
    method Run(debug: bool, currInstName: string, fowlerSamples: Option<int>, p: FocusParams, finalFocPos: int)
      returns (r: Result<seq<FocusMove>>)
      modifies this
      ensures !debug && !IsCurrentInst(currInstName) ==> (r == Raise(ScriptError(
        InstName + " is not the current instrument (" + currInstName + ")!"))
        && currNFS == old(currNFS) && focDir == old(focDir))
      ensures !(!debug && !IsCurrentInst(currInstName)) ==> currNFS == (if debug then old(currNFS) else fowlerSamples)
      ensures !(!debug && !IsCurrentInst(currInstName)) && p.numFocPos < 2 ==> (r == Raise(ScriptError("# Focus Positions < 2"))
        && focDir == old(focDir))
      ensures !(!debug && !IsCurrentInst(currInstName)) && p.numFocPos >= 2 ==> (r == Ok(Moves(p, finalFocPos))
        && focDir == Some(FocDir(p)))
    {
      if !debug {
        if !(Lower(InstName) <= Lower(currInstName)) {
          return Raise(ScriptError(InstName + " is not the current instrument (" + currInstName + ")!"));
        }
        currNFS := fowlerSamples;
      }
      if p.numFocPos < 2 {
        return Raise(ScriptError("# Focus Positions < 2"));
      }
      focDir := Some(p.endFocPos > p.startFocPos);
      var moves: seq<FocusMove> := [];
      var numExpTaken := 0;
      var focNum := 0;
      while focNum < p.numFocPos
        invariant 0 <= focNum <= p.numFocPos
        invariant numExpTaken == focNum * p.numExpPerFoc
        invariant moves == seq(focNum, k requires 0 <= k < focNum => ScanMove(p, k))
      {
        var focPos := p.startFocPos + focNum * p.incFocus;
        var totFocPos := if p.moveBest then p.numFocPos + 1 else p.numFocPos;
        var totNumExp := totFocPos * p.numExpPerFoc;
        var startNum := numExpTaken + 1;
        var doBacklashComp := numExpTaken == 0;
        moves := moves + [FocusMove(Backlash(doBacklashComp, focPos, p.endFocPos > p.startFocPos),
                                    focPos, startNum, totNumExp)];
        assert moves[focNum] == ScanMove(p, focNum);
        assert (focNum + 1) * p.numExpPerFoc == focNum * p.numExpPerFoc + p.numExpPerFoc;
        numExpTaken := numExpTaken + p.numExpPerFoc;
        focNum := focNum + 1;
      }
      var scan := seq(p.numFocPos, k requires 0 <= k < p.numFocPos => ScanMove(p, k));
      assert moves == scan;
      if p.moveBest {
        var totNum := numExpTaken + p.numExpPerFoc;
        var startNum := numExpTaken + 1;
        moves := moves + [FocusMove(Backlash(true, finalFocPos, p.endFocPos > p.startFocPos),
                                    finalFocPos, startNum, totNum)];
        assert moves == scan + [FinalMove(p, finalFocPos)];
      } else {
        assert moves == scan + [];
      }
      r := Ok(moves);
    }

    /** `end`: restore the Fowler sample count only if one was recorded. */
    method End() returns (r: Option<WaitCmd>)
      ensures r.None? <==> currNFS.None?
      ensures currNFS.Some? ==> r == Some(RestoreFowlerCmd(currNFS.value))
    {
      if currNFS.None? {
        return None;
      }
      return Some(WaitCmd("nicfps", "fowler nfs=" + IntToString(currNFS.value)));
    }
  }
}
