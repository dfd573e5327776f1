// The Agile exposure window of the development line
// (trunk/TUI/Inst/Agile/AgileWindow.py): the generic exposure command gets
// the camera's gain and read rate and, unless the exposure is a bias, the
// external-sync choice appended.

module AgileWindowTrunk {
  import opened Util

  /** External sync is offered for every exposure type but bias, in any
      letter case. */
  function ExtSyncEnabled(expType: string): bool
  {
    Lower(expType) != "bias"
  }

  /** The answer does not depend on the letter case of the type. */
  lemma ExtSyncIgnoresCase(expType: string)
    ensures ExtSyncEnabled(Lower(expType)) == ExtSyncEnabled(expType)
  {
    LowerIdempotent(expType);
  }

  /** The external-sync words: none while the control is disabled, else
      "extsync=yes" or "extsync=no". */
  function ExtSyncWords(extSync: Option<bool>): (r: seq<string>)
    ensures |r| == if extSync.Some? then 1 else 0
  {
    match extSync
    case None => []
    case Some(on) => ["extsync=" + YesNo(on)]
  }

  function YesNo(on: bool): string
  {
    if on then "yes" else "no"
  }

  /** What `getExpCmdStr` appends: " gain=<gain> readrate=<rate>" in lower
      case and, when `extSync` is present (the control is enabled),
      " extsync=yes|no". */
  function Suffix(gain: string, readRate: string, extSync: Option<bool>): string
  {
    var rates := " gain=" + Lower(gain) + " readrate=" + Lower(readRate);
    if extSync.Some? then rates + " " + ("extsync=" + YesNo(extSync.value)) else rates
  }

  /** `getExpCmdStr`: None when the exposure input has no command; else the
      command followed by the suffix. */
  function ExpCmdStr(base: Option<string>, gain: string, readRate: string, extSync: Option<bool>): (r: Option<string>)
    ensures r.None? <==> base.None?
    ensures r.Some? ==> base.value <= r.value
  {
    match base
    case None => None
    case Some(cmdStr) => Some(cmdStr + Suffix(gain, readRate, extSync))
  }

  /** The suffix is a space and then its words. */
  lemma SuffixWords(gain: string, readRate: string, extSync: Option<bool>)
    ensures Suffix(gain, readRate, extSync)
      == " " + Join(" ", ["gain=" + Lower(gain), "readrate=" + Lower(readRate)] + ExtSyncWords(extSync))
  {
    var lg, lr := Lower(gain), Lower(readRate);
    RatesWords(lg, lr);
    if extSync.Some? {
      var e := "extsync=" + YesNo(extSync.value);
      assert ExtSyncWords(extSync) == [e];
      ExtWords(lg, lr, e);
    } else {
      assert ExtSyncWords(extSync) == [];
      assert ["gain=" + lg, "readrate=" + lr] + [] == ["gain=" + lg, "readrate=" + lr];
    }
  }

  lemma RatesWords(lg: string, lr: string)
    ensures " gain=" + lg + " readrate=" + lr == " " + Join(" ", ["gain=" + lg, "readrate=" + lr])
  {
    JoinTwo("gain=" + lg, "readrate=" + lr);
    Concat4(" ", "gain=", lg, " ", "readrate=", lr);
  }

  lemma ExtWords(lg: string, lr: string, e: string)
    ensures " gain=" + lg + " readrate=" + lr + " " + e
      == " " + Join(" ", ["gain=" + lg, "readrate=" + lr] + [e])
  {
    var g, rr := "gain=" + lg, "readrate=" + lr;
    assert [g, rr] + [e] == [g, rr, e];
    JoinThree(g, rr, e);
    RatesWords(lg, lr);
    JoinTwo(g, rr);
  }

  lemma Concat4(sp: string, a: string, b: string, sp2: string, c: string, d: string)
    ensures sp + a + b + sp2 + c + d == sp + ((a + b) + sp2 + (c + d))
  {
  }

  lemma JoinTwo(a: string, b: string)
    ensures Join(" ", [a, b]) == a + " " + b
  {
    assert [a, b][1..] == [b];
  }

  lemma JoinThree(a: string, b: string, c: string)
    ensures Join(" ", [a, b, c]) == a + " " + b + " " + c
  {
    assert [a, b, c][1..] == [b, c];
    JoinTwo(b, c);
  }

  /** The command's words are the base command's words, then the gain and
      read-rate settings, then the external-sync setting when enabled. */
  lemma ExpCmdWords(cmdStr: string, gain: string, readRate: string, extSync: Option<bool>)
    requires NoSpace(gain) && NoSpace(readRate)
    ensures SplitWS(ExpCmdStr(Some(cmdStr), gain, readRate, extSync).value)
      == SplitWS(cmdStr) + ["gain=" + Lower(gain), "readrate=" + Lower(readRate)] + ExtSyncWords(extSync)
  {
    var words := ["gain=" + Lower(gain), "readrate=" + Lower(readRate)] + ExtSyncWords(extSync);
    assert forall k :: 0 <= k < |words| ==> words[k] != "" && NoSpace(words[k]);
    var tail := Join(" ", words);
    SuffixWords(gain, readRate, extSync);
    SplitWSConcat(cmdStr, " " + tail);
    assert (" " + tail)[1..] == tail;
    SplitWSJoin(words);
  }

  /** The exposure window: the three camera controls and whether the
      external-sync control is enabled. */
  class ExposeWindow {
    var gain: string
    var readRate: string
    var extSync: bool
    var extSyncEnabled: bool

    /** The controls' defaults: gain "Medium", read rate "Fast", external
        sync on. */
    constructor ()
      ensures gain == "Medium" && readRate == "Fast" && extSync && extSyncEnabled
    {
      gain, readRate, extSync, extSyncEnabled := "Medium", "Fast", true, true;
    }

    /** `_agileUpdExpType`: enable external sync for every type but bias. */
    method UpdExpType(expType: string)
      modifies this`extSyncEnabled
      ensures extSyncEnabled == ExtSyncEnabled(expType)
    {
      extSyncEnabled := Lower(expType) != "bias";
    }

    /** `getExpCmdStr`, given the exposure input's command. */
    method GetExpCmdStr(base: Option<string>) returns (r: Option<string>)
      ensures r == ExpCmdStr(base, gain, readRate, if extSyncEnabled then Some(extSync) else None)
    {
      if base.None? {
        return None;
      }
      var suffix := " gain=" + Lower(gain) + " readrate=" + Lower(readRate);
      if extSyncEnabled {
        suffix := suffix + " " + ("extsync=" + YesNo(extSync));
      }
      return Some(base.value + suffix);
    }
  }
}
