// Telescope targets and catalogues (tags/20050824_1.0.1b1/TUI/TCC/TelTarget.py):
// a target is set from the value dictionary of the object-position
// widget, field by field; a catalogue holds targets and a display colour.
// The coordinate-system library, the coordinate conversion and the number
// parsers are parameters.

module TelTarget {
  import opened Util

  // The RO.CoordSys names the target treats specially.
  const Observed := "Observed"
  const Physical := "Physical"
  const Mount := "Mount"
  const Topocentric := "Topocentric"

  /** The default display colour of catalogue objects. */
  const DefColor := "black"

  /** The keys of a value dictionary that a target reads (the rest are kept
      with it and ignored); None is a missing key. */
  datatype ValueDict = ValueDict(objPos: Option<(string, string)>, csys: Option<string>, date: Option<string>,
                                 name: Option<string>, pm: Option<(string, string)>, px: Option<string>,
                                 rv: Option<string>, distance: Option<string>)

  /** The dictionary used when none is given: position ("0", "0"), ICRS,
      date "2000", empty name. */
  const DefaultValueDict := ValueDict(Some(("0", "0")), Some("ICRS"), Some("2000"), Some(""), None, None, None, None)

  /** The foreign conversions `setValueDict` calls; None is a ValueError. */
  datatype Converters = Converters(
    toFloat: string -> Option<real>,                            // Python float()
    floatFromStr: string -> Option<real>,                       // RO.StringUtil.floatFromStr
    posDegFrom: (string, string, string) -> Option<(real, real)>) // posDegFromDispStr of a system

  function BadFloat(s: string): Exc
  {
    ValueError("invalid literal for float(): " + s)
  }

  /** What a target knows; `csysStr` None is the attribute never set. */
  datatype TargetState = TargetState(
    valueDict: ValueDict, name: Option<string>, posStr: Option<(string, string)>,
    dateFloat: Option<real>, dateStr: string,
    csysStr: Option<string>, approxCSys: Option<string>, csysConst: Option<string>,
    posDeg: Option<(real, real)>, pm: seq<real>, parlax: real, radVel: real)

  /** The state of a target whose `setValueDict` has not run yet. */
  const BlankState := TargetState(DefaultValueDict, None, None, None, "", None, None, None, None, [], 0.0, 0.0)

  /** Observed, Physical and Mount are approximated as Topocentric. */
  function ApproxCSys(csys: string): (r: string)
    ensures csys == Observed || csys == Physical || csys == Mount ==> r == Topocentric
    ensures !(csys == Observed || csys == Physical || csys == Mount) ==> r == csys
  {
    if csys == Observed || csys == Physical || csys == Mount then Topocentric else csys
  }

  predicate Given(v: Option<string>)
  {
    v.Some? && v.value != ""
  }

  /** `setValueDict`: the new state and whether it raised.  Fields are set
      in the source's order, so an error leaves the fields after it as they
      were. */
  function SetValueDictState(s: TargetState, valueDict: Option<ValueDict>, cv: Converters): (TargetState, Result<()>)
  {
    var vd := if valueDict.None? then DefaultValueDict else valueDict.value;
    var s1 := s.(valueDict := vd, name := vd.name, posStr := vd.objPos);
    if Given(vd.date) && cv.toFloat(vd.date.value).None? then (s1, Raise(BadFloat(vd.date.value)))
    else
      var s2 := if Given(vd.date) then s1.(dateFloat := cv.toFloat(vd.date.value), dateStr := vd.date.value)
                else s1.(dateFloat := None, dateStr := "");
      if !Given(vd.csys) then (s2.(approxCSys := None, csysConst := None, posDeg := None), Ok(()))
      else
        var approx := ApproxCSys(vd.csys.value);
        var s3 := s2.(csysStr := vd.csys, approxCSys := Some(approx), csysConst := Some(approx));
        if vd.objPos.None? then (s3, Raise(TypeError("argument after * must be a sequence")))
        else
          var posDeg := cv.posDegFrom(approx, vd.objPos.value.0, vd.objPos.value.1);
          if posDeg.None? then (s3, Raise(ValueError("invalid position")))
          else MotionState(s3.(posDeg := posDeg), vd, cv)
  }

  /** The proper motion, parallax and radial velocity steps. */
  function MotionState(s: TargetState, vd: ValueDict, cv: Converters): (TargetState, Result<()>)
  {
    var pmStrs := if vd.pm.Some? then vd.pm.value else ("", "");
    var pm0, pm1 := cv.floatFromStr(pmStrs.0), cv.floatFromStr(pmStrs.1);
    if pm0.None? then (s, Raise(BadFloat(pmStrs.0)))
    else if pm1.None? then (s, Raise(BadFloat(pmStrs.1)))
    else
      var s1 := s.(pm := [pm0.value, pm1.value], parlax := 0.0);
      var px := Parallax(vd, cv);
      if px.Raise? then (s1, Raise(px.exc))
      else
        var s2 := s1.(parlax := px.value);
        var rvStr := if vd.rv.Some? then vd.rv.value else "";
        var rv := cv.floatFromStr(rvStr);
        if rv.None? then (s2, Raise(BadFloat(rvStr)))
        else (s2.(radVel := rv.value), Ok(()))
  }

  /** The parallax: the inverse of a positive distance, 0 for a distance
      that is not positive, and the parallax entry when there is no
      distance. */
  function Parallax(vd: ValueDict, cv: Converters): (r: Result<real>)
    ensures vd.distance.Some? && cv.floatFromStr(vd.distance.value).Some? ==> var d := cv.floatFromStr(vd.distance.value).value;
      r == Ok(if d > 0.0 then 1.0 / d else 0.0)
    ensures vd.distance.None? ==> var pxStr := if vd.px.Some? then vd.px.value else "";
      r == if cv.floatFromStr(pxStr).Some? then Ok(cv.floatFromStr(pxStr).value) else Raise(BadFloat(pxStr))
  {
    if vd.distance.Some? then
      var d := cv.floatFromStr(vd.distance.value);
      if d.None? then Raise(BadFloat(vd.distance.value))
      else if d.value > 0.0 then Ok(1.0 / d.value)
      else Ok(0.0)
    else
      var pxStr := if vd.px.Some? then vd.px.value else "";
      var px := cv.floatFromStr(pxStr);
      if px.None? then Raise(BadFloat(pxStr)) else Ok(px.value)
  }

  /** Without a dictionary the default one is used and recorded, with the
      default name, position and date. */
  lemma NoDictGivesDefaults(s: TargetState, cv: Converters)
    requires cv.toFloat("2000").Some?
    ensures var t := SetValueDictState(s, None, cv).0;
      && t.valueDict == DefaultValueDict && t.name == Some("") && t.posStr == Some(("0", "0"))
      && t.dateStr == "2000" && t.dateFloat == cv.toFloat("2000")
  {
    assert Given(DefaultValueDict.date);
  }

  /** A missing or empty date gives no date. */
  lemma NoDateGivesNone(s: TargetState, vd: ValueDict, cv: Converters)
    requires !Given(vd.date)
    ensures var t := SetValueDictState(s, Some(vd), cv).0;
      t.dateFloat.None? && t.dateStr == ""
  {
  }

  /** A missing or empty coordinate system clears the system and the
      position and stops: nothing after it changes and nothing is raised
      once the date was read. */
  lemma NoCSysStops(s: TargetState, vd: ValueDict, cv: Converters)
    requires !Given(vd.csys)
    requires Given(vd.date) ==> cv.toFloat(vd.date.value).Some?
    ensures var (t, r) := SetValueDictState(s, Some(vd), cv);
      && r == Ok(()) && t.approxCSys.None? && t.csysConst.None? && t.posDeg.None?
      && t.csysStr == s.csysStr && t.pm == s.pm && t.parlax == s.parlax && t.radVel == s.radVel
  {
  }

  /** Once every conversion succeeds, the system is recorded and
      approximated, and the motion fields come from the dictionary (proper
      motion defaulting to ("", "") and radial velocity to ""). */
  lemma FullDictRecorded(s: TargetState, vd: ValueDict, cv: Converters)
    requires Given(vd.date) ==> cv.toFloat(vd.date.value).Some?
    requires Given(vd.csys) && vd.objPos.Some?
    requires cv.posDegFrom(ApproxCSys(vd.csys.value), vd.objPos.value.0, vd.objPos.value.1).Some?
    requires var pmStrs := if vd.pm.Some? then vd.pm.value else ("", "");
      cv.floatFromStr(pmStrs.0).Some? && cv.floatFromStr(pmStrs.1).Some?
    requires Parallax(vd, cv).Ok?
    requires cv.floatFromStr(if vd.rv.Some? then vd.rv.value else "").Some?
    ensures var (t, r) := SetValueDictState(s, Some(vd), cv);
      var pmStrs := if vd.pm.Some? then vd.pm.value else ("", "");
      && r == Ok(())
      && t.csysStr == vd.csys && t.approxCSys == Some(ApproxCSys(vd.csys.value))
      && t.posDeg == cv.posDegFrom(ApproxCSys(vd.csys.value), vd.objPos.value.0, vd.objPos.value.1)
      && t.pm == [cv.floatFromStr(pmStrs.0).value, cv.floatFromStr(pmStrs.1).value]
      && t.parlax == Parallax(vd, cv).value
      && t.radVel == cv.floatFromStr(if vd.rv.Some? then vd.rv.value else "").value
  {
  }

  /** `getAzAlt`: None without a coordinate system; else the topocentric
      position `coordConv` gives for the target's position and motion. */
  function GetAzAlt(s: TargetState, coordConv: TargetState -> (real, real)): (r: Option<(real, real)>)
    ensures r.None? <==> s.csysConst.None?
    ensures r.Some? ==> r.value == coordConv(s)
  {
    if s.csysConst.None? then None else Some(coordConv(s))
  }

  /** The coordinate-system part of `__str__`: the system, then "=" and
      the date when there is one. */
  function CSysPart(csysStr: string, dateStr: string): string
  {
    if dateStr != "" then Join("=", [csysStr, dateStr]) else csysStr
  }

  /** The system and date can be read back from the part when the system
      name has no "=" in it; without a date there is no "=". */
  lemma CSysPartParses(csysStr: string, dateStr: string)
    requires '=' !in csysStr
    ensures dateStr != "" ==> SplitOnce(CSysPart(csysStr, dateStr), '=') == Some((csysStr, dateStr))
    ensures dateStr == "" ==> '=' !in CSysPart(csysStr, dateStr)
  {
    if dateStr != "" {
      assert [csysStr, dateStr][1..] == [dateStr];
      assert Join("=", [csysStr, dateStr]) == csysStr + ['='] + dateStr;
      SplitOnceOf(csysStr, '=', dateStr);
    }
  }

  /** Python's `%r` of the name, which may be None. */
  function ReprName(name: Option<string>): string
  {
    if name.None? then "None" else PyRepr(name.value)
  }

  /** `__str__`: "<repr of name> <pos 1>, <pos 2> <system part>"; an
      AttributeError when no system was ever recorded and a TypeError
      without a position. */
  function TargetString(s: TargetState): (r: Result<string>)
    ensures r.Raise? <==> s.csysStr.None? || s.posStr.None?
    ensures r.Ok? ==> var part := CSysPart(s.csysStr.value, s.dateStr);
      |part| <= |r.value| && r.value[|r.value| - |part|..] == part && ReprName(s.name) + " " <= r.value
  {
    if s.csysStr.None? then Raise(AttributeError("csysStr"))
    else if s.posStr.None? then Raise(TypeError("'NoneType' object is unsubscriptable"))
    else
      var part := CSysPart(s.csysStr.value, s.dateStr);
      var r := ReprName(s.name) + " " + s.posStr.value.0 + ", " + s.posStr.value.1 + " " + part;
      assert r[|r| - |part|..] == part;
      Ok(r)
  }

  /** A target: the fields `setValueDict` sets. */
  class Target {
    var valueDict: ValueDict
    var name: Option<string>
    var posStr: Option<(string, string)>
    var dateFloat: Option<real>
    var dateStr: string
    var csysStr: Option<string>
    var approxCSys: Option<string>
    var csysConst: Option<string>
    var posDeg: Option<(real, real)>
    var pm: seq<real>
    var parlax: real
    var radVel: real

    function State(): TargetState
      reads this
    {
      TargetState(valueDict, name, posStr, dateFloat, dateStr, csysStr, approxCSys, csysConst,
                  posDeg, pm, parlax, radVel)
    }

    /** `__init__`: the blank target, then `setValueDict`. */
    constructor (vd: Option<ValueDict>, cv: Converters)
      ensures State() == SetValueDictState(BlankState, vd, cv).0
    {
      valueDict, name, posStr, dateFloat, dateStr := DefaultValueDict, None, None, None, "";
      csysStr, approxCSys, csysConst, posDeg, pm, parlax, radVel := None, None, None, None, [], 0.0, 0.0;
      new;
      var _ := SetValueDict(vd, cv);
    }

    /** `setValueDict`, step by step. */
    method SetValueDict(vdOpt: Option<ValueDict>, cv: Converters) returns (r: Result<()>)
      modifies this
      ensures (State(), r) == SetValueDictState(old(State()), vdOpt, cv)
    {
      var vd := if vdOpt.None? then DefaultValueDict else vdOpt.value;
      valueDict := vd;
      name := vd.name;
      posStr := vd.objPos;
      if vd.date.Some? && vd.date.value != "" {
        var d := cv.toFloat(vd.date.value);
        if d.None? {
          return Raise(BadFloat(vd.date.value));
        }
        dateFloat := d;
        dateStr := vd.date.value;
      } else {
        dateFloat := None;
        dateStr := "";
      }
      if vd.csys.None? || vd.csys.value == "" {
        approxCSys, csysConst, posDeg := None, None, None;
        return Ok(());
      }
      var csys := vd.csys.value;
      csysStr := Some(csys);
      approxCSys := Some(ApproxCSys(csys));
      csysConst := approxCSys;
      if vd.objPos.None? {
        return Raise(TypeError("argument after * must be a sequence"));
      }
      var pd := cv.posDegFrom(approxCSys.value, vd.objPos.value.0, vd.objPos.value.1);
      if pd.None? {
        return Raise(ValueError("invalid position"));
      }
      posDeg := pd;
      r := SetMotion(vd, cv);
    }

    /** The proper motion, parallax and radial velocity steps of
        `setValueDict`. */
    method SetMotion(vd: ValueDict, cv: Converters) returns (r: Result<()>)
      modifies this
      ensures (State(), r) == MotionState(old(State()), vd, cv)
    {
      var pmStrs := if vd.pm.Some? then vd.pm.value else ("", "");
      var pm0 := cv.floatFromStr(pmStrs.0);
      if pm0.None? {
        return Raise(BadFloat(pmStrs.0));
      }
      var pm1 := cv.floatFromStr(pmStrs.1);
      if pm1.None? {
        return Raise(BadFloat(pmStrs.1));
      }
      pm := [pm0.value, pm1.value];
      parlax := 0.0;
      if vd.distance.Some? {
        var dist := cv.floatFromStr(vd.distance.value);
        if dist.None? {
          return Raise(BadFloat(vd.distance.value));
        }
        if dist.value > 0.0 {
          parlax := 1.0 / dist.value;
        }
      } else {
        var pxStr := if vd.px.Some? then vd.px.value else "";
        var px := cv.floatFromStr(pxStr);
        if px.None? {
          return Raise(BadFloat(pxStr));
        }
        parlax := px.value;
      }
      var rvStr := if vd.rv.Some? then vd.rv.value else "";
      var rv := cv.floatFromStr(rvStr);
      if rv.None? {
        return Raise(BadFloat(rvStr));
      }
      radVel := rv.value;
      r := Ok(());
    }
  }

  // ---------------------------------------------------------- catalog

  /** The display colour a catalogue uses: the default for None or a
      colour Tk does not accept, else the colour asked for. */
  function DispColor(color: Option<string>, colorOK: string -> bool): (r: string)
    ensures r == DefColor <==> color.None? || !colorOK(color.value) || color.value == DefColor
    ensures color.Some? && colorOK(color.value) ==> r == color.value
  {
    if color.None? then DefColor
    else if !colorOK(color.value) then DefColor
    else color.value
  }

  /** A catalogue of targets. */
  class Catalog {
    const name: string
    const objList: seq<Target>
    var dispColor: string
    var doDisplay: bool
    /** How many times the callbacks have been run. */
    var callbacksRun: nat
    /** The warnings written to stderr, oldest first. */
    var stderr: seq<string>

    /** `__init__`: `setDoDisplay` then `setDispColor`; `selfRepr` is the
        catalogue's repr, which the colour warning names. */
    constructor (name: string, objList: seq<Target>, doDisplay: bool, dispColor: Option<string>,
                 colorOK: string -> bool, selfRepr: string)
      ensures this.name == name && this.objList == objList
      ensures this.doDisplay == doDisplay && this.dispColor == DispColor(dispColor, colorOK)
      ensures callbacksRun == 2
      ensures stderr == (if dispColor.Some? && !colorOK(dispColor.value)
        then [ColorWarning(dispColor.value, selfRepr)] else [])
    {
      this.name, this.objList := name, objList;
      this.doDisplay := doDisplay;
      this.dispColor := DispColor(dispColor, colorOK);
      callbacksRun := 2;
      stderr := if dispColor.Some? && !colorOK(dispColor.value)
        then [ColorWarning(dispColor.value, selfRepr)] else [];
    }

    /** `setDispColor`: the colour or the default, with the warning written
        for a colour Tk does not accept; the callbacks run. */
    method SetDispColor(color: Option<string>, colorOK: string -> bool, selfRepr: string)
      returns (warning: Option<string>)
      modifies this`dispColor, this`callbacksRun, this`stderr
      ensures dispColor == DispColor(color, colorOK)
      ensures warning.Some? <==> color.Some? && !colorOK(color.value)
      ensures warning.Some? ==> (warning.value == "Invalid display color " + PyRepr(color.value) + " for "
        + selfRepr + "; using " + PyRepr(DefColor) + "\n")
      ensures stderr == old(stderr) + (if warning.Some? then [warning.value] else [])
      ensures callbacksRun == old(callbacksRun) + 1
    {
      var c := DefColor;
      warning := None;
      if color.Some? {
        if !colorOK(color.value) {
          warning := Some(ColorWarning(color.value, selfRepr));
          stderr := stderr + [warning.value];
        } else {
          c := color.value;
        }
      }
      dispColor := c;
      callbacksRun := callbacksRun + 1;
    }

    /** `setDoDisplay`; the callbacks run. */
    method SetDoDisplay(doDisplay: bool)
      modifies this`doDisplay, this`callbacksRun
      ensures this.doDisplay == doDisplay && callbacksRun == old(callbacksRun) + 1
    {
      this.doDisplay := doDisplay;
      callbacksRun := callbacksRun + 1;
    }
  }

  /** The line `setDispColor` writes to stderr for a colour Tk rejects. */
  function ColorWarning(color: string, selfRepr: string): string
  {
    "Invalid display color " + PyRepr(color) + " for " + selfRepr + "; using " + PyRepr(DefColor) + "\n"
  }

  /** `Catalog(...)`: a RuntimeError when the object list is not a sequence
      (None here; `objRepr` is its repr). */
  method NewCatalog(name: string, objList: Option<seq<Target>>, objRepr: string, doDisplay: bool,
                    dispColor: Option<string>, colorOK: string -> bool, selfRepr: string)
    returns (r: Result<Catalog>)
    ensures r.Raise? <==> objList.None?
    ensures r.Raise? ==> r.exc == RuntimeError("objList=" + objRepr + "; must be a sequence")
    ensures r.Ok? ==> (fresh(r.value) && r.value.objList == objList.value
      && r.value.dispColor == DispColor(dispColor, colorOK) && r.value.doDisplay == doDisplay
      && r.value.stderr == (if dispColor.Some? && !colorOK(dispColor.value)
        then [ColorWarning(dispColor.value, selfRepr)] else []))
  {
    if objList.None? {
      return Raise(RuntimeError("objList=" + objRepr + "; must be a sequence"));
    }
    var c := new Catalog(name, objList.value, doDisplay, dispColor, colorOK, selfRepr);
    return Ok(c);
  }
}
