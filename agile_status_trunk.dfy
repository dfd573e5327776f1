// TUI/Inst/Agile/StatusConfigInputWdg.py (trunk): the later Agile
// environment display. The temperature, GPS and NTP rules are those of tag
// 1.6 (module AgileStatusOld); what changed is the camera connection
// (no "Connection " prefix), the state-set entries (which now carry
// currency), the summary (any first entry is shown, whatever its
// severity), and the filter controls.

module AgileStatusTrunk {
  import opened Util
  import Old = AgileStatusOld

  const DevCamera := "Camera"
  const DevCCDTemp := "CCD Temp"
  const DevCCDSetTemp := "CCD Set Temp"
  const DevGPSSynced := "GPS Synced"
  const DevNTPStatus := "NTP Status"
  const DevNames: seq<string> := [DevCamera, DevCCDTemp, DevCCDSetTemp, DevGPSSynced, DevNTPStatus]

  /** An entry of the environment state set. */
  datatype EnvState = EnvState(isCurrent: bool, severity: Severity, stateStr: string)

  /** `_updCameraConnState`: an empty state shows as "?"; only "connected"
      (any case) is normal. */
  function CameraConnState(stateStr: string): (string, Severity)
  {
    var s := if stateStr == "" then "?" else stateStr;
    (s, if Lower(s) == "connected" then Normal else Warning)
  }

  /** Unlike tag 1.6, a failing state is shown as it is. */
  lemma CameraConnStateCases(stateStr: string)
    ensures CameraConnState(stateStr).1 == Normal <==> Lower(stateStr) == "connected"
    ensures stateStr != "" ==> CameraConnState(stateStr).0 == stateStr
    ensures stateStr == "" ==> CameraConnState(stateStr) == ("?", Warning)
    ensures Contains(Lower(stateStr), "fail") ==>
              CameraConnState(stateStr).0 == stateStr && Old.ConnState(stateStr).0 == "Connection " + stateStr
  {
    assert Lower("?") == "?" && "?" != "connected";
    Old.ConnStateCases(stateStr);
  }

  /** `_updEnvironStateSet`: "OK" (current, normal) when there is no entry,
      else the first entry as "name: state", with its currency and
      severity. */
  function Summary(first: Option<(string, EnvState)>): (r: Old.Label)
  {
    if first.None? then Old.Label("OK", true, Normal)
    else Old.Label(first.value.0 + ": " + first.value.1.stateStr, first.value.1.isCurrent, first.value.1.severity)
  }

  /** Only an empty state set gives "OK"; a normal but not current entry is
      now shown, where tag 1.6 showed "OK". */
  lemma SummaryCases(first: Option<(string, EnvState)>)
    ensures Summary(first).text == "OK" <==> first.None?
    ensures first.Some? ==> Summary(first).severity == first.value.1.severity
                            && Summary(first).isCurrent == first.value.1.isCurrent
    ensures first.Some? && first.value.1.severity == Normal ==>
              Old.Summary(Some((first.value.0, Old.EnvState(Normal, first.value.1.stateStr)))).text == "OK"
  {
    if first.Some? {
      var t := first.value.0 + ": " + first.value.1.stateStr;
      assert t[|first.value.0|] == ':' && ':' !in "OK";
    }
  }

  /** `_updFilter`: "unknown" (any case) is an error and clears the
      default; otherwise the name is the default. */
  function FilterState(filterName: Option<string>): (r: (Severity, Option<string>))
  {
    if filterName.Some? && Lower(filterName.value) == "unknown" then (Error, None) else (Normal, filterName)
  }

  lemma FilterStateCases(filterName: Option<string>)
    ensures FilterState(filterName).0 == Error <==> filterName.Some? && Lower(filterName.value) == "unknown"
    ensures FilterState(filterName).0 == Normal ==> FilterState(filterName).1 == filterName
    ensures FilterState(filterName).0 == Error ==> FilterState(filterName).1 == None
  {
  }

  /** The longest name (0 for none). */
  function MaxLen(names: seq<string>): (m: nat)
    ensures forall k :: 0 <= k < |names| ==> |names[k]| <= m
    ensures names != [] ==> exists k :: 0 <= k < |names| && |names[k]| == m
  {
    if names == [] then 0
    else
      var rest := MaxLen(names[1..]);
      assert forall k :: 1 <= k < |names| ==> names[k] == names[1..][k - 1];
      if |names[0]| >= rest then |names[0]| else rest
  }

  /** The names of a filter-names list, when it is non-empty and has no None. */
  function AllNames(filterNames: seq<Option<string>>): (r: Option<seq<string>>)
    ensures r.Some? <==> filterNames != [] && forall k :: 0 <= k < |filterNames| ==> filterNames[k].Some?
    ensures r.Some? ==> |r.value| == |filterNames|
                        && forall k :: 0 <= k < |filterNames| ==> filterNames[k] == Some(r.value[k])
  {
    if filterNames == [] || exists k :: 0 <= k < |filterNames| && filterNames[k].None? then None
    else Some(seq(|filterNames|, k requires 0 <= k < |filterNames| => filterNames[k].value))
  }

  class StatusWdg {
    var cameraConn: Old.Label
    var ccdTemp: Old.Label
    var ccdSetTemp: Old.Label
    var gpsSynced: Old.Label
    var ntp: seq<Old.Label>
    var limits: seq<Old.LimitWdg>
    var summary: Old.Label
    var env: map<string, EnvState>
    /** The current-filter label and the filter menu's default and items. */
    var filterCurr: Option<string>
    var filterCurrSev: Severity
    var filterCurrWidth: nat
    var filterDefault: Option<string>
    var filterItems: seq<string>
    /** Whether the filter timer is shown (instead of the current filter). */
    var timerShown: bool

    ghost predicate Valid()
      reads this
    {
      |ntp| == 3 && |limits| == 4 && (forall n :: n in env ==> n in DevNames)
    }

    constructor ()
      ensures Valid() && env == map[] && !timerShown
    {
      var blank := Old.Label("", true, Normal);
      cameraConn, ccdTemp, ccdSetTemp, gpsSynced := blank, blank, blank, blank;
      ntp := [blank, blank, blank];
      limits := [Old.LimitWdg(true, 0.0), Old.LimitWdg(true, 0.0), Old.LimitWdg(true, 0.0), Old.LimitWdg(true, 0.0)];
      summary := blank;
      env := map[];
      filterCurr, filterCurrSev, filterCurrWidth, filterDefault, filterItems := None, Normal, 0, None, [];
      timerShown := false;
    }

    method UpdCameraConnState(stateStr: string, isCurrent: bool)
      requires Valid()
      modifies this`cameraConn, this`env
      ensures Valid()
      ensures cameraConn == Old.Label(CameraConnState(stateStr).0, isCurrent, CameraConnState(stateStr).1)
      ensures env == old(env)[DevCamera := EnvState(isCurrent, CameraConnState(stateStr).1, CameraConnState(stateStr).0)]
    {
      var s := if stateStr == "" then "?" else stateStr;
      var severity := if Lower(s) == "connected" then Normal else Warning;
      cameraConn := Old.Label(s, isCurrent, severity);
      env := env[DevCamera := EnvState(isCurrent, severity, s)];
    }

    /** `_updCCDTemp`: the entry is cleared when current and normal. */
    method UpdCCDTemp(temp: Option<real>, status: Option<string>, isCurrent: bool, fmt1: real -> string)
      requires Valid()
      modifies this`ccdTemp, this`env
      ensures Valid()
      ensures var (s, sev) := Old.TempText(temp, status, fmt1);
              ccdTemp == Old.Label(s, isCurrent, sev)
              && env == (if Old.ClearsEnv(isCurrent, sev) then old(env) - {DevCCDTemp}
                         else old(env)[DevCCDTemp := EnvState(isCurrent, sev, s)])
    {
      var (s, sev) := Old.TempText(temp, status, fmt1);
      ccdTemp := Old.Label(s, isCurrent, sev);
      if !isCurrent || sev != Normal {
        env := env[DevCCDTemp := EnvState(isCurrent, sev, s)];
      } else {
        env := env - {DevCCDTemp};
      }
    }

    method UpdCCDSetTemp(temp: Option<real>, status: Option<string>, isCurrent: bool, fmt1: real -> string)
      requires Valid()
      modifies this`ccdSetTemp, this`env
      ensures Valid()
      ensures var (s, sev) := Old.TempText(temp, status, fmt1);
              ccdSetTemp == Old.Label(s, isCurrent, sev)
              && env == (if Old.ClearsEnv(isCurrent, sev) then old(env) - {DevCCDSetTemp}
                         else old(env)[DevCCDSetTemp := EnvState(isCurrent, sev, s)])
    {
      var (s, sev) := Old.TempText(temp, status, fmt1);
      ccdSetTemp := Old.Label(s, isCurrent, sev);
      if !isCurrent || sev != Normal {
        env := env[DevCCDSetTemp := EnvState(isCurrent, sev, s)];
      } else {
        env := env - {DevCCDSetTemp};
      }
    }

    /** `_updCCDTempLimits`: the same loop as in tag 1.6. */
    method UpdCCDTempLimits(tempLimits: seq<Option<real>>)
      requires Valid() && |tempLimits| >= 4
      modifies this`limits
      ensures Valid()
      ensures forall ind :: 0 <= ind < 4 ==> limits[ind] == Old.LimitAfter(old(limits)[ind], ind, tempLimits[ind])
    {
      var ind := 0;
      while ind < |limits|
        invariant 0 <= ind <= 4 && |limits| == 4
        invariant forall j :: 0 <= j < ind ==> limits[j] == Old.LimitAfter(old(limits)[j], j, tempLimits[j])
        invariant forall j :: ind <= j < 4 ==> limits[j] == old(limits)[j]
      {
        var tempLimit := tempLimits[ind];
        if tempLimit.None? {
          limits := limits[ind := limits[ind].(shown := false)];
        } else {
          var a := if tempLimit.value < 0.0 then -tempLimit.value else tempLimit.value;
          if ind % 2 == 0 {
            a := -a;
          }
          limits := limits[ind := Old.LimitWdg(true, a)];
        }
        ind := ind + 1;
      }
    }

    method UpdGPSSynced(synced: Option<bool>, isCurrent: bool)
      requires Valid()
      modifies this`gpsSynced, this`env
      ensures Valid()
      ensures var (sev, s) := Old.GPSSynced(synced);
              gpsSynced == Old.Label(s, isCurrent, sev)
              && env == (if Old.ClearsEnv(isCurrent, sev) then old(env) - {DevGPSSynced}
                         else old(env)[DevGPSSynced := EnvState(isCurrent, sev, s)])
    {
      var (sev, s) := Old.GPSSynced(synced);
      gpsSynced := Old.Label(s, isCurrent, sev);
      if sev == Normal && isCurrent {
        env := env - {DevGPSSynced};
      } else {
        env := env[DevGPSSynced := EnvState(isCurrent, sev, s)];
      }
    }

    method UpdNTPStatus(isRunning: Option<bool>, server: Option<string>, stratum: Option<string>, isCurrent: bool)
      requires Valid()
      modifies this`ntp, this`env
      ensures Valid()
      ensures var sev := Old.NTPSeverity(isRunning, server, stratum);
              ntp == [Old.Label(Old.NTPRunningStr(isRunning), isCurrent, sev),
                      Old.Label(Old.NTPServerStr(server), isCurrent, sev),
                      Old.Label(if stratum.Some? then stratum.value else "?", isCurrent, sev)]
              && env == (if Old.ClearsEnv(isCurrent, sev) then old(env) - {DevNTPStatus}
                         else old(env)[DevNTPStatus := EnvState(isCurrent, sev, Old.NTPStateStr(isRunning, server, stratum))])
    {
      var severity := Old.NTPSeverity(isRunning, server, stratum);
      var isRunningStr := Old.NTPRunningStr(isRunning);
      var serverStr := Old.NTPServerStr(server);
      var stratumStr := if stratum.Some? then stratum.value else "?";
      ntp := [Old.Label(isRunningStr, isCurrent, severity), Old.Label(serverStr, isCurrent, severity),
              Old.Label(stratumStr, isCurrent, severity)];
      if severity == Normal && isCurrent {
        env := env - {DevNTPStatus};
      } else {
        env := env[DevNTPStatus := EnvState(isCurrent, severity, isRunningStr + " " + serverStr + " " + stratumStr)];
      }
    }

    /** `_updEnvironStateSet`, given the state set's first entry. */
    method UpdEnvironStateSet(first: Option<string>)
      requires Valid() && (first.Some? ==> first.value in env)
      modifies this`summary
      ensures summary == Summary(if first.None? then None else Some((first.value, env[first.value])))
    {
      if first.None? {
        summary := Old.Label("OK", true, Normal);
      } else {
        var st := env[first.value];
        summary := Old.Label(first.value + ": " + st.stateStr, st.isCurrent, st.severity);
      }
    }

    /** `_updFilter`: shows the current filter (hiding the timer) and sets
        the menu default. */
    method UpdFilter(filterName: Option<string>)
      modifies this`timerShown, this`filterCurr, this`filterCurrSev, this`filterDefault
      ensures !timerShown && filterCurr == filterName
      ensures (filterCurrSev, filterDefault) == FilterState(filterName)
    {
      timerShown := false;
      if filterName.Some? && Lower(filterName.value) == "unknown" {
        filterCurrSev := Error;
        filterDefault := None;
      } else {
        filterCurrSev := Normal;
        filterDefault := filterName;
      }
      filterCurr := filterName;
    }

    /** `_updFilterNames`: an empty list or one holding None is ignored;
        otherwise the names become the menu items and the label is as wide
        as the longest name, and at least 3. */
    method UpdFilterNames(filterNames: seq<Option<string>>)
      modifies this`filterItems, this`filterCurrWidth
      ensures AllNames(filterNames).None? ==> filterItems == old(filterItems) && filterCurrWidth == old(filterCurrWidth)
      ensures AllNames(filterNames).Some? ==>
                filterItems == AllNames(filterNames).value
                && filterCurrWidth >= 3
                && (forall k :: 0 <= k < |filterItems| ==> |filterItems[k]| <= filterCurrWidth)
                && (filterCurrWidth == 3 || exists k :: 0 <= k < |filterItems| && |filterItems[k]| == filterCurrWidth)
    {
      var names := AllNames(filterNames);
      if names.None? {
        return;
      }
      filterItems := names.value;
      var maxNameLen := MaxLen(names.value);
      if maxNameLen < 3 {
        maxNameLen := 3;
      }
      filterCurrWidth := maxNameLen;
    }
  }
}
