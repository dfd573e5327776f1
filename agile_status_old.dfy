// TUI/Inst/Agile/StatusConfigInputWdg.py (tag 1.6): the Agile environment
// display. Each keyword callback turns its values into a label (text,
// currency, severity) and records or clears an entry in the environment
// state set; the summary label shows the first such entry. The decisions
// are pure functions; the widget state is a class. Python None is an
// Option, "%0.1f" is the parameter `fmt1`, and the state set's choice of
// its first entry is given to the summary update.

module AgileStatusOld {
  import opened Util

  const StCameraConn := "Camera"
  const StCCDTemp := "CCD Temp"
  const StCCDSetTemp := "CCD Set Temp"
  const StGPSSynced := "GPS Synced"
  const StNTPStatus := "NTP Status"
  const StFWConn := "Filter Wheel"
  const StFWMotor := "Filter Wheel Motor"
  const StNames: seq<string> := [StCameraConn, StCCDTemp, StCCDSetTemp, StGPSSynced, StNTPStatus, StFWConn, StFWMotor]

  /** A status label: its text, whether the value is current, its severity. */
  datatype Label = Label(text: string, isCurrent: bool, severity: Severity)

  /** An entry of the environment state set. */
  datatype EnvState = EnvState(severity: Severity, stateStr: string)

  // --------------------------------------------------------- connection

  /** `parseConnState`: an empty state shows as "?"; a failing state gets
      the prefix "Connection "; only "connected" (any case) is normal. */
  function ConnState(stateStr: string): (string, Severity)
  {
    var s := if stateStr == "" then "?" else stateStr;
    var isConnected := Lower(s) == "connected";
    var shown := if Contains(Lower(s), "fail") then "Connection " + s else s;
    (shown, if isConnected then Normal else Warning)
  }

  lemma ConnStateCases(stateStr: string)
    ensures var (shown, sev) := ConnState(stateStr);
            && (sev == Normal <==> Lower(stateStr) == "connected")
            && (stateStr == "" ==> shown == "?" && sev == Warning)
            && (Contains(Lower(stateStr), "fail") ==> shown == "Connection " + stateStr && sev == Warning)
            && (stateStr != "" && !Contains(Lower(stateStr), "fail") ==> shown == stateStr)
  {
    assert Lower("?") == "?";
    ContainsFirstChar("?", "fail");
    assert "?" != "connected";
    if Lower(stateStr) == "connected" {
      ContainsFirstChar("connected", "fail");
    }
  }

  // -------------------------------------------------------- temperature

  /** `ccdTempStateDict.get(status, (status, sevWarning))`, on the
      lower-cased status: the text to append and the severity. */
  function TempStatus(status: Option<string>): (r: (Option<string>, Severity))
  {
    if status.None? then (None, Normal)
    else
      var s := Lower(status.value);
      if s == "normal" then (Some(""), Normal)
      else if s == "low" then (Some("Low"), Warning)
      else if s == "high" then (Some("High"), Warning)
      else if s == "verylow" then (Some("Very Low"), Error)
      else if s == "veryhigh" then (Some("Very High"), Error)
      else (Some(s), Warning)
  }

  /** `_updCCDTemp` and `_updCCDSetTemp`: the reading ("?" when missing),
      then a space and the status text when there is a status. */
  function TempText(temp: Option<real>, status: Option<string>, fmt1: real -> string): (string, Severity)
  {
    var stateStr := if temp.None? then "?" else fmt1(temp.value);
    var (dispStr, severity) := TempStatus(status);
    (if dispStr.Some? then stateStr + " " + dispStr.value else stateStr, severity)
  }

  /** No status is normal and shows the reading alone; "normal" is normal
      (with a trailing blank); "low"/"high" warn, "verylow"/"veryhigh" are
      errors; any other status warns and is shown lower-cased. */
  lemma TempTextCases(temp: Option<real>, status: Option<string>, fmt1: real -> string)
    ensures var reading := if temp.None? then "?" else fmt1(temp.value);
            var (text, sev) := TempText(temp, status, fmt1);
            && (status.None? ==> text == reading && sev == Normal)
            && (status.Some? ==> reading + " " <= text)
            && (sev == Normal <==> status.None? || Lower(status.value) == "normal")
            && (sev == Error <==> status.Some? && Lower(status.value) in {"verylow", "veryhigh"})
            && (status.Some? && Lower(status.value) !in {"normal", "low", "high", "verylow", "veryhigh"} ==>
                  text == reading + " " + Lower(status.value) && sev == Warning)
  {
  }

  /** The environment entry of a reading is cleared exactly when it is
      current and normal. */
  predicate ClearsEnv(isCurrent: bool, severity: Severity)
  {
    isCurrent && severity == Normal
  }

  /** `_updCCDTempLimits`: a missing limit is hidden; limits 0 and 2 show as
      -|x|, limits 1 and 3 as |x|. */
  function LimitShown(ind: nat, limit: Option<real>): (r: Option<real>)
  {
    if limit.None? then None
    else
      var a := if limit.value < 0.0 then -limit.value else limit.value;
      Some(if ind % 2 == 0 then -a else a)
  }

  lemma LimitSigns(ind: nat, limit: Option<real>)
    ensures LimitShown(ind, limit).None? <==> limit.None?
    ensures limit.Some? && ind % 2 == 0 ==> LimitShown(ind, limit).value <= 0.0
    ensures limit.Some? && ind % 2 == 1 ==> LimitShown(ind, limit).value >= 0.0
    ensures limit.Some? ==> LimitShown(ind, limit).value == limit.value || LimitShown(ind, limit).value == -limit.value
  {
  }

  /** A limit widget: whether it is gridded, and the value it holds (kept
      while hidden). */
  datatype LimitWdg = LimitWdg(shown: bool, value: real)

  function LimitAfter(w: LimitWdg, ind: nat, limit: Option<real>): LimitWdg
  {
    if limit.None? then w.(shown := false) else LimitWdg(true, LimitShown(ind, limit).value)
  }

  // --------------------------------------------------- filter wheel motor

  /** Python `n & mask != 0` for a non-negative mask (two's complement for
      negative `n`, which Euclidean division by 2 gives). */
  predicate MaskHit(n: int, mask: nat)
    decreases mask
  {
    mask > 0 && ((mask % 2 == 1 && n % 2 == 1) || MaskHit(n / 2, mask / 2))
  }

  /** `_updFWStatus`: the first of Not Homed (0x0201), Disabled (0x004),
      Controller Error (0x008), Is Homing (0x0400), Is Moving (0x1002) whose
      mask hits the status word, else "OK"; only "OK" is normal. */
  function FWMotor(statusWord: Option<int>): (string, Severity)
  {
    if statusWord.None? then ("?", Warning)
    else
      var w := statusWord.value;
      if MaskHit(w, 0x0201) then ("Not Homed", Warning)
      else if MaskHit(w, 0x004) then ("Disabled", Warning)
      else if MaskHit(w, 0x008) then ("Controller Error", Warning)
      else if MaskHit(w, 0x0400) then ("Is Homing", Warning)
      else if MaskHit(w, 0x1002) then ("Is Moving", Warning)
      else ("OK", Normal)
  }

  /** No mask hits the zero word, the zero mask hits nothing, and every
      non-zero mask hits itself. */
  lemma {:induction false} MaskHitBasics(n: int, m: nat)
    ensures !MaskHit(0, m)
    ensures m > 0 ==> MaskHit(m, m)
    ensures m == 0 ==> !MaskHit(n, m)
    decreases m
  {
    if m > 0 {
      MaskHitBasics(n / 2, m / 2);
    }
  }

  /** The motor is reported OK, and normal, exactly when no mask hits. */
  lemma FWMotorCases(statusWord: Option<int>)
    ensures FWMotor(statusWord).1 == Normal <==> FWMotor(statusWord).0 == "OK"
    ensures FWMotor(statusWord).0 == "OK" <==>
              statusWord.Some?
              && !MaskHit(statusWord.value, 0x0201) && !MaskHit(statusWord.value, 0x004)
              && !MaskHit(statusWord.value, 0x008) && !MaskHit(statusWord.value, 0x0400)
              && !MaskHit(statusWord.value, 0x1002)
  {
  }

  // ----------------------------------------------------------- GPS, NTP

  /** `gpsSyncedDict`. */
  function GPSSynced(synced: Option<bool>): (Severity, string)
  {
    match synced
    case Some(true) => (Normal, "Yes")
    case Some(false) => (Error, "No")
    case None => (Warning, "?")
  }

  /** `ntpRunningDict`. */
  function NTPRunningStr(isRunning: Option<bool>): string
  {
    match isRunning
    case Some(true) => "Running"
    case Some(false) => "NotRunning"
    case None => "?"
  }

  /** `_updNTPStatus` severity: not running is an error; unknown running
      state, server "?" or no stratum warn. */
  function NTPSeverity(isRunning: Option<bool>, server: Option<string>, stratum: Option<string>): Severity
  {
    if isRunning == Some(false) then Error
    else if isRunning.None? || server == Some("?") || stratum.None? then Warning
    else Normal
  }

  /** The server shown: "?" when missing, else the text before the first ".". */
  function NTPServerStr(server: Option<string>): (r: string)
    ensures server.Some? ==> r <= server.value && '.' !in r
  {
    if server.None? then "?" else BeforeFirst(server.value, '.')
  }

  lemma NTPSeverityCases(isRunning: Option<bool>, server: Option<string>, stratum: Option<string>)
    ensures NTPSeverity(isRunning, server, stratum) == Normal <==>
              isRunning == Some(true) && server != Some("?") && stratum.Some?
    ensures NTPSeverity(isRunning, server, stratum) == Error <==> isRunning == Some(false)
  {
    match isRunning
    case None =>
    case Some(b) =>
  }

  /** The NTP entry text: running state, server, stratum. */
  function NTPStateStr(isRunning: Option<bool>, server: Option<string>, stratum: Option<string>): string
  {
    NTPRunningStr(isRunning) + " " + NTPServerStr(server) + " " + (if stratum.Some? then stratum.value else "?")
  }

  // ---------------------------------------------------------- summary

  /** `_updEnvironStateSet`: "OK" (normal) when there is no entry or the
      first entry is normal, else "name: state" with its severity. */
  function Summary(first: Option<(string, EnvState)>): (r: Label)
  {
    if first.None? || first.value.1.severity == Normal then Label("OK", true, Normal)
    else Label(first.value.0 + ": " + first.value.1.stateStr, true, first.value.1.severity)
  }

  lemma SummaryCases(first: Option<(string, EnvState)>)
    ensures Summary(first).severity == Normal <==> Summary(first).text == "OK" || (first.Some? && first.value.1.severity == Normal)
    ensures first.Some? && first.value.1.severity != Normal ==>
              first.value.0 + ": " <= Summary(first).text && Summary(first).severity == first.value.1.severity
  {
    if first.Some? && first.value.1.severity != Normal {
      var t := first.value.0 + ": " + first.value.1.stateStr;
      assert t[|first.value.0|..|first.value.0| + 2] == ": ";
      assert t[|first.value.0|] == ':' && ':' !in "OK";
    }
  }

  // ------------------------------------------------------------- widget

  class StatusWdg {
    var cameraConn: Label
    var fwConn: Label
    var ccdTemp: Label
    var ccdSetTemp: Label
    var gpsSynced: Label
    var fwHomed: Label
    var ntp: seq<Label>
    var limits: seq<LimitWdg>
    var summary: Label
    /** The environment state set: entries by name. */
    var env: map<string, EnvState>

    ghost predicate Valid()
      reads this
    {
      |ntp| == 3 && |limits| == 4 && (forall n :: n in env ==> n in StNames)
    }

    constructor ()
      ensures Valid() && env == map[]
    {
      var blank := Label("", true, Normal);
      cameraConn, fwConn, ccdTemp, ccdSetTemp, gpsSynced, fwHomed := blank, blank, blank, blank, blank, blank;
      ntp := [blank, blank, blank];
      limits := [LimitWdg(true, 0.0), LimitWdg(true, 0.0), LimitWdg(true, 0.0), LimitWdg(true, 0.0)];
      summary := blank;
      env := map[];
    }

    /** `_updCameraConnState`: the label and the entry follow `parseConnState`. */
    method UpdCameraConnState(stateStr: string, isCurrent: bool)
      requires Valid()
      modifies this`cameraConn, this`env
      ensures Valid()
      ensures cameraConn == Label(ConnState(stateStr).0, isCurrent, ConnState(stateStr).1)
      ensures env == old(env)[StCameraConn := EnvState(ConnState(stateStr).1, ConnState(stateStr).0)]
    {
      var (s, sev) := ConnState(stateStr);
      cameraConn := Label(s, isCurrent, sev);
      env := env[StCameraConn := EnvState(sev, s)];
    }

    /** `_updFWConnState`: as for the camera. */
    method UpdFWConnState(stateStr: string, isCurrent: bool)
      requires Valid()
      modifies this`fwConn, this`env
      ensures Valid()
      ensures fwConn == Label(ConnState(stateStr).0, isCurrent, ConnState(stateStr).1)
      ensures env == old(env)[StFWConn := EnvState(ConnState(stateStr).1, ConnState(stateStr).0)]
    {
      var (s, sev) := ConnState(stateStr);
      fwConn := Label(s, isCurrent, sev);
      env := env[StFWConn := EnvState(sev, s)];
    }

    /** `_updCCDTemp`: the entry is cleared when current and normal. */
    method UpdCCDTemp(temp: Option<real>, status: Option<string>, isCurrent: bool, fmt1: real -> string)
      requires Valid()
      modifies this`ccdTemp, this`env
      ensures Valid()
      ensures var (s, sev) := TempText(temp, status, fmt1);
              ccdTemp == Label(s, isCurrent, sev)
              && env == (if ClearsEnv(isCurrent, sev) then old(env) - {StCCDTemp}
                         else old(env)[StCCDTemp := EnvState(sev, s)])
    {
      var (s, sev) := TempText(temp, status, fmt1);
      ccdTemp := Label(s, isCurrent, sev);
      if !isCurrent || sev != Normal {
        env := env[StCCDTemp := EnvState(sev, s)];
      } else {
        env := env - {StCCDTemp};
      }
    }

    /** `_updCCDSetTemp`: as `_updCCDTemp`, for the set point. */
    method UpdCCDSetTemp(temp: Option<real>, status: Option<string>, isCurrent: bool, fmt1: real -> string)
      requires Valid()
      modifies this`ccdSetTemp, this`env
      ensures Valid()
      ensures var (s, sev) := TempText(temp, status, fmt1);
              ccdSetTemp == Label(s, isCurrent, sev)
              && env == (if ClearsEnv(isCurrent, sev) then old(env) - {StCCDSetTemp}
                         else old(env)[StCCDSetTemp := EnvState(sev, s)])
    {
      var (s, sev) := TempText(temp, status, fmt1);
      ccdSetTemp := Label(s, isCurrent, sev);
      if !isCurrent || sev != Normal {
        env := env[StCCDSetTemp := EnvState(sev, s)];
      } else {
        env := env - {StCCDSetTemp};
      }
    }

    /** `_updCCDTempLimits`: the loop over the four limit widgets. */
    method UpdCCDTempLimits(tempLimits: seq<Option<real>>)
      requires Valid() && |tempLimits| >= 4
      modifies this`limits
      ensures Valid()
      ensures forall ind :: 0 <= ind < 4 ==> limits[ind] == LimitAfter(old(limits)[ind], ind, tempLimits[ind])
    {
      var ind := 0;
      while ind < |limits|
        invariant 0 <= ind <= 4 && |limits| == 4
        invariant forall j :: 0 <= j < ind ==> limits[j] == LimitAfter(old(limits)[j], j, tempLimits[j])
        invariant forall j :: ind <= j < 4 ==> limits[j] == old(limits)[j]
      {
        var tempLimit := tempLimits[ind];
        if tempLimit.None? {
          limits := limits[ind := limits[ind].(shown := false)];
        } else {
          var a := if tempLimit.value < 0.0 then -tempLimit.value else tempLimit.value;
          if ind % 2 == 0 {
            a := -a;
          }
          limits := limits[ind := LimitWdg(true, a)];
        }
        ind := ind + 1;
      }
    }

    /** `_updFWStatus`: the motor label and entry (never cleared). */
    method UpdFWStatus(statusWord: Option<int>, isCurrent: bool)
      requires Valid()
      modifies this`fwHomed, this`env
      ensures Valid()
      ensures fwHomed == Label(FWMotor(statusWord).0, isCurrent, FWMotor(statusWord).1)
      ensures env == old(env)[StFWMotor := EnvState(FWMotor(statusWord).1, FWMotor(statusWord).0)]
    {
      var (motorStr, motorSev) := FWMotor(statusWord);
      fwHomed := Label(motorStr, isCurrent, motorSev);
      env := env[StFWMotor := EnvState(motorSev, motorStr)];
    }

    /** `_updGPSSynced`. */
    method UpdGPSSynced(synced: Option<bool>, isCurrent: bool)
      requires Valid()
      modifies this`gpsSynced, this`env
      ensures Valid()
      ensures var (sev, s) := GPSSynced(synced);
              gpsSynced == Label(s, isCurrent, sev)
              && env == (if ClearsEnv(isCurrent, sev) then old(env) - {StGPSSynced}
                         else old(env)[StGPSSynced := EnvState(sev, s)])
    {
      var (sev, s) := GPSSynced(synced);
      gpsSynced := Label(s, isCurrent, sev);
      if sev == Normal && isCurrent {
        env := env - {StGPSSynced};
      } else {
        env := env[StGPSSynced := EnvState(sev, s)];
      }
    }

    /** `_updNTPStatus`: three labels sharing one severity, and the entry. */
    method UpdNTPStatus(isRunning: Option<bool>, server: Option<string>, stratum: Option<string>, isCurrent: bool)
      requires Valid()
      modifies this`ntp, this`env
      ensures Valid()
      ensures var sev := NTPSeverity(isRunning, server, stratum);
              ntp == [Label(NTPRunningStr(isRunning), isCurrent, sev),
                      Label(NTPServerStr(server), isCurrent, sev),
                      Label(if stratum.Some? then stratum.value else "?", isCurrent, sev)]
              && env == (if ClearsEnv(isCurrent, sev) then old(env) - {StNTPStatus}
                         else old(env)[StNTPStatus := EnvState(sev, NTPStateStr(isRunning, server, stratum))])
    {
      var severity := Normal;
      if isRunning == Some(false) {
        severity := Error;
      } else if isRunning.None? || server == Some("?") || stratum.None? {
        severity := Warning;
      }
      var isRunningStr := NTPRunningStr(isRunning);
      var serverStr := if server.None? then "?" else BeforeFirst(server.value, '.');
      var stratumStr := if stratum.Some? then stratum.value else "?";
      ntp := [Label(isRunningStr, isCurrent, severity), Label(serverStr, isCurrent, severity),
              Label(stratumStr, isCurrent, severity)];
      var stateStr := isRunningStr + " " + serverStr + " " + stratumStr;
      if severity == Normal && isCurrent {
        env := env - {StNTPStatus};
      } else {
        env := env[StNTPStatus := EnvState(severity, stateStr)];
      }
    }

    /** `_updEnvironStateSet`, given the state set's first entry. */
    method UpdEnvironStateSet(first: Option<string>)
      requires Valid() && (first.Some? ==> first.value in env)
      modifies this`summary
      ensures summary == Summary(if first.None? then None else Some((first.value, env[first.value])))
      ensures first.None? ==> summary == Label("OK", true, Normal)
    {
      if first.None? || env[first.value].severity == Normal {
        summary := Label("OK", true, Normal);
      } else {
        var st := env[first.value];
        summary := Label(first.value + ": " + st.stateStr, true, st.severity);
      }
    }
  }
}
