// trunk/TUI/Inst/ExposeModel.py: per-instrument exposure information, the
// case-insensitive model cache, the exposure command formatter and the
// screening of `files` reports for automatic download. Keyword variables,
// preferences and the download widget are outside the model: their values
// are parameters. Number rendering ("%.2f") and RO.StringUtil.quoteStr are
// foreign and are passed in as functions.

module ExposeModel {
  import opened Util
  import FileGetter

  /** `_ExpInfo`. */
  datatype ExpInfo = ExpInfo(instName: string, instActor: string, exposeActor: string,
                             minExpTime: real, maxExpTime: real, camNames: seq<string>,
                             expTypes: seq<string>, canPause: bool, canStop: bool, canAbort: bool)

  const DefaultExpTypes: seq<string> := ["object", "flat", "dark", "bias"]
  const DefaultMaxExpTime: real := 43200.0

  /** The `_ExpInfo` constructor: the actor defaults to the lower-cased
      instrument name, the expose actor appends "Expose", and a missing
      camera list means one unnamed camera. */
  function MakeExpInfo(instName: string, instActor: Option<string>, minExpTime: real, maxExpTime: real,
                       camNames: Option<seq<string>>, expTypes: seq<string>,
                       canPause: bool, canStop: bool, canAbort: bool): (e: ExpInfo)
    ensures e.instName == instName
    ensures e.instActor == if instActor.Some? then instActor.value else Lower(instName)
    ensures e.exposeActor == e.instActor + "Expose"
    ensures camNames.None? ==> e.camNames == [""]
    ensures camNames.Some? ==> e.camNames == camNames.value
    ensures e.expTypes == expTypes && e.minExpTime == minExpTime && e.maxExpTime == maxExpTime
    ensures e.canPause == canPause && e.canStop == canStop && e.canAbort == canAbort
  {
    var actor := if instActor.Some? then instActor.value else Lower(instName);
    ExpInfo(instName, actor, actor + "Expose", minExpTime, maxExpTime,
            if camNames.Some? then camNames.value else [""], expTypes, canPause, canStop, canAbort)
  }

  /** `getNumCameras`. */
  function NumCameras(e: ExpInfo): nat
  {
    |e.camNames|
  }

  /** The number of values of the `files` keyword: five fields, then one
      file name per camera. */
  function FilesNVal(e: ExpInfo): nat
  {
    5 + NumCameras(e)
  }

  /** The instrument list of `_getInstInfoDict`. */
  function InstInfoList(): seq<ExpInfo>
  {
    [ MakeExpInfo("DIS", None, 1.0, DefaultMaxExpTime, Some(["blue", "red"]), DefaultExpTypes, true, true, true),
      MakeExpInfo("Echelle", None, 0.1, DefaultMaxExpTime, None, DefaultExpTypes, true, true, true),
      MakeExpInfo("NICFPS", None, 0.0, DefaultMaxExpTime, None, ["object", "flat", "dark"], false, true, false),
      MakeExpInfo("SPIcam", None, 0.76, DefaultMaxExpTime, None, DefaultExpTypes, true, true, true),
      MakeExpInfo("TSpec", None, 0.75, DefaultMaxExpTime, None, ["object", "flat", "dark"], false, false, true) ]
  }

  /** The dictionary the list becomes: keyed by lower-cased name, a later
      entry replacing an earlier one. */
  function InfoMap(infos: seq<ExpInfo>): map<string, ExpInfo>
  {
    if infos == [] then map[]
    else InfoMap(infos[..|infos| - 1])[Lower(infos[|infos| - 1].instName) := infos[|infos| - 1]]
  }

  /** The position of the last entry whose lower-cased name is `key`, or
      -1 when there is none. */
  function LastWith(infos: seq<ExpInfo>, key: string): (k: int)
    ensures -1 <= k < |infos|
    ensures k >= 0 ==> Lower(infos[k].instName) == key
    ensures forall j :: k < j < |infos| ==> Lower(infos[j].instName) != key
  {
    if infos == [] then -1
    else if Lower(infos[|infos| - 1].instName) == key then |infos| - 1
    else
      var init := infos[..|infos| - 1];
      assert forall j :: 0 <= j < |init| ==> init[j] == infos[j];
      LastWith(init, key)
  }

  /** A name is a key exactly when some entry has it (lower-cased), and the
      key maps to the last such entry. */
  lemma {:induction false} InfoMapLookup(infos: seq<ExpInfo>, key: string)
    ensures key in InfoMap(infos) <==> LastWith(infos, key) >= 0
    ensures key in InfoMap(infos) ==> InfoMap(infos)[key] == infos[LastWith(infos, key)]
  {
    if infos != [] {
      var init := infos[..|infos| - 1];
      InfoMapLookup(init, key);
      if LastWith(init, key) >= 0 {
        assert infos[LastWith(init, key)] == init[LastWith(init, key)];
      }
    }
  }

  /** `_getInstInfoDict`: the loop that fills the dictionary. */
  method GetInstInfoDict(infos: seq<ExpInfo>) returns (d: map<string, ExpInfo>)
    ensures d == InfoMap(infos)
  {
    d := map[];
    var i := 0;
    while i < |infos|
      invariant 0 <= i <= |infos|
      invariant d == InfoMap(infos[..i])
    {
      assert infos[..i + 1][..i] == infos[..i];
      d := d[Lower(infos[i].instName) := infos[i]];
      i := i + 1;
    }
    assert infos[..i] == infos;
  }

  /** Every known instrument has at least one camera, so its `files`
      keyword has at least six values. */
  lemma InstTable()
    ensures forall key :: key in InfoMap(InstInfoList()) ==> NumCameras(InfoMap(InstInfoList())[key]) >= 1
  {
    var l := InstInfoList();
    forall key | key in InfoMap(l)
      ensures NumCameras(InfoMap(l)[key]) >= 1
    {
      InfoMapLookup(l, key);
      var k := LastWith(l, key);
      assert k == 0 || k == 1 || k == 2 || k == 3 || k == 4;
    }
  }

  // ------------------------------------------------------------- model

  class Model {
    const instName: string
    const instNameLow: string
    const instInfo: ExpInfo
    /** The expose actor. */
    const actor: string

    constructor (instName: string, instInfo: ExpInfo)
      ensures this.instName == instName && instNameLow == Lower(instName)
      ensures this.instInfo == instInfo && actor == instInfo.exposeActor
    {
      this.instName := instName;
      instNameLow := Lower(instName);
      this.instInfo := instInfo;
      actor := instInfo.exposeActor;
    }

    /** `formatExpCmd`: the loop over the cameras and the token list. */
    method FormatExpCmd(expType: string, expTime: Option<real>, cameras: Option<seq<string>>,
                        fileName: string, numExp: int, startNum: Option<int>, totNum: Option<int>,
                        comment: Option<string>, seqByFile: bool,
                        fmtTime: real -> string, quote: string -> string)
      returns (r: Result<string>)
      ensures r == ExpCmd(instInfo, expType, expTime, cameras, fileName, numExp, startNum, totNum,
                          comment, seqByFile, fmtTime, quote)
    {
      var t := Lower(expType);
      ExpCmdSteps(instInfo, expType, expTime, cameras, fileName, numExp, startNum, totNum, comment,
                  seqByFile, fmtTime, quote);
      if t !in instInfo.expTypes {
        return Raise(ValueError("unknown exposure type " + PyRepr(t)));
      }
      var outStrList: seq<string> := [t];
      if t != "bias" {
        if expTime.None? {
          return Raise(ValueError("exposure time required"));
        }
        outStrList := outStrList + ["time=" + fmtTime(expTime.value)];
      }
      assert outStrList == TypeTime(t, expTime, fmtTime);
      if cameras.Some? {
        var camToks := CameraTokens(cameras.value, instInfo.camNames);
        if camToks.Raise? {
          return Raise(camToks.exc);
        }
        outStrList := outStrList + camToks.value;
      }
      outStrList := outStrList + ["n=" + IntToString(numExp)];
      if fileName == "" {
        return Raise(ValueError("file name required"));
      }
      outStrList := outStrList + ["name=" + quote(fileName)];
      if seqByFile {
        outStrList := outStrList + ["seq=nextByFile"];
      } else {
        outStrList := outStrList + ["seq=nextByDir"];
      }
      assert outStrList == Upto(t, expTime, cameras, fileName, numExp, seqByFile, fmtTime, quote);
      outStrList := AppendOptional(outStrList, startNum, totNum, comment, quote);
      r := Ok(Join(" ", outStrList));
    }
  }

  /** The last steps of `formatExpCmd`: the optional start number, total
      number and comment, in that order. */
  method AppendOptional(outStrList: seq<string>, startNum: Option<int>, totNum: Option<int>,
                        comment: Option<string>, quote: string -> string)
    returns (r: seq<string>)
    ensures r == outStrList + Optional(startNum, totNum, comment, quote)
  {
    r := outStrList;
    if startNum.Some? {
      r := r + ["startNum=" + IntToString(startNum.value)];
    }
    if totNum.Some? {
      r := r + ["totNum=" + IntToString(totNum.value)];
    }
    if comment.Some? {
      r := r + ["comment=" + quote(comment.value)];
    }
  }

  /** The camera loop of `formatExpCmd`: each camera, lower-cased, must be
      one of the instrument's. */
  method CameraTokens(camList: seq<string>, camNames: seq<string>) returns (r: Result<seq<string>>)
    ensures FirstBadCam(camList, camNames).Some? ==>
              r == Raise(ValueError("unknown camera " + PyRepr(FirstBadCam(camList, camNames).value)))
    ensures FirstBadCam(camList, camNames).None? ==> r == Ok(LowerAll(camList))
  {
    var toks: seq<string> := [];
    var i := 0;
    while i < |camList|
      invariant 0 <= i <= |camList|
      invariant toks == LowerAll(camList[..i])
      invariant FirstBadCam(camList, camNames) == FirstBadCam(camList[i..], camNames)
    {
      var cam := Lower(camList[i]);
      assert camList[i..][1..] == camList[i + 1..];
      if cam !in camNames {
        return Raise(ValueError("unknown camera " + PyRepr(cam)));
      }
      LowerAllSnoc(camList[..i], camList[i]);
      assert camList[..i + 1] == camList[..i] + [camList[i]];
      toks := toks + [cam];
      i := i + 1;
    }
    assert camList[..i] == camList;
    r := Ok(toks);
  }

  function LowerAll(names: seq<string>): (r: seq<string>)
    ensures |r| == |names| && forall k :: 0 <= k < |names| ==> r[k] == Lower(names[k])
  {
    if names == [] then [] else [Lower(names[0])] + LowerAll(names[1..])
  }

  lemma LowerAllSnoc(names: seq<string>, x: string)
    ensures LowerAll(names + [x]) == LowerAll(names) + [Lower(x)]
  {
  }

  /** The first camera that, lower-cased, is not one of the instrument's. */
  function FirstBadCam(cams: seq<string>, camNames: seq<string>): (r: Option<string>)
    ensures r.None? <==> forall k :: 0 <= k < |cams| ==> Lower(cams[k]) in camNames
    ensures r.Some? ==> r.value !in camNames && exists k :: 0 <= k < |cams| && Lower(cams[k]) == r.value
  {
    if cams == [] then None
    else if Lower(cams[0]) !in camNames then Some(Lower(cams[0]))
    else
      var rest := FirstBadCam(cams[1..], camNames);
      assert forall k :: 1 <= k < |cams| ==> cams[k] == cams[1..][k - 1];
      rest
  }

  /** The tokens of a well-formed exposure command: type, time (except for
      bias), cameras, count, name, sequencing, then the optional numbers
      and comment. */
  function Tokens(t: string, expTime: Option<real>, cameras: Option<seq<string>>, fileName: string, numExp: int,
                  startNum: Option<int>, totNum: Option<int>, comment: Option<string>, seqByFile: bool,
                  fmtTime: real -> string, quote: string -> string): seq<string>
    requires t != "bias" ==> expTime.Some?
  {
    Upto(t, expTime, cameras, fileName, numExp, seqByFile, fmtTime, quote)
    + Optional(startNum, totNum, comment, quote)
  }

  /** The optional tokens: start number, total number, comment. */
  function Optional(startNum: Option<int>, totNum: Option<int>, comment: Option<string>,
                    quote: string -> string): seq<string>
  {
    OptNum("startNum=", startNum) + OptNum("totNum=", totNum)
    + (if comment.Some? then ["comment=" + quote(comment.value)] else [])
  }

  /** The tokens up to the sequencing token. */
  function Upto(t: string, expTime: Option<real>, cameras: Option<seq<string>>, fileName: string, numExp: int,
                seqByFile: bool, fmtTime: real -> string, quote: string -> string): seq<string>
    requires t != "bias" ==> expTime.Some?
  {
    TypeTime(t, expTime, fmtTime)
    + (if cameras.Some? then LowerAll(cameras.value) else [])
    + ["n=" + IntToString(numExp)]
    + ["name=" + quote(fileName)]
    + [if seqByFile then "seq=nextByFile" else "seq=nextByDir"]
  }

  function TypeTime(t: string, expTime: Option<real>, fmtTime: real -> string): seq<string>
    requires t != "bias" ==> expTime.Some?
  {
    [t] + (if t != "bias" then ["time=" + fmtTime(expTime.value)] else [])
  }

  function OptNum(key: string, n: Option<int>): seq<string>
  {
    if n.Some? then [key + IntToString(n.value)] else []
  }

  /** The command `formatExpCmd` is to produce, or the ValueError it raises:
      unknown type, missing time, unknown camera, missing file name, checked
      in that order. */
  function ExpCmd(info: ExpInfo, expType: string, expTime: Option<real>, cameras: Option<seq<string>>,
                  fileName: string, numExp: int, startNum: Option<int>, totNum: Option<int>,
                  comment: Option<string>, seqByFile: bool,
                  fmtTime: real -> string, quote: string -> string): Result<string>
  {
    var t := Lower(expType);
    if t !in info.expTypes then Raise(ValueError("unknown exposure type " + PyRepr(t)))
    else if t != "bias" && expTime.None? then Raise(ValueError("exposure time required"))
    else if cameras.Some? && FirstBadCam(cameras.value, info.camNames).Some? then
      Raise(ValueError("unknown camera " + PyRepr(FirstBadCam(cameras.value, info.camNames).value)))
    else if fileName == "" then Raise(ValueError("file name required"))
    else Ok(Join(" ", Tokens(t, expTime, cameras, fileName, numExp, startNum, totNum, comment, seqByFile, fmtTime, quote)))
  }

  /** `ExpCmd` case by case, in the order `formatExpCmd` checks. */
  lemma ExpCmdSteps(info: ExpInfo, expType: string, expTime: Option<real>, cameras: Option<seq<string>>,
                    fileName: string, numExp: int, startNum: Option<int>, totNum: Option<int>,
                    comment: Option<string>, seqByFile: bool,
                    fmtTime: real -> string, quote: string -> string)
    ensures var t := Lower(expType);
            var r := ExpCmd(info, expType, expTime, cameras, fileName, numExp, startNum, totNum, comment,
                            seqByFile, fmtTime, quote);
            && (t !in info.expTypes ==> r == Raise(ValueError("unknown exposure type " + PyRepr(t))))
            && (t in info.expTypes && t != "bias" && expTime.None? ==> r == Raise(ValueError("exposure time required")))
            && (t in info.expTypes && (t != "bias" ==> expTime.Some?) && cameras.Some?
                && FirstBadCam(cameras.value, info.camNames).Some? ==>
                  r == Raise(ValueError("unknown camera " + PyRepr(FirstBadCam(cameras.value, info.camNames).value))))
            && (t in info.expTypes && (t != "bias" ==> expTime.Some?)
                && (cameras.Some? ==> FirstBadCam(cameras.value, info.camNames).None?) && fileName == "" ==>
                  r == Raise(ValueError("file name required")))
            && (t in info.expTypes && (t != "bias" ==> expTime.Some?)
                && (cameras.Some? ==> FirstBadCam(cameras.value, info.camNames).None?) && fileName != "" ==>
                  r == Ok(Join(" ", Tokens(t, expTime, cameras, fileName, numExp, startNum, totNum, comment,
                                           seqByFile, fmtTime, quote))))
  {
  }

  /** The command is refused exactly when the type (lower-cased) is not the
      instrument's, a non-bias exposure has no time, a camera is unknown or
      the file name is empty; every refusal is a ValueError. */
  lemma ExpCmdRefusals(info: ExpInfo, expType: string, expTime: Option<real>, cameras: Option<seq<string>>,
                       fileName: string, numExp: int, startNum: Option<int>, totNum: Option<int>,
                       comment: Option<string>, seqByFile: bool,
                       fmtTime: real -> string, quote: string -> string)
    ensures var r := ExpCmd(info, expType, expTime, cameras, fileName, numExp, startNum, totNum, comment,
                            seqByFile, fmtTime, quote);
            (r.Raise? <==>
               Lower(expType) !in info.expTypes
               || (Lower(expType) != "bias" && expTime.None?)
               || (cameras.Some? && exists k :: 0 <= k < |cameras.value| && Lower(cameras.value[k]) !in info.camNames)
               || fileName == "")
            && (r.Raise? ==> r.exc.ValueError?)
  {
  }

  /** The layout of the token list: a bias has no time token, every other
      type has it second; the count follows the cameras; the name follows
      the count and the sequencing follows the name; then come only the
      optional tokens. */
  lemma {:induction false} TokensLayout(t: string, expTime: Option<real>, cameras: Option<seq<string>>,
                                        fileName: string, numExp: int, startNum: Option<int>, totNum: Option<int>,
                                        comment: Option<string>, seqByFile: bool,
                                        fmtTime: real -> string, quote: string -> string)
    requires t != "bias" ==> expTime.Some?
    ensures var toks := Tokens(t, expTime, cameras, fileName, numExp, startNum, totNum, comment, seqByFile, fmtTime, quote);
            var nTime := if t == "bias" then 0 else 1;
            var nCam := if cameras.Some? then |cameras.value| else 0;
            toks[0] == t
            && (t != "bias" ==> toks[1] == "time=" + fmtTime(expTime.value))
            && toks[1 + nTime + nCam] == "n=" + IntToString(numExp)
            && toks[2 + nTime + nCam] == "name=" + quote(fileName)
            && toks[3 + nTime + nCam] == (if seqByFile then "seq=nextByFile" else "seq=nextByDir")
            && |toks| == 4 + nTime + nCam + (if startNum.Some? then 1 else 0) + (if totNum.Some? then 1 else 0)
                         + (if comment.Some? then 1 else 0)
  {
    var tt := TypeTime(t, expTime, fmtTime);
    var cams := if cameras.Some? then LowerAll(cameras.value) else [];
    var tail := Optional(startNum, totNum, comment, quote);
    var n, name, sq := "n=" + IntToString(numExp), "name=" + quote(fileName),
                      if seqByFile then "seq=nextByFile" else "seq=nextByDir";
    Positions(tt, cams, n, name, sq, tail);
    assert Tokens(t, expTime, cameras, fileName, numExp, startNum, totNum, comment, seqByFile, fmtTime, quote)
           == tt + cams + [n] + [name] + [sq] + tail;
    assert |tt| == (if t == "bias" then 1 else 2) && tt[0] == t;
    assert t != "bias" ==> tt[1] == "time=" + fmtTime(expTime.value);
    assert |tail| == (if startNum.Some? then 1 else 0) + (if totNum.Some? then 1 else 0) + (if comment.Some? then 1 else 0);
  }

  lemma Positions<T>(tt: seq<T>, cams: seq<T>, a: T, b: T, c: T, tail: seq<T>)
    ensures var s := tt + cams + [a] + [b] + [c] + tail;
            |s| == |tt| + |cams| + 3 + |tail|
            && (forall k :: 0 <= k < |tt| ==> s[k] == tt[k])
            && s[|tt| + |cams|] == a && s[|tt| + |cams| + 1] == b && s[|tt| + |cams| + 2] == c
  {
  }

  /** With tokens free of blanks, the command splits back into its tokens. */
  lemma ExpCmdSplits(info: ExpInfo, expType: string, expTime: Option<real>, cameras: Option<seq<string>>,
                     fileName: string, numExp: int, startNum: Option<int>, totNum: Option<int>,
                     comment: Option<string>, seqByFile: bool,
                     fmtTime: real -> string, quote: string -> string)
    requires ExpCmd(info, expType, expTime, cameras, fileName, numExp, startNum, totNum, comment,
                    seqByFile, fmtTime, quote).Ok?
    ensures Lower(expType) != "bias" ==> expTime.Some?
    ensures var toks := Tokens(Lower(expType), expTime, cameras, fileName, numExp, startNum, totNum, comment,
                               seqByFile, fmtTime, quote);
            (forall k :: 0 <= k < |toks| ==> toks[k] != "" && NoSpace(toks[k]))
            ==> SplitWS(ExpCmd(info, expType, expTime, cameras, fileName, numExp, startNum, totNum, comment,
                               seqByFile, fmtTime, quote).value) == toks
  {
    var t := Lower(expType);
    assert t != "bias" ==> expTime.Some?;
    var toks := Tokens(t, expTime, cameras, fileName, numExp, startNum, totNum, comment, seqByFile, fmtTime, quote);
    ExpCmdSteps(info, expType, expTime, cameras, fileName, numExp, startNum, totNum, comment, seqByFile, fmtTime, quote);
    if forall k :: 0 <= k < |toks| ==> toks[k] != "" && NoSpace(toks[k]) {
      SplitWSJoin(toks);
    }
  }

  /** The model cache of `getModel`, keyed by lower-cased instrument name. */
  class ModelCache {
    var models: map<string, Model>
    const instInfoDict: map<string, ExpInfo>

    ghost predicate Valid()
      reads this, models.Values
    {
      forall k :: k in models ==> models[k].instNameLow == k && k in instInfoDict
    }

    /** The cache starts empty, over the instrument dictionary
        (`_InstInfoDict`, which is `InfoMap(InstInfoList())`). */
    constructor (instInfoDict: map<string, ExpInfo>)
      ensures Valid() && models == map[] && this.instInfoDict == instInfoDict
    {
      models := map[];
      this.instInfoDict := instInfoDict;
    }

    /** `getModel`: a cached model is returned as is; otherwise a new one is
        made and cached, which fails (KeyError) for an unknown instrument. */
    method GetModel(instName: string) returns (r: Result<Model>)
      requires Valid()
      modifies this`models
      ensures Valid()
      ensures Lower(instName) in old(models) ==> r == Ok(old(models)[Lower(instName)]) && models == old(models)
      ensures Lower(instName) !in old(models) && Lower(instName) !in instInfoDict ==>
                r.Raise? && r.exc.KeyError? && models == old(models)
      ensures Lower(instName) !in old(models) && Lower(instName) in instInfoDict ==>
                r.Ok? && fresh(r.value) && r.value.instName == instName
                && r.value.instInfo == instInfoDict[Lower(instName)]
                && models == old(models)[Lower(instName) := r.value]
      ensures r.Ok? ==> r.value.instNameLow == Lower(instName) && Lower(instName) in models
    {
      var low := Lower(instName);
      if low in models {
        return Ok(models[low]);
      }
      if low !in instInfoDict {
        return Raise(KeyError(PyRepr(low)));
      }
      var m := new Model(instName, instInfoDict[low]);
      models := models[low := m];
      r := Ok(m);
    }

    /** Asking twice with names that differ only in case gives the same
        model object. */
    method GetModelTwice(a: string, b: string) returns (same: bool)
      requires Valid() && Lower(a) == Lower(b)
      modifies this`models
      ensures Valid()
      ensures Lower(a) in instInfoDict || Lower(a) in old(models) ==> same
    {
      var r1 := GetModel(a);
      var r2 := GetModel(b);
      same := r1.Ok? && r2.Ok? && r1.value == r2.value;
    }
  }

  // ----------------------------------------------------- automatic ftp

  /** The screening in `_filesCallback`: current, auto-get on, genuine,
      "progID.username" cmdr, known http root, own program (or APO), own
      files unless collaborator files are wanted. */
  function Screen(isCurrent: bool, autoGet: bool, isGenuine: bool, cmdr: string,
                  httpRoot: (Option<string>, Option<string>),
                  myProgID: string, myUsername: string, getCollab: bool): FileGetter.Verdict
  {
    if !isCurrent then FileGetter.NotCurrent
    else if !autoGet then FileGetter.DownloadsOff
    else if !isGenuine then FileGetter.NotGenuine
    else if |SplitOn(cmdr, '.')| != 2 then FileGetter.BadCmdr
    else if httpRoot.0.None? || httpRoot.1.None? then FileGetter.NoHttpRoot
    else if myProgID != SplitOn(cmdr, '.')[0] && myProgID != "APO" then FileGetter.OtherProgram
    else if !getCollab && SplitOn(cmdr, '.')[1] != myUsername then FileGetter.Collaborator
    else FileGetter.Accept
  }

  /** The exposure model accepts exactly the reports FileGetter accepts when
      auto-get is on exactly when FileGetter's count is non-zero. */
  lemma ScreenAgreesWithFileGetter(isCurrent: bool, autoGetNum: int, isGenuine: bool, cmdr: string,
                                   httpRoot: (Option<string>, Option<string>),
                                   myProgID: string, myUsername: string, getCollab: bool)
    ensures (Screen(isCurrent, autoGetNum != 0, isGenuine, cmdr, httpRoot, myProgID, myUsername, getCollab)
             == FileGetter.Accept)
            <==> (FileGetter.Screen(isCurrent, isGenuine, autoGetNum, cmdr, httpRoot, myProgID, myUsername, getCollab)
                  == FileGetter.Accept)
  {
  }

  const MoreFilesMsg := "More files than known cameras; cannot display image "

  /** The warnings the download loop logs from index `i` on: one per file
      name other than "None" that has no camera, when images are viewed. */
  function MoreFilesLog(fileNames: seq<string>, i: nat, cams: seq<string>, viewImage: bool): seq<string>
    decreases |fileNames| - i
  {
    if i >= |fileNames| then []
    else (if viewImage && fileNames[i] != "None" && i >= |cams| then [MoreFilesMsg + fileNames[i]] else [])
         + MoreFilesLog(fileNames, i + 1, cams, viewImage)
  }

  /** Appending a step's output and then the rest equals appending both at once. */
  lemma AppendStep<T>(done: seq<T>, step: seq<T>, rest: seq<T>)
    ensures (done + step) + rest == done + (step + rest)
  {
  }

  /** With no more file names than cameras, or when images are not viewed,
      nothing is logged. */
  lemma {:induction false} MoreFilesLogEmpty(fileNames: seq<string>, i: nat, cams: seq<string>, viewImage: bool)
    requires |fileNames| <= |cams| || !viewImage
    ensures MoreFilesLog(fileNames, i, cams, viewImage) == []
    decreases |fileNames| - i
  {
    if i < |fileNames| {
      MoreFilesLogEmpty(fileNames, i + 1, cams, viewImage);
    }
  }

  /** A warning is logged for every named file past the last camera. */
  lemma {:induction false} MoreFilesLogNames(fileNames: seq<string>, i: nat, cams: seq<string>, j: nat)
    requires i <= j < |fileNames| && j >= |cams| && fileNames[j] != "None"
    ensures MoreFilesMsg + fileNames[j] in MoreFilesLog(fileNames, i, cams, true)
    decreases j - i
  {
    if i < j {
      MoreFilesLogNames(fileNames, i + 1, cams, j);
    }
  }

  /** `_filesCallback`, for a report of 5 + number-of-cameras values: an
      accepted report requests one download per file name other than
      "None"; a camera (for display) is attached only when images are to
      be viewed. */
  class FilesWatcher {
    const info: ExpInfo
    var downloads: seq<FileGetter.DownloadArgs>
    var log: seq<string>

    constructor (info: ExpInfo)
      ensures this.info == info && downloads == [] && log == []
    {
      this.info := info;
      downloads := [];
      log := [];
    }

    method FilesCallback(fileInfo: seq<string>, isCurrent: bool, autoGet: bool, isGenuine: bool,
                         httpRoot: (Option<string>, Option<string>), myProgID: string, myUsername: string,
                         getCollab: bool, viewImage: bool, toRootDir: string)
      returns (r: Result<()>)
      requires |fileInfo| >= 5
      modifies this`downloads, this`log
      ensures var v := Screen(isCurrent, autoGet, isGenuine, fileInfo[0], httpRoot, myProgID, myUsername, getCollab);
              && (v == FileGetter.BadCmdr <==> r.Raise?)
              && (r.Raise? ==> r.exc.ValueError?)
              && (v != FileGetter.Accept ==> downloads == old(downloads))
              && (v == FileGetter.NoHttpRoot ==> log == old(log) + [FileGetter.NoHttpRootMsg])
              && (v != FileGetter.Accept && v != FileGetter.NoHttpRoot ==> log == old(log))
              && (v == FileGetter.Accept ==>
                    downloads == old(downloads)
                      + FileGetter.BatchFor(fileInfo[5..], 0, if viewImage then info.camNames else [],
                                            httpRoot.0.value, httpRoot.1.value, fileInfo[3], fileInfo[4], toRootDir)
                    && log == old(log) + MoreFilesLog(fileInfo[5..], 0, info.camNames, viewImage))
      ensures |fileInfo| == FilesNVal(info) ==> log == old(log) || log == old(log) + [FileGetter.NoHttpRootMsg]
    {
      r := Ok(());
      if !isCurrent || !autoGet || !isGenuine {
        return;
      }
      var cmdr, progDir, userDir := fileInfo[0], fileInfo[3], fileInfo[4];
      var parts := SplitOn(cmdr, '.');
      if |parts| != 2 {
        return Raise(ValueError("need exactly one '.' in " + cmdr));
      }
      var progID, username := parts[0], parts[1];
      var fileNames := fileInfo[5..];
      if httpRoot.0.None? || httpRoot.1.None? {
        log := log + [FileGetter.NoHttpRootMsg];
        return;
      }
      var host, fromRootDir := httpRoot.0.value, httpRoot.1.value;
      if myProgID != progID && myProgID != "APO" {
        return;
      }
      if !getCollab && username != myUsername {
        return;
      }
      var cams := if viewImage then info.camNames else [];
      QueueDownloads(fileNames, cams, viewImage, host, fromRootDir, progDir, userDir, toRootDir);
      assert fileNames == fileInfo[5..];
      if |fileInfo| == FilesNVal(info) {
        MoreFilesLogEmpty(fileNames, 0, info.camNames, viewImage);
      }
    }

    /** The loop of `_filesCallback` over the file names of an accepted
        report. */
    method QueueDownloads(fileNames: seq<string>, cams: seq<string>, viewImage: bool, host: string,
                          fromRootDir: string, progDir: string, userDir: string, toRootDir: string)
      requires cams == if viewImage then info.camNames else []
      modifies this`downloads, this`log
      ensures downloads == old(downloads)
        + FileGetter.BatchFor(fileNames, 0, cams, host, fromRootDir, progDir, userDir, toRootDir)
      ensures log == old(log) + MoreFilesLog(fileNames, 0, info.camNames, viewImage)
    {
      ghost var startDownloads := downloads;
      ghost var startLog := log;
      var ii := 0;
      while ii < |fileNames|
        invariant 0 <= ii <= |fileNames|
        invariant downloads + FileGetter.BatchFor(fileNames, ii, cams, host, fromRootDir, progDir, userDir, toRootDir)
                  == startDownloads + FileGetter.BatchFor(fileNames, 0, cams, host, fromRootDir, progDir, userDir, toRootDir)
        invariant log + MoreFilesLog(fileNames, ii, info.camNames, viewImage)
                  == startLog + MoreFilesLog(fileNames, 0, info.camNames, viewImage)
      {
        var fileName := fileNames[ii];
        ghost var oldDownloads, oldLog := downloads, log;
        ghost var rest := FileGetter.BatchFor(fileNames, ii + 1, cams, host, fromRootDir, progDir, userDir, toRootDir);
        ghost var restLog := MoreFilesLog(fileNames, ii + 1, info.camNames, viewImage);
        if fileName != "None" {
          var dispStr := progDir + userDir + fileName;
          var fromURL := "http://" + host + fromRootDir + progDir + userDir + fileName;
          var toPath := PathJoinAll(toRootDir, [progDir, userDir, fileName]);
          var camName: Option<string> := None;
          if viewImage {
            if ii < |info.camNames| {
              camName := Some(info.camNames[ii]);
            } else {
              log := log + [MoreFilesMsg + fileName];
            }
          }
          var args := FileGetter.DownloadArgs(fromURL, toPath, true, false, true, dispStr, camName);
          assert args == FileGetter.ArgsFor(fileName, ii, cams, host, fromRootDir, progDir, userDir, toRootDir);
          downloads := downloads + [args];
        }
        AppendStep(oldDownloads, downloads[|oldDownloads|..], rest);
        AppendStep(oldLog, log[|oldLog|..], restLog);
        ii := ii + 1;
      }
    }
  }
}
