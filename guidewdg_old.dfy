// TUI/Guide/GuideWdg.py as of tag 20050627_1.0b1: the guide image objects
// (BasicImObj, ImObj), the per-command star bookkeeping, the image history
// with its purge, and the small string-building helpers of the guide
// window. Tk display, annotations and the hub connection are outside the
// model; keyword-variable callbacks receive their values as parameters.

module GuideWdgOld {
  import opened Util
  import GuideImage
  import FTPGet

  type ImState = GuideImage.ImState

  /** `_LocalMode`, fixed off in the module. */
  const LocalMode := false
  /** `_HistLen`, the number of images kept in the history. */
  const HistLen: nat := 100

  /** `BasicImObj.isDone` of this version: only a downloaded image is done. */
  predicate IsDone(s: ImState)
  {
    s == GuideImage.Downloaded
  }

  /** `BasicImObj.didFail`. */
  predicate DidFail(s: ImState)
  {
    s == GuideImage.FileReadFailed || s == GuideImage.DownloadFailed || s == GuideImage.Expired
  }

  /** Done and failed exclude each other, and every state is exactly one of
      done, failed, ready or downloading. */
  lemma DoneFailedExclusive(s: ImState)
    ensures !(IsDone(s) && DidFail(s))
    ensures IsDone(s) || DidFail(s) || s == GuideImage.Ready || s == GuideImage.Downloading
    ensures DidFail(s) <==> GuideImage.DidFail(s)
  {
  }

  /** The arguments of one `ftpLogWdg.getFile` call. */
  datatype FtpRequest = FtpRequest(host: string, fromPath: string, toPath: string, isBinary: bool,
                                   overwrite: bool, createDir: bool, dispStr: string, username: string)

  const NoImageRootMsg := "server info (imageRoot) not yet known"

  class BasicImObj {
    const baseDir: string
    const imageName: string
    const isLocal: bool
    var isInSequence: bool
    var state: ImState
    var exception: Option<string>
    var hasCallback: bool
    /** The state at each call of the fetch callback. */
    var calls: seq<ImState>
    var requests: seq<FtpRequest>
    var hasMask: bool
    var deleted: bool

    constructor (baseDir: string, imageName: string, hasCallback: bool, isLocal: bool)
      ensures this.baseDir == baseDir && this.imageName == imageName
      ensures this.isLocal == (isLocal || LocalMode)
      ensures state == (if isLocal then GuideImage.Downloaded else GuideImage.Ready)
      ensures isInSequence == !isLocal
      ensures exception == None && this.hasCallback == hasCallback
      ensures calls == [] && requests == [] && !hasMask && !deleted
    {
      this.baseDir := baseDir;
      this.imageName := imageName;
      this.isLocal := isLocal || LocalMode;
      this.hasCallback := hasCallback;
      exception := None;
      state := if isLocal || LocalMode then GuideImage.Downloaded else GuideImage.Ready;
      isInSequence := !isLocal;
      calls := [];
      requests := [];
      hasMask := false;
      deleted := false;
    }

    /** `getLocalPath`. */
    function LocalPath(): string
      reads this
    {
      PathJoin(baseDir, imageName)
    }

    /** `getStateStr`. */
    function StateStr(): string
      reads this
    {
      GuideImage.StateStr(state, exception)
    }

    /** `_doCallback`: calls the callback if there is one and drops it once
        the image is downloaded. */
    method DoCallback()
      modifies this`hasCallback, this`calls
      ensures calls == old(calls) + (if old(hasCallback) then [state] else [])
      ensures hasCallback == (old(hasCallback) && !IsDone(state))
    {
      if hasCallback {
        calls := calls + [state];
      }
      if IsDone(state) {
        hasCallback := false;
      }
    }

    /** `fetchFile`, given the hub's image root (host, root directory). */
    method FetchFile(imageRoot: (Option<string>, Option<string>))
      modifies this`state, this`exception, this`hasCallback, this`calls, this`requests
      ensures isLocal ==>
                state == GuideImage.Downloaded && exception == old(exception) && requests == old(requests)
                && calls == old(calls) + (if old(hasCallback) then [state] else []) && !hasCallback
      ensures !isLocal && (imageRoot.0.None? || imageRoot.1.None?) ==>
                state == GuideImage.DownloadFailed && exception == Some(NoImageRootMsg)
                && requests == old(requests)
                && calls == old(calls) + (if old(hasCallback) then [state] else [])
                && hasCallback == old(hasCallback)
      ensures !isLocal && imageRoot.0.Some? && imageRoot.1.Some? ==>
                state == GuideImage.Downloading && exception == old(exception)
                && calls == old(calls) && hasCallback == old(hasCallback)
                && requests == old(requests)
                     + [FtpRequest(imageRoot.0.value, imageRoot.1.value + imageName, LocalPath(),
                                   true, true, true, imageName, "images")]
    {
      if isLocal {
        state := GuideImage.Downloaded;
        DoCallback();
        return;
      }
      if imageRoot.0.None? || imageRoot.1.None? {
        state := GuideImage.DownloadFailed;
        exception := Some(NoImageRootMsg);
        DoCallback();
        return;
      }
      state := GuideImage.Downloading;
      var fromPath := imageRoot.1.value + imageName;
      requests := requests + [FtpRequest(imageRoot.0.value, fromPath, LocalPath(), true, true, true, imageName, "images")];
    }

    /** `_fetchCallFunc`: progress reports of the FTP transfer are ignored
        until it has finished (FTP state <= 0); then the image is downloaded
        or failed with the transfer's exception, and the callback runs. */
    method FetchCallFunc(ftpState: int, ftpException: Option<string>)
      modifies this`state, this`exception, this`hasCallback, this`calls
      ensures !FTPGet.IsTerminal(ftpState) ==>
                state == old(state) && exception == old(exception)
                && calls == old(calls) && hasCallback == old(hasCallback)
      ensures FTPGet.IsTerminal(ftpState) ==>
                state == (if ftpState == FTPGet.Done then GuideImage.Downloaded else GuideImage.DownloadFailed)
                && exception == (if ftpState == FTPGet.Done then old(exception) else ftpException)
                && calls == old(calls) + (if old(hasCallback) then [state] else [])
                && hasCallback == (old(hasCallback) && ftpState != FTPGet.Done)
    {
      if !FTPGet.IsTerminal(ftpState) {
        return;
      }
      if ftpState == FTPGet.Done {
        state := GuideImage.Downloaded;
      } else {
        state := GuideImage.DownloadFailed;
        exception := ftpException;
      }
      DoCallback();
    }

    /** `getFITSObj`: only a downloaded image is opened; an empty file or
        one that cannot be opened marks the image FileReadFailed. */
    method GetFITSObj(outcome: GuideImage.FitsOpen) returns (ok: bool)
      modifies this`state, this`exception
      ensures ok <==> old(state) == GuideImage.Downloaded && outcome == GuideImage.Opened
      ensures old(state) != GuideImage.Downloaded || outcome == GuideImage.Opened ==>
                state == old(state) && exception == old(exception)
      ensures old(state) == GuideImage.Downloaded && outcome == GuideImage.NoData ==>
                state == GuideImage.FileReadFailed && exception == Some("No image data found")
      ensures old(state) == GuideImage.Downloaded && outcome.OpenFailed? ==>
                state == GuideImage.FileReadFailed && exception == Some(outcome.msg)
    {
      ok := false;
      if state == GuideImage.Downloaded {
        match outcome
        case Opened => ok := true;
        case NoData =>
          state := GuideImage.FileReadFailed;
          exception := Some("No image data found");
        case OpenFailed(m) =>
          state := GuideImage.FileReadFailed;
          exception := Some(m);
      }
    }

    /** `expire`: drops the mask; a downloaded, non-local image becomes
        Expired and its file is deleted. */
    method Expire(fileExists: bool)
      modifies this`state, this`deleted, this`hasMask
      ensures !hasMask
      ensures (isLocal || old(state) != GuideImage.Downloaded) ==> state == old(state) && deleted == old(deleted)
      ensures (!isLocal && old(state) == GuideImage.Downloaded) ==>
                state == GuideImage.Expired && deleted == (old(deleted) || fileExists)
    {
      hasMask := false;
      if isLocal {
        return;
      }
      if state == GuideImage.Downloaded {
        state := GuideImage.Expired;
        if fileExists {
          deleted := true;
        }
      }
    }
  }

  // ------------------------------------------------------------ star data

  /** One star record of the `star` keyword; the type character comes first. */
  datatype StarData = StarData(typeChar: string, values: seq<real>)

  /** `_TypeTagColorDict`: annotation tag and colour per star type. */
  function TypeTagColor(typeChar: string): (r: Option<(string, string)>)
    ensures r.Some? <==> typeChar == "c" || typeChar == "f"
  {
    if typeChar == "c" then Some(("centroid", "cyan"))
    else if typeChar == "f" then Some(("findStar", "green"))
    else None
  }

  /** What an image knows about its stars: the types seen so far for the
      current command (in order), the stars per type (types of an earlier
      command of the same image stay until restarted), and the selected
      star with its colour. */
  datatype StarBook = StarBook(saw: seq<string>, stars: map<string, seq<StarData>>, sel: Option<(StarData, string)>)

  const NoStars := StarBook([], map[], None)

  predicate BookOk(b: StarBook)
  {
    forall t :: t in b.saw ==> t in b.stars
  }

  /** `updStar` on the matching image: a type seen before gets the star
      appended; the first star of a type restarts that type's list, and the
      first star of any type becomes the selection. */
  function AddStar(b: StarBook, s: StarData): StarBook
    requires BookOk(b) && TypeTagColor(s.typeChar).Some?
  {
    var t := s.typeChar;
    if t in b.saw then b.(stars := b.stars[t := b.stars[t] + [s]])
    else
      StarBook(b.saw + [t], b.stars[t := [s]],
               if b.saw == [] then Some((s, TypeTagColor(t).value.1)) else b.sel)
  }

  predicate AllKnown(ss: seq<StarData>)
  {
    forall k :: 0 <= k < |ss| ==> TypeTagColor(ss[k].typeChar).Some?
  }

  /** The star book after the stars of one command arrive in order,
      starting from `b0`. */
  function Replay(b0: StarBook, ss: seq<StarData>): (b: StarBook)
    requires BookOk(b0) && AllKnown(ss)
    ensures BookOk(b)
    ensures ss == [] ==> b == b0
    ensures ss != [] ==> b.saw != []
  {
    if ss == [] then b0
    else
      var prev := Replay(b0, ss[..|ss| - 1]);
      AddStar(prev, ss[|ss| - 1])
  }

  function OfType(ss: seq<StarData>, t: string): seq<StarData>
  {
    if ss == [] then [] else OfType(ss[..|ss| - 1], t) + (if ss[|ss| - 1].typeChar == t then [ss[|ss| - 1]] else [])
  }

  predicate HasType(ss: seq<StarData>, t: string)
  {
    exists k :: 0 <= k < |ss| && ss[k].typeChar == t
  }

  /** After the stars `ss` of a command arrive on book `b0`: the types seen
      are exactly those of `ss`; a type of `ss` holds exactly its stars in
      `ss`; every other type of `b0` keeps its earlier stars. */
  ghost predicate Describes(b: StarBook, b0: StarBook, ss: seq<StarData>)
  {
    (forall t :: t in b.saw <==> HasType(ss, t))
    && (forall t :: t in b.stars <==> t in b0.stars || HasType(ss, t))
    && (forall t :: t in b.stars ==> b.stars[t] == if HasType(ss, t) then OfType(ss, t) else b0.stars[t])
  }

  lemma AddStarStep(b: StarBook, b0: StarBook, init: seq<StarData>, s: StarData)
    requires BookOk(b) && TypeTagColor(s.typeChar).Some? && Describes(b, b0, init)
    ensures Describes(AddStar(b, s), b0, init + [s])
  {
    var ss := init + [s];
    assert ss[..|ss| - 1] == init;
    var b' := AddStar(b, s);
    forall t
      ensures t in b'.saw <==> HasType(ss, t)
      ensures t in b'.stars <==> t in b0.stars || HasType(ss, t)
      ensures t in b'.stars ==> b'.stars[t] == if HasType(ss, t) then OfType(ss, t) else b0.stars[t]
    {
      HasTypeSnoc(init, s, t);
      if t == s.typeChar && !HasType(init, t) {
        OfTypeAbsent(init, t);
      }
    }
  }

  /** Star data accumulates per command: on a new image, or on an image
      restarted for a later command (no type seen yet), each type of the
      command holds exactly its stars in arrival order, and a type the
      command does not send keeps the stars of the earlier command. */
  lemma {:induction false} ReplayAccumulates(b0: StarBook, ss: seq<StarData>)
    requires BookOk(b0) && b0.saw == [] && AllKnown(ss)
    ensures Describes(Replay(b0, ss), b0, ss)
  {
    if ss == [] {
      NothingDescribed(b0);
    } else {
      var init := ss[..|ss| - 1];
      var s := ss[|ss| - 1];
      assert AllKnown(init);
      ReplayAccumulates(b0, init);
      assert ss == init + [s];
      AddStarStep(Replay(b0, init), b0, init, s);
    }
  }

  lemma NothingDescribed(b0: StarBook)
    requires b0.saw == []
    ensures Describes(b0, b0, [])
  {
    assert forall t :: !HasType([], t);
  }

  /** On a new image the book holds exactly the types that arrived. */
  lemma NewImageAccumulates(ss: seq<StarData>)
    requires AllKnown(ss)
    ensures forall t :: t in Replay(NoStars, ss).stars <==> HasType(ss, t)
    ensures forall t :: t in Replay(NoStars, ss).stars ==> Replay(NoStars, ss).stars[t] == OfType(ss, t)
  {
    ReplayAccumulates(NoStars, ss);
  }

  /** Re-using an image for a later command (`doExistingImage`) keeps the
      stars of every type the later command does not send. */
  lemma StaleTypesSurvive(b: StarBook, ss: seq<StarData>, t: string)
    requires BookOk(b) && AllKnown(ss) && t in b.stars && !HasType(ss, t)
    ensures t in Replay(b.(saw := []), ss).stars
    ensures Replay(b.(saw := []), ss).stars[t] == b.stars[t]
  {
    ReplayAccumulates(b.(saw := []), ss);
  }

  /** The selected star is the first star of the command, in its type's
      colour; later stars never change it; with no star yet the earlier
      selection stays. */
  lemma {:induction false} ReplaySelectsFirst(b0: StarBook, ss: seq<StarData>)
    requires BookOk(b0) && b0.saw == [] && AllKnown(ss)
    ensures ss == [] ==> Replay(b0, ss).sel == b0.sel
    ensures ss != [] ==> Replay(b0, ss).sel == Some((ss[0], TypeTagColor(ss[0].typeChar).value.1))
  {
    if ss != [] {
      var init := ss[..|ss| - 1];
      assert AllKnown(init);
      ReplaySelectsFirst(b0, init);
      if init != [] {
        assert init[0] == ss[0];
      }
    }
  }

  lemma HasTypeSnoc(init: seq<StarData>, s: StarData, t: string)
    ensures HasType(init + [s], t) <==> HasType(init, t) || s.typeChar == t
  {
    var ss := init + [s];
    if HasType(ss, t) {
      var k :| 0 <= k < |ss| && ss[k].typeChar == t;
      if k < |init| {
        assert init[k] == ss[k];
      }
    }
    if HasType(init, t) {
      var k :| 0 <= k < |init| && init[k].typeChar == t;
      assert ss[k] == init[k];
    }
    if s.typeChar == t {
      assert ss[|init|] == s;
    }
  }

  lemma {:induction false} OfTypeAbsent(ss: seq<StarData>, t: string)
    requires !HasType(ss, t)
    ensures OfType(ss, t) == []
  {
    if ss != [] {
      var init := ss[..|ss| - 1];
      forall k | 0 <= k < |init|
        ensures init[k].typeChar != t
      {
        assert ss[k] == init[k];
      }
      OfTypeAbsent(init, t);
    }
  }

  class ImObj {
    const imageName: string
    var cmdChar: string
    var cmdrCmdID: (string, int)
    var book: StarBook
    var defRadMult: Option<real>
    var defThresh: Option<real>
    var currRadMult: Option<real>
    var currThresh: Option<real>

    ghost predicate Valid()
      reads this
    {
      BookOk(book)
    }

    constructor (imageName: string, cmdChar: string, cmdr: string, cmdID: int,
                 defRadMult: Option<real>, defThresh: Option<real>)
      ensures Valid() && this.imageName == imageName && this.cmdChar == cmdChar && cmdrCmdID == (cmdr, cmdID)
      ensures book == NoStars
      ensures this.defRadMult == defRadMult && this.defThresh == defThresh
      ensures currRadMult == None && currThresh == None
    {
      this.imageName := imageName;
      this.cmdChar := cmdChar;
      cmdrCmdID := (cmdr, cmdID);
      book := NoStars;
      this.defRadMult := defRadMult;
      this.defThresh := defThresh;
      currRadMult := None;
      currThresh := None;
    }

    /** `updStar` once the image is found: an unknown type character raises
        RuntimeError; otherwise the star is filed. The result says whether
        the selection was reset. */
    method UpdStar(s: StarData) returns (r: Result<bool>)
      requires Valid()
      modifies this`book
      ensures Valid()
      ensures TypeTagColor(s.typeChar).None? ==> r.Raise? && r.exc.RuntimeError? && book == old(book)
      ensures TypeTagColor(s.typeChar).Some? ==>
                book == AddStar(old(book), s) && r == Ok(old(book).saw == [])
    {
      var tc := TypeTagColor(s.typeChar);
      if tc.None? {
        return Raise(RuntimeError("Unknown type character " + PyRepr(s.typeChar) + " for star data"));
      }
      var updSel := false;
      var t := s.typeChar;
      if t in book.saw {
        book := book.(stars := book.stars[t := book.stars[t] + [s]]);
      } else {
        var sel := book.sel;
        if book.saw == [] {
          sel := Some((s, tc.value.1));
          updSel := true;
        }
        book := StarBook(book.saw + [t], book.stars[t := [s]], sel);
      }
      r := Ok(updSel);
    }

    /** `updRadMult` once the image is found: the first value reported also
        becomes the default. */
    method UpdRadMult(radMult: Option<real>)
      modifies this`defRadMult, this`currRadMult
      ensures currRadMult == radMult
      ensures defRadMult == if old(currRadMult).None? then radMult else old(defRadMult)
    {
      if currRadMult.None? {
        defRadMult := radMult;
      }
      currRadMult := radMult;
    }

    /** `updThresh` once the image is found. */
    method UpdThresh(thresh: Option<real>)
      modifies this`defThresh, this`currThresh
      ensures currThresh == thresh
      ensures defThresh == if old(currThresh).None? then thresh else old(defThresh)
    {
      if currThresh.None? {
        defThresh := thresh;
      }
      currThresh := thresh;
    }
  }

  /** `doExistingImage`: data for a known image is about to arrive. `im` is
      `imObjDict.get(imageName)`. An unknown image, or a command another
      commander sent, is ignored. Otherwise the image is pointed at the new
      command and the types seen are cleared; the stars stay. */
  method DoExistingImage(im: Option<ImObj>, cmdChar: string, cmdr: string, cmdID: int, myCmdr: string)
    requires im.Some? ==> im.value.Valid()
    modifies if im.Some? then {im.value} else {}
    ensures im.Some? ==> im.value.Valid()
    ensures im.Some? && cmdr != myCmdr ==> unchanged(im.value)
    ensures im.Some? && cmdr == myCmdr ==>
              im.value.cmdChar == cmdChar && im.value.cmdrCmdID == (cmdr, cmdID)
              && im.value.book == old(im.value.book).(saw := [])
              && im.value.defRadMult == old(im.value.defRadMult) && im.value.defThresh == old(im.value.defThresh)
              && im.value.currRadMult == old(im.value.currRadMult) && im.value.currThresh == old(im.value.currThresh)
  {
    if im.None? || cmdr != myCmdr {
      return;
    }
    var imObj := im.value;
    imObj.cmdChar := cmdChar;
    imObj.cmdrCmdID := (cmdr, cmdID);
    imObj.book := imObj.book.(saw := []);
  }

  /** The outcome of `doFindStars`. */
  datatype FindOutcome = NoCommand | Command(cmdStr: string) | Message(msg: string, severity: Severity)

  /** `doFindStars`, given the displayed image, the numbers in the radMult
      and threshold fields and how `%s` renders a number: a warning when no
      image is displayed; no command when a field is empty or nothing
      changed; otherwise both values become current and the command is
      sent. */
  method FindStars(disp: Option<ImObj>, radMult: Option<real>, thresh: Option<real>, fmt: real -> string)
    returns (r: FindOutcome)
    modifies if disp.Some? then {disp.value} else {}
    ensures disp.None? ==> r == Message("No guide image", Warning)
    ensures disp.Some? && (radMult.None? || thresh.None?
                           || (radMult == old(disp.value.currRadMult) && thresh == old(disp.value.currThresh)))
            ==> r == NoCommand && unchanged(disp.value)
    ensures disp.Some? && radMult.Some? && thresh.Some?
            && (radMult != old(disp.value.currRadMult) || thresh != old(disp.value.currThresh))
            ==> var im := disp.value;
                im.currRadMult == radMult && im.currThresh == thresh
                && im.book == old(im.book) && im.defRadMult == old(im.defRadMult) && im.defThresh == old(im.defThresh)
                && im.cmdChar == old(im.cmdChar) && im.cmdrCmdID == old(im.cmdrCmdID)
                && r == Command("findstars file=" + PyRepr(im.imageName) + " thresh=" + fmt(thresh.value)
                                + " radMult=" + fmt(radMult.value))
  {
    if disp.None? {
      return Message("No guide image", Warning);
    }
    var im := disp.value;
    if radMult.None? || thresh.None? {
      return NoCommand;
    }
    if radMult == im.currRadMult && thresh == im.currThresh {
      return NoCommand;
    }
    im.currThresh := thresh;
    im.currRadMult := radMult;
    r := Command("findstars file=" + PyRepr(im.imageName) + " thresh=" + fmt(thresh.value) + " radMult=" + fmt(radMult.value));
  }

  /** `imObjFromKeyVar`: the first image (in history order) whose
      (cmdr, cmdID) is the keyword's; None when there is none or the
      keyword has none. */
  function FindImage(ids: seq<(string, int)>, cmdrCmdID: Option<(string, int)>): (r: Option<nat>)
    ensures r.Some? ==> cmdrCmdID.Some? && r.value < |ids| && ids[r.value] == cmdrCmdID.value
                        && forall k :: 0 <= k < r.value ==> ids[k] != cmdrCmdID.value
    ensures r.None? ==> cmdrCmdID.None? || cmdrCmdID.value !in ids
  {
    if cmdrCmdID.None? then None
    else if cmdrCmdID.value !in ids then None
    else
      var i := FirstIndex(ids, cmdrCmdID.value);
      Some(i)
  }

  function FirstIndex<T(==)>(s: seq<T>, x: T): (i: nat)
    requires x in s
    ensures i < |s| && s[i] == x && forall k :: 0 <= k < i ==> s[k] != x
  {
    if s[0] == x then 0 else 1 + FirstIndex(s[1..], x)
  }

  // --------------------------------------------------------- guide window

  /** The tokens `getExpArgStr` emits: exposure time, bin factor, radMult
      (only with `inclRadMult`) and threshold (only with `inclThresh`),
      each only when its field is not blank. */
  function ExpArgs(expTime: string, binFac: string, radMult: string, thresh: string,
                   inclThresh: bool, inclRadMult: bool): seq<string>
  {
    (if expTime != "" then ["exptime=" + expTime] else [])
    + (if binFac != "" then ["bin=" + binFac] else [])
    + (if inclRadMult && radMult != "" then ["radMult=" + radMult] else [])
    + (if inclThresh && thresh != "" then ["thresh=" + thresh] else [])
  }

  /** `getExpArgStr`. */
  function GetExpArgStr(expTime: string, binFac: string, radMult: string, thresh: string,
                        inclThresh: bool, inclRadMult: bool): string
  {
    Join(" ", ExpArgs(expTime, binFac, radMult, thresh, inclThresh, inclRadMult))
  }

  /** When the fields hold no blanks, the argument string splits back into
      exactly the non-blank fields, in the order exptime, bin, radMult,
      thresh; with the defaults (threshold, no radMult) radMult is absent. */
  lemma ExpArgStrTokens(expTime: string, binFac: string, radMult: string, thresh: string,
                        inclThresh: bool, inclRadMult: bool)
    requires NoSpace(expTime) && NoSpace(binFac) && NoSpace(radMult) && NoSpace(thresh)
    ensures SplitWS(GetExpArgStr(expTime, binFac, radMult, thresh, inclThresh, inclRadMult))
            == ExpArgs(expTime, binFac, radMult, thresh, inclThresh, inclRadMult)
    ensures |ExpArgs(expTime, binFac, radMult, thresh, true, false)|
            == (if expTime != "" then 1 else 0) + (if binFac != "" then 1 else 0) + (if thresh != "" then 1 else 0)
  {
    var toks := ExpArgs(expTime, binFac, radMult, thresh, inclThresh, inclRadMult);
    forall k | 0 <= k < |toks|
      ensures toks[k] != "" && NoSpace(toks[k])
    {
      assert toks[k] == "exptime=" + expTime || toks[k] == "bin=" + binFac
          || toks[k] == "radMult=" + radMult || toks[k] == "thresh=" + thresh;
    }
    SplitWSJoin(toks);
  }

  /** `getHistInfo`: the history (newest first) and the position of the
      displayed image in it, if any. */
  function HistIndex<T(==)>(hist: seq<T>, disp: Option<T>): (r: Option<nat>)
    ensures r.Some? ==> disp.Some? && r.value < |hist| && hist[r.value] == disp.value
    ensures r.None? <==> disp.None? || disp.value !in hist
  {
    if disp.Some? && disp.value in hist then Some(FirstIndex(hist, disp.value)) else None
  }

  /** `isGuiding`: false exactly when the guide state is unknown or "off"
      in any letter case. */
  function IsGuiding(guideState: Option<string>): (r: bool)
    ensures !r <==> guideState.None? || Lower(guideState.value) == "off"
  {
    guideState.Some? && Lower(guideState.value) != "off"
  }

  /** `updGuideState`: the non-empty items of the guide state, joined by "-". */
  function GuideStateStr(items: seq<Option<string>>): string
  {
    Join("-", NonEmpty(Present(items)))
  }

  function Present(items: seq<Option<string>>): (r: seq<string>)
    ensures |r| == |items|
    ensures forall k :: 0 <= k < |items| ==> r[k] == (if items[k].Some? then items[k].value else "")
  {
    if items == [] then [] else [if items[0].Some? then items[0].value else ""] + Present(items[1..])
  }

  /** The guide-state string is empty exactly when no item is a non-empty
      string. When no item contains "-", splitting the string at "-" gives
      back the non-empty items in order, so nothing is lost or merged. */
  lemma {:induction false} GuideStateStrParts(items: seq<Option<string>>)
    requires forall k :: 0 <= k < |items| && items[k].Some? ==> '-' !in items[k].value
    ensures GuideStateStr(items) == "" <==> forall k :: 0 <= k < |items| ==> items[k].None? || items[k].value == ""
    ensures GuideStateStr(items) != "" ==> SplitOn(GuideStateStr(items), '-') == NonEmpty(Present(items))
  {
    var present := Present(items);
    var ne := NonEmpty(present);
    if ne == [] {
      forall k | 0 <= k < |items|
        ensures items[k].None? || items[k].value == ""
      {
        assert present[k] in present;
      }
    } else {
      assert ne[0] in ne;
      assert Join("-", ne)[..|ne[0]|] == ne[0] by {
        if |ne| > 1 {
          assert Join("-", ne) == ne[0] + "-" + Join("-", ne[1..]);
        }
      }
      forall j | 0 <= j < |ne|
        ensures '-' !in ne[j]
      {
        assert ne[j] in ne;
        var k :| 0 <= k < |present| && present[k] == ne[j];
      }
      JoinSplitOn(ne, '-');
    }
  }

  /** What a history-navigation button does. */
  datatype NavResult<T> = Show(item: T) | Status(msg: string, severity: Severity)

  /** `doNextIm` as written: the newer image is `revHist[currInd-1]`, and
      Python negative indexing makes index -1 the oldest image. */
  function NextImAsWritten<T>(hist: seq<T>, currInd: Option<nat>): NavResult<T>
    requires currInd.Some? ==> currInd.value < |hist|
  {
    if currInd.None? then Status("Position in history unknown", Warning)
    else
      match PyIndex(hist, currInd.value - 1)
      case Some(name) => Show(name)
      case None => Status("Showing newest image", Warning)
  }

  /** Showing the newest image and asking for the next one shows the
      oldest instead of reporting "Showing newest image". */
  lemma NextImWrapsAround()
    ensures NextImAsWritten(["new", "mid", "old"], Some(0)) == Show("old")
  {
  }

  /** `doNextIm` as intended (and as the trunk version reads): move only
      when there is a newer image. */
  function NextIm<T>(hist: seq<T>, currInd: Option<nat>): (r: NavResult<T>)
    requires currInd.Some? ==> currInd.value < |hist|
    ensures currInd.Some? && currInd.value > 0 ==> r == Show(hist[currInd.value - 1])
    ensures currInd == Some(0) ==> r == Status("Showing newest image", Warning)
    ensures currInd.None? ==> r.Status?
  {
    if currInd.None? then Status("Position in history unknown", Warning)
    else if currInd.value > 0 then Show(hist[currInd.value - 1])
    else Status("Showing newest image", Warning)
  }

  /** The code as written and the intended rule agree exactly away from the
      newest image; at the newest one the code as written moves. */
  lemma NextImAsWrittenDiffers<T>(hist: seq<T>, i: nat)
    requires i < |hist|
    ensures NextImAsWritten(hist, Some(i)) == NextIm(hist, Some(i)) <==> i > 0
    ensures NextImAsWritten(hist, Some(0)) == Show(hist[|hist| - 1])
  {
  }

  /** `doPrevIm` (after switching "Current" off): past the oldest image it
      reports "Showing oldest image"; an unknown position is reported with
      `unknownSev` (an error in this version, a warning in the trunk). */
  function PrevIm<T>(hist: seq<T>, currInd: Option<nat>, unknownSev: Severity): (r: NavResult<T>)
    ensures currInd.Some? && currInd.value + 1 < |hist| ==> r == Show(hist[currInd.value + 1])
    ensures currInd.Some? && currInd.value + 1 >= |hist| ==> r == Status("Showing oldest image", Warning)
    ensures currInd.None? ==> r == Status("Position in history unknown", unknownSev)
  {
    if currInd.None? then Status("Position in history unknown", unknownSev)
    else
      match PyIndex(hist, currInd.value + 1)
      case Some(name) => Show(name)
      case None => Status("Showing oldest image", Warning)
  }

  // ----------------------------------------------------------- history

  /** The images `updFiles` keeps: the `nToSave` newest, plus the displayed
      image wherever it is. */
  function Kept(hist: seq<string>, nToSave: nat, disp: Option<string>): (r: seq<string>)
  {
    if |hist| <= nToSave then hist
    else hist[..nToSave] + KeepOnly(hist[nToSave..], disp)
  }

  function KeepOnly(names: seq<string>, disp: Option<string>): seq<string>
  {
    if names == [] then []
    else (if disp == Some(names[0]) then [names[0]] else []) + KeepOnly(names[1..], disp)
  }

  /** The images the purge removes (and expires), newest first. */
  function Purged(hist: seq<string>, nToSave: nat, disp: Option<string>): seq<string>
  {
    if |hist| <= nToSave then [] else DropOnly(hist[nToSave..], disp)
  }

  function DropOnly(names: seq<string>, disp: Option<string>): seq<string>
  {
    if names == [] then []
    else (if disp == Some(names[0]) then [] else [names[0]]) + DropOnly(names[1..], disp)
  }

  /** Whether the purged part holds the displayed image after a purged one
      (the purge then marks it as out of sequence). */
  function DispAfterPurged(names: seq<string>, disp: Option<string>, isNewest: bool): bool
  {
    if names == [] then false
    else if disp == Some(names[0]) then !isNewest || DispAfterPurged(names[1..], disp, isNewest)
    else DispAfterPurged(names[1..], disp, false)
  }

  lemma {:induction false} KeepDropSplit(names: seq<string>, disp: Option<string>)
    ensures |KeepOnly(names, disp)| + |DropOnly(names, disp)| == |names|
    ensures forall x :: x in DropOnly(names, disp) ==> x in names && Some(x) != disp
    ensures forall x :: x in KeepOnly(names, disp) ==> Some(x) == disp
    ensures forall x :: x in names && Some(x) != disp ==> x in DropOnly(names, disp)
    ensures disp.Some? && disp.value in names ==> disp.value in KeepOnly(names, disp)
  {
    if names != [] {
      KeepDropSplit(names[1..], disp);
      assert names == [names[0]] + names[1..];
    }
  }

  /** After the purge the history holds the newest `nToSave` images and the
      displayed one (only those); every other image is purged, and nothing
      is lost or invented. */
  lemma PurgeKeepsNewestAndDisplayed(hist: seq<string>, nToSave: nat, disp: Option<string>)
    requires forall i, j :: 0 <= i < j < |hist| ==> hist[i] != hist[j]
    ensures var kept := Kept(hist, nToSave, disp);
            |kept| <= nToSave + 1
            && kept[..if |hist| < nToSave then |hist| else nToSave] == hist[..if |hist| < nToSave then |hist| else nToSave]
            && (disp.Some? && disp.value in hist ==> disp.value in kept)
            && |kept| + |Purged(hist, nToSave, disp)| == |hist|
            && (forall x :: x in Purged(hist, nToSave, disp) ==> x in hist && x !in kept)
  {
    if |hist| > nToSave {
      var tail := hist[nToSave..];
      KeepDropSplit(tail, disp);
      KeepOnlyAtMostOne(tail, disp);
      assert hist == hist[..nToSave] + tail;
      forall x | x in Purged(hist, nToSave, disp)
        ensures x in hist && x !in Kept(hist, nToSave, disp)
      {
        assert x in tail;
        var j :| 0 <= j < |tail| && tail[j] == x;
        assert hist[nToSave + j] == x;
        forall i | 0 <= i < nToSave
          ensures hist[..nToSave][i] != x
        {
          assert hist[..nToSave][i] == hist[i];
        }
      }
    }
  }

  lemma {:induction false} KeepOnlyAtMostOne(names: seq<string>, disp: Option<string>)
    requires forall i, j :: 0 <= i < j < |names| ==> names[i] != names[j]
    ensures |KeepOnly(names, disp)| <= 1
  {
    if names != [] {
      KeepOnlyAbsent(names[1..], disp);
      if disp == Some(names[0]) {
        forall k | 0 <= k < |names[1..]|
          ensures names[1..][k] != names[0]
        {
          assert names[1..][k] == names[k + 1];
        }
      } else {
        KeepOnlyAtMostOne(names[1..], disp);
      }
    }
  }

  lemma {:induction false} KeepOnlyAbsent(names: seq<string>, disp: Option<string>)
    ensures disp.None? || disp.value !in names ==> KeepOnly(names, disp) == []
  {
    if names != [] {
      KeepOnlyAbsent(names[1..], disp);
    }
  }

  class GuideWdg {
    /** Image names, newest first (the keys of `imObjDict`). */
    var hist: seq<string>
    var disp: Option<string>
    const nToSave: nat
    /** Images removed from the history and expired, in purge order. */
    var expired: seq<string>
    /** Images whose `isInSequence` the purge cleared. */
    var outOfSequence: set<string>

    constructor ()
      ensures hist == [] && disp == None && nToSave == HistLen && expired == [] && outOfSequence == {}
    {
      hist, disp, nToSave, expired, outOfSequence := [], None, HistLen, [], {};
    }

    /** `addImToHist` without a position: a new name becomes the newest
        entry (an existing key keeps its place). */
    method AddImToHist(name: string)
      modifies this`hist
      ensures hist == if name in old(hist) then old(hist) else [name] + old(hist)
    {
      if name !in hist {
        hist := [name] + hist;
      }
    }

    /** The purge at the end of `updFiles`. */
    method PurgeHistory()
      modifies this`hist, this`expired, this`outOfSequence
      ensures hist == Kept(old(hist), nToSave, disp)
      ensures expired == old(expired) + Purged(old(hist), nToSave, disp)
      ensures outOfSequence == old(outOfSequence)
                + (if |old(hist)| > nToSave && disp.Some? && DispAfterPurged(old(hist)[nToSave..], disp, true)
                   then {disp.value} else {})
    {
      if |hist| <= nToSave {
        return;
      }
      var keys := hist;
      var tail := keys[nToSave..];
      var isNewest := true;
      var i := 0;
      ghost var startExpired := expired;
      ghost var startOut := outOfSequence;
      hist := keys[..nToSave];
      while i < |tail|
        invariant 0 <= i <= |tail|
        invariant hist == keys[..nToSave] + KeepOnly(tail[..i], disp)
        invariant expired == startExpired + DropOnly(tail[..i], disp)
        invariant isNewest == (DropOnly(tail[..i], disp) == [])
        invariant outOfSequence == startOut
                    + (if disp.Some? && DispAfterPurged(tail[..i], disp, true) then {disp.value} else {})
        decreases |tail| - i
      {
        var imName := tail[i];
        KeepDropSnoc(tail[..i], imName, disp);
        assert tail[..i + 1] == tail[..i] + [imName];
        if disp == Some(imName) {
          if !isNewest {
            outOfSequence := outOfSequence + {imName};
          }
          hist := hist + [imName];
        } else {
          expired := expired + [imName];
          isNewest := false;
        }
        i := i + 1;
      }
      assert tail[..i] == tail;
    }
  }

  lemma {:induction false} KeepDropSnoc(names: seq<string>, x: string, disp: Option<string>)
    ensures KeepOnly(names + [x], disp) == KeepOnly(names, disp) + (if disp == Some(x) then [x] else [])
    ensures DropOnly(names + [x], disp) == DropOnly(names, disp) + (if disp == Some(x) then [] else [x])
    ensures DispAfterPurged(names + [x], disp, true)
            == (DispAfterPurged(names, disp, true) || (disp == Some(x) && DropOnly(names, disp) != []))
  {
    DispSnoc(names, x, disp, true);
    if names != [] {
      assert (names + [x])[1..] == names[1..] + [x];
      KeepDropSnoc(names[1..], x, disp);
    }
  }

  lemma {:induction false} DispSnoc(names: seq<string>, x: string, disp: Option<string>, isNewest: bool)
    ensures DispAfterPurged(names + [x], disp, isNewest)
            == (DispAfterPurged(names, disp, isNewest)
                || (disp == Some(x) && !(isNewest && DropOnly(names, disp) == [])))
  {
    if names != [] {
      assert (names + [x])[1..] == names[1..] + [x];
      if disp == Some(names[0]) {
        DispSnoc(names[1..], x, disp, isNewest);
      } else {
        DispSnoc(names[1..], x, disp, false);
      }
    }
  }
}
