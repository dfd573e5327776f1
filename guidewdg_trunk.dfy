// trunk/TUI/Guide/GuideWdg.py: the later guide window. Its image objects
// have no Expired state and keep their callback; the history purge drops
// every image past `nToSave`, displayed or not; only the threshold (no
// radMult) is tracked per image. Star filing reuses the rule of the
// earlier version (GuideWdgOld.AddStar), which this file applies unchanged.

module GuideWdgTrunk {
  import opened Util
  import GuideWdgOld
  import FTPGet

  /** The image states of this version (lower-case strings in the source). */
  datatype TState = Ready | Downloading | Downloaded | FileReadFailed | DownloadFailed

  function StateText(s: TState): string
  {
    match s
    case Ready => "ready to download"
    case Downloading => "downloading"
    case Downloaded => "downloaded"
    case FileReadFailed => "cannot read file"
    case DownloadFailed => "download failed"
  }

  /** `getStateStr`: the state, then ": " and the exception when it is
      non-empty. */
  function StateStr(s: TState, exception: Option<string>): (r: string)
    ensures StateText(s) <= r
    ensures r == StateText(s) <==> exception.None? || exception.value == ""
  {
    if exception.Some? && exception.value != "" then StateText(s) + ": " + exception.value else StateText(s)
  }

  const NoImageRootMsg := "server info (imageRoot) not yet known"

  class BasicImObj {
    const baseDir: string
    const imageName: string
    var state: TState
    var exception: Option<string>
    const hasCallback: bool
    /** The state at each call of the fetch callback. */
    var calls: seq<TState>
    var requests: seq<GuideWdgOld.FtpRequest>

    constructor (baseDir: string, imageName: string, hasCallback: bool)
      ensures this.baseDir == baseDir && this.imageName == imageName && this.hasCallback == hasCallback
      ensures state == Ready && exception == None && calls == [] && requests == []
    {
      this.baseDir := baseDir;
      this.imageName := imageName;
      this.hasCallback := hasCallback;
      state := Ready;
      exception := None;
      calls := [];
      requests := [];
    }

    /** `getLocalPath`. */
    function LocalPath(): string
      reads this
    {
      PathJoin(baseDir, imageName)
    }

    /** The FTP request `fetchFile` makes once the image root is known. */
    function Request(host: string, rootDir: string): GuideWdgOld.FtpRequest
      reads this
    {
      GuideWdgOld.FtpRequest(host, rootDir + imageName, LocalPath(), true, false, true, imageName, "images")
    }

    /** `fetchFile` as written: with the image root unknown the image fails,
        but the callback is only named, never called. With the root known
        the download is requested and the state left as it was. */
    method FetchFileAsWritten(imageRoot: (Option<string>, Option<string>))
      modifies this`state, this`exception, this`requests
      ensures imageRoot.0.None? || imageRoot.1.None? ==>
                state == DownloadFailed && exception == Some(NoImageRootMsg) && requests == old(requests)
      ensures imageRoot.0.Some? && imageRoot.1.Some? ==>
                state == old(state) && exception == old(exception)
                && requests == old(requests) + [Request(imageRoot.0.value, imageRoot.1.value)]
    {
      if imageRoot.0.None? || imageRoot.1.None? {
        state := DownloadFailed;
        exception := Some(NoImageRootMsg);
        return;
      }
      requests := requests + [Request(imageRoot.0.value, imageRoot.1.value)];
    }

    /** `fetchFile` as intended: a failure for want of the image root is
        reported to the callback like any other finished fetch. */
    method FetchFile(imageRoot: (Option<string>, Option<string>))
      modifies this`state, this`exception, this`requests, this`calls
      ensures imageRoot.0.None? || imageRoot.1.None? ==>
                state == DownloadFailed && exception == Some(NoImageRootMsg) && requests == old(requests)
                && calls == old(calls) + (if hasCallback then [DownloadFailed] else [])
      ensures imageRoot.0.Some? && imageRoot.1.Some? ==>
                state == old(state) && exception == old(exception) && calls == old(calls)
                && requests == old(requests) + [Request(imageRoot.0.value, imageRoot.1.value)]
    {
      if imageRoot.0.None? || imageRoot.1.None? {
        state := DownloadFailed;
        exception := Some(NoImageRootMsg);
        if hasCallback {
          calls := calls + [state];
        }
        return;
      }
      requests := requests + [Request(imageRoot.0.value, imageRoot.1.value)];
    }

    /** `_fetchCallFunc`: nothing happens until the transfer is done; then
        the image is downloaded, or failed with the transfer's exception,
        and the callback (which this version keeps) is called. */
    method FetchCallFunc(ftpState: int, ftpException: Option<string>)
      modifies this`state, this`exception, this`calls
      ensures !FTPGet.IsTerminal(ftpState) ==>
                state == old(state) && exception == old(exception) && calls == old(calls)
      ensures FTPGet.IsTerminal(ftpState) ==>
                state == (if ftpState == FTPGet.Done then Downloaded else DownloadFailed)
                && exception == (if ftpState == FTPGet.Done then old(exception) else ftpException)
                && calls == old(calls) + (if hasCallback then [state] else [])
    {
      if !FTPGet.IsTerminal(ftpState) {
        return;
      }
      if ftpState == FTPGet.Done {
        state := Downloaded;
      } else {
        state := DownloadFailed;
        exception := ftpException;
      }
      if hasCallback {
        calls := calls + [state];
      }
    }

    /** `getFITSObj`: a downloaded image is opened; if opening raises, the
        image becomes FileReadFailed with that exception. */
    method GetFITSObj(openError: Option<string>) returns (ok: bool)
      modifies this`state, this`exception
      ensures ok <==> old(state) == Downloaded && openError.None?
      ensures old(state) != Downloaded || openError.None? ==> state == old(state) && exception == old(exception)
      ensures old(state) == Downloaded && openError.Some? ==>
                state == FileReadFailed && exception == openError
    {
      ok := false;
      if state == Downloaded {
        if openError.None? {
          ok := true;
        } else {
          state := FileReadFailed;
          exception := openError;
        }
      }
    }
  }

  /** As written, a fetch that fails for want of the image root leaves a
      waiting guide window uninformed: no callback call is made, although
      the image is failed. */
  method FetchWithoutRootAsWritten() returns (failed: bool, notified: nat)
    ensures failed && notified == 0
  {
    var im := new BasicImObj("/tmp", "g0001.fits", true);
    im.FetchFileAsWritten((None, Some("/data/")));
    failed := im.state == DownloadFailed;
    notified := |im.calls|;
  }

  /** Every fetch that finishes, whatever the cause, reaches the callback
      exactly once with the final state. */
  method FetchWithoutRoot() returns (failed: bool, notified: seq<TState>)
    ensures failed && notified == [DownloadFailed]
  {
    var im := new BasicImObj("/tmp", "g0001.fits", true);
    im.FetchFile((None, Some("/data/")));
    failed := im.state == DownloadFailed;
    notified := im.calls;
  }

  class ImObj {
    const file: BasicImObj
    var cmdChar: string
    var cmdrCmdID: (string, int)
    var book: GuideWdgOld.StarBook
    var defThresh: Option<real>
    var currThresh: Option<real>

    ghost predicate Valid()
      reads this
    {
      GuideWdgOld.BookOk(book)
    }

    constructor (baseDir: string, imageName: string, cmdChar: string, cmdr: string, cmdID: int, hasCallback: bool)
      ensures Valid() && fresh(file)
      ensures file.baseDir == baseDir && file.imageName == imageName && file.hasCallback == hasCallback
      ensures file.state == Ready && file.exception == None && file.calls == [] && file.requests == []
      ensures this.cmdChar == cmdChar && cmdrCmdID == (cmdr, cmdID)
      ensures book == GuideWdgOld.NoStars && defThresh == None && currThresh == None
    {
      file := new BasicImObj(baseDir, imageName, hasCallback);
      this.cmdChar := cmdChar;
      cmdrCmdID := (cmdr, cmdID);
      book := GuideWdgOld.NoStars;
      defThresh := None;
      currThresh := None;
    }
  }

  /** The first image whose (cmdr, cmdID) is the given one. */
  function Match(images: seq<ImObj>, cmdrCmdID: (string, int)): (r: Option<nat>)
    reads images
    ensures r.Some? ==> r.value < |images| && images[r.value].cmdrCmdID == cmdrCmdID
                        && forall k :: 0 <= k < r.value ==> images[k].cmdrCmdID != cmdrCmdID
    ensures r.None? ==> forall k :: 0 <= k < |images| ==> images[k].cmdrCmdID != cmdrCmdID
  {
    if images == [] then None
    else if images[0].cmdrCmdID == cmdrCmdID then Some(0)
    else match Match(images[1..], cmdrCmdID)
      case None => None
      case Some(i) => Some(i + 1)
  }

  /** The images whose names are not `name`, in order. */
  function Without(images: seq<ImObj>, name: string): (r: seq<ImObj>)
    ensures forall k :: 0 <= k < |r| ==> r[k].file.imageName != name
  {
    if images == [] then []
    else (if images[0].file.imageName == name then [] else [images[0]]) + Without(images[1..], name)
  }

  /** The history is a dictionary keyed by image name: no name twice. */
  predicate UniqueNames(images: seq<ImObj>)
  {
    forall i, j :: 0 <= i < j < |images| ==> images[i].file.imageName != images[j].file.imageName
  }

  lemma {:induction false} WithoutAbsent(images: seq<ImObj>, name: string)
    requires forall k :: 0 <= k < |images| ==> images[k].file.imageName != name
    ensures Without(images, name) == images
  {
    if images != [] {
      WithoutAbsent(images[1..], name);
    }
  }

  lemma {:induction false} WithoutConcat(a: seq<ImObj>, b: seq<ImObj>, name: string)
    ensures Without(a + b, name) == Without(a, name) + Without(b, name)
  {
    if a == [] {
      assert a + b == b;
    } else {
      assert (a + b)[0] == a[0];
      assert (a + b)[1..] == a[1..] + b;
      WithoutConcat(a[1..], b, name);
    }
  }

  /** Deleting the entry for the name at the head of the tail removes that
      one entry and nothing else, when names are unique. */
  lemma DeleteFront(keep: seq<ImObj>, tail: seq<ImObj>)
    requires tail != []
    requires UniqueNames(keep + tail)
    ensures Without(keep + tail, tail[0].file.imageName) == keep + tail[1..]
  {
    var name := tail[0].file.imageName;
    var all := keep + tail;
    assert all[|keep|] == tail[0];
    forall k | 0 <= k < |keep|
      ensures keep[k].file.imageName != name
    {
      assert all[k] == keep[k];
    }
    var rest := tail[1..];
    forall k | 0 <= k < |rest|
      ensures rest[k].file.imageName != name
    {
      assert all[|keep| + 1 + k] == rest[k];
    }
    WithoutConcat(keep, tail, name);
    WithoutAbsent(keep, name);
    WithoutAbsent(rest, name);
    assert Without(tail, name) == rest;
  }

  class GuideWdg {
    /** The image objects, newest first (the values of `imObjDict`). */
    var images: seq<ImObj>
    var disp: Option<ImObj>
    const nToSave: nat

    /** The history is a dictionary keyed by image name. */
    ghost predicate Valid()
      reads this
    {
      UniqueNames(images)
    }

    constructor ()
      ensures Valid() && images == [] && disp == None && nToSave == GuideWdgOld.HistLen
    {
      images, disp, nToSave := [], None, GuideWdgOld.HistLen;
    }

    /** `getHistInfo`: the position of the displayed image in the history. */
    function HistInfo(): (r: Option<nat>)
      reads this
      ensures r.Some? ==> disp.Some? && r.value < |images| && images[r.value] == disp.value
      ensures r.None? <==> disp.None? || disp.value !in images
    {
      GuideWdgOld.HistIndex(images, disp)
    }

    /** `doNextIm`: the image just newer than the displayed one; at the
        newest image a warning and no move (the `currInd > 0` test). */
    function NextIm(): (r: GuideWdgOld.NavResult<ImObj>)
      reads this
      ensures HistInfo().None? ==> r == GuideWdgOld.Status("Position in history unknown", Warning)
      ensures HistInfo() == Some(0) ==> r == GuideWdgOld.Status("Showing newest image", Warning)
      ensures r.Show? <==> HistInfo().Some? && HistInfo().value > 0
      ensures r.Show? ==> exists i :: 0 < i < |images| && images[i] == disp.value && r.item == images[i - 1]
    {
      GuideWdgOld.NextIm(images, HistInfo())
    }

    /** `doPrevIm`: the image just older than the displayed one; past the
        oldest a warning; in this version an unknown position is only a
        warning. */
    function PrevIm(): (r: GuideWdgOld.NavResult<ImObj>)
      reads this
      ensures HistInfo().None? ==> r == GuideWdgOld.Status("Position in history unknown", Warning)
      ensures HistInfo().Some? && HistInfo().value + 1 >= |images|
              ==> r == GuideWdgOld.Status("Showing oldest image", Warning)
      ensures r.Show? <==> HistInfo().Some? && HistInfo().value + 1 < |images|
      ensures r.Show? ==> exists i :: 0 <= i < |images| - 1 && images[i] == disp.value && r.item == images[i + 1]
    {
      GuideWdgOld.PrevIm(images, HistInfo(), Warning)
    }

    /** The purge at the end of `updFiles`: every image past the first
        `nToSave` is deleted, the displayed one included. */
    method Purge()
      requires Valid()
      modifies this`images
      ensures Valid()
      ensures images == if |old(images)| > nToSave then old(images)[..nToSave] else old(images)
    {
      if |images| <= nToSave {
        return;
      }
      var keys := images;
      var i := nToSave;
      while i < |keys|
        invariant nToSave <= i <= |keys|
        invariant images == keys[..nToSave] + keys[i..]
        invariant Valid()
        decreases |keys| - i
      {
        DeleteFront(keys[..nToSave], keys[i..]);
        assert keys[i..][1..] == keys[i + 1..];
        images := Without(images, keys[i].file.imageName);
        i := i + 1;
        DistinctPrefixSuffix(keys, nToSave, i);
      }
      assert keys[i..] == [];
      assert images == keys[..nToSave];
    }

    /** `updStar`: data whose (cmdr, cmdID) matches no image is ignored;
        otherwise the star is filed on the first matching image. */
    method UpdStar(s: GuideWdgOld.StarData, cmdrCmdID: (string, int), isCurrent: bool)
      returns (r: Result<bool>)
      requires forall k :: 0 <= k < |images| ==> GuideWdgOld.BookOk(images[k].book)
      modifies if isCurrent && Match(images, cmdrCmdID).Some? then {images[Match(images, cmdrCmdID).value]} else {}
      ensures forall k :: 0 <= k < |images| ==> GuideWdgOld.BookOk(images[k].book)
      ensures !isCurrent || old(Match(images, cmdrCmdID)).None? ==> r == Ok(false)
      ensures isCurrent && old(Match(images, cmdrCmdID)).Some? ==>
                var im := images[old(Match(images, cmdrCmdID)).value];
                (GuideWdgOld.TypeTagColor(s.typeChar).None? ==> r.Raise? && r.exc.RuntimeError? && im.book == old(im.book))
                && (GuideWdgOld.TypeTagColor(s.typeChar).Some? ==>
                      im.book == GuideWdgOld.AddStar(old(im.book), s) && r == Ok(old(im.book).saw == []))
    {
      if !isCurrent {
        return Ok(false);
      }
      var m := Match(images, cmdrCmdID);
      if m.None? {
        return Ok(false);
      }
      var im := images[m.value];
      var tc := GuideWdgOld.TypeTagColor(s.typeChar);
      if tc.None? {
        return Raise(RuntimeError("Unknown type character " + PyRepr(s.typeChar) + " for star data"));
      }
      var updSel := false;
      var t := s.typeChar;
      if t in im.book.saw {
        im.book := im.book.(stars := im.book.stars[t := im.book.stars[t] + [s]]);
      } else {
        var sel := im.book.sel;
        if im.book.saw == [] {
          sel := Some((s, tc.value.1));
          updSel := true;
        }
        im.book := GuideWdgOld.StarBook(im.book.saw + [t], im.book.stars[t := [s]], sel);
      }
      r := Ok(updSel);
    }

    /** `updThresh`: on the first matching image the default threshold is
        set only while no current threshold is known; the current one is
        always replaced. Unmatched data is ignored. */
    method UpdThresh(thresh: Option<real>, cmdrCmdID: (string, int), isCurrent: bool)
      modifies if isCurrent && Match(images, cmdrCmdID).Some? then {images[Match(images, cmdrCmdID).value]} else {}
      ensures isCurrent && old(Match(images, cmdrCmdID)).Some? ==>
                var im := images[old(Match(images, cmdrCmdID)).value];
                im.currThresh == thresh
                && im.defThresh == (if old(im.currThresh).None? then thresh else old(im.defThresh))
                && im.book == old(im.book)
    {
      if !isCurrent {
        return;
      }
      var m := Match(images, cmdrCmdID);
      if m.None? {
        return;
      }
      var im := images[m.value];
      if im.currThresh.None? {
        im.defThresh := thresh;
      }
      im.currThresh := thresh;
    }

    /** `doFindStars`, given the number in the threshold field and how `%s`
        renders a number: nothing is sent when the threshold equals the
        displayed image's current one. */
    method FindStars(thresh: Option<real>, fmt: real -> string) returns (r: GuideWdgOld.FindOutcome)
      modifies if disp.Some? then {disp.value} else {}
      ensures disp.None? ==> r == GuideWdgOld.Message("No guide image", Warning)
      ensures disp.Some? && thresh == old(disp.value.currThresh) ==> r == GuideWdgOld.NoCommand
      ensures disp.Some? && thresh != old(disp.value.currThresh) ==>
                disp.value.currThresh == thresh
                && r == GuideWdgOld.Command("findstars file=" + PyRepr(disp.value.file.imageName) + " thresh="
                                + (if thresh.Some? then fmt(thresh.value) else "None"))
    {
      if disp.None? {
        return GuideWdgOld.Message("No guide image", Warning);
      }
      var im := disp.value;
      if thresh == im.currThresh {
        return GuideWdgOld.NoCommand;
      }
      im.currThresh := thresh;
      r := GuideWdgOld.Command("findstars file=" + PyRepr(im.file.imageName) + " thresh="
                   + (if thresh.Some? then fmt(thresh.value) else "None"));
    }

    /** `doExistingImage`: data for a known image is about to arrive. An
        image not in the history, or a command another commander sent, is
        ignored. Otherwise the image is pointed at the new command, so star
        and threshold data of that command reach it, and the types seen are
        cleared; its stars stay. */
    method DoExistingImage(imageName: string, cmdChar: string, cmdr: string, cmdID: int, myCmdr: string)
      requires forall k :: 0 <= k < |images| ==> GuideWdgOld.BookOk(images[k].book)
      modifies if IndexOfName(images, imageName).Some? && cmdr == myCmdr
               then {images[IndexOfName(images, imageName).value]} else {}
      ensures forall k :: 0 <= k < |images| ==> GuideWdgOld.BookOk(images[k].book)
      ensures IndexOfName(images, imageName).Some? && cmdr == myCmdr ==>
                var im := images[IndexOfName(images, imageName).value];
                im.cmdChar == cmdChar && im.cmdrCmdID == (cmdr, cmdID)
                && im.book == old(im.book).(saw := [])
                && im.defThresh == old(im.defThresh) && im.currThresh == old(im.currThresh)
                && Match(images, (cmdr, cmdID)).Some?
    {
      var i := IndexOfName(images, imageName);
      if i.None? || cmdr != myCmdr {
        return;
      }
      var im := images[i.value];
      im.cmdChar := cmdChar;
      im.cmdrCmdID := (cmdr, cmdID);
      im.book := im.book.(saw := []);
    }

    /** The new-image path of `updFiles`: a new ImObj is put in the history
        (a name already present keeps its place), its file is fetched as the
        code is written (so a missing image root fails the image without a
        callback), and the history is purged. */
    method NewImage(baseDir: string, imageName: string, cmdChar: string, cmdr: string, cmdID: int,
                    imageRoot: (Option<string>, Option<string>))
      returns (im: ImObj)
      requires Valid()
      modifies this`images
      ensures Valid() && fresh(im) && fresh(im.file)
      ensures im.file.imageName == imageName && im.cmdrCmdID == (cmdr, cmdID) && im.file.hasCallback
      ensures im.file.requests == (if imageRoot.0.Some? && imageRoot.1.Some?
                                   then [im.file.Request(imageRoot.0.value, imageRoot.1.value)] else [])
      ensures im.file.calls == []
      ensures im.file.state == if imageRoot.0.None? || imageRoot.1.None? then DownloadFailed else Ready
      ensures var added := Insert(old(images), im);
              images == if |added| > nToSave then added[..nToSave] else added
    {
      im := new ImObj(baseDir, imageName, cmdChar, cmdr, cmdID, true);
      InsertKeepsNames(images, im);
      images := Insert(images, im);
      im.file.FetchFileAsWritten(imageRoot);
      Purge();
    }
  }

  /** A dictionary assignment in a newest-first history: a known name keeps
      its position with the new object; a new name goes to the front. */
  function Insert(images: seq<ImObj>, im: ImObj): seq<ImObj>
  {
    match IndexOfName(images, im.file.imageName)
    case Some(i) => images[i := im]
    case None => [im] + images
  }

  function IndexOfName(images: seq<ImObj>, name: string): (r: Option<nat>)
    ensures r.Some? ==> r.value < |images| && images[r.value].file.imageName == name
    ensures r.None? ==> forall k :: 0 <= k < |images| ==> images[k].file.imageName != name
  {
    if images == [] then None
    else if images[0].file.imageName == name then Some(0)
    else match IndexOfName(images[1..], name)
      case None => None
      case Some(i) => Some(i + 1)
  }

  /** Inserting keeps the names unique. */
  lemma InsertKeepsNames(images: seq<ImObj>, im: ImObj)
    requires UniqueNames(images)
    ensures UniqueNames(Insert(images, im))
  {
    var r := Insert(images, im);
    match IndexOfName(images, im.file.imageName)
    case Some(i) =>
      forall a, b | 0 <= a < b < |r|
        ensures r[a].file.imageName != r[b].file.imageName
      {
        assert r[a].file.imageName == images[a].file.imageName;
        assert r[b].file.imageName == images[b].file.imageName;
      }
    case None =>
      forall a, b | 0 <= a < b < |r|
        ensures r[a].file.imageName != r[b].file.imageName
      {
        assert r[b] == images[b - 1];
        if a > 0 {
          assert r[a] == images[a - 1];
        }
      }
  }

  lemma DistinctPrefixSuffix(keys: seq<ImObj>, n: nat, i: nat)
    requires UniqueNames(keys) && n <= i <= |keys|
    ensures UniqueNames(keys[..n] + keys[i..])
  {
    var r := keys[..n] + keys[i..];
    forall a, b | 0 <= a < b < |r|
      ensures r[a].file.imageName != r[b].file.imageName
    {
      var a' := if a < n then a else a - n + i;
      var b' := if b < n then b else b - n + i;
      assert r[a] == keys[a'] && r[b] == keys[b'];
    }
  }

  /** Star filing on the trunk image objects is the earlier version's rule:
      from a new image's book, or one `DoExistingImage` restarted, each type
      of the command holds exactly its stars and every other type keeps its
      earlier stars. */
  lemma StarsAccumulate(b0: GuideWdgOld.StarBook, ss: seq<GuideWdgOld.StarData>)
    requires GuideWdgOld.BookOk(b0) && b0.saw == [] && GuideWdgOld.AllKnown(ss)
    ensures GuideWdgOld.Describes(GuideWdgOld.Replay(b0, ss), b0, ss)
  {
    GuideWdgOld.ReplayAccumulates(b0, ss);
  }

  /** `getExpArgStr` of this version: exposure time, bin factor, and the
      threshold only with `inclThresh`. */
  function GetExpArgStr(expTime: string, binFac: string, thresh: string, inclThresh: bool): string
  {
    GuideWdgOld.GetExpArgStr(expTime, binFac, "", thresh, inclThresh, false)
  }

  /** The emitted tokens, in order, are exactly the non-blank fields, and
      the threshold appears only when asked for. */
  lemma ExpArgStrTokens(expTime: string, binFac: string, thresh: string, inclThresh: bool)
    requires NoSpace(expTime) && NoSpace(binFac) && NoSpace(thresh)
    ensures SplitWS(GetExpArgStr(expTime, binFac, thresh, inclThresh))
            == (if expTime != "" then ["exptime=" + expTime] else [])
               + (if binFac != "" then ["bin=" + binFac] else [])
               + (if inclThresh && thresh != "" then ["thresh=" + thresh] else [])
  {
    GuideWdgOld.ExpArgStrTokens(expTime, binFac, "", thresh, inclThresh, false);
  }
}
