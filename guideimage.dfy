// TUI/Guide/GuideImage.py (trunk): BasicImage, a guide image that may have
// to be downloaded before it can be shown. Its state only moves forward: the
// first done state reached through _setState is final, and the fetch callback
// is dropped as soon as a done state has been reported. The download widget,
// the file system and pyfits are outside the model: their outcomes are
// parameters.

module GuideImage {
  import opened Util

  datatype ImState = Ready | Downloading | Downloaded | FileReadFailed | DownloadFailed | Expired

  /** The state strings of the source. */
  function StateText(s: ImState): string
  {
    match s
    case Ready => "Ready to download"
    case Downloading => "Downloading"
    case Downloaded => "Downloaded"
    case FileReadFailed => "Cannot read file"
    case DownloadFailed => "Download failed"
    case Expired => "Expired; file deleted"
  }

  const ErrorStates: seq<ImState> := [FileReadFailed, DownloadFailed, Expired]
  const DoneStates: seq<ImState> := [Downloaded] + ErrorStates

  /** `didFail`: the download failed, the file could not be read, or it was
      deleted. */
  predicate DidFail(s: ImState)
  {
    s in ErrorStates
  }

  /** `isDone`: downloaded, or failed for good. */
  predicate IsDone(s: ImState)
  {
    s in DoneStates
  }

  lemma DoneAndFailed(s: ImState)
    ensures DidFail(s) <==> s == FileReadFailed || s == DownloadFailed || s == Expired
    ensures IsDone(s) <==> s == Downloaded || DidFail(s)
    ensures !IsDone(s) <==> s == Ready || s == Downloading
  {
  }

  /** Different states have different texts. */
  lemma StateTextInjective(s: ImState, t: ImState)
    requires StateText(s) == StateText(t)
    ensures s == t
  {
  }

  /** `getStateStr`: the state text, followed by ": " and the error message
      when there is a non-empty one. */
  function StateStr(s: ImState, errMsg: Option<string>): (r: string)
    ensures StateText(s) <= r
    ensures (errMsg.None? || errMsg.value == "") <==> r == StateText(s)
  {
    if errMsg.Some? && errMsg.value != "" then StateText(s) + ": " + errMsg.value else StateText(s)
  }

  /** Where the image is stored: the name is joined as it is for a local
      image, and split at "/" into path components otherwise. */
  function LocalPath(baseDir: string, imageName: string, isLocal: bool): string
  {
    if isLocal then PathJoin(baseDir, imageName)
    else PathJoinAll(baseDir, SplitOn(imageName, '/'))
  }

  /** For a simple relative image name (no empty path component) both ways
      of forming the path agree: base directory, "/", image name. */
  lemma LocalPathSimpleName(baseDir: string, imageName: string)
    requires baseDir != "" && baseDir[|baseDir| - 1] != '/'
    requires forall k :: 0 <= k < |SplitOn(imageName, '/')| ==> SplitOn(imageName, '/')[k] != ""
    ensures LocalPath(baseDir, imageName, false) == baseDir + "/" + imageName
    ensures LocalPath(baseDir, imageName, true) == baseDir + "/" + imageName
  {
    var pieces := SplitOn(imageName, '/');
    assert pieces[0] != "";
    PathJoinAllPlain(baseDir, pieces);
    SplitOnJoin(imageName, '/');
    assert ([baseDir] + pieces)[1..] == pieces;
  }

  /** What `pyfits.open` did with the downloaded file. */
  datatype FitsOpen = Opened | NoData | OpenFailed(msg: string)

  const NoHttpRootMsg := "Cannot download images; hub httpRoot keyword not available"

  class BasicImage {
    const localBaseDir: string
    const imageName: string
    const isLocal: bool
    const localPath: string
    var isInSequence: bool
    var state: ImState
    var errMsg: Option<string>
    /** Whether a fetch callback is registered. */
    var hasCallback: bool
    /** The state the image was in at each call of the fetch callback. */
    var calls: seq<ImState>
    /** The (URL, local path) of each download requested. */
    var requests: seq<(string, string)>
    /** Whether the file has been deleted from disk. */
    var deleted: bool

    /** The callback is called at most once in a done state: only its
        last call can report a done state, and after that call it is gone. */
    ghost predicate Valid()
      reads this
    {
      (forall i :: 0 <= i < |calls| - 1 ==> !IsDone(calls[i]))
      && (calls != [] && IsDone(calls[|calls| - 1]) ==> !hasCallback)
    }

    constructor (localBaseDir: string, imageName: string, hasCallback: bool, isLocal: bool)
      ensures Valid()
      ensures this.localBaseDir == localBaseDir && this.imageName == imageName && this.isLocal == isLocal
      ensures state == (if isLocal then Downloaded else Ready)
      ensures isInSequence == !isLocal
      ensures errMsg == None && this.hasCallback == hasCallback
      ensures calls == [] && requests == [] && !deleted
      ensures localPath == LocalPath(localBaseDir, imageName, isLocal)
    {
      this.localBaseDir := localBaseDir;
      this.imageName := imageName;
      this.isLocal := isLocal;
      this.hasCallback := hasCallback;
      errMsg := None;
      state := if isLocal then Downloaded else Ready;
      isInSequence := !isLocal;
      localPath := LocalPath(localBaseDir, imageName, isLocal);
      calls := [];
      requests := [];
      deleted := false;
    }

    /** `_setState`: ignored once done; otherwise records the state (and the
        message, for a failure), calls the callback, and drops the callback
        if the new state is a done one. */
    method SetState(newState: ImState, msg: Option<string>)
      requires Valid()
      modifies this`state, this`errMsg, this`hasCallback, this`calls
      ensures Valid()
      ensures IsDone(old(state)) ==>
                state == old(state) && errMsg == old(errMsg)
                && hasCallback == old(hasCallback) && calls == old(calls)
      ensures !IsDone(old(state)) ==>
                state == newState
                && errMsg == (if DidFail(newState) then msg else old(errMsg))
                && calls == old(calls) + (if old(hasCallback) then [newState] else [])
                && hasCallback == (old(hasCallback) && !IsDone(newState))
    {
      if IsDone(state) {
        return;
      }
      state := newState;
      if DidFail(state) {
        errMsg := msg;
      }
      if hasCallback {
        calls := calls + [state];
      }
      if IsDone(state) {
        hasCallback := false;
      }
    }

    /** `expire`: a downloaded, non-local image becomes Expired and its file
        is deleted; no callback is made. */
    method Expire(fileExists: bool)
      modifies this`state, this`deleted
      ensures (isLocal || old(state) != Downloaded) ==> state == old(state) && deleted == old(deleted)
      ensures (!isLocal && old(state) == Downloaded) ==>
                state == Expired && deleted == (old(deleted) || fileExists)
    {
      if isLocal {
        return;
      }
      if state == Downloaded {
        state := Expired;
        if fileExists {
          deleted := true;
        }
      }
    }

    /** `fetchFile`, given the hub's http root (host, root directory). */
    method FetchFile(httpRoot: (Option<string>, Option<string>))
      requires Valid()
      modifies this`state, this`errMsg, this`hasCallback, this`calls, this`requests
      ensures Valid()
      ensures IsDone(old(state)) ==> state == old(state) && errMsg == old(errMsg)
      ensures !IsDone(old(state)) ==>
                state == (if isLocal then Downloaded
                          else if httpRoot.0.None? || httpRoot.1.None? then DownloadFailed
                          else Downloading)
      ensures !IsDone(old(state)) && !isLocal && (httpRoot.0.None? || httpRoot.1.None?) ==>
                errMsg == Some(NoHttpRootMsg)
      ensures requests == old(requests)
                + (if isLocal || httpRoot.0.None? || httpRoot.1.None? then []
                   else [("http://" + httpRoot.0.value + httpRoot.1.value + imageName, localPath)])
    {
      if isLocal {
        SetState(Downloaded, None);
        return;
      }
      if httpRoot.0.None? || httpRoot.1.None? {
        SetState(DownloadFailed, Some(NoHttpRootMsg));
        return;
      }
      SetState(Downloading, None);
      requests := requests + [("http://" + httpRoot.0.value + httpRoot.1.value + imageName, localPath)];
    }

    /** `_fetchDoneFunc`: the download finished, successfully or with an
        error message. */
    method FetchDone(succeeded: bool, downloadErr: Option<string>)
      requires Valid()
      modifies this`state, this`errMsg, this`hasCallback, this`calls
      ensures Valid()
      ensures IsDone(old(state)) ==> state == old(state) && errMsg == old(errMsg)
      ensures !IsDone(old(state)) ==>
                if succeeded then state == Downloaded && errMsg == old(errMsg)
                else state == DownloadFailed && errMsg == downloadErr
    {
      if succeeded {
        SetState(Downloaded, None);
      } else {
        SetState(DownloadFailed, downloadErr);
      }
    }

    /** `getFITSObj`: only a downloaded image is opened; a file without data
        or one that cannot be opened marks the image FileReadFailed. */
    method GetFITSObj(outcome: FitsOpen) returns (ok: bool)
      modifies this`state, this`errMsg
      ensures ok <==> old(state) == Downloaded && outcome == Opened
      ensures old(state) != Downloaded || outcome == Opened ==> state == old(state) && errMsg == old(errMsg)
      ensures old(state) == Downloaded && outcome == NoData ==>
                state == FileReadFailed && errMsg == Some("No image data found")
      ensures old(state) == Downloaded && outcome.OpenFailed? ==>
                state == FileReadFailed && errMsg == Some(outcome.msg)
    {
      ok := false;
      if state == Downloaded {
        match outcome
        case Opened => ok := true;
        case NoData =>
          state := FileReadFailed;
          errMsg := Some("No image data found");
        case OpenFailed(m) =>
          state := FileReadFailed;
          errMsg := Some(m);
      }
    }
  }
}
