// Window loading at start-up (trunk/TUI/Main.py): every "*Window.py" file
// under a directory becomes a module name, the files of a chosen
// subdirectory first, and each module's `addWindow` is run in turn, a
// failing one being logged without stopping the others.  Finding the files,
// splitting paths into components and importing modules are parameters.

module MainWindows {
  import opened Util

  // ---------------------------------------------------------- ordering

  /** Python's string order: lexicographic by character code. */
  predicate StrLe(a: string, b: string)
    decreases |a|
  {
    a == [] || (b != [] && (a[0] < b[0] || (a[0] == b[0] && StrLe(a[1..], b[1..]))))
  }

  lemma {:induction false} StrLeTotal(a: string, b: string)
    ensures StrLe(a, b) || StrLe(b, a)
    decreases |a|
  {
    if a != [] && b != [] && a[0] == b[0] {
      StrLeTotal(a[1..], b[1..]);
    }
  }

  lemma {:induction false} StrLeTrans(a: string, b: string, c: string)
    requires StrLe(a, b) && StrLe(b, c)
    ensures StrLe(a, c)
    decreases |a|
  {
    if a != [] && b != [] && c != [] && a[0] == b[0] && b[0] == c[0] {
      StrLeTrans(a[1..], b[1..], c[1..]);
    }
  }

  lemma {:induction false} StrLeAntisym(a: string, b: string)
    requires StrLe(a, b) && StrLe(b, a)
    ensures a == b
    decreases |a|
  {
    if a != [] {
      StrLeAntisym(a[1..], b[1..]);
    }
  }

  /** The sort key of the decorate/sort/undecorate step: files under
      `loadFirst` (key false) before the others, then by name. */
  function Key(loadFirst: string, fname: string): (bool, string)
  {
    (!(loadFirst <= fname), fname)
  }

  predicate KeyLe(x: (bool, string), y: (bool, string))
  {
    (!x.0 && y.0) || (x.0 == y.0 && StrLe(x.1, y.1))
  }

  lemma KeyLeTotal(x: (bool, string), y: (bool, string))
    ensures KeyLe(x, y) || KeyLe(y, x)
  {
    StrLeTotal(x.1, y.1);
  }

  lemma KeyLeTrans(x: (bool, string), y: (bool, string), z: (bool, string))
    requires KeyLe(x, y) && KeyLe(y, z)
    ensures KeyLe(x, z)
  {
    if x.0 == y.0 && y.0 == z.0 {
      StrLeTrans(x.1, y.1, z.1);
    }
  }

  predicate SortedByKey(loadFirst: string, s: seq<string>)
  {
    forall i, j :: 0 <= i < j < |s| ==> KeyLe(Key(loadFirst, s[i]), Key(loadFirst, s[j]))
  }

  /** Insert one file name into a list sorted by key. */
  function Insert(loadFirst: string, x: string, s: seq<string>): seq<string>
  {
    if s == [] then [x]
    else if KeyLe(Key(loadFirst, x), Key(loadFirst, s[0])) then [x] + s
    else [s[0]] + Insert(loadFirst, x, s[1..])
  }

  lemma {:induction false} InsertPerm(loadFirst: string, x: string, s: seq<string>)
    ensures multiset(Insert(loadFirst, x, s)) == multiset(s) + multiset{x}
    ensures |Insert(loadFirst, x, s)| == |s| + 1
  {
    if s != [] && !KeyLe(Key(loadFirst, x), Key(loadFirst, s[0])) {
      InsertPerm(loadFirst, x, s[1..]);
      assert s == [s[0]] + s[1..];
    }
  }

  lemma {:induction false} InsertSorted(loadFirst: string, x: string, s: seq<string>)
    requires SortedByKey(loadFirst, s)
    ensures SortedByKey(loadFirst, Insert(loadFirst, x, s))
  {
    if s == [] {
    } else if KeyLe(Key(loadFirst, x), Key(loadFirst, s[0])) {
      forall j | 0 < j < |s|
        ensures KeyLe(Key(loadFirst, x), Key(loadFirst, s[j]))
      {
        KeyLeTrans(Key(loadFirst, x), Key(loadFirst, s[0]), Key(loadFirst, s[j]));
      }
    } else {
      KeyLeTotal(Key(loadFirst, x), Key(loadFirst, s[0]));
      var rest := Insert(loadFirst, x, s[1..]);
      InsertSorted(loadFirst, x, s[1..]);
      InsertPerm(loadFirst, x, s[1..]);
      var r := [s[0]] + rest;
      forall j | 0 < j < |r|
        ensures KeyLe(Key(loadFirst, s[0]), Key(loadFirst, r[j]))
      {
        assert r[j] == rest[j - 1];
        assert rest[j - 1] in multiset(rest);
        if rest[j - 1] != x {
          assert rest[j - 1] in multiset(s[1..]);
          var m :| 0 <= m < |s[1..]| && s[1..][m] == rest[j - 1];
          assert s[m + 1] == rest[j - 1];
        }
      }
    }
  }

  /** `decList.sort()` undecorated: the files sorted by key. */
  function SortByKey(loadFirst: string, s: seq<string>): seq<string>
  {
    if s == [] then [] else Insert(loadFirst, s[0], SortByKey(loadFirst, s[1..]))
  }

  /** Sorting keeps the files and leaves them sorted by key. */
  lemma {:induction false} SortByKeySpec(loadFirst: string, s: seq<string>)
    ensures |SortByKey(loadFirst, s)| == |s|
    ensures multiset(SortByKey(loadFirst, s)) == multiset(s)
    ensures SortedByKey(loadFirst, SortByKey(loadFirst, s))
  {
    if s != [] {
      var rest := SortByKey(loadFirst, s[1..]);
      SortByKeySpec(loadFirst, s[1..]);
      InsertPerm(loadFirst, s[0], rest);
      InsertSorted(loadFirst, s[0], rest);
      assert s == [s[0]] + s[1..];
      assert multiset(s) == multiset(s[1..]) + multiset{s[0]};
    }
  }

  /** The order files are loaded in: as found, unless a non-empty
      `loadFirst` is given, in which case sorted by key. */
  function LoadOrder(fileList: seq<string>, loadFirst: Option<string>): (r: seq<string>)
    ensures |r| == |fileList|
    ensures multiset(r) == multiset(fileList)
  {
    if loadFirst.Some? && loadFirst.value != "" && fileList != [] then
      SortByKeySpec(loadFirst.value, fileList);
      SortByKey(loadFirst.value, fileList)
    else fileList
  }

  /** With `loadFirst`, every file under it comes before every other file,
      and within each group the names ascend. */
  lemma LoadFirstComesFirst(fileList: seq<string>, loadFirst: string, i: int, j: int)
    requires loadFirst != ""
    requires 0 <= i < j < |fileList|
    ensures var r := LoadOrder(fileList, Some(loadFirst));
      && (loadFirst <= r[j] ==> loadFirst <= r[i])
      && ((loadFirst <= r[i]) == (loadFirst <= r[j]) ==> StrLe(r[i], r[j]))
  {
    var r := LoadOrder(fileList, Some(loadFirst));
    SortByKeySpec(loadFirst, fileList);
    assert KeyLe(Key(loadFirst, r[i]), Key(loadFirst, r[j]));
  }

  /** The sorted order is unique: any list sorted by key with the same
      files is the load order. */
  lemma {:induction false} LoadOrderUnique(loadFirst: string, s: seq<string>, t: seq<string>)
    requires SortedByKey(loadFirst, s) && SortedByKey(loadFirst, t)
    requires multiset(s) == multiset(t)
    ensures s == t
    decreases |s|
  {
    assert |t| == |multiset(t)| == |multiset(s)| == |s|;
    if s != [] {
      SortedHeadsEqual(loadFirst, s, t);
      TailMultiset(s, t);
      LoadOrderUnique(loadFirst, s[1..], t[1..]);
      assert s == [s[0]] + s[1..] && t == [t[0]] + t[1..];
    }
  }

  lemma SortedHeadsEqual(loadFirst: string, s: seq<string>, t: seq<string>)
    requires SortedByKey(loadFirst, s) && SortedByKey(loadFirst, t)
    requires multiset(s) == multiset(t) && s != [] && t != []
    ensures s[0] == t[0]
  {
    assert s[0] in multiset(t);
    assert t[0] in multiset(s);
    var i :| 0 <= i < |t| && t[i] == s[0];
    var j :| 0 <= j < |s| && s[j] == t[0];
    KeyLeTotal(Key(loadFirst, t[0]), Key(loadFirst, s[0]));
    assert KeyLe(Key(loadFirst, t[0]), Key(loadFirst, s[0])) by {
      if i > 0 {
        assert KeyLe(Key(loadFirst, t[0]), Key(loadFirst, t[i]));
      }
    }
    assert KeyLe(Key(loadFirst, s[0]), Key(loadFirst, t[0])) by {
      if j > 0 {
        assert KeyLe(Key(loadFirst, s[0]), Key(loadFirst, s[j]));
      }
    }
    StrLeAntisym(s[0], t[0]);
  }

  lemma TailMultiset(s: seq<string>, t: seq<string>)
    requires s != [] && t != [] && s[0] == t[0] && multiset(s) == multiset(t)
    ensures multiset(s[1..]) == multiset(t[1..])
  {
    assert s == [s[0]] + s[1..] && t == [t[0]] + t[1..];
    var ms, mt := multiset(s[1..]), multiset(t[1..]);
    assert multiset(s) == multiset{s[0]} + ms;
    assert multiset(t) == multiset{s[0]} + mt;
    forall x
      ensures ms[x] == mt[x]
    {
      assert multiset(s)[x] == multiset{s[0]}[x] + ms[x];
      assert multiset(t)[x] == multiset{s[0]}[x] + mt[x];
    }
  }

  // ------------------------------------------------------ module names

  /** The index of the last `c` in `s`, or -1 (`str.rfind`). */
  function RFind(s: string, c: char): (r: int)
    ensures -1 <= r < |s|
    ensures r >= 0 ==> s[r] == c
    ensures forall k :: r < k < |s| ==> s[k] != c
  {
    if s == [] then -1
    else if s[|s| - 1] == c then |s| - 1
    else RFind(s[..|s| - 1], c)
  }

  /** `os.path.splitext` (POSIX): the extension starts at the last "." of
      the last component, unless that component is only dots up to it. */
  function SplitExt(p: string): (r: (string, string))
    ensures r.0 + r.1 == p
    ensures r.1 == "" || (r.1[0] == '.' && '.' !in r.1[1..] && '/' !in r.1)
  {
    var sepIndex, dotIndex := RFind(p, '/'), RFind(p, '.');
    if dotIndex > sepIndex && exists k :: sepIndex + 1 <= k < dotIndex && p[k] != '.' then
      assert forall k :: 0 <= k < |p[dotIndex..]| - 1 ==> p[dotIndex..][1..][k] == p[dotIndex + 1 + k];
      (p[..dotIndex], p[dotIndex..])
    else (p, "")
  }

  /** A "<stem>.py" file name loses exactly its ".py". */
  lemma SplitExtPy(stem: string)
    requires stem != [] && stem[|stem| - 1] != '.' && stem[|stem| - 1] != '/'
    ensures SplitExt(stem + ".py") == (stem, ".py")
  {
    var p := stem + ".py";
    assert p[|stem|] == '.' && p[|stem| + 1] == 'p' && p[|stem| + 2] == 'y';
    assert RFind(p, '.') == |stem|;
    assert p[|stem| - 1] != '.';
    assert RFind(p, '/') < |stem| - 1 || RFind(p, '/') == -1 || RFind(p, '/') < |stem|;
    assert p[..|stem|] == stem && p[|stem|..] == ".py";
  }

  /** `os.path.basename`: what follows the last "/". */
  function Basename(p: string): (r: string)
    ensures '/' !in r
    ensures |r| <= |p| && r == p[|p| - |r|..]
  {
    p[RFind(p, '/') + 1..]
  }

  /** The module name of one file: its path components without the
      extension (with the searched directory's name first for a
      package), joined by "."; None for a hidden file; an IndexError when
      the path has no components. */
  function ModuleName(fileName: string, path: string, isPackage: bool, splitPath: string -> seq<string>)
    : (r: Result<Option<string>>)
    ensures r.Raise? <==> splitPath(SplitExt(fileName).0) == []
    ensures r.Ok? ==> (r.value.None? <==> "." <= splitPath(SplitExt(fileName).0)[|splitPath(SplitExt(fileName).0)| - 1])
  {
    var pathList := splitPath(SplitExt(fileName).0);
    match PyIndex(pathList, -1)
    case None => Raise(IndexError("list index out of range"))
    case Some(last) =>
      if "." <= last then Ok(None)
      else
        var parts := if isPackage then [Basename(path)] + pathList else pathList;
        Ok(Some(Join(".", parts)))
  }

  /** Splitting the module name at "." gives back the components when
      none of them holds a ".". */
  lemma ModuleNameParts(fileName: string, path: string, isPackage: bool, splitPath: string -> seq<string>)
    requires ModuleName(fileName, path, isPackage, splitPath).Ok?
    requires ModuleName(fileName, path, isPackage, splitPath).value.Some?
    requires var pathList := splitPath(SplitExt(fileName).0);
      forall k :: 0 <= k < |pathList| ==> '.' !in pathList[k]
    requires isPackage ==> '.' !in Basename(path)
    ensures var pathList := splitPath(SplitExt(fileName).0);
      SplitOn(ModuleName(fileName, path, isPackage, splitPath).value.value, '.')
        == if isPackage then [Basename(path)] + pathList else pathList
  {
    var pathList := splitPath(SplitExt(fileName).0);
    var parts := if isPackage then [Basename(path)] + pathList else pathList;
    assert forall k :: 0 <= k < |parts| ==> '.' !in parts[k] by {
      forall k | 0 <= k < |parts|
        ensures '.' !in parts[k]
      {
        if isPackage && k > 0 {
          assert parts[k] == pathList[k - 1];
        }
      }
    }
    JoinSplitOn(parts, '.');
  }

  /** `findWindowsModules`: the module names it yields, in order, and the
      error that ends it early, if any. */
  function ModuleNames(files: seq<string>, path: string, isPackage: bool, splitPath: string -> seq<string>)
    : (r: (seq<string>, Option<Exc>))
    ensures |r.0| <= |files|
  {
    if files == [] then ([], None)
    else
      var (init, err) := ModuleNames(files[..|files| - 1], path, isPackage, splitPath);
      if err.Some? then (init, err)
      else
        match ModuleName(files[|files| - 1], path, isPackage, splitPath)
        case Raise(e) => (init, Some(e))
        case Ok(None) => (init, None)
        case Ok(Some(name)) => (init + [name], None)
  }

  /** Hidden files are skipped: without errors, there is one name per file
      that is not hidden. */
  lemma {:induction false} ModuleNamesCount(files: seq<string>, path: string, isPackage: bool,
                                            splitPath: string -> seq<string>)
    requires forall k :: 0 <= k < |files| ==> splitPath(SplitExt(files[k]).0) != []
    ensures ModuleNames(files, path, isPackage, splitPath).1.None?
    ensures |ModuleNames(files, path, isPackage, splitPath).0| == NotHidden(files, splitPath)
  {
    if files != [] {
      ModuleNamesCount(files[..|files| - 1], path, isPackage, splitPath);
    }
  }

  function NotHidden(files: seq<string>, splitPath: string -> seq<string>): nat
  {
    if files == [] then 0
    else
      var pathList := splitPath(SplitExt(files[|files| - 1]).0);
      var hidden := pathList != [] && "." <= pathList[|pathList| - 1];
      NotHidden(files[..|files| - 1], splitPath) + (if hidden then 0 else 1)
  }

  // ---------------------------------------------------------- loading

  /** What running one module's `addWindow` does. */
  datatype AddOutcome = Added | Failed(msg: string) | Exit(isKeyboardInterrupt: bool)

  datatype LogEntry = LogEntry(text: string, severity: Severity)

  /** The log, the error output and the exit that was re-raised, if any. */
  datatype LoadResult = LoadResult(log: seq<LogEntry>, stderr: seq<string>, exit: Option<bool>)

  function FailMsg(name: string, msg: string): string
  {
    name + ".addWindow failed: " + msg
  }

  /** The effect of loading `name` after `prev`. */
  function LoadStep(prev: LoadResult, name: string, outcome: AddOutcome, logging: bool): LoadResult
  {
    match outcome
    case Added =>
      prev.(log := prev.log + (if logging then [LogEntry("Added " + PyRepr(name), Normal)] else []))
    case Failed(msg) =>
      prev.(log := prev.log + (if logging then [LogEntry(FailMsg(name, msg), Error)] else []),
            stderr := prev.stderr + [FailMsg(name, msg) + "\n"])
    case Exit(k) => prev.(exit := Some(k))
  }

  /** The loop of `loadWindows` over the module names: each is loaded in
      turn until one exits. */
  function Load(names: seq<string>, addWindow: string -> AddOutcome, logging: bool, start: LoadResult): LoadResult
  {
    if names == [] then start
    else
      var prev := Load(names[..|names| - 1], addWindow, logging, start);
      if prev.exit.Some? then prev
      else LoadStep(prev, names[|names| - 1], addWindow(names[|names| - 1]), logging)
  }

  /** Once a module exits, the later ones are not loaded. */
  lemma {:induction false} LoadStopsAtExit(names: seq<string>, i: nat, addWindow: string -> AddOutcome, logging: bool,
                                           start: LoadResult)
    requires i <= |names|
    requires Load(names[..i], addWindow, logging, start).exit.Some?
    ensures Load(names, addWindow, logging, start) == Load(names[..i], addWindow, logging, start)
    decreases |names| - i
  {
    if i < |names| {
      assert names[..i + 1][..i] == names[..i];
      LoadStopsAtExit(names, i + 1, addWindow, logging, start);
    } else {
      assert names[..i] == names;
    }
  }

  /** A failing module does not stop the others: without exits every
      module gets one log line when logging and every failure one line of
      error output. */
  lemma {:induction false} LoadContinuesPastFailures(names: seq<string>, addWindow: string -> AddOutcome, start: LoadResult)
    requires start.exit.None?
    requires forall k :: 0 <= k < |names| ==> !addWindow(names[k]).Exit?
    ensures var r := Load(names, addWindow, true, start);
      && r.exit.None? && |r.log| == |start.log| + |names|
      && |r.stderr| == |start.stderr| + Failures(names, addWindow)
  {
    if names != [] {
      LoadContinuesPastFailures(names[..|names| - 1], addWindow, start);
    }
  }

  function Failures(names: seq<string>, addWindow: string -> AddOutcome): nat
  {
    if names == [] then 0
    else Failures(names[..|names| - 1], addWindow) + (if addWindow(names[|names| - 1]).Failed? then 1 else 0)
  }

  function StartLog(path: string, logging: bool): LoadResult
  {
    LoadResult(if logging then [LogEntry("Searching for additions in " + PyRepr(path), Normal)] else [], [], None)
  }

  /** `loadWindows` on the names `findWindowsModules` yields: the search is
      logged, each module is loaded in turn, a SystemExit or
      KeyboardInterrupt is re-raised after which nothing more is loaded,
      and an error of the name generator ends the loop. */
  method LoadWindows(path: string, names: seq<string>, nameErr: Option<Exc>, addWindow: string -> AddOutcome,
                     logging: bool)
    returns (r: LoadResult, err: Option<Exc>)
    ensures r == Load(names, addWindow, logging, StartLog(path, logging))
    ensures err == if r.exit.Some? then None else nameErr
  {
    r := LoadResult([], [], None);
    if logging {
      r := r.(log := [LogEntry("Searching for additions in " + PyRepr(path), Normal)]);
    }
    var i := 0;
    while i < |names|
      invariant 0 <= i <= |names|
      invariant r == Load(names[..i], addWindow, logging, StartLog(path, logging))
      invariant r.exit.None?
    {
      assert names[..i + 1][..i] == names[..i];
      var moduleName := names[i];
      var outcome := addWindow(moduleName);
      match outcome {
        case Added =>
          if logging {
            r := r.(log := r.log + [LogEntry("Added " + PyRepr(moduleName), Normal)]);
          }
        case Failed(msg) =>
          var errMsg := moduleName + ".addWindow failed: " + msg;
          if logging {
            r := r.(log := r.log + [LogEntry(errMsg, Error)]);
          }
          r := r.(stderr := r.stderr + [errMsg + "\n"]);
        case Exit(k) =>
          r := r.(exit := Some(k));
          LoadStopsAtExit(names, i + 1, addWindow, logging, StartLog(path, logging));
          return r, None;
      }
      i := i + 1;
    }
    assert names[..i] == names;
    err := nameErr;
  }

  const NoModulesMsg := "no modules found"

  /** The error `loadWindows` ends with as its documentation states it: the
      name generator's error if there is one, else a RuntimeError when a
      load-first directory is given and no module is found. */
  function DocumentedLoadError(loadFirst: Option<string>, names: seq<string>, nameErr: Option<Exc>)
    : (r: Option<Exc>)
    ensures nameErr.Some? ==> r == nameErr
    ensures nameErr.None? ==> (r.Some? <==> loadFirst.Some? && loadFirst.value != "" && names == [])
    ensures nameErr.None? && r.Some? ==> r.value.RuntimeError?
  {
    if nameErr.Some? then nameErr
    else if loadFirst.Some? && loadFirst.value != "" && names == [] then Some(RuntimeError(NoModulesMsg))
    else None
  }

  /** As written, finding no module at all (whatever the load-first
      directory) ends `loadWindows` quietly after the search message, where
      the documented behaviour raises a RuntimeError. */
  method NoModulesFoundAsWritten(path: string, addWindow: string -> AddOutcome) returns (r: LoadResult, err: Option<Exc>)
    ensures r == StartLog(path, true) && err.None?
    ensures DocumentedLoadError(Some("Inst"), [], None) == Some(RuntimeError(NoModulesMsg))
  {
    r, err := LoadWindows(path, [], None, addWindow, true);
  }
}
