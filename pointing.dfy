// The pointing-data script (trunk/TUI/Scripts/GetPointingData.py): the
// bin-factor and window arguments of its guide-camera commands, the
// reading of az/alt grid files, and the records built from star and
// pointing-reference-star keyword data.

module PointingData {
  import opened Util

  // ------------------------------------------------------- bin factor

  /** `getBinFactor`: no bin factor at all when the instrument has no
      default one; the final bin factor for a final exposure when there is
      one; else the current bin factor. */
  function GetBinFactor(defBinFactor: Option<int>, finalBinFactor: Option<int>, binFactor: Option<int>,
                        isFinal: bool): (r: Option<int>)
    ensures defBinFactor.None? ==> r.None?
    ensures defBinFactor.Some? && isFinal && finalBinFactor.Some? ==> r == finalBinFactor
    ensures defBinFactor.Some? && !(isFinal && finalBinFactor.Some?) ==> r == binFactor
  {
    if defBinFactor.None? then None
    else if isFinal && finalBinFactor.Some? then finalBinFactor
    else binFactor
  }

  /** `formatBinFactorArg`: "" without a bin factor, else "bin=<n>". */
  function BinFactorArg(binFactor: Option<int>): string
  {
    match binFactor
    case None => ""
    case Some(n) => "bin=" + IntToString(n)
  }

  /** The argument is empty exactly when there is no bin factor, and the bin
      factor is read back from the text after "bin=". */
  lemma BinFactorArgParses(binFactor: Option<int>)
    ensures BinFactorArg(binFactor) == "" <==> binFactor.None?
    ensures binFactor.Some? ==> var arg := BinFactorArg(binFactor);
      |arg| > 4 && arg[..4] == "bin=" && PyInt(arg[4..]) == binFactor
  {
    if binFactor.Some? {
      var arg := BinFactorArg(binFactor);
      assert arg[4..] == IntToString(binFactor.value);
      PyIntOfIntToString(binFactor.value);
    }
  }

  // ----------------------------------------------------------- window

  /** A subframe in unbinned pixels: lower-left then upper-right corner,
      with pixel 0 first and the upper-right pixel included. */
  datatype Window = Window(minX: int, minY: int, maxX: int, maxY: int)

  /** `formatWindowArg` as written in this script: a caller that does not
      window gets ""; one that does (the default) reaches `self.doWindow`,
      which the script class never assigns, and gets an AttributeError. */
  function WindowArgAsWritten(doWindow: bool): (r: Result<string>)
    ensures r.Ok? ==> r.value == ""
  {
    if !doWindow then Ok("")
    else Raise(AttributeError("'ScriptClass' object has no attribute 'doWindow'"))
  }

  /** As written, only a caller that does not window gets an argument, and
      it agrees with the intended one; a caller that windows fails, where
      the intended code, given a window, writes it. */
  lemma WindowArgAsWrittenFails(scriptDoWindow: bool, window: Option<Window>, windowOrigin: int,
                                windowIsInclusive: bool)
    ensures WindowArgAsWritten(false) == WindowArg(false, scriptDoWindow, window, windowOrigin, windowIsInclusive)
    ensures WindowArgAsWritten(true).Raise? && WindowArgAsWritten(true).exc.AttributeError?
    ensures scriptDoWindow && window.Some? ==> WindowArg(true, scriptDoWindow, window, windowOrigin, windowIsInclusive).Ok?
  {
  }

  /** `formatWindowArg` as intended, with the script's window settings
      (`doWindow`, `windowOrigin`, `windowIsInclusive`) as parameters: ""
      unless both the caller and the script window the exposure; else
      "window=<llx>,<lly>,<urx>,<ury>" of the instrument's corners.
      Windowing without a window is the TypeError of indexing None. */
  function WindowArg(doWindow: bool, scriptDoWindow: bool, window: Option<Window>,
                     windowOrigin: int, windowIsInclusive: bool): (r: Result<string>)
    ensures r.Raise? <==> doWindow && scriptDoWindow && window.None?
    ensures r.Ok? && r.value == "" <==> !doWindow || !scriptDoWindow
  {
    if !doWindow || !scriptDoWindow then Ok("")
    else if window.None? then Raise(TypeError("'NoneType' object has no attribute '__getitem__'"))
    else Ok("window=" + Join(",", IntStrings(Corners(window.value, windowOrigin, windowIsInclusive))))
  }

  /** The window in the instrument's convention: both corners shifted by
      the window origin, and the upper-right one by one more when the
      instrument's window excludes its upper-right pixel. */
  function Corners(w: Window, windowOrigin: int, windowIsInclusive: bool): (r: seq<int>)
    ensures |r| == 4
    ensures r[2] - r[0] == w.maxX - w.minX + (if windowIsInclusive then 0 else 1)
    ensures r[3] - r[1] == w.maxY - w.minY + (if windowIsInclusive then 0 else 1)
  {
    var urOffset := if windowIsInclusive then windowOrigin else windowOrigin + 1;
    [w.minX + windowOrigin, w.minY + windowOrigin, w.maxX + urOffset, w.maxY + urOffset]
  }

  /** The numbers of a window argument read back as the instrument's
      corners. */
  lemma WindowArgParses(w: Window, windowOrigin: int, windowIsInclusive: bool)
    ensures WindowArg(true, true, Some(w), windowOrigin, windowIsInclusive).Ok?
    ensures var arg := WindowArg(true, true, Some(w), windowOrigin, windowIsInclusive).value;
      var corners := Corners(w, windowOrigin, windowIsInclusive);
      && |arg| > 7 && arg[..7] == "window="
      && var nums := SplitOn(arg[7..], ',');
      && |nums| == 4
      && forall k :: 0 <= k < 4 ==> PyInt(nums[k]) == Some(corners[k])
  {
    var corners := Corners(w, windowOrigin, windowIsInclusive);
    IntFieldsParse(corners);
    var joined := Join(",", IntStrings(corners));
    var arg := "window=" + joined;
    assert arg[7..] == joined;
  }

  function IntStrings(ns: seq<int>): (r: seq<string>)
    ensures |r| == |ns|
  {
    seq(|ns|, k requires 0 <= k < |ns| => IntToString(ns[k]))
  }

  /** Integers written with "%d" and joined by commas are split and read
      back as the same integers. */
  lemma IntFieldsParse(ns: seq<int>)
    requires |ns| >= 1
    ensures var f := IntStrings(ns);
      SplitOn(Join(",", f), ',') == f && forall k :: 0 <= k < |ns| ==> PyInt(f[k]) == Some(ns[k])
  {
    var f := IntStrings(ns);
    forall k | 0 <= k < |f|
      ensures ',' !in f[k]
    {
      IntToStringChars(ns[k]);
    }
    JoinSplitOn(f, ',');
    forall k | 0 <= k < |ns|
      ensures PyInt(f[k]) == Some(ns[k])
    {
      PyIntOfIntToString(ns[k]);
    }
  }

  // ----------------------------------------------------- expose args

  /** `formatExposeArgs`: the time, bin and window arguments that are not
      empty, joined by single spaces (the time is given as text). */
  function ExposeArgs(expTimeText: string, binArg: string, windowArg: string): string
  {
    Join(" ", NonEmpty(["time=" + expTimeText, binArg, windowArg]))
  }

  /** With single-word arguments, the words of the result are the time
      argument followed by the non-empty bin and window arguments, in that
      order. */
  lemma ExposeArgsWords(expTimeText: string, binArg: string, windowArg: string)
    requires NoSpace(expTimeText) && NoSpace(binArg) && NoSpace(windowArg)
    ensures SplitWS(ExposeArgs(expTimeText, binArg, windowArg))
      == ["time=" + expTimeText] + (if binArg == "" then [] else [binArg])
         + (if windowArg == "" then [] else [windowArg])
  {
    var t := "time=" + expTimeText;
    var items := [t, binArg, windowArg];
    var wPart := if windowArg == "" then [] else [windowArg];
    var bPart := if binArg == "" then [] else [binArg];
    assert [windowArg][1..] == [];
    assert NonEmpty([windowArg]) == wPart;
    assert [binArg, windowArg][1..] == [windowArg];
    assert NonEmpty([binArg, windowArg]) == bPart + wPart;
    assert items[1..] == [binArg, windowArg];
    assert t != "" && t[0] == 't';
    var words := NonEmpty(items);
    assert words == [t] + (bPart + wPart);
    assert words == [t] + bPart + wPart;
    assert forall k :: 0 <= k < |words| ==> words[k] != "" && NoSpace(words[k]);
    SplitWSJoin(words);
  }

  // ------------------------------------------------------------- grid

  /** How `_setGrid` treats one line of a grid file. */
  datatype GridLine = Skip | Point(az: real, alt: real) | Bad

  /** Blank lines and comments ("#" or "!" first) are skipped; a line of
      exactly two numbers is a point; anything else is bad.  `parseFloat`
      is Python's `float`, None for its ValueError. */
  function ClassifyLine(line: string, parseFloat: string -> Option<real>): GridLine
  {
    var t := Strip(line);
    if t == "" || t[0] == '#' || t[0] == '!' then Skip
    else
      var words := SplitWS(t);
      if |words| == 2 && parseFloat(words[0]).Some? && parseFloat(words[1]).Some? then
        Point(parseFloat(words[0]).value, parseFloat(words[1]).value)
      else Bad
  }

  /** The warning for the bad line at 0-based index `i`. */
  function BadLineMsg(i: nat, line: string): string
  {
    "Cannot parse line " + NatToString(i + 1) + " as az alt: " + PyRepr(Strip(line)) + "\n"
  }

  /** The points of the grid, in file order. */
  function GridPoints(lines: seq<string>, parseFloat: string -> Option<real>): seq<(real, real)>
  {
    if lines == [] then []
    else
      var init := GridPoints(lines[..|lines| - 1], parseFloat);
      match ClassifyLine(lines[|lines| - 1], parseFloat)
      case Point(az, alt) => init + [(az, alt)]
      case _ => init
  }

  /** The warnings, one per bad line, in file order. */
  function GridWarnings(lines: seq<string>, parseFloat: string -> Option<real>): seq<string>
  {
    if lines == [] then []
    else
      var init := GridWarnings(lines[..|lines| - 1], parseFloat);
      if ClassifyLine(lines[|lines| - 1], parseFloat).Bad? then
        init + [BadLineMsg(|lines| - 1, lines[|lines| - 1])]
      else init
  }

  /** The number of skipped lines. */
  function Skipped(lines: seq<string>, parseFloat: string -> Option<real>): nat
  {
    if lines == [] then 0
    else
      var last := if ClassifyLine(lines[|lines| - 1], parseFloat).Skip? then 1 else 0;
      Skipped(lines[..|lines| - 1], parseFloat) + last
  }

  /** Every line is a point, a warning or skipped, and nothing else. */
  lemma {:induction false} GridAccountsForEveryLine(lines: seq<string>, parseFloat: string -> Option<real>)
    ensures |GridPoints(lines, parseFloat)| + |GridWarnings(lines, parseFloat)| + Skipped(lines, parseFloat)
      == |lines|
  {
    if lines != [] {
      GridAccountsForEveryLine(lines[..|lines| - 1], parseFloat);
    }
  }

  /** Two numbers separated by a space make a point with those values. */
  lemma TwoNumberLine(a: string, b: string, parseFloat: string -> Option<real>)
    requires a != "" && b != "" && NoSpace(a) && NoSpace(b)
    requires a[0] != '#' && a[0] != '!'
    requires parseFloat(a).Some? && parseFloat(b).Some?
    ensures ClassifyLine(a + " " + b, parseFloat) == Point(parseFloat(a).value, parseFloat(b).value)
  {
    var line := a + " " + b;
    assert line[0] == a[0] && line[|line| - 1] == b[|b| - 1];
    StripPlain(line);
    assert [a, b][1..] == [b];
    assert Join(" ", [a, b]) == line;
    SplitWSJoin([a, b]);
  }

  /** Extending the lines by one adds that line's point or warning. */
  lemma GridStep(lines: seq<string>, i: nat, parseFloat: string -> Option<real>)
    requires i < |lines|
    ensures var c := ClassifyLine(lines[i], parseFloat);
      && GridPoints(lines[..i + 1], parseFloat)
        == GridPoints(lines[..i], parseFloat) + (if c.Point? then [(c.az, c.alt)] else [])
      && GridWarnings(lines[..i + 1], parseFloat)
        == GridWarnings(lines[..i], parseFloat) + (if c.Bad? then [BadLineMsg(i, lines[i])] else [])
  {
    assert lines[..i + 1][..i] == lines[..i];
    assert lines[..i + 1][i] == lines[i];
  }

  /** The loop of `_setGrid` over the lines of a grid file. */
  method ParseGrid(lines: seq<string>, parseFloat: string -> Option<real>)
    returns (azAltList: seq<(real, real)>, warnings: seq<string>)
    ensures azAltList == GridPoints(lines, parseFloat)
    ensures warnings == GridWarnings(lines, parseFloat)
  {
    azAltList, warnings := [], [];
    var i := 0;
    while i < |lines|
      invariant 0 <= i <= |lines|
      invariant azAltList == GridPoints(lines[..i], parseFloat)
      invariant warnings == GridWarnings(lines[..i], parseFloat)
    {
      GridStep(lines, i, parseFloat);
      var line := Strip(lines[i]);
      if line == "" || line[0] == '#' || line[0] == '!' {
        i := i + 1;
        continue;
      }
      var words := SplitWS(line);
      if |words| == 2 && parseFloat(words[0]).Some? && parseFloat(words[1]).Some? {
        azAltList := azAltList + [(parseFloat(words[0]).value, parseFloat(words[1]).value)];
      } else {
        warnings := warnings + ["Cannot parse line " + NatToString(i + 1) + " as az alt: " + PyRepr(line) + "\n"];
      }
      i := i + 1;
    }
    assert lines[..i] == lines;
  }

  // ------------------------------------------------------------ script

  /** The script's bin-factor state and the loaded grid. */
  class PointingScript {
    var defBinFactor: Option<int>
    var finalBinFactor: Option<int>
    var binFactor: Option<int>
    var dispBinFactor: int
    var azAltList: seq<(real, real)>

    /** The constructor's bin-factor set-up: without a default bin factor
        the bin factor is 1; else it starts at the default.  (The script
        itself passes a default of 3 and no final bin factor.) */
    constructor (defBin: Option<int>, finalBin: Option<int>)
      ensures defBinFactor == defBin && finalBinFactor == finalBin
      ensures defBin.None? ==> binFactor == Some(1) && dispBinFactor == 1
      ensures defBin.Some? ==> binFactor == defBin && dispBinFactor == defBin.value
      ensures azAltList == []
    {
      defBinFactor, finalBinFactor := defBin, finalBin;
      if defBin.None? {
        binFactor, dispBinFactor := Some(1), 1;
      } else {
        binFactor, dispBinFactor := defBin, defBin.value;
      }
      azAltList := [];
    }

    /** `updBinFactor`: a new positive bin factor becomes the displayed one;
        zero, negative and unchanged values are ignored. */
    method UpdBinFactor(newBinFactor: int)
      modifies this`dispBinFactor
      ensures dispBinFactor == if newBinFactor > 0 then newBinFactor else old(dispBinFactor)
    {
      if newBinFactor <= 0 {
        return;
      }
      var oldBinFactor := dispBinFactor;
      if oldBinFactor == newBinFactor {
        return;
      }
      dispBinFactor := newBinFactor;
    }

    /** `initAll`: the bin factor of the last exposure is forgotten. */
    method InitAll()
      modifies this`binFactor
      ensures binFactor.None?
    {
      binFactor := None;
    }

    /** `recordUserParams`: the displayed bin factor becomes the one used. */
    method RecordUserParams()
      modifies this`binFactor
      ensures binFactor == Some(dispBinFactor)
    {
      binFactor := Some(dispBinFactor);
    }

    /** `getBinFactor` on the script's state. */
    method GetBinFactorNow(isFinal: bool) returns (r: Option<int>)
      ensures r == GetBinFactor(defBinFactor, finalBinFactor, binFactor, isFinal)
    {
      if defBinFactor.None? {
        return None;
      }
      if isFinal && finalBinFactor.Some? {
        return finalBinFactor;
      }
      return binFactor;
    }

    /** `_setGrid`, given the selected grid's name and its file's lines:
        nothing happens without a name; else the grid's points replace the
        old ones and the warnings for its bad lines are returned. */
    method SetGrid(gridName: string, lines: seq<string>, parseFloat: string -> Option<real>)
      returns (warnings: seq<string>)
      modifies this`azAltList
      ensures gridName == "" ==> azAltList == old(azAltList) && warnings == []
      ensures gridName != "" ==> (azAltList == GridPoints(lines, parseFloat)
        && warnings == GridWarnings(lines, parseFloat))
    {
      if gridName == "" {
        return [];
      }
      var points;
      points, warnings := ParseGrid(lines, parseFloat);
      azAltList := points;
    }
  }

  // ------------------------------------------------------- star data

  /** `StarMeas`: a star measurement from the guider. */
  datatype StarMeas = StarMeas(xyPos: seq<real>, sky: real, ampl: real, fwhm: real)

  /** One record of a star keyword: the type character (field 0) and the
      numeric fields 1 to 14. */
  datatype StarKeyData = StarKeyData(typeChar: string, values: seq<real>)

  /** Field `k` (1 to 14) of a star record. */
  function StarField(d: StarKeyData, k: nat): real
    requires |d.values| == 14 && 1 <= k <= 14
  {
    d.values[k - 1]
  }

  /** `StarMeas.fromStarKey`. */
  function FromStarKey(d: StarKeyData): (r: StarMeas)
    requires |d.values| == 14
    ensures r.fwhm == StarField(d, 8) && r.sky == StarField(d, 13) && r.ampl == StarField(d, 14)
    ensures r.xyPos == [StarField(d, 2), StarField(d, 3)]
  {
    StarMeas(d.values[1..3], d.values[12], d.values[13], d.values[7])
  }

  /** `makeStarData`'s one star record: type, index 1, position, two unit
      errors, radius 5 fwhm, one, fwhm twice, two zeros, amplitude, sky,
      amplitude. */
  function MakeStarData(typeChar: string, x: real, y: real, sky: real, ampl: real, fwhm: real): (r: StarKeyData)
    ensures r.typeChar == typeChar && |r.values| == 14
  {
    StarKeyData(typeChar, [1.0, x, y, 1.0, 1.0, fwhm * 5.0, 1.0, fwhm, fwhm, 0.0, 0.0, ampl, sky, ampl])
  }

  /** Reading a made-up star back gives what it was made from. */
  lemma StarDataRoundTrip(typeChar: string, x: real, y: real, sky: real, ampl: real, fwhm: real)
    ensures var d := MakeStarData(typeChar, x, y, sky, ampl, fwhm);
      d.typeChar == typeChar && FromStarKey(d) == StarMeas([x, y], sky, ampl, fwhm)
  {
    var d := MakeStarData(typeChar, x, y, sky, ampl, fwhm);
    assert d.values[1..3] == [x, y];
  }


  /** `PtRefStar`: a pointing reference star. */
  datatype PtRefStar = PtRefStar(pos: seq<Option<real>>, parallax: Option<real>, pm: seq<Option<real>>,
                                 radVel: Option<real>, coordSysName: Option<string>,
                                 coordSysDate: Option<real>, mag: Option<real>)

  /** One field of a ptRefStar keyword: a number, a name, or None. */
  datatype Field = Num(x: real) | Name(s: string) | NoValue

  function AsReal(f: Field): Option<real>
  {
    if f.Num? then Some(f.x) else None
  }

  function AsName(f: Field): Option<string>
  {
    if f.Name? then Some(f.s) else None
  }

  /** `PtRefStar(valueList)`: a RuntimeError when the first value is None;
      else position from fields 0-1, parallax 2, proper motion 3-4, radial
      velocity 5, coordinate system name 6 and date 7, magnitude 8. */
  function MakePtRefStar(values: seq<Field>): (r: Result<PtRefStar>)
    requires |values| == 9
    ensures r.Raise? <==> values[0].NoValue?
    ensures r.Raise? ==> r.exc == RuntimeError("Invalid data")
  {
    if values[0].NoValue? then Raise(RuntimeError("Invalid data"))
    else Ok(PtRefStar([AsReal(values[0]), AsReal(values[1])], AsReal(values[2]),
                      [AsReal(values[3]), AsReal(values[4])], AsReal(values[5]),
                      AsName(values[6]), AsReal(values[7]), AsReal(values[8])))
  }

  /** A star at (ra, dec) with the given catalogue data is read back
      field for field. */
  lemma PtRefStarFields(ra: real, dec: real, parallax: real, pmRa: real, pmDec: real, radVel: real,
                        csys: string, date: real, mag: real)
    ensures MakePtRefStar([Num(ra), Num(dec), Num(parallax), Num(pmRa), Num(pmDec), Num(radVel),
                           Name(csys), Num(date), Num(mag)])
      == Ok(PtRefStar([Some(ra), Some(dec)], Some(parallax), [Some(pmRa), Some(pmDec)], Some(radVel),
                      Some(csys), Some(date), Some(mag)))
  {
  }
}
