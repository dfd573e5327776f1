// The GIFS instrument's stage controls (TUI/Inst/GIFS/StatusConfigInputWdg.py):
// one row of widgets per motorised stage, showing the position reported by
// the stage's status keyword, offering the user a choice of positions, and
// building the command that moves the stage to the user's choice.
//
// The three Python classes (StageControls and its subclasses CalMirrorControls
// and FilterControls) become one class `Stage` whose `kind` selects the
// overridden behaviour.  The widget state the callbacks change is a
// `StageState` record; every callback is a pure transition on it, and the
// class's methods are proved to perform exactly that transition.

module GIFS {
  import opened Util

  /** A converted keyword field: asBool, str or asFloatOrNone. */
  datatype Value = VBool(b: bool) | VStr(s: string) | VNum(x: real) | VNone

  /** Python truth value of a converted field. */
  predicate Truthy(v: Value)
  {
    match v
    case VBool(b) => b
    case VStr(s) => s != ""
    case VNum(x) => x != 0.0
    case VNone => false
  }

  /** The keyword converters of the GIFS model. */
  datatype Conv = AsBool | Str | AsFloatOrNone

  predicate Fits(c: Conv, v: Value)
  {
    match c
    case AsBool => v.VBool?
    case Str => v.VStr?
    case AsFloatOrNone => v.VNum? || v.VNone?
  }

  /** Which of the three control classes a stage is. */
  datatype StageKind = Generic | CalMirror | Filter

  /** The converters of each kind's status keyword, field by field. */
  function StatusConvs(kind: StageKind): seq<Conv>
  {
    match kind
    case Generic => [AsBool, Str, Str, AsFloatOrNone, AsFloatOrNone, AsFloatOrNone]
    case CalMirror => [AsBool, Str, Str, AsFloatOrNone]
    case Filter =>
      [AsBool, AsFloatOrNone, AsFloatOrNone, Str,
       AsFloatOrNone, AsFloatOrNone, AsFloatOrNone, AsFloatOrNone]
  }

  /** A status value list as the keyword layer delivers it: the right
      number of fields, each converted by its converter. */
  predicate WellTyped(kind: StageKind, values: seq<Value>)
  {
    var convs := StatusConvs(kind);
    |values| == |convs| && forall i :: 0 <= i < |values| ==> Fits(convs[i], values[i])
  }

  /** `str()` of a displayed position (a string, or a bool as written for
      the cal mirror). */
  function Text(v: Value): string
    requires v.VStr? || v.VBool?
  {
    match v
    case VStr(s) => s
    case VBool(b) => if b then "True" else "False"
  }

  // ------------------------------------------------------------ names

  /** `label.lower().replace(" ", "")`: the command verb of a stage. */
  function CmdVerb(stageLabel: string): (r: string)
    ensures ' ' !in r
    ensures forall i :: 0 <= i < |r| ==> !('A' <= r[i] <= 'Z')
    ensures forall c :: c in r <==> c in Lower(stageLabel) && c != ' '
  {
    var l := Lower(stageLabel);
    assert forall c :: c in l ==> !('A' <= c <= 'Z');
    var r := RemoveChar(l, ' ');
    assert forall i :: 0 <= i < |r| ==> r[i] in r;
    r
  }

  /** The verb is already in its own normal form. */
  lemma CmdVerbIdempotent(stageLabel: string)
    ensures CmdVerb(CmdVerb(stageLabel)) == CmdVerb(stageLabel)
  {
    var v := CmdVerb(stageLabel);
    LowerOfLowercase(v);
    RemoveCharAbsent(v, ' ');
  }

  lemma {:induction false} RemoveCharAbsent(s: string, c: char)
    requires c !in s
    ensures RemoveChar(s, c) == s
  {
    if s != [] {
      assert s[0] in s;
      assert forall x :: x in s[1..] ==> x in s;
      RemoveCharAbsent(s[1..], c);
    }
  }

  /** `descr if descr is not None else stageLabel.lower()`. */
  function Descr(stageLabel: string, descr: Option<string>): (r: string)
    ensures descr.Some? ==> r == descr.value
    ensures descr.None? ==> r == Lower(stageLabel)
  {
    if descr.Some? then descr.value else Lower(stageLabel)
  }

  /** The verb of a two-word label such as "Cal Mirror" or "Filter Wheel"
      is the lower-cased words run together ("calmirror", "filterwheel"). */
  lemma TwoWordVerb(a: string, b: string)
    requires ' ' !in a && ' ' !in b
    ensures CmdVerb(a + " " + b) == Lower(a) + Lower(b)
  {
    var la, lb := Lower(a), Lower(b);
    LowerKeepsNoBlank(a);
    LowerKeepsNoBlank(b);
    LowerAroundBlank(a, b);
    assert CmdVerb(a + " " + b) == RemoveChar(la + [' '] + lb, ' ');
    RemoveCharSplit(la, lb, ' ');
    RemoveCharAbsent(la, ' ');
    RemoveCharAbsent(lb, ' ');
  }

  lemma LowerAroundBlank(a: string, b: string)
    ensures Lower(a + " " + b) == Lower(a) + [' '] + Lower(b)
  {
    LowerConcat(a, " ");
    LowerConcat(a + " ", b);
  }

  lemma {:induction false} LowerConcat(x: string, y: string)
    ensures Lower(x + y) == Lower(x) + Lower(y)
  {
    if x == [] {
      assert x + y == y;
    } else {
      assert (x + y)[1..] == x[1..] + y;
      LowerConcat(x[1..], y);
    }
  }

  lemma LowerKeepsNoBlank(s: string)
    requires ' ' !in s
    ensures ' ' !in Lower(s)
  {
    var l := Lower(s);
    forall i | 0 <= i < |l|
      ensures l[i] != ' '
    {
      assert s[i] in s;
    }
  }

  lemma {:induction false} RemoveCharSplit(a: string, b: string, c: char)
    ensures RemoveChar(a + [c] + b, c) == RemoveChar(a, c) + RemoveChar(b, c)
    decreases |a|
  {
    if a == [] {
      assert a + [c] + b == [c] + b;
      assert ([c] + b)[1..] == b;
    } else {
      assert (a + [c] + b)[0] == a[0];
      assert (a + [c] + b)[1..] == a[1..] + [c] + b;
      RemoveCharSplit(a[1..], b, c);
    }
  }

  // ------------------------------------------------------------ state

  /** What the callbacks change: the current-position stageLabel (currWdg), the
      user's menu (userWdg: items, value, default, whether the user has
      moved it off the default) and the progress bar (None when hidden,
      else the duration it was started with). */
  datatype StageState = StageState(
    curr: Value,
    currIsCurrent: bool,
    items: seq<string>,
    user: string,
    edited: bool,
    default: string,
    progress: Option<Value>,
    filterSlots: Slots)

  /** The state right after the widgets are made. */
  const InitialState := StageState(VNone, false, [], "", false, "", None, [])

  /** The user widget follows its default until the user changes it
      (trackDefault); the filter menu always lists the known filter names. */
  predicate Consistent(kind: StageKind, s: StageState)
  {
    (!s.edited ==> s.user == s.default)
    && (kind == Filter ==> Ascending(s.filterSlots) && s.items == Names(s.filterSlots))
  }

  /** `userWdg.setDefault(v)` with trackDefault. */
  function SetDefault(s: StageState, v: string): (r: StageState)
    ensures r.default == v
    ensures !s.edited ==> r.user == v
    ensures s.edited ==> r.user == s.user
  {
    s.(default := v, user := if s.edited then s.user else v)
  }

  /** The user picks `v` in the menu; picking the default resumes tracking. */
  function UserSelect(s: StageState, v: string): (r: StageState)
    ensures r.user == v && r.edited == (v != s.default)
  {
    s.(user := v, edited := v != s.default)
  }

  // ------------------------------------------------------------ status

  /** What a status callback reads: the position to show, whether to show
      the progress bar, and the duration to start it with. */
  datatype StatusFields = StatusFields(pos: Value, moving: bool, duration: Value)

  /** The fields as the callbacks index them in the source: the generic
      stage times its progress bar with field 3 and the cal mirror shows
      field 0. */
  function StatusFieldsAsWritten(kind: StageKind, values: seq<Value>): (r: StatusFields)
    requires WellTyped(kind, values)
    ensures r.pos.VStr? || r.pos.VBool?
  {
    match kind
    case Generic => StatusFields(values[1], Truthy(values[0]), values[3])
    case CalMirror => StatusFields(values[0], false, VNone)
    case Filter => StatusFields(values[3], false, VNone)
  }

  /** The fields the status keywords document: current position in field 1
      (field 3, the filter name, for the filter wheel) and, for a generic
      stage, the estimated time to arrive in field 5. */
  function StatusFieldsOf(kind: StageKind, values: seq<Value>): (r: StatusFields)
    requires WellTyped(kind, values)
    ensures r.pos.VStr?
    ensures r.moving ==> kind == Generic && (r.duration.VNum? || r.duration.VNone?)
  {
    match kind
    case Generic => StatusFields(values[1], Truthy(values[0]), values[5])
    case CalMirror => StatusFields(values[1], false, VNone)
    case Filter => StatusFields(values[3], false, VNone)
  }

  /** `statusCallback`: show the position, make it the menu's default, and
      show the progress bar exactly while the stage moves. */
  function StatusUpdate(s: StageState, f: StatusFields, isCurrent: bool): (r: StageState)
    requires f.pos.VStr? || f.pos.VBool?
  {
    SetDefault(s.(curr := f.pos, currIsCurrent := isCurrent), Text(f.pos))
      .(progress := if f.moving then Some(f.duration) else None)
  }

  /** A status update shows the reported position, makes it the default,
      starts the progress bar with the time to arrive exactly when a
      generic stage reports that it is moving, and leaves the menu items,
      the filter names and the user's own choice alone. */
  lemma StatusUpdateShows(kind: StageKind, s: StageState, values: seq<Value>, isCurrent: bool)
    requires WellTyped(kind, values)
    ensures var r := StatusUpdate(s, StatusFieldsOf(kind, values), isCurrent);
      var posField := if kind == Filter then 3 else 1;
      && r.curr == values[posField] && r.currIsCurrent == isCurrent
      && r.default == values[posField].s
      && (r.progress.Some? <==> kind == Generic && Truthy(values[0]))
      && (r.progress.Some? ==> r.progress.value == values[5])
      && r.items == s.items && r.filterSlots == s.filterSlots
      && (s.edited ==> r.user == s.user)
      && (Consistent(kind, s) ==> Consistent(kind, r))
  {
  }

  // ----------------------------------------------------------- config

  /** `configCallback`: the config keyword lists the menu's positions. */
  function ConfigUpdate(s: StageState, items: seq<string>): (r: StageState)
    ensures r.items == items
    ensures r.(items := s.items) == s
  {
    s.(items := items)
  }

  // ----------------------------------------------------------- filter

  /** The filter-name dictionary as (slot, name) pairs; kept in increasing
      slot order, which is the order `sorted(dict.keys())` visits them. */
  type Slots = seq<(int, string)>

  predicate Ascending(l: Slots)
  {
    forall i, j :: 0 <= i < j < |l| ==> l[i].0 < l[j].0
  }

  /** `dict.get(slot)`. */
  function Lookup(l: Slots, slot: int): Option<string>
  {
    if l == [] then None
    else if l[0].0 == slot then Some(l[0].1)
    else Lookup(l[1..], slot)
  }

  /** Past the last slot lower than `slot`, no pair has that slot. */
  lemma {:induction false} LookupBelow(l: Slots, slot: int)
    requires Ascending(l) && (l == [] || slot < l[0].0)
    ensures Lookup(l, slot).None?
  {
    if l != [] {
      assert l[1..] == [] || l[0].0 < l[1..][0].0;
      LookupBelow(l[1..], slot);
    }
  }

  /** `dict[slot] = name`: the latest name for a slot replaces the old one,
      every other slot keeps its name, and the pairs stay in slot order. */
  function Store(l: Slots, slot: int, name: string): (r: Slots)
    requires Ascending(l)
    ensures Ascending(r) && |r| > 0
    ensures l != [] ==> r[0].0 == if slot < l[0].0 then slot else l[0].0
    ensures l == [] ==> r[0].0 == slot
    ensures |r| == |l| + (if Lookup(l, slot).None? then 1 else 0)
    decreases |l|
  {
    if l == [] then [(slot, name)]
    else if slot < l[0].0 then
      LookupBelow(l, slot);
      [(slot, name)] + l
    else if slot == l[0].0 then [(slot, name)] + l[1..]
    else [l[0]] + Store(l[1..], slot, name)
  }

  /** Storing a name and looking a slot up: the dictionary's meaning. */
  lemma {:induction false} StoreLookup(l: Slots, slot: int, name: string, k: int)
    requires Ascending(l)
    ensures Lookup(Store(l, slot, name), k) == if k == slot then Some(name) else Lookup(l, k)
    decreases |l|
  {
    if l != [] {
      if slot < l[0].0 {
      } else if slot == l[0].0 {
        if k != slot {
          assert l[1..] == [] || l[0].0 < l[1..][0].0;
        }
      } else {
        StoreLookup(l[1..], slot, name, k);
        if k == l[0].0 {
        } else {
          assert Store(l, slot, name)[1..] == Store(l[1..], slot, name);
        }
      }
    }
  }

  /** The names in slot order: `[d[i] for i in sorted(d.keys())]`. */
  function Names(l: Slots): (r: seq<string>)
    ensures |r| == |l|
    ensures forall i :: 0 <= i < |l| ==> r[i] == l[i].1
  {
    if l == [] then [] else [l[0].1] + Names(l[1..])
  }

  /** `filterPosCallback`: record a slot's name and relist the names in
      slot order; data that is not current is ignored. */
  function FilterPosUpdate(s: StageState, slot: int, name: string, isCurrent: bool): (r: StageState)
    requires Ascending(s.filterSlots)
    ensures Ascending(r.filterSlots)
  {
    if !isCurrent then s
    else
      var slots := Store(s.filterSlots, slot, name);
      s.(filterSlots := slots, items := Names(slots))
  }

  /** Non-current data changes nothing.  Current data makes `name` the
      slot's name, keeps every other slot's name, lists one name per known
      slot in slot order (one more when the slot is new), and touches
      nothing but the names and the menu items. */
  lemma FilterPosUpdateRecords(s: StageState, slot: int, name: string, isCurrent: bool, k: int)
    requires Ascending(s.filterSlots)
    ensures !isCurrent ==> FilterPosUpdate(s, slot, name, isCurrent) == s
    ensures isCurrent ==>
      var r := FilterPosUpdate(s, slot, name, isCurrent);
      && Lookup(r.filterSlots, k) == (if k == slot then Some(name) else Lookup(s.filterSlots, k))
      && r.items == Names(r.filterSlots)
      && |r.items| == |s.filterSlots| + (if Lookup(s.filterSlots, slot).None? then 1 else 0)
      && r.(filterSlots := s.filterSlots, items := s.items) == s
    ensures Consistent(Filter, s) ==> Consistent(Filter, FilterPosUpdate(s, slot, name, isCurrent))
  {
    StoreLookup(s.filterSlots, slot, name, k);
  }

  // ---------------------------------------------------------- commands

  /** `getCmd` as written: nothing when the position stageLabel is current, and
      otherwise a command to the position already shown.  The cal mirror's
      command starts with its stageLabel. */
  function CommandAsWritten(kind: StageKind, stageLabel: string, verb: string, s: StageState): (r: Option<string>)
    requires s.curr.VStr? || s.curr.VBool?
    ensures s.currIsCurrent <==> r.None?
  {
    if s.currIsCurrent then None
    else if kind == CalMirror then Some(stageLabel + " " + Text(s.curr))
    else Some(verb + " move=" + Text(s.curr))
  }

  /** The command that moves the stage to the user's setting: nothing when
      the setting is already the current position, else
      "<verb> move=<setting>", and for the cal mirror, as its `getCmd`
      writes it, "<stageLabel> <setting>". */
  function Command(kind: StageKind, stageLabel: string, verb: string, s: StageState): (r: Option<string>)
    ensures r.None? <==> s.user == s.default
  {
    if s.user == s.default then None
    else if kind == CalMirror then Some(stageLabel + " " + s.user)
    else Some(verb + " move=" + s.user)
  }

  /** A text followed by a blank and one word splits into the text's
      words and that word. */
  lemma TextThenWordSplits(text: string, word: string)
    requires ' ' !in word
    ensures SplitOn(text + " " + word, ' ') == SplitOn(text, ' ') + [word]
  {
    var words := SplitOn(text, ' ');
    JoinAppend(" ", words, word);
    SplitOnJoin(text, ' ');
    assert forall k :: 0 <= k < |words + [word]| ==> ' ' !in (words + [word])[k];
    JoinSplitOn(words + [word], ' ');
  }

  /** The command carries the user's setting: for a stage other than the
      cal mirror, splitting at the first space gives the verb back (a verb
      has no space) and then "move=" with the setting; the cal mirror's
      words are the words of its stageLabel followed by the setting. */
  lemma CommandSplits(kind: StageKind, stageLabel: string, s: StageState)
    requires s.user != s.default
    ensures var r := Command(kind, stageLabel, CmdVerb(stageLabel), s);
      && r.Some?
      && (kind == CalMirror && ' ' !in s.user ==> SplitOn(r.value, ' ') == SplitOn(stageLabel, ' ') + [s.user])
      && (kind != CalMirror ==> SplitOnce(r.value, ' ') == Some((CmdVerb(stageLabel), "move=" + s.user)))
  {
    var verb := CmdVerb(stageLabel);
    if kind == CalMirror {
      if ' ' !in s.user {
        TextThenWordSplits(stageLabel, s.user);
      }
    } else {
      assert verb + " move=" + s.user == verb + [' '] + ("move=" + s.user);
      SplitOnceOf(verb, ' ', "move=" + s.user);
    }
  }

  /** While the user has not moved the menu off the reported position, a
      status update leaves nothing to command; a choice other than the
      reported position is commanded. */
  lemma CommandAfterStatus(kind: StageKind, stageLabel: string, verb: string, s: StageState, values: seq<Value>,
                           isCurrent: bool, v: string)
    requires WellTyped(kind, values)
    ensures var r := StatusUpdate(s, StatusFieldsOf(kind, values), isCurrent);
      !s.edited ==> Command(kind, stageLabel, verb, r).None?
    ensures var r := UserSelect(StatusUpdate(s, StatusFieldsOf(kind, values), isCurrent), v);
      (Command(kind, stageLabel, verb, r).Some? <==> v != values[if kind == Filter then 3 else 1].s)
  {
  }

  /** A collimator whose status is current and shows "spect_pinhole_red"
      while the user picked "imaging_green": the source builds no command;
      with the status not current it commands the shown position instead
      of the user's choice.  The intended command moves to the choice. */
  lemma CommandAsWrittenIgnoresUser()
    ensures var s := StageState(VStr("spect_pinhole_red"), true, [], "imaging_green", true,
                                "spect_pinhole_red", None, []);
      && CommandAsWritten(Generic, "Collimator", "collimator", s) == None
      && CommandAsWritten(Generic, "Collimator", "collimator", s.(currIsCurrent := false))
         == Some("collimator move=spect_pinhole_red")
      && Command(Generic, "Collimator", "collimator", s) == Some("collimator move=imaging_green")
  {
    var s := StageState(VStr("spect_pinhole_red"), true, [], "imaging_green", true,
                        "spect_pinhole_red", None, []);
    assert s.user != s.default by {
      assert s.user[0] != s.default[0];
    }
    assert Command(Generic, "Collimator", "collimator", s) == Some("collimator" + " move=" + "imaging_green");
    var t := s.(currIsCurrent := false);
    assert Text(t.curr) == "spect_pinhole_red";
    assert CommandAsWritten(Generic, "Collimator", "collimator", t) == Some("collimator" + " move=" + "spect_pinhole_red");
    assert "collimator" + " move=" + "spect_pinhole_red" == "collimator move=spect_pinhole_red";
    assert "collimator" + " move=" + "imaging_green" == "collimator move=imaging_green";
  }

  /** The animated collimator status "1, spect_pinhole_red, imaging_green,
      -3.2, 32450.0, 1.5" starts the progress bar with -3.2 (the commanded
      position) as written, instead of 1.5 seconds; the cal mirror status
      "0, in, 0.0, 0.0" shows False as written, instead of "in". */
  lemma StatusFieldsAsWrittenMisread()
    ensures var v := [VBool(true), VStr("spect_pinhole_red"), VStr("imaging_green"),
                      VNum(-3.2), VNum(32450.0), VNum(1.5)];
      WellTyped(Generic, v)
      && StatusFieldsAsWritten(Generic, v).duration == VNum(-3.2)
      && StatusFieldsOf(Generic, v).duration == VNum(1.5)
    ensures var c := [VBool(false), VStr("in"), VStr("0.0"), VNum(0.0)];
      WellTyped(CalMirror, c)
      && StatusFieldsAsWritten(CalMirror, c).pos == VBool(false)
      && StatusFieldsOf(CalMirror, c).pos == VStr("in")
  {
    var v := [VBool(true), VStr("spect_pinhole_red"), VStr("imaging_green"),
              VNum(-3.2), VNum(32450.0), VNum(1.5)];
    var gc := StatusConvs(Generic);
    assert Fits(gc[0], v[0]) && Fits(gc[1], v[1]) && Fits(gc[2], v[2]);
    assert Fits(gc[3], v[3]) && Fits(gc[4], v[4]) && Fits(gc[5], v[5]);
    var c := [VBool(false), VStr("in"), VStr("0.0"), VNum(0.0)];
    var cc := StatusConvs(CalMirror);
    assert Fits(cc[0], c[0]) && Fits(cc[1], c[1]) && Fits(cc[2], c[2]) && Fits(cc[3], c[3]);
  }

  // ------------------------------------------------------------ class

  /** One row of stage controls. */
  class Stage {
    const kind: StageKind
    const stageLabel: string
    const descr: string
    const cmdVerb: string

    var wdgMade: bool
    var curr: Value
    var currIsCurrent: bool
    var items: seq<string>
    var user: string
    var edited: bool
    var default: string
    var progress: Option<Value>
    var filterSlots: Slots

    function State(): StageState
      reads this
    {
      StageState(curr, currIsCurrent, items, user, edited, default, progress, filterSlots)
    }

    ghost predicate Valid()
      reads this
    {
      wdgMade && cmdVerb == CmdVerb(stageLabel) && Consistent(kind, State())
    }

    method SetState(s: StageState)
      modifies this
      ensures State() == s && wdgMade == old(wdgMade)
    {
      curr, currIsCurrent, items, user := s.curr, s.currIsCurrent, s.items, s.user;
      edited, default, progress, filterSlots := s.edited, s.default, s.progress, s.filterSlots;
    }

    /** `StageControls(stageLabel, configKey, statusKey, descr)`: make the
        widgets and, when there is a config key, apply its current value
        (`config`) at once. */
    constructor Make(stageLabel: string, config: Option<seq<string>>, descr: Option<string>)
      ensures Valid() && kind == Generic && this.stageLabel == stageLabel
      ensures this.descr == Descr(stageLabel, descr) && cmdVerb == CmdVerb(stageLabel)
      ensures State() == if config.Some? then ConfigUpdate(InitialState, config.value) else InitialState
    {
      kind, this.stageLabel, this.descr, cmdVerb := Generic, stageLabel, Descr(stageLabel, descr), CmdVerb(stageLabel);
      wdgMade := false;
      new;
      SetState(InitialState);
      var made := MakeWdg();
      if config.Some? {
        ConfigCallback(config.value);
      }
    }

    /** `CalMirrorControls`: no config key. */
    constructor MakeCalMirror()
      ensures Valid() && kind == CalMirror && stageLabel == "Cal Mirror"
      ensures descr == "calibration mirror" && State() == InitialState
    {
      kind, stageLabel, descr, cmdVerb := CalMirror, "Cal Mirror", "calibration mirror", CmdVerb("Cal Mirror");
      wdgMade := false;
      new;
      SetState(InitialState);
      var made := MakeWdg();
    }

    /** `FilterControls`: no config key; the menu lists the filter names. */
    constructor MakeFilter()
      ensures Valid() && kind == Filter && stageLabel == "Filter Wheel"
      ensures descr == Descr("Filter Wheel", None) && State() == InitialState
    {
      kind, stageLabel, descr, cmdVerb := Filter, "Filter Wheel", Descr("Filter Wheel", None), CmdVerb("Filter Wheel");
      wdgMade := false;
      new;
      SetState(InitialState);
      var made := MakeWdg();
    }

    /** `_makeWdg`: refuses to make the widgets twice; a new progress bar
        starts hidden. */
    method MakeWdg() returns (r: Result<()>)
      modifies this
      ensures old(wdgMade) ==> r == Raise(RuntimeError("widgets already exist")) && unchanged(this)
      ensures !old(wdgMade) ==> r == Ok(()) && wdgMade && State() == old(State()).(progress := None)
    {
      if wdgMade {
        return Raise(RuntimeError("widgets already exist"));
      }
      wdgMade := true;
      progress := None;
      r := Ok(());
    }

    /** `configCallback`. */
    method ConfigCallback(newItems: seq<string>)
      requires kind == Generic
      modifies this
      ensures State() == ConfigUpdate(old(State()), newItems)
      ensures unchanged(this`wdgMade)
      ensures old(Valid()) ==> Valid()
    {
      items := newItems;
    }

    /** `statusCallback` (each kind reading its own fields). */
    method StatusCallback(values: seq<Value>, isCurrent: bool)
      requires Valid() && WellTyped(kind, values)
      modifies this
      ensures State() == StatusUpdate(old(State()), StatusFieldsOf(kind, values), isCurrent)
      ensures Valid()
    {
      var f := StatusFieldsOf(kind, values);
      curr, currIsCurrent := f.pos, isCurrent;
      default := Text(f.pos);
      if !edited {
        user := default;
      }
      if f.moving {
        progress := Some(f.duration);
      } else {
        progress := None;
      }
      StatusUpdateShows(kind, old(State()), values, isCurrent);
    }

    /** `filterPosCallback`. */
    method FilterPosCallback(slot: int, name: string, isCurrent: bool)
      requires Valid() && kind == Filter
      modifies this
      ensures State() == FilterPosUpdate(old(State()), slot, name, isCurrent)
      ensures Valid()
    {
      if !isCurrent {
        return;
      }
      filterSlots := Store(filterSlots, slot, name);
      items := Names(filterSlots);
    }

    /** The user picks a position. */
    method Select(v: string)
      requires Valid()
      modifies this
      ensures State() == UserSelect(old(State()), v)
      ensures Valid()
    {
      edited := v != default;
      user := v;
    }

    /** `getCmd`, as intended. */
    method GetCmd() returns (r: Option<string>)
      ensures r == Command(kind, stageLabel, cmdVerb, State())
    {
      if user == default {
        return None;
      }
      if kind == CalMirror {
        return Some(stageLabel + " " + user);
      }
      return Some(cmdVerb + " move=" + user);
    }
  }
}
