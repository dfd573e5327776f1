// TUI/Inst/Kosmos/StatusConfigInputWdg.py: the Kosmos configuration
// panel. Positions arrive as strings and become item names (1-based, with
// Python's negative indexing); stage states warn while moving or homing;
// the calibration stage position reads "in" past 5000; bin factors are
// shown as integers. Each mechanism is a pair of widgets, a current-value
// label and a user menu with a default, which the class below models.
// `int(float(v))` is the parameter `floatToInt` (None when `float` fails).

module Kosmos {
  import opened Util

  /** `indFormat.__call__`: nothing for an empty selection, else
      "name=N" with N the selection's index plus the offset. */
  function IndFormat(name: string, valueList: seq<Option<string>>, indFunc: string -> int, offset: int): (r: string)
  {
    if valueList == [] || valueList[0].None? || valueList[0].value == "" then ""
    else name + "=" + IntToString(indFunc(valueList[0].value) + offset)
  }

  /** The format is empty exactly for an empty or blank selection. */
  lemma IndFormatEmpty(name: string, valueList: seq<Option<string>>, indFunc: string -> int, offset: int)
    ensures IndFormat(name, valueList, indFunc, offset) == "" <==>
              valueList == [] || valueList[0].None? || valueList[0].value == ""
  {
    if !(valueList == [] || valueList[0].None? || valueList[0].value == "") {
      var r := name + "=" + IntToString(indFunc(valueList[0].value) + offset);
      assert r[|name|] == '=';
    }
  }

  /** A non-empty format reads back, at the first "=" after a name without
      one, as the name and the index plus the offset. */
  lemma IndFormatParses(name: string, v: string, indFunc: string -> int, offset: int)
    requires '=' !in name && v != ""
    ensures var split := SplitOnce(IndFormat(name, [Some(v)], indFunc, offset), '=');
      && split.Some? && split.value.0 == name
      && PyInt(split.value.1) == Some(indFunc(v) + offset)
  {
    var n := indFunc(v) + offset;
    var vl := [Some(v)];
    assert !(vl == [] || vl[0].None? || vl[0].value == "");
    var f := IndFormat(name, vl, indFunc, offset);
    assert f == name + "=" + IntToString(n);
    AssignmentParses(name, n);
    assert SplitOnce(f, '=') == Some((name, IntToString(n)));
  }

  /** "name=N" splits at its first "=" into the name and the digits of N. */
  lemma AssignmentParses(name: string, n: int)
    requires '=' !in name
    ensures var split := SplitOnce(name + "=" + IntToString(n), '=');
      split == Some((name, IntToString(n))) && PyInt(split.value.1) == Some(n)
  {
    var digits := IntToString(n);
    assert name + "=" + digits == name + ['='] + digits;
    SplitOnceOf(name, '=', digits);
    PyIntOfIntToString(n);
  }

  /** The default offset (1) turns a 0-based menu index into the 1-based
      position the instrument expects. */
  lemma IndFormatDefaultOffset(name: string, v: string, items: seq<string>, k: nat)
    requires v != "" && k < |items| && (forall j :: 0 <= j < |items| ==> (j == k <==> items[j] == v))
    ensures IndFormat(name, [Some(v)], (x: string) => if x in items then FirstIndexOf(items, x) else -1, 1)
            == name + "=" + IntToString(k + 1)
  {
    assert items[k] == v;
  }

  function FirstIndexOf(items: seq<string>, x: string): (k: nat)
    requires x in items
    ensures k < |items| && items[k] == x && x !in items[..k]
  {
    if items[0] == x then 0
    else
      var k := FirstIndexOf(items[1..], x);
      assert items[1..][..k] == items[1..k + 1];
      k + 1
  }

  /** `_updFilter1Name` and the like: `int(v) - 1` indexes the items, with
      Python's negative indexing; None is the exception path. */
  function IndexedName(value: Option<string>, items: seq<string>): (r: Option<string>)
  {
    if value.None? || PyInt(value.value).None? then None
    else PyIndex(items, PyInt(value.value).value - 1)
  }

  /** Positions 1..n name the items in order; position 0 names the last
      item (index -1); other numbers and non-numbers have no name. */
  lemma IndexedNameCases(n: int, items: seq<string>)
    ensures 1 <= n <= |items| ==> IndexedName(Some(IntToString(n)), items) == Some(items[n - 1])
    ensures n == 0 && items != [] ==> IndexedName(Some(IntToString(n)), items) == Some(items[|items| - 1])
    ensures (n > |items| || n < 1 - |items|) ==> IndexedName(Some(IntToString(n)), items).None?
    ensures IndexedName(None, items).None?
  {
    PyIntOfIntToString(n);
  }

  /** `_updCalstageState` and `_updGfocusState`: exactly "Moving", or any
      state containing "hom" in any case, is shown as a warning. */
  predicate MotionWarns(state: string)
  {
    state == "Moving" || Contains(Lower(state), "hom")
  }

  /** "Moving" is matched exactly: in lower case it does not warn. */
  lemma MovingMatchedExactly()
    ensures MotionWarns("Moving") && !MotionWarns("moving")
  {
    assert Lower("moving") == "moving";
    ContainsFirstChar("moving", "hom");
  }

  /** `_updCalstageName`'s default: "?" for no position, "in" past 5000,
      else "out"; a position `int` cannot read raises ValueError. */
  function CalstagePos(calstage: Option<string>): (r: Result<string>)
  {
    if calstage.None? then Ok("?")
    else if PyInt(calstage.value).None? then Raise(ValueError("invalid literal for int()"))
    else if PyInt(calstage.value).value > 5000 then Ok("in")
    else Ok("out")
  }

  lemma CalstagePosCases(n: int)
    ensures CalstagePos(Some(IntToString(n))) == Ok(if n > 5000 then "in" else "out")
    ensures CalstagePos(None) == Ok("?")
  {
    PyIntOfIntToString(n);
  }

  /** A bin factor as shown: "?" for none, else `str(int(float(v)))`. */
  function BinText(v: Option<string>, floatToInt: string -> Option<int>): (r: Result<string>)
    ensures v.None? ==> r == Ok("?")
    ensures v.Some? && floatToInt(v.value).Some? ==> r.Ok? && PyInt(r.value) == floatToInt(v.value)
  {
    if v.None? then Ok("?")
    else if floatToInt(v.value).None? then Raise(ValueError("invalid literal for float()"))
    else
      PyIntOfIntToString(floatToInt(v.value).value);
      Ok(IntToString(floatToInt(v.value).value))
  }

  /** One mechanism: the current-value label and the user menu. */
  class Mechanism {
    var currText: Option<string>
    var currSev: Severity
    var default: Option<string>
    /** The menu items (`_items`). */
    var items: seq<string>

    constructor (items: seq<string>)
      ensures this.items == items && currText == None && currSev == Normal && default == None
    {
      this.items := items;
      currText := None;
      currSev := Normal;
      default := None;
    }

    /** `setItems`. */
    method SetItems(newItems: seq<string>)
      modifies this`items
      ensures items == newItems
    {
      items := newItems;
    }

    /** `_upd*Name` for filters, disperser and slit: a name that can be
        found is shown as normal and becomes the default; otherwise the raw
        value is shown as a warning and the default is kept. */
    method UpdIndexedName(value: Option<string>)
      modifies this`currText, this`currSev, this`default
      ensures IndexedName(value, items).Some? ==>
                currText == IndexedName(value, items) && currSev == Normal && default == IndexedName(value, items)
      ensures IndexedName(value, items).None? ==>
                currText == value && currSev == Warning && default == old(default)
    {
      var name := IndexedName(value, items);
      if name.Some? {
        currText := name;
        currSev := Normal;
        default := name;
      } else {
        currText := value;
        currSev := Warning;
      }
    }

    /** `_updCalstageState` and `_updGfocusState`: None is ignored; a
        moving or homing state is shown as a warning; anything else leaves
        the label alone. */
    method UpdMotionState(state: Option<string>)
      modifies this`currText, this`currSev
      ensures state.Some? && MotionWarns(state.value) ==> currText == state && currSev == Warning
      ensures state.None? || !MotionWarns(state.value) ==>
                currText == old(currText) && currSev == old(currSev)
    {
      if state.None? {
        return;
      }
      if state.value == "Moving" || Contains(Lower(state.value), "hom") {
        currText := state;
        currSev := Warning;
      }
    }

    /** `_updCalstageName`: the raw position is shown as normal, then the
        default is set from it (or the ValueError escapes). */
    method UpdCalstageName(calstage: Option<string>) returns (r: Result<()>)
      modifies this`currText, this`currSev, this`default
      ensures currText == calstage && currSev == Normal
      ensures CalstagePos(calstage).Ok? ==> r.Ok? && default == Some(CalstagePos(calstage).value)
      ensures CalstagePos(calstage).Raise? ==> r == Raise(CalstagePos(calstage).exc) && default == old(default)
    {
      currText := calstage;
      currSev := Normal;
      var pos := CalstagePos(calstage);
      if pos.Raise? {
        return Raise(pos.exc);
      }
      default := Some(pos.value);
      r := Ok(());
    }

    /** `_updGfocusName`: the raw position, as normal. */
    method UpdGfocusName(gfocus: Option<string>)
      modifies this`currText, this`currSev
      ensures currText == gfocus && currSev == Normal
    {
      currText := gfocus;
      currSev := Normal;
    }

    /** `_updRowBinName` and `_updColBinName`: the bin factor as text is
        both the label and the default. */
    method UpdBinName(v: Option<string>, floatToInt: string -> Option<int>) returns (r: Result<()>)
      modifies this`currText, this`currSev, this`default
      ensures BinText(v, floatToInt).Ok? ==>
                r.Ok? && currText == Some(BinText(v, floatToInt).value) && currSev == Normal
                && default == currText
      ensures BinText(v, floatToInt).Raise? ==>
                r.Raise? && currText == old(currText) && currSev == old(currSev) && default == old(default)
    {
      var t := BinText(v, floatToInt);
      if t.Raise? {
        return Raise(t.exc);
      }
      currText := Some(t.value);
      currSev := Normal;
      default := Some(t.value);
      r := Ok(());
    }
  }
}
