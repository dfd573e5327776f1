// Shared helpers: the Python built-ins the modelled code relies on
// (str.join, str.split, str.lower, str.strip, substring tests, "%d",
// negative list indexing, floor division), written out with the
// properties the rest of the model needs.

module Util {

  datatype Option<T> = None | Some(value: T)

  /** The Python exceptions the modelled code raises. */
  datatype Exc =
    | RuntimeError(msg: string)
    | ValueError(msg: string)
    | ScriptError(msg: string)
    | NameError(msg: string)
    | KeyError(msg: string)
    | TypeError(msg: string)
    | AttributeError(msg: string)
    | IndexError(msg: string)
    | ZeroDivisionError

  datatype Result<T> = Ok(value: T) | Raise(exc: Exc)

  /** `sr.waitCmd(actor, cmdStr)`: a command a script sends and waits for. */
  datatype WaitCmd = WaitCmd(actor: string, cmdStr: string)

  /** Display severities (RO.Constants.sevNormal, sevWarning, sevError). */
  datatype Severity = Normal | Warning | Error

  // ---------------------------------------------------------------- join

  /** Python `sep.join(items)`. */
  function Join(sep: string, items: seq<string>): string
  {
    if |items| == 0 then ""
    else if |items| == 1 then items[0]
    else items[0] + sep + Join(sep, items[1..])
  }

  lemma {:induction false} JoinAppend(sep: string, items: seq<string>, x: string)
    ensures Join(sep, items + [x]) == if items == [] then x else Join(sep, items) + sep + x
  {
    if |items| <= 1 {
    } else {
      assert (items + [x])[1..] == items[1..] + [x];
      JoinAppend(sep, items[1..], x);
    }
  }

  lemma {:induction false} JoinLength(sep: string, items: seq<string>)
    ensures |Join(sep, items)| == SumLengths(items) + (if items == [] then 0 else |sep| * (|items| - 1))
  {
    if |items| > 1 {
      JoinLength(sep, items[1..]);
    }
  }

  function SumLengths(items: seq<string>): nat
  {
    if items == [] then 0 else |items[0]| + SumLengths(items[1..])
  }

  /** The items that are not the empty string, in order (the source's
      `[s for s in list if s]`). */
  function NonEmpty(items: seq<string>): (r: seq<string>)
    ensures |r| <= |items|
    ensures forall s :: s in r ==> s != "" && s in items
    ensures forall s :: s in items && s != "" ==> s in r
  {
    if items == [] then []
    else if items[0] == "" then NonEmpty(items[1..])
    else [items[0]] + NonEmpty(items[1..])
  }

  // ------------------------------------------------------------ chars

  function LowerChar(c: char): (r: char)
    ensures 'A' <= c <= 'Z' ==> 'a' <= r <= 'z'
    ensures !('A' <= c <= 'Z') ==> r == c
  {
    if 'A' <= c <= 'Z' then (c as int - 'A' as int + 'a' as int) as char else c
  }

  /** Python `str.lower()` on ASCII text. */
  function Lower(s: string): (r: string)
    ensures |r| == |s|
    ensures forall i :: 0 <= i < |s| ==> r[i] == LowerChar(s[i])
  {
    if s == [] then [] else [LowerChar(s[0])] + Lower(s[1..])
  }

  lemma {:induction false} LowerIdempotent(s: string)
    ensures Lower(Lower(s)) == Lower(s)
  {
    var l := Lower(s);
    assert forall i :: 0 <= i < |l| ==> LowerChar(l[i]) == l[i];
  }

  lemma LowerOfLowercase(s: string)
    requires forall i :: 0 <= i < |s| ==> !('A' <= s[i] <= 'Z')
    ensures Lower(s) == s
  {
  }

  /** Python `s.replace(c, "")` for a one-character `c`. */
  function RemoveChar(s: string, c: char): (r: string)
    ensures c !in r
    ensures forall x :: x in r <==> x in s && x != c
    ensures |r| == |s| - multiset(s)[c]
  {
    if s == [] then []
    else
      assert s == [s[0]] + s[1..];
      if s[0] == c then RemoveChar(s[1..], c) else [s[0]] + RemoveChar(s[1..], c)
  }

  /** The whitespace characters of Python's `str.split()` and `str.strip()`. */
  predicate IsSpace(c: char)
  {
    c == ' ' || c == '\t' || c == '\n' || c == '\r' || c == 11 as char || c == 12 as char
  }

  predicate NoSpace(s: string)
  {
    forall i :: 0 <= i < |s| ==> !IsSpace(s[i])
  }

  // --------------------------------------------------------- substrings

  /** Python `sub in s` for two strings. */
  predicate Contains(s: string, sub: string)
    decreases |s|
  {
    sub <= s || (|s| > 0 && Contains(s[1..], sub))
  }

  lemma {:induction false} ContainsAt(s: string, sub: string, i: nat)
    requires i + |sub| <= |s| && s[i..i + |sub|] == sub
    ensures Contains(s, sub)
    decreases i
  {
    if i > 0 {
      assert s[1..][i - 1..i - 1 + |sub|] == s[i..i + |sub|];
      ContainsAt(s[1..], sub, i - 1);
    }
  }

  lemma {:induction false} ContainsWitness(s: string, sub: string) returns (i: nat)
    requires Contains(s, sub)
    ensures i + |sub| <= |s| && s[i..i + |sub|] == sub
    decreases |s|
  {
    if sub <= s {
      i := 0;
    } else {
      var j := ContainsWitness(s[1..], sub);
      assert s[1..][j..j + |sub|] == s[j + 1..j + 1 + |sub|];
      i := j + 1;
    }
  }

  /** A string that lacks the first character of `sub` does not contain it. */
  lemma {:induction false} ContainsFirstChar(s: string, sub: string)
    requires |sub| > 0 && sub[0] !in s
    ensures !Contains(s, sub)
    decreases |s|
  {
    if |s| > 0 {
      assert s[0] in s;
      assert forall c :: c in s[1..] ==> c in s;
      ContainsFirstChar(s[1..], sub);
    }
  }

  // ------------------------------------------------------------- split

  /** Index of the first `c` in `s`. */
  function IndexOf(s: string, c: char): (i: nat)
    requires c in s
    ensures i < |s| && s[i] == c && c !in s[..i]
    ensures forall j :: 0 <= j < i ==> s[j] != c
  {
    if s[0] == c then 0 else 1 + IndexOf(s[1..], c)
  }

  /** Python `s.split(c)` for a one-character separator. */
  function SplitOn(s: string, c: char): (r: seq<string>)
    ensures |r| >= 1
    ensures forall k :: 0 <= k < |r| ==> c !in r[k]
    decreases |s|
  {
    if c !in s then [s]
    else
      var i := IndexOf(s, c);
      [s[..i]] + SplitOn(s[i + 1..], c)
  }

  /** Joining the pieces with the separator gives the string back. */
  lemma {:induction false} SplitOnJoin(s: string, c: char)
    ensures Join([c], SplitOn(s, c)) == s
    decreases |s|
  {
    if c in s {
      var i := IndexOf(s, c);
      var rest := SplitOn(s[i + 1..], c);
      SplitOnJoin(s[i + 1..], c);
      var items := [s[..i]] + rest;
      assert SplitOn(s, c) == items;
      assert items[0] == s[..i] && items[1..] == rest && |items| >= 2;
      assert Join([c], items) == s[..i] + [c] + Join([c], rest);
      assert s == s[..i] + [c] + s[i + 1..];
    }
  }

  /** Items free of the separator, joined by it, split back into the
      same items. */
  lemma {:induction false} JoinSplitOn(items: seq<string>, c: char)
    requires |items| >= 1
    requires forall k :: 0 <= k < |items| ==> c !in items[k]
    ensures SplitOn(Join([c], items), c) == items
  {
    if |items| > 1 {
      var rest := Join([c], items[1..]);
      assert Join([c], items) == items[0] + [c] + rest;
      SplitOnceOf(items[0], c, rest);
      JoinSplitOn(items[1..], c);
    }
  }

  /** `SplitOn(s, c)[0]`: the text before the first `c` (all of `s` if none). */
  function BeforeFirst(s: string, c: char): (r: string)
    ensures r <= s && c !in r
    ensures c in s ==> s[|r|] == c
    ensures c !in s ==> r == s
  {
    if c in s then s[..IndexOf(s, c)] else s
  }

  lemma BeforeFirstIsFirstPiece(s: string, c: char)
    ensures BeforeFirst(s, c) == SplitOn(s, c)[0]
  {
  }

  /** Python `a, b = s.split(c, 1)`: fails (None) when `c` does not occur. */
  function SplitOnce(s: string, c: char): (r: Option<(string, string)>)
    ensures r.None? <==> c !in s
    ensures r.Some? ==> r.value.0 + [c] + r.value.1 == s && c !in r.value.0
  {
    if c in s then
      var i := IndexOf(s, c);
      assert s == s[..i] + [c] + s[i + 1..];
      Some((s[..i], s[i + 1..]))
    else None
  }

  /** The split happens at the first `c`. */
  lemma SplitOnceOf(a: string, c: char, b: string)
    requires c !in a
    ensures SplitOnce(a + [c] + b, c) == Some((a, b))
  {
    var s := a + [c] + b;
    assert s[|a|] == c;
    var i := IndexOf(s, c);
    assert s[..|a|] == a;
    assert i >= |a| by {
      assert forall j :: 0 <= j < |a| ==> s[j] == a[j];
    }
    assert i <= |a|;
    assert s[..i] == a;
    assert s[i + 1..] == b;
  }

  /** Length of the leading run of non-space characters. */
  function TokenLen(s: string): (n: nat)
    ensures n <= |s| && NoSpace(s[..n])
    ensures n < |s| ==> IsSpace(s[n])
  {
    if s == [] || IsSpace(s[0]) then 0 else 1 + TokenLen(s[1..])
  }

  /** Python `s.split()`: the maximal runs of non-whitespace characters. */
  function SplitWS(s: string): (r: seq<string>)
    ensures forall k :: 0 <= k < |r| ==> r[k] != "" && NoSpace(r[k])
    decreases |s|
  {
    if s == [] then []
    else if IsSpace(s[0]) then SplitWS(s[1..])
    else
      var n := TokenLen(s);
      [s[..n]] + SplitWS(s[n..])
  }

  lemma {:induction false} SplitWSOfToken(t: string, rest: string)
    requires t != "" && NoSpace(t)
    requires rest == [] || IsSpace(rest[0])
    ensures SplitWS(t + rest) == [t] + SplitWS(rest)
  {
    TokenLenOf(t, rest);
    assert (t + rest)[..|t|] == t;
    assert (t + rest)[|t|..] == rest;
  }

  lemma {:induction false} TokenLenOf(t: string, rest: string)
    requires NoSpace(t)
    requires rest == [] || IsSpace(rest[0])
    ensures TokenLen(t + rest) == |t|
    decreases |t|
  {
    if t != [] {
      assert (t + rest)[1..] == t[1..] + rest;
      TokenLenOf(t[1..], rest);
    } else {
      assert t + rest == rest;
    }
  }

  /** Whitespace-free, non-empty tokens joined by single spaces split back
      into the same tokens. */
  lemma {:induction false} SplitWSJoin(toks: seq<string>)
    requires forall k :: 0 <= k < |toks| ==> toks[k] != "" && NoSpace(toks[k])
    ensures SplitWS(Join(" ", toks)) == toks
  {
    if |toks| == 1 {
      SplitWSOfToken(toks[0], "");
      assert toks[0] + "" == toks[0];
    } else if |toks| > 1 {
      var rest := Join(" ", toks[1..]);
      SplitWSJoin(toks[1..]);
      assert toks[0] + " " + rest == toks[0] + (" " + rest);
      SplitWSOfToken(toks[0], " " + rest);
      assert (" " + rest)[1..] == rest;
    }
  }

  /** A token cannot run on past a following space. */
  lemma {:induction false} TokenLenPrefix(a: string, rest: string)
    requires rest == [] || IsSpace(rest[0])
    ensures TokenLen(a + rest) == TokenLen(a)
    decreases |a|
  {
    if a == [] {
      assert a + rest == rest;
    } else {
      assert (a + rest)[0] == a[0];
      if !IsSpace(a[0]) {
        assert (a + rest)[1..] == a[1..] + rest;
        TokenLenPrefix(a[1..], rest);
      }
    }
  }

  /** Splitting text followed by whitespace-led text splits each part. */
  lemma {:induction false} SplitWSConcat(a: string, rest: string)
    requires rest == [] || IsSpace(rest[0])
    ensures SplitWS(a + rest) == SplitWS(a) + SplitWS(rest)
    decreases |a|
  {
    if a == [] {
      assert a + rest == rest;
    } else if IsSpace(a[0]) {
      assert (a + rest)[0] == a[0];
      assert (a + rest)[1..] == a[1..] + rest;
      SplitWSConcat(a[1..], rest);
    } else {
      assert (a + rest)[0] == a[0];
      var n := TokenLen(a);
      TokenLenPrefix(a, rest);
      assert (a + rest)[..n] == a[..n];
      assert (a + rest)[n..] == a[n..] + rest;
      SplitWSConcat(a[n..], rest);
    }
  }

  /** Python `s.strip()`. */
  function Strip(s: string): (r: string)
    ensures r == "" || (!IsSpace(r[0]) && !IsSpace(r[|r| - 1]))
    ensures |r| <= |s|
  {
    StripRight(StripLeft(s))
  }

  function StripLeft(s: string): (r: string)
    ensures r == "" || !IsSpace(r[0])
    ensures |r| <= |s| && r == s[|s| - |r|..]
  {
    if s != [] && IsSpace(s[0]) then StripLeft(s[1..]) else s
  }

  function StripRight(s: string): (r: string)
    ensures r == "" || !IsSpace(r[|r| - 1])
    ensures r <= s
    ensures r != "" && s != "" ==> r[0] == s[0]
  {
    if s != [] && IsSpace(s[|s| - 1]) then StripRight(s[..|s| - 1]) else s
  }

  // ------------------------------------------------------------- numbers

  function DigitChar(d: nat): (c: char)
    requires d < 10
    ensures '0' <= c <= '9'
  {
    ('0' as int + d) as char
  }

  predicate IsDigits(s: string)
  {
    s != "" && forall i :: 0 <= i < |s| ==> '0' <= s[i] <= '9'
  }

  /** Python `"%d" % n` for a natural number. */
  function NatToString(n: nat): (s: string)
    ensures IsDigits(s)
    decreases n
  {
    if n < 10 then [DigitChar(n)] else NatToString(n / 10) + [DigitChar(n % 10)]
  }

  /** The value of a string of decimal digits. */
  function DigitsValue(s: string): nat
    requires forall i :: 0 <= i < |s| ==> '0' <= s[i] <= '9'
  {
    if s == [] then 0 else 10 * DigitsValue(s[..|s| - 1]) + (s[|s| - 1] as int - '0' as int)
  }

  /** "%d" is read back by its decimal value. */
  lemma {:induction false} NatToStringValue(n: nat)
    ensures DigitsValue(NatToString(n)) == n
    decreases n
  {
    if n >= 10 {
      var s := NatToString(n);
      assert s[..|s| - 1] == NatToString(n / 10);
      NatToStringValue(n / 10);
    }
  }

  lemma NatToStringInjective(m: nat, n: nat)
    requires NatToString(m) == NatToString(n)
    ensures m == n
  {
    NatToStringValue(m);
    NatToStringValue(n);
  }

  /** Python `"%d" % i`. */
  function IntToString(i: int): (s: string)
    ensures s != ""
    ensures i >= 0 ==> s == NatToString(i)
    ensures i < 0 ==> s == "-" + NatToString(-i)
  {
    if i < 0 then "-" + NatToString(-i) else NatToString(i)
  }

  /** Python `int(s)` on a string: surrounding blanks, an optional sign,
      then decimal digits; None is the ValueError. */
  function PyInt(s: string): (r: Option<int>)
  {
    var t := Strip(s);
    var neg := t != "" && t[0] == '-';
    var digits := if t != "" && (t[0] == '-' || t[0] == '+') then t[1..] else t;
    if IsDigits(digits) then
      var v: int := DigitsValue(digits);
      Some(if neg then -v else v)
    else None
  }

  lemma StripPlain(s: string)
    requires s != "" && !IsSpace(s[0]) && !IsSpace(s[|s| - 1])
    ensures Strip(s) == s
  {
  }

  /** `int` reads back what "%d" writes. */
  lemma PyIntOfIntToString(i: int)
    ensures PyInt(IntToString(i)) == Some(i)
  {
    var s := IntToString(i);
    var n: nat := if i < 0 then -i else i;
    var d := NatToString(n);
    NatToStringValue(n);
    assert IsDigits(d);
    if i < 0 {
      assert s == "-" + d;
      assert s[|s| - 1] == d[|d| - 1];
      StripPlain(s);
      assert s[1..] == d;
    } else {
      assert s == d;
      StripPlain(s);
    }
  }

  /** "%d" writes only digits and a leading minus sign. */
  lemma IntToStringChars(i: int)
    ensures forall k :: 0 <= k < |IntToString(i)| ==>
      '0' <= IntToString(i)[k] <= '9' || (k == 0 && IntToString(i)[k] == '-')
  {
    if i < 0 {
      var d := NatToString(-i);
      assert forall k :: 1 <= k < |IntToString(i)| ==> IntToString(i)[k] == d[k - 1];
    }
  }


  /** Python `a // b` (and Python 2 `/` on ints): rounds toward minus
      infinity, unlike Dafny's `/` for a negative divisor. */
  function FloorDiv(a: int, b: int): (q: int)
    requires b != 0
    ensures b > 0 ==> q * b <= a < q * b + b
    ensures b < 0 ==> q * b >= a > q * b + b
  {
    if b > 0 then a / b else (-a) / (-b)
  }

  /** Python `s[i]`, negative indices counting from the end; None is the
      IndexError. */
  function PyIndex<T>(s: seq<T>, i: int): (r: Option<T>)
    ensures r.Some? <==> -|s| <= i < |s|
    ensures 0 <= i < |s| ==> r == Some(s[i])
    ensures -|s| <= i < 0 ==> r == Some(s[|s| + i])
  {
    if 0 <= i < |s| then Some(s[i])
    else if -|s| <= i < 0 then Some(s[|s| + i])
    else None
  }

  /** Python `s[lo:hi]` for non-negative bounds (clipped to the length). */
  function PySlice<T>(s: seq<T>, lo: nat, hi: nat): (r: seq<T>)
    ensures |r| == if lo >= |s| || hi <= lo then 0 else (if hi <= |s| then hi else |s|) - lo
    ensures forall k :: 0 <= k < |r| ==> r[k] == s[lo + k]
  {
    var h := if hi <= |s| then hi else |s|;
    if lo >= h then [] else s[lo..h]
  }

  // --------------------------------------------------------------- paths

  /** Python `os.path.join(a, b)` (POSIX): an absolute `b` replaces `a`,
      otherwise a "/" is inserted unless `a` is empty or already ends in one. */
  function PathJoin(a: string, b: string): (r: string)
    ensures "/" <= b ==> r == b
    ensures !("/" <= b) ==> r == a + b || r == a + "/" + b
  {
    if "/" <= b then b
    else if a == "" || a[|a| - 1] == '/' then a + b
    else a + "/" + b
  }

  /** Python `os.path.join(p0, p1, ...)`. */
  function PathJoinAll(first: string, rest: seq<string>): string
    decreases |rest|
  {
    if rest == [] then first else PathJoinAll(PathJoin(first, rest[0]), rest[1..])
  }

  /** With relative components and no doubled slashes, the join is the
      components separated by "/". */
  lemma {:induction false} PathJoinAllPlain(first: string, rest: seq<string>)
    requires first != "" && first[|first| - 1] != '/'
    requires forall k :: 0 <= k < |rest| ==> rest[k] != "" && rest[k][0] != '/' && rest[k][|rest[k]| - 1] != '/'
    ensures PathJoinAll(first, rest) == Join("/", [first] + rest)
    decreases |rest|
  {
    if rest != [] {
      var j := PathJoin(first, rest[0]);
      assert j == first + "/" + rest[0];
      PathJoinAllPlain(j, rest[1..]);
      JoinFront(first, rest);
    }
  }

  lemma {:induction false} JoinFront(first: string, rest: seq<string>)
    requires rest != []
    ensures Join("/", [first] + rest) == Join("/", [first + "/" + rest[0]] + rest[1..])
  {
    assert ([first] + rest)[1..] == rest;
    if |rest| == 1 {
    } else {
      assert ([first + "/" + rest[0]] + rest[1..])[1..] == rest[1..];
      assert rest == [rest[0]] + rest[1..];
    }
  }

  // ---------------------------------------------------------------- repr

  function EscapeChars(s: string, quote: char): (r: string)
    decreases |s|
  {
    if s == [] then []
    else (if s[0] == '\\' || s[0] == quote then ['\\', s[0]] else [s[0]]) + EscapeChars(s[1..], quote)
  }

  /** Python `repr(s)` (`"%r" % s`) for a string of printable characters:
      single quotes, unless the string holds a single quote and no double
      quote. */
  function PyRepr(s: string): (r: string)
    ensures |r| >= 2
  {
    if '\'' in s && '"' !in s then "\"" + EscapeChars(s, '"') + "\""
    else "'" + EscapeChars(s, '\'') + "'"
  }

  lemma {:induction false} EscapePlain(s: string, quote: char)
    requires '\\' !in s && quote !in s
    ensures EscapeChars(s, quote) == s
    decreases |s|
  {
    if s != [] {
      EscapePlain(s[1..], quote);
    }
  }

  /** A string without quotes or backslashes is shown in single quotes. */
  lemma PyReprPlain(s: string)
    requires '\\' !in s && '\'' !in s && '"' !in s
    ensures PyRepr(s) == "'" + s + "'"
  {
    EscapePlain(s, '\'');
  }
}
