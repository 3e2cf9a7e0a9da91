/**
 * The Python values and built-in string operations the exporter relies on:
 * attribute values, truthiness, `str()`, `int(s, 10)`, `str.rpartition`,
 * `str.partition`, `str.split`, `str.join`, slicing, and `os.path.basename` /
 * `os.path.splitext` on POSIX paths.
 */
module Python {
  import opened Wrappers

  /** A Python value as found in event, path-spec and session attributes. */
  datatype PyValue =
    | PyNone
    | PyStr(s: string)
    | PyInt(i: int)
    | PyBool(b: bool)
    | PyDateTime(stamp: int)              // a datetime made from a timeline timestamp
    | PyNow                               // the reading of datetime.datetime.now()
    | PyList(items: seq<PyValue>)         // list, tuple or set
    | PyDict(entries: seq<(string, PyValue)>)

  /** Python truthiness (`if v:`). */
  predicate Truthy(v: PyValue) {
    match v
    case PyNone => false
    case PyStr(s) => s != ""
    case PyInt(i) => i != 0
    case PyBool(b) => b
    case PyDateTime(_) => true
    case PyNow => true
    case PyList(items) => items != []
    case PyDict(entries) => entries != []
  }

  /** Looks up `name` in an attribute list; the last binding wins, as in a dict built in order. */
  function Lookup(attrs: seq<(string, PyValue)>, name: string): (r: Option<PyValue>)
    ensures r.Some? <==> exists i :: 0 <= i < |attrs| && attrs[i].0 == name
    ensures r.Some? ==> exists i :: 0 <= i < |attrs| && attrs[i] == (name, r.value)
                                    && forall j :: i < j < |attrs| ==> attrs[j].0 != name
  {
    if attrs == [] then None
    else if attrs[|attrs| - 1].0 == name then Some(attrs[|attrs| - 1].1)
    else Lookup(attrs[..|attrs| - 1], name)
  }

  /** `hasattr(obj, name)`. */
  predicate HasAttr(attrs: seq<(string, PyValue)>, name: string) {
    Lookup(attrs, name).Some?
  }

  /** `getattr(obj, name, None)`; also the reading of `obj.name`, whose attribute is taken to be None when unset. */
  function GetAttr(attrs: seq<(string, PyValue)>, name: string): PyValue {
    match Lookup(attrs, name)
    case Some(v) => v
    case None => PyNone
  }

  /** The exceptions the exporter raises or lets escape. */
  datatype PyError =
    | RuntimeError(message: string)
    | KeyError(key: PyValue)
    | ValueError(text: string)
    | TypeError(operation: string)
    | AttributeError(attribute: string)
    | NotImplementedError

  // ----- str() and int() on integers -----

  predicate IsDigit(c: char) { '0' <= c <= '9' }

  function DigitChar(d: nat): (c: char)
    requires d < 10
    ensures IsDigit(c) && c as int - '0' as int == d
  {
    ('0' as int + d) as char
  }

  /** The decimal digits of `n`, without sign or leading zeros. */
  function DecimalString(n: nat): (r: string)
    ensures |r| > 0 && forall i :: 0 <= i < |r| ==> IsDigit(r[i])
  {
    if n < 10 then [DigitChar(n)] else DecimalString(n / 10) + [DigitChar(n % 10)]
  }

  /** `str(i)` for an int. */
  function IntToString(i: int): string {
    if i < 0 then "-" + DecimalString(-i) else DecimalString(i)
  }

  /** The value of a non-empty string of decimal digits. */
  function DigitsValue(s: string): nat
    requires forall i :: 0 <= i < |s| ==> IsDigit(s[i])
  {
    if s == [] then 0
    else
      assert IsDigit(s[|s| - 1]);
      10 * DigitsValue(s[..|s| - 1]) + (s[|s| - 1] as int - '0' as int)
  }

  /**
   * The whitespace C's `isspace` accepts in the "C" locale, which Python 2's
   * `int()` skips around a literal: TAB, LF, VT, FF, CR and the space.
   */
  predicate IsSpace(c: char) {
    c == ' ' || ('\t' <= c <= '\r')
  }

  /** `s.lstrip()`: the longest suffix of `s` that does not start with whitespace. */
  function TrimStart(s: string): (r: string)
    ensures |r| <= |s| && r == s[|s| - |r|..]
    ensures r == [] || !IsSpace(r[0])
    ensures forall k :: 0 <= k < |s| - |r| ==> IsSpace(s[k])
  {
    if s != [] && IsSpace(s[0]) then TrimStart(s[1..]) else s
  }

  /** `s.rstrip()`: the longest prefix of `s` that does not end with whitespace. */
  function TrimEnd(s: string): (r: string)
    ensures |r| <= |s| && r == s[..|r|]
    ensures r == [] || !IsSpace(r[|r| - 1])
    ensures forall k :: |r| <= k < |s| ==> IsSpace(s[k])
  {
    if s != [] && IsSpace(s[|s| - 1]) then TrimEnd(s[..|s| - 1]) else s
  }

  /** `s.strip()`. */
  function Strip(s: string): string {
    TrimEnd(TrimStart(s))
  }

  /** One or more ASCII decimal digits. */
  predicate AllDigits(s: string) {
    s != [] && forall i :: 0 <= i < |s| ==> IsDigit(s[i])
  }

  /**
   * The grammar Python 2's `int(s, 10)` accepts once the surrounding
   * whitespace is skipped: digits, or a sign followed by optional whitespace
   * and digits (`strtol` skips blanks after the sign).
   */
  predicate IntLiteral(t: string) {
    AllDigits(t) || (t != [] && (t[0] == '-' || t[0] == '+') && AllDigits(TrimStart(t[1..])))
  }

  /**
   * `int(s, 10)` on a byte string in Python 2: surrounding whitespace is
   * skipped, then an optional sign, optional whitespace and ASCII decimal
   * digits; anything else raises ValueError (None here).
   */
  function ParseInt(s: string): (r: Option<int>)
    ensures r.Some? <==> IntLiteral(Strip(s))
  {
    var t := Strip(s);
    if t != [] && (t[0] == '-' || t[0] == '+') then
      assert !AllDigits(t) by { assert !IsDigit(t[0]); }
      var d := TrimStart(t[1..]);
      if AllDigits(d) then
        var magnitude: int := DigitsValue(d);
        Some(if t[0] == '-' then -magnitude else magnitude)
      else None
    else if AllDigits(t) then Some(DigitsValue(t))
    else None
  }

  /** A string that does not start with whitespace is its own `lstrip()`. */
  lemma TrimStartNoSpace(s: string)
    requires s == [] || !IsSpace(s[0])
    ensures TrimStart(s) == s
  {
  }

  /** Leading whitespace is dropped by `lstrip()`. */
  lemma TrimStartSpace(s: string)
    requires s != [] && IsSpace(s[0])
    ensures TrimStart(s) == TrimStart(s[1..])
  {
  }

  /** A string that neither starts nor ends with whitespace is its own `strip()`. */
  lemma StripNoSpace(s: string)
    requires s == [] || (!IsSpace(s[0]) && !IsSpace(s[|s| - 1]))
    ensures Strip(s) == s
  {
    assert TrimStart(s) == s;
  }

  /**
   * A stripped text of digits, or of a minus sign, whitespace and digits,
   * parses to the value of the digits, negated after the sign.
   */
  lemma ParseIntDigits(s: string, negative: bool, d: string)
    requires AllDigits(d)
    requires var t := Strip(s);
             if negative then t != [] && t[0] == '-' && TrimStart(t[1..]) == d else t == d
    ensures ParseInt(s) == Some(if negative then -(DigitsValue(d) as int) else DigitsValue(d))
  {
    hide DigitsValue, TrimStart, TrimEnd, Strip;
    var t := Strip(s);
    if !negative {
      assert !(t[0] == '-' || t[0] == '+');
    }
  }

  /** Digits with or without a leading minus sign, and no whitespace, parse to their value. */
  lemma ParseIntSigned(negative: bool, d: string)
    requires AllDigits(d)
    ensures ParseInt(if negative then "-" + d else d) == Some(if negative then -(DigitsValue(d) as int) else DigitsValue(d))
  {
    hide ParseInt, Strip, DigitsValue, TrimStart, TrimEnd;
    var s := if negative then "-" + d else d;
    assert IsDigit(s[|s| - 1]);
    StripNoSpace(s);
    if negative {
      assert s[1..] == d;
      TrimStartNoSpace(d);
    }
    ParseIntDigits(s, negative, d);
  }

  /** A stripped text that is not an integer literal is refused. */
  lemma ParseIntNotLiteral(s: string, t: string)
    requires Strip(s) == t && !IntLiteral(t)
    ensures ParseInt(s) == None
  {
  }

  /** Leading whitespace is dropped by `strip()`. */
  lemma StripLeadingSpace(s: string)
    requires s != [] && IsSpace(s[0])
    ensures Strip(s) == Strip(s[1..])
  {
  }

  /** Trailing whitespace after a non-blank start is dropped by `strip()`. */
  lemma StripTrailingSpace(s: string)
    requires s != [] && !IsSpace(s[0]) && IsSpace(s[|s| - 1])
    ensures Strip(s) == Strip(s[..|s| - 1])
  {
    assert TrimStart(s) == s;
    assert TrimStart(s[..|s| - 1]) == s[..|s| - 1];
  }

  /** `strip()` drops the blanks around a literal, not those after its sign. */
  lemma StripExamples()
    ensures Strip(" 1") == "1"
    ensures Strip("- 7\n") == "- 7"
  {
    hide Strip, TrimStart, TrimEnd;
    StripLeadingSpace(" 1");
    assert " 1"[1..] == "1";
    StripNoSpace("1");
    StripTrailingSpace("- 7\n");
    assert "- 7\n"[..3] == "- 7";
    StripNoSpace("- 7");
  }

  /** Whitespace around the literal, and between the sign and the digits, is accepted. */
  lemma ParseIntAccepts()
    ensures ParseInt(" 1") == Some(1)
    ensures ParseInt("- 7\n") == Some(-7)
  {
    assert DigitsValue("1") == 1 by { assert "1"[..0] == []; }
    assert DigitsValue("7") == 7 by { assert "7"[..0] == []; }
    hide ParseInt, Strip, TrimStart, TrimEnd, DigitsValue;
    StripExamples();
    assert TrimStart("- 7"[1..]) == "7" by {
      assert "- 7"[1..] == " 7" && " 7"[1..] == "7";
      TrimStartSpace(" 7");
      TrimStartNoSpace("7");
    }
    ParseIntDigits(" 1", false, "1");
    ParseIntDigits("- 7\n", true, "7");
  }

  /** A letter, or nothing at all, is refused. */
  lemma ParseIntRefuses()
    ensures ParseInt("x") == None
    ensures ParseInt("") == None
  {
    hide ParseInt, Strip, TrimStart, TrimEnd;
    StripNoSpace("x");
    assert !IsDigit("x"[0]);
    ParseIntNotLiteral("x", "x");
    StripNoSpace("");
    ParseIntNotLiteral("", "");
  }

  /** Underscores between digits, which Python 2 does not know, are refused. */
  lemma ParseIntRefusesUnderscore()
    ensures ParseInt("1_0") == None
    ensures ParseInt("1_") == None
  {
    hide ParseInt, Strip, TrimStart, TrimEnd;
    StripNoSpace("1_0");
    assert !IsDigit("1_0"[1]);
    ParseIntNotLiteral("1_0", "1_0");
    StripNoSpace("1_");
    assert !IsDigit("1_"[1]);
    ParseIntNotLiteral("1_", "1_");
  }

  /** Reading back the digits of a number gives the number. */
  lemma {:induction false} DecimalStringValue(n: nat)
    ensures DigitsValue(DecimalString(n)) == n
  {
    if n >= 10 {
      var s := DecimalString(n);
      DecimalStringValue(n / 10);
      assert s[..|s| - 1] == DecimalString(n / 10);
    }
  }

  /** `int(str(i), 10) == i`: the text that `str` gives an int parses back to it. */
  lemma ParseIntRoundTrip(i: int)
    ensures ParseInt(IntToString(i)) == Some(i)
  {
    hide ParseInt, DigitsValue, Strip, TrimStart, TrimEnd;
    if i < 0 {
      var d := DecimalString(-i);
      assert IntToString(i) == "-" + d;
      ParseIntSigned(true, d);
      DecimalStringValue(-i);
    } else {
      var d := DecimalString(i);
      assert IntToString(i) == d;
      ParseIntSigned(false, d);
      DecimalStringValue(i);
    }
  }

  // ----- str() on other values -----

  /** `repr(v)` as used inside container displays: strings are quoted, the rest print as `str`. */
  function Repr(v: PyValue): string
    decreases v, 1
  {
    if v.PyStr? then "'" + v.s + "'" else ToStr(v)
  }

  /** `str(v)`. Datetimes print as their raw stamp, since their calendar rendering is not modelled. */
  function ToStr(v: PyValue): string
    decreases v, 0
  {
    match v
    case PyNone => "None"
    case PyStr(s) => s
    case PyInt(i) => IntToString(i)
    case PyBool(b) => if b then "True" else "False"
    case PyDateTime(t) => IntToString(t)
    case PyNow => "now"
    case PyList(items) =>
      "[" + Join(seq(|items|, k requires 0 <= k < |items| => Repr(items[k])), ", ") + "]"
    case PyDict(entries) =>
      "{" + Join(seq(|entries|, k requires 0 <= k < |entries| =>
                       "'" + entries[k].0 + "': " + Repr(entries[k].1)), ", ") + "}"
  }

  // ----- searching -----

  /** `s.rfind(c)`: the last index of `c`, or -1. */
  function RFind(s: string, c: char): (r: int)
    ensures -1 <= r < |s|
    ensures r >= 0 ==> s[r] == c
    ensures forall k :: r < k < |s| ==> s[k] != c
  {
    if s == [] then -1
    else if s[|s| - 1] == c then |s| - 1
    else RFind(s[..|s| - 1], c)
  }

  /** `s.find(c)`: the first index of `c`, or -1. */
  function Find(s: string, c: char): (r: int)
    ensures -1 <= r < |s|
    ensures r >= 0 ==> s[r] == c
    ensures forall k :: 0 <= k < (if r < 0 then |s| else r) ==> s[k] != c
  {
    if s == [] then -1
    else if s[0] == c then 0
    else var r := Find(s[1..], c); if r < 0 then -1 else r + 1
  }

  /** True when `sep` occurs in `s` at index `i`. */
  predicate OccursAt(s: string, sep: string, i: int) {
    0 <= i && i + |sep| <= |s| && s[i..i + |sep|] == sep
  }

  /** `s.find(sep)` for a non-empty separator string. */
  function FindSub(s: string, sep: string): (r: int)
    requires sep != []
    ensures -1 <= r <= |s|
    ensures r >= 0 ==> OccursAt(s, sep, r)
    ensures forall k :: 0 <= k && (r < 0 || k < r) ==> !OccursAt(s, sep, k)
  {
    if |s| < |sep| then
      assert forall k :: 0 <= k ==> !OccursAt(s, sep, k);
      -1
    else if s[..|sep|] == sep then 0
    else
      var r := FindSub(s[1..], sep);
      assert forall k :: 1 <= k ==> (OccursAt(s, sep, k) <==> OccursAt(s[1..], sep, k - 1));
      if r < 0 then -1 else r + 1
  }

  // ----- partition, split and join -----

  /** `s.rpartition(c)`: the text before the last `c`, the separator, and the text after it. */
  function RPartition(s: string, c: char): (string, string, string) {
    var i := RFind(s, c);
    if i < 0 then ("", "", s) else (s[..i], [c], s[i + 1..])
  }

  /** `s.partition(c)`: the text before the first `c`, the separator, and the text after it. */
  function Partition(s: string, c: char): (string, string, string) {
    var i := Find(s, c);
    if i < 0 then (s, "", "") else (s[..i], [c], s[i + 1..])
  }

  /** `rpartition` splits at the LAST separator: the pieces put back together give `s`, and the tail has no separator. */
  lemma RPartitionSpec(s: string, c: char)
    ensures var (head, sep, tail) := RPartition(s, c);
            head + sep + tail == s && c !in tail && (sep == "" <==> c !in s) && (sep == "" ==> head == "")
  {
    var i := RFind(s, c);
    if i >= 0 {
      assert s[..i] + [c] + s[i + 1..] == s;
    }
  }

  /** `partition` splits at the FIRST separator: the pieces give back `s`, and the head has no separator. */
  lemma PartitionSpec(s: string, c: char)
    ensures var (head, sep, tail) := Partition(s, c);
            head + sep + tail == s && c !in head && (sep == "" <==> c !in s) && (sep == "" ==> tail == "")
  {
    var i := Find(s, c);
    if i >= 0 {
      assert s[..i] + [c] + s[i + 1..] == s;
    }
  }

  /** When the tail has no separator, `rpartition` splits exactly at the separator before it. */
  lemma RPartitionAt(head: string, c: char, tail: string)
    requires c !in tail
    ensures RPartition(head + [c] + tail, c) == (head, [c], tail)
  {
    var s := head + [c] + tail;
    var i := RFind(s, c);
    assert s[|head|] == c;
    assert forall k :: |head| < k < |s| ==> s[k] == tail[k - |head| - 1];
    assert i == |head|;
    assert s[..i] == head && s[i + 1..] == tail;
  }

  /** When the head has no separator, `partition` splits exactly at the separator after it. */
  lemma PartitionAt(head: string, c: char, tail: string)
    requires c !in head
    ensures Partition(head + [c] + tail, c) == (head, [c], tail)
  {
    var s := head + [c] + tail;
    var i := Find(s, c);
    assert s[|head|] == c;
    assert forall k :: 0 <= k < |head| ==> s[k] == head[k];
    assert i == |head|;
    assert s[..i] == head && s[i + 1..] == tail;
  }

  /** `sep.join(pieces)`. */
  function Join(pieces: seq<string>, sep: string): string {
    if pieces == [] then ""
    else if |pieces| == 1 then pieces[0]
    else pieces[0] + sep + Join(pieces[1..], sep)
  }

  /** `s.split(sep)` for a non-empty separator string. */
  function Split(s: string, sep: string): (r: seq<string>)
    requires sep != []
    ensures |r| >= 1
    decreases |s|
  {
    var i := FindSub(s, sep);
    if i < 0 then [s] else [s[..i]] + Split(s[i + |sep|..], sep)
  }

  /** Joining the pieces of a split with the same separator gives back the original string. */
  lemma {:induction false} SplitJoin(s: string, sep: string)
    requires sep != []
    ensures Join(Split(s, sep), sep) == s
    decreases |s|
  {
    var i := FindSub(s, sep);
    if i >= 0 {
      var rest := s[i + |sep|..];
      var tail := Split(rest, sep);
      SplitJoin(rest, sep);
      var pieces := [s[..i]] + tail;
      assert Split(s, sep) == pieces;
      assert |pieces| >= 2 && pieces[1..] == tail;
      assert Join(pieces, sep) == s[..i] + sep + Join(tail, sep);
      assert s == s[..i] + sep + rest;
    }
  }

  /** No piece of a split contains the separator. */
  lemma {:induction false} SplitPiecesFree(s: string, sep: string)
    requires sep != []
    ensures forall p, k :: p in Split(s, sep) ==> !OccursAt(p, sep, k)
    decreases |s|
  {
    var i := FindSub(s, sep);
    if i < 0 {
      assert Split(s, sep) == [s];
    } else {
      var rest := s[i + |sep|..];
      SplitPiecesFree(rest, sep);
      forall k | OccursAt(s[..i], sep, k)
        ensures false
      {
        assert s[..i][k..k + |sep|] == s[k..k + |sep|];
        assert OccursAt(s, sep, k);
      }
    }
  }

  /** `s[1:-1]`: the string without its first and last characters (empty when shorter than two). */
  function StripEnds(s: string): (r: string)
    ensures |s| >= 2 ==> [s[0]] + r + [s[|s| - 1]] == s
    ensures |s| < 2 ==> r == ""
  {
    if |s| < 2 then "" else s[1..|s| - 1]
  }

  // ----- os.path on POSIX paths -----

  /** `os.path.basename(p)`: the text after the last '/'. */
  function Basename(p: string): (r: string)
    ensures '/' !in r
    ensures exists k :: 0 <= k <= |p| && r == p[k..] && (k == 0 || p[k - 1] == '/')
  {
    var i := RFind(p, '/');
    var r := p[i + 1..];
    assert r == p[i + 1..] && (i + 1 == 0 || p[i] == '/');
    assert forall k :: 0 <= k < |r| ==> r[k] == p[i + 1 + k];
    r
  }

  /** True when every character of `p[lo..hi]` is a dot. */
  predicate AllDots(p: string, lo: int, hi: int)
    requires 0 <= lo <= hi <= |p|
  {
    forall k :: lo <= k < hi ==> p[k] == '.'
  }

  /**
   * `os.path.splitext(p)`: split at the last '.' of the last path component, unless
   * everything before that dot in the component is dots (".bashrc" has no extension).
   */
  function SplitExt(p: string): (string, string) {
    var sepIndex := RFind(p, '/');
    var dotIndex := RFind(p, '.');
    if dotIndex > sepIndex && !AllDots(p, sepIndex + 1, dotIndex) then (p[..dotIndex], p[dotIndex..])
    else (p, "")
  }

  /**
   * The two parts of `splitext` put together give the path back; the extension is
   * empty or a dot followed by no further dot or '/'; and a non-empty extension is
   * preceded in its component by something other than dots.
   */
  lemma SplitExtSpec(p: string)
    ensures var (root, ext) := SplitExt(p);
            root + ext == p
            && (ext == "" || (ext[0] == '.' && '.' !in ext[1..] && '/' !in ext))
            && (ext != "" ==> exists k :: 0 <= k < |root| && root[k] != '.' && '/' !in root[k..])
  {
    var sepIndex := RFind(p, '/');
    var dotIndex := RFind(p, '.');
    if dotIndex > sepIndex && !AllDots(p, sepIndex + 1, dotIndex) {
      var root, ext := p[..dotIndex], p[dotIndex..];
      assert root + ext == p;
      forall k | 0 <= k < |ext| - 1 ensures ext[1..][k] != '.' && ext[1..][k] != '/' {
        assert ext[1..][k] == p[dotIndex + 1 + k];
      }
      forall k | 0 <= k < |ext| ensures ext[k] != '/' {
        assert ext[k] == p[dotIndex + k];
      }
      var j :| sepIndex + 1 <= j < dotIndex && p[j] != '.';
      forall k | 0 <= k < |root[j..]| ensures root[j..][k] != '/' {
        assert root[j..][k] == p[j + k];
      }
      assert root[j] != '.' && '/' !in root[j..];
    }
  }
}
