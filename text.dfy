/** String handling the modelled code relies on: decimal formatting (`str(n)`,
    the `{n:05}` format), `str.find`, `str.strip`, `str.split`, `int(s)` of a
    string, and the path rewriting of `Path(p).expanduser()` and `str(Path(p))`. */
module Text {
  import opened Py

  predicate IsDigit(c: char) { '0' <= c <= '9' }

  predicate AllDigits(s: string) { forall i :: 0 <= i < |s| ==> IsDigit(s[i]) }

  function DigitChar(d: nat): (c: char)
    requires d < 10
    ensures IsDigit(c) && c as int - '0' as int == d
  {
    (('0' as int) + d) as char
  }

  /** The number a string of decimal digits denotes (leading zeros allowed). */
  function DigitsValue(s: string): nat
    requires AllDigits(s)
  {
    if s == [] then 0
    else DigitsValue(s[..|s| - 1]) * 10 + (s[|s| - 1] as int - '0' as int)
  }

  /** `str(n)` for a non-negative integer: no leading zeros, "0" for zero. */
  function NatToString(n: nat): (s: string)
    ensures AllDigits(s) && |s| >= 1
    ensures |s| > 1 ==> s[0] != '0'
  {
    if n < 10 then [DigitChar(n)] else NatToString(n / 10) + [DigitChar(n % 10)]
  }

  /** `str(i)` for any integer. */
  function IntToString(i: int): (s: string)
    ensures |s| >= 1
  {
    if i < 0 then "-" + NatToString(-i) else NatToString(i)
  }

  function Zeros(k: nat): (s: string)
    ensures |s| == k && forall i :: 0 <= i < k ==> s[i] == '0'
  {
    if k == 0 then "" else "0" + Zeros(k - 1)
  }

  /** The format `{n:05}` of a non-negative integer: at least five digits, zero padded on the left. */
  function Pad5(n: nat): (s: string)
  {
    ZeroPad(NatToString(n))
  }

  /** `d` with zeros prepended until it is five long. */
  function ZeroPad(d: string): string
    decreases 5 - |d|
  {
    if |d| >= 5 then d else ZeroPad("0" + d)
  }

  /** The padding is a run of zeros. */
  lemma {:induction false} ZeroPadIsZeros(d: string)
    ensures ZeroPad(d) == if |d| >= 5 then d else Zeros(5 - |d|) + d
    decreases 5 - |d|
  {
    if |d| < 5 {
      ZeroPadIsZeros("0" + d);
      if |d| < 4 {
        assert Zeros(5 - |d|) == "0" + Zeros(4 - |d|);
        assert Zeros(4 - |d|) + ("0" + d) == Zeros(5 - |d|) + d;
      } else {
        assert Zeros(1) == "0";
      }
    }
  }

  lemma {:induction false} NatToStringValue(n: nat)
    ensures DigitsValue(NatToString(n)) == n
  {
    if n >= 10 {
      var s := NatToString(n);
      assert s[..|s| - 1] == NatToString(n / 10);
      NatToStringValue(n / 10);
    }
  }

  lemma {:induction false} LeadingZerosValue(k: nat, s: string)
    requires AllDigits(s)
    ensures AllDigits(Zeros(k) + s) && DigitsValue(Zeros(k) + s) == DigitsValue(s)
  {
    if s == [] {
      assert Zeros(k) + s == Zeros(k);
      ZerosValue(k);
    } else {
      var t := Zeros(k) + s;
      assert t[..|t| - 1] == Zeros(k) + s[..|s| - 1];
      LeadingZerosValue(k, s[..|s| - 1]);
    }
  }

  lemma {:induction false} ZerosValue(k: nat)
    ensures AllDigits(Zeros(k)) && DigitsValue(Zeros(k)) == 0
  {
    if k > 0 {
      var z := Zeros(k);
      assert z[..|z| - 1] == Zeros(k - 1);
      ZerosValue(k - 1);
    }
  }

  /** The characters `str(i)` is made of. */
  lemma IntToStringChars(i: int)
    ensures forall k :: 0 <= k < |IntToString(i)| ==> IsDigit(IntToString(i)[k]) || IntToString(i)[k] == '-'
  {
  }

  /** `{n:05}` is all digits, exactly five long below 100000, and reads back as `n`;
      so distinct counters give distinct file names. */
  lemma Pad5Properties(n: nat)
    ensures AllDigits(Pad5(n)) && DigitsValue(Pad5(n)) == n
    ensures |Pad5(n)| >= 5
    ensures n < 100000 ==> |Pad5(n)| == 5
  {
    var d := NatToString(n);
    NatToStringValue(n);
    ZeroPadIsZeros(d);
    if |d| < 5 {
      LeadingZerosValue(5 - |d|, d);
    }
    if n < 100000 {
      NatToStringShort(n);
    }
  }

  lemma {:induction false} NatToStringShort(n: nat)
    requires n < 100000
    ensures |NatToString(n)| <= 5
  {
    if n >= 10 { NatToStringShort(n / 10); LengthBound(n / 10); }
  }

  lemma {:induction false} LengthBound(n: nat)
    ensures n < 10000 ==> |NatToString(n)| <= 4
    ensures n < 1000 ==> |NatToString(n)| <= 3
    ensures n < 100 ==> |NatToString(n)| <= 2
  {
    if n >= 10 { LengthBound(n / 10); }
  }

  lemma Pad5Injective(m: nat, n: nat)
    requires Pad5(m) == Pad5(n)
    ensures m == n
  {
    Pad5Properties(m);
    Pad5Properties(n);
  }

  /** `sub` occurs in `s` at index `i`. */
  predicate OccursAt(s: string, sub: string, i: int) {
    0 <= i && i + |sub| <= |s| && s[i..i + |sub|] == sub
  }

  /** The scan of `s.find(sub)` from index `from` on. */
  function FindFrom(s: string, sub: string, from: nat): (r: int)
    ensures r == -1 || (from <= r && OccursAt(s, sub, r))
    ensures r >= 0 ==> forall i :: from <= i < r ==> !OccursAt(s, sub, i)
    ensures r == -1 ==> forall i :: from <= i ==> !OccursAt(s, sub, i)
    decreases |s| - from
  {
    if from + |sub| > |s| then -1
    else if s[from..from + |sub|] == sub then from
    else FindFrom(s, sub, from + 1)
  }

  /** `s.find(sub)`: the least index where `sub` occurs in `s`, or -1. */
  function Find(s: string, sub: string): (r: int)
    ensures r >= 0 ==> OccursAt(s, sub, r) && forall i :: 0 <= i < r ==> !OccursAt(s, sub, i)
    ensures r < 0 ==> r == -1 && forall i :: !OccursAt(s, sub, i)
  {
    FindFrom(s, sub, 0)
  }

  /** Whitespace as `str.strip()` and `int()` remove it: the characters for
      which Python's `str.isspace()` holds. */
  predicate IsSpace(c: char) {
    ('\t' <= c <= '\r') || ('\U{1C}' <= c <= ' ') || c == '\U{85}' || c == '\U{A0}' || c == '\U{1680}'
    || ('\U{2000}' <= c <= '\U{200A}') || c == '\U{2028}' || c == '\U{2029}' || c == '\U{202F}'
    || c == '\U{205F}' || c == '\U{3000}'
  }

  /** Every character of `s` is whitespace. */
  predicate AllSpace(s: string) {
    s == [] || (IsSpace(s[0]) && AllSpace(s[1..]))
  }

  /** Whitespace followed by whitespace is whitespace. */
  lemma {:induction false} AllSpaceAppend(a: string, b: string)
    requires AllSpace(a) && AllSpace(b)
    ensures AllSpace(a + b)
  {
    if a != [] {
      assert (a + b)[1..] == a[1..] + b;
      AllSpaceAppend(a[1..], b);
    } else {
      assert a + b == b;
    }
  }

  /** `s.lstrip()`: `s` without the whitespace it starts with. */
  function StripLeft(s: string): (r: string)
    ensures |r| <= |s| && r == s[|s| - |r|..]
    ensures AllSpace(s[..|s| - |r|])
    ensures r == [] || !IsSpace(r[0])
  {
    if s != [] && IsSpace(s[0]) then
      var r := StripLeft(s[1..]);
      assert s[..|s| - |r|][1..] == s[1..][..|s| - 1 - |r|];
      r
    else
      s
  }

  /** `s.rstrip()`: `s` without the whitespace it ends with. */
  function StripRight(s: string): (r: string)
    ensures |r| <= |s| && r == s[..|r|]
    ensures AllSpace(s[|r|..])
    ensures r == [] || !IsSpace(r[|r| - 1])
  {
    if s != [] && IsSpace(s[|s| - 1]) then
      var r := StripRight(s[..|s| - 1]);
      var c := [s[|s| - 1]];
      assert AllSpace(c) by { assert c[1..] == []; }
      AllSpaceAppend(s[..|s| - 1][|r|..], c);
      assert s[|r|..] == s[..|s| - 1][|r|..] + c;
      r
    else
      s
  }

  /** `r` is the part of `s` starting at `i` with only whitespace around it. */
  predicate StripsAt(s: string, r: string, i: int) {
    && 0 <= i <= |s| - |r| && r == s[i..i + |r|]
    && AllSpace(s[..i]) && AllSpace(s[i + |r|..])
  }

  /** `s.strip()`: the part of `s` left once the whitespace at both ends is
      removed, so that it neither starts nor ends with whitespace. */
  function Strip(s: string): (r: string)
    ensures r == [] || (!IsSpace(r[0]) && !IsSpace(r[|r| - 1]))
  {
    StripRight(StripLeft(s))
  }

  /** The strip of `s` is a slice of `s` with only whitespace around it. */
  lemma StripIsSlice(s: string)
    ensures exists i :: StripsAt(s, Strip(s), i)
  {
    var t := StripLeft(s);
    assert Strip(s) == StripRight(t);
    StripsAtAfterLeft(s, t, Strip(s), |s| - |t|);
  }

  /** Whitespace removed from the left of `s` and then from the right of
      what is left leaves a slice of `s` with only whitespace around it. */
  lemma {:induction false} StripsAtAfterLeft(s: string, t: string, r: string, i: int)
    requires 0 <= i <= |s| && t == s[i..] && AllSpace(s[..i])
    requires |r| <= |t| && r == t[..|r|] && AllSpace(t[|r|..])
    ensures StripsAt(s, r, i)
  {
    assert t[..|r|] == s[i..i + |r|];
    assert t[|r|..] == s[i + |r|..];
  }

  /** A string with no surrounding whitespace is its own strip. */
  lemma StripUnchanged(s: string)
    requires s == [] || (!IsSpace(s[0]) && !IsSpace(s[|s| - 1]))
    ensures Strip(s) == s
  {
  }

  /** Python's `s.split(sep)` for a one-character separator. */
  function Split(s: string, sep: char): (r: seq<string>)
    ensures |r| >= 1
    ensures forall k :: 0 <= k < |r| ==> sep !in r[k]
    decreases |s|
  {
    var i := Find(s, [sep]);
    if i < 0 then
      CharAbsentBefore(s, sep, |s|);
      assert s[..|s|] == s;
      [s]
    else
      CharAbsentBefore(s, sep, i);
      [s[..i]] + Split(s[i + 1..], sep)
  }

  /** No one-character occurrence of `sep` before `i` means no `sep` in `s[..i]`. */
  lemma CharAbsentBefore(s: string, sep: char, i: nat)
    requires i <= |s| && forall j :: 0 <= j < i ==> !OccursAt(s, [sep], j)
    ensures sep !in s[..i]
  {
    if sep in s[..i] {
      var j :| 0 <= j < i && s[..i][j] == sep;
      assert s[j..j + 1] == [sep];
      assert OccursAt(s, [sep], j);
    }
  }

  /** Joining the pieces with the separator, `sep.join(pieces)`. */
  function Join(pieces: seq<string>, sep: char): string
    requires |pieces| >= 1
  {
    if |pieces| == 1 then pieces[0] else pieces[0] + [sep] + Join(pieces[1..], sep)
  }

  /** `sep.join(s.split(sep)) == s`. */
  lemma {:induction false} SplitJoin(s: string, sep: char)
    ensures Join(Split(s, sep), sep) == s
    decreases |s|
  {
    var i := Find(s, [sep]);
    if i >= 0 {
      var rest := Split(s[i + 1..], sep);
      assert Split(s, sep) == [s[..i]] + rest;
      SplitJoin(s[i + 1..], sep);
      assert ([s[..i]] + rest)[1..] == rest;
      assert s[i..i + 1] == [sep];
      assert s == s[..i] + [sep] + s[i + 1..];
    } else {
      assert Split(s, sep) == [s];
    }
  }

  /** A header that holds no separator splits off as the first piece:
      `(head + "\n" + body).split("\n") == [head] + body.split("\n")`. */
  lemma SplitAfterHeader(head: string, sep: char, body: string)
    requires sep !in head
    ensures Split(head + [sep] + body, sep) == [head] + Split(body, sep)
  {
    var s := head + [sep] + body;
    var i := Find(s, [sep]);
    assert s[|head|..|head| + 1] == [sep];
    assert OccursAt(s, [sep], |head|);
    forall k | 0 <= k < |head| ensures !OccursAt(s, [sep], k) {
      assert s[k] == head[k];
      assert s[k..k + 1][0] == s[k];
    }
    assert i == |head|;
    assert s[..i] == head;
    assert s[i + 1..] == body;
  }

  /** The digits of an `int()` literal with Python's optional single underscores
      between digits (`"1_000"`). */
  predicate IsDigitGroup(t: string) {
    |t| >= 1 && IsDigit(t[0]) && IsDigit(t[|t| - 1]) && DigitsOrUnderscores(t)
    && forall i :: 0 <= i < |t| ==> UnderscoreFollowedByDigit(t, i)
  }

  /** An underscore at `i` is followed by a digit. */
  predicate UnderscoreFollowedByDigit(t: string, i: nat)
    requires i < |t|
  {
    t[i] == '_' ==> i + 1 < |t| && IsDigit(t[i + 1])
  }

  predicate DigitsOrUnderscores(t: string) {
    forall i :: 0 <= i < |t| ==> IsDigit(t[i]) || t[i] == '_'
  }

  /** The digits of a string with its underscores removed. */
  function DropUnderscores(t: string): (r: string)
    ensures DigitsOrUnderscores(t) ==> AllDigits(r)
  {
    if t == [] then []
    else if t[0] == '_' then DropUnderscores(t[1..])
    else [t[0]] + DropUnderscores(t[1..])
  }

  /** `int(s)` for a string: `Some(value)` when Python accepts the literal,
      `None` where it raises `ValueError`. Surrounding whitespace is ignored. */
  function ParseInt(s: string): (r: Option<int>)
  {
    ParseLiteral(Strip(s))
  }

  /** An optional sign followed by a digit group. */
  function ParseLiteral(t: string): (r: Option<int>)
  {
    var neg := |t| >= 1 && t[0] == '-';
    var body := if |t| >= 1 && (t[0] == '-' || t[0] == '+') then t[1..] else t;
    if IsDigitGroup(body) then
      var v: int := GroupValue(body);
      Some(if neg then -v else v)
    else None
  }

  /** The value of a digit group, underscores ignored. */
  function GroupValue(body: string): nat
    requires IsDigitGroup(body)
  {
    DigitsValue(DropUnderscores(body))
  }

  lemma {:induction false} DropUnderscoresOfDigits(t: string)
    requires AllDigits(t)
    ensures DropUnderscores(t) == t
  {
    if t != [] { DropUnderscoresOfDigits(t[1..]); }
  }

  /** A non-empty run of digits is an `int()` literal denoting its digits' value. */
  lemma DigitsAreLiteral(d: string)
    requires AllDigits(d) && |d| >= 1
    ensures IsDigitGroup(d) && GroupValue(d) == DigitsValue(d)
  {
    DropUnderscoresOfDigits(d);
  }

  lemma ParsePositive(d: string)
    requires AllDigits(d) && |d| >= 1
    ensures ParseInt(d) == Some(DigitsValue(d))
  {
    assert !IsSpace(d[0]) && !IsSpace(d[|d| - 1]);
    StripUnchanged(d);
    ParsePositiveLiteral(d);
  }

  lemma ParsePositiveLiteral(d: string)
    requires AllDigits(d) && |d| >= 1
    ensures ParseLiteral(d) == Some(DigitsValue(d))
  {
    DigitsAreLiteral(d);
    assert !(d[0] == '-' || d[0] == '+');
  }

  lemma ParseNegative(d: string)
    requires AllDigits(d) && |d| >= 1
    ensures ParseInt("-" + d) == Some(-(DigitsValue(d) as int))
  {
    var s := "-" + d;
    assert !IsSpace(s[0]) && !IsSpace(s[|s| - 1]);
    StripUnchanged(s);
    ParseNegativeLiteral(d, s);
  }

  lemma ParseNegativeLiteral(d: string, t: string)
    requires AllDigits(d) && |d| >= 1
    requires t == "-" + d
    ensures ParseLiteral(t) == Some(-(DigitsValue(d) as int))
  {
    DigitsAreLiteral(d);
    assert t[1..] == d;
    assert t[0] == '-';
  }

  /** `int(str(i)) == i`: every integer's decimal text is accepted and reads back. */
  lemma IntToStringParses(i: int)
    ensures ParseInt(IntToString(i)) == Some(i)
  {
    if i < 0 {
      NegativeTextParses(-i);
    } else {
      NatToStringValue(i);
      assert Some(DigitsValue(NatToString(i)) as int) == Some(i);
      ParsePositive(NatToString(i));
    }
  }

  lemma NegativeTextParses(n: nat)
    requires n > 0
    ensures ParseInt(IntToString(-(n as int))) == Some(-(n as int))
  {
    var d := NatToString(n);
    assert IntToString(-(n as int)) == "-" + d;
    NatToStringValue(n);
    assert Some(-(DigitsValue(d) as int)) == Some(-(n as int));
    ParseNegative(d);
  }

  /** A string with a character no integer literal may contain is rejected by `int()`. */
  lemma ParseIntRejects(s: string, j: nat)
    requires j < |Strip(s)|
    requires var c := Strip(s)[j]; !IsDigit(c) && c != '_' && c != '-' && c != '+'
    ensures ParseInt(s) == None
  {
    var t := Strip(s);
    LiteralRejects(t, j);
    assert ParseInt(s) == ParseLiteral(t);
  }

  /** A literal with a character no integer literal may contain is refused. */
  lemma LiteralRejects(t: string, j: nat)
    requires j < |t|
    requires var c := t[j]; !IsDigit(c) && c != '_' && c != '-' && c != '+'
    ensures ParseLiteral(t) == None
  {
    var signed := |t| >= 1 && (t[0] == '-' || t[0] == '+');
    var body := if signed then t[1..] else t;
    var i := if signed then j - 1 else j;
    assert 0 <= i < |body| && body[i] == t[j];
    assert !DigitsOrUnderscores(body);
  }

  predicate StartsWith(s: string, prefix: string) {
    |prefix| <= |s| && s[..|prefix|] == prefix
  }

  predicate EndsWith(s: string, suffix: string) {
    |suffix| <= |s| && s[|s| - |suffix|..] == suffix
  }

  /** `s` without its trailing run of `c`. */
  function TrimTrailing(s: string, c: char): (r: string)
    ensures |r| <= |s| && s[..|r|] == r
    ensures r == [] || r[|r| - 1] != c
    ensures forall i :: |r| <= i < |s| ==> s[i] == c
  {
    if s != [] && s[|s| - 1] == c then TrimTrailing(s[..|s| - 1], c) else s
  }

  /** The home folder as `os.path.expanduser` hands it on: its trailing
      separators removed, and "/" when nothing else is left. */
  function HomeDir(home: string): (r: string)
    ensures r == "/" <==> forall i :: 0 <= i < |home| ==> home[i] == '/'
    ensures r != "/" ==>
              && 0 < |r| <= |home| && home[..|r|] == r && r[|r| - 1] != '/'
              && forall i :: |r| <= i < |home| ==> home[i] == '/'
  {
    var t := TrimTrailing(home, '/');
    if t == [] then "/" else t
  }

  /** The text of a root followed by components, "." when there is neither. */
  function Normal(root: string, parts: seq<string>): string {
    if root == "" && parts == [] then "." else root + JoinAll(parts, '/')
  }

  /** Is the first component of `p` the bare "~" of a relative path? */
  predicate TildeFirst(p: string) {
    Root(p) == "" && Parts(p) != [] && Parts(p)[0] == "~"
  }

  /** `str(Path(p).expanduser())`: `pathlib` parses `p` first, and when the
      path is relative with "~" as its first component, replaces that
      component by the home folder and parses the result again; any other
      path is only normalised. */
  function ExpandUser(p: string, home: string): string {
    if TildeFirst(p) then
      var h := HomeDir(home);
      Normal(Root(h), Parts(h) + Parts(p)[1..])
    else PathText(p)
  }

  /** Components as `pathlib` keeps them: kept pieces without a separator. */
  predicate WellFormed(parts: seq<string>) {
    forall k :: 0 <= k < |parts| ==> IsPart(parts[k]) && '/' !in parts[k]
  }

  lemma WellFormedConcat(a: seq<string>, b: seq<string>)
    requires WellFormed(a) && WellFormed(b)
    ensures WellFormed(a + b)
  {
    forall k | 0 <= k < |a + b| ensures IsPart((a + b)[k]) && '/' !in (a + b)[k] {
      if k >= |a| { assert (a + b)[k] == b[k - |a|]; }
    }
  }

  /** A root and well-formed components read back from their text. */
  lemma NormalReadsBack(root: string, parts: seq<string>)
    requires root == "" || root == "/" || root == "//"
    requires WellFormed(parts)
    ensures Root(Normal(root, parts)) == root && Parts(Normal(root, parts)) == parts
    ensures NoDoubleSlashFrom(Normal(root, parts), 1)
  {
    if root == "" && parts == [] {
      DotAlone();
    } else if parts == [] {
      RootAlone(root);
      assert Normal(root, parts) == root;
    } else {
      NormalFormWithParts(root, parts);
    }
  }

  /** The expanded path, as `pathlib` sees it: after a leading "~" the root
      is the home folder's and the components are the home folder's followed
      by the rest of `p`'s; any other path keeps its root and components. */
  lemma ExpandUserParts(p: string, home: string)
    ensures var r := ExpandUser(p, home);
            && (TildeFirst(p) ==>
                  Root(r) == Root(HomeDir(home)) && Parts(r) == Parts(HomeDir(home)) + Parts(p)[1..])
            && (!TildeFirst(p) ==> Root(r) == Root(p) && Parts(r) == Parts(p))
            && NoDoubleSlashFrom(r, 1)
  {
    if TildeFirst(p) {
      var h := HomeDir(home);
      var hp, rest := Parts(h), Parts(p)[1..];
      PartsShape(h);
      PartsShape(p);
      assert WellFormed(hp);
      assert WellFormed(rest);
      WellFormedConcat(hp, rest);
      NormalReadsBack(Root(h), hp + rest);
      assert ExpandUser(p, home) == Normal(Root(h), hp + rest);
    } else {
      PathTextNormal(p);
      assert ExpandUser(p, home) == PathText(p);
    }
  }

  /** A home folder made only of separators is the root "/", never the "//"
      root: "~/x" under home "/" is "/x". */
  lemma SlashHomeIsRoot(x: string, home: string)
    requires IsPart(x) && '/' !in x
    requires forall i :: 0 <= i < |home| ==> home[i] == '/'
    ensures ExpandUser("~/" + x, home) == "/" + x
  {
    var p := "~/" + x;
    assert p == Normal("", ["~", x]) by {
      assert Join(["~", x], '/') == "~" + ['/'] + x;
    }
    NormalReadsBack("", ["~", x]);
    assert TildeFirst(p);
    RootAlone("/");
    assert Parts(p)[1..] == [x];
    assert Join([x], '/') == x;
  }

  /** A leading "./" does not hide the "~": `pathlib` drops the "." before
      it expands, so "./~/x" expands as "~/x" does. */
  lemma ExpandUserSkipsDot(p: string, home: string)
    requires !StartsWith(p, "/")
    ensures ExpandUser("./" + p, home) == ExpandUser(p, home)
  {
    var q := "./" + p;
    assert q == "." + ['/'] + p;
    SplitAfterHeader(".", '/', p);
    assert (["."] + Split(p, '/'))[1..] == Split(p, '/');
    assert Parts(q) == Parts(p);
    assert Root(q) == "" && Root(p) == "";
  }

  /** No two separators in a row at or after index `from`. */
  predicate NoDoubleSlashFrom(s: string, from: nat) {
    forall i :: from <= i < |s| - 1 ==> !(s[i] == '/' && s[i + 1] == '/')
  }

  /** The root `pathlib` keeps for a POSIX path: exactly two leading
      separators stay "//", one or three and more become "/", and a relative
      path has none. */
  function Root(p: string): (r: string)
    ensures r == "" <==> !StartsWith(p, "/")
    ensures r == "" || r == "/" || r == "//"
  {
    if StartsWith(p, "//") && !StartsWith(p, "///") then "//"
    else if StartsWith(p, "/") then "/"
    else ""
  }

  /** A piece `pathlib` keeps as a component: not empty and not ".". */
  predicate IsPart(piece: string) {
    piece != "" && piece != "."
  }

  /** The pieces kept as components, in order. */
  function Keep(pieces: seq<string>): (r: seq<string>)
    ensures forall k :: 0 <= k < |r| ==> IsPart(r[k])
    ensures (forall k :: 0 <= k < |pieces| ==> IsPart(pieces[k])) ==> r == pieces
  {
    if pieces == [] then []
    else (if IsPart(pieces[0]) then [pieces[0]] else []) + Keep(pieces[1..])
  }

  /** Keeping pieces drops none of their characters into other pieces: a
      separator absent from every piece is absent from every kept one. */
  lemma {:induction false} KeepWithout(pieces: seq<string>, sep: char)
    requires forall k :: 0 <= k < |pieces| ==> sep !in pieces[k]
    ensures forall k :: 0 <= k < |Keep(pieces)| ==> sep !in Keep(pieces)[k]
  {
    if pieces != [] {
      KeepWithout(pieces[1..], sep);
    }
  }

  /** The components of a path: the pieces between separators, with empty
      pieces (from repeated or trailing separators) and "." dropped; ".." is
      kept. */
  function Parts(p: string): seq<string> {
    Keep(Split(p, '/'))
  }

  /** Every component is a kept piece holding no separator. */
  lemma PartsShape(p: string)
    ensures forall k :: 0 <= k < |Parts(p)| ==> IsPart(Parts(p)[k]) && '/' !in Parts(p)[k]
  {
    KeepWithout(Split(p, '/'), '/');
  }

  /** `sep.join(pieces)`, the empty text for no pieces. */
  function JoinAll(pieces: seq<string>, sep: char): string {
    if pieces == [] then "" else Join(pieces, sep)
  }

  /** `str(Path(p))`: the root followed by the components joined by single
      separators, and "." when there is neither. */
  function PathText(p: string): (r: string)
    ensures r != []
  {
    var root, parts := Root(p), Parts(p);
    if root == "" && parts == [] then "." else root + JoinAll(parts, '/')
  }

  /** `str(Path(p))` keeps the root and the components of `p`, has no doubled
      separator after its root, and no trailing separator unless it is only a
      root. */
  lemma PathTextNormal(p: string)
    ensures var r := PathText(p);
            && Root(r) == Root(p) && Parts(r) == Parts(p)
            && NoDoubleSlashFrom(r, 1)
            && (r[|r| - 1] == '/' ==> r == Root(p) && Parts(p) == [])
  {
    var root, parts := Root(p), Parts(p);
    PartsShape(p);
    if root == "" && parts == [] {
      DotAlone();
      assert PathText(p) == ".";
    } else if parts == [] {
      RootAlone(root);
      assert PathText(p) == root;
    } else {
      NormalFormWithParts(root, parts);
      assert PathText(p) == root + Join(parts, '/');
    }
  }

  /** The normal form of a root and components reads back as them. */
  lemma NormalFormWithParts(root: string, parts: seq<string>)
    requires root == "" || root == "/" || root == "//"
    requires forall k :: 0 <= k < |parts| ==> IsPart(parts[k]) && '/' !in parts[k]
    requires parts != []
    ensures var r := root + Join(parts, '/');
            && Root(r) == root && Parts(r) == parts && NoDoubleSlashFrom(r, 1) && r[|r| - 1] != '/'
  {
    var j := Join(parts, '/');
    var pre: seq<string> := if root == "" then [] else if root == "/" then [""] else ["", ""];
    JoinShape(parts, '/');
    NormalShape(root, j);
    SplitAfterRoot(root, j);
    SplitJoinInverse(parts, '/');
    assert Split(root + j, '/') == pre + parts;
    KeepAfterRoot(root, parts);
    assert Keep(parts) == parts;
    assert Parts(root + j) == parts;
  }

  /** "." is a relative path without components. */
  lemma DotAlone()
    ensures Root(".") == "" && Parts(".") == [] && NoDoubleSlashFrom(".", 1)
  {
    SplitWithoutSep(".", '/');
    assert ["."][1..] == [];
  }

  /** A root on its own is its own root and has no components. */
  lemma RootAlone(root: string)
    requires root == "/" || root == "//"
    ensures Root(root) == root && Parts(root) == [] && NoDoubleSlashFrom(root, 1)
  {
    SplitAfterRoot(root, "");
    assert root + "" == root;
    SplitWithoutSep("", '/');
    KeepAfterRoot(root, [""]);
  }

  /** A root followed by text not starting with a separator keeps that root,
      and has no doubled separator after it when the text has none. */
  lemma NormalShape(root: string, j: string)
    requires root == "" || root == "/" || root == "//"
    requires |j| > 0 && j[0] != '/' && j[|j| - 1] != '/'
    requires forall i :: 0 <= i < |j| - 1 ==> !(j[i] == '/' && j[i + 1] == '/')
    ensures var r := root + j;
            && Root(r) == root && NoDoubleSlashFrom(r, 1) && r[|r| - 1] != '/'
  {
    var r := root + j;
    assert r[|root|..] == j;
    assert r[|r| - 1] == j[|j| - 1];
    if root == "//" {
      assert r[..2] == "//" && r[2] == j[0];
    } else if root == "/" {
      assert r[..1] == "/" && r[1] == j[0];
    } else {
      assert r == j;
    }
    forall i | 1 <= i < |r| - 1 ensures !(r[i] == '/' && r[i + 1] == '/') {
      if i >= |root| {
        assert r[i] == j[i - |root|] && r[i + 1] == j[i + 1 - |root|];
      } else {
        assert i + 1 == |root|;
        assert r[i + 1] == j[0];
      }
    }
  }

  /** Each separator of the root splits off one empty piece. */
  lemma SplitAfterRoot(root: string, j: string)
    requires root == "" || root == "/" || root == "//"
    ensures Split(root + j, '/') == (if root == "" then [] else if root == "/" then [""] else ["", ""]) + Split(j, '/')
  {
    if root == "/" {
      assert root + j == "" + ['/'] + j;
      SplitAfterHeader("", '/', j);
    } else if root == "//" {
      assert root + j == "" + ['/'] + ("/" + j);
      SplitAfterHeader("", '/', "/" + j);
      assert "/" + j == "" + ['/'] + j;
      SplitAfterHeader("", '/', j);
    } else {
      assert root + j == j;
    }
  }

  /** The empty pieces of the root are not components. */
  lemma KeepAfterRoot(root: string, pieces: seq<string>)
    requires root == "" || root == "/" || root == "//"
    ensures Keep((if root == "" then [] else if root == "/" then [""] else ["", ""]) + pieces) == Keep(pieces)
  {
    if root == "/" {
      assert ([""] + pieces)[1..] == pieces;
    } else if root == "//" {
      assert (["", ""] + pieces)[1..] == [""] + pieces;
      assert ([""] + pieces)[1..] == pieces;
    } else {
      assert [] + pieces == pieces;
    }
  }

  /** Joined pieces that hold no separator split back into those pieces. */
  lemma {:induction false} SplitJoinInverse(pieces: seq<string>, sep: char)
    requires |pieces| >= 1 && forall k :: 0 <= k < |pieces| ==> sep !in pieces[k]
    ensures Split(Join(pieces, sep), sep) == pieces
    decreases |pieces|
  {
    if |pieces| == 1 {
      SplitWithoutSep(pieces[0], sep);
    } else {
      SplitJoinInverse(pieces[1..], sep);
      SplitAfterHeader(pieces[0], sep, Join(pieces[1..], sep));
    }
  }

  /** A text without the separator is a single piece. */
  lemma SplitWithoutSep(s: string, sep: char)
    requires sep !in s
    ensures Split(s, sep) == [s]
  {
    forall i | 0 <= i < |s| ensures !OccursAt(s, [sep], i) {
      assert s[i..i + 1] == [s[i]];
    }
  }

  /** Non-empty pieces without the separator join into a text that neither
      starts nor ends with the separator and never doubles it. */
  lemma {:induction false} JoinShape(pieces: seq<string>, sep: char)
    requires |pieces| >= 1 && forall k :: 0 <= k < |pieces| ==> sep !in pieces[k] && pieces[k] != ""
    ensures var j := Join(pieces, sep);
            && |j| > 0 && j[0] != sep && j[|j| - 1] != sep
            && forall i :: 0 <= i < |j| - 1 ==> !(j[i] == sep && j[i + 1] == sep)
    decreases |pieces|
  {
    var j := Join(pieces, sep);
    assert pieces[0][0] in pieces[0];
    if |pieces| > 1 {
      JoinShape(pieces[1..], sep);
      var head, rest := pieces[0] + [sep], Join(pieces[1..], sep);
      assert j == head + rest;
      assert rest[|rest| - 1] == j[|j| - 1];
      forall i | 0 <= i < |j| - 1 ensures !(j[i] == sep && j[i + 1] == sep) {
        if i < |pieces[0]| {
          assert j[i] == pieces[0][i];
        } else if i >= |head| {
          assert j[i] == rest[i - |head|] && j[i + 1] == rest[i + 1 - |head|];
        } else {
          assert j[i + 1] == rest[0];
        }
      }
    } else {
      assert j[|j| - 1] in pieces[0];
    }
  }

  /** `pathlib` drops a "." component: "a/./b" is "a/b". */
  lemma DotComponentDropped(x: string, y: string)
    requires IsPart(x) && IsPart(y) && '/' !in x && '/' !in y
    ensures PathText(x + "/./" + y) == x + "/" + y
  {
    var p := x + "/./" + y;
    DotComponentParts(x, y);
    assert Root(p) == "" by { assert p[0] == x[0] && x[0] != '/'; }
    assert Join([x, y], '/') == x + "/" + y by { assert [x, y][1..] == [y]; }
  }

  /** The components of "a/./b" are "a" and "b". */
  lemma DotComponentParts(x: string, y: string)
    requires IsPart(x) && IsPart(y) && '/' !in x && '/' !in y
    ensures Parts(x + "/./" + y) == [x, y]
  {
    var p := x + "/./" + y;
    SplitWithoutSep(y, '/');
    assert "./" + y == "." + ['/'] + y;
    SplitAfterHeader(".", '/', y);
    assert p == x + ['/'] + ("./" + y);
    SplitAfterHeader(x, '/', "./" + y);
    assert Split(p, '/') == [x, ".", y];
    assert [x, ".", y][1..] == [".", y] && [".", y][1..] == [y];
    assert Keep([y]) == [y];
    assert Keep([".", y]) == [y];
    assert Keep([x, ".", y]) == [x] + [y];
  }

  /** `pathlib` keeps exactly two leading separators: "//a" is "//a". */
  lemma DoubleRootKept(x: string)
    requires IsPart(x) && '/' !in x
    ensures PathText("//" + x) == "//" + x
  {
    SplitWithoutSep(x, '/');
    SplitAfterRoot("//", x);
    KeepAfterRoot("//", [x]);
    var p := "//" + x;
    assert Root(p) == "//" by {
      assert p[..2] == "//";
      assert p[2] == x[0] && x[0] != '/';
      assert !StartsWith(p, "///") by { assert |p| < 3 || p[..3][2] == p[2]; }
    }
    assert JoinAll([x], '/') == x;
  }

  /** `pathlib` reads three leading separators as one: "///a" is "/a". */
  lemma TripleRootCollapsed(x: string)
    requires IsPart(x) && '/' !in x
    ensures PathText("///" + x) == "/" + x
  {
    TripleRootParts(x);
    var p := "///" + x;
    assert Root(p) == "/" by { assert p[..3] == "///" && p[..1] == "/"; }
    assert JoinAll([x], '/') == x;
  }

  /** The only component of "///" followed by a component is that component. */
  lemma TripleRootParts(x: string)
    requires IsPart(x) && '/' !in x
    ensures Parts("///" + x) == [x]
  {
    SplitWithoutSep(x, '/');
    SplitAfterRoot("//", x);
    assert Split("//" + x, '/') == ["", ""] + [x];
    assert "///" + x == "/" + ("//" + x);
    SplitAfterRoot("/", "//" + x);
    assert Split("///" + x, '/') == [""] + Split("//" + x, '/');
    KeepAfterRoot("/", Split("//" + x, '/'));
    KeepAfterRoot("//", [x]);
  }

  /** Normalising a normalised path changes nothing. */
  lemma PathTextIdempotent(p: string)
    ensures PathText(PathText(p)) == PathText(p)
  {
    PathTextNormal(p);
  }

  /** The first piece of a split starts where the text starts, unless the
      text starts with the separator. */
  lemma SplitHead(s: string, sep: char)
    requires |s| > 0 && s[0] != sep
    ensures |Split(s, sep)[0]| > 0 && Split(s, sep)[0][0] == s[0]
  {
    assert !OccursAt(s, [sep], 0) by { assert s[0..1] == [s[0]]; }
  }

  /** The first character of `sep.join(pieces)` is that of the first piece. */
  lemma JoinHead(pieces: seq<string>, sep: char)
    requires |pieces| >= 1 && |pieces[0]| > 0
    ensures |Join(pieces, sep)| > 0 && Join(pieces, sep)[0] == pieces[0][0]
  {
  }

  /** A relative path that starts with a plain character keeps that
      character first: its first piece is a component. */
  lemma PathTextFirst(p: string)
    requires |p| > 0 && p[0] != '/' && p[0] != '.'
    ensures PathText(p)[0] == p[0]
  {
    assert !StartsWith(p, "/") by { assert p[..1][0] == p[0]; }
    var pieces := Split(p, '/');
    SplitHead(p, '/');
    assert IsPart(pieces[0]) by { assert pieces[0][0] != "."[0]; }
    assert Parts(p) == [pieces[0]] + Keep(pieces[1..]);
    JoinHead(Parts(p), '/');
  }

  /** `str(Path(f) / name)` for a path `f` already in the form `str(Path(...))`
      gives (so that `Path(f)` is `f` again, `PathTextIdempotent`) and a
      relative name in that form too, with its first component first. */
  function JoinPath(f: string, name: string): (r: string)
    ensures |r| >= |name| && r[|r| - |name|..] == name
    ensures f == "." ==> r == name
  {
    if f == "." then name else if f == "/" || f == "//" then f + name else f + "/" + name
  }
}
