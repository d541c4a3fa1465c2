/**
 * The handful of Python 2 `str` operations the bot relies on, over
 * `string` (= `seq<char>`): `startswith`, `find`, `strip`, `lower`,
 * `split`, `join`, `int()` and `str()` of integers.
 */
module Text {
  import opened Wrappers

  /** Whitespace as Python 2's `str.strip()` and `str.split()` see it. */
  predicate IsSpace(c: char) {
    c == ' ' || c == '\t' || c == '\n' || c == '\r' || c == '\U{0B}' || c == '\U{0C}'
  }

  predicate NoSpace(s: string) {
    forall i :: 0 <= i < |s| ==> !IsSpace(s[i])
  }

  predicate IsDigit(c: char) {
    '0' <= c <= '9'
  }

  predicate AllDigits(s: string) {
    forall i :: 0 <= i < |s| ==> IsDigit(s[i])
  }

  /** `s.startswith(prefix)` */
  predicate StartsWith(s: string, prefix: string) {
    |prefix| <= |s| && s[..|prefix|] == prefix
  }

  predicate EndsWith(s: string, suffix: string) {
    |suffix| <= |s| && s[|s| - |suffix|..] == suffix
  }

  /** `s.find(c, start)`: the first index at or after `start` holding `c`, or -1. */
  function FindFrom(s: string, c: char, start: nat): (r: int)
    ensures r == -1 || start <= r < |s|
    ensures r == -1 ==> forall i :: start <= i < |s| ==> s[i] != c
    ensures r != -1 ==> s[r] == c && forall i :: start <= i < r ==> s[i] != c
    decreases |s| - start
  {
    if start >= |s| then -1
    else if s[start] == c then start
    else FindFrom(s, c, start + 1)
  }

  /** `s.find(c)` */
  function Find(s: string, c: char): (r: int)
    ensures r == -1 <==> c !in s
    ensures r != -1 ==> 0 <= r < |s| && s[r] == c && c !in s[..r]
  {
    var r := FindFrom(s, c, 0);
    assert r != -1 ==> s[..r] == s[..r] && forall i :: 0 <= i < r ==> s[..r][i] != c;
    assert c in s ==> exists i :: 0 <= i < |s| && s[i] == c;
    r
  }

  /** `find` gives the first occurrence and no other. */
  lemma FindFirst(s: string, c: char, p: nat)
    requires p < |s| && s[p] == c && c !in s[..p]
    ensures Find(s, c) == p
  {
    assert forall i :: 0 <= i < p ==> s[..p][i] == s[i];
  }

  /** The text after the first `c` of `s`, or all of `s` when there is none:
      Python's `s[s.find(c)+1:]`, which relies on `find` giving -1. */
  function AfterFirst(s: string, c: char): (r: string)
    ensures |r| <= |s|
    ensures c !in s ==> r == s
  {
    var i := Find(s, c);
    s[i + 1..]
  }

  /** The text after the first `c`: splitting at that `c` gives it back. */
  lemma AfterFirstSplit(a: string, c: char, b: string)
    requires c !in a
    ensures AfterFirst(a + [c] + b, c) == b
  {
    var s := a + [c] + b;
    assert s[|a|] == c && s[..|a|] == a;
    assert Find(s, c) == |a|;
    assert s[|a| + 1..] == b;
  }

  /** `s.lstrip()` */
  function LStrip(s: string): (r: string)
    ensures |r| <= |s| && r == s[|s| - |r|..]
    ensures r == [] || !IsSpace(r[0])
  {
    if |s| > 0 && IsSpace(s[0]) then LStrip(s[1..]) else s
  }

  /** `s.rstrip()` */
  function RStrip(s: string): (r: string)
    ensures |r| <= |s| && r == s[..|r|]
    ensures r == [] || !IsSpace(r[|r| - 1])
  {
    if |s| > 0 && IsSpace(s[|s| - 1]) then RStrip(s[..|s| - 1]) else s
  }

  /** `s.strip()`: both ends trimmed of whitespace. */
  function Strip(s: string): (r: string)
    ensures |r| <= |s|
    ensures r == [] || (!IsSpace(r[0]) && !IsSpace(r[|r| - 1]))
  {
    RStrip(LStrip(s))
  }

  /** What `lstrip` removes is whitespace. */
  lemma {:induction false} LStripRemovesSpace(s: string)
    ensures forall i :: 0 <= i < |s| - |LStrip(s)| ==> IsSpace(s[i])
  {
    if |s| > 0 && IsSpace(s[0]) {
      LStripRemovesSpace(s[1..]);
    }
  }

  /** What `rstrip` removes is whitespace. */
  lemma {:induction false} RStripRemovesSpace(s: string)
    ensures forall i :: |RStrip(s)| <= i < |s| ==> IsSpace(s[i])
  {
    if |s| > 0 && IsSpace(s[|s| - 1]) {
      RStripRemovesSpace(s[..|s| - 1]);
    }
  }

  /** The stripped text sits inside `s` with only whitespace around it. */
  lemma StripInside(s: string)
    ensures var r := Strip(s); var a := |s| - |LStrip(s)|;
            a + |r| <= |s| && r == s[a..a + |r|]
            && (forall i :: 0 <= i < a ==> IsSpace(s[i]))
            && (forall i :: a + |r| <= i < |s| ==> IsSpace(s[i]))
  {
    var l := LStrip(s);
    var r := RStrip(l);
    var a := |s| - |l|;
    LStripRemovesSpace(s);
    RStripRemovesSpace(l);
    SliceInside(s, l, r, a);
    forall i | a + |r| <= i < |s| ensures IsSpace(s[i]) {
      assert s[i] == l[i - a];
    }
  }

  lemma SliceInside<T>(s: seq<T>, l: seq<T>, r: seq<T>, a: int)
    requires 0 <= a <= |s| && l == s[a..] && |r| <= |l| && r == l[..|r|]
    ensures a + |r| <= |s| && s[a..a + |r|] == r
    ensures forall i :: a <= i < |s| ==> s[i] == l[i - a]
  {
  }

  /** Stripping text that neither starts nor ends with whitespace changes nothing. */
  lemma {:induction false} StripTrimmed(s: string)
    requires s == [] || (!IsSpace(s[0]) && !IsSpace(s[|s| - 1]))
    ensures Strip(s) == s
  {
    assert LStrip(s) == s;
    assert RStrip(s) == s;
  }

  /** `s.lower()` on ASCII letters. */
  function Lower(s: string): (r: string)
    ensures |r| == |s|
    ensures forall i :: 0 <= i < |s| ==>
              r[i] == if 'A' <= s[i] <= 'Z' then (s[i] as int + 32) as char else s[i]
  {
    if s == [] then []
    else [if 'A' <= s[0] <= 'Z' then (s[0] as int + 32) as char else s[0]] + Lower(s[1..])
  }

  /** Lower-casing twice is lower-casing once. */
  lemma LowerIdempotent(s: string)
    ensures Lower(Lower(s)) == Lower(s)
  {
    var l := Lower(s);
    assert forall i :: 0 <= i < |l| ==> !('A' <= l[i] <= 'Z');
  }

  /** Length of the leading run of non-whitespace characters. */
  function TokenLength(s: string): (n: nat)
    ensures n <= |s| && NoSpace(s[..n])
    ensures n < |s| ==> IsSpace(s[n])
  {
    if s == [] || IsSpace(s[0]) then 0
    else
      var n := 1 + TokenLength(s[1..]);
      assert s[..n] == [s[0]] + s[1..][..n - 1];
      n
  }

  /** `s.split()`: the maximal runs of non-whitespace, in order. */
  function SplitWhitespace(s: string): (r: seq<string>)
    ensures forall i :: 0 <= i < |r| ==> |r[i]| > 0 && NoSpace(r[i])
    decreases |s|
  {
    var t := LStrip(s);
    if t == [] then []
    else
      var n := TokenLength(t);
      [t[..n]] + SplitWhitespace(t[n..])
  }

  /** A single word splits into itself. */
  lemma SplitWhitespaceWord(s: string)
    requires s != [] && NoSpace(s)
    ensures SplitWhitespace(s) == [s]
  {
    assert LStrip(s) == s;
    var n := TokenLength(s);
    assert n == |s|;
    assert s[..n] == s;
    assert s[n..] == [];
    assert LStrip(s[n..]) == [];
  }

  /** `sep` occurs in `s` at index `i`. */
  predicate OccursAt(s: string, sep: string, i: int) {
    0 <= i && i + |sep| <= |s| && s[i..i + |sep|] == sep
  }

  lemma SliceOfTail(s: string, a: int, b: int)
    requires 1 <= a <= b <= |s|
    ensures s[a..b] == s[1..][a - 1..b - 1]
  {
    forall j | 0 <= j < b - a ensures s[a..b][j] == s[1..][a - 1..b - 1][j] {}
  }

  /** The first index where `sep` occurs in `s`, or -1. */
  function IndexOfSeq(s: string, sep: string): (r: int)
    requires |sep| > 0
    ensures r == -1 || OccursAt(s, sep, r)
    ensures r != -1 ==> forall i :: 0 <= i < r ==> !OccursAt(s, sep, i)
    ensures r == -1 ==> forall i :: !OccursAt(s, sep, i)
  {
    if |s| < |sep| then -1
    else if s[..|sep|] == sep then 0
    else
      var k := IndexOfSeq(s[1..], sep);
      assert forall i :: 1 <= i ==> (OccursAt(s, sep, i) <==> OccursAt(s[1..], sep, i - 1)) by {
        forall i | 1 <= i ensures OccursAt(s, sep, i) <==> OccursAt(s[1..], sep, i - 1) {
          if i + |sep| <= |s| {
            SliceOfTail(s, i, i + |sep|);
          }
        }
      }
      assert !OccursAt(s, sep, 0);
      if k == -1 then -1 else k + 1
  }

  /** `s.split(sep)` for a non-empty separator: at least one part, and the
      parts joined with `sep` give back `s`. */
  function SplitOn(s: string, sep: string): (r: seq<string>)
    requires |sep| > 0
    ensures |r| >= 1
    ensures JoinWith(r, sep) == s
    decreases |s|
  {
    var i := IndexOfSeq(s, sep);
    if i == -1 then [s]
    else
      var rest := SplitOn(s[i + |sep|..], sep);
      assert s == s[..i] + sep + s[i + |sep|..];
      [s[..i]] + rest
  }

  /** `sep.join(parts)` */
  function JoinWith(parts: seq<string>, sep: string): string {
    if |parts| == 0 then ""
    else if |parts| == 1 then parts[0]
    else parts[0] + sep + JoinWith(parts[1..], sep)
  }

  /** `sep.join` of two non-empty runs of parts: the two joins with `sep`
      between them. */
  lemma {:induction false} JoinWithConcat(a: seq<string>, b: seq<string>, sep: string)
    requires a != [] && b != []
    ensures JoinWith(a + b, sep) == JoinWith(a, sep) + sep + JoinWith(b, sep)
    decreases |a|
  {
    assert (a + b)[0] == a[0] && (a + b)[1..] == a[1..] + b;
    if |a| > 1 {
      JoinWithConcat(a[1..], b, sep);
    }
  }

  /** Every part followed by `sep`: what a loop appending `part + sep` to
      a buffer builds. */
  function Terminated(parts: seq<string>, sep: string): string {
    if parts == [] then "" else Terminated(parts[..|parts| - 1], sep) + parts[|parts| - 1] + sep
  }

  /** Such a buffer is the parts joined with `sep`, followed by one more
      `sep`: dropping that last `sep` gives the join. */
  lemma {:induction false} TerminatedJoin(parts: seq<string>, sep: string)
    requires parts != []
    ensures Terminated(parts, sep) == JoinWith(parts, sep) + sep
    decreases |parts|
  {
    var init := parts[..|parts| - 1];
    var last := parts[|parts| - 1];
    assert init + [last] == parts;
    if init == [] {
      assert parts == [last];
    } else {
      TerminatedJoin(init, sep);
      JoinWithConcat(init, [last], sep);
    }
  }

  /** The buffer grows by a part and a separator. */
  lemma TerminatedStep(parts: seq<string>, x: string, sep: string)
    ensures Terminated(parts + [x], sep) == Terminated(parts, sep) + x + sep
  {
    assert (parts + [x])[..|parts|] == parts;
  }

  /** The buffer read from its front: the first part, `sep`, then the
      others. */
  lemma TerminatedFirst(parts: seq<string>, sep: string)
    requires parts != []
    ensures Terminated(parts, sep) == parts[0] + sep + Terminated(parts[1..], sep)
  {
    TerminatedJoin(parts, sep);
    if |parts| == 1 {
      assert parts[1..] == [];
    } else {
      TerminatedJoin(parts[1..], sep);
      SeparatedFront(Terminated(parts, sep), JoinWith(parts, sep), parts[0],
                     Terminated(parts[1..], sep), JoinWith(parts[1..], sep), sep);
    }
  }

  /** The string algebra of `TerminatedFirst`: a terminated join whose join
      starts with `first` and `sep` is `first`, `sep` and the terminated rest. */
  lemma SeparatedFront(whole: string, joined: string, first: string, rest: string, restJoined: string, sep: string)
    requires whole == joined + sep && rest == restJoined + sep
    requires joined == first + sep + restJoined
    ensures whole == first + sep + rest
  {
    assert first + sep + restJoined + sep == first + sep + (restJoined + sep);
  }


  /** A character of one of the parts is a character of their join. */
  lemma {:induction false} JoinedParts(parts: seq<string>, sep: string, c: char)
    requires c !in JoinWith(parts, sep)
    ensures forall i :: 0 <= i < |parts| ==> c !in parts[i]
    decreases |parts|
  {
    if |parts| > 1 {
      JoinedParts(parts[1..], sep, c);
      forall i | 1 <= i < |parts| ensures c !in parts[i] {
        assert parts[i] == parts[1..][i - 1];
      }
    }
  }

  /** `s.split(c, 1)`: the text before the first `c` and the text after it,
      or `[s]` when `c` does not occur. */
  function SplitOnce(s: string, c: char): (r: seq<string>)
    ensures c !in s ==> r == [s]
    ensures c in s ==> |r| == 2 && c !in r[0] && s == r[0] + [c] + r[1]
  {
    var i := Find(s, c);
    if i == -1 then [s] else
      assert s == s[..i] + [c] + s[i + 1..];
      [s[..i], s[i + 1..]]
  }

  /** Splitting at the first `c` takes apart what joining at `c` built. */
  lemma SplitOnceOf(a: string, c: char, b: string)
    requires c !in a
    ensures SplitOnce(a + [c] + b, c) == [a, b]
  {
    var s := a + [c] + b;
    assert s[|a|] == c && s[..|a|] == a;
    FindFirst(s, c, |a|);
    assert s[|a| + 1..] == b;
  }

  function DigitValue(c: char): nat
    requires IsDigit(c)
  {
    c as int - '0' as int
  }

  /** The value of a run of decimal digits, most significant first. */
  function DigitsValue(s: string): nat
    requires AllDigits(s)
  {
    if s == [] then 0 else DigitsValue(s[..|s| - 1]) * 10 + DigitValue(s[|s| - 1])
  }

  /** What Python 2's `int(s)` accepts after stripping: an optional sign and
      at least one decimal digit. */
  predicate IsIntLiteral(t: string) {
    if |t| > 0 && (t[0] == '-' || t[0] == '+') then |t| > 1 && AllDigits(t[1..])
    else |t| > 0 && AllDigits(t)
  }

  /** Python 2's `int(s)` on a `str`; `None` where it raises ValueError. */
  function ParseInt(s: string): (r: Option<int>)
    ensures r.Some? <==> IsIntLiteral(Strip(s))
  {
    var t := Strip(s);
    if |t| > 1 && t[0] == '-' && AllDigits(t[1..]) then
      var v: int := DigitsValue(t[1..]);
      Some(-v)
    else if |t| > 1 && t[0] == '+' && AllDigits(t[1..]) then Some(DigitsValue(t[1..]))
    else if |t| > 0 && t[0] != '-' && t[0] != '+' && AllDigits(t) then Some(DigitsValue(t))
    else None
  }

  /** A plain run of digits parses to its decimal value. */
  lemma ParseIntDigits(s: string)
    requires s != [] && AllDigits(s)
    ensures ParseInt(s) == Some(DigitsValue(s))
  {
    assert IsDigit(s[0]) && IsDigit(s[|s| - 1]);
    StripTrimmed(s);
    assert s[0] != '-' && s[0] != '+';
  }

  function DigitChar(d: nat): (c: char)
    requires d < 10
    ensures IsDigit(c) && DigitValue(c) == d
  {
    ('0' as int + d) as char
  }

  /** `str(n)` for a natural number: decimal digits, no leading zero. */
  function NatToString(n: nat): (r: string)
    ensures |r| > 0 && AllDigits(r)
    ensures |r| > 1 ==> r[0] != '0'
  {
    if n < 10 then [DigitChar(n)] else NatToString(n / 10) + [DigitChar(n % 10)]
  }

  /** Reading back the digits of `str(n)` gives `n`. */
  lemma {:induction false} NatToStringValue(n: nat)
    ensures DigitsValue(NatToString(n)) == n
  {
    var s := NatToString(n);
    if n >= 10 {
      NatToStringValue(n / 10);
      assert s[..|s| - 1] == NatToString(n / 10);
      assert DigitsValue(s) == (n / 10) * 10 + n % 10;
    }
  }

  /** `int(str(n)) == n`: rendering a natural number in decimal loses nothing. */
  lemma NatToStringRoundTrip(n: nat)
    ensures ParseInt(NatToString(n)) == Some(n)
  {
    NatToStringValue(n);
    ParseIntDigits(NatToString(n));
  }

  /** `str(i)` for any integer. */
  function IntToString(i: int): (r: string)
    ensures |r| > 0
    ensures i >= 0 ==> r == NatToString(i)
    ensures i < 0 ==> r[0] == '-' && r[1..] == NatToString(-i)
  {
    if i >= 0 then NatToString(i) else "-" + NatToString(-i)
  }

  /** `int(str(i)) == i`, negative numbers included. */
  lemma IntToStringRoundTrip(i: int)
    ensures ParseInt(IntToString(i)) == Some(i)
  {
    if i >= 0 {
      NatToStringRoundTrip(i);
    } else {
      var s := IntToString(i);
      var digits := NatToString(-i);
      assert IsDigit(s[|s| - 1]) by {
        assert s[|s| - 1] == digits[|digits| - 1];
      }
      StripTrimmed(s);
      NatToStringValue(-i);
    }
  }

  /** `s.replace(a, b)` for single characters. */
  function ReplaceChar(s: string, a: char, b: char): (r: string)
    ensures |r| == |s|
    ensures forall i :: 0 <= i < |s| ==> r[i] == if s[i] == a then b else s[i]
  {
    if s == [] then [] else [if s[0] == a then b else s[0]] + ReplaceChar(s[1..], a, b)
  }

  /** No element occurs twice. */
  predicate Distinct(xs: seq<string>) {
    forall i, j :: 0 <= i < j < |xs| ==> xs[i] != xs[j]
  }

  lemma DistinctAppend(xs: seq<string>, x: string)
    requires Distinct(xs) && x !in xs
    ensures Distinct(xs + [x])
  {
    var ys := xs + [x];
    forall i, j | 0 <= i < j < |ys| ensures ys[i] != ys[j] {
      if j == |xs| {
        assert ys[i] == xs[i];
      }
    }
  }
}
