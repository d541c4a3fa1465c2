/**
 * The checks the RSS reader and gameserver plugins apply to what users
 * submit: a feed URL and a feed or server name. Both are Python regular
 * expressions tried with `re.match`, so they are anchored at the start;
 * their `$` matches at the end of the text or just before a final
 * newline. On a byte string `\w` is an ASCII letter, a digit or `_`.
 */
module Submissions {
  import opened Text
  import opened IrcFormat

  predicate IsWordChar(c: char) {
    'a' <= c <= 'z' || 'A' <= c <= 'Z' || '0' <= c <= '9' || c == '_'
  }

  /** The class `[\w\#$%&~/.\-;:=,?@\[\]+]` of the URL pattern. */
  predicate IsUrlChar(c: char) {
    IsWordChar(c) || c in "#$%&~/.-;:=,?@[]+"
  }

  /** The class `[a-zA-Z0-9\-_.]` of the name pattern. */
  predicate IsNameChar(c: char) {
    'a' <= c <= 'z' || 'A' <= c <= 'Z' || '0' <= c <= '9' || c == '-' || c == '_' || c == '.'
  }

  predicate AllWord(s: string) {
    forall i :: 0 <= i < |s| ==> IsWordChar(s[i])
  }

  predicate AllUrl(s: string) {
    forall i :: 0 <= i < |s| ==> IsUrlChar(s[i])
  }

  predicate AllName(s: string) {
    forall i :: 0 <= i < |s| ==> IsNameChar(s[i])
  }

  /** The length of the run of word characters `s` starts with. */
  function WordRun(s: string): (n: nat)
    ensures n <= |s| && AllWord(s[..n])
    ensures n < |s| ==> !IsWordChar(s[n])
  {
    if s == [] || !IsWordChar(s[0]) then 0
    else
      var n := 1 + WordRun(s[1..]);
      assert s[..n] == [s[0]] + s[1..][..n - 1];
      n
  }

  lemma {:induction false} WordRunOf(a: string, b: string)
    requires AllWord(a) && (b == [] || !IsWordChar(b[0]))
    ensures WordRun(a + b) == |a|
    decreases |a|
  {
    if a != [] {
      assert (a + b)[1..] == a[1..] + b;
      WordRunOf(a[1..], b);
    }
  }

  /** The URL pattern where `$` matches at the very end. The lazy `\w+?`
      can only stop where `://` follows, and `:` is no word character, so
      the scheme is the whole leading run of word characters. */
  predicate UrlBody(u: string) {
    var n := WordRun(u);
    n > 0 && n + 3 <= |u| && u[n..n + 3] == "://" && AllUrl(u[n + 3..])
  }

  /** `validate_url`: the scheme is the whole leading run of word
      characters, and `://` and allowed characters follow it up to the end
      or up to a final newline. */
  function ValidUrl(u: string): (r: bool)
    ensures r ==> var n := WordRun(u);
      0 < n && n + 3 <= |u| && u[n..n + 3] == "://" &&
      (AllUrl(u[n + 3..]) || (u[|u| - 1] == '\n' && AllUrl(u[n + 3..|u| - 1])))
  {
    UrlBeforeNewline(u);
    UrlBody(u) || (|u| > 0 && u[|u| - 1] == '\n' && UrlBody(u[..|u| - 1]))
  }

  /** A URL followed by a newline keeps its scheme: the newline is no word
      character, so the leading run stops where it did. */
  lemma UrlBeforeNewline(u: string)
    ensures |u| > 0 && u[|u| - 1] == '\n' && UrlBody(u[..|u| - 1]) ==>
      var n := WordRun(u);
      n + 3 <= |u| - 1 && n == WordRun(u[..|u| - 1]) && u[n..n + 3] == "://" && AllUrl(u[n + 3..|u| - 1])
  {
    if |u| > 0 && u[|u| - 1] == '\n' && UrlBody(u[..|u| - 1]) {
      UrlNewlineRun(u, u[..|u| - 1]);
    }
  }

  lemma UrlNewlineRun(u: string, b: string)
    requires |u| > 0 && u[|u| - 1] == '\n' && b == u[..|u| - 1] && UrlBody(b)
    ensures var n := WordRun(b);
      n == WordRun(u) && n + 3 <= |b| && u[n..n + 3] == "://" && AllUrl(u[n + 3..|u| - 1])
  {
    var n := WordRun(b);
    assert u == b + "\n" by {
      DropNewline(u);
    }
    WordRunStops(b, "\n");
    PrefixSlices(u, b, n, n + 3);
    PrefixSlices(u, b, n + 3, |b|);
  }

  /** Text after a run that has already stopped does not extend it. */
  lemma {:induction false} WordRunStops(a: string, b: string)
    requires WordRun(a) < |a|
    ensures WordRun(a + b) == WordRun(a)
    decreases |a|
  {
    if IsWordChar(a[0]) {
      assert (a + b)[1..] == a[1..] + b;
      WordRunStops(a[1..], b);
    }
  }

  lemma PrefixSlices(u: string, b: string, i: nat, j: nat)
    requires |b| <= |u| && b == u[..|b|] && i <= j <= |b|
    ensures u[i..j] == b[i..j]
  {
  }

  lemma UrlBodyOf(scheme: string, rest: string)
    requires scheme != [] && AllWord(scheme) && AllUrl(rest)
    ensures UrlBody(scheme + "://" + rest)
  {
    var u := scheme + "://" + rest;
    WordRunOf(scheme, "://" + rest);
    assert u == scheme + ("://" + rest);
    assert u[|scheme|..|scheme| + 3] == "://";
    assert u[|scheme| + 3..] == rest;
  }

  /** Every scheme, `://` and run of allowed characters is accepted, with
      or without a final newline. */
  lemma UrlAccepts(scheme: string, rest: string)
    requires scheme != [] && AllWord(scheme) && AllUrl(rest)
    ensures ValidUrl(scheme + "://" + rest)
    ensures ValidUrl(scheme + "://" + rest + "\n")
  {
    UrlBodyOf(scheme, rest);
    var u := scheme + "://" + rest + "\n";
    assert u[..|u| - 1] == scheme + "://" + rest;
  }

  lemma UrlBodyShape(u: string)
    requires UrlBody(u)
    ensures var n := WordRun(u);
      u[..n] != [] && AllWord(u[..n]) && AllUrl(u[n + 3..]) && u == u[..n] + "://" + u[n + 3..]
  {
    var n := WordRun(u);
    assert u == u[..n] + u[n..n + 3] + u[n + 3..];
  }

  /** And nothing else is accepted. */
  lemma UrlShape(u: string)
    requires ValidUrl(u)
    ensures exists scheme, rest ::
      (scheme != [] && AllWord(scheme) && AllUrl(rest) &&
       (u == scheme + "://" + rest || u == scheme + "://" + rest + "\n"))
  {
    var body := if UrlBody(u) then u else u[..|u| - 1];
    UrlBodyShape(body);
    var n := WordRun(body);
    if !UrlBody(u) {
      DropNewline(u);
    }
    UrlWitness(u, body[..n], body[n + 3..]);
  }

  lemma DropNewline(u: string)
    requires |u| > 0 && u[|u| - 1] == '\n'
    ensures u == u[..|u| - 1] + "\n"
  {
  }

  lemma UrlWitness(u: string, scheme: string, rest: string)
    requires scheme != [] && AllWord(scheme) && AllUrl(rest)
    requires u == scheme + "://" + rest || u == scheme + "://" + rest + "\n"
    ensures exists scheme, rest ::
      (scheme != [] && AllWord(scheme) && AllUrl(rest) &&
       (u == scheme + "://" + rest || u == scheme + "://" + rest + "\n"))
  {
  }

  /** The name pattern `^[a-zA-Z0-9\-_.]+$`. */
  function ValidName(s: string): (r: bool)
    ensures r ==> s != [] && IsNameChar(s[0]) && (IsNameChar(s[|s| - 1]) || s[|s| - 1] == '\n')
  {
    (s != [] && AllName(s)) || (|s| > 1 && s[|s| - 1] == '\n' && AllName(s[..|s| - 1]))
  }

  /** A valid name is one or more name characters, and can only end in a
      newline besides. */
  lemma NameChars(s: string)
    requires ValidName(s)
    ensures s != [] && IsNameChar(s[0])
    ensures forall i :: 0 <= i < |s| - 1 ==> IsNameChar(s[i])
    ensures IsNameChar(s[|s| - 1]) || s[|s| - 1] == '\n'
  {
    if !AllName(s) {
      assert forall i :: 0 <= i < |s| - 1 ==> s[..|s| - 1][i] == s[i];
    }
  }

  /** A name never passes for a URL: it holds no `:`. So a feed name given
      to the reader is always looked up rather than fetched. */
  lemma NameIsNoUrl(s: string)
    requires ValidName(s)
    ensures !ValidUrl(s)
  {
    NameChars(s);
  }

  /** A name that passes the name check has no formatting to remove. */
  lemma NameIsPlain(name: string)
    requires ValidName(name)
    ensures Remove(name) == name
  {
    NameChars(name);
    RemovePlain(name);
  }
}
