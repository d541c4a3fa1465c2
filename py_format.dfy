/**
 * `str.format` of Python 2.7 called with keyword arguments only, as the
 * plugins call it on text that may itself hold braces. The text is read
 * from left to right: `{{` and `}}` stand for one brace, `{name}` is
 * replaced by the keyword argument `name`, and every other character is
 * copied. A closing brace that is not doubled and an opening one that is never closed raise
 * `ValueError`, an unknown name raises `KeyError`, and an empty or
 * numeric field raises `IndexError`, there being no positional arguments.
 * The first error met is the one raised, and nothing is returned.
 */
module PyFormat {
  import opened Wrappers
  import opened Text

  datatype FormatError =
    | ValueError
    | KeyError(key: string)
    | IndexError
    /** A field with a conversion, a format spec, an attribute, an index
        or a nested field (`{c!r}`, `{c:>3}`, `{c.x}`, `{c[0]}`). */
    | FieldNotModelled(field: string)

  /** The two braces. */
  const LBrace: char := '\U{7B}'
  const RBrace: char := '\U{7D}'
  const Open: string := "\U{7B}"
  const Close: string := "\U{7D}"

  predicate NoBraces(s: string) {
    LBrace !in s && RBrace !in s
  }

  /** A field that is a bare name. */
  predicate BareField(f: string) {
    forall i :: 0 <= i < |f| ==> f[i] !in Open + "!:.["
  }

  /** The value of one replacement field. */
  function Field(f: string, kw: map<string, string>): Result<string, FormatError> {
    if !BareField(f) then Err(FieldNotModelled(f))
    else if f == "" || AllDigits(f) then Err(IndexError)
    else if f in kw then Ok(kw[f])
    else Err(KeyError(f))
  }

  function Prepend(p: string, r: Result<string, FormatError>): Result<string, FormatError> {
    if r.Ok? then Ok(p + r.value) else r
  }

  /** `s.format(**kw)`. */
  function Format(s: string, kw: map<string, string>): Result<string, FormatError>
    decreases |s|, 1
  {
    if s == [] then Ok([]) else FormatFirst(s, kw)
  }

  /** `format` of a non-empty text: its first character, or the
      replacement field or doubled brace it starts with, then the rest. */
  function FormatFirst(s: string, kw: map<string, string>): Result<string, FormatError>
    requires s != []
    decreases |s|, 0
  {
    if s[0] == LBrace then
      if |s| > 1 && s[1] == LBrace then Prepend(Open, Format(s[2..], kw))
      else
        var n := Find(s[1..], RBrace);
        if n == -1 then Err(ValueError)
        else
          var v := Field(s[1..n + 1], kw);
          if v.Err? then Err(v.error) else Prepend(v.value, Format(s[n + 2..], kw))
    else if s[0] == RBrace then
      if |s| > 1 && s[1] == RBrace then Prepend(Close, Format(s[2..], kw)) else Err(ValueError)
    else Prepend([s[0]], Format(s[1..], kw))
  }

  lemma PrependPrepend(x: string, y: string, r: Result<string, FormatError>)
    ensures Prepend(x, Prepend(y, r)) == Prepend(x + y, r)
  {
    if r.Ok? {
      assert x + (y + r.value) == (x + y) + r.value;
    }
  }

  /** Text without braces is returned as it is. */
  lemma {:induction false} FormatPlain(s: string, kw: map<string, string>)
    requires NoBraces(s)
    ensures Format(s, kw) == Ok(s)
    decreases |s|
  {
    if s != [] {
      assert s == [s[0]] + s[1..];
      FormatPlain(s[1..], kw);
    }
  }

  /** The first `c` of `a + b` is the first of `a` when `a` holds one. */
  lemma FindPrefix(a: string, b: string, c: char)
    requires c in a
    ensures Find(a + b, c) == Find(a, c)
  {
    var n := Find(a, c);
    var r := Find(a + b, c);
    assert (a + b)[n] == c;
    assert forall i :: 0 <= i < r ==> (a + b)[..r][i] == (a + b)[i];
    assert forall i :: 0 <= i < n ==> a[..n][i] == a[i];
  }

  /** Text that formats without error is read whole before what follows
      it: formatting a concatenation formats the two parts one after the
      other. */
  lemma {:induction false} FormatConcat(a: string, b: string, kw: map<string, string>)
    requires Format(a, kw).Ok?
    ensures Format(a + b, kw) == Prepend(Format(a, kw).value, Format(b, kw))
    decreases |a|
  {
    if a == [] {
      assert a + b == b;
      if Format(b, kw).Ok? {
        assert [] + Format(b, kw).value == Format(b, kw).value;
      }
    } else if a[0] == LBrace && |a| > 1 && a[1] == LBrace {
      assert (a + b)[2..] == a[2..] + b;
      FormatConcat(a[2..], b, kw);
      PrependPrepend(Open, Format(a[2..], kw).value, Format(b, kw));
    } else if a[0] == LBrace {
      var n := Find(a[1..], RBrace);
      assert (a + b)[1..] == a[1..] + b;
      FindPrefix(a[1..], b, RBrace);
      assert (a + b)[1..n + 1] == a[1..n + 1];
      assert (a + b)[n + 2..] == a[n + 2..] + b;
      FormatConcat(a[n + 2..], b, kw);
      PrependPrepend(Field(a[1..n + 1], kw).value, Format(a[n + 2..], kw).value, Format(b, kw));
    } else if a[0] == RBrace {
      assert (a + b)[2..] == a[2..] + b;
      FormatConcat(a[2..], b, kw);
      PrependPrepend(Close, Format(a[2..], kw).value, Format(b, kw));
    } else {
      assert (a + b)[1..] == a[1..] + b;
      FormatConcat(a[1..], b, kw);
      PrependPrepend([a[0]], Format(a[1..], kw).value, Format(b, kw));
    }
  }

  /** A field without braces inside is replaced by its value, or raises
      what looking it up raises. */
  lemma FieldStep(f: string, rest: string, kw: map<string, string>)
    requires NoBraces(f)
    ensures Field(f, kw).Err? ==> Format(Open + f + Close + rest, kw) == Err(Field(f, kw).error)
    ensures Field(f, kw).Ok? ==> Format(Open + f + Close + rest, kw) == Prepend(Field(f, kw).value, Format(rest, kw))
  {
    FieldShape(f, rest);
  }

  /** Where the parts of the field `f` in braces followed by `rest` lie, for a field without braces. */
  lemma FieldShape(f: string, rest: string)
    requires NoBraces(f)
    ensures var s := Open + f + Close + rest;
      |s| >= |f| + 2 && s[0] == LBrace && s[1] != LBrace &&
      Find(s[1..], RBrace) == |f| && s[1..|f| + 1] == f && s[|f| + 2..] == rest
  {
    var s := Open + f + Close + rest;
    assert s[1..] == f + (Close + rest);
    assert s[1] != LBrace by {
      if f != [] {
        assert s[1] == f[0];
      }
    }
    assert Find(f + (Close + rest), RBrace) == |f| by {
      FindPrefix(f + Close, rest, RBrace);
      assert f + (Close + rest) == (f + Close) + rest;
    }
    assert s[1..|f| + 1] == f;
    assert s[|f| + 2..] == rest;
  }

  /** `{name}` for a keyword argument is its value. */
  lemma FormatKnownField(f: string, rest: string, kw: map<string, string>)
    requires NoBraces(f) && BareField(f) && f != "" && !AllDigits(f) && f in kw
    ensures Format(Open + f + Close + rest, kw) == Prepend(kw[f], Format(rest, kw))
  {
    FieldStep(f, rest, kw);
  }

  /** A name that is no keyword argument raises `KeyError` at its field,
      whatever follows. */
  lemma FormatUnknownField(p: string, f: string, rest: string, kw: map<string, string>)
    requires NoBraces(p) && NoBraces(f) && BareField(f) && f != "" && !AllDigits(f) && f !in kw
    ensures Format(p + Open + f + Close + rest, kw) == Err(KeyError(f))
  {
    FormatPlain(p, kw);
    FormatConcat(p, Open + f + Close + rest, kw);
    assert p + Open + f + Close + rest == p + (Open + f + Close + rest);
    FieldStep(f, rest, kw);
  }

  /** A closing brace that is not doubled raises `ValueError`. */
  lemma FormatLoneClose(p: string, rest: string, kw: map<string, string>)
    requires NoBraces(p) && (rest == [] || rest[0] != RBrace)
    ensures Format(p + Close + rest, kw) == Err(ValueError)
  {
    FormatPlain(p, kw);
    FormatConcat(p, Close + rest, kw);
    assert p + Close + rest == p + (Close + rest);
    if rest != [] {
      assert (Close + rest)[1] == rest[0];
    }
  }

  /** An opening brace that no closing brace follows raises `ValueError`. */
  lemma FormatUnclosed(p: string, rest: string, kw: map<string, string>)
    requires NoBraces(p) && RBrace !in rest && (rest == [] || rest[0] != LBrace)
    ensures Format(p + Open + rest, kw) == Err(ValueError)
  {
    FormatPlain(p, kw);
    FormatConcat(p, Open + rest, kw);
    assert p + Open + rest == p + (Open + rest);
    assert (Open + rest)[1..] == rest;
    if rest != [] {
      assert (Open + rest)[1] == rest[0];
    }
  }

  /** A character that is in neither the text nor any keyword argument is
      not in the result either. */
  lemma {:induction false} FormatKeepsOut(s: string, kw: map<string, string>, c: char)
    requires c !in s && c != LBrace && c != RBrace
    requires forall k :: k in kw ==> c !in kw[k]
    requires Format(s, kw).Ok?
    ensures c !in Format(s, kw).value
    decreases |s|
  {
    if s == [] {
    } else if s[0] == LBrace && |s| > 1 && s[1] == LBrace {
      FormatKeepsOut(s[2..], kw, c);
    } else if s[0] == LBrace {
      var n := Find(s[1..], RBrace);
      FormatKeepsOut(s[n + 2..], kw, c);
    } else if s[0] == RBrace {
      FormatKeepsOut(s[2..], kw, c);
    } else {
      FormatKeepsOut(s[1..], kw, c);
    }
  }
}
