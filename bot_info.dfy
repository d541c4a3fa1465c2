/**
 * The `plugins` (also `plugin`) command of the bot-information plugin.
 * Without arguments it lists the display names of all loaded plugins;
 * with an argument it looks the plugin up, by directory name or by display
 * name, and describes it: a header with name and version, the
 * description, and one line per command taken from the command's
 * docstring, plus one line per alias. Every step that can raise is kept:
 * the colour lookup, a plugin info without a display name or version, the
 * `send_pm` call for a plugin with authors, and a docstring that
 * `str.format` refuses.
 */
module BotInfo {
  import opened Wrappers
  import opened Text
  import opened IrcFormat
  import opened PyFormat
  import opened CommandEvents
  import opened PluginManagement
  import opened PluginDecorators

  /** A command handler as the description reads it: `function.command`,
      whose first name is the command and the others its aliases, and the
      handler's docstring. */
  datatype CommandDoc = CommandDoc(first: string, aliases: seq<string>, doc: string)

  /** What `plugins` raises. */
  datatype InfoError =
    /** `Format.color` of the default colour setting raised. */
    | ColorRaised(colorError: ColorError)
    /** `KeyError` on a plugin's info. */
    | MissingKey(key: string)
    /** `AttributeError`: the user object has no `send_pm`. */
    | NoSendPm
    /** `str.format` refused a command's docstring. */
    | DescriptionRaised(formatError: FormatError)

  /** What `plugins` sends, and what it raised afterwards, if anything. */
  datatype Reply = Reply(sent: seq<Sent>, error: Option<InfoError>)

  /** Every loaded plugin is stored under its directory name, which its
      info repeats; the plugin manager keeps this (`Consistent`). */
  predicate Keyed(plugins: map<string, Plugin>, order: seq<string>) {
    (forall k :: k in order ==> k in plugins) &&
    forall k :: k in plugins ==> "dirname" in plugins[k].info && plugins[k].info["dirname"] == k
  }

  lemma ConsistentIsKeyed(plugins: map<string, Plugin>, order: seq<string>, ix: Indices)
    requires Consistent(plugins, order, ix)
    ensures Keyed(plugins, order)
  {
  }

  predicate HasName(p: Plugin, name: string) {
    "name" in p.info && p.info["name"] == name
  }

  /** The name the search compares with: the one asked for until a plugin
      matched, then the directory name of the plugin last matched. */
  function Searched(found: Option<string>, name: string): string {
    if found.Some? then found.value else name
  }

  /** The search loop of `plugins NAME` over the plugins in `order`. It
      does not stop at a match, and a match replaces the name searched for
      by the directory name of the plugin matched, with which the later
      plugins are compared. A plugin without a display name raises
      `KeyError`. */
  function Scan(plugins: map<string, Plugin>, order: seq<string>, name: string): (r: Result<Option<string>, InfoError>)
    requires Keyed(plugins, order)
    ensures r.Ok? && r.value.Some? ==> r.value.value in order
    ensures r.Err? ==> r.error == MissingKey("name")
    decreases |order|
  {
    if order == [] then Ok(None)
    else
      var prev := Scan(plugins, order[..|order| - 1], name);
      var info := plugins[order[|order| - 1]].info;
      if prev.Err? then prev
      else if "name" !in info then Err(MissingKey("name"))
      else if info["name"] == Searched(prev.value, name) then Ok(Some(info["dirname"]))
      else prev
  }

  /** One plugin of the search. */
  lemma ScanStep(plugins: map<string, Plugin>, order: seq<string>, name: string, i: int)
    requires Keyed(plugins, order) && 0 <= i < |order|
    ensures Keyed(plugins, order[..i]) && Keyed(plugins, order[..i + 1])
    ensures var prev := Scan(plugins, order[..i], name);
      var info := plugins[order[i]].info;
      Scan(plugins, order[..i + 1], name) ==
        if prev.Err? then prev
        else if "name" !in info then Err(MissingKey("name"))
        else if info["name"] == Searched(prev.value, name) then Ok(Some(order[i]))
        else prev
  {
    assert order[..i + 1][..i] == order[..i];
  }

  /** Once the search has raised, the rest of the plugins change nothing. */
  lemma {:induction false} ScanErrStays(plugins: map<string, Plugin>, order: seq<string>, name: string, i: int)
    requires Keyed(plugins, order) && 0 <= i <= |order|
    requires Keyed(plugins, order[..i]) && Scan(plugins, order[..i], name).Err?
    ensures Scan(plugins, order, name) == Scan(plugins, order[..i], name)
    decreases |order|
  {
    if i == |order| {
      assert order[..i] == order;
    } else {
      var init := order[..|order| - 1];
      assert init[..i] == order[..i];
      ScanErrStays(plugins, init, name, i);
    }
  }

  /** The search raises exactly when some plugin has no display name. */
  lemma {:induction false} ScanErr(plugins: map<string, Plugin>, order: seq<string>, name: string)
    requires Keyed(plugins, order)
    ensures Scan(plugins, order, name).Err? <==> exists i :: 0 <= i < |order| && "name" !in plugins[order[i]].info
    decreases |order|
  {
    if order != [] {
      var init := order[..|order| - 1];
      ScanErr(plugins, init, name);
      if exists i :: 0 <= i < |init| && "name" !in plugins[init[i]].info {
        var i :| 0 <= i < |init| && "name" !in plugins[init[i]].info;
        assert order[i] == init[i];
      }
      if exists i :: 0 <= i < |order| && "name" !in plugins[order[i]].info {
        var i :| 0 <= i < |order| && "name" !in plugins[order[i]].info;
        if i < |init| {
          assert init[i] == order[i];
        }
      }
    }
  }

  /** Nothing is found exactly when every plugin has a display name and
      none has the name asked for. */
  lemma {:induction false} ScanNone(plugins: map<string, Plugin>, order: seq<string>, name: string)
    requires Keyed(plugins, order)
    ensures Scan(plugins, order, name) == Ok(None) <==>
      forall i :: 0 <= i < |order| ==> "name" in plugins[order[i]].info && plugins[order[i]].info["name"] != name
    decreases |order|
  {
    if order != [] {
      var init := order[..|order| - 1];
      ScanNone(plugins, init, name);
      forall i | 0 <= i < |init| ensures init[i] == order[i] {
      }
    }
  }

  /** The first plugin with the display name is the one found when no
      later plugin has its directory name as display name. */
  lemma {:induction false} ScanFirstFound(plugins: map<string, Plugin>, order: seq<string>, name: string, i: int)
    requires Keyed(plugins, order) && 0 <= i < |order|
    requires forall j :: 0 <= j < i ==> "name" in plugins[order[j]].info && plugins[order[j]].info["name"] != name
    requires HasName(plugins[order[i]], name)
    requires forall j :: i < j < |order| ==> "name" in plugins[order[j]].info && plugins[order[j]].info["name"] != order[i]
    ensures Scan(plugins, order, name) == Ok(Some(order[i]))
    decreases |order|
  {
    var init := order[..|order| - 1];
    if i == |order| - 1 {
      ScanNone(plugins, init, name);
    } else {
      assert init[i] == order[i];
      ScanFirstFound(plugins, init, name, i);
    }
  }

  /** Of two plugins `a` and `b`, in that order, that both have the
      display name asked for, the first is the one described: after it
      matched, the search looks for `a`. */
  lemma ScanKeepsTheFirst(a: Plugin, b: Plugin)
    requires a.info == map["name" := "X", "dirname" := "a"] && b.info == map["name" := "X", "dirname" := "b"]
    ensures Scan(map["a" := a, "b" := b], ["a", "b"], "X") == Ok(Some("a"))
  {
    ScanFirstFound(map["a" := a, "b" := b], ["a", "b"], "X", 0);
  }

  /** A plugin whose display name is the directory name of the plugin
      matched before it is the one described. */
  lemma ScanFollowsTheNewName(a: Plugin, b: Plugin)
    requires a.info == map["name" := "X", "dirname" := "a"] && b.info == map["name" := "a", "dirname" := "b"]
    ensures Scan(map["a" := a, "b" := b], ["a", "b"], "X") == Ok(Some("b"))
  {
    var plugins := map["a" := a, "b" := b];
    ScanFirstFound(plugins, ["a", "b"][..1], "X", 0);
    ScanStep(plugins, ["a", "b"], "X", 1);
    assert ["a", "b"][..2] == ["a", "b"];
  }

  /** The search loop of `plugins NAME` over the loaded plugins. */
  method SearchByName(plugins: map<string, Plugin>, order: seq<string>, name: string) returns (r: Result<Option<string>, InfoError>)
    requires Keyed(plugins, order)
    ensures r == Scan(plugins, order, name)
  {
    var current := name;
    var gotPlugin := false;
    for i := 0 to |order|
      invariant Keyed(plugins, order[..i])
      invariant Scan(plugins, order[..i], name) == Ok(if gotPlugin then Some(current) else None)
      invariant !gotPlugin ==> current == name
    {
      ScanStep(plugins, order, name, i);
      var info := plugins[order[i]].info;
      if "name" !in info {
        ScanErrStays(plugins, order, name, i + 1);
        return Err(MissingKey("name"));
      }
      if info["name"] == current {
        current := info["dirname"];
        gotPlugin := true;
      }
    }
    assert order[..|order|] == order;
    r := Ok(if gotPlugin then Some(current) else None);
  }

  /** The plugin `plugins NAME` describes: NAME itself when it is a loaded
      directory name, otherwise what the search finds. */
  function Resolution(plugins: map<string, Plugin>, order: seq<string>, name: string): (r: Result<Option<string>, InfoError>)
    requires Keyed(plugins, order)
    ensures r.Ok? && r.value.Some? ==> r.value.value in plugins
    ensures name in plugins ==> r == Ok(Some(name))
    ensures name !in plugins ==> (r == Ok(None) <==>
      forall i :: 0 <= i < |order| ==> "name" in plugins[order[i]].info && plugins[order[i]].info["name"] != name)
  {
    ScanNone(plugins, order, name);
    if name in plugins then Ok(Some(name)) else Scan(plugins, order, name)
  }

  /** A part as the docstring loop writes it: every second part (counting
      from 0) between the fields `{c}` and `{n}`. */
  function RawPiece(i: nat, part: string): string {
    if i % 2 == 1 then "{c}" + Strip(ReplaceChar(part, '\n', ' ')) + "{n}" else Strip(ReplaceChar(part, '\n', ' '))
  }

  function RawPieces(parts: seq<string>): (r: seq<string>)
    ensures |r| == |parts|
  {
    if parts == [] then []
    else RawPieces(parts[..|parts| - 1]) + [RawPiece(|parts| - 1, parts[|parts| - 1])]
  }

  lemma RawPiecesStep(parts: seq<string>, i: int)
    requires 0 <= i < |parts|
    ensures RawPieces(parts[..i + 1]) == RawPieces(parts[..i]) + [RawPiece(i, parts[i])]
  {
    assert parts[..i + 1][..i] == parts[..i];
  }

  lemma {:induction false} RawPiecesAt(parts: seq<string>, i: int)
    requires 0 <= i < |parts|
    ensures RawPieces(parts)[i] == RawPiece(i, parts[i])
    decreases |parts|
  {
    if i < |parts| - 1 {
      RawPiecesAt(parts[..|parts| - 1], i);
    }
  }

  /** The text the docstring loop builds: every piece followed by ` - `. */
  function Template(parts: seq<string>): string {
    Terminated(RawPieces(parts), " - ")
  }

  /** The keyword arguments of the description's `format`: the default
      colour and `Format.normal()`. */
  function DescriptionVars(c: string): map<string, string> {
    map["c" := c, "n" := Normal]
  }

  /** `s[0:-3]`. */
  function DropLast3(s: string): (r: string)
    ensures |s| >= 3 ==> s == r + s[|s| - 3..]
    ensures |s| < 3 ==> r == ""
  {
    if |s| >= 3 then s[..|s| - 3] else ""
  }

  /** The description of a command: its docstring split at blank lines,
      the template of the parts formatted with the default colour text
      `c`, and its last three characters cut off, or the error `format`
      raised. */
  function Description(doc: string, c: string): Result<string, FormatError> {
    DescriptionOf(SplitOn(doc, "\n\n"), c)
  }

  function DescriptionOf(parts: seq<string>, c: string): Result<string, FormatError> {
    var f := Format(Template(parts), DescriptionVars(c));
    if f.Err? then Err(f.error) else Ok(DropLast3(f.value))
  }

  /** The description of every command, in order. */
  function Descriptions(docs: seq<CommandDoc>, c: string): (r: seq<Result<string, FormatError>>)
    ensures |r| == |docs|
  {
    seq(|docs|, i requires 0 <= i < |docs| => Description(docs[i].doc, c))
  }

  lemma Whole<T>(s: seq<T>)
    ensures s[..|s|] == s
  {
  }

  /** Every description was formatted. */
  predicate AllDescribed(descs: seq<Result<string, FormatError>>) {
    forall i :: 0 <= i < |descs| ==> descs[i].Ok?
  }

  /** A part of a docstring without braces as it is shown: odd-numbered
      parts in the default colour. */
  function Piece(i: nat, part: string, c: string): string {
    if i % 2 == 1 then c + Strip(ReplaceChar(part, '\n', ' ')) + Normal else Strip(ReplaceChar(part, '\n', ' '))
  }

  function Pieces(parts: seq<string>, c: string): (r: seq<string>)
    ensures |r| == |parts|
  {
    if parts == [] then []
    else Pieces(parts[..|parts| - 1], c) + [Piece(|parts| - 1, parts[|parts| - 1], c)]
  }

  lemma {:induction false} PiecesAt(parts: seq<string>, c: string, i: int)
    requires 0 <= i < |parts|
    ensures Pieces(parts, c)[i] == Piece(i, parts[i], c)
    decreases |parts|
  {
    if i < |parts| - 1 {
      PiecesAt(parts[..|parts| - 1], c, i);
    }
  }

  /** Trimming keeps a run of the characters. */
  lemma StripWithin(s: string, c: char)
    requires c !in s
    ensures c !in Strip(s)
  {
    var l := LStrip(s);
    assert l == s[|s| - |l|..];
    assert c !in l;
    assert RStrip(l) == l[..|RStrip(l)|];
  }

  lemma {:induction false} JoinWithin(parts: seq<string>, sep: string, c: char)
    requires c !in sep && forall i :: 0 <= i < |parts| ==> c !in parts[i]
    ensures c !in JoinWith(parts, sep)
    decreases |parts|
  {
    if |parts| > 1 {
      JoinWithin(parts[1..], sep, c);
    }
  }

  lemma {:induction false} TerminatedWithin(parts: seq<string>, sep: string, c: char)
    requires c !in sep && forall i :: 0 <= i < |parts| ==> c !in parts[i]
    ensures c !in Terminated(parts, sep)
    decreases |parts|
  {
    if parts != [] {
      TerminatedWithin(parts[..|parts| - 1], sep, c);
    }
  }

  /** Replacing newlines by spaces and trimming adds no character but
      spaces. */
  lemma TextWithin(part: string, c: char)
    requires c !in part && c != ' '
    ensures c !in Strip(ReplaceChar(part, '\n', ' '))
  {
    var replaced := ReplaceChar(part, '\n', ' ');
    forall j | 0 <= j < |replaced| ensures replaced[j] != c {
    }
    StripWithin(replaced, c);
  }

  /** Newlines replaced by spaces and trimmed leave none. */
  lemma TextOneLine(part: string)
    ensures '\n' !in Strip(ReplaceChar(part, '\n', ' '))
  {
    var replaced := ReplaceChar(part, '\n', ' ');
    forall j | 0 <= j < |replaced| ensures replaced[j] != '\n' {
    }
    StripWithin(replaced, '\n');
  }

  /** A colour code holds neither a newline nor a brace. */
  lemma ColorPlain(name: string)
    requires Color(name).Ok?
    ensures '\n' !in Color(name).value && NoBraces(Color(name).value)
  {
    var c := Color(name).value;
    assert IsDigit(c[1..][0]) && IsDigit(c[1..][1]);
    assert c == [c[0], c[1..][0], c[1..][1]];
  }

  /** A piece holds no newline. */
  lemma PieceOneLine(i: nat, part: string, c: string)
    requires '\n' !in c
    ensures '\n' !in Piece(i, part, c)
  {
    TextOneLine(part);
  }

  /** Odd-numbered parts, and only those, are shown in the default colour. */
  lemma DescriptionColours(doc: string, c: string, i: int)
    requires 0 <= i < |SplitOn(doc, "\n\n")|
    ensures var piece := Pieces(SplitOn(doc, "\n\n"), c)[i];
      var text := Strip(ReplaceChar(SplitOn(doc, "\n\n")[i], '\n', ' '));
      (i % 2 == 1 ==> piece == c + text + Normal) && (i % 2 == 0 ==> piece == text)
  {
    PiecesAt(SplitOn(doc, "\n\n"), c, i);
  }

  /** `c` and `n` are the two fields the description fills in. */
  lemma DescriptionFields(c: string, f: string)
    requires f == "c" || f == "n"
    ensures NoBraces(f) && BareField(f) && f != "" && !AllDigits(f) && f in DescriptionVars(c)
  {
    assert |f| == 1 && !IsDigit(f[0]) && f[0] !in Open + "!:.[";
  }

  /** `{n} - ` formats to the normal code and ` - `. */
  lemma FormatNormalEnd(c: string)
    ensures Format("{n} - ", DescriptionVars(c)) == Ok(Normal + " - ")
  {
    DescriptionFields(c, "n");
    FormatKnownField("n", " - ", DescriptionVars(c));
    FormatPlain(" - ", DescriptionVars(c));
    assert Open + "n" + Close + " - " == "{n} - ";
  }

  /** Brace-free text, then `{n} - `. */
  lemma FormatTextEnd(t: string, c: string)
    requires NoBraces(t)
    ensures Format(t + "{n} - ", DescriptionVars(c)) == Ok(t + Normal + " - ")
  {
    FormatPlain(t, DescriptionVars(c));
    FormatConcat(t, "{n} - ", DescriptionVars(c));
    FormatNormalEnd(c);
    assert t + (Normal + " - ") == t + Normal + " - ";
  }

  /** A coloured piece: `{c}`, brace-free text, `{n} - `. */
  lemma FormatColoured(t: string, c: string)
    requires NoBraces(t)
    ensures Format("{c}" + t + "{n}" + " - ", DescriptionVars(c)) == Ok(c + t + Normal + " - ")
  {
    DescriptionFields(c, "c");
    assert "{c}" + t + "{n}" + " - " == Open + "c" + Close + (t + "{n} - ");
    FormatKnownField("c", t + "{n} - ", DescriptionVars(c));
    FormatTextEnd(t, c);
    assert c + (t + Normal + " - ") == c + t + Normal + " - ";
  }

  /** A brace-free part followed by ` - ` formats to its piece. */
  lemma PieceFormat(i: nat, part: string, c: string)
    requires NoBraces(part)
    ensures Format(RawPiece(i, part) + " - ", DescriptionVars(c)) == Ok(Piece(i, part, c) + " - ")
  {
    var t := Strip(ReplaceChar(part, '\n', ' '));
    TextWithin(part, LBrace);
    TextWithin(part, RBrace);
    if i % 2 == 1 {
      FormatColoured(t, c);
    } else {
      FormatPlain(t + " - ", DescriptionVars(c));
    }
  }

  /** The template grows by one piece and ` - `. */
  lemma TemplateStep(parts: seq<string>)
    requires parts != []
    ensures Template(parts) == Template(parts[..|parts| - 1]) + (RawPiece(|parts| - 1, parts[|parts| - 1]) + " - ")
  {
    var n := |parts| - 1;
    assert parts[..n + 1] == parts;
    RawPiecesStep(parts, n);
    TerminatedStep(RawPieces(parts[..n]), RawPiece(n, parts[n]), " - ");
  }

  lemma TemplateNext(parts: seq<string>, i: int)
    requires 0 <= i < |parts|
    ensures Template(parts[..i + 1]) == Template(parts[..i]) + RawPiece(i, parts[i]) + " - "
  {
    RawPiecesStep(parts, i);
    TerminatedStep(RawPieces(parts[..i]), RawPiece(i, parts[i]), " - ");
  }

  /** The template of brace-free parts formats to their pieces, each
      followed by ` - `. */
  lemma {:induction false} TemplateFormat(parts: seq<string>, c: string)
    requires forall i :: 0 <= i < |parts| ==> NoBraces(parts[i])
    ensures Format(Template(parts), DescriptionVars(c)) == Ok(Terminated(Pieces(parts, c), " - "))
    decreases |parts|
  {
    if parts != [] {
      var n := |parts| - 1;
      var init := parts[..n];
      var piece := RawPiece(n, parts[n]) + " - ";
      var done := Terminated(Pieces(init, c), " - ");
      var shown := Piece(n, parts[n], c);
      TemplateFormat(init, c);
      TemplateStep(parts);
      PieceFormat(n, parts[n], c);
      FormatConcat(Template(init), piece, DescriptionVars(c));
      assert Format(Template(parts), DescriptionVars(c)) == Ok(done + (shown + " - "));
      TerminatedStep(Pieces(init, c), shown, " - ");
      assert done + (shown + " - ") == done + shown + " - ";
    }
  }

  /** A docstring without braces is described by its pieces joined with
      ` - `. */
  lemma DescriptionNoBraces(doc: string, c: string)
    requires NoBraces(doc)
    ensures Description(doc, c) == Ok(JoinWith(Pieces(SplitOn(doc, "\n\n"), c), " - "))
  {
    var parts := SplitOn(doc, "\n\n");
    JoinedParts(parts, "\n\n", LBrace);
    JoinedParts(parts, "\n\n", RBrace);
    DescriptionOfNoBraces(parts, c);
  }

  lemma DescriptionOfNoBraces(parts: seq<string>, c: string)
    requires parts != [] && forall i :: 0 <= i < |parts| ==> NoBraces(parts[i])
    ensures DescriptionOf(parts, c) == Ok(JoinWith(Pieces(parts, c), " - "))
  {
    TemplateFormat(parts, c);
    TerminatedJoin(Pieces(parts, c), " - ");
  }

  /** The template begins with the first part's text. */
  lemma TemplateFirst(parts: seq<string>)
    requires parts != []
    ensures Template(parts) == Strip(ReplaceChar(parts[0], '\n', ' ')) + (" - " + Terminated(RawPieces(parts)[1..], " - "))
  {
    RawPiecesAt(parts, 0);
    TerminatedHead(RawPieces(parts), " - ", Strip(ReplaceChar(parts[0], '\n', ' ')));
  }

  lemma TerminatedHead(raw: seq<string>, sep: string, x: string)
    requires raw != [] && raw[0] == x
    ensures Terminated(raw, sep) == x + (sep + Terminated(raw[1..], sep))
  {
    TerminatedFirst(raw, sep);
    assert x + sep + Terminated(raw[1..], sep) == x + (sep + Terminated(raw[1..], sep));
  }

  /** A name in braces in the first part that is neither `c` nor `n`
      raises `KeyError`. */
  lemma DescriptionOfUnknownField(parts: seq<string>, c: string, p: string, f: string, rest: string)
    requires parts != [] && Strip(ReplaceChar(parts[0], '\n', ' ')) == p + Open + f + Close + rest
    requires NoBraces(p) && NoBraces(f) && BareField(f) && f != "" && !AllDigits(f) && f != "c" && f != "n"
    ensures DescriptionOf(parts, c) == Err(KeyError(f))
  {
    TemplateFirst(parts);
    UnknownFieldFirst(Template(parts), p, f, rest, " - " + Terminated(RawPieces(parts)[1..], " - "), c);
  }

  lemma UnknownFieldFirst(t: string, p: string, f: string, rest: string, after: string, c: string)
    requires t == p + Open + f + Close + rest + after
    requires NoBraces(p) && NoBraces(f) && BareField(f) && f != "" && !AllDigits(f) && f != "c" && f != "n"
    ensures Format(t, DescriptionVars(c)) == Err(KeyError(f))
  {
    var head := p + Open + f + Close;
    assert t == head + (rest + after);
    assert f !in DescriptionVars(c);
    FormatUnknownField(p, f, rest + after, DescriptionVars(c));
  }

  /** A single closing brace in the first part raises `ValueError`. */
  lemma DescriptionOfLoneBrace(parts: seq<string>, c: string, p: string, rest: string)
    requires parts != [] && Strip(ReplaceChar(parts[0], '\n', ' ')) == p + Close + rest
    requires NoBraces(p) && (rest == [] || rest[0] != RBrace)
    ensures DescriptionOf(parts, c) == Err(ValueError)
  {
    TemplateFirst(parts);
    LoneBraceFirst(Template(parts), p, rest, " - " + Terminated(RawPieces(parts)[1..], " - "), c);
  }

  lemma LoneBraceFirst(t: string, p: string, rest: string, after: string, c: string)
    requires t == p + Close + rest + after && after != [] && after[0] == ' '
    requires NoBraces(p) && (rest == [] || rest[0] != RBrace)
    ensures Format(t, DescriptionVars(c)) == Err(ValueError)
  {
    var head := p + Close;
    assert t == head + (rest + after);
    if rest == [] {
      assert (rest + after)[0] == ' ';
    } else {
      assert (rest + after)[0] == rest[0];
    }
    FormatLoneClose(p, rest + after, DescriptionVars(c));
  }

  /** Newlines of the docstring become spaces: a description is one line. */
  lemma DescriptionOneLine(parts: seq<string>, c: string)
    requires '\n' !in c && DescriptionOf(parts, c).Ok?
    ensures '\n' !in DescriptionOf(parts, c).value
  {
    TemplateOneLine(parts);
    FormatKeepsOut(Template(parts), DescriptionVars(c), '\n');
    DropLast3Within(Format(Template(parts), DescriptionVars(c)).value, '\n');
  }

  lemma FieldsOneLine()
    ensures '\n' !in "{c}" && '\n' !in "{n}" && '\n' !in " - "
  {
    assert "{c}" == [LBrace, 'c', RBrace] && "{n}" == [LBrace, 'n', RBrace] && " - " == [' ', '-', ' '];
  }

  lemma TemplateOneLine(parts: seq<string>)
    ensures '\n' !in Template(parts)
  {
    var raw := RawPieces(parts);
    forall i | 0 <= i < |raw| ensures '\n' !in raw[i] {
      RawPiecesAt(parts, i);
      TextOneLine(parts[i]);
      var t := Strip(ReplaceChar(parts[i], '\n', ' '));
      if i % 2 == 1 {
        assert raw[i] == "{c}" + t + "{n}";
        FieldsOneLine();
      }
    }
    FieldsOneLine();
    TerminatedWithin(raw, " - ", '\n');
  }

  lemma DropLast3Within(s: string, x: char)
    requires x !in s
    ensures x !in DropLast3(s)
  {
    if |s| >= 3 {
      assert forall j :: 0 <= j < |s| - 3 ==> s[..|s| - 3][j] == s[j];
    }
  }

  /** A command line of the description: command name in dark red after
      the command prefix, then the text. */
  function CommandLine(prefix: string, name: string, text: string): string {
    Color("darkred").value + prefix + name + Normal + " - " + text
  }

  function AliasLines(prefix: string, first: string, aliases: seq<string>, lang: Lang): (r: seq<Sent>)
    ensures |r| == |aliases|
  {
    if aliases == [] then []
    else
      var line := CommandLine(prefix, aliases[|aliases| - 1], lang("alias_for", map["alias" := first]));
      AliasLines(prefix, first, aliases[..|aliases| - 1], lang) + [UserPm(line)]
  }

  lemma AliasLinesStep(prefix: string, first: string, aliases: seq<string>, lang: Lang, i: int)
    requires 0 <= i < |aliases|
    ensures AliasLines(prefix, first, aliases[..i + 1], lang) == AliasLines(prefix, first, aliases[..i], lang) +
      [UserPm(CommandLine(prefix, aliases[i], lang("alias_for", map["alias" := first])))]
  {
    assert aliases[..i + 1][..i] == aliases[..i];
  }

  /** Every other name of a command is announced as an alias of the first. */
  lemma {:induction false} AliasLinesAt(prefix: string, first: string, aliases: seq<string>, lang: Lang, i: int)
    requires 0 <= i < |aliases|
    ensures AliasLines(prefix, first, aliases, lang)[i] ==
      UserPm(CommandLine(prefix, aliases[i], lang("alias_for", map["alias" := first])))
    decreases |aliases|
  {
    if i < |aliases| - 1 {
      AliasLinesAt(prefix, first, aliases[..|aliases| - 1], lang, i);
    }
  }

  /** The lines describing one command: the command with its description,
      then its aliases; nothing when the description raised. */
  function DocLines(d: CommandDoc, desc: Result<string, FormatError>, prefix: string, lang: Lang): (r: Result<seq<Sent>, FormatError>)
    ensures r.Err? <==> desc.Err?
    ensures r.Err? ==> r.error == desc.error
    ensures r.Ok? ==> (|r.value| == 1 + |d.aliases| && r.value[0] == UserPm(CommandLine(prefix, d.first, desc.value)))
  {
    if desc.Err? then Err(desc.error)
    else Ok([UserPm(CommandLine(prefix, d.first, desc.value))] + AliasLines(prefix, d.first, d.aliases, lang))
  }

  /** The lines of every command, in order, up to the first whose
      description raised; `descs` holds the commands' descriptions. */
  function CommandsLines(docs: seq<CommandDoc>, descs: seq<Result<string, FormatError>>, prefix: string, lang: Lang): (r: Reply)
    requires |descs| == |docs|
    ensures docs == [] ==> r == Reply([], None)
    ensures r.error.None? || r.error.value.DescriptionRaised?
  {
    if docs == [] then Reply([], None)
    else
      var n := |docs| - 1;
      var prev := CommandsLines(docs[..n], descs[..n], prefix, lang);
      var lines := DocLines(docs[n], descs[n], prefix, lang);
      if prev.error.Some? then prev
      else if lines.Err? then Reply(prev.sent, Some(DescriptionRaised(lines.error)))
      else Reply(prev.sent + lines.value, None)
  }

  lemma CommandsLinesStep(docs: seq<CommandDoc>, descs: seq<Result<string, FormatError>>, d: CommandDoc,
                          desc: Result<string, FormatError>, prefix: string, lang: Lang)
    requires |descs| == |docs|
    ensures var prev := CommandsLines(docs, descs, prefix, lang);
      var lines := DocLines(d, desc, prefix, lang);
      CommandsLines(docs + [d], descs + [desc], prefix, lang) ==
        if prev.error.Some? then prev
        else if lines.Err? then Reply(prev.sent, Some(DescriptionRaised(lines.error)))
        else Reply(prev.sent + lines.value, None)
  {
    assert (docs + [d])[..|docs|] == docs;
    assert (descs + [desc])[..|descs|] == descs;
  }

  /** The lines of the first `i + 1` commands. */
  lemma CommandsLinesNext(docs: seq<CommandDoc>, descs: seq<Result<string, FormatError>>, prefix: string, lang: Lang, i: int)
    requires |descs| == |docs| && 0 <= i < |docs|
    ensures var prev := CommandsLines(docs[..i], descs[..i], prefix, lang);
      var lines := DocLines(docs[i], descs[i], prefix, lang);
      CommandsLines(docs[..i + 1], descs[..i + 1], prefix, lang) ==
        if prev.error.Some? then prev
        else if lines.Err? then Reply(prev.sent, Some(DescriptionRaised(lines.error)))
        else Reply(prev.sent + lines.value, None)
  {
    assert docs[..i + 1] == docs[..i] + [docs[i]];
    assert descs[..i + 1] == descs[..i] + [descs[i]];
    CommandsLinesStep(docs[..i], descs[..i], docs[i], descs[i], prefix, lang);
  }

  /** Once a description has raised, the later commands send nothing. */
  lemma {:induction false} CommandsLinesStays(docs: seq<CommandDoc>, descs: seq<Result<string, FormatError>>,
                                              prefix: string, lang: Lang, i: int)
    requires |descs| == |docs| && 0 <= i <= |docs|
    requires CommandsLines(docs[..i], descs[..i], prefix, lang).error.Some?
    ensures CommandsLines(docs, descs, prefix, lang) == CommandsLines(docs[..i], descs[..i], prefix, lang)
    decreases |docs|
  {
    if i == |docs| {
      assert docs[..i] == docs && descs[..i] == descs;
    } else {
      var n := |docs| - 1;
      assert docs[..n][..i] == docs[..i] && descs[..n][..i] == descs[..i];
      CommandsLinesStays(docs[..n], descs[..n], prefix, lang, i);
    }
  }

  /** Every command is described exactly when every description formats. */
  lemma {:induction false} CommandsLinesOk(docs: seq<CommandDoc>, descs: seq<Result<string, FormatError>>,
                                           prefix: string, lang: Lang)
    requires |descs| == |docs|
    ensures CommandsLines(docs, descs, prefix, lang).error.None? <==> forall i :: 0 <= i < |descs| ==> descs[i].Ok?
    decreases |docs|
  {
    if docs != [] {
      var n := |docs| - 1;
      CommandsLinesOk(docs[..n], descs[..n], prefix, lang);
      forall i | 0 <= i < n ensures descs[..n][i] == descs[i] {
      }
    }
  }

  /** The first description that raised stops the list: the commands
      before it are sent, and it raises. */
  lemma {:induction false} CommandsLinesStop(docs: seq<CommandDoc>, descs: seq<Result<string, FormatError>>,
                                             prefix: string, lang: Lang, i: int)
    requires |descs| == |docs| && 0 <= i < |docs| && descs[i].Err?
    requires forall j :: 0 <= j < i ==> descs[j].Ok?
    ensures CommandsLines(docs, descs, prefix, lang) ==
      Reply(CommandsLines(docs[..i], descs[..i], prefix, lang).sent, Some(DescriptionRaised(descs[i].error)))
    decreases |docs|
  {
    var n := |docs| - 1;
    forall j | 0 <= j < n ensures descs[..n][j] == descs[j] {
    }
    if i == n {
      CommandsLinesOk(docs[..n], descs[..n], prefix, lang);
      assert docs[..i] == docs[..n] && descs[..i] == descs[..n];
    } else {
      assert docs[..n][..i] == docs[..i] && descs[..n][..i] == descs[..i];
      CommandsLinesStop(docs[..n], descs[..n], prefix, lang, i);
    }
  }

  /** Every command described contributes one line per name it answers to. */
  lemma {:induction false} CommandsLinesCount(docs: seq<CommandDoc>, descs: seq<Result<string, FormatError>>,
                                              prefix: string, lang: Lang)
    requires |descs| == |docs| && CommandsLines(docs, descs, prefix, lang).error.None?
    ensures |CommandsLines(docs, descs, prefix, lang).sent| == Names(docs)
    decreases |docs|
  {
    if docs != [] {
      var n := |docs| - 1;
      CommandsLinesCount(docs[..n], descs[..n], prefix, lang);
    }
  }

  function Names(docs: seq<CommandDoc>): nat {
    if docs == [] then 0 else Names(docs[..|docs| - 1]) + 1 + |docs[|docs| - 1].aliases|
  }

  /** The command handlers of a plugin, as the description reads them. */
  function Docs(fs: seq<Callback>, describe: Callback -> CommandDoc): (r: seq<CommandDoc>)
    ensures |r| == |fs|
  {
    if fs == [] then [] else Docs(fs[..|fs| - 1], describe) + [describe(fs[|fs| - 1])]
  }

  lemma DocsStep(fs: seq<Callback>, describe: Callback -> CommandDoc, i: int)
    requires 0 <= i < |fs|
    ensures Docs(fs[..i + 1], describe) == Docs(fs[..i], describe) + [describe(fs[i])]
  {
    assert fs[..i + 1][..i] == fs[..i];
  }

  lemma {:induction false} DocsAt(fs: seq<Callback>, describe: Callback -> CommandDoc, i: int)
    requires 0 <= i < |fs|
    ensures Docs(fs, describe)[i] == describe(fs[i])
    decreases |fs|
  {
    if i < |fs| - 1 {
      DocsAt(fs[..|fs| - 1], describe, i);
    }
  }

  /** The header line: default colour, bold, name and version, or the
      `KeyError` of the first of the two the info lacks. */
  function Header(p: Plugin, c: string): (r: Result<string, InfoError>)
    ensures r.Err? <==> "name" !in p.info || "version" !in p.info
    ensures r.Err? ==> r.error == MissingKey(if "name" !in p.info then "name" else "version")
    ensures r.Ok? ==> r.value == c + Bold + p.info["name"] + " " + p.info["version"]
  {
    if "name" !in p.info then Err(MissingKey("name"))
    else if "version" !in p.info then Err(MissingKey("version"))
    else Ok(c + Bold + p.info["name"] + " " + p.info["version"])
  }

  /** The header, then the description when the plugin has one. */
  function Intro(p: Plugin, header: string): (r: seq<Sent>)
    ensures |r| == if "description" in p.info then 2 else 1
    ensures r[0] == UserPm(header)
    ensures "description" in p.info ==> r[1] == UserPm(p.info["description"])
  {
    [UserPm(header)] + (if "description" in p.info then [UserPm(p.info["description"])] else [])
  }

  /** The command list: nothing for a plugin without commands, otherwise a
      title and the lines of every command. */
  function CommandList(docs: seq<CommandDoc>, descs: seq<Result<string, FormatError>>, prefix: string, lang: Lang): (r: Reply)
    requires |descs| == |docs|
    ensures docs == [] <==> r.sent == []
    ensures docs != [] ==> r.sent[0] == UserPm(Entry(lang, "plugin_commands"))
    ensures r.error.None? <==> AllDescribed(descs)
  {
    CommandsLinesOk(docs, descs, prefix, lang);
    if docs == [] then Reply([], None)
    else
      var lines := CommandsLines(docs, descs, prefix, lang);
      Reply([UserPm(Entry(lang, "plugin_commands"))] + lines.sent, lines.error)
  }

  /** What `plugins NAME` does for a found plugin. */
  function Describe(p: Plugin, color: string, prefix: string, lang: Lang, describe: Callback -> CommandDoc): (r: Reply)
    ensures Color(color).Err? ==> r == Reply([], Some(ColorRaised(Color(color).error)))
    ensures Color(color).Ok? && ("name" !in p.info || "version" !in p.info) ==>
      r == Reply([], Some(MissingKey(if "name" !in p.info then "name" else "version")))
    ensures r.error == Some(NoSendPm) <==>
      Color(color).Ok? && "name" in p.info && "version" in p.info && "authors" in p.info
    ensures r.error == Some(NoSendPm) ==> r.sent == Intro(p, Header(p, Color(color).value).value)
    ensures r.error.None? <==>
      Color(color).Ok? && "name" in p.info && "version" in p.info && "authors" !in p.info &&
      AllDescribed(Descriptions(Docs(Functions(p, TypeCommand), describe), Color(color).value))
  {
    var c := Color(color);
    if c.Err? then Reply([], Some(ColorRaised(c.error)))
    else
      var header := Header(p, c.value);
      if header.Err? then Reply([], Some(header.error))
      else if "authors" in p.info then Reply(Intro(p, header.value), Some(NoSendPm))
      else
        var docs := Docs(Functions(p, TypeCommand), describe);
        var list := CommandList(docs, Descriptions(docs, c.value), prefix, lang);
        Reply(Intro(p, header.value) + list.sent, list.error)
  }

  /** What the plugin list reads: the display names of the plugins in
      order, up to the first plugin without one, and whether every plugin
      had one. */
  datatype Listing = Listing(names: seq<string>, complete: bool)

  function Listed(plugins: map<string, Plugin>, order: seq<string>): (r: Listing)
    requires Keyed(plugins, order)
    ensures |r.names| <= |order|
    ensures forall i :: 0 <= i < |r.names| ==> HasName(plugins[order[i]], r.names[i])
    ensures r.complete <==> |r.names| == |order|
    ensures !r.complete ==> "name" !in plugins[order[|r.names|]].info
    ensures r.complete <==> forall i :: 0 <= i < |order| ==> "name" in plugins[order[i]].info
    decreases |order|
  {
    if order == [] then Listing([], true)
    else if "name" !in plugins[order[0]].info then Listing([], false)
    else
      assert forall i :: 1 <= i < |order| ==> order[i] == order[1..][i - 1];
      var rest := Listed(plugins, order[1..]);
      var names := [plugins[order[0]].info["name"]] + rest.names;
      assert forall i :: 1 <= i < |names| ==> names[i] == rest.names[i - 1];
      Listing(names, rest.complete)
  }

  /** The plugin list drops, changes and reorders no name, and every
      message but the last was sent because the buffer had passed 250
      characters. */
  lemma ListKeepsNames(plugins: map<string, Plugin>, order: seq<string>)
    requires Keyed(plugins, order) && Listed(plugins, order).complete && order != []
    ensures var names := Listed(plugins, order).names;
      JoinWith(Chunks(names, 250, []), ", ") == JoinWith(names, ", ")
    ensures var chunks := Chunks(Listed(plugins, order).names, 250, []);
      forall i :: 0 <= i < |chunks| - 1 ==> |chunks[i]| > 248
  {
    var names := Listed(plugins, order).names;
    assert [] + names == names;
    ChunksKeepNames(names, 250, []);
    forall i | 0 <= i < |Chunks(names, 250, [])| - 1 ensures |Chunks(names, 250, [])[i]| > 248 {
      ChunksFull(names, 250, [], i);
    }
  }

  class BotInfoPlugin {
    const manager: PluginManager
    /** The `default_color` and `command_prefix` settings. */
    const color: string
    const prefix: string
    const lang: Lang

    constructor (manager: PluginManager, color: string, prefix: string, lang: Lang)
      ensures this.manager == manager && this.color == color && this.prefix == prefix && this.lang == lang
    {
      this.manager := manager;
      this.color := color;
      this.prefix := prefix;
      this.lang := lang;
    }

    /** `plugins`: what it sends, and what it raised. */
    method Plugins(event: Event, describe: Callback -> CommandDoc) returns (error: Option<InfoError>)
      requires manager.Valid()
      modifies event
      ensures event.args == "" ==>
        var listing := Listed(manager.plugins, manager.order);
        (listing.complete ==>
          error.None? &&
          event.sent == old(event.sent) + ChannelPms(Chunks(listing.names, 250, [])) +
            [ChannelPm(Entry(lang, "plugin_information"))]) &&
        (!listing.complete ==>
          error == Some(MissingKey("name")) &&
          event.sent == old(event.sent) + ChannelPms(Flushed(listing.names, 250, [])))
      ensures event.args != "" ==>
        var found := Resolution(manager.plugins, manager.order, event.args);
        (found.Err? ==> error == Some(found.error) && event.sent == old(event.sent)) &&
        (found.Ok? && (found.value.None? || found.value.value == "") ==>
          error.None? && event.sent == old(event.sent) + [ChannelPm(Entry(lang, "plugin_not_found"))]) &&
        (found.Ok? && found.value.Some? && found.value.value != "" ==>
          var reply := Describe(manager.plugins[found.value.value], color, prefix, lang, describe);
          error == reply.error && event.sent == old(event.sent) + reply.sent)
    {
      ConsistentIsKeyed(manager.plugins, manager.order, manager.Index());
      if event.args == "" {
        var listing := Listed(manager.plugins, manager.order);
        if !listing.complete {
          // The loop raises at the plugin without a name, after sending
          // the full buffers of the names before it.
          var _, _ := event.AddNames(listing.names, 250);
          return Some(MissingKey("name"));
        }
        event.PmChunks(listing.names, 250);
        event.Send(ChannelPm(Entry(lang, "plugin_information")));
        return None;
      }
      var found := FindPlugin(event.args);
      if found.Err? {
        return Some(found.error);
      }
      if found.value.None? || found.value.value == "" {
        event.Send(ChannelPm(Entry(lang, "plugin_not_found")));
        return None;
      }
      error := DescribePlugin(event, manager.plugins[found.value.value], describe);
    }

    /** The search for the plugin named by the arguments. */
    method FindPlugin(args: string) returns (r: Result<Option<string>, InfoError>)
      requires manager.Valid()
      ensures r == Resolution(manager.plugins, manager.order, args)
    {
      ConsistentIsKeyed(manager.plugins, manager.order, manager.Index());
      var plugins := manager.plugins;
      if args in plugins {
        return Ok(Some(args));
      }
      r := SearchByName(plugins, manager.order, args);
    }

    /** The description of a found plugin. */
    method DescribePlugin(event: Event, p: Plugin, describe: Callback -> CommandDoc) returns (error: Option<InfoError>)
      modifies event
      ensures var reply := Describe(p, color, prefix, lang, describe);
        error == reply.error && event.sent == old(event.sent) + reply.sent
    {
      var c := Color(color);
      if c.Err? {
        return Some(ColorRaised(c.error));
      }
      var header := Header(p, c.value);
      if header.Err? {
        return Some(header.error);
      }
      event.Send(UserPm(header.value));
      if "description" in p.info {
        event.Send(UserPm(p.info["description"]));
      }
      assert event.sent == old(event.sent) + Intro(p, header.value);
      if "authors" in p.info {
        // The author line goes to `event.user.send_pm`, which raises.
        return Some(NoSendPm);
      }
      var functions := GetFunctionsForType(p, TypeCommand);
      error := SendCommandList(event, functions, describe, c.value);
      ghost var docs := Docs(functions, describe);
      Append3(old(event.sent), Intro(p, header.value), CommandList(docs, Descriptions(docs, c.value), prefix, lang).sent);
    }

    /** The title and the lines of every command, when there are commands. */
    method SendCommandList(event: Event, functions: seq<Callback>, describe: Callback -> CommandDoc, c: string)
      returns (error: Option<InfoError>)
      modifies event
      ensures var docs := Docs(functions, describe);
        var list := CommandList(docs, Descriptions(docs, c), prefix, lang);
        error == list.error && event.sent == old(event.sent) + list.sent
    {
      if functions == [] {
        return None;
      }
      var title := UserPm(Entry(lang, "plugin_commands"));
      event.Send(title);
      error := SendCommands(event, functions, describe, c);
      ghost var docs := Docs(functions, describe);
      Regroup(old(event.sent), title, CommandsLines(docs, Descriptions(docs, c), prefix, lang).sent);
    }

    /** One description line per command handler, then its aliases, until
        a description raises. */
    method SendCommands(event: Event, functions: seq<Callback>, describe: Callback -> CommandDoc, c: string)
      returns (error: Option<InfoError>)
      modifies event
      ensures var docs := Docs(functions, describe);
        var lines := CommandsLines(docs, Descriptions(docs, c), prefix, lang);
        error == lines.error && event.sent == old(event.sent) + lines.sent
    {
      ghost var docs := Docs(functions, describe);
      ghost var descs := Descriptions(docs, c);
      error := None;
      for i := 0 to |functions|
        invariant error.None? && CommandsLines(docs[..i], descs[..i], prefix, lang).error.None?
        invariant event.sent == old(event.sent) + CommandsLines(docs[..i], descs[..i], prefix, lang).sent
      {
        ghost var done := CommandsLines(docs[..i], descs[..i], prefix, lang).sent;
        var d := describe(functions[i]);
        DocsAt(functions, describe, i);
        CommandsLinesNext(docs, descs, prefix, lang, i);
        error := SendCommand(event, d, c, descs[i]);
        if error.Some? {
          ghost var lines := DocLines(docs[i], descs[i], prefix, lang);
          assert lines.Err? && error == Some(DescriptionRaised(lines.error));
          assert CommandsLines(docs[..i + 1], descs[..i + 1], prefix, lang) == Reply(done, error);
          CommandsLinesStays(docs, descs, prefix, lang, i + 1);
          assert CommandsLines(docs, descs, prefix, lang) == Reply(done, error);
          return;
        }
        Append3(old(event.sent), done, DocLines(d, descs[i], prefix, lang).value);
      }
      Whole(docs);
      Whole(descs);
    }

    /** The lines of one command handler. */
    method SendCommand(event: Event, d: CommandDoc, c: string, ghost desc: Result<string, FormatError>)
      returns (error: Option<InfoError>)
      requires desc == Description(d.doc, c)
      modifies event
      ensures var lines := DocLines(d, desc, prefix, lang);
        (lines.Err? ==> error == Some(DescriptionRaised(lines.error)) && event.sent == old(event.sent)) &&
        (lines.Ok? ==> error.None? && event.sent == old(event.sent) + lines.value)
    {
      var text := DescribeDoc(d.doc, c);
      if text.Err? {
        return Some(DescriptionRaised(text.error));
      }
      event.Send(UserPm(CommandLine(prefix, d.first, text.value)));
      SendAliases(event, d.first, d.aliases);
      Regroup(old(event.sent), UserPm(CommandLine(prefix, d.first, text.value)), AliasLines(prefix, d.first, d.aliases, lang));
      return None;
    }

    method SendAliases(event: Event, first: string, aliases: seq<string>)
      modifies event
      ensures event.sent == old(event.sent) + AliasLines(prefix, first, aliases, lang)
    {
      for i := 0 to |aliases|
        invariant event.sent == old(event.sent) + AliasLines(prefix, first, aliases[..i], lang)
      {
        AliasLinesStep(prefix, first, aliases, lang, i);
        ghost var done := AliasLines(prefix, first, aliases[..i], lang);
        var line := UserPm(CommandLine(prefix, aliases[i], lang("alias_for", map["alias" := first])));
        event.Send(line);
        Append3(old(event.sent), done, [line]);
      }
      assert aliases[..|aliases|] == aliases;
    }

    /** The docstring loop, then `format` with the default colour text `c`,
        and the last ` - ` cut off. */
    method DescribeDoc(doc: string, c: string) returns (desc: Result<string, FormatError>)
      ensures desc == Description(doc, c)
    {
      var template := DescribeParts(SplitOn(doc, "\n\n"));
      var formatted := Format(template, DescriptionVars(c));
      if formatted.Err? {
        return Err(formatted.error);
      }
      var s := formatted.value;
      desc := Ok(if |s| >= 3 then s[..|s| - 3] else "");
    }

    /** The docstring loop: every part followed by ` - `, odd-numbered
        ones between `{c}` and `{n}`. */
    method DescribeParts(parts: seq<string>) returns (desc: string)
      ensures desc == Template(parts)
    {
      desc := "";
      for i := 0 to |parts|
        invariant desc == Template(parts[..i])
      {
        desc := AddPiece(parts, i, desc);
      }
      assert parts[..|parts|] == parts;
    }

    /** One part of the docstring loop. */
    method AddPiece(parts: seq<string>, i: int, desc: string) returns (desc': string)
      requires 0 <= i < |parts| && desc == Template(parts[..i])
      ensures desc' == Template(parts[..i + 1])
    {
      desc' := desc;
      if i % 2 == 1 {
        desc' := desc' + "{c}";
      }
      var part := ReplaceChar(parts[i], '\n', ' ');
      desc' := desc' + Strip(part);
      if i % 2 == 1 {
        desc' := desc' + "{n}";
      }
      desc' := desc' + " - ";
      if i % 2 == 1 {
        assert desc' == desc + ("{c}" + Strip(part) + "{n}") + " - ";
      }
      TemplateNext(parts, i);
    }
  }
}
