/**
 * Language entries: an ini file holds one section per language, and an
 * entry is looked up in the configured language, else in `english`, else
 * in the first section loaded; a missing entry is shown as its key. The
 * entry is then formatted with the caller's arguments and the formatting
 * variables `c`, `b`, `u` and `n`, and stripped.
 */
module LanguageEntries {
  import opened Wrappers
  import opened Text
  import opened IrcFormat
  import opened IniConfig

  /** Why looking up an entry raised: the colour is an attribute of
      `Format` that is no number, or no section was ever loaded, so
      `languages_available[0]` raises `IndexError`. */
  datatype LanguageError = ColorFailed(error: ColorError) | NoLanguageLoaded

  /** The formatting variables every lookup adds, `c` being the code of
      the configured colour. */
  function Formatting(c: string): (r: map<string, string>)
    ensures r.Keys == {"c", "b", "u", "n"}
    ensures r["c"] == c && r["b"] == Bold && r["u"] == Underline && r["n"] == Normal
  {
    map["c" := c, "b" := Bold, "u" := Underline, "n" := Normal]
  }

  /** The section an entry is taken from, or `None` when the key itself is
      the answer. */
  function Source(p: ConfigParser, language: string, available: seq<string>, key: string): (r: Result<Option<string>, LanguageError>)
    ensures r.Ok? && r.value.Some? ==> HasOption(p, r.value.value, key)
  {
    if HasSection(p, language) then Ok(if HasOption(p, language, key) then Some(language) else None)
    else if HasSection(p, "english") then Ok(if HasOption(p, "english", key) then Some("english") else None)
    else if available == [] then Err(NoLanguageLoaded)
    else Ok(if HasOption(p, available[0], key) then Some(available[0]) else None)
  }

  /** The text `__call__` returns, `render` being `str.format` with the
      positional arguments and the variables. */
  function Translate(p: ConfigParser, language: string, available: seq<string>, key: string,
                     args: seq<string>, vars: map<string, string>,
                     render: (string, seq<string>, map<string, string>) -> string): (r: Result<string, LanguageError>)
    ensures r.Err? <==> !HasSection(p, language) && !HasSection(p, "english") && available == []
    ensures r.Err? ==> r.error == NoLanguageLoaded
    ensures Source(p, language, available, key) == Ok(None) ==> r == Ok(key)
  {
    match Source(p, language, available, key)
    case Err(e) => Err(e)
    case Ok(None) => Ok(key)
    case Ok(Some(section)) => Ok(Strip(render(Get(p, section, key), args, vars)))
  }

  /** When the configured language has a section, the answer comes from it
      or is the key: there is no fallback to english. */
  lemma NoFallbackFromLanguage(p: ConfigParser, language: string, available: seq<string>, key: string,
                               args: seq<string>, vars: map<string, string>,
                               render: (string, seq<string>, map<string, string>) -> string)
    requires HasSection(p, language)
    ensures HasOption(p, language, key) ==>
      Translate(p, language, available, key, args, vars, render) == Ok(Strip(render(Get(p, language, key), args, vars)))
    ensures !HasOption(p, language, key) ==> Translate(p, language, available, key, args, vars, render) == Ok(key)
  {
  }

  /** Without the configured language, english is used when present, and
      otherwise the first section loaded. */
  lemma FallbackOrder(p: ConfigParser, language: string, available: seq<string>, key: string)
    requires !HasSection(p, language)
    ensures HasSection(p, "english") ==> Source(p, language, available, key) == Ok(if HasOption(p, "english", key) then Some("english") else None)
    ensures !HasSection(p, "english") && available != [] ==>
      Source(p, language, available, key) == Ok(if HasOption(p, available[0], key) then Some(available[0]) else None)
    ensures !HasSection(p, "english") && available == [] ==> Source(p, language, available, key) == Err(NoLanguageLoaded)
  {
  }

  /** A translated entry has no surrounding whitespace. */
  lemma TranslatedIsStripped(p: ConfigParser, language: string, available: seq<string>, key: string,
                             args: seq<string>, vars: map<string, string>,
                             render: (string, seq<string>, map<string, string>) -> string)
    requires Source(p, language, available, key).Ok? && Source(p, language, available, key).value.Some?
    ensures var r := Translate(p, language, available, key, args, vars, render);
      r.Ok? && (r.value == [] || (!IsSpace(r.value[0]) && !IsSpace(r.value[|r.value| - 1])))
  {
  }

  class Language {
    const language: string
    const color: string
    var parser: ConfigParser
    var languagesAvailable: seq<string>
    /** The variables handed to every `format` call; updated by each call. */
    var formatVars: map<string, string>

    /** A missing or empty colour means dark blue. */
    constructor (language: string, color: Option<string>, defaultFormatting: map<string, string>)
      ensures this.language == language
      ensures this.color == if color.Some? && color.value != "" then color.value else "darkblue"
      ensures parser == ConfigParser([], map[]) && languagesAvailable == [] && formatVars == defaultFormatting
    {
      this.language := language;
      this.color := if color.Some? && color.value != "" then color.value else "darkblue";
      parser := ConfigParser([], map[]);
      languagesAvailable := [];
      formatVars := defaultFormatting;
    }

    /** `load_language(file)`: the file's sections are read into the parser
        and the available languages become the parser's sections. */
    method LoadLanguage(file: seq<Section>)
      modifies this
      ensures parser == Read(old(parser), file)
      ensures languagesAvailable == parser.sections
      ensures formatVars == old(formatVars)
    {
      parser := Read(parser, file);
      languagesAvailable := parser.sections;
    }

    /** `__call__(key, *args, **kwargs)`: the colour code is computed
        first, and raises for a non-colour attribute of `Format`; then the
        caller's variables and the formatting variables are merged into
        `format_vars`, which keeps them, and the entry is looked up and
        formatted with them. */
    method Call(key: string, args: seq<string>, kwargs: map<string, string>,
                render: (string, seq<string>, map<string, string>) -> string) returns (r: Result<string, LanguageError>)
      modifies this
      ensures Color(color).Err? ==> r == Err(ColorFailed(Color(color).error)) && formatVars == old(formatVars)
      ensures Color(color).Ok? ==> formatVars == old(formatVars) + kwargs + Formatting(Color(color).value)
      ensures Color(color).Ok? ==> r == Translate(parser, language, languagesAvailable, key, args, formatVars, render)
      ensures parser == old(parser) && languagesAvailable == old(languagesAvailable)
    {
      var c := Color(color);
      if c.Err? {
        return Err(ColorFailed(c.error));
      }
      formatVars := formatVars + kwargs;
      formatVars := formatVars + Formatting(c.value);
      if HasSection(parser, language) {
        if HasOption(parser, language, key) {
          return Ok(Strip(render(Get(parser, language, key), args, formatVars)));
        }
      } else if HasSection(parser, "english") {
        if HasOption(parser, "english", key) {
          return Ok(Strip(render(Get(parser, "english", key), args, formatVars)));
        }
      } else {
        if |languagesAvailable| == 0 {
          return Err(NoLanguageLoaded);
        }
        if HasOption(parser, languagesAvailable[0], key) {
          return Ok(Strip(render(Get(parser, languagesAvailable[0], key), args, formatVars)));
        }
      }
      return Ok(key);
    }
  }

  /** The formatting variables win over caller arguments of the same name,
      and every other caller argument stays for later calls. */
  lemma FormattingWins(vars: map<string, string>, kwargs: map<string, string>, c: string, k: string)
    ensures var merged := vars + kwargs + Formatting(c);
      (k in Formatting(c) ==> merged[k] == Formatting(c)[k]) &&
      (k in kwargs && k !in Formatting(c) ==> merged[k] == kwargs[k]) &&
      (k in vars && k !in kwargs && k !in Formatting(c) ==> merged[k] == vars[k])
  {
  }

  /** A variable passed to one call is still there for the next call that
      does not pass it. */
  lemma VariablesPersist(vars: map<string, string>, first: map<string, string>, second: map<string, string>, c: string, k: string)
    requires k in first && k !in second && k !in {"c", "b", "u", "n"}
    ensures var after := vars + first + Formatting(c);
      var again := after + second + Formatting(c);
      k in again && again[k] == first[k]
  {
  }

  /** Loading files only adds languages: those available stay available,
      in their order. */
  lemma LoadKeepsLanguages(p: ConfigParser, file: seq<Section>, language: string)
    requires HasSection(p, language)
    ensures HasSection(Read(p, file), language)
  {
  }
}
