/**
 * The server list of the settings file: every section named `Server`
 * followed by digits, in any case, describes one IRC server, and its
 * options become that server's configuration.
 */
module ServerSections {
  import opened Text
  import opened IniConfig

  /** A match of `^Server(\d+)$` under `re.I`. */
  predicate IsServerSection(name: string) {
    |name| > 6 && Lower(name[..6]) == "server" && AllDigits(name[6..])
  }

  /** What `options(section)` and `get(section, option)` give together:
      every option of the section with its value. */
  function Options(p: ConfigParser, section: string): map<string, string> {
    if section in p.options then p.options[section] else map[]
  }

  /** The configuration of every server section among `sections`, in order. */
  function ServerConfigs(p: ConfigParser, sections: seq<string>): (r: seq<map<string, string>>)
    ensures |r| <= |sections|
  {
    if sections == [] then []
    else
      var first := if IsServerSection(sections[0]) then [Options(p, sections[0])] else [];
      first + ServerConfigs(p, sections[1..])
  }

  /** Filtering two runs of sections one after the other gives the two
      results one after the other: the section order is kept. */
  lemma {:induction false} ServerConfigsAppend(p: ConfigParser, a: seq<string>, b: seq<string>)
    ensures ServerConfigs(p, a + b) == ServerConfigs(p, a) + ServerConfigs(p, b)
    decreases |a|
  {
    if a == [] {
      assert a + b == b;
    } else {
      assert (a + b)[0] == a[0] && (a + b)[1..] == a[1..] + b;
      ServerConfigsAppend(p, a[1..], b);
    }
  }

  /** A configuration is in the result exactly when some server section
      among `sections` has those options. */
  lemma {:induction false} ServerConfigsMember(p: ConfigParser, sections: seq<string>, c: map<string, string>)
    ensures c in ServerConfigs(p, sections) <==>
      exists i :: 0 <= i < |sections| && IsServerSection(sections[i]) && c == Options(p, sections[i])
    decreases |sections|
  {
    if sections != [] {
      ServerConfigsMember(p, sections[1..], c);
      if c in ServerConfigs(p, sections[1..]) {
        var i :| 0 <= i < |sections[1..]| && IsServerSection(sections[1..][i]) && c == Options(p, sections[1..][i]);
        assert sections[i + 1] == sections[1..][i];
      }
      if exists i :: 0 <= i < |sections| && IsServerSection(sections[i]) && c == Options(p, sections[i]) {
        var i :| 0 <= i < |sections| && IsServerSection(sections[i]) && c == Options(p, sections[i]);
        if i > 0 {
          assert sections[1..][i - 1] == sections[i];
        }
      }
    }
  }

  /** Sections without the digits, such as `Bot` or a bare `Server`, and
      names with anything around them are not servers. */
  lemma NotServerSections()
    ensures !IsServerSection("Bot") && !IsServerSection("Server")
    ensures !IsServerSection("Server1a") && !IsServerSection("MyServer1")
  {
    assert "Server1a"[6..][1] == 'a';
    assert Lower("MyServer1"[..6])[0] == 'm';
  }

  /** The name is matched without regard to case. */
  lemma ServerSectionIgnoresCase()
    ensures IsServerSection("server12") && IsServerSection("SERVER1")
  {
    LowerServer();
    assert "server12"[..6] == "server" && AllDigits("server12"[6..]);
    assert "SERVER1"[..6] == "SERVER" && AllDigits("SERVER1"[6..]);
  }

  lemma LowerServer()
    ensures Lower("server") == "server" && Lower("SERVER") == "server"
  {
    var lower := "server";
    assert Lower(lower) == lower by {
      forall i | 0 <= i < 6 ensures Lower(lower)[i] == lower[i] {
      }
    }
    assert Lower("SERVER") == lower by {
      forall i | 0 <= i < 6 ensures Lower("SERVER")[i] == lower[i] {
      }
    }
  }

  /** The option-copying loop: `config[option] = get(section, option)` for
      every option of the section. */
  method CopyOptions(p: ConfigParser, section: string) returns (config: map<string, string>)
    ensures config == Options(p, section)
  {
    var options := Options(p, section);
    var left := options.Keys;
    config := map[];
    while left != {}
      invariant left <= options.Keys
      invariant config.Keys == options.Keys - left
      invariant forall k :: k in config ==> config[k] == options[k]
      decreases left
    {
      var option :| option in left;
      config := config[option := options[option]];
      left := left - {option};
    }
  }

  /** `get_servers()`: one configuration per server section, in section
      order. */
  method GetServers(p: ConfigParser) returns (servers: seq<map<string, string>>)
    ensures servers == ServerConfigs(p, p.sections)
  {
    servers := [];
    for i := 0 to |p.sections|
      invariant servers == ServerConfigs(p, p.sections[..i])
    {
      ServerConfigsAppend(p, p.sections[..i], [p.sections[i]]);
      assert p.sections[..i + 1] == p.sections[..i] + [p.sections[i]];
      if IsServerSection(p.sections[i]) {
        var config := CopyOptions(p, p.sections[i]);
        servers := servers + [config];
      }
    }
    assert p.sections[..|p.sections|] == p.sections;
  }
}
