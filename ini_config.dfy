/**
 * What the configuration parser holds after reading ini files, and the
 * lookups the bot makes on it. Parsing the file text is not modelled: a
 * file is given as the sections it holds.
 */
module IniConfig {
  import opened Text

  /** What the ini parser holds: its sections in the order they were first
      read, and each section's options under their lower-cased names. */
  datatype ConfigParser = ConfigParser(sections: seq<string>, options: map<string, map<string, string>>)

  /** One section of an ini file as read: its name and its options. */
  datatype Section = Section(name: string, options: map<string, string>)

  predicate HasSection(p: ConfigParser, section: string) {
    section in p.sections
  }

  /** `has_option`: option names are compared in lower case. */
  function HasOption(p: ConfigParser, section: string, key: string): (r: bool)
    ensures r ==> HasSection(p, section) && section in p.options
  {
    section in p.sections && section in p.options && Lower(key) in p.options[section]
  }

  /** `get`: the value stored under the option's lower-cased name in
      that section. */
  function Get(p: ConfigParser, section: string, key: string): (r: string)
    requires HasOption(p, section, key)
    ensures r in p.options[section].Values
  {
    p.options[section][Lower(key)]
  }

  /** Option names are case-insensitive: two keys that agree in lower case
      are found or missed together and give the same value. */
  lemma GetIgnoresCase(p: ConfigParser, section: string, a: string, b: string)
    requires Lower(a) == Lower(b)
    ensures HasOption(p, section, a) <==> HasOption(p, section, b)
    ensures HasOption(p, section, a) ==> Get(p, section, a) == Get(p, section, b)
  {
  }

  /** `parser.read(file)`: the file's sections are added in order; a
      section read again keeps its place and gains the new options. */
  function Read(p: ConfigParser, file: seq<Section>): (r: ConfigParser)
    ensures forall s :: s in p.sections ==> s in r.sections
    ensures forall i :: 0 <= i < |file| ==> file[i].name in r.sections
    ensures |r.sections| >= |p.sections| && r.sections[..|p.sections|] == p.sections
    decreases |file|
  {
    if file == [] then p
    else
      var s := file[0];
      var sections := if s.name in p.sections then p.sections else p.sections + [s.name];
      var old_ := if s.name in p.options then p.options[s.name] else map[];
      var next := ConfigParser(sections, p.options[s.name := old_ + s.options]);
      var r := Read(next, file[1..]);
      assert r.sections[..|p.sections|] == r.sections[..|sections|][..|p.sections|];
      r
  }
}
