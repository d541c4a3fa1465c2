/**
 * The query protocol of Source-engine game servers: a query is a datagram
 * that starts with four `\xFF` bytes and a type byte, and the server's
 * answer is parsed by its type byte — `A` carries a new challenge, `I`
 * the server information and `E` the server rules. An answer with header
 * -2 is split over several datagrams, which are put back together in the
 * order of their fragment numbers and parsed again.
 *
 * The datagrams a server sends are a queue the model is given
 * (`incoming`); the queries sent are recorded in order (`sent`).
 */
module SourceQuery {
  import opened Wrappers
  import opened Text
  import opened GamePackets

  /** The bytes of a text made of characters below 256. */
  function Latin1(s: string): (r: seq<Byte>)
    requires forall i :: 0 <= i < |s| ==> s[i] as int < 256
    ensures |r| == |s|
    ensures forall i :: 0 <= i < |s| ==> r[i] == s[i] as int
  {
    if s == [] then [] else [s[0] as int] + Latin1(s[1..])
  }

  const QueryHeader: seq<Byte> := [255, 255, 255, 255]
  const QueryChallenge: seq<Byte> := QueryHeader + [0x57]
  const QueryInfo: seq<Byte> := QueryHeader + [0x54] + Latin1("Source Engine Query")
  const QueryPlayers: seq<Byte> := QueryHeader + [0x55]
  const QueryRules: seq<Byte> := QueryHeader + [0x56]

  /** `get_query(type)` with the current challenge. */
  function GetQuery(kind: string, challenge: seq<Byte>): (r: seq<Byte>)
    ensures |r| >= 5 && r[..4] == QueryHeader
    ensures kind == "challenge" ==> r == QueryChallenge
    ensures kind == "players" ==> r == QueryPlayers + challenge
    ensures kind == "rules" ==> r == QueryRules + challenge
    ensures kind !in {"challenge", "players", "rules"} ==> r == QueryInfo
  {
    if kind == "challenge" then QueryChallenge
    else if kind == "info" then QueryInfo
    else if kind == "players" then QueryPlayers + challenge
    else if kind == "rules" then QueryRules + challenge
    else QueryInfo
  }

  /** The type byte tells the four queries apart. */
  lemma QueryTypeByte(kind: string, challenge: seq<Byte>)
    ensures var q := GetQuery(kind, challenge);
      |q| >= 5 &&
      (q[4] == 0x57 <==> kind == "challenge") &&
      (q[4] == 0x55 <==> kind == "players") &&
      (q[4] == 0x56 <==> kind == "rules") &&
      (q[4] == 0x54 <==> kind !in {"challenge", "players", "rules"})
  {
  }

  // ---------------------------------------------------------------------
  // `sort_dict`

  /** The smallest element of a non-empty set. */
  function Min(s: set<int>): (m: int)
    requires s != {}
    ensures m in s && forall x :: x in s ==> m <= x
  {
    HasMin(s);
    var m :| m in s && forall x :: x in s ==> m <= x;
    m
  }

  lemma HasMin(s: set<int>)
    requires s != {}
    ensures exists m :: m in s && forall x :: x in s ==> m <= x
    decreases s
  {
    if forall y :: y !in s {
      assert false;
    }
    var y :| y in s;
    if s != {y} {
      HasMin(s - {y});
      var m :| m in s - {y} && forall x :: x in s - {y} ==> m <= x;
      var least := if y < m then y else m;
      forall x | x in s
        ensures least <= x
      {
        if x != y {
          assert x in s - {y};
        }
      }
    } else {
      assert forall x :: x in s ==> y <= x;
    }
  }

  /** The keys of a dictionary, sorted. */
  function SortedKeys(s: set<int>): (r: seq<int>)
    ensures |r| == |s|
    ensures forall i :: 0 <= i < |r| ==> r[i] in s
    ensures forall i, j :: 0 <= i < j < |r| ==> r[i] < r[j]
    decreases s
  {
    if s == {} then []
    else
      var m := Min(s);
      [m] + SortedKeys(s - {m})
  }

  /** Every key is listed. */
  lemma {:induction false} SortedKeysComplete(s: set<int>, x: int)
    requires x in s
    ensures x in SortedKeys(s)
    decreases s
  {
    var m := Min(s);
    if x != m {
      SortedKeysComplete(s - {m}, x);
    }
  }

  /** `sort_dict(d)`: the values of `d` in ascending key order. */
  function SortDict<V>(d: map<int, V>): (r: seq<V>)
    ensures |r| == |d|
  {
    var keys := SortedKeys(d.Keys);
    seq(|keys|, i requires 0 <= i < |keys| => d[keys[i]])
  }

  /** Every value of the dictionary appears, and a value from a smaller key
      comes before one from a larger key. */
  lemma SortDictOrder<V>(d: map<int, V>, a: int, b: int)
    requires a in d && b in d && a < b
    ensures exists i, j :: 0 <= i < j < |SortDict(d)| && SortDict(d)[i] == d[a] && SortDict(d)[j] == d[b]
  {
    var keys := SortedKeys(d.Keys);
    SortedKeysComplete(d.Keys, a);
    SortedKeysComplete(d.Keys, b);
    var i :| 0 <= i < |keys| && keys[i] == a;
    var j :| 0 <= j < |keys| && keys[j] == b;
    assert SortDict(d)[i] == d[a] && SortDict(d)[j] == d[b];
  }

  /** `''.join(parts)`. */
  function Concat(parts: seq<seq<Byte>>): seq<Byte> {
    if parts == [] then [] else parts[0] + Concat(parts[1..])
  }

  /** A split answer of one fragment is that fragment. */
  lemma JoinSingle(key: int, body: seq<Byte>)
    ensures Concat(SortDict(map[key := body])) == body
  {
    assert SortedKeys({key}) == [key];
    assert SortDict(map[key := body]) == [body];
    assert body + [] == body;
  }

  // ---------------------------------------------------------------------
  // Reading the answers.

  /** Why parsing an answer raised, or which answers the model leaves
      out. */
  datatype QueryError =
    | PacketFailed(error: PacketError)  // a read ran past the packet
    | LastQueryTooShort                 // `last_query[4]` raised IndexError
    | NoReply                           // no datagram left to receive
    | Unsupported                       // unknown type byte: the `raise` of an unimported
                                        // GameserverException, itself a NameError
    | CompressedNotModelled             // a bz2-compressed split answer
    | PlayersNotModelled                // a `D` answer holds floats

  /** `packet_no & 0x0F`: how many fragments the answer has. */
  function FragmentCount(packetNo: int): int
    requires packetNo >= 0
  {
    packetNo % 16
  }

  /** `packet_no & 0xF0`: the number that orders a fragment. */
  function FragmentKey(packetNo: int): int
    requires packetNo >= 0
  {
    packetNo % 256 - packetNo % 16
  }

  /** What one fragment contributes, read from cursor `k`: its fragment
      number (the short at offset 8) and the bytes after its header. */
  function FragmentOf(data: seq<Byte>, k: int, compressed: bool): Result<(int, seq<Byte>), PacketError> {
    var no := ShortAt(data, Seek(data, k, 8));
    if no.value.Err? then Err(no.value.error)
    else if !compressed then Ok((FragmentKey(no.value.value), data[no.offset..]))
    else
      var size := IntAt(data, no.offset);
      if size.value.Err? then Err(size.value.error)
      else
        var crc := IntAt(data, size.offset);
        if crc.value.Err? then Err(crc.value.error)
        else Ok((FragmentKey(no.value.value), data[crc.offset..]))
  }

  /** The fragments after the first: each is the next datagram received.
      Returns the fragments by number and what is left to receive. */
  function Collect(incoming: seq<seq<Byte>>, count: int, compressed: bool, packets: map<int, seq<Byte>>)
    : (r: (Result<map<int, seq<Byte>>, QueryError>, seq<seq<Byte>>))
    ensures |r.1| <= |incoming|
    ensures r.0.Ok? && count > 0 ==> |r.1| == |incoming| - count
    decreases count
  {
    if count <= 0 then (Ok(packets), incoming)
    else if incoming == [] then (Err(NoReply), incoming)
    else
      match FragmentOf(incoming[0], 0, compressed)
      case Err(e) => (Err(PacketFailed(e)), incoming[1..])
      case Ok(f) => Collect(incoming[1..], count - 1, compressed, packets[f.0 := f.1])
  }

  /** The kinds of field an info answer holds. */
  datatype Field = OrdField | StringField | ShortField | ByteField

  /** The keys of the info dictionary; `Name()` is the key as the
      dictionary spells it. */
  datatype InfoKey =
    | Version | ServerName | MapName | GameDirectory | GameDescription | AppId | NumPlayers
    | MaxPlayers | BotPlayers | Dedicated | Os | Password | Secure | GameVersion
  {
    function Name(): string {
      match this
      case Version => "version"
      case ServerName => "server_name"
      case MapName => "map"
      case GameDirectory => "game_directory"
      case GameDescription => "game_description"
      case AppId => "appid"
      case NumPlayers => "num_players"
      case MaxPlayers => "max_players"
      case BotPlayers => "bot_players"
      case Dedicated => "dedicated"
      case Os => "os"
      case Password => "password"
      case Secure => "secure"
      case GameVersion => "gameversion"
    }
  }

  /** The fields of an info answer, in the order they are read. */
  const InfoLayout: seq<(InfoKey, Field)> := [
    (Version, OrdField), (ServerName, StringField), (MapName, StringField),
    (GameDirectory, StringField), (GameDescription, StringField), (AppId, ShortField),
    (NumPlayers, OrdField), (MaxPlayers, OrdField), (BotPlayers, OrdField),
    (Dedicated, ByteField), (Os, ByteField), (Password, OrdField), (Secure, OrdField),
    (GameVersion, StringField)]

  /** Reading one field from cursor `k`. */
  function FieldAt(data: seq<Byte>, k: int, f: Field): Read<Value> {
    match f
    case OrdField =>
      var r := OrdsFrom(data, k, 1);
      Read(if r.value.Ok? then Ok(Digits(r.value.value)) else Err(r.value.error), r.offset)
    case StringField =>
      var r := StringFrom(data, k);
      Read(if r.value.Ok? then Ok(Bytes(r.value.value)) else Err(r.value.error), r.offset)
    case ShortField =>
      var r := ShortAt(data, k);
      Read(if r.value.Ok? then Ok(Number(r.value.value)) else Err(r.value.error), r.offset)
    case ByteField => ByteAt(data, k, false)
  }

  /** The names a layout reads. */
  ghost function FieldNames(layout: seq<(InfoKey, Field)>): set<InfoKey> {
    set i | 0 <= i < |layout| :: layout[i].0
  }

  /** Reading the fields of `layout` one after the other into `info`. */
  function FieldsFrom(data: seq<Byte>, k: int, layout: seq<(InfoKey, Field)>, info: map<InfoKey, Value>)
    : (r: Result<map<InfoKey, Value>, PacketError>)
    ensures r.Ok? ==> r.value.Keys == info.Keys + FieldNames(layout)
    decreases |layout|
  {
    if layout == [] then Ok(info)
    else
      var v := FieldAt(data, k, layout[0].1);
      if v.value.Err? then Err(v.value.error)
      else
        var r := FieldsFrom(data, v.offset, layout[1..], info[layout[0].0 := v.value.value]);
        assert r.Ok? ==> r.value.Keys == info.Keys + FieldNames(layout) by {
          if r.Ok? {
            assert forall i :: 1 <= i < |layout| ==> layout[i] == layout[1..][i - 1];
            assert forall i :: 0 <= i < |layout| - 1 ==> layout[1..][i] == layout[i + 1];
          }
        }
        r
  }

  /** An info answer that could be read has all fourteen fields. */
  lemma InfoKeys(data: seq<Byte>, k: int)
    requires FieldsFrom(data, k, InfoLayout, map[]).Ok?
    ensures forall key: InfoKey :: key in FieldsFrom(data, k, InfoLayout, map[]).value
  {
    InfoLayoutNames();
  }

  lemma InfoLayoutNames()
    ensures forall key: InfoKey :: key in FieldNames(InfoLayout)
  {
    forall key: InfoKey ensures key in FieldNames(InfoLayout) {
      var i := match key
        case Version => 0 case ServerName => 1 case MapName => 2 case GameDirectory => 3
        case GameDescription => 4 case AppId => 5 case NumPlayers => 6 case MaxPlayers => 7
        case BotPlayers => 8 case Dedicated => 9 case Os => 10 case Password => 11
        case Secure => 12 case GameVersion => 13;
      assert InfoLayout[i].0 == key;
    }
  }

  /** The version is the first byte after the type byte, in decimal. */
  lemma InfoVersion(data: seq<Byte>, k: int)
    requires 0 <= k < |data|
    requires FieldsFrom(data, k, InfoLayout, map[]).Ok?
    ensures FieldsFrom(data, k, InfoLayout, map[]).value[Version] == Digits(NatToString(data[k]))
  {
    InfoLayoutDistinct();
    FieldsFirst(data, k, InfoLayout, map[]);
    OrdFieldAt(data, k);
  }

  lemma OrdFieldAt(data: seq<Byte>, k: int)
    requires 0 <= k < |data|
    ensures FieldAt(data, k, OrdField).value == Ok(Digits(NatToString(data[k])))
  {
    OrdsRead(data, k, 1);
    assert data[k..k + 1] == [data[k]];
    OrdOne(data[k]);
  }

  /** The server name is the string that follows the version byte. */
  lemma InfoServerName(data: seq<Byte>, k: int)
    requires 0 <= k < |data|
    requires FieldsFrom(data, k, InfoLayout, map[]).Ok?
    ensures FieldsFrom(data, k, InfoLayout, map[]).value[ServerName] == Bytes(StringFrom(data, k + 1).value.value)
  {
    OrdsRead(data, k, 1);
    var v := FieldAt(data, k, OrdField);
    assert v.offset == k + 1;
    InfoLayoutDistinct();
    FieldsStep(data, k, InfoLayout, map[]);
    var rest := InfoLayout[1..];
    assert forall i :: 1 <= i < |rest| ==> rest[i] == InfoLayout[i + 1];
    FieldsFirst(data, k + 1, rest, map[Version := v.value.value]);
  }

  lemma InfoLayoutDistinct()
    ensures forall i :: 1 <= i < |InfoLayout| ==> InfoLayout[i].0 != Version
    ensures forall i :: 2 <= i < |InfoLayout| ==> InfoLayout[i].0 != ServerName
  {
  }

  /** The first field of a layout whose name does not come again keeps the
      value read first. */
  lemma FieldsFirst(data: seq<Byte>, k: int, layout: seq<(InfoKey, Field)>, info: map<InfoKey, Value>)
    requires layout != [] && FieldsFrom(data, k, layout, info).Ok?
    requires forall i :: 1 <= i < |layout| ==> layout[i].0 != layout[0].0
    ensures var v := FieldAt(data, k, layout[0].1);
      v.value.Ok? && FieldsFrom(data, k, layout, info).value[layout[0].0] == v.value.value
  {
    var v := FieldAt(data, k, layout[0].1);
    assert forall i :: 0 <= i < |layout[1..]| ==> layout[1..][i] == layout[i + 1];
    FieldsKeep(data, v.offset, layout[1..], info[layout[0].0 := v.value.value], layout[0].0);
  }

  lemma OrdOne(b: Byte)
    ensures Ords([b]) == NatToString(b)
  {
    assert [b][1..] == [];
    assert NatToString(b) + [] == NatToString(b);
  }

  lemma FieldsStep(data: seq<Byte>, k: int, layout: seq<(InfoKey, Field)>, info: map<InfoKey, Value>)
    requires layout != []
    ensures var v := FieldAt(data, k, layout[0].1);
      FieldsFrom(data, k, layout, info) ==
        if v.value.Err? then Err(v.value.error)
        else FieldsFrom(data, v.offset, layout[1..], info[layout[0].0 := v.value.value])
  {
  }

  /** A field not read again keeps the value it had. */
  lemma {:induction false} FieldsKeep(data: seq<Byte>, k: int, layout: seq<(InfoKey, Field)>, info: map<InfoKey, Value>, key: InfoKey)
    requires key in info && forall i :: 0 <= i < |layout| ==> layout[i].0 != key
    requires FieldsFrom(data, k, layout, info).Ok?
    ensures key in FieldsFrom(data, k, layout, info).value && FieldsFrom(data, k, layout, info).value[key] == info[key]
    decreases |layout|
  {
    if layout != [] {
      var v := FieldAt(data, k, layout[0].1);
      assert forall i :: 0 <= i < |layout[1..]| ==> layout[1..][i] == layout[i + 1];
      FieldsKeep(data, v.offset, layout[1..], info[layout[0].0 := v.value.value], key);
    }
  }

  /** The name/value pairs of a rules answer, from cursor `k`, until an
      empty name. */
  function RulesFrom(data: seq<Byte>, k: int, rules: map<seq<Byte>, seq<Byte>>): Result<map<seq<Byte>, seq<Byte>>, PacketError>
    decreases |data| - k
  {
    var name := StringFrom(data, k);
    if name.value.Err? then Err(name.value.error)
    else if name.value.value == [] then Ok(rules)
    else
      var value := StringFrom(data, name.offset);
      if value.value.Err? then Err(value.value.error)
      else RulesFrom(data, value.offset, rules[name.value.value := value.value.value])
  }

  /** A rule written as name, NUL, value, NUL and followed by an empty name
      is added with that value. */
  lemma RulePair(data: seq<Byte>, k: int, name: seq<Byte>, value: seq<Byte>, rules: map<seq<Byte>, seq<Byte>>)
    requires 0 <= k && name != [] && 0 !in name && 0 !in value
    requires k + |name| + |value| + 3 <= |data|
    requires data[k..k + |name| + |value| + 3] == name + [0] + value + [0] + [0]
    ensures RulesFrom(data, k, rules) == Ok(rules[name := value])
  {
    RuleSlices(data, k, name, value);
    RuleRead(data, k, name, value, rules);
  }

  lemma RuleRead(data: seq<Byte>, k: int, name: seq<Byte>, value: seq<Byte>, rules: map<seq<Byte>, seq<Byte>>)
    requires 0 <= k && name != [] && 0 !in name && 0 !in value
    requires k + |name| + |value| + 3 <= |data|
    requires data[k..k + |name| + 1] == name + [0]
    requires data[k + |name| + 1..k + |name| + |value| + 2] == value + [0]
    requires data[k + |name| + |value| + 2] == 0
    ensures RulesFrom(data, k, rules) == Ok(rules[name := value])
  {
    var after := k + |name| + 1;
    NulFirst(data, k, name, name + [0]);
    NulFirst(data, after, value, value + [0]);
    EmptyAt(data, after + |value| + 1);
    assert RulesFrom(data, after + |value| + 1, rules[name := value]) == Ok(rules[name := value]);
  }

  lemma RuleSlices(data: seq<Byte>, k: int, name: seq<Byte>, value: seq<Byte>)
    requires 0 <= k && k + |name| + |value| + 3 <= |data|
    requires data[k..k + |name| + |value| + 3] == name + [0] + value + [0] + [0]
    ensures data[k..k + |name| + 1] == name + [0]
    ensures data[k + |name| + 1..k + |name| + |value| + 2] == value + [0]
    ensures data[k + |name| + |value| + 2] == 0
  {
    var d := data[k..k + |name| + |value| + 3];
    var head, mid := name + [0], value + [0];
    assert d == head + mid + [0];
    assert data[k..k + |name| + 1] == d[..|head|] == head;
    assert d[|head|..] == mid + [0];
    assert d[|head|..|head| + |mid|] == d[|head|..][..|mid|];
    assert data[k + |name| + 1..k + |name| + |value| + 2] == d[|head|..|head| + |mid|] == mid;
    assert data[k + |name| + |value| + 2] == d[|head| + |mid|];
  }

  lemma EmptyAt(data: seq<Byte>, k: int)
    requires 0 <= k < |data| && data[k] == 0
    ensures StringFrom(data, k).value == Ok([])
  {
    StringStopsAtNul(data, k);
  }

  /** Where the bytes at `k` start with `s` followed by a NUL and `s` holds
      none, `read_string` at `k` gives `s` and stops past that NUL. */
  lemma NulFirst(data: seq<Byte>, k: int, s: seq<Byte>, t: seq<Byte>)
    requires 0 <= k && 0 !in s && |s| < |t| && t[|s|] == 0 && t[..|s|] == s
    requires k + |t| <= |data| && data[k..k + |t|] == t
    ensures StringFrom(data, k) == Read(Ok(s), k + |s| + 1)
  {
    StringStopsAtNul(data, k);
    var r := StringFrom(data, k).value.value;
    assert data[k..k + |s|] == t[..|s|];
    assert forall i :: 0 <= i < |s| ==> data[k + i] == s[i];
    assert |r| == |s|;
  }

  /** Where the cursor is after `skip(amount)`. */
  function Skipped(data: seq<Byte>, k: int, amount: int): int {
    if |data| - 1 < k + amount then |data| - 1 else k + amount
  }

  // ---------------------------------------------------------------------
  // The protocol as a whole.

  /** What a protocol object holds: the challenge, the last query sent,
      the queries sent so far, the datagrams still to be received, and the
      server's info and rules. */
  datatype Session = Session(challenge: seq<Byte>, lastQuery: seq<Byte>, sent: seq<seq<Byte>>,
                             incoming: seq<seq<Byte>>, info: map<InfoKey, Value>,
                             rules: map<seq<Byte>, seq<Byte>>)

  /** A session after a call, and whether the call raised. */
  datatype Outcome = Outcome(session: Session, error: Option<QueryError>)

  /** `query(q)`: send `q`, receive the answer, remember `q` as the last
      query and parse the answer. */
  function QuerySpec(s: Session, q: seq<Byte>): Outcome
    decreases |s.incoming|, 0, 0
  {
    var s1 := s.(sent := s.sent + [q]);
    if s.incoming == [] then Outcome(s1, Some(NoReply))
    else ParseSpec(s1.(incoming := s.incoming[1..], lastQuery := q), s.incoming[0], 0)
  }

  /** `parse(packet)` on a packet with bytes `data` and cursor `k`. */
  function ParseSpec(s: Session, data: seq<Byte>, k: int): Outcome
    decreases |s.incoming|, |data|, 2
  {
    var header := IntAt(data, k);
    if header.value.Err? then Outcome(s, Some(PacketFailed(header.value.error)))
    else if header.value.value == -2 then SplitSpec(s, data, header.offset)
    else
      var kind := ByteAt(data, header.offset, false);
      if kind.value.Err? then Outcome(s, Some(PacketFailed(kind.value.error)))
      else if kind.value.value == Bytes([0x41]) then ChallengeSpec(s, data, kind.offset)
      else if kind.value.value == Bytes([0x49]) then
        match FieldsFrom(data, kind.offset, InfoLayout, map[])
        case Err(e) => Outcome(s, Some(PacketFailed(e)))
        case Ok(info) => Outcome(s.(info := info), None)
      else if kind.value.value == Bytes([0x44]) then Outcome(s, Some(PlayersNotModelled))
      else if kind.value.value == Bytes([0x45]) then
        match RulesFrom(data, Skipped(data, kind.offset, 2), map[])
        case Err(e) => Outcome(s, Some(PacketFailed(e)))
        case Ok(rules) => Outcome(s.(rules := rules), None)
      else Outcome(s, Some(Unsupported))
  }

  /** The challenge answer, the cursor `k` being after the type byte. */
  function ChallengeSpec(s: Session, data: seq<Byte>, k: int): Outcome
    decreases |s.incoming|, |data|, 1
  {
    var v := IntAt(data, k);
    if v.value.Err? then Outcome(s, Some(PacketFailed(v.value.error)))
    else
      IntDecodes(data, k);
      var s1 := s.(challenge := Pack32(v.value.value));
      if s.lastQuery == QueryChallenge then Outcome(s1, None)
      else if |s.lastQuery| < 5 then Outcome(s1, Some(LastQueryTooShort))
      else QuerySpec(s1, QueryHeader + [s.lastQuery[4]] + s1.challenge)
  }

  /** A split answer, the cursor `k` being after the header -2. */
  function SplitSpec(s: Session, data: seq<Byte>, k: int): Outcome
    requires k >= 0
    decreases |s.incoming|, |data|, 1
  {
    var id := IntAt(data, k);
    if id.value.Err? then Outcome(s, Some(PacketFailed(id.value.error)))
    else
      var compressed := id.value.value < 0;
      var no := ShortAt(data, id.offset);
      if no.value.Err? then Outcome(s, Some(PacketFailed(no.value.error)))
      else
        var count := FragmentCount(no.value.value);
        if count == 0 then
          if compressed then Outcome(s, Some(CompressedNotModelled))
          else ParseSpec(s, Concat(SortDict(map[])), 0)
        else
          match FragmentOf(data, no.offset, compressed)
          case Err(e) => Outcome(s, Some(PacketFailed(e)))
          case Ok(first) =>
            var (fragments, rest) := Collect(s.incoming, count - 1, compressed, map[first.0 := first.1]);
            match fragments
            case Err(e) => Outcome(s.(incoming := rest), Some(e))
            case Ok(packets) =>
              if compressed then Outcome(s.(incoming := rest), Some(CompressedNotModelled))
              else
                JoinSingle(first.0, first.1);
                ParseSpec(s.(incoming := rest), Concat(SortDict(packets)), 0)
  }

  /** A challenge answer to anything but a challenge request re-sends that
      request with the new challenge: a players or rules query is renewed
      as the same kind of query. */
  lemma ChallengeRenewsQuery(s: Session, data: seq<Byte>, k: int, kind: string)
    requires kind == "players" || kind == "rules"
    requires s.lastQuery == GetQuery(kind, s.challenge)
    requires 0 <= k && k + 4 <= |data|
    ensures ChallengeSpec(s, data, k) ==
      QuerySpec(s.(challenge := data[k..k + 4]), GetQuery(kind, data[k..k + 4]))
  {
    IntDecodes(data, k);
    assert s.lastQuery[4] == (if kind == "players" then 0x55 else 0x56);
    assert s.lastQuery != QueryChallenge by {
      assert s.lastQuery[4] != QueryChallenge[4];
    }
  }

  /** A challenge answer to a challenge request only stores the challenge. */
  lemma ChallengeStored(s: Session, data: seq<Byte>, k: int)
    requires s.lastQuery == QueryChallenge
    requires 0 <= k && k + 4 <= |data|
    ensures ChallengeSpec(s, data, k) == Outcome(s.(challenge := data[k..k + 4]), None)
  {
    IntDecodes(data, k);
  }

  /** An answer whose type byte is not one of `A`, `I`, `D`, `E` raises
      and changes nothing. */
  lemma UnknownTypeRejected(s: Session, data: seq<Byte>)
    requires 5 <= |data| && IntAt(data, 0).value != Ok(-2)
    requires data[4] !in {0x41, 0x49, 0x44, 0x45}
    ensures ParseSpec(s, data, 0) == Outcome(s, Some(Unsupported))
  {
    assert ByteAt(data, 4, false).value == Ok(Bytes([data[4]]));
  }

  /** The values of a dictionary with two keys, in key order. */
  lemma SortDictTwo<V>(a: int, x: V, b: int, y: V)
    requires a < b
    ensures SortDict(map[a := x, b := y]) == [x, y]
  {
    var keys := SortedKeys({a, b});
    assert keys[0] in {a, b} && keys[1] in {a, b} && keys[0] < keys[1];
    assert map[a := x, b := y].Keys == {a, b};
  }

  /** A split answer in two fragments is put back together in the order of
      the fragment numbers, whichever arrives first, and parsed again; of
      two fragments with the same number the later one is kept. */
  lemma SplitReassembles(s: Session, data: seq<Byte>)
    requires IntAt(data, 0).value == Ok(-2)
    requires IntAt(data, 4).value.Ok? && IntAt(data, 4).value.value >= 0
    requires ShortAt(data, 8).value.Ok? && FragmentCount(ShortAt(data, 8).value.value) == 2
    requires s.incoming != []
    requires FragmentOf(data, 10, false).Ok? && FragmentOf(s.incoming[0], 0, false).Ok?
    ensures var a := FragmentOf(data, 10, false).value;
      var b := FragmentOf(s.incoming[0], 0, false).value;
      ParseSpec(s, data, 0) ==
        ParseSpec(s.(incoming := s.incoming[1..]),
                  if a.0 == b.0 then b.1 else if a.0 < b.0 then a.1 + b.1 else b.1 + a.1, 0)
  {
    var a := FragmentOf(data, 10, false).value;
    var b := FragmentOf(s.incoming[0], 0, false).value;
    SplitTwo(s, data);
    JoinTwo(a.0, a.1, b.0, b.1);
  }

  lemma SplitTwo(s: Session, data: seq<Byte>)
    requires IntAt(data, 4).value.Ok? && IntAt(data, 4).value.value >= 0
    requires ShortAt(data, 8).value.Ok? && FragmentCount(ShortAt(data, 8).value.value) == 2
    requires s.incoming != []
    requires FragmentOf(data, 10, false).Ok? && FragmentOf(s.incoming[0], 0, false).Ok?
    ensures var a := FragmentOf(data, 10, false).value;
      var b := FragmentOf(s.incoming[0], 0, false).value;
      SplitSpec(s, data, 4) ==
        ParseSpec(s.(incoming := s.incoming[1..]), Concat(SortDict(map[a.0 := a.1][b.0 := b.1])), 0)
  {
    var a := FragmentOf(data, 10, false).value;
    var b := FragmentOf(s.incoming[0], 0, false).value;
    assert Collect(s.incoming, 1, false, map[a.0 := a.1]) == (Ok(map[a.0 := a.1][b.0 := b.1]), s.incoming[1..]);
  }

  lemma ConcatPair(a: seq<Byte>, b: seq<Byte>)
    ensures Concat([a, b]) == a + b
  {
    assert [a, b][1..] == [b];
    assert [b][1..] == [];
    assert Concat([b]) == b + Concat([]) == b;
  }

  /** Two fragments joined in the order of their numbers. */
  lemma JoinTwo(ka: int, a: seq<Byte>, kb: int, b: seq<Byte>)
    ensures Concat(SortDict(map[ka := a][kb := b])) ==
      if ka == kb then b else if ka < kb then a + b else b + a
  {
    var packets := map[ka := a][kb := b];
    if ka == kb {
      assert packets == map[kb := b];
      JoinSingle(kb, b);
    } else if ka < kb {
      SortDictTwo(ka, a, kb, b);
      ConcatPair(a, b);
    } else {
      assert packets == map[kb := b, ka := a];
      SortDictTwo(kb, b, ka, a);
      ConcatPair(b, a);
    }
  }

  /** A Source-engine protocol object; `info` and `rules` are what it
      stores on its server object. */
  class SourceProtocol {
    var challenge: seq<Byte>
    var lastQuery: seq<Byte>
    var sent: seq<seq<Byte>>
    var incoming: seq<seq<Byte>>
    var info: map<InfoKey, Value>
    var rules: map<seq<Byte>, seq<Byte>>

    function State(): Session
      reads this
    {
      Session(challenge, lastQuery, sent, incoming, info, rules)
    }

    /** `__init__`: nothing sent yet, and `start_protocol` sets the
        challenge. */
    constructor (incoming: seq<seq<Byte>>)
      ensures State() == Session(Pack32(-1), [], [], incoming, map[], map[])
    {
      challenge := [];
      lastQuery := [];
      sent := [];
      this.incoming := incoming;
      info := map[];
      rules := map[];
      new;
      StartProtocol();
    }

    /** `start_protocol()`: the challenge becomes the packing of -1. */
    method StartProtocol()
      modifies this
      ensures State() == old(State()).(challenge := Pack32(-1))
    {
      challenge := Pack32(-1);
    }

    /** `query(q)`. */
    method Query(q: seq<Byte>) returns (error: Option<QueryError>)
      modifies this
      ensures Outcome(State(), error) == QuerySpec(old(State()), q)
      decreases |incoming|, 0, 0
    {
      sent := sent + [q];
      if incoming == [] {
        return Some(NoReply);
      }
      var packet := new Packet(incoming[0]);
      incoming := incoming[1..];
      lastQuery := q;
      error := Parse(packet);
    }

    /** `parse(packet)`. */
    method Parse(p: Packet) returns (error: Option<QueryError>)
      modifies this, p
      ensures Outcome(State(), error) == ParseSpec(old(State()), p.data, old(p.offset))
      decreases |incoming|, |p.data|, 2
    {
      var header := p.ReadInt(-1);
      if header.Err? {
        return Some(PacketFailed(header.error));
      }
      if header.value == -2 {
        error := Split(p);
        return;
      }
      var kind := p.ReadByte(-1, false);
      if kind.Err? {
        return Some(PacketFailed(kind.error));
      }
      if kind.value == Bytes([0x41]) {
        error := Challenge(p);
      } else if kind.value == Bytes([0x49]) {
        var read := ReadInfo(p);
        if read.Err? {
          return Some(PacketFailed(read.error));
        }
        info := read.value;
        error := None;
      } else if kind.value == Bytes([0x44]) {
        error := Some(PlayersNotModelled);
      } else if kind.value == Bytes([0x45]) {
        p.Skip(2);
        var read := ReadRules(p);
        if read.Err? {
          return Some(PacketFailed(read.error));
        }
        rules := read.value;
        error := None;
      } else {
        error := Some(Unsupported);
      }
    }

    /** The challenge answer. */
    method Challenge(p: Packet) returns (error: Option<QueryError>)
      modifies this, p
      ensures Outcome(State(), error) == ChallengeSpec(old(State()), p.data, old(p.offset))
      decreases |incoming|, |p.data|, 1
    {
      ghost var k := p.offset;
      var v := p.ReadInt(-1);
      if v.Err? {
        return Some(PacketFailed(v.error));
      }
      IntDecodes(p.data, k);
      challenge := Pack32(v.value);
      if lastQuery == QueryChallenge {
        return None;
      }
      if |lastQuery| < 5 {
        return Some(LastQueryTooShort);
      }
      error := Query(QueryHeader + [lastQuery[4]] + challenge);
    }

    /** The split answer. */
    method Split(p: Packet) returns (error: Option<QueryError>)
      requires p.offset >= 0
      modifies this, p
      ensures Outcome(State(), error) == SplitSpec(old(State()), p.data, old(p.offset))
      decreases |incoming|, |p.data|, 1
    {
      var id := p.ReadInt(-1);
      if id.Err? {
        return Some(PacketFailed(id.error));
      }
      var compressed := id.value < 0;
      var no := p.ReadShort(-1);
      if no.Err? {
        return Some(PacketFailed(no.error));
      }
      var count := FragmentCount(no.value);
      ghost var at := p.offset;
      var packets := Fragments(p, compressed, count);
      if packets.Err? {
        return Some(packets.error);
      }
      if compressed {
        return Some(CompressedNotModelled);
      }
      if count == 1 && FragmentOf(p.data, at, false).Ok? {
        var first := FragmentOf(p.data, at, false).value;
        JoinSingle(first.0, first.1);
      }
      var joined := new Packet(Concat(SortDict(packets.value)));
      error := Parse(joined);
    }

    /** The loop over the fragments of a split answer: the first is the
        rest of `p`, every later one is the next datagram received. */
    method Fragments(p: Packet, compressed: bool, count: int) returns (packets: Result<map<int, seq<Byte>>, QueryError>)
      requires 0 <= count < 16
      modifies this, p
      ensures State() == old(State()).(incoming := incoming)
      ensures count == 0 ==> packets == Ok(map[]) && incoming == old(incoming)
      ensures count > 0 ==>
        var first := FragmentOf(p.data, old(p.offset), compressed);
        if first.Err? then packets == Err(PacketFailed(first.error)) && incoming == old(incoming)
        else (packets, incoming) == Collect(old(incoming), count - 1, compressed, map[first.value.0 := first.value.1])
    {
      ghost var s0 := State();
      ghost var k := p.offset;
      var found: map<int, seq<Byte>> := map[];
      var packet := p;
      var i := 0;
      while i < count
        invariant 0 <= i <= count
        invariant packet == p || fresh(packet)
        invariant State() == s0.(incoming := incoming)
        invariant i == 0 ==> found == map[] && incoming == s0.incoming && packet == p && p.offset == k
        invariant i > 0 ==> FragmentOf(p.data, k, compressed).Ok?
        invariant i > 0 ==>
          var first := FragmentOf(p.data, k, compressed).value;
          Collect(incoming, count - i, compressed, found) == Collect(s0.incoming, count - 1, compressed, map[first.0 := first.1])
        decreases count - i
      {
        if i != 0 {
          if incoming == [] {
            return Err(NoReply);
          }
          packet := new Packet(incoming[0]);
          incoming := incoming[1..];
        }
        var f := Fragment(packet, compressed);
        if f.Err? {
          return Err(PacketFailed(f.error));
        }
        found := found[f.value.0 := f.value.1];
        i := i + 1;
      }
      return Ok(found);
    }

    /** One fragment of a split answer. */
    static method Fragment(q: Packet, compressed: bool) returns (f: Result<(int, seq<Byte>), PacketError>)
      modifies q
      ensures f == FragmentOf(q.data, old(q.offset), compressed)
    {
      var no := q.ReadShort(8);
      if no.Err? {
        return Err(no.error);
      }
      if compressed {
        var size := q.ReadInt(-1);
        if size.Err? {
          return Err(size.error);
        }
        var crc := q.ReadInt(-1);
        if crc.Err? {
          return Err(crc.error);
        }
      }
      return Ok((FragmentKey(no.value), q.data[q.offset..]));
    }

    /** One field of the info answer. */
    static method ReadField(p: Packet, f: Field) returns (v: Result<Value, PacketError>)
      modifies p
      ensures var r := FieldAt(p.data, old(p.offset), f); v == r.value && p.offset == r.offset
    {
      match f
      case OrdField =>
        var r := p.ReadOrd(1, -1);
        v := if r.Ok? then Ok(Digits(r.value)) else Err(r.error);
      case StringField =>
        var r := p.ReadString(-1);
        v := if r.Ok? then Ok(Bytes(r.value)) else Err(r.error);
      case ShortField =>
        var r := p.ReadShort(-1);
        v := if r.Ok? then Ok(Number(r.value)) else Err(r.error);
      case ByteField =>
        v := p.ReadByte(-1, false);
    }

    /** The fields of the info answer, read in order. */
    static method ReadInfo(p: Packet) returns (r: Result<map<InfoKey, Value>, PacketError>)
      modifies p
      ensures r == FieldsFrom(p.data, old(p.offset), InfoLayout, map[])
    {
      ghost var start := p.offset;
      var fields := map[];
      for j := 0 to |InfoLayout|
        invariant FieldsFrom(p.data, p.offset, InfoLayout[j..], fields) == FieldsFrom(p.data, start, InfoLayout, map[])
      {
        assert InfoLayout[j..][1..] == InfoLayout[j + 1..];
        var v := ReadField(p, InfoLayout[j].1);
        if v.Err? {
          return Err(v.error);
        }
        fields := fields[InfoLayout[j].0 := v.value];
      }
      return Ok(fields);
    }

    /** The name/value pairs of the rules answer. */
    static method ReadRules(p: Packet) returns (r: Result<map<seq<Byte>, seq<Byte>>, PacketError>)
      modifies p
      ensures r == RulesFrom(p.data, old(p.offset), map[])
    {
      ghost var at := p.offset;
      var found := map[];
      var name := p.ReadString(-1);
      if name.Err? {
        return Err(name.error);
      }
      while name.value != []
        invariant name.Ok? && StringFrom(p.data, at) == Read(name, p.offset)
        invariant RulesFrom(p.data, at, found) == RulesFrom(p.data, old(p.offset), map[])
        decreases (if p.offset < |p.data| then |p.data| - p.offset else 0) + (if name.value != [] then 1 else 0)
      {
        var value := p.ReadString(-1);
        if value.Err? {
          return Err(value.error);
        }
        found := found[name.value := value.value];
        at := p.offset;
        name := p.ReadString(-1);
        if name.Err? {
          return Err(name.error);
        }
      }
      return Ok(found);
    }
  }
}
