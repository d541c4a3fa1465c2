/**
 * The connection to one IRC server: its settings, the outgoing line
 * writer and the receive buffer that cuts the incoming byte stream into
 * lines. The socket is not modelled: what the connection hands to it is
 * recorded in `transmitted`, what `recv()` returned is a parameter, and
 * every `emit_signal` call is recorded in `signals`, in order.
 */
module IrcConnection {
  import opened Wrappers
  import opened Text

  /** A value of the server's settings: text from the configuration file,
      or an integer once `connect` has converted the port. */
  datatype InfoValue = StrValue(s: string) | IntValue(i: int)

  /** `"%s" % v` */
  function Render(v: InfoValue): string {
    match v
    case StrValue(s) => s
    case IntValue(i) => IntToString(i)
  }

  /** Python truthiness of a setting. */
  predicate Truthy(v: InfoValue) {
    match v
    case StrValue(s) => s != ""
    case IntValue(i) => i != 0
  }

  /** The signals a connection emits. */
  datatype Signal = Connected | DataIn(line: string) | DataOut(line: string) | Closed

  const DefaultPort: int := 6667
  const DefaultNickname: string := "LuckyBot"

  /** The settings after `connect`: the port converted with `int()`, or the
      default port when it is missing or does not convert, and the default
      nickname when none is set. */
  function ConnectInfo(info: map<string, InfoValue>): (r: map<string, InfoValue>)
    ensures "port" in r && r["port"].IntValue?
    ensures "nickname" in r
    ensures forall k :: k in info ==> k in r
    ensures r.Keys == info.Keys + {"port", "nickname"}
    ensures forall k :: k in info && k != "port" ==> r[k] == info[k]
  {
    var withPort := info["port" := IntValue(PortOf(info))];
    if "nickname" in withPort then withPort else withPort["nickname" := StrValue(DefaultNickname)]
  }

  /** The port `connect` uses. */
  function PortOf(info: map<string, InfoValue>): int {
    if "port" !in info then DefaultPort
    else match info["port"]
      case IntValue(i) => i
      case StrValue(s) => (match ParseInt(s) case Some(n) => n case None => DefaultPort)
  }

  /** Connecting twice leaves the settings as connecting once did. */
  lemma ConnectInfoIdempotent(info: map<string, InfoValue>)
    ensures ConnectInfo(ConnectInfo(info)) == ConnectInfo(info)
  {
    var once := ConnectInfo(info);
    assert once["port"].IntValue?;
  }

  /** The port setting after `connect`: an integer port is kept, text that
      `int()` accepts is converted, anything else becomes 6667. */
  lemma ConnectPort(info: map<string, InfoValue>)
    ensures "port" !in info ==> ConnectInfo(info)["port"] == IntValue(DefaultPort)
    ensures "port" in info && info["port"].IntValue? ==> ConnectInfo(info)["port"] == info["port"]
    ensures "port" in info && info["port"].StrValue? ==>
      ConnectInfo(info)["port"] == IntValue(if ParseInt(info["port"].s).Some? then ParseInt(info["port"].s).value else DefaultPort)
    ensures "nickname" !in info ==> ConnectInfo(info)["nickname"] == StrValue(DefaultNickname)
  {
  }

  /** `buffer.find("\n")` cuts a line off the front of the buffer, newline
      included; `Lines` is every line `check_buffer` emits, in order, and
      `Rest` what stays in the buffer afterwards. */
  function Lines(s: string): (r: seq<string>)
    decreases |s|
  {
    var pos := Find(s, '\n');
    if pos == -1 then [] else [s[..pos + 1]] + Lines(s[pos + 1..])
  }

  function Rest(s: string): (r: string)
    decreases |s|
  {
    var pos := Find(s, '\n');
    if pos == -1 then s else Rest(s[pos + 1..])
  }

  function Concat(parts: seq<string>): string {
    if parts == [] then "" else parts[0] + Concat(parts[1..])
  }

  /** A complete line: it ends in a newline and holds no other. */
  predicate IsLine(line: string) {
    |line| > 0 && line[|line| - 1] == '\n' && '\n' !in line[..|line| - 1]
  }

  /** Nothing is lost or reordered: the lines and the rest give back the
      buffer. */
  lemma {:induction false} FrameRoundTrip(s: string)
    ensures Concat(Lines(s)) + Rest(s) == s
    decreases |s|
  {
    var pos := Find(s, '\n');
    if pos != -1 {
      var line, tail := s[..pos + 1], s[pos + 1..];
      FrameRoundTrip(tail);
      assert ([line] + Lines(tail))[1..] == Lines(tail);
      assert s == line + tail;
    }
  }

  /** Every emitted line is a complete line, and what stays in the buffer
      holds no newline. */
  lemma {:induction false} FrameLines(s: string)
    ensures forall i :: 0 <= i < |Lines(s)| ==> IsLine(Lines(s)[i])
    ensures '\n' !in Rest(s)
    decreases |s|
  {
    var pos := Find(s, '\n');
    if pos != -1 {
      var tail := s[pos + 1..];
      FrameLines(tail);
      var line := s[..pos + 1];
      assert line[..|line| - 1] == s[..pos];
      assert IsLine(line);
      assert Lines(s) == [line] + Lines(tail);
    }
  }

  /** The lines do not depend on how the stream is split into chunks: the
      lines of `a + b` are the lines of `a` followed by the lines of what
      `a` left in the buffer followed by `b`. */
  lemma {:induction false} FrameChunks(a: string, b: string)
    ensures Lines(a + b) == Lines(a) + Lines(Rest(a) + b)
    ensures Rest(a + b) == Rest(Rest(a) + b)
    decreases |a|
  {
    var pos := Find(a, '\n');
    if pos != -1 {
      var tail := a[pos + 1..];
      assert (a + b)[..pos] == a[..pos];
      FindFirst(a + b, '\n', pos);
      assert (a + b)[..pos + 1] == a[..pos + 1];
      assert (a + b)[pos + 1..] == tail + b;
      FrameChunks(tail, b);
    }
  }

  /** The first line is cut off the buffer, and the remaining lines and
      rest are those of what follows it. */
  lemma LinesStep(s: string, line: string, tail: string)
    requires Find(s, '\n') != -1 && line == s[..Find(s, '\n') + 1] && tail == s[Find(s, '\n') + 1..]
    ensures DataIns(Lines(s)) == [DataIn(line)] + DataIns(Lines(tail))
    ensures Rest(s) == Rest(tail)
  {
    assert Lines(s) == [line] + Lines(tail);
    assert ([line] + Lines(tail))[1..] == Lines(tail);
  }

  lemma SignalsRegroup(a: seq<Signal>, x: Signal, b: seq<Signal>)
    ensures (a + [x]) + b == a + ([x] + b)
  {
  }

  /** A buffer with no newline yields no line and stays as it is. */
  lemma NoNewlineNoLines(s: string)
    requires '\n' !in s
    ensures Lines(s) == [] && Rest(s) == s
  {
  }

  function DataIns(lines: seq<string>): (r: seq<Signal>)
    ensures |r| == |lines|
    ensures forall i :: 0 <= i < |lines| ==> r[i] == DataIn(lines[i])
  {
    if lines == [] then [] else [DataIn(lines[0])] + DataIns(lines[1..])
  }

  /** What `send` hands to the socket for each line: the line and a newline. */
  function Wire(lines: seq<string>): (r: seq<string>)
    ensures |r| == |lines|
  {
    if lines == [] then [] else [lines[0] + "\n"] + Wire(lines[1..])
  }

  /** The `data_out` signals `send` emits for each line: the line stripped. */
  function Outgoing(lines: seq<string>): (r: seq<Signal>)
    ensures |r| == |lines|
  {
    if lines == [] then [] else [DataOut(Strip(lines[0]))] + Outgoing(lines[1..])
  }

  lemma {:induction false} WireAppend(a: seq<string>, b: seq<string>)
    ensures Wire(a + b) == Wire(a) + Wire(b)
    ensures Outgoing(a + b) == Outgoing(a) + Outgoing(b)
  {
    WireAppendOnly(a, b);
    OutgoingAppend(a, b);
  }

  lemma {:induction false} WireAppendOnly(a: seq<string>, b: seq<string>)
    ensures Wire(a + b) == Wire(a) + Wire(b)
  {
    if a == [] {
      assert a + b == b;
    } else {
      assert (a + b)[1..] == a[1..] + b;
      WireAppendOnly(a[1..], b);
    }
  }

  lemma {:induction false} OutgoingAppend(a: seq<string>, b: seq<string>)
    ensures Outgoing(a + b) == Outgoing(a) + Outgoing(b)
  {
    if a == [] {
      assert a + b == b;
    } else {
      assert (a + b)[0] == a[0];
      assert (a + b)[1..] == a[1..] + b;
      OutgoingAppend(a[1..], b);
    }
  }

  /** Sending the line after `lines[..i]` extends what was sent to
      `lines[..i + 1]`. */
  lemma WireStep(base: seq<string>, lines: seq<string>, i: nat, before: seq<string>, after: seq<string>)
    requires i < |lines|
    requires before == base + Wire(lines[..i])
    requires after == before + Wire([lines[i]])
    ensures after == base + Wire(lines[..i + 1])
  {
    assert lines[..i + 1] == lines[..i] + [lines[i]];
    WireAppend(lines[..i], [lines[i]]);
  }

  lemma OutgoingStep(base: seq<Signal>, lines: seq<string>, i: nat, before: seq<Signal>, after: seq<Signal>)
    requires i < |lines|
    requires before == base + Outgoing(lines[..i])
    requires after == before + Outgoing([lines[i]])
    ensures after == base + Outgoing(lines[..i + 1])
  {
    OutgoingSnoc(lines, i);
    SignalsAssoc(base, Outgoing(lines[..i]), Outgoing([lines[i]]));
  }

  lemma OutgoingSnoc(lines: seq<string>, i: nat)
    requires i < |lines|
    ensures Outgoing(lines[..i + 1]) == Outgoing(lines[..i]) + Outgoing([lines[i]])
  {
    assert lines[..i + 1] == lines[..i] + [lines[i]];
    OutgoingAppend(lines[..i], [lines[i]]);
  }

  lemma SignalsAssoc(a: seq<Signal>, b: seq<Signal>, c: seq<Signal>)
    ensures (a + b) + c == a + (b + c)
  {
  }

  /** Sending `a` and then `b` sends `a + b`. */
  lemma WireThen(base: seq<string>, a: seq<string>, b: seq<string>, mid: seq<string>, after: seq<string>)
    requires mid == base + Wire(a) && after == mid + Wire(b)
    ensures after == base + Wire(a + b)
  {
    WireAppend(a, b);
  }

  lemma OutgoingThen(base: seq<Signal>, a: seq<string>, b: seq<string>, mid: seq<Signal>, after: seq<Signal>)
    requires mid == base + Outgoing(a) && after == mid + Outgoing(b)
    ensures after == base + Outgoing(a + b)
  {
    WireAppend(a, b);
  }

  class IrcServerConnection {
    /** The server section of the configuration, as given to the constructor. */
    var info: map<string, InfoValue>
    /** Received text that does not yet form a complete line. */
    var buffer: string
    /** Everything handed to the socket's `send`, in order. */
    var transmitted: seq<string>
    /** Every address handed to the socket's `open`, in order. */
    var addresses: seq<(InfoValue, int)>
    /** Every signal emitted, in order. */
    var signals: seq<Signal>

    /** The constructor has checked for a hostname, and `check_buffer`
        never leaves a complete line in the buffer. */
    predicate Valid()
      reads this
    {
      "hostname" in info && '\n' !in buffer
    }

    constructor (kwargs: map<string, InfoValue>)
      requires "hostname" in kwargs
      ensures Valid()
      ensures info == kwargs && buffer == "" && transmitted == [] && addresses == [] && signals == []
    {
      info := kwargs;
      buffer := "";
      transmitted := [];
      addresses := [];
      signals := [];
    }

    /** `IRCServerConnection(**kwargs)`: refused with a `KeyError` when no
        hostname is given. */
    static method Create(kwargs: map<string, InfoValue>) returns (r: Option<IrcServerConnection>)
      ensures r.None? <==> "hostname" !in kwargs
      ensures r.Some? ==> fresh(r.value) && r.value.Valid() && r.value.info == kwargs
      ensures r.Some? ==> r.value.buffer == "" && r.value.transmitted == [] && r.value.signals == []
    {
      if "hostname" !in kwargs {
        return None;
      }
      var c := new IrcServerConnection(kwargs);
      return Some(c);
    }

    method Connect()
      requires Valid()
      modifies this
      ensures Valid()
      ensures info == ConnectInfo(old(info))
      ensures addresses == old(addresses) + [(info["hostname"], info["port"].i)]
      ensures signals == old(signals) + [Connected]
      ensures buffer == old(buffer) && transmitted == old(transmitted)
    {
      var port: int;
      if "port" in info {
        match info["port"]
        case IntValue(i) => port := i;
        case StrValue(s) =>
          var n := ParseInt(s);
          port := if n.Some? then n.value else DefaultPort;
      } else {
        port := DefaultPort;
      }
      assert port == PortOf(info);
      info := info["port" := IntValue(port)];
      if "nickname" !in info {
        info := info["nickname" := StrValue(DefaultNickname)];
      }
      addresses := addresses + [(info["hostname"], port)];
      signals := signals + [Connected];
    }

    /** Hands the line and a newline to the socket, and reports the line
        stripped of surrounding whitespace. */
    method Send(line: string)
      modifies this
      ensures transmitted == old(transmitted) + Wire([line])
      ensures signals == old(signals) + Outgoing([line])
      ensures info == old(info) && buffer == old(buffer) && addresses == old(addresses)
    {
      transmitted := transmitted + [line + "\n"];
      signals := signals + [DataOut(Strip(line))];
    }

    /** `data` is what the socket's `recv()` returned (`None` or text); it is
        appended to the buffer and every line it completes is emitted. */
    method Recv(data: Option<string>) returns (r: Option<string>)
      requires Valid()
      modifies this
      ensures Valid()
      ensures r == data
      ensures var d := if data.Some? then data.value else "";
        signals == old(signals) + DataIns(Lines(old(buffer) + d)) &&
        buffer == Rest(old(buffer) + d)
      ensures info == old(info) && transmitted == old(transmitted) && addresses == old(addresses)
    {
      if data.Some? && data.value != "" {
        buffer := buffer + data.value;
        CheckBuffer();
      } else {
        assert old(buffer) + (if data.Some? then data.value else "") == buffer;
        NoNewlineNoLines(buffer);
      }
      return data;
    }

    method Close()
      modifies this
      ensures signals == old(signals) + [Closed]
      ensures info == old(info) && buffer == old(buffer) && transmitted == old(transmitted) && addresses == old(addresses)
    {
      signals := signals + [Closed];
    }

    /** Emits the first complete line of the buffer and drops it, again
        while a newline remains. */
    method CheckBuffer()
      modifies this
      ensures signals == old(signals) + DataIns(Lines(old(buffer)))
      ensures buffer == Rest(old(buffer))
      ensures '\n' !in buffer
      ensures info == old(info) && transmitted == old(transmitted) && addresses == old(addresses)
      decreases |buffer|, 1
    {
      var pos := Find(buffer, '\n');
      if pos == -1 {
        NoNewlineNoLines(buffer);
      } else {
        EmitFirstLine(pos);
      }
    }

    /** The step of `check_buffer` when the buffer holds a newline at `pos`
        and none before it. */
    method EmitFirstLine(pos: int)
      requires pos == Find(buffer, '\n') != -1
      modifies this
      ensures signals == old(signals) + DataIns(Lines(old(buffer)))
      ensures buffer == Rest(old(buffer))
      ensures '\n' !in buffer
      ensures info == old(info) && transmitted == old(transmitted) && addresses == old(addresses)
      decreases |buffer|, 0
    {
      var line := buffer[0..pos + 1];
      ghost var rest := buffer[pos + 1..];
      LinesStep(buffer, line, rest);
      SignalsRegroup(signals, DataIn(line), DataIns(Lines(rest)));
      signals := signals + [DataIn(line)];
      buffer := buffer[pos + 1..];
      CheckBuffer();
    }
  }
}
