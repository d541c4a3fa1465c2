/**
 * The older protocol handler, which works on the messages of the older
 * parser: it answers PING on the connection the message came from and
 * dispatches server replies to `on_command_<code>` handlers, of which it
 * defines only an empty one for reply 001.
 */
module IrcProtocolHandler {
  import opened Wrappers
  import opened Text
  import opened IrcMessage
  import opened IrcLine
  import opened IrcConnection
  import opened IrcProtocolSession

  /** A Python `NameError`: a name used but never bound in the module. */
  datatype HandlerError = NameNotDefined(name: string)

  /** The lines the handler sends for a received line. */
  function PingAnswer(raw: string): (r: seq<string>)
    ensures |r| <= 1
    ensures |r| == 1 <==> StartsWith(raw, "PING")
  {
    if StartsWith(raw, "PING") then [Pong(raw)] else []
  }

  /** The handler answers an unprefixed line as the protocol session does. */
  lemma HandlerAgreesWithSession(info: map<string, InfoValue>, data: string)
    requires data != [] && data[0] != ':'
    ensures PingAnswer(data) == React(info, data).sent
    ensures React(info, data).raised == None
  {
    StrIsRaw(RawMessage, data, map[]);
    assert ParseLine(data, PrefixSetting(info)) == Parsed(NewMessage(RawMessage, data, map[]));
  }

  /** `on_line` as written: the PING answer goes out, and then the test
      for a server message names `Message`, which the handler's module
      never imports, so every line ends in a `NameError`. */
  method OnLineAsWritten(m: LegacyMessage, connection: IrcServerConnection) returns (r: Option<HandlerError>)
    modifies connection
    ensures r == Some(NameNotDefined("Message"))
    ensures connection.transmitted == old(connection.transmitted) + Wire(PingAnswer(m.raw))
    ensures connection.signals == old(connection.signals) + Outgoing(PingAnswer(m.raw))
    ensures connection.info == old(connection.info) && connection.buffer == old(connection.buffer)
  {
    if StartsWith(m.raw, "PING") {
      connection.Send(Pong(m.raw));
    }
    return Some(NameNotDefined("Message"));
  }

  /** `on_line` with the message kinds in scope: the PING answer goes out
      and a server reply is dispatched; the only handler, the one for
      reply 001, does nothing, so handling never fails. */
  method OnLine(m: LegacyMessage, connection: IrcServerConnection) returns (r: Option<HandlerError>)
    modifies connection
    ensures r == None
    ensures connection.transmitted == old(connection.transmitted) + Wire(PingAnswer(m.raw))
    ensures connection.signals == old(connection.signals) + Outgoing(PingAnswer(m.raw))
    ensures connection.info == old(connection.info) && connection.buffer == old(connection.buffer)
  {
    if StartsWith(m.raw, "PING") {
      connection.Send(Pong(m.raw));
    }
    if m.kind == ServerMessage && m.command == "001" {
      OnCommand001(m);
    }
    return None;
  }

  /** The handler for the server's welcome: it does nothing. */
  method OnCommand001(m: LegacyMessage)
  {
  }
}
