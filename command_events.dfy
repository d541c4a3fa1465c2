/**
 * What a plugin command sees and does. A command is called with an event:
 * the user who said it (known by hostname, and allowed what the bot's
 * authentication grants that hostname), the command's name and
 * arguments, and the channel it was said in. The command answers by
 * sending notices or private messages to the user, messages to the
 * channel, or raw lines to the server; the event records them in order.
 *
 * Replies read from a plugin's language file are given by `Lang`, the
 * plugin's `language(key, **args)` call, which the model leaves abstract.
 */
module CommandEvents {
  import opened Text
  import Auth

  /** A plugin's `language(key, **args)`: the entry `key` formatted with
      the named arguments. */
  type Lang = (string, map<string, string>) -> string

  /** `language(key)` without arguments. */
  function Entry(lang: Lang, key: string): string {
    lang(key, map[])
  }

  /** What a command sends, and to whom. */
  datatype Sent =
    | UserNotice(text: string)
    | UserPm(text: string)
    | ChannelPm(text: string)
    | ServerLine(line: string)

  /** Every text as a message to the channel, in order. */
  function ChannelPms(texts: seq<string>): (r: seq<Sent>)
    ensures |r| == |texts|
    ensures forall i :: 0 <= i < |texts| ==> r[i] == ChannelPm(texts[i])
  {
    if texts == [] then [] else [ChannelPm(texts[0])] + ChannelPms(texts[1..])
  }

  /** One line to the server per item, made by `render`, in order. */
  function ServerLines(render: string -> string, items: seq<string>): (r: seq<Sent>)
    ensures |r| == |items|
  {
    if items == [] then []
    else ServerLines(render, items[..|items| - 1]) + [ServerLine(render(items[|items| - 1]))]
  }

  /** The `i`-th line is made from the `i`-th item. */
  lemma {:induction false} ServerLinesAt(render: string -> string, items: seq<string>, i: int)
    requires 0 <= i < |items|
    ensures ServerLines(render, items)[i] == ServerLine(render(items[i]))
    decreases |items|
  {
    if i < |items| - 1 {
      ServerLinesAt(render, items[..|items| - 1], i);
    }
  }

  lemma ServerLinesStep(render: string -> string, items: seq<string>, x: string)
    ensures ServerLines(render, items + [x]) == ServerLines(render, items) + [ServerLine(render(x))]
  {
    assert (items + [x])[..|items|] == items;
  }

  /** The messages of a name-list loop. Each name is added to a buffer
      followed by `, `; once the buffer is longer than `limit` it is sent
      without its final `, ` and emptied, and a buffer left over at the
      end is sent the same way. `pending` are the names in the buffer. */
  function Chunks(names: seq<string>, limit: nat, pending: seq<string>): (r: seq<string>)
    ensures |r| <= |names| + (if pending == [] then 0 else 1)
    ensures names == [] && pending == [] ==> r == []
    decreases |names|
  {
    if names == [] then
      if pending == [] then [] else [JoinWith(pending, ", ")]
    else
      var group := pending + [names[0]];
      if |JoinWith(group, ", ")| + 2 > limit then [JoinWith(group, ", ")] + Chunks(names[1..], limit, [])
      else Chunks(names[1..], limit, group)
  }

  /** Something is sent as long as there is a name to send. */
  lemma {:induction false} ChunksNotEmpty(names: seq<string>, limit: nat, pending: seq<string>)
    requires pending + names != []
    ensures Chunks(names, limit, pending) != []
    decreases |names|
  {
    if names != [] {
      var group := pending + [names[0]];
      if |JoinWith(group, ", ")| + 2 <= limit {
        ChunksNotEmpty(names[1..], limit, group);
      }
    }
  }

  /** No name is lost, changed or moved: the messages joined with `, `
      are all the names joined with `, `, in order. */
  lemma {:induction false} ChunksKeepNames(names: seq<string>, limit: nat, pending: seq<string>)
    requires pending + names != []
    ensures JoinWith(Chunks(names, limit, pending), ", ") == JoinWith(pending + names, ", ")
    decreases |names|
  {
    if names == [] {
      assert pending + names == pending;
    } else {
      var group := pending + [names[0]];
      var rest := names[1..];
      assert pending + names == group + rest;
      if |JoinWith(group, ", ")| + 2 > limit {
        if rest == [] {
          assert group + rest == group;
        } else {
          ChunksKeepNames(rest, limit, []);
          ChunksNotEmpty(rest, limit, []);
          assert [] + rest == rest;
          JoinWithConcat([JoinWith(group, ", ")], Chunks(rest, limit, []), ", ");
          JoinWithConcat(group, rest, ", ");
        }
      } else {
        ChunksKeepNames(rest, limit, group);
      }
    }
  }

  /** Every message but the last was sent because the buffer had grown
      past the limit. */
  lemma {:induction false} ChunksFull(names: seq<string>, limit: nat, pending: seq<string>, i: int)
    requires 0 <= i < |Chunks(names, limit, pending)| - 1
    ensures |Chunks(names, limit, pending)[i]| + 2 > limit
    decreases |names|
  {
    var group := pending + [names[0]];
    if |JoinWith(group, ", ")| + 2 > limit {
      if i > 0 {
        ChunksFull(names[1..], limit, [], i - 1);
      }
    } else {
      ChunksFull(names[1..], limit, group, i);
    }
  }

  /** The messages the name-list loop has sent once every name is in:
      those of `Chunks` but the one for the buffer left over at the end. */
  function Flushed(names: seq<string>, limit: nat, pending: seq<string>): seq<string>
    decreases |names|
  {
    if names == [] then []
    else
      var group := pending + [names[0]];
      if |JoinWith(group, ", ")| + 2 > limit then [JoinWith(group, ", ")] + Flushed(names[1..], limit, [])
      else Flushed(names[1..], limit, group)
  }

  /** The names in the buffer once every name is in. */
  function Leftover(names: seq<string>, limit: nat, pending: seq<string>): seq<string>
    decreases |names|
  {
    if names == [] then pending
    else
      var group := pending + [names[0]];
      if |JoinWith(group, ", ")| + 2 > limit then Leftover(names[1..], limit, [])
      else Leftover(names[1..], limit, group)
  }

  /** The message for a left-over buffer, if there is one. */
  function LastChunk(pending: seq<string>): seq<string> {
    if pending == [] then [] else [JoinWith(pending, ", ")]
  }

  /** The messages of the list are those sent while names were added,
      then the left-over buffer. */
  lemma {:induction false} ChunksFlushed(names: seq<string>, limit: nat, pending: seq<string>)
    ensures Chunks(names, limit, pending) == Flushed(names, limit, pending) + LastChunk(Leftover(names, limit, pending))
    decreases |names|
  {
    if names != [] {
      var group := pending + [names[0]];
      if |JoinWith(group, ", ")| + 2 > limit {
        ChunksFlushed(names[1..], limit, []);
      } else {
        ChunksFlushed(names[1..], limit, group);
      }
    }
  }

  lemma ChannelPmsConcat(a: seq<string>, b: seq<string>)
    ensures ChannelPms(a + b) == ChannelPms(a) + ChannelPms(b)
  {
  }

  /** One name of the list loop: the buffer is sent and emptied, or it
      keeps growing. */
  lemma FlushedStep(names: seq<string>, i: int, limit: nat, pending: seq<string>)
    requires 0 <= i < |names|
    ensures var group := pending + [names[i]];
      ChannelPms(Flushed(names[i..], limit, pending)) ==
        if |JoinWith(group, ", ")| + 2 > limit then [ChannelPm(JoinWith(group, ", "))] + ChannelPms(Flushed(names[i + 1..], limit, []))
        else ChannelPms(Flushed(names[i + 1..], limit, group))
    ensures var group := pending + [names[i]];
      Leftover(names[i..], limit, pending) ==
        if |JoinWith(group, ", ")| + 2 > limit then Leftover(names[i + 1..], limit, [])
        else Leftover(names[i + 1..], limit, group)
  {
    assert names[i..][0] == names[i] && names[i..][1..] == names[i + 1..];
    var group := pending + [names[i]];
    if |JoinWith(group, ", ")| + 2 > limit {
      var tail := Flushed(names[i + 1..], limit, []);
      assert ([JoinWith(group, ", ")] + tail)[1..] == tail;
    }
  }

  /** What has been sent, followed by what the rest of the loop will send
      before its end. */
  function FlushedLeft(sent: seq<Sent>, names: seq<string>, i: int, limit: nat, pending: seq<string>): seq<Sent>
    requires 0 <= i <= |names|
  {
    sent + ChannelPms(Flushed(names[i..], limit, pending))
  }

  lemma Regroup(a: seq<Sent>, x: Sent, b: seq<Sent>)
    ensures a + ([x] + b) == (a + [x]) + b
  {
  }

  lemma Append3(a: seq<Sent>, b: seq<Sent>, c: seq<Sent>)
    ensures (a + b) + c == a + (b + c)
  {
  }

  class Event {
    const auth: Auth.Authentication
    /** The hostname of the user who issued the command. */
    const hostname: string
    /** `message.bot_command` and `message.bot_args`. */
    const command: string
    const args: string
    /** `message.channel`. */
    const channel: string
    /** Everything sent so far, in order. */
    var sent: seq<Sent>

    constructor (auth: Auth.Authentication, hostname: string, command: string, args: string, channel: string)
      ensures this.auth == auth && this.hostname == hostname
      ensures this.command == command && this.args == args && this.channel == channel
      ensures sent == []
    {
      this.auth := auth;
      this.hostname := hostname;
      this.command := command;
      this.args := args;
      this.channel := channel;
      sent := [];
    }

    /** `event.user.is_allowed(group)`. */
    predicate Allowed(group: string) {
      Auth.IsAllowed(auth, hostname, group)
    }

    method Send(s: Sent)
      modifies this
      ensures sent == old(sent) + [s]
    {
      sent := sent + [s];
    }

    /** A line to the server per item, in order. */
    method SendLines(render: string -> string, items: seq<string>)
      modifies this
      ensures sent == old(sent) + ServerLines(render, items)
    {
      for i := 0 to |items|
        invariant sent == old(sent) + ServerLines(render, items[..i])
      {
        assert items[..i + 1][..i] == items[..i];
        Send(ServerLine(render(items[i])));
      }
      assert items[..|items|] == items;
    }

    /** The name-list loop: `names` sent to the channel in messages of
        about `limit` characters. */
    method PmChunks(names: seq<string>, limit: nat)
      modifies this
      ensures sent == old(sent) + ChannelPms(Chunks(names, limit, []))
    {
      var buffer;
      ghost var pending;
      buffer, pending := AddNames(names, limit);
      ChunksFlushed(names, limit, []);
      ChannelPmsConcat(Flushed(names, limit, []), LastChunk(pending));
      if pending != [] {
        TerminatedJoin(pending, ", ");
      }
      if buffer != "" {
        Send(ChannelPm(buffer[..|buffer| - 2]));
      }
    }

    /** The loop of the name list without the final message: every name
        added to the buffer, and the buffer sent whenever it has grown
        past `limit`. */
    method AddNames(names: seq<string>, limit: nat) returns (buffer: string, ghost pending: seq<string>)
      modifies this
      ensures buffer == Terminated(pending, ", ") && pending == Leftover(names, limit, [])
      ensures sent == old(sent) + ChannelPms(Flushed(names, limit, []))
    {
      buffer := "";
      pending := [];
      assert names[0..] == names;
      for i := 0 to |names|
        invariant buffer == Terminated(pending, ", ")
        invariant FlushedLeft(sent, names, i, limit, pending) == old(sent) + ChannelPms(Flushed(names, limit, []))
        invariant Leftover(names[i..], limit, pending) == Leftover(names, limit, [])
      {
        buffer, pending := AddName(names, i, limit, buffer, pending);
      }
      assert names[|names|..] == [];
    }

    /** One pass of the name-list loop. */
    method AddName(names: seq<string>, i: int, limit: nat, buffer: string, ghost pending: seq<string>)
      returns (buffer': string, ghost pending': seq<string>)
      requires 0 <= i < |names| && buffer == Terminated(pending, ", ")
      modifies this
      ensures buffer' == Terminated(pending', ", ")
      ensures FlushedLeft(sent, names, i + 1, limit, pending') == FlushedLeft(old(sent), names, i, limit, pending)
      ensures Leftover(names[i + 1..], limit, pending') == Leftover(names[i..], limit, pending)
    {
      FlushedStep(names, i, limit, pending);
      buffer' := buffer + names[i] + ", ";
      pending' := pending + [names[i]];
      assert pending'[..|pending'| - 1] == pending;
      TerminatedJoin(pending', ", ");
      if |buffer'| > limit {
        Send(ChannelPm(buffer'[..|buffer'| - 2]));
        Regroup(old(sent), ChannelPm(JoinWith(pending', ", ")), ChannelPms(Flushed(names[i + 1..], limit, [])));
        buffer' := "";
        pending' := [];
      }
    }
  }
}
