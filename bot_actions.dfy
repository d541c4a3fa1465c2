/**
 * The bot-action commands `join`, `part` and `nick`: only an admin may
 * use them; `join` and `part` act on the arguments that are channel
 * names, which start with `#`.
 */
module BotActions {
  import opened Text
  import opened CommandEvents
  import IrcRender

  predicate IsChannel(s: string) {
    StartsWith(s, "#")
  }

  /** The arguments that are channel names, in order. */
  function Channels(args: seq<string>): (r: seq<string>)
    ensures |r| <= |args|
  {
    if args == [] then []
    else
      var last := args[|args| - 1];
      Channels(args[..|args| - 1]) + (if IsChannel(last) then [last] else [])
  }

  /** A channel is kept exactly when it is an argument that is a channel. */
  lemma {:induction false} ChannelsMembers(args: seq<string>)
    ensures forall c :: c in Channels(args) <==> c in args && IsChannel(c)
    decreases |args|
  {
    if args != [] {
      var init := args[..|args| - 1];
      ChannelsMembers(init);
      assert args == init + [args[|args| - 1]];
    }
  }

  /** Filtering keeps the order: the channels of two runs of arguments are
      the channels of the first, then those of the second. */
  lemma {:induction false} ChannelsConcat(a: seq<string>, b: seq<string>)
    ensures Channels(a + b) == Channels(a) + Channels(b)
    decreases |b|
  {
    if b == [] {
      assert a + b == a;
    } else {
      var init := b[..|b| - 1];
      assert (a + b)[..|a + b| - 1] == a + init;
      ChannelsConcat(a, init);
    }
  }

  lemma ChannelsStep(args: seq<string>, i: int)
    requires 0 <= i < |args|
    ensures Channels(args[..i + 1]) == Channels(args[..i]) + (if IsChannel(args[i]) then [args[i]] else [])
  {
    assert args[..i + 1][..i] == args[..i];
  }

  /** An argument that is not a channel is exactly what the filter drops. */
  lemma {:induction false} InvalidDropped(args: seq<string>)
    ensures |Channels(args)| < |args| <==> exists a :: a in args && !IsChannel(a)
    decreases |args|
  {
    if args != [] {
      var init := args[..|args| - 1];
      InvalidDropped(init);
      assert args == init + [args[|args| - 1]];
      if exists a :: a in init && !IsChannel(a) {
        var a :| a in init && !IsChannel(a);
        assert a in args;
      }
    }
  }

  /** What `join` sends, as written: the invalid-channel notice is
      guarded by the flag `error`, which the loop never sets (it sets
      `errors`), so the notice is never sent. */
  function JoinRepliesAsWritten(args: seq<string>): (r: seq<Sent>)
    ensures |r| <= |args|
  {
    var error := false;
    ServerLines(IrcRender.Join, Channels(args)) + (if error then [UserNotice("invalid_channels")] else [])
  }

  /** `!join foo` sends nothing at all, not even the notice that `foo` is
      not a channel. */
  lemma JoinSilentOnInvalid()
    ensures JoinRepliesAsWritten(["foo"]) == []
  {
    assert ["foo"][..0] == [];
    assert "foo"[..1] == "f";
  }

  /** As written, no argument list makes `join` send anything but JOIN
      lines. */
  lemma JoinNeverWarnsAsWritten(args: seq<string>)
    ensures forall s :: s in JoinRepliesAsWritten(args) ==> s.ServerLine?
  {
    var lines := JoinRepliesAsWritten(args);
    forall i | 0 <= i < |lines| ensures lines[i].ServerLine? {
      ServerLinesAt(IrcRender.Join, Channels(args), i);
    }
  }

  /** What `join` evidently means to send: one JOIN per channel argument,
      in order, then the invalid-channel notice when some argument is not a
      channel. */
  function JoinReplies(args: seq<string>, lang: Lang): (r: seq<Sent>)
    ensures |r| <= |args| + 1
  {
    var invalid := exists a :: a in args && !IsChannel(a);
    ServerLines(IrcRender.Join, Channels(args)) + (if invalid then [UserNotice(Entry(lang, "invalid_channels"))] else [])
  }

  /** The notice is sent when the filter dropped an argument. */
  lemma JoinRepliesCount(args: seq<string>, lang: Lang)
    ensures JoinReplies(args, lang) == ServerLines(IrcRender.Join, Channels(args)) +
      (if |Channels(args)| < |args| then [UserNotice(Entry(lang, "invalid_channels"))] else [])
  {
    InvalidDropped(args);
  }

  /** The notice is sent exactly when an argument is not a channel, and
      every other message is a JOIN line for a channel argument. */
  lemma JoinWarnsIffInvalid(args: seq<string>, lang: Lang)
    ensures UserNotice(Entry(lang, "invalid_channels")) in JoinReplies(args, lang) <==>
      exists a :: a in args && !IsChannel(a)
    ensures forall i :: 0 <= i < |Channels(args)| ==> JoinReplies(args, lang)[i] == ServerLine(IrcRender.Join(Channels(args)[i]))
  {
    var chans := Channels(args);
    var lines := ServerLines(IrcRender.Join, chans);
    var notice := UserNotice(Entry(lang, "invalid_channels"));
    var invalid := exists a :: a in args && !IsChannel(a);
    assert JoinReplies(args, lang) == lines + (if invalid then [notice] else []);
    forall i | 0 <= i < |lines| ensures lines[i] == ServerLine(IrcRender.Join(chans[i])) {
      ServerLinesAt(IrcRender.Join, chans, i);
    }
    assert notice !in lines by {
      assert forall s :: s in lines ==> s.ServerLine?;
    }
  }

  /** The channels `part` leaves: with no arguments the current channel if
      it is one; otherwise the channel arguments. */
  function PartChannels(args: string, current: string): (r: seq<string>)
    ensures args == "" ==> |r| <= 1
  {
    if args == "" then (if IsChannel(current) then [current] else [])
    else Channels(SplitWhitespace(args))
  }

  /** `part` leaves only channels, and every channel argument. */
  lemma PartOnlyChannels(args: string, current: string)
    ensures forall c :: c in PartChannels(args, current) ==> IsChannel(c)
    ensures args != "" ==> forall c :: c in SplitWhitespace(args) && IsChannel(c) ==> c in PartChannels(args, current)
  {
    if args != "" {
      ChannelsMembers(SplitWhitespace(args));
    }
  }

  /** What `part` sends: the invalid-channel notice alone when there is no
      channel to leave, else one PART per channel. */
  function PartReplies(args: string, current: string, lang: Lang): (r: seq<Sent>)
    ensures PartChannels(args, current) == [] <==> r == [UserNotice(Entry(lang, "invalid_channels"))]
    ensures PartChannels(args, current) != [] ==> r == ServerLines(IrcRender.Part, PartChannels(args, current))
  {
    var channels := PartChannels(args, current);
    if channels == [] then [UserNotice(Entry(lang, "invalid_channels"))]
    else
      ServerLinesAt(IrcRender.Part, channels, 0);
      ServerLines(IrcRender.Part, channels)
  }

  /** What `nick` sends: a NICK line when there are arguments. */
  function NickReplies(args: string): (r: seq<Sent>)
    ensures args == "" <==> r == []
    ensures args != "" ==> r == [ServerLine(IrcRender.SetNick(args))]
  {
    if args == "" then [] else [ServerLine(IrcRender.SetNick(args))]
  }

  /** Where the loop of `join` stands after the first `i` arguments. */
  ghost predicate JoinProgress(sent: seq<Sent>, start: seq<Sent>, args: seq<string>, i: int, error: bool) {
    0 <= i <= |args| &&
    sent == start + ServerLines(IrcRender.Join, Channels(args[..i])) &&
    (error <==> |Channels(args[..i])| < i)
  }

  /** The loop of `join`: a JOIN line for each channel argument, and
      whether some argument was not a channel. */
  method JoinEach(event: Event, args: seq<string>) returns (error: bool)
    modifies event
    ensures event.sent == old(event.sent) + ServerLines(IrcRender.Join, Channels(args))
    ensures error <==> |Channels(args)| < |args|
  {
    error := false;
    for i := 0 to |args|
      invariant JoinProgress(event.sent, old(event.sent), args, i, error)
    {
      error := JoinOne(event, args, i, error, old(event.sent));
    }
    assert args[..|args|] == args;
  }

  /** An argument that is no channel sends nothing and sets the error. */
  lemma JoinSkip(sent: seq<Sent>, start: seq<Sent>, args: seq<string>, i: int, error: bool)
    requires i < |args| && JoinProgress(sent, start, args, i, error) && !IsChannel(args[i])
    ensures JoinProgress(sent, start, args, i + 1, true)
  {
    var channels := Channels(args[..i]);
    ChannelsStep(args, i);
    assert Channels(args[..i + 1]) == channels;
    assert |channels| <= |args[..i]| == i;
  }

  /** A channel argument sends its JOIN line. */
  lemma JoinAdd(sent: seq<Sent>, start: seq<Sent>, args: seq<string>, i: int, error: bool)
    requires i < |args| && JoinProgress(sent, start, args, i, error) && IsChannel(args[i])
    ensures JoinProgress(sent + [ServerLine(IrcRender.Join(args[i]))], start, args, i + 1, error)
  {
    var channels := Channels(args[..i]);
    ChannelsStep(args, i);
    ServerLinesStep(IrcRender.Join, channels, args[i]);
    Append3(start, ServerLines(IrcRender.Join, channels), [ServerLine(IrcRender.Join(args[i]))]);
  }

  /** One argument of that loop. */
  method JoinOne(event: Event, args: seq<string>, i: int, error: bool, ghost start: seq<Sent>) returns (error': bool)
    requires i < |args| && JoinProgress(event.sent, start, args, i, error)
    modifies event
    ensures JoinProgress(event.sent, start, args, i + 1, error')
  {
    if !IsChannel(args[i]) {
      JoinSkip(event.sent, start, args, i, error);
      error' := true;
    } else {
      JoinAdd(event.sent, start, args, i, error);
      event.Send(ServerLine(IrcRender.Join(args[i])));
      error' := error;
    }
  }

  /** The loop of `part` that collects the channel arguments. */
  method CollectChannels(args: seq<string>) returns (channels: seq<string>)
    ensures channels == Channels(args)
  {
    channels := [];
    for i := 0 to |args|
      invariant channels == Channels(args[..i])
    {
      ChannelsStep(args, i);
      if IsChannel(args[i]) {
        channels := channels + [args[i]];
      }
    }
    assert args[..|args|] == args;
  }

  class ActionsPlugin {
    const lang: Lang

    constructor (lang: Lang)
      ensures this.lang == lang
    {
      this.lang := lang;
    }

    /** `join`, with the invalid-channel notice sent as evidently meant. */
    method Join(event: Event)
      modifies event
      ensures !event.Allowed("admin") ==> event.sent == old(event.sent) + [UserNotice(Entry(lang, "permission_denied"))]
      ensures event.Allowed("admin") ==> event.sent == old(event.sent) + JoinReplies(SplitWhitespace(event.args), lang)
    {
      if !event.Allowed("admin") {
        event.Send(UserNotice(Entry(lang, "permission_denied")));
        return;
      }
      JoinAll(event, SplitWhitespace(event.args));
    }

    /** The body of `join` once the user is allowed. */
    method JoinAll(event: Event, args: seq<string>)
      modifies event
      ensures event.sent == old(event.sent) + JoinReplies(args, lang)
    {
      ghost var lines := ServerLines(IrcRender.Join, Channels(args));
      var error := JoinEach(event, args);
      JoinRepliesCount(args, lang);
      if error {
        event.Send(UserNotice(Entry(lang, "invalid_channels")));
        assert event.sent == old(event.sent) + (lines + [UserNotice(Entry(lang, "invalid_channels"))]);
      } else {
        assert lines + [] == lines;
      }
    }

    /** `part` (also `leave`). */
    method Part(event: Event)
      modifies event
      ensures !event.Allowed("admin") ==> event.sent == old(event.sent) + [UserNotice(Entry(lang, "permission_denied"))]
      ensures event.Allowed("admin") ==> event.sent == old(event.sent) + PartReplies(event.args, event.channel, lang)
    {
      if !event.Allowed("admin") {
        event.Send(UserNotice(Entry(lang, "permission_denied")));
        return;
      }
      var channels: seq<string> := [];
      if event.args == "" {
        if IsChannel(event.channel) {
          channels := channels + [event.channel];
        }
      } else {
        channels := CollectChannels(SplitWhitespace(event.args));
      }
      if channels == [] {
        event.Send(UserNotice(Entry(lang, "invalid_channels")));
        return;
      }
      event.SendLines(IrcRender.Part, channels);
    }

    /** `nick`. */
    method Nick(event: Event)
      modifies event
      ensures !event.Allowed("admin") ==> event.sent == old(event.sent) + [UserNotice(Entry(lang, "permission_denied"))]
      ensures event.Allowed("admin") ==> event.sent == old(event.sent) + NickReplies(event.args)
    {
      if !event.Allowed("admin") {
        event.Send(UserNotice(Entry(lang, "permission_denied")));
        return;
      }
      if event.args != "" {
        event.Send(ServerLine(IrcRender.SetNick(event.args)));
      }
    }
  }
}
