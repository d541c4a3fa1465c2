/**
 * The RSS reader plugin: `rss`, `feed` and `last` show the newest items
 * of a feed given by URL or by the name of an approved feed, `feeds`
 * lists the approved feeds, and `addfeed` lets users submit a feed, which
 * is approved at once when a moderator submits it.
 *
 * Downloading and parsing a feed is the parameter `fetch`, which gives
 * the feed's channel title and items, or the error that escapes
 * `read_rss` when the download, the XML parse or an element lookup
 * raises. The plugin's database table of feeds is the field `feeds` of
 * the plugin.
 */
module RssReader {
  import opened Wrappers
  import opened Text
  import opened IrcFormat
  import opened CommandEvents
  import opened Submissions

  /** An `<item>` of a feed: its title and, when the element and its text
      are there, the description and the link. */
  datatype Item = Item(title: string, description: Option<string>, link: Option<string>)

  /** The `<channel>` of a feed. */
  datatype Channel = Channel(title: string, items: seq<Item>)

  /** Why `get_xml` or `read` raised: `urlopen` failed (`IOError`), the
      document is not well-formed XML (`ParseError`), or the `channel`
      element or a `title` is missing (`AttributeError`). `read_rss`
      catches none of them. */
  datatype FetchError = Unreachable | NotXml | MissingElement

  /** An item as `read` keeps it. */
  datatype FeedEntry = FeedEntry(title: string, description: string, link: string)

  /** Advertisements are skipped. */
  predicate IsAd(item: Item) {
    StartsWith(item.title, "ADV:")
  }

  /** A missing description or link becomes the empty string. */
  function EntryOf(item: Item): (e: FeedEntry)
    ensures e.title == item.title
    ensures e.description == (if item.description.Some? then item.description.value else "")
    ensures e.link == (if item.link.Some? then item.link.value else "")
  {
    FeedEntry(item.title,
      match item.description case Some(d) => d case None => "",
      match item.link case Some(l) => l case None => "")
  }

  /** The entries of the items that are not advertisements, in order. */
  function Kept(items: seq<Item>): (r: seq<FeedEntry>)
    ensures |r| <= |items|
  {
    if items == [] then []
    else
      var last := items[|items| - 1];
      Kept(items[..|items| - 1]) + (if IsAd(last) then [] else [EntryOf(last)])
  }

  lemma KeptStep(items: seq<Item>, i: int)
    requires 0 <= i < |items|
    ensures Kept(items[..i + 1]) == Kept(items[..i]) + (if IsAd(items[i]) then [] else [EntryOf(items[i])])
  {
    assert items[..i + 1][..i] == items[..i];
  }

  lemma {:induction false} KeptConcat(a: seq<Item>, b: seq<Item>)
    ensures Kept(a + b) == Kept(a) + Kept(b)
    decreases |b|
  {
    if b == [] {
      assert a + b == a;
    } else {
      var init := b[..|b| - 1];
      assert (a + b)[..|a + b| - 1] == a + init;
      KeptConcat(a, init);
    }
  }

  /** An entry is kept exactly when it comes from an item that is no
      advertisement. */
  lemma {:induction false} KeptMembers(items: seq<Item>, e: FeedEntry)
    ensures e in Kept(items) <==> exists item :: item in items && !IsAd(item) && EntryOf(item) == e
    decreases |items|
  {
    if items != [] {
      var init := items[..|items| - 1];
      KeptMembers(init, e);
      assert items == init + [items[|items| - 1]];
    }
  }

  /** What `read(max)` keeps: the first `max` items that are not
      advertisements. */
  function Selection(items: seq<Item>, max: int): (r: seq<FeedEntry>)
    ensures |r| <= |items|
    ensures max >= 0 ==> |r| <= max
  {
    var kept := Kept(items);
    if max <= 0 then [] else if max >= |kept| then kept else kept[..max]
  }

  /** The selection is the start of the non-advertisement entries, as long
      as `max` allows and the feed holds. */
  lemma SelectionIsPrefix(items: seq<Item>, max: int)
    requires max >= 0
    ensures var kept := Kept(items);
      var n := if max < |kept| then max else |kept|;
      Selection(items, max) == kept[..n]
  {
  }

  /** The loop stops once `max` entries are kept: then these are the
      selection, whatever the rest of the feed holds. */
  lemma SelectionReached(items: seq<Item>, i: int, max: int)
    requires 0 <= i <= |items| && 0 < max == |Kept(items[..i])|
    ensures Selection(items, max) == Kept(items[..i])
  {
    assert items == items[..i] + items[i..];
    KeptConcat(items[..i], items[i..]);
  }

  class RssFeed {
    const url: string
    var title: string
    var items: seq<FeedEntry>

    constructor (url: string)
      ensures this.url == url && title == "" && items == []
    {
      this.url := url;
      title := "";
      items := [];
    }

    /** `read(max)` on the channel downloaded from the feed's URL: each
        advertisement skipped raises the bound by one. */
    method Read(channel: Channel, max: int)
      modifies this
      ensures title == channel.title
      ensures items == Selection(channel.items, max)
    {
      title := channel.title;
      items := [];
      var xs := channel.items;
      var bound := max;
      var i := 0;
      while i < (if bound < |xs| then bound else |xs|)
        invariant 0 <= i <= |xs|
        invariant title == channel.title
        invariant items == Kept(xs[..i])
        invariant bound == max + (i - |items|)
        invariant i == 0 || (0 < max && |items| <= max)
        decreases |xs| - i
      {
        KeptStep(xs, i);
        if IsAd(xs[i]) {
          bound := bound + 1;
          i := i + 1;
          continue;
        }
        items := items + [EntryOf(xs[i])];
        i := i + 1;
      }
      if i < |xs| && i > 0 {
        SelectionReached(xs, i, max);
      } else if i == |xs| {
        assert xs[..i] == xs;
      }
    }
  }

  /** A row of the plugin's feed table. */
  datatype FeedRow = FeedRow(name: string, url: string, approved: bool, asCommand: bool)

  function Names(feeds: seq<FeedRow>): (r: seq<string>)
    ensures |r| == |feeds|
  {
    if feeds == [] then [] else Names(feeds[..|feeds| - 1]) + [feeds[|feeds| - 1].name]
  }

  /** The names of the approved feeds, in table order. */
  function ApprovedNames(feeds: seq<FeedRow>): (r: seq<string>)
    ensures |r| <= |feeds|
  {
    if feeds == [] then []
    else
      var last := feeds[|feeds| - 1];
      ApprovedNames(feeds[..|feeds| - 1]) + (if last.approved then [last.name] else [])
  }

  /** `get_url(name)`: the URL of the first approved feed with that name. */
  function UrlFor(feeds: seq<FeedRow>, name: string): (r: Option<string>)
    ensures r.Some? ==> exists i :: 0 <= i < |feeds| && feeds[i].name == name && feeds[i].approved && feeds[i].url == r.value
    ensures r.None? <==> forall i :: 0 <= i < |feeds| ==> !(feeds[i].name == name && feeds[i].approved)
  {
    if feeds == [] then None
    else if feeds[0].name == name && feeds[0].approved then Some(feeds[0].url)
    else
      var r := UrlFor(feeds[1..], name);
      assert forall i :: 1 <= i < |feeds| ==> feeds[i] == feeds[1..][i - 1];
      r
  }

  /** Whether a feed of that name exists, approved or not. */
  predicate NameTaken(feeds: seq<FeedRow>, name: string) {
    exists i :: 0 <= i < |feeds| && feeds[i].name == name
  }

  /** The feed the read commands show: a command other than `rss`, `feed`
      and `last` is a feed registered as a command and names itself;
      otherwise the arguments, stripped of formatting, do. A text that is
      no URL is looked up among the approved feeds. */
  function FeedUrl(feeds: seq<FeedRow>, command: string, args: string): (r: Option<string>)
    ensures r.Some? ==> r.value != ""
  {
    var url := if command !in ["rss", "feed", "last"] then command else Remove(args);
    if ValidUrl(url) then
      assert url != "";
      Some(url)
    else
      match UrlFor(feeds, url)
      case None => None
      case Some(u) => if u == "" then None else Some(u)
  }

  /** `last` shows one item, the other read commands five. */
  function ItemCount(command: string): int {
    if command == "last" then 1 else 5
  }

  function ItemLines(entries: seq<FeedEntry>, lang: Lang): (r: seq<Sent>)
    ensures |r| == |entries|
  {
    if entries == [] then []
    else
      var e := entries[|entries| - 1];
      ItemLines(entries[..|entries| - 1], lang) + [ChannelPm(lang("rss_item", map["title" := e.title, "url" := e.link]))]
  }

  lemma ItemLinesStep(entries: seq<FeedEntry>, lang: Lang, i: int)
    requires 0 <= i < |entries|
    ensures ItemLines(entries[..i + 1], lang) == ItemLines(entries[..i], lang) +
      [ChannelPm(lang("rss_item", map["title" := entries[i].title, "url" := entries[i].link]))]
  {
    assert entries[..i + 1][..i] == entries[..i];
  }

  /** Fetching and parsing the feed at a URL. */
  type Fetcher = string -> Result<Channel, FetchError>

  /** What a read command sends, and the error it raises, if any. */
  datatype ReadOutcome = ReadOutcome(sent: seq<Sent>, error: Option<FetchError>)

  /** What the read commands do: `not_found` when no feed is found; the
      fetch error, with nothing sent, when fetching raises; otherwise the
      feed's title and one line per selected item. */
  function ReadReplies(feeds: seq<FeedRow>, command: string, args: string, fetch: Fetcher,
                       lang: Lang): (r: ReadOutcome)
    ensures FeedUrl(feeds, command, args).None? ==> r == ReadOutcome([ChannelPm(Entry(lang, "not_found"))], None)
    ensures FeedUrl(feeds, command, args).Some? && fetch(FeedUrl(feeds, command, args).value).Err? ==>
      r == ReadOutcome([], Some(fetch(FeedUrl(feeds, command, args).value).error))
    ensures FeedUrl(feeds, command, args).Some? && fetch(FeedUrl(feeds, command, args).value).Ok? ==>
      var channel := fetch(FeedUrl(feeds, command, args).value).value;
      r.error.None? && 1 <= |r.sent| <= 1 + ItemCount(command) &&
      r.sent[0] == ChannelPm(lang("rss_title", map["title" := channel.title]))
  {
    match FeedUrl(feeds, command, args)
    case None => ReadOutcome([ChannelPm(Entry(lang, "not_found"))], None)
    case Some(url) =>
      match fetch(url)
      case Err(e) => ReadOutcome([], Some(e))
      case Ok(channel) =>
        ReadOutcome([ChannelPm(lang("rss_title", map["title" := channel.title]))] +
          ItemLines(Selection(channel.items, ItemCount(command)), lang), None)
  }

  /** What `addfeed` does with its arguments: the first error found, or
      the feed to add. */
  function AddFeedOutcome(feeds: seq<FeedRow>, args: string, moderator: bool): (r: Result<FeedRow, string>)
    ensures r.Ok? ==> ValidName(r.value.name) && ValidUrl(r.value.url) && !NameTaken(feeds, r.value.name)
    ensures r.Ok? ==> r.value.approved == moderator && !r.value.asCommand
  {
    var parts := SplitOnce(args, ' ');
    if |parts| == 1 then Err("addfeed_syntax")
    else
      var url := Remove(parts[1]);
      if !ValidUrl(url) then Err("invalid_url")
      else
        var name := Remove(parts[0]);
        if NameTaken(feeds, name) then Err("name_in_use")
        else if !ValidName(name) then Err("invalid_name")
        else Ok(FeedRow(name, url, moderator, false))
  }

  /** An `addfeed` with a single word is a syntax error. */
  lemma AddFeedNeedsTwoParts(feeds: seq<FeedRow>, args: string, moderator: bool)
    requires ' ' !in args
    ensures AddFeedOutcome(feeds, args, moderator) == Err("addfeed_syntax")
  {
  }

  lemma {:induction false} NamesAt(feeds: seq<FeedRow>, i: int)
    requires 0 <= i < |feeds|
    ensures Names(feeds)[i] == feeds[i].name
    decreases |feeds|
  {
    if i < |feeds| - 1 {
      NamesAt(feeds[..|feeds| - 1], i);
    }
  }

  /** An approved feed added under a new name is what that name finds. */
  lemma {:induction false} UrlForAdded(feeds: seq<FeedRow>, row: FeedRow)
    requires row.approved && !NameTaken(feeds, row.name)
    ensures UrlFor(feeds + [row], row.name) == Some(row.url)
    decreases |feeds|
  {
    if feeds == [] {
    } else {
      assert (feeds + [row])[1..] == feeds[1..] + [row];
      assert feeds[0].name != row.name;
      assert !NameTaken(feeds[1..], row.name) by {
        forall i | 0 <= i < |feeds[1..]| ensures feeds[1..][i].name != row.name {
          assert feeds[1..][i] == feeds[i + 1];
        }
      }
      UrlForAdded(feeds[1..], row);
    }
  }

  /** A feed added by a moderator can be read by its name at once. */
  lemma ModeratorFeedReadable(feeds: seq<FeedRow>, args: string, command: string)
    requires AddFeedOutcome(feeds, args, true).Ok?
    requires command in ["rss", "feed", "last"]
    ensures var row := AddFeedOutcome(feeds, args, true).value;
      FeedUrl(feeds + [row], command, row.name) == Some(row.url)
  {
    var row := AddFeedOutcome(feeds, args, true).value;
    NameIsPlain(row.name);
    NameIsNoUrl(row.name);
    UrlForAdded(feeds, row);
    UrlShape(row.url);
  }

  class RssPlugin {
    const lang: Lang
    /** The feed table. */
    var feeds: seq<FeedRow>

    constructor (lang: Lang, feeds: seq<FeedRow>)
      ensures this.lang == lang && this.feeds == feeds
    {
      this.lang := lang;
      this.feeds := feeds;
    }

    /** The plugin on a freshly created, empty table. */
    constructor Fresh(lang: Lang)
      ensures this.lang == lang && this.feeds == [] && Valid()
    {
      this.lang := lang;
      this.feeds := [];
    }

    ghost predicate Valid()
      reads this
    {
      Distinct(Names(feeds))
    }

    /** `read_rss`, for the commands `rss`, `feed`, `last` and every feed
        registered as a command. */
    method ReadRss(event: Event, fetch: Fetcher) returns (error: Option<FetchError>)
      modifies event
      ensures var r := ReadReplies(feeds, event.command, event.args, fetch, lang);
        event.sent == old(event.sent) + r.sent && error == r.error
    {
      var url := if event.command !in ["rss", "feed", "last"] then event.command else Remove(event.args);
      if !ValidUrl(url) {
        var found := UrlFor(feeds, url);
        if found.None? || found.value == "" {
          event.Send(ChannelPm(Entry(lang, "not_found")));
          return None;
        }
        url := found.value;
      }
      assert FeedUrl(feeds, event.command, event.args) == Some(url);
      var rss := new RssFeed(url);
      var channel := fetch(url);
      if channel.Err? {
        return Some(channel.error);
      }
      rss.Read(channel.value, ItemCount(event.command));
      ShowFeed(event, rss.title, rss.items);
      return None;
    }

    /** The feed's title, then a line per item. */
    method ShowFeed(event: Event, title: string, entries: seq<FeedEntry>)
      modifies event
      ensures event.sent == old(event.sent) + ([ChannelPm(lang("rss_title", map["title" := title]))] + ItemLines(entries, lang))
    {
      event.Send(ChannelPm(lang("rss_title", map["title" := title])));
      SendItems(event, entries);
      Append3(old(event.sent), [ChannelPm(lang("rss_title", map["title" := title]))], ItemLines(entries, lang));
    }

    method SendItems(event: Event, entries: seq<FeedEntry>)
      modifies event
      ensures event.sent == old(event.sent) + ItemLines(entries, lang)
    {
      for i := 0 to |entries|
        invariant event.sent == old(event.sent) + ItemLines(entries[..i], lang)
      {
        ItemLinesStep(entries, lang, i);
        event.Send(ChannelPm(lang("rss_item", map["title" := entries[i].title, "url" := entries[i].link])));
      }
      assert entries[..|entries|] == entries;
    }

    /** `feeds`: the approved feeds in messages of about 255 characters. */
    method ListFeeds(event: Event)
      modifies event
      ensures event.sent == old(event.sent) + [ChannelPm(Entry(lang, "available_feeds"))] +
        ChannelPms(Chunks(ApprovedNames(feeds), 255, []))
    {
      event.Send(ChannelPm(Entry(lang, "available_feeds")));
      event.PmChunks(ApprovedNames(feeds), 255);
    }

    /** `addfeed NAME URL`. */
    method AddFeed(event: Event)
      requires Valid()
      modifies this, event
      ensures Valid()
      ensures match old(AddFeedOutcome(feeds, event.args, event.Allowed("moderator")))
        case Ok(row) =>
          feeds == old(feeds) + [row] && event.sent == old(event.sent) + [UserNotice(Entry(lang, "feed_added"))]
        case Err(key) =>
          feeds == old(feeds) && event.sent == old(event.sent) + [ChannelPm(Entry(lang, key))]
    {
      var outcome := AddFeedOutcome(feeds, event.args, event.Allowed("moderator"));
      match outcome
      case Err(key) =>
        event.Send(ChannelPm(Entry(lang, key)));
      case Ok(row) =>
        Store(row);
        event.Send(UserNotice(Entry(lang, "feed_added")));
    }

    /** Inserts a feed whose name is not in use. */
    method Store(row: FeedRow)
      requires Valid() && !NameTaken(feeds, row.name)
      modifies this
      ensures Valid() && feeds == old(feeds) + [row]
    {
      AddedStaysDistinct(feeds, row);
      feeds := feeds + [row];
    }
  }

  lemma AddedStaysDistinct(feeds: seq<FeedRow>, row: FeedRow)
    requires Distinct(Names(feeds)) && !NameTaken(feeds, row.name)
    ensures Distinct(Names(feeds + [row]))
  {
    var all := feeds + [row];
    assert all[..|feeds|] == feeds;
    forall i | 0 <= i < |feeds| ensures Names(feeds)[i] != row.name {
      NamesAt(feeds, i);
    }
    DistinctAppend(Names(feeds), row.name);
  }
}
