/**
 * `generate_m3u_playlist`: the extended-M3U text for a channel lineup,
 * one `#EXTINF` line and one stream URL line per streamable channel.
 */
module M3u {
  import opened Values
  import opened Channels

  /** The EPG file name the playlist header points players at. */
  const EpgFilename: string := "lgchannels_epg.xml.gz"

  /** The first line of every playlist. */
  const Header: string := "#EXTM3U x-tvg-url=" + EpgFilename + "\n"

  /** `channel.get('stream_url')` is truthy. */
  predicate Streamable(c: Channel) {
    Truthy(c.streamUrl)
  }

  predicate AllStr(items: seq<Json>) {
    forall k :: 0 <= k < |items| ==> items[k].Str?
  }

  /**
   * The strings `','.join` receives when it iterates `categories`; it
   * raises TypeError when the value is not iterable or yields a non-string.
   */
  function CategoryNames(categories: Json): (r: Result<seq<string>, Fault>)
    ensures r.Failure? <==> Iterate(categories).Failure? || !AllStr(Iterate(categories).value)
    ensures r.Failure? ==> r.error == TypeError
    ensures r.Success? ==> |r.value| == |Iterate(categories).value| &&
                           forall k :: 0 <= k < |r.value| ==>
                                       Iterate(categories).value[k] == Str(r.value[k])
  {
    match Iterate(categories)
    case Failure(e) => Failure(e)
    case Success(items) =>
      if AllStr(items) then Success(seq(|items|, k requires 0 <= k < |items| => items[k].s))
      else Failure(TypeError)
  }

  /** The `group-title` attribute: the category names joined by commas. */
  function GroupTitle(categories: Json): Result<string, Fault> {
    match CategoryNames(categories)
    case Failure(e) => Failure(e)
    case Success(names) => Success(Join(names, ","))
  }

  /** Line 136's piece of the `#EXTINF` line. */
  function IdPiece(c: Channel): string {
    "#EXTINF:-1 tvg-id=\"" + Show(c.id) + "\" "
  }

  /** Line 137's piece. */
  function NamePiece(c: Channel): string {
    "tvg-name=\"" + Show(c.name) + "\" "
  }

  /** Line 138's piece. */
  function LogoPiece(c: Channel): string {
    "tvg-logo=\"" + Show(c.logo) + "\" "
  }

  /** Line 139's piece, given the joined categories. */
  function GroupPiece(group: string): string {
    "group-title=\"" + group + "\","
  }

  /** The `#EXTINF` line of a streamable channel, without its line break. */
  function ExtinfLine(c: Channel, group: string): string {
    IdPiece(c) + NamePiece(c) + LogoPiece(c) + GroupPiece(group) + Show(c.name)
  }

  /** What one iteration of the loop (lines 132-141) appends. */
  function Entry(c: Channel): Result<string, Fault> {
    if !Streamable(c) then Success("")
    else match GroupTitle(c.categories)
      case Failure(e) => Failure(e)
      case Success(group) => Success(ExtinfLine(c, group) + "\n" + Show(c.streamUrl) + "\n")
  }

  /** The playlist text for `channels`, or the exception that escapes. */
  function Playlist(channels: seq<Channel>): Result<string, Fault> {
    Then(Success(Header), Collect(channels, Entry))
  }

  /** `generate_m3u_playlist` (lines 128-143). */
  method GenerateM3uPlaylist(channels: seq<Channel>) returns (r: Result<string, Fault>)
    ensures r == Playlist(channels)
  {
    var content := Header;
    for i := 0 to |channels|
      invariant Collect(channels[..i], Entry).Success?
      invariant content == Header + Collect(channels[..i], Entry).value
    {
      var c := channels[i];
      if !Truthy(c.streamUrl) {
        SkipStep(channels, i);
        continue;
      }
      ghost var text := content;
      content := content + IdPiece(c);
      content := content + NamePiece(c);
      content := content + LogoPiece(c);
      var group := GroupTitle(c.categories);
      if group.Failure? {
        FailStep(channels, i);
        return Failure(group.error);
      }
      content := content + GroupPiece(group.value);
      content := content + (Show(c.name) + "\n");
      content := content + (Show(c.streamUrl) + "\n");
      AppendEntry(text, c, group.value);
      TakeStep(channels, i);
    }
    assert channels[..|channels|] == channels;
    return Success(content);
  }

  /** An iteration that takes the `continue` of line 134 leaves the text as it is. */
  lemma SkipStep(channels: seq<Channel>, i: nat)
    requires i < |channels| && !Streamable(channels[i])
    requires Collect(channels[..i], Entry).Success?
    ensures Collect(channels[..i + 1], Entry) == Collect(channels[..i], Entry)
  {
    CollectStep(channels, i, Entry);
    var before := Collect(channels[..i], Entry).value;
    assert before + "" == before;
  }

  /** An iteration whose join raises (line 139) ends the function with that exception. */
  lemma FailStep(channels: seq<Channel>, i: nat)
    requires i < |channels| && Streamable(channels[i])
    requires Collect(channels[..i], Entry).Success?
    requires GroupTitle(channels[i].categories).Failure?
    ensures Playlist(channels) == Failure(GroupTitle(channels[i].categories).error)
  {
    CollectStep(channels, i, Entry);
    CollectPrefixFails(channels, i + 1, Entry);
  }

  /** An iteration that reaches the appends of lines 136-141 extends the loop's output by the channel's entry. */
  lemma TakeStep(channels: seq<Channel>, i: nat)
    requires i < |channels| && Streamable(channels[i])
    requires Collect(channels[..i], Entry).Success?
    requires GroupTitle(channels[i].categories).Success?
    ensures Entry(channels[i]).Success? && Collect(channels[..i + 1], Entry).Success?
    ensures Header + Collect(channels[..i + 1], Entry).value ==
            Header + Collect(channels[..i], Entry).value + Entry(channels[i]).value
  {
    CollectStep(channels, i, Entry);
    var before := Collect(channels[..i], Entry).value;
    var e := Entry(channels[i]).value;
    ConcatAssoc(Header, before, e);
  }

  /** The six appends of lines 136-141 together append the channel's entry. */
  lemma AppendEntry(text: string, c: Channel, group: string)
    requires Streamable(c) && GroupTitle(c.categories) == Success(group)
    ensures text + IdPiece(c) + NamePiece(c) + LogoPiece(c) + GroupPiece(group) +
            (Show(c.name) + "\n") + (Show(c.streamUrl) + "\n") == text + Entry(c).value
  {
  }

  // ---- the group-title attribute ----

  /** A channel without categories (the `[]` default) gets an empty group-title. */
  lemma GroupTitleEmpty(categories: Json)
    requires Iterate(categories).Success? && !Truthy(categories)
    ensures GroupTitle(categories) == Success("")
  {
  }

  /** Category names without commas can be read back from the attribute. */
  lemma GroupTitleSplits(categories: Json)
    requires CategoryNames(categories).Success? && CategoryNames(categories).value != []
    requires forall k :: 0 <= k < |CategoryNames(categories).value| ==>
                         ',' !in CategoryNames(categories).value[k]
    ensures GroupTitle(categories).Success?
    ensures Split(GroupTitle(categories).value, ',') == CategoryNames(categories).value
  {
    SplitJoin(CategoryNames(categories).value, ',');
  }

  // ---- the playlist ----

  /** Every playlist the source returns starts with the header line. */
  lemma PlaylistHeader(channels: seq<Channel>)
    requires Playlist(channels).Success?
    ensures |Playlist(channels).value| >= |Header|
    ensures Playlist(channels).value[..|Header|] == Header
  {
  }

  /** A lineup with no streamable channel gives the header line alone. */
  lemma PlaylistHeaderOnly(channels: seq<Channel>)
    requires forall i :: 0 <= i < |channels| ==> !Streamable(channels[i])
    ensures Playlist(channels) == Success(Header)
  {
    NothingStreamable(channels);
    assert Header + [] == Header;
  }

  lemma {:induction false} NothingStreamable(channels: seq<Channel>)
    requires forall i :: 0 <= i < |channels| ==> !Streamable(channels[i])
    ensures Collect(channels, Entry) == Success([])
    decreases |channels|
  {
    if channels != [] {
      var init := channels[..|channels| - 1];
      forall i | 0 <= i < |init| ensures !Streamable(init[i]) { assert init[i] == channels[i]; }
      NothingStreamable(init);
      var nothing: string := [];
      assert nothing + nothing == nothing;
    }
  }

  /** A channel without a stream URL contributes nothing: removing it changes nothing. */
  lemma SkipUnstreamable(before: seq<Channel>, c: Channel, after: seq<Channel>)
    requires !Streamable(c)
    ensures Playlist(before + [c] + after) == Playlist(before + after)
  {
    CollectAppend(before + [c], after, Entry);
    CollectAppend(before, [c], Entry);
    CollectAppend(before, after, Entry);
    var nothing: string := [];
    assert [c][..0] == [];
    assert Collect([c], Entry) == Then(Collect([], Entry), Entry(c));
    assert nothing + nothing == nothing;
    assert Collect([c], Entry) == Success(nothing);
    if Collect(before, Entry).Success? {
      assert Collect(before, Entry).value + nothing == Collect(before, Entry).value;
    }
  }

  /** The source raises exactly when a streamable channel's categories cannot be joined. */
  lemma PlaylistFails(channels: seq<Channel>)
    ensures Playlist(channels).Failure? <==>
            exists i :: 0 <= i < |channels| && Streamable(channels[i]) &&
                        GroupTitle(channels[i].categories).Failure?
  {
    CollectFails(channels, Entry);
  }

  /**
   * Each channel's entry sits in the playlist in lineup order: right after
   * the playlist the channels before it would make.
   */
  lemma PlaylistEntryAt(channels: seq<Channel>, i: nat)
    requires i < |channels| && Playlist(channels).Success?
    ensures Entry(channels[i]).Success? && Playlist(channels[..i]).Success?
    ensures var text := Playlist(channels[..i]).value + Entry(channels[i]).value;
            |text| <= |Playlist(channels).value| &&
            Playlist(channels).value[..|text|] == text
  {
    CollectAt(channels, i, Entry);
    var pre := Collect(channels[..i], Entry).value;
    var mid := Entry(channels[i]).value;
    var post := Collect(channels[i + 1..], Entry).value;
    PrefixOf(Header, pre, mid, post);
  }

  lemma PrefixOf(h: string, a: string, b: string, c: string)
    ensures (h + (a + b + c))[..|h + a + b|] == h + a + b
  {
    assert h + (a + b + c) == (h + a + b) + c;
  }

  // ---- line structure ----

  predicate SingleLine(s: string) {
    '\n' !in s
  }

  /** Number of line breaks in `s`. */
  function Breaks(s: string): nat
    decreases |s|
  {
    if s == [] then 0 else Breaks(s[..|s| - 1]) + (if s[|s| - 1] == '\n' then 1 else 0)
  }

  lemma {:induction false} BreaksAppend(a: string, b: string)
    ensures Breaks(a + b) == Breaks(a) + Breaks(b)
    decreases |b|
  {
    if b == [] {
      assert a + b == a;
    } else {
      var b' := b[..|b| - 1];
      assert (a + b)[..|a + b| - 1] == a + b';
      assert (a + b)[|a + b| - 1] == b[|b| - 1];
      BreaksAppend(a, b');
    }
  }

  lemma {:induction false} BreaksNone(s: string)
    requires SingleLine(s)
    ensures Breaks(s) == 0
    decreases |s|
  {
    if s != [] {
      assert s[|s| - 1] in s;
      var init := s[..|s| - 1];
      assert forall k :: 0 <= k < |init| ==> init[k] == s[k];
      BreaksNone(init);
    }
  }

  lemma NewlineBreaks()
    ensures Breaks("\n") == 1
  {
    assert "\n"[..0] == [];
  }

  /** Number of streamable channels. */
  function StreamableCount(channels: seq<Channel>): nat
    decreases |channels|
  {
    if channels == [] then 0
    else StreamableCount(channels[..|channels| - 1]) + (if Streamable(channels[|channels| - 1]) then 1 else 0)
  }

  /** Every text a streamable channel's lines interpolate is free of line breaks. */
  predicate SingleLineFields(c: Channel) {
    && SingleLine(Show(c.id)) && SingleLine(Show(c.name)) && SingleLine(Show(c.logo))
    && SingleLine(Show(c.streamUrl))
    && (CategoryNames(c.categories).Success? ==>
          forall k :: 0 <= k < |CategoryNames(c.categories).value| ==>
                      SingleLine(CategoryNames(c.categories).value[k]))
  }

  lemma {:induction false} JoinSingleLine(parts: seq<string>, sep: string)
    requires SingleLine(sep) && forall k :: 0 <= k < |parts| ==> SingleLine(parts[k])
    ensures SingleLine(Join(parts, sep))
    decreases |parts|
  {
    if |parts| > 1 {
      var init := parts[..|parts| - 1];
      forall k | 0 <= k < |init| ensures SingleLine(init[k]) { assert init[k] == parts[k]; }
      JoinSingleLine(init, sep);
    }
  }

  /** A streamable channel's entry is exactly two lines. */
  lemma EntryBreaks(c: Channel)
    requires Entry(c).Success? && SingleLineFields(c)
    ensures Breaks(Entry(c).value) == if Streamable(c) then 2 else 0
  {
    if Streamable(c) {
      var names := CategoryNames(c.categories).value;
      JoinSingleLine(names, ",");
      var group := GroupTitle(c.categories).value;
      var line := ExtinfLine(c, group);
      ExtinfSingleLine(c, group);
      var url := Show(c.streamUrl);
      TwoLines(line, url);
    }
  }

  lemma TwoLines(line: string, url: string)
    requires SingleLine(line) && SingleLine(url)
    ensures Breaks(line + "\n" + url + "\n") == 2
  {
    BreaksNone(line);
    BreaksNone(url);
    NewlineBreaks();
    BreaksAppend(line, "\n");
    BreaksAppend(line + "\n", url);
    BreaksAppend(line + "\n" + url, "\n");
  }

  lemma ExtinfSingleLine(c: Channel, group: string)
    requires SingleLine(Show(c.id)) && SingleLine(Show(c.name)) && SingleLine(Show(c.logo))
    requires SingleLine(group)
    ensures SingleLine(ExtinfLine(c, group))
  {
    assert SingleLine(IdPiece(c));
    assert SingleLine(NamePiece(c));
    assert SingleLine(LogoPiece(c));
    assert SingleLine(GroupPiece(group));
  }

  lemma HeaderBreaks()
    ensures Breaks(Header) == 1
  {
    var name := "#EXTM3U x-tvg-url=" + EpgFilename;
    assert Header == name + "\n";
    assert '\n' !in name;
    BreaksNone(name);
    NewlineBreaks();
    BreaksAppend(name, "\n");
  }

  /**
   * With single-line fields, the playlist holds 1 + 2k lines for k
   * streamable channels: the header, then two lines per channel.
   */
  lemma PlaylistBreaks(channels: seq<Channel>)
    requires Playlist(channels).Success?
    requires forall i :: 0 <= i < |channels| ==> SingleLineFields(channels[i])
    ensures Breaks(Playlist(channels).value) == 1 + 2 * StreamableCount(channels)
  {
    HeaderBreaks();
    EntriesBreaks(channels);
    BreaksAppend(Header, Collect(channels, Entry).value);
  }

  lemma {:induction false} EntriesBreaks(channels: seq<Channel>)
    requires Collect(channels, Entry).Success?
    requires forall i :: 0 <= i < |channels| ==> SingleLineFields(channels[i])
    ensures Breaks(Collect(channels, Entry).value) == 2 * StreamableCount(channels)
    decreases |channels|
  {
    if channels != [] {
      var init := channels[..|channels| - 1];
      var last := channels[|channels| - 1];
      LastStep(channels);
      EntriesBreaks(init);
      EntryBreaks(last);
      BreaksAppend(Collect(init, Entry).value, Entry(last).value);
    }
  }

  /** Peeling the last channel off a lineup whose entries all succeed. */
  lemma LastStep(channels: seq<Channel>)
    requires channels != [] && Collect(channels, Entry).Success?
    requires forall i :: 0 <= i < |channels| ==> SingleLineFields(channels[i])
    ensures var init, last := channels[..|channels| - 1], channels[|channels| - 1];
            && (forall i :: 0 <= i < |init| ==> SingleLineFields(init[i]))
            && SingleLineFields(last)
            && Collect(init, Entry).Success? && Entry(last).Success?
            && Collect(channels, Entry).value == Collect(init, Entry).value + Entry(last).value
            && StreamableCount(channels) == StreamableCount(init) + (if Streamable(last) then 1 else 0)
  {
    var init := channels[..|channels| - 1];
    forall i | 0 <= i < |init| ensures SingleLineFields(init[i]) { assert init[i] == channels[i]; }
  }
}
