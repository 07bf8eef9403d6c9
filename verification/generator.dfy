/**
 * `main` without its file system and logging: the lineup is normalised,
 * the playlist is produced, then the guide tree. Which artifacts exist at
 * the end, and which exception (if any) ended the run, is the outcome.
 */
module Generator {
  import opened Values
  import opened Channels
  import opened M3u
  import opened Xmltv

  /**
   * What a run leaves behind: the playlist text it writes, the tree it
   * hands to `save_gzipped_xml`, and the exception that escaped, if any.
   */
  datatype Outcome = Outcome(playlist: Option<string>, guide: Option<Element>, fault: Option<Fault>)

  /**
   * Lines 208-231 on the responses `data` (the lineup) and `epg` (each
   * channel's programme list). The lineup is read with the per-entry
   * handler that skips malformed entries. A non-empty lineup whose
   * playlist can be built always yields the playlist, even when the guide
   * step then raises; the guide exists exactly when that step succeeds.
   */
  function Run(data: Option<Json>, epg: map<Json, Json>): (o: Outcome)
    ensures o.guide.Some? ==> o.playlist.Some? && o.fault.None?
    ensures o.playlist.Some? ==>
              && ChannelListTolerant(data).Success?
              && ChannelListTolerant(data).value != []
              && Playlist(ChannelListTolerant(data).value) == Success(o.playlist.value)
    ensures o.guide.Some? ==> Guide(ChannelListTolerant(data).value, epg) == Success(o.guide.value)
    ensures o.playlist.Some? <==>
              && ChannelListTolerant(data).Success?
              && ChannelListTolerant(data).value != []
              && Playlist(ChannelListTolerant(data).value).Success?
    ensures o.guide.Some? <==> o.playlist.Some? && Guide(ChannelListTolerant(data).value, epg).Success?
    ensures o.fault.None? <==>
              && ChannelListTolerant(data).Success?
              && (|| ChannelListTolerant(data).value == []
                  || (&& Playlist(ChannelListTolerant(data).value).Success?
                      && Guide(ChannelListTolerant(data).value, epg).Success?))
    ensures ChannelListTolerant(data).Failure? ==> o.fault == Some(ChannelListTolerant(data).error)
    ensures ChannelListTolerant(data).Success? && ChannelListTolerant(data).value != [] &&
            Playlist(ChannelListTolerant(data).value).Failure? ==>
              o.fault == Some(Playlist(ChannelListTolerant(data).value).error)
    ensures o.playlist.Some? && o.guide.None? ==>
              && Guide(ChannelListTolerant(data).value, epg).Failure?
              && o.fault == Some(Guide(ChannelListTolerant(data).value, epg).error)
  {
    match ChannelListTolerant(data)
    case Failure(e) => Outcome(None, None, Some(e))
    case Success(cs) =>
      if cs == [] then Outcome(None, None, None)
      else match Playlist(cs)
        case Failure(e) => Outcome(None, None, Some(e))
        case Success(text) =>
          match Guide(cs, epg)
          case Failure(e) => Outcome(Some(text), None, Some(e))
          case Success(tv) => Outcome(Some(text), Some(tv), None)
  }

  /** With no response, a falsy one, or no `channels` member, the run stops without writing anything. */
  lemma RunWithoutChannels(data: Option<Json>, epg: map<Json, Json>)
    requires || data.None?
             || !Truthy(data.value)
             || (data.value.Obj? && Lookup(data.value.fields, "channels").None?)
    ensures Run(data, epg) == Outcome(None, None, None)
  {
  }

  /**
   * Well-formed input gives both artifacts and no exception: the playlist
   * has 1 + 2k lines for k streamable channels (given single-line fields),
   * and the tree has one `<channel>` per channel and one `<programme>` per
   * listed programme.
   */
  lemma RunComplete(data: Option<Json>, epg: map<Json, Json>)
    requires ChannelListTolerant(data).Success? && ChannelListTolerant(data).value != []
    requires var cs := ChannelListTolerant(data).value;
             forall i :: 0 <= i < |cs| ==>
               && SingleLineFields(cs[i])
               && (Streamable(cs[i]) ==> GroupTitle(cs[i].categories).Success?)
               && Iterate(Schedule(epg, cs[i].id)).Success?
               && forall k :: 0 <= k < |Iterate(Schedule(epg, cs[i].id)).value| ==>
                                Iterate(Schedule(epg, cs[i].id)).value[k].Obj?
    ensures var cs, o := ChannelListTolerant(data).value, Run(data, epg);
            && o.fault.None? && o.playlist.Some? && o.guide.Some?
            && Breaks(o.playlist.value) == 1 + 2 * StreamableCount(cs)
            && Count(o.guide.value.children, "channel") == |cs|
            && Count(o.guide.value.children, "programme") == ScheduledCount(cs, epg)
  {
    var cs := ChannelListTolerant(data).value;
    PlaylistFails(cs);
    GuideFails(cs, epg);
    PlaylistBreaks(cs);
    GuideLayout(cs, epg);
  }
}
