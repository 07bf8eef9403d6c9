# LG Channels playlist and guide generator — a Dafny model

The generator reads LG Channels' channel lineup and each channel's programme
guide. It writes an extended-M3U playlist (`lgchannels.m3u`) and an XMLTV guide
(`lgchannels_epg.xml.gz`). This project models the generator's core in Dafny:

- reading the lineup into canonical channel records, with defaults for absent keys (`get_channels`);
- building the playlist text (`generate_m3u_playlist`);
- building the XMLTV element tree (`generate_epg_xml`);
- converting ISO-8601 timestamps to the XMLTV time form (`format_time`);
- the order in which `main` runs these steps.

Files:

- `values.dfy` (module `Values`): decoded JSON values with Python's rules for truthiness, `str()`, `dict.get`, `in` and `for`-iteration. It also holds `Collect`, the one specification of every accumulating loop: run a step per item in order, concatenate the outputs, and let the first exception abort the loop.
- `channels.dfy` (module `Channels`): the `Channel` record, normalisation of one lineup entry, `get_channels` as written (`ChannelList`, the method `GetChannels`) and as evidently intended (`ChannelListTolerant`, see Findings).
- `m3u.dfy` (module `M3u`): the playlist, specified by `Playlist` and built by the method `GenerateM3uPlaylist` with the source's `continue` and six appends.
- `timestamps.dfy` (module `Timestamps`): the ISO-8601 subset parser, the XMLTV writer and `FormatTime`.
- `xmltv.dfy` (module `Xmltv`): the element tree as a datatype, specified by `Guide` and built by the method `GenerateEpgXml`.
- `generator.dfy` (module `Generator`): `main` without I/O, as the function `Run`.

Exceptions that escape the generator are modelled as `Failure(TypeError)` or
`Failure(AttributeError)`. Exceptions the code catches follow the code's handler.
The guide data is a parameter: a map from channel id to what `get_epg_data`
returns for it. An id without an entry stands for the `[]` that function
returns when the API has no data.

## Model

| member | source | states |
|---|---|---|
| Values.Truthy | lgchannels_generator.py:85 | Python truthiness of a decoded value: null, false, 0, and an empty string, list or dict are falsy |
| Values.Get | lgchannels_generator.py:93-99 | `d.get(key, default)` on a decoded object: the value under the last occurrence of the key, or the default when the key is absent |
| Values.Join | lgchannels_generator.py:139 | `sep.join(parts)`: the parts in order with the separator between neighbours |
| Values.Repr | lgchannels_generator.py:151 | `repr()` of a decoded value: `None`, `True`/`False`, decimal integers, quoted strings, and lists and dicts written element by element |
| Values.Show | lgchannels_generator.py:136-141 | `str()`, which is also what an f-string interpolation writes: a string as itself, any other value as its `repr()` |
| Values.Collect | lgchannels_generator.py:89-103 | an accumulating `for` loop: each item's step output is appended in item order, and the first exception aborts the loop and discards the accumulator |
| Values.Lookup | lgchannels_generator.py:168-172 | `key in d` is false exactly when no member has the key; otherwise `d[key]` is the value of the last member with that key |
| Values.Iterate | lgchannels_generator.py:90 | a `for` loop raises TypeError exactly on null, booleans and numbers; a list yields its items; a dict or string yields strings; the loop visits nothing exactly when the value is falsy |
| Values.CollectFails | lgchannels_generator.py:89-103 | an accumulating loop raises exactly when the step for some item raises |
| Values.CollectAppend | lgchannels_generator.py:132-141 | looping over a concatenation is looping over each part in turn, and the first exception wins |
| Values.CollectSingles | lgchannels_generator.py:89-101 | a loop whose every step appends one element returns one element per item, in item order |
| Values.SplitJoin | lgchannels_generator.py:139 | for a non-empty list of names without the separator, splitting their `','.join` gives back the names (an empty list joins to `""`, which splits to `[""]`; `M3u.GroupTitleEmpty` covers that case) |
| Channels.Normalize | lgchannels_generator.py:92-100 | each field is the entry's value under its API key (the last occurrence), or the default when the key is absent: id None, name 'Unknown', number '0', logo, stream URL and description '', categories [] |
| Channels.NormalizeRaw | lgchannels_generator.py:92-100 | normalising a record written back under the API's key names gives the record back, so a present null (for example a null name) is kept and not defaulted |
| Channels.NullNameKept | lgchannels_generator.py:94 | a name member that is present but null gives a null name, not 'Unknown' |
| Channels.NormalizeEmpty | lgchannels_generator.py:92-100 | an entry with none of the keys gets every default |
| Channels.ChannelsMember | lgchannels_generator.py:85-90 | no response or a falsy one gives no entries; for an object response the entries come from its `channels` member |
| Channels.RawEntries | lgchannels_generator.py:85-90 | what line 90 iterates: nothing when lines 85-87 return early, the `for` loop's items of the `channels` member otherwise, or the TypeError raised on the way |
| Channels.EntryAsWritten | lgchannels_generator.py:91-103 | one iteration as written: an object entry gives its normalised record; any other entry raises AttributeError at `channel.get`, and the handler's own `channel.get('id')` raises it again |
| Channels.ChannelList | lgchannels_generator.py:79-106 | `get_channels` as written: the raw entries' iterations collected in order, or the first exception that escapes |
| Channels.GetChannels | lgchannels_generator.py:79-106 | the loop returns exactly `ChannelList(data)`: the entries' records in order, or the first exception |
| Channels.ChannelListWithoutChannels | lgchannels_generator.py:85-87 | a missing response, a falsy one, or one without `channels`, gives the empty lineup |
| Channels.ChannelListRecords | lgchannels_generator.py:89-101 | when the source returns, the lineup has one record per raw entry, in entry order, and each record is the normalisation of its entry |
| Channels.ChannelListCrashes | lgchannels_generator.py:102-103 | as written, any entry that is not an object makes AttributeError escape |
| Channels.MalformedEntryExample | lgchannels_generator.py:102-103 | a number before a well-formed entry makes the source raise, while the intended handler keeps the well-formed record |
| Channels.EntryTolerant | lgchannels_generator.py:91-103 | one iteration as intended: an object entry gives its normalised record, and any other entry is skipped |
| Channels.ChannelListTolerant | lgchannels_generator.py:79-106 | `get_channels` with the intended handler: the same early returns and TypeErrors, and per-entry skipping instead of the escaping AttributeError |
| Channels.TolerantRecords | lgchannels_generator.py:89-103 | intended handler: the loop never raises, and the lineup is exactly the normalisations of the object entries, every one of them kept, in entry order |
| Channels.Objects | lgchannels_generator.py:89-103 | the object entries the intended handler keeps: every object entry's members are in the list, and everything in the list is the members of some object entry |
| Channels.TolerantAgrees | lgchannels_generator.py:89-103 | whenever the source returns a lineup, the intended handler returns the same lineup |
| M3u.CategoryNames | lgchannels_generator.py:139 | `','.join` raises TypeError exactly when categories are not iterable or yield a non-string; otherwise the names are the iterated strings, one per item, in order |
| M3u.GenerateM3uPlaylist | lgchannels_generator.py:128-143 | the loop with its `continue` and six appends returns exactly `Playlist(channels)` |
| M3u.GroupTitle | lgchannels_generator.py:139 | `','.join(channel.get('categories', []))`: the category names joined by commas, or the TypeError the join raises |
| M3u.Entry | lgchannels_generator.py:133-141 | one iteration: nothing for a channel whose stream URL is falsy (the `continue`); otherwise the `#EXTINF` line and the stream URL line, each ending in a line break, or the join's TypeError |
| M3u.Playlist | lgchannels_generator.py:128-143 | `generate_m3u_playlist`: the header line followed by each channel's entry, in lineup order, or the first exception |
| M3u.GroupTitleEmpty | lgchannels_generator.py:139 | a channel with no categories (the `[]` default, or any empty iterable) gets an empty group-title |
| M3u.GroupTitleSplits | lgchannels_generator.py:139 | for a non-empty list of category names without a comma, splitting the group-title at commas gives back the names (no names give the empty group-title of `M3u.GroupTitleEmpty`) |
| M3u.PlaylistHeader | lgchannels_generator.py:130 | every playlist starts with `#EXTM3U x-tvg-url=lgchannels_epg.xml.gz` and a line break |
| M3u.PlaylistHeaderOnly | lgchannels_generator.py:130-134 | a lineup without a streamable channel gives the header line alone |
| M3u.SkipUnstreamable | lgchannels_generator.py:133-134 | removing a channel without a stream URL from anywhere in the lineup leaves the playlist unchanged |
| M3u.PlaylistFails | lgchannels_generator.py:133-139 | the function raises exactly when some streamable channel's categories cannot be joined |
| M3u.PlaylistEntryAt | lgchannels_generator.py:132-141 | each channel's entry follows, in lineup order, the playlist of the channels before it |
| M3u.EntryBreaks | lgchannels_generator.py:133-141 | with single-line fields, a streamable channel adds exactly two lines and any other channel adds none |
| M3u.PlaylistBreaks | lgchannels_generator.py:130-142 | with single-line fields, the playlist has 1 + 2k lines for k streamable channels |
| Timestamps.ParseIso | lgchannels_generator.py:186 | the parser returns only real calendar dates and times; an offset has two-digit hour and minute fields whose total stays strictly under 24 hours, and the minute field alone is not bounded by 60 |
| Timestamps.ReplaceZ | lgchannels_generator.py:186 | `s.replace('Z', '+00:00')`: text without `Z` is unchanged, and no `Z` is left in the result |
| Timestamps.ZoneText | lgchannels_generator.py:187 | `%z`: empty for a naive time; otherwise a sign, then the offset's whole hours and remaining minutes in two digits each, with `-` only for a nonzero negative offset |
| Timestamps.XmltvText | lgchannels_generator.py:187 | `strftime('%Y%m%d%H%M%S %z')`: the fourteen zero-padded date and time digits, a space, then the zone |
| Timestamps.NumberOfPad | lgchannels_generator.py:187 | zero-padding a number to its field width loses nothing |
| Timestamps.IsoRoundTrip | lgchannels_generator.py:186 | every valid timestamp's ISO text parses back to that timestamp |
| Timestamps.IsoCanonical | lgchannels_generator.py:186 | the parser accepts only the canonical text of the timestamp it returns |
| Timestamps.XmltvFields | lgchannels_generator.py:187 | the output has fourteen digits and a space, then either nothing (naive time) or a signed four-digit offset; every date and time field can be read back; the printed zone is the offset normalised (hours under 24, minutes under 60, the same total in minutes); the sign is '-' only for a nonzero negative offset |
| Timestamps.FormatTime | lgchannels_generator.py:181-189 | a falsy value, a non-string or a rejected string gives ""; the result is non-empty exactly for a string the parser accepts after `Z` becomes `+00:00`, and then it has the XMLTV form |
| Timestamps.FormatIso | lgchannels_generator.py:186-187 | a valid timestamp's ISO text converts to that timestamp's XMLTV text |
| Timestamps.FormatZulu | lgchannels_generator.py:186 | a `Z` suffix converts like the offset `+00:00` |
| Timestamps.FormatMinuteOverflow | lgchannels_generator.py:186-187 | `2024-01-15T10:30:00+00:75` is accepted and converts to `20240115103000 +0115` |
| Timestamps.FormatTimeExample | lgchannels_generator.py:181-189 | `2024-01-15T10:30:00Z` converts to `20240115103000 +0000` |
| Xmltv.ChannelElement | lgchannels_generator.py:151-154 | one `<channel>`: the `str(id)` attribute, a display-name holding the name, and an icon with the logo as `src` when the logo is truthy |
| Xmltv.ChannelElements | lgchannels_generator.py:150-154 | one `<channel>` element per channel, in lineup order |
| Xmltv.ChannelHeads | lgchannels_generator.py:150-154 | the first loop builds exactly `ChannelElements(channels)` |
| Xmltv.ChannelElementShape | lgchannels_generator.py:151-154 | a channel element has the id attribute `str(id)` and one display-name holding the name; it has an icon whose src is the logo exactly when the logo is truthy |
| Xmltv.CategoryList | lgchannels_generator.py:174-175 | one `<category>` per genre item, holding that item, in list order |
| Xmltv.ProgrammeElement | lgchannels_generator.py:160-177 | one `<programme>`: channel, start and stop attributes; a title (default 'Unknown'); a desc when `description` is present; the genre's categories |
| Xmltv.Schedule | lgchannels_generator.py:158 | what `get_epg_data(channel['id'])` returns: the channel's guide data, or `[]` when there is none |
| Xmltv.ProgrammesFor | lgchannels_generator.py:158-177 | one channel's programmes: one element per item of its guide data, in order, or the TypeError/AttributeError the loop raises |
| Xmltv.BuildProgramme | lgchannels_generator.py:160-177 | the per-programme code, including its genre loop, builds exactly `ProgrammeElement(id, program)` |
| Xmltv.AppendCategories | lgchannels_generator.py:174-175 | the genre loop appends exactly one `<category>` per list item, in list order, after the children already there |
| Xmltv.ChannelProgrammes | lgchannels_generator.py:158-177 | the programme loop of one channel returns exactly `ProgrammesFor(channel, epg)` |
| Xmltv.GenerateEpgXml | lgchannels_generator.py:145-179 | the two loops return exactly `Guide(channels, epg)` |
| Xmltv.GenresCount | lgchannels_generator.py:171-177 | a genre list of n items gives n categories, any other genre value gives one, and no genre gives none |
| Xmltv.ProgrammeShape | lgchannels_generator.py:160-177 | a programme names its channel by `str(id)` and has exactly one title (default 'Unknown'); it has a desc exactly when the object has `description`; its category count is n for a list of n items, 1 for any other genre, 0 for none |
| Xmltv.ProgrammeCategories | lgchannels_generator.py:171-175 | a genre list's items become the programme's last children: after the title (and desc, if any), the children are exactly `CategoryList` of the items, one category per item in list order |
| Xmltv.ProgrammeTimes | lgchannels_generator.py:162-163 | the start and stop attributes are empty or in the XMLTV time form |
| Xmltv.ProgrammesOfChannel | lgchannels_generator.py:159-164 | when one channel's loop completes, every programme is an object and gives one programme element for that channel, in order |
| Xmltv.ProgrammesCount | lgchannels_generator.py:157-164 | the programme loops append one `<programme>` per listed programme and nothing else |
| Xmltv.Guide | lgchannels_generator.py:145-179 | `generate_epg_xml`: a `<tv>` root whose children are the channel elements followed by every channel's programmes, or the first exception |
| Xmltv.GuideLayout | lgchannels_generator.py:147-164 | the tree is `<tv>`; the lineup's channel elements, in order, come before any programme; all later children are programmes, one per listed programme |
| Xmltv.GuideProgrammesAt | lgchannels_generator.py:157-159 | channel i's programmes sit after the channel elements and after the programmes of channels 0..i-1 |
| Xmltv.GuideFails | lgchannels_generator.py:158-160 | the function raises exactly when some channel's guide data is not iterable or lists something that is not an object |
| Xmltv.GuideWithoutData | lgchannels_generator.py:157-159 | with no guide data, the tree holds only the channel elements |
| Generator.Run | lgchannels_generator.py:208-231 | the playlist is written exactly when the lineup is non-empty and its playlist can be built, and it is `Playlist` of that lineup, also when the guide step then raises; the guide exists exactly when, in addition, the guide step succeeds; the run ends without an exception exactly when the lineup is read and is empty or both steps succeed, and otherwise the first exception escapes |
| Generator.RunWithoutChannels | lgchannels_generator.py:213-216 | no response, a falsy one, or no `channels`, ends the run with nothing written |
| Generator.RunComplete | lgchannels_generator.py:213-231 | well-formed input gives both artifacts and no exception: 1 + 2k playlist lines, one `<channel>` per channel, one `<programme>` per listed programme |

## Left out

- `fetch_data` (lines 56-77): HTTP, headers, retries and sleeping are not modelled. The parsed response is the parameter of `GetChannels`, and `None` stands for a fetch that gave up.
- `get_epg_data` (lines 108-126): the request, the clock-derived time window and the extraction of `programs` are not modelled. Its result is the `epg` parameter, and an absent id means `[]`.
- `ensure_output_dir`, the playlist file write, `save_gzipped_xml`, XML serialisation and gzip (lines 46-54, 191-206, 220-231) are file I/O and are not modelled. `Run` reports the playlist text and the tree that would be written. A serialisation error, which `save_gzipped_xml` catches and logs, is not modelled.
- Logging is not modelled.
- JSON numbers are integers; floats and their `str()` are not modelled.
- Values.Show, Values.Repr: Python's `repr()` is reproduced only for plain text. Inside nested strings it is missing three things. Quotes and backslashes are not escaped. Newlines and other control characters are not escaped. Double quotes are not chosen for a string that contains a single quote. A dict with duplicate keys is printed once per occurrence, while Python prints each key once. All of this matters only for non-string ids, names, logos or stream URLs (line 141 writes the stream URL through `str()` as well).
- Values.Iterate: an object with duplicate keys yields each occurrence, while a decoded Python dict keeps one key per name.
- Timestamps.ParseIso, Timestamps.FormatTime: only `YYYY-MM-DDTHH:MM:SS` followed by nothing, `Z` or `±HH:MM` is parsed, and every other string gives "". Within that form the offset follows Python: its minute field may exceed 59 as long as the whole offset stays under 24 hours, and `%z` prints it normalised (`+00:75` gives `+0115`). `datetime.fromisoformat` has accepted more since Python 3.7: fractional seconds, date-only text, times with fewer fields (`2024-01-15T10:30`, `2024-01-15T10`), any single-character separator in place of `T`, offsets with seconds, and years 0001-0999. For these inputs `format_time` returns a non-empty time on every Python the script runs on, where the model returns "". Python 3.11 widens the accepted grammar further.
- Generator.Run: reads the lineup with the corrected `ChannelListTolerant`. Under the source as written, a malformed entry ends the run with nothing written (see Findings).
- The generator adds no generator-name attributes to `<tv>` and does not turn relative logo or stream URLs into absolute ones. The model follows the code.

## Findings

| source | as written | input that shows it | evidently intended | confidence | as-written member | corrected member |
|---|---|---|---|---|---|---|
| lgchannels_generator.py:102-103 | the handler's log message calls `channel.get('id')` again; for an entry that is not an object this raises AttributeError outside the `try`, so `get_channels` and the whole run fail | a lineup `{"channels": [7, {"id": "a"}]}` | the malformed entry is skipped with a warning and the well-formed entries are kept | high, not executed | Channels.MalformedEntryExample | Channels.TolerantRecords |
