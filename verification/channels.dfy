/**
 * `get_channels` from the point where the lineup response is available:
 * find the `channels` member, then map every raw entry to the canonical
 * channel record, filling absent keys with defaults.
 */
module Channels {
  import opened Values

  /**
   * The canonical record of lines 92-100. Every field holds the raw value
   * the entry carried (or the default), so a `null` stays `null`.
   */
  datatype Channel = Channel(
    id: Json,
    name: Json,
    number: Json,
    logo: Json,
    streamUrl: Json,
    description: Json,
    categories: Json)

  /** `v` is what `d.get(key, absent)` returns on the decoded entry. */
  ghost predicate Takes(entry: seq<(string, Json)>, key: string, absent: Json, v: Json) {
    && ((forall i :: 0 <= i < |entry| ==> entry[i].0 != key) ==> v == absent)
    && (forall i :: (0 <= i < |entry| && entry[i].0 == key &&
                     forall j :: i < j < |entry| ==> entry[j].0 != key) ==> v == entry[i].1)
  }

  lemma GetTakes(entry: seq<(string, Json)>, key: string, absent: Json)
    ensures Takes(entry, key, absent, Get(entry, key, absent))
  {
    var r := Lookup(entry, key);
    if r.Some? {
      var i :| 0 <= i < |entry| && entry[i] == (key, r.value) &&
               forall j :: i < j < |entry| ==> entry[j].0 != key;
      forall i' | 0 <= i' < |entry| && entry[i'].0 == key &&
                  (forall j :: i' < j < |entry| ==> entry[j].0 != key)
        ensures Get(entry, key, absent) == entry[i'].1
      {
        assert entry[i].0 == key && entry[i'].0 == key;
      }
    }
  }

  /** One entry of the lineup (a decoded object) as its canonical record. */
  function Normalize(entry: seq<(string, Json)>): (c: Channel)
    ensures Takes(entry, "id", Null, c.id)
    ensures Takes(entry, "name", Str("Unknown"), c.name)
    ensures Takes(entry, "channelNumber", Str("0"), c.number)
    ensures Takes(entry, "logoUrl", Str(""), c.logo)
    ensures Takes(entry, "streamUrl", Str(""), c.streamUrl)
    ensures Takes(entry, "description", Str(""), c.description)
    ensures Takes(entry, "categories", Arr([]), c.categories)
  {
    GetTakes(entry, "id", Null);
    GetTakes(entry, "name", Str("Unknown"));
    GetTakes(entry, "channelNumber", Str("0"));
    GetTakes(entry, "logoUrl", Str(""));
    GetTakes(entry, "streamUrl", Str(""));
    GetTakes(entry, "description", Str(""));
    GetTakes(entry, "categories", Arr([]));
    Channel(
      Get(entry, "id", Null),
      Get(entry, "name", Str("Unknown")),
      Get(entry, "channelNumber", Str("0")),
      Get(entry, "logoUrl", Str("")),
      Get(entry, "streamUrl", Str("")),
      Get(entry, "description", Str("")),
      Get(entry, "categories", Arr([])))
  }

  /** The lineup entry, under the API's own key names, that carries exactly the fields of `c`. */
  function Raw(c: Channel): seq<(string, Json)> {
    [("id", c.id), ("name", c.name), ("channelNumber", c.number), ("logoUrl", c.logo),
     ("streamUrl", c.streamUrl), ("description", c.description), ("categories", c.categories)]
  }

  /** Normalising is the inverse of writing a record back under the API's key names. */
  lemma NormalizeRaw(c: Channel)
    ensures Normalize(Raw(c)) == c
  {
    var raw := Raw(c);
    RawLookup(c);
    assert raw[0] == ("id", c.id);
    assert raw[1] == ("name", c.name);
    assert raw[2] == ("channelNumber", c.number);
    assert raw[3] == ("logoUrl", c.logo);
    assert raw[4] == ("streamUrl", c.streamUrl);
    assert raw[5] == ("description", c.description);
    assert raw[6] == ("categories", c.categories);
  }

  /** Each key of `Raw(c)` occurs once, so its lookup finds the record's field. */
  lemma RawLookup(c: Channel)
    ensures forall i :: 0 <= i < |Raw(c)| ==> Lookup(Raw(c), Raw(c)[i].0) == Some(Raw(c)[i].1)
  {
    var raw := Raw(c);
    forall i | 0 <= i < |raw| ensures Lookup(raw, raw[i].0) == Some(raw[i].1) {
      var r := Lookup(raw, raw[i].0);
      if r.None? {
        assert false;
      } else {
        var k :| 0 <= k < |raw| && raw[k] == (raw[i].0, r.value) &&
                 forall j :: k < j < |raw| ==> raw[j].0 != raw[i].0;
        assert raw[k].0 == raw[i].0;
        assert k == i by { DistinctKeys(c, i, k); }
      }
    }
  }

  lemma DistinctKeys(c: Channel, i: nat, k: nat)
    requires i < |Raw(c)| && k < |Raw(c)| && Raw(c)[i].0 == Raw(c)[k].0
    ensures i == k
  {
    var keys := ["id", "name", "channelNumber", "logoUrl", "streamUrl", "description", "categories"];
    assert forall n :: 0 <= n < 7 ==> Raw(c)[n].0 == keys[n];
    assert |keys[i]| == |keys[k]|;
    assert keys[i][0] == keys[k][0];
  }

  /** A name that is present but null stays null: `get` applies its default only to absent keys. */
  lemma NullNameKept(entry: seq<(string, Json)>)
    requires exists i :: 0 <= i < |entry| && entry[i] == ("name", Null) &&
                         forall j :: i < j < |entry| ==> entry[j].0 != "name"
    ensures Normalize(entry).name == Null
  {
    var i :| 0 <= i < |entry| && entry[i] == ("name", Null) &&
             forall j :: i < j < |entry| ==> entry[j].0 != "name";
    assert entry[i].0 == "name";
  }

  /** An entry with none of the keys gets every default. */
  lemma NormalizeEmpty()
    ensures Normalize([]) ==
            Channel(Null, Str("Unknown"), Str("0"), Str(""), Str(""), Str(""), Arr([]))
  {
  }

  /**
   * The value found under `channels` by lines 85-88, or None where the
   * function returns [] there; TypeError where the `in` test or the
   * subscript raises on a document that is not an object.
   */
  function ChannelsMember(data: Option<Json>): (r: Result<Option<Json>, Fault>)
    ensures data.None? ==> r == Success(None)
    ensures data.Some? && !Truthy(data.value) ==> r == Success(None)
    ensures data.Some? && data.value.Obj? ==> r == Success(Lookup(data.value.fields, "channels"))
  {
    match data
    case None => Success(None)
    case Some(v) =>
      if !Truthy(v) then Success(None)
      else match v
        case Obj(fields) => Success(Lookup(fields, "channels"))
        case Arr(items) => if Str("channels") in items then Failure(TypeError) else Success(None)
        case Str(s) => if Contains(s, "channels") then Failure(TypeError) else Success(None)
        case _ => Failure(TypeError)
  }

  /** The raw entries line 90 loops over: none when lines 85-88 return early. */
  function RawEntries(data: Option<Json>): Result<seq<Json>, Fault> {
    match ChannelsMember(data)
    case Failure(e) => Failure(e)
    case Success(None) => Success([])
    case Success(Some(v)) => Iterate(v)
  }

  /**
   * Lines 91-103 for one entry as written: a decoded object gives its
   * record; anything else raises AttributeError at `channel.get`, and the
   * handler's own `channel.get('id')` raises it again, outside the `try`.
   */
  function EntryAsWritten(entry: Json): Result<seq<Channel>, Fault> {
    if entry.Obj? then Success([Normalize(entry.fields)]) else Failure(AttributeError)
  }

  /** `get_channels` as written, once the response is available. */
  function ChannelList(data: Option<Json>): Result<seq<Channel>, Fault> {
    match RawEntries(data)
    case Failure(e) => Failure(e)
    case Success(entries) => Collect(entries, EntryAsWritten)
  }

  /**
   * `get_channels` (lines 85-106) given the parsed response, `None` when
   * `fetch_data` gave up. Fetching and logging are not modelled.
   */
  method GetChannels(data: Option<Json>) returns (r: Result<seq<Channel>, Fault>)
    ensures r == ChannelList(data)
  {
    var entries := RawEntries(data);
    if entries.Failure? {
      return Failure(entries.error);
    }
    var es := entries.value;
    var channels: seq<Channel> := [];
    for i := 0 to |es|
      invariant Collect(es[..i], EntryAsWritten) == Success(channels)
    {
      CollectStep(es, i, EntryAsWritten);
      if !es[i].Obj? {
        CollectPrefixFails(es, i + 1, EntryAsWritten);
        return Failure(AttributeError);
      }
      channels := channels + [Normalize(es[i].fields)];
    }
    assert es[..|es|] == es;
    return Success(channels);
  }

  /** No response, a falsy one, or one without `channels`: the empty lineup. */
  lemma ChannelListWithoutChannels(data: Option<Json>)
    requires || data.None?
             || !Truthy(data.value)
             || (data.value.Obj? && Lookup(data.value.fields, "channels").None?)
    ensures ChannelList(data) == Success([])
  {
  }

  /**
   * When the source returns a lineup, it holds one record per raw entry,
   * in order, each the normalisation of that entry.
   */
  lemma {:induction false} ChannelListRecords(data: Option<Json>)
    requires ChannelList(data).Success?
    ensures RawEntries(data).Success?
    ensures var es, cs := RawEntries(data).value, ChannelList(data).value;
            |cs| == |es| &&
            forall i :: 0 <= i < |es| ==> es[i].Obj? && cs[i] == Normalize(es[i].fields)
  {
    var es := RawEntries(data).value;
    CollectFails(es, EntryAsWritten);
    CollectSingles(es, EntryAsWritten);
  }

  /** The source raises as soon as one entry is not an object. */
  lemma ChannelListCrashes(data: Option<Json>, i: nat)
    requires RawEntries(data).Success? && i < |RawEntries(data).value|
    requires !RawEntries(data).value[i].Obj?
    ensures ChannelList(data) == Failure(AttributeError)
  {
    var es := RawEntries(data).value;
    CollectFails(es, EntryAsWritten);
    CollectFailsWith(es, EntryAsWritten, AttributeError);
  }

  /** Every failure of `EntryAsWritten` is an AttributeError, so the loop's is too. */
  lemma {:induction false} CollectFailsWith<X, T>(xs: seq<X>, f: X -> Result<seq<T>, Fault>, e: Fault)
    requires forall x :: f(x).Failure? ==> f(x).error == e
    ensures Collect(xs, f).Failure? ==> Collect(xs, f).error == e
    decreases |xs|
  {
    if xs != [] {
      CollectFailsWith(xs[..|xs| - 1], f, e);
    }
  }

  // ---- the handler as evidently intended ----

  /** Lines 91-103 as intended: an entry that is not an object is skipped. */
  function EntryTolerant(entry: Json): Result<seq<Channel>, Fault> {
    if entry.Obj? then Success([Normalize(entry.fields)]) else Success([])
  }

  /** `get_channels` with the per-entry handler that skips a malformed entry. */
  function ChannelListTolerant(data: Option<Json>): Result<seq<Channel>, Fault> {
    match RawEntries(data)
    case Failure(e) => Failure(e)
    case Success(entries) => Collect(entries, EntryTolerant)
  }

  /** The members of the entries that are decoded objects, in entry order. */
  function Objects(es: seq<Json>): (r: seq<seq<(string, Json)>>)
    ensures forall o :: o in r ==> Obj(o) in es
    ensures forall i :: 0 <= i < |es| && es[i].Obj? ==> es[i].fields in r
    decreases |es|
  {
    if es == [] then []
    else
      var init := es[..|es| - 1];
      assert forall i :: 0 <= i < |init| ==> init[i] == es[i];
      Objects(init) + (if es[|es| - 1].Obj? then [es[|es| - 1].fields] else [])
  }

  /**
   * The intended behaviour: the loop never raises, and the lineup holds
   * the normalisation of every object entry, in entry order, and nothing else.
   */
  lemma TolerantRecords(es: seq<Json>)
    ensures Collect(es, EntryTolerant).Success?
    ensures var v, os := Collect(es, EntryTolerant).value, Objects(es);
            |v| == |os| && forall k :: 0 <= k < |os| ==> v[k] == Normalize(os[k])
    ensures forall c :: c in Collect(es, EntryTolerant).value ==>
                        exists i :: 0 <= i < |es| && es[i].Obj? && c == Normalize(es[i].fields)
  {
    SkipsExact(es, EntryTolerant, Normalize);
    var os, v := Objects(es), Collect(es, EntryTolerant).value;
    forall c | c in v
      ensures exists i :: 0 <= i < |es| && es[i].Obj? && c == Normalize(es[i].fields)
    {
      var k :| 0 <= k < |v| && v[k] == c;
      assert c == Normalize(os[k]) && os[k] in os;
      var i :| 0 <= i < |es| && es[i] == Obj(os[k]);
    }
  }

  /**
   * A loop whose step keeps an object entry as `norm` of its members and
   * skips anything else returns exactly `norm` of the object entries.
   */
  lemma {:induction false} SkipsExact(es: seq<Json>, f: Json -> Result<seq<Channel>, Fault>,
                                      norm: seq<(string, Json)> -> Channel)
    requires forall e :: f(e) == if e.Obj? then Success([norm(e.fields)]) else Success([])
    ensures Collect(es, f).Success?
    ensures var v, os := Collect(es, f).value, Objects(es);
            |v| == |os| && forall k :: 0 <= k < |os| ==> v[k] == norm(os[k])
    decreases |es|
  {
    if es != [] {
      var init, x := es[..|es| - 1], es[|es| - 1];
      SkipsExact(init, f, norm);
      var prev := Collect(init, f).value;
      var v := Collect(es, f).value;
      if x.Obj? {
        assert v == prev + [norm(x.fields)];
        assert Objects(es) == Objects(init) + [x.fields];
      } else {
        assert v == prev + [];
      }
    }
  }

  /** Where the source does not raise, the intended version returns the same lineup. */
  lemma TolerantAgrees(data: Option<Json>)
    requires ChannelList(data).Success?
    ensures ChannelListTolerant(data) == ChannelList(data)
  {
    var es := RawEntries(data).value;
    ChannelListRecords(data);
    AgreeOnObjects(es);
  }

  lemma {:induction false} AgreeOnObjects(es: seq<Json>)
    requires forall i :: 0 <= i < |es| ==> es[i].Obj?
    ensures Collect(es, EntryTolerant) == Collect(es, EntryAsWritten)
    decreases |es|
  {
    if es != [] {
      var init := es[..|es| - 1];
      forall i | 0 <= i < |init| ensures init[i].Obj? { assert init[i] == es[i]; }
      AgreeOnObjects(init);
    }
  }

  /**
   * The discrepancy: one malformed entry before a well-formed one makes the
   * source raise, where the intended handler keeps the well-formed record.
   */
  lemma MalformedEntryExample(good: seq<(string, Json)>)
    ensures var data := Some(Obj([("channels", Arr([Num(7), Obj(good)]))]));
            && ChannelList(data) == Failure(AttributeError)
            && ChannelListTolerant(data) == Success([Normalize(good)])
  {
    var es := [Num(7), Obj(good)];
    var data := Some(Obj([("channels", Arr(es))]));
    assert RawEntries(data) == Success(es);
    ChannelListCrashes(data, 0);
    TolerantSkipsNumber(es, good);
  }

  lemma TolerantSkipsNumber(es: seq<Json>, good: seq<(string, Json)>)
    requires es == [Num(7), Obj(good)]
    ensures Collect(es, EntryTolerant) == Success([Normalize(good)])
  {
    CollectPair(Num(7), Obj(good), EntryTolerant);
  }

  lemma CollectPair<X, T>(x: X, y: X, f: X -> Result<seq<T>, Fault>)
    requires f(x) == Success([])
    ensures Collect([x, y], f) == f(y)
  {
    assert [x, y][..1] == [x];
    assert [x][..0] == [];
    assert Collect([], f) == Success([]);
    var nothing: seq<T> := [];
    assert nothing + nothing == nothing;
    assert Collect([x], f) == Then(Success(nothing), f(x));
    assert Collect([x], f) == Success(nothing);
    assert Collect([x, y], f) == Then(Success(nothing), f(y));
    if f(y).Success? {
      assert nothing + f(y).value == f(y).value;
    }
  }
}
