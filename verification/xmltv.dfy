/**
 * `generate_epg_xml`: the XMLTV element tree for a channel lineup, one
 * `<channel>` per channel followed by the `<programme>` elements of every
 * channel's guide data.
 */
module Xmltv {
  import opened Values
  import opened Timestamps
  import opened Channels

  /**
   * An element of the tree. Attribute values and the text hold the value
   * the code assigned; `Null` text is an element without text.
   */
  datatype Element = Element(tag: string, attrs: seq<(string, Json)>, text: Json, children: seq<Element>)

  /** Number of elements in `es` with tag `tag`. */
  function Count(es: seq<Element>, tag: string): nat
    decreases |es|
  {
    if es == [] then 0
    else Count(es[..|es| - 1], tag) + (if es[|es| - 1].tag == tag then 1 else 0)
  }

  lemma {:induction false} CountAppend(a: seq<Element>, b: seq<Element>, tag: string)
    ensures Count(a + b, tag) == Count(a, tag) + Count(b, tag)
    decreases |b|
  {
    if b == [] {
      assert a + b == a;
    } else {
      var b' := b[..|b| - 1];
      assert (a + b)[..|a + b| - 1] == a + b';
      assert (a + b)[|a + b| - 1] == b[|b| - 1];
      CountAppend(a, b', tag);
    }
  }

  /** When every element of `es` has tag `tag`, all of them are counted. */
  lemma {:induction false} CountAll(es: seq<Element>, tag: string)
    requires forall k :: 0 <= k < |es| ==> es[k].tag == tag
    ensures Count(es, tag) == |es|
    decreases |es|
  {
    if es != [] {
      var init := es[..|es| - 1];
      forall k | 0 <= k < |init| ensures init[k].tag == tag { assert init[k] == es[k]; }
      CountAll(init, tag);
    }
  }

  /** When no element of `es` has tag `tag`, none is counted. */
  lemma {:induction false} CountNone(es: seq<Element>, tag: string)
    requires forall k :: 0 <= k < |es| ==> es[k].tag != tag
    ensures Count(es, tag) == 0
    decreases |es|
  {
    if es != [] {
      var init := es[..|es| - 1];
      forall k | 0 <= k < |init| ensures init[k].tag != tag { assert init[k] == es[k]; }
      CountNone(init, tag);
    }
  }

  // ---- channels (lines 149-154) ----

  /** The `<channel>` element of one channel. */
  function ChannelElement(c: Channel): Element {
    Element("channel", [("id", Str(Show(c.id)))], Null,
            [Element("display-name", [], c.name, [])] +
            (if Truthy(c.logo) then [Element("icon", [("src", c.logo)], Null, [])] else []))
  }

  /** The `<channel>` elements of a lineup, one per channel, in lineup order. */
  function ChannelElements(cs: seq<Channel>): (r: seq<Element>)
    ensures |r| == |cs|
    ensures forall i :: 0 <= i < |cs| ==> r[i] == ChannelElement(cs[i])
    decreases |cs|
  {
    if cs == [] then []
    else ChannelElements(cs[..|cs| - 1]) + [ChannelElement(cs[|cs| - 1])]
  }

  // ---- programmes (lines 157-177) ----

  function Category(genre: Json): Element {
    Element("category", [], genre, [])
  }

  /** One `<category>` per item of a genre list, in list order. */
  function CategoryList(items: seq<Json>): (r: seq<Element>)
    ensures |r| == |items|
    ensures forall k :: 0 <= k < |items| ==> r[k] == Category(items[k])
    decreases |items|
  {
    if items == [] then []
    else CategoryList(items[..|items| - 1]) + [Category(items[|items| - 1])]
  }

  /** The `<category>` elements for the `genre` member, if present. */
  function Genres(genre: Option<Json>): seq<Element> {
    match genre
    case None => []
    case Some(Arr(items)) => CategoryList(items)
    case Some(g) => [Category(g)]
  }

  /** The `<desc>` element for the `description` member, if present. */
  function Description(description: Option<Json>): seq<Element> {
    match description
    case None => []
    case Some(d) => [Element("desc", [], d, [])]
  }

  /** The channel, start and stop attributes of a programme on channel `id`. */
  function ProgrammeAttrs(id: Json, p: seq<(string, Json)>): seq<(string, Json)> {
    [("channel", Str(Show(id))),
     ("start", Str(FormatTime(Get(p, "startTime", Null)))),
     ("stop", Str(FormatTime(Get(p, "endTime", Null))))]
  }

  /** The title, the optional description and the categories of a programme. */
  function ProgrammeChildren(p: seq<(string, Json)>): seq<Element> {
    [Element("title", [], Get(p, "title", Str("Unknown")), [])] +
    Description(Lookup(p, "description")) +
    Genres(Lookup(p, "genre"))
  }

  /** The `<programme>` element of one programme object on channel `id`. */
  function ProgrammeElement(id: Json, p: seq<(string, Json)>): Element {
    Element("programme", ProgrammeAttrs(id, p), Null, ProgrammeChildren(p))
  }

  /** One iteration of the loop of line 159: `program.get` raises on anything but an object. */
  function ProgrammeOf(id: Json): Json -> Result<seq<Element>, Fault> {
    (p: Json) => if p.Obj? then Success([ProgrammeElement(id, p.fields)]) else Failure(AttributeError)
  }

  /**
   * What `get_epg_data(channel['id'])` returns, given the guide data: the
   * `programs` member of the response for that id, or [] when there is none.
   */
  function Schedule(epg: map<Json, Json>, id: Json): Json {
    if id in epg then epg[id] else Arr([])
  }

  /** The `<programme>` elements of one channel, or the exception raised. */
  function ProgrammesFor(c: Channel, epg: map<Json, Json>): Result<seq<Element>, Fault> {
    match Iterate(Schedule(epg, c.id))
    case Failure(e) => Failure(e)
    case Success(ps) => Collect(ps, ProgrammeOf(c.id))
  }

  /** One iteration of the loop of line 157. */
  function ProgrammesOf(epg: map<Json, Json>): Channel -> Result<seq<Element>, Fault> {
    (c: Channel) => ProgrammesFor(c, epg)
  }

  /** The `<tv>` tree for a lineup and its guide data, or the exception raised. */
  function Guide(cs: seq<Channel>, epg: map<Json, Json>): Result<Element, Fault> {
    match Collect(cs, ProgrammesOf(epg))
    case Failure(e) => Failure(e)
    case Success(ps) => Success(Element("tv", [], Null, ChannelElements(cs) + ps))
  }

  /** Lines 160-177 for one programme object. */
  method BuildProgramme(id: Json, p: seq<(string, Json)>) returns (e: Element)
    ensures e == ProgrammeElement(id, p)
  {
    var attrs := [("channel", Str(Show(id))),
                  ("start", Str(FormatTime(Get(p, "startTime", Null)))),
                  ("stop", Str(FormatTime(Get(p, "endTime", Null))))];
    var children := [Element("title", [], Get(p, "title", Str("Unknown")), [])];
    ghost var titled := children;
    var description := Lookup(p, "description");
    if description.Some? {
      children := children + [Element("desc", [], description.value, [])];
    }
    ghost var described := children;
    assert described == titled + Description(description);
    var genre := Lookup(p, "genre");
    if genre.Some? {
      if genre.value.Arr? {
        children := AppendCategories(children, genre.value.items);
      } else {
        children := children + [Category(genre.value)];
      }
    } else {
      assert children == described + [];
    }
    assert attrs == ProgrammeAttrs(id, p);
    assert children == ProgrammeChildren(p);
    e := Element("programme", attrs, Null, children);
  }

  /** The genre loop of lines 174-175: one `<category>` per item, in order. */
  method AppendCategories(children: seq<Element>, items: seq<Json>) returns (r: seq<Element>)
    ensures r == children + CategoryList(items)
  {
    r := children;
    for k := 0 to |items|
      invariant r == children + CategoryList(items[..k])
    {
      assert items[..k + 1][..k] == items[..k];
      r := r + [Category(items[k])];
    }
    assert items[..|items|] == items;
  }

  /** The loop of lines 149-154: one `<channel>` element per channel. */
  method ChannelHeads(channels: seq<Channel>) returns (children: seq<Element>)
    ensures children == ChannelElements(channels)
  {
    children := [];
    for i := 0 to |channels|
      invariant children == ChannelElements(channels[..i])
    {
      var c := channels[i];
      var kids := [Element("display-name", [], c.name, [])];
      if Truthy(c.logo) {
        kids := kids + [Element("icon", [("src", c.logo)], Null, [])];
      } else {
        assert kids == kids + [];
      }
      assert Element("channel", [("id", Str(Show(c.id)))], Null, kids) == ChannelElement(c);
      assert channels[..i + 1][..i] == channels[..i];
      children := children + [Element("channel", [("id", Str(Show(c.id)))], Null, kids)];
    }
    assert channels[..|channels|] == channels;
  }

  /** Lines 158-177 for one channel: its `<programme>` elements, or the exception raised. */
  method ChannelProgrammes(c: Channel, epg: map<Json, Json>) returns (r: Result<seq<Element>, Fault>)
    ensures r == ProgrammesFor(c, epg)
  {
    var programs := Iterate(Schedule(epg, c.id));
    if programs.Failure? {
      return Failure(programs.error);
    }
    var ps := programs.value;
    var children: seq<Element> := [];
    for j := 0 to |ps|
      invariant Collect(ps[..j], ProgrammeOf(c.id)) == Success(children)
    {
      CollectStep(ps, j, ProgrammeOf(c.id));
      if !ps[j].Obj? {
        CollectPrefixFails(ps, j + 1, ProgrammeOf(c.id));
        return Failure(AttributeError);
      }
      var e := BuildProgramme(c.id, ps[j].fields);
      children := children + [e];
    }
    assert ps[..|ps|] == ps;
    return Success(children);
  }

  /** `generate_epg_xml` (lines 145-179), with the guide data of every channel as input. */
  method GenerateEpgXml(channels: seq<Channel>, epg: map<Json, Json>) returns (r: Result<Element, Fault>)
    ensures r == Guide(channels, epg)
  {
    var children := ChannelHeads(channels);
    ghost var heads := children;
    for i := 0 to |channels|
      invariant Collect(channels[..i], ProgrammesOf(epg)).Success?
      invariant children == heads + Collect(channels[..i], ProgrammesOf(epg)).value
    {
      var programmes := ChannelProgrammes(channels[i], epg);
      CollectStep(channels, i, ProgrammesOf(epg));
      if programmes.Failure? {
        CollectPrefixFails(channels, i + 1, ProgrammesOf(epg));
        return Failure(programmes.error);
      }
      ConcatAssoc(heads, Collect(channels[..i], ProgrammesOf(epg)).value, programmes.value);
      children := children + programmes.value;
    }
    assert channels[..|channels|] == channels;
    return Success(Element("tv", [], Null, children));
  }

  // ---- properties of the tree ----

  /**
   * A channel element carries the channel id, one display name holding the
   * channel name, and an icon exactly when the logo is truthy.
   */
  lemma ChannelElementShape(c: Channel)
    ensures var e := ChannelElement(c);
            && e.tag == "channel" && e.attrs == [("id", Str(Show(c.id)))]
            && Count(e.children, "display-name") == 1
            && e.children[0] == Element("display-name", [], c.name, [])
            && Count(e.children, "icon") == (if Truthy(c.logo) then 1 else 0)
            && (Truthy(c.logo) ==> e.children[1].attrs == [("src", c.logo)])
  {
    var e := ChannelElement(c);
    var name := [Element("display-name", [], c.name, [])];
    if Truthy(c.logo) {
      var icon := [Element("icon", [("src", c.logo)], Null, [])];
      CountAppend(name, icon, "display-name");
      CountAppend(name, icon, "icon");
      assert icon[..0] == [];
      assert name[..0] == [];
    } else {
      assert e.children == name;
      assert name[..0] == [];
    }
  }

  /** The categories of a programme: one per list item, one for any other genre, none without one. */
  lemma GenresCount(genre: Option<Json>)
    ensures Count(Genres(genre), "category") ==
            match genre
            case None => 0
            case Some(Arr(items)) => |items|
            case Some(_) => 1
    ensures forall k :: 0 <= k < |Genres(genre)| ==> Genres(genre)[k].tag == "category"
  {
    CountAll(Genres(genre), "category");
  }

  /**
   * A programme element names its channel by id, has one title (defaulting
   * to "Unknown"), a description exactly when the object has one, and one
   * category per genre list item, or one for a genre that is not a list.
   */
  lemma ProgrammeShape(id: Json, p: seq<(string, Json)>)
    ensures var e := ProgrammeElement(id, p);
            && e.tag == "programme"
            && e.attrs[0] == ("channel", Str(Show(id)))
            && e.children[0] == Element("title", [], Get(p, "title", Str("Unknown")), [])
            && Count(e.children, "title") == 1
            && (Count(e.children, "desc") == 1 <==> Lookup(p, "description").Some?)
            && Count(e.children, "category") ==
               match Lookup(p, "genre")
               case None => 0
               case Some(Arr(items)) => |items|
               case Some(_) => 1
  {
    var title := [Element("title", [], Get(p, "title", Str("Unknown")), [])];
    var desc := Description(Lookup(p, "description"));
    var genres := Genres(Lookup(p, "genre"));
    GenresCount(Lookup(p, "genre"));
    CountNone(genres, "title");
    CountNone(genres, "desc");
    CountAppend(title, desc, "title");
    CountAppend(title, desc, "desc");
    CountAppend(title, desc, "category");
    CountAppend(title + desc, genres, "title");
    CountAppend(title + desc, genres, "desc");
    CountAppend(title + desc, genres, "category");
    assert title[..0] == [];
    if desc != [] {
      assert desc[..0] == [];
    }
  }

  /** A genre list's items become the programme's categories, in list order. */
  lemma ProgrammeCategories(id: Json, p: seq<(string, Json)>)
    requires Lookup(p, "genre").Some? && Lookup(p, "genre").value.Arr?
    ensures var e, items := ProgrammeElement(id, p), Lookup(p, "genre").value.items;
            && |e.children| > |items|
            && e.children[|e.children| - |items|..] == CategoryList(items)
  {
    var items := Lookup(p, "genre").value.items;
    var head := [Element("title", [], Get(p, "title", Str("Unknown")), [])] +
                Description(Lookup(p, "description"));
    var cats := CategoryList(items);
    assert ProgrammeChildren(p) == head + cats;
    assert (head + cats)[|head|..] == cats;
  }

  /** Start and stop are empty or in the XMLTV timestamp form. */
  lemma ProgrammeTimes(id: Json, p: seq<(string, Json)>)
    ensures var e := ProgrammeElement(id, p);
            && e.attrs[1].0 == "start" && e.attrs[2].0 == "stop"
            && e.attrs[1].1.Str? && (e.attrs[1].1.s == "" || XmltvShaped(e.attrs[1].1.s))
            && e.attrs[2].1.Str? && (e.attrs[2].1.s == "" || XmltvShaped(e.attrs[2].1.s))
  {
  }

  /** Every element one channel's loop appends is a programme naming that channel. */
  lemma {:induction false} ProgrammesOfChannel(id: Json, ps: seq<Json>)
    requires Collect(ps, ProgrammeOf(id)).Success?
    ensures |Collect(ps, ProgrammeOf(id)).value| == |ps|
    ensures forall k :: 0 <= k < |ps| ==>
              ps[k].Obj? && Collect(ps, ProgrammeOf(id)).value[k] == ProgrammeElement(id, ps[k].fields)
  {
    CollectFails(ps, ProgrammeOf(id));
    CollectSingles(ps, ProgrammeOf(id));
  }

  /** The number of programmes the guide data lists for the lineup. */
  function ScheduledCount(cs: seq<Channel>, epg: map<Json, Json>): nat
    decreases |cs|
  {
    if cs == [] then 0
    else
      var last := cs[|cs| - 1];
      ScheduledCount(cs[..|cs| - 1], epg) +
      (match Iterate(Schedule(epg, last.id)) case Success(ps) => |ps| case Failure(_) => 0)
  }

  /** The programmes appended for a lineup are all `<programme>` elements, one per listed programme. */
  lemma {:induction false} ProgrammesCount(cs: seq<Channel>, epg: map<Json, Json>)
    requires Collect(cs, ProgrammesOf(epg)).Success?
    ensures |Collect(cs, ProgrammesOf(epg)).value| == ScheduledCount(cs, epg)
    ensures forall k :: 0 <= k < |Collect(cs, ProgrammesOf(epg)).value| ==>
                        Collect(cs, ProgrammesOf(epg)).value[k].tag == "programme"
    decreases |cs|
  {
    if cs != [] {
      var init := cs[..|cs| - 1];
      var last := cs[|cs| - 1];
      assert Collect(cs, ProgrammesOf(epg)) == Then(Collect(init, ProgrammesOf(epg)), ProgrammesFor(last, epg));
      ProgrammesCount(init, epg);
      var ps := Iterate(Schedule(epg, last.id)).value;
      ProgrammesOfChannel(last.id, ps);
    }
  }

  /**
   * The tree holds one `<channel>` per channel, in lineup order, before any
   * `<programme>`; after them come exactly the listed programmes.
   */
  lemma GuideLayout(cs: seq<Channel>, epg: map<Json, Json>)
    requires Guide(cs, epg).Success?
    ensures var tv := Guide(cs, epg).value;
            && tv.tag == "tv"
            && |tv.children| == |cs| + ScheduledCount(cs, epg)
            && (forall i :: 0 <= i < |cs| ==> tv.children[i] == ChannelElement(cs[i]))
            && (forall k :: |cs| <= k < |tv.children| ==> tv.children[k].tag == "programme")
            && Count(tv.children, "channel") == |cs|
            && Count(tv.children, "programme") == ScheduledCount(cs, epg)
  {
    var heads := ChannelElements(cs);
    var progs := Collect(cs, ProgrammesOf(epg)).value;
    ProgrammesCount(cs, epg);
    CountAll(heads, "channel");
    CountNone(heads, "programme");
    CountAll(progs, "programme");
    CountNone(progs, "channel");
    CountAppend(heads, progs, "channel");
    CountAppend(heads, progs, "programme");
  }

  /** Channel i's programmes follow those of the channels before it. */
  lemma GuideProgrammesAt(cs: seq<Channel>, epg: map<Json, Json>, i: nat)
    requires i < |cs| && Guide(cs, epg).Success?
    ensures ProgrammesFor(cs[i], epg).Success? && Collect(cs[..i], ProgrammesOf(epg)).Success?
    ensures var tv := Guide(cs, epg).value;
            var start := |cs| + |Collect(cs[..i], ProgrammesOf(epg)).value|;
            var mine := ProgrammesFor(cs[i], epg).value;
            start + |mine| <= |tv.children| && tv.children[start..start + |mine|] == mine
  {
    CollectAt(cs, i, ProgrammesOf(epg));
    var heads := ChannelElements(cs);
    var pre := Collect(cs[..i], ProgrammesOf(epg)).value;
    var mine := ProgrammesFor(cs[i], epg).value;
    var post := Collect(cs[i + 1..], ProgrammesOf(epg)).value;
    assert ProgrammesOf(epg)(cs[i]) == ProgrammesFor(cs[i], epg);
    assert Guide(cs, epg).value.children == heads + (pre + mine + post);
    SliceOf(heads, pre, mine, post);
  }

  lemma SliceOf(a: seq<Element>, b: seq<Element>, c: seq<Element>, d: seq<Element>)
    ensures (a + (b + c + d))[|a| + |b|..|a| + |b| + |c|] == c
  {
    assert a + (b + c + d) == (a + b) + c + d;
  }

  /** The tree cannot be built exactly when some channel's data is not iterable or lists a non-object. */
  lemma GuideFails(cs: seq<Channel>, epg: map<Json, Json>)
    ensures Guide(cs, epg).Failure? <==>
            exists i :: 0 <= i < |cs| &&
              (Iterate(Schedule(epg, cs[i].id)).Failure? ||
               exists k :: 0 <= k < |Iterate(Schedule(epg, cs[i].id)).value| &&
                           !Iterate(Schedule(epg, cs[i].id)).value[k].Obj?)
  {
    CollectFails(cs, ProgrammesOf(epg));
    forall c: Channel
      ensures ProgrammesFor(c, epg).Failure? <==>
              (Iterate(Schedule(epg, c.id)).Failure? ||
               exists k :: 0 <= k < |Iterate(Schedule(epg, c.id)).value| &&
                           !Iterate(Schedule(epg, c.id)).value[k].Obj?)
    {
      if Iterate(Schedule(epg, c.id)).Success? {
        CollectFails(Iterate(Schedule(epg, c.id)).value, ProgrammeOf(c.id));
      }
    }
  }

  /** Without guide data every channel has no programmes: the tree holds only channel elements. */
  lemma {:induction false} GuideWithoutData(cs: seq<Channel>)
    ensures Guide(cs, map[]) == Success(Element("tv", [], Null, ChannelElements(cs)))
  {
    NoProgrammes(cs);
    assert ChannelElements(cs) + [] == ChannelElements(cs);
  }

  lemma {:induction false} NoProgrammes(cs: seq<Channel>)
    ensures Collect(cs, ProgrammesOf(map[])) == Success([])
    decreases |cs|
  {
    if cs != [] {
      NoProgrammes(cs[..|cs| - 1]);
      var last := cs[|cs| - 1];
      assert Schedule(map[], last.id) == Arr([]);
      var none: seq<Json> := [];
      assert Collect(none, ProgrammeOf(last.id)) == Success([]);
      var nothing: seq<Element> := [];
      assert nothing + nothing == nothing;
    }
  }
}
