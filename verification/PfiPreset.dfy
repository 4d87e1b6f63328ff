/** Inserting a saved preset behind a layer of a document. */
module PfiPreset {
  import opened Basics
  import opened LayerTree
  import opened DecimalText
  import opened XmlText
  import opened PfiWriter
  import opened PfiReader
  import opened PfiRoundTrip
  import opened PfiSameTree

  /** The raw markup of a preset: the selected layers, with everything inside them. */
  function SavePreset(list: seq<Layer>, pool: set<int>): seq<Event> {
    [Open("preset", [Attr("version", PrintInt(FILE_VERSION))])] + SaveList(list, pool) + [Close("preset")]
  }

  /** Reading a preset into a list of a document, with a layer given behind which it should go. */
  function BeginPreset(doc: Doc, place: Place, previous: Option<int>, isMap: bool, version: int): Loader {
    Loader(doc, [], [Slot(place, isMap)], previous, Some(place), isMap, None, version, [])
  }

  lemma {:induction false} SavedPresetDelivered(list: seq<Layer>, pool: set<int>)
    requires PlainWords(list)
    ensures Deliver(SavePreset(list, pool))
         == Some([Open("preset", [Attr("version", PrintInt(FILE_VERSION))])] + ListEvents(list, pool)
                 + [Close("preset")])
  {
    var version := PrintInt(FILE_VERSION);
    IntIsSimple(FILE_VERSION);
    SimpleIsPlain(version);
    DeliverOpen("preset", "version", version, version);
    SavedListDelivered(list, pool);
    DeliverOne(Close("preset"), Close("preset"));
    var head := [Open("preset", [Attr("version", version)])];
    DeliverConcat(head, SaveList(list, pool), head, ListEvents(list, pool));
    DeliverConcat(head + SaveList(list, pool), [Close("preset")], head + ListEvents(list, pool), [Close("preset")]);
  }

  /** The members of a list once these layers have been read into it: the first behind the given one,
      all others at the end. */
  ghost predicate Landed(before: seq<int>, now: seq<int>, previous: Option<int>, ids: seq<int>) {
    && (ids == [] || previous.None? || previous.value !in before ==> now == before + ids)
    && (forall k :: 0 <= k < |before| && previous == Some(before[k]) && before[k] !in before[..k] && ids != [] ==>
          now == before[..k + 1] + [ids[0]] + before[k + 1..] + ids[1..])
  }

  lemma LandedAfterFirst(before: seq<int>, previous: Option<int>, first: int, rest: seq<int>)
    ensures Landed(before, AppendAfter(before, previous, first) + rest, previous, [first] + rest)
  {
    var ids, now := [first] + rest, AppendAfter(before, previous, first) + rest;
    AppendAfterAt(before, previous, first);
    assert ids[0] == first && ids[1..] == rest;
    if previous.None? || previous.value !in before {
      Regrouped(before, [first], rest);
    }
    forall k | 0 <= k < |before| && previous == Some(before[k]) && before[k] !in before[..k]
      ensures now == before[..k + 1] + [ids[0]] + before[k + 1..] + ids[1..]
    {
      assert AppendAfter(before, previous, first) == before[..k + 1] + [first] + before[k + 1..];
    }
  }

  /** Reading has turned the document of s into d, with these layers added to the open list. */
  ghost predicate Inserted(s: Loader, d: Doc, rl: Reloaded)
    requires s.place.Some? && Exists(s.doc, s.place.value)
  {
    && Exists(d, s.place.value)
    && GrownTo(s.doc, d, s.place.value, rl, ListAt(d, s.place.value))
    && Landed(ListAt(s.doc, s.place.value), ListAt(d, s.place.value), s.layer, TopSeq(rl.list))
  }

  lemma {:induction false} PresetLayersLoad(r: Registry, s: Loader, list: seq<Layer>, pool: set<int>)
    requires InList(s) && KnownOperations(r, list) && s.layers == []
    ensures Inserted(s, Load(r, s, ListEvents(list, pool)).doc,
                     ReloadList(r, pool, list, s.doc.pool.Keys, s.mapper, s.isMap))
  {
    if list == [] {
      assert TopSeq([]) == [];
      NothingAdded(s.doc, s.place.value, s.mapper);
    } else if list[0].hidden {
      PresetLayersLoad(r, s, list[1..], pool);
      assert [] + ListEvents(list[1..], pool) == ListEvents(list[1..], pool);
      var b := ReloadList(r, pool, list[1..], s.doc.pool.Keys, s.mapper, s.isMap);
      assert [] + b.list == b.list;
    } else {
      FirstLayerLoads(r, s, list, pool);
    }
  }

  lemma {:induction false} FirstLayerLoads(r: Registry, s: Loader, list: seq<Layer>, pool: set<int>)
    requires InList(s) && KnownOperations(r, list) && s.layers == [] && list != [] && !list[0].hidden
    ensures Inserted(s, Load(r, s, ListEvents(list, pool)).doc,
                     ReloadList(r, pool, list, s.doc.pool.Keys, s.mapper, s.isMap))
  {
    var t := Load(r, s, LayerEvents(list[0], pool));
    var a := ReloadLayer(r, pool, list[0], s.doc.pool.Keys, s.mapper, s.isMap);
    LayerLoadsIn(r, s, list[0], pool);
    assert ReadyFor(t);
    ListLoads(r, t, list[1..], pool);
    LoadConcat(r, s, LayerEvents(list[0], pool), ListEvents(list[1..], pool));
    BothInserted(s, t, Load(r, t, ListEvents(list[1..], pool)), a,
                 ReloadList(r, pool, list[1..], a.keys, a.mapper, s.isMap));
  }

  lemma BothInserted(s: Loader, t: Loader, u: Loader, a: Reloaded, b: Reloaded)
    requires InList(s) && LayerIn(s, t, a) && Loaded(t, u, b)
    ensures Inserted(s, u.doc, Reloaded(a.list + b.list, b.keys, b.mapper))
  {
    var place := s.place.value;
    GrownBoth(s.doc, t.doc, u.doc, place, a, b, ListAt(t.doc, place));
    LandedAfterFirst(ListAt(s.doc, place), s.layer, a.list[0].id, TopSeq(b.list));
    assert TopSeq(a.list + b.list) == [a.list[0].id] + TopSeq(b.list);
  }

  lemma NothingAdded(doc: Doc, place: Place, mapper: seq<Option<int>>)
    requires Exists(doc, place)
    ensures GrownTo(doc, doc, place, Reloaded([], doc.pool.Keys, mapper), ListAt(doc, place))
  {
    assert Ids([]) == {};
    if place.Inside? {
      assert doc.pool[place.owner := doc.pool[place.owner]] == doc.pool;
    }
  }

  /** Reading a saved preset adds its layers to the list: the first behind the given layer, if that is
      a member, and all others at the end.  The rest of the document stays as it is. */
  lemma {:induction false} PresetLands(r: Registry, list: seq<Layer>, pool: set<int>, doc: Doc, place: Place,
                                       previous: Option<int>, isMap: bool, version: int)
    requires PlainWords(list) && KnownOperations(r, list) && Exists(doc, place)
    ensures var events := Deliver(SavePreset(list, pool));
            && events.Some?
            && var now, rl := Load(r, BeginPreset(doc, place, previous, isMap, version), events.value).doc,
                              ReloadList(r, pool, list, doc.pool.Keys, [], isMap);
            && Exists(now, place)
            && GrownTo(doc, now, place, rl, ListAt(now, place))
            && Landed(ListAt(doc, place), ListAt(now, place), previous, TopSeq(rl.list))
  {
    SavedPresetDelivered(list, pool);
    var open := Open("preset", [Attr("version", PrintInt(FILE_VERSION))]);
    TextAt([Attr("version", PrintInt(FILE_VERSION))], 0, "version", PrintInt(version));
    AtoiPrinted(FILE_VERSION);
    var s := BeginPreset(doc, place, previous, isMap, version);
    var t := BeginPreset(doc, place, previous, isMap, FILE_VERSION);
    LoadOne(r, s, open);
    PresetLayersLoad(r, t, list, pool);
    LoadConcat(r, s, [open], ListEvents(list, pool));
    LoadConcat(r, s, [open] + ListEvents(list, pool), [Close("preset")]);
    LoadOne(r, Load(r, t, ListEvents(list, pool)), Close("preset"));
  }

  lemma TogetherExactlyIf(before: seq<int>, k: nat, ids: seq<int>, now: seq<int>)
    requires k < |before| && ids != []
    requires now == before[..k + 1] + [ids[0]] + before[k + 1..] + ids[1..]
    requires |ids| > 1 ==> ids[1] !in before
    ensures now == before[..k + 1] + ids + before[k + 1..] <==> |ids| == 1 || k == |before| - 1
  {
    var together := before[..k + 1] + ids + before[k + 1..];
    if |ids| == 1 {
      assert ids == [ids[0]] && ids[1..] == [];
    } else if k == |before| - 1 {
      assert before[k + 1..] == [] && ids == [ids[0]] + ids[1..];
    } else {
      assert now[k + 2] == before[k + 1] && together[k + 2] == ids[1];
    }
  }

  lemma NewIdsAreNew(doc: Doc, now: Doc, place: Place, rl: Reloaded, members: seq<int>, x: int)
    requires GrownTo(doc, now, place, rl, members) && x in TopSeq(rl.list)
    ensures x !in doc.pool
  {
    TopSeqIds(rl.list);
    TopIdsAreIds(rl.list);
  }

  /** A preset goes as a whole behind a member of a list if and only if it has at most one layer, or the
      member is the last one: of several layers only the first is inserted there. */
  lemma {:induction false} PresetStaysTogetherExactlyIf(r: Registry, list: seq<Layer>, pool: set<int>, doc: Doc,
                                                        place: Place, k: nat, isMap: bool, version: int)
    requires PlainWords(list) && KnownOperations(r, list) && Exists(doc, place)
    requires var before := ListAt(doc, place);
             k < |before| && before[k] !in before[..k] && forall i :: 0 <= i < |before| ==> before[i] in doc.pool
    ensures Deliver(SavePreset(list, pool)).Some?
    ensures var before := ListAt(doc, place);
            var now := Load(r, BeginPreset(doc, place, Some(before[k]), isMap, version),
                            Deliver(SavePreset(list, pool)).value).doc;
            var ids := TopSeq(ReloadList(r, pool, list, doc.pool.Keys, [], isMap).list);
            && Exists(now, place)
            && (ListAt(now, place) == before[..k + 1] + ids + before[k + 1..] <==> |ids| <= 1 || k == |before| - 1)
  {
    var before := ListAt(doc, place);
    var rl := ReloadList(r, pool, list, doc.pool.Keys, [], isMap);
    PresetLands(r, list, pool, doc, place, Some(before[k]), isMap, version);
    var now := Load(r, BeginPreset(doc, place, Some(before[k]), isMap, version),
                    Deliver(SavePreset(list, pool)).value).doc;
    TogetherIf(doc, now, place, k, rl);
  }

  lemma TogetherIf(doc: Doc, now: Doc, place: Place, k: nat, rl: Reloaded)
    requires Exists(doc, place) && Exists(now, place) && GrownTo(doc, now, place, rl, ListAt(now, place))
    requires var before := ListAt(doc, place);
             && k < |before| && before[k] !in before[..k]
             && (forall i :: 0 <= i < |before| ==> before[i] in doc.pool)
             && Landed(before, ListAt(now, place), Some(before[k]), TopSeq(rl.list))
    ensures var before, ids := ListAt(doc, place), TopSeq(rl.list);
            ListAt(now, place) == before[..k + 1] + ids + before[k + 1..] <==> |ids| <= 1 || k == |before| - 1
  {
    var before, ids := ListAt(doc, place), TopSeq(rl.list);
    if ids == [] {
      assert before[..k + 1] + ids + before[k + 1..] == before == before + ids;
    } else {
      if |ids| > 1 {
        NewIdsAreNew(doc, now, place, rl, ListAt(now, place), ids[1]);
      }
      TogetherExactlyIf(before, k, ids, ListAt(now, place));
    }
  }
}
