/** Loading what was saved. */
module PfiRoundTrip {
  import opened Basics
  import opened LayerTree
  import opened XmlText
  import opened DecimalText
  import opened PfiWriter
  import opened PfiReader

  // -------------------------------------------------------------------------
  // The tree that loading should give
  // -------------------------------------------------------------------------

  /** The loaded layers, the ids in use afterwards, and the new ids of the file's layers. */
  datatype Reloaded = Reloaded(list: seq<Layer>, keys: set<int>, mapper: seq<Option<int>>)

  /** Default values overwritten by the saved, non-empty ones. */
  function Overlay(base: seq<Property>, props: seq<Property>): seq<Property>
    decreases |props|
  {
    if props == [] then base
    else
      var text := Normalize(props[0].text);
      Overlay(if props[0].name == "" || text == "" then base else SetProp(base, props[0].name, text), props[1..])
  }

  function ReloadOperation(r: Registry, op: Operation, isMap: bool): Operation {
    Operation(op.kind, Overlay(if op.kind == "blender" then r.blender
                               else if r.defaults(op.kind).Some? then r.defaults(op.kind).value
                                   else [], op.props), isMap)
  }

  function ReloadList(r: Registry, pool: set<int>, list: seq<Layer>, keys: set<int>, mapper: seq<Option<int>>,
                      isMap: bool): Reloaded {
    if list == [] then Reloaded([], keys, mapper)
    else
      var a := ReloadLayer(r, pool, list[0], keys, mapper, isMap);
      var b := ReloadList(r, pool, list[1..], a.keys, a.mapper, isMap);
      Reloaded(a.list + b.list, b.keys, b.mapper)
  }

  /** A hidden layer was not saved.  The others get the lowest free id; what lies in a map list
      becomes a map layer, and so does everything inside it. */
  function ReloadLayer(r: Registry, pool: set<int>, l: Layer, keys: set<int>, mapper: seq<Option<int>>,
                       isMap: bool): Reloaded {
    if l.hidden then Reloaded([], keys, mapper)
    else
      var id := FreshId(keys);
      var sub := ReloadList(r, pool, l.sublayers, keys + {id}, PutMapper(mapper, l.id, id), isMap);
      var intensity := ReloadList(r, pool, l.imaps, sub.keys, sub.mapper, true);
      var opacity := ReloadList(r, pool, l.omaps, intensity.keys, intensity.mapper, true);
      Reloaded([Layer(id, Normalize(l.name), l.enabled && !r.startsOff(l.op.kind), l.expanded, l.normal, false,
                      ReloadOperation(r, l.op, isMap), ReloadOperation(r, l.blender, isMap),
                      MapInputs(Written(l.inputs, pool), mapper, 0, []),
                      sub.list, intensity.list, opacity.list)],
               opacity.keys, opacity.mapper)
  }

  /** Every layer has an operation of a known type and a blender. */
  predicate KnownOperations(r: Registry, list: seq<Layer>) {
    list != [] ==> KnownOperationsIn(r, list[0]) && KnownOperations(r, list[1..])
  }

  predicate KnownOperationsIn(r: Registry, l: Layer) {
    && l.id >= 0
    && l.op.kind != "blender" && r.defaults(l.op.kind).Some? && l.blender.kind == "blender"
    && KnownOperations(r, l.sublayers) && KnownOperations(r, l.imaps) && KnownOperations(r, l.omaps)
  }

  // -------------------------------------------------------------------------
  // The tree that a document holds
  // -------------------------------------------------------------------------

  function TopSeq(list: seq<Layer>): (r: seq<int>)
    ensures |r| == |list|
  {
    seq(|list|, i requires 0 <= i < |list| => list[i].id)
  }

  function RecOf(l: Layer): Rec {
    Rec(l.name, l.enabled, l.expanded, l.normal, l.inputs, Some(l.op), Some(l.blender),
        TopSeq(l.sublayers), TopSeq(l.imaps), TopSeq(l.omaps))
  }

  /** The pool holds these layers, with everything inside them. */
  predicate Holds(pool: map<int, Rec>, list: seq<Layer>) {
    list != [] ==> HoldsLayer(pool, list[0]) && Holds(pool, list[1..])
  }

  predicate HoldsLayer(pool: map<int, Rec>, l: Layer) {
    && l.id in pool && pool[l.id] == RecOf(l)
    && Holds(pool, l.sublayers) && Holds(pool, l.imaps) && Holds(pool, l.omaps)
  }

  ghost predicate SameRecs(a: map<int, Rec>, b: map<int, Rec>, ids: set<int>) {
    forall id :: id in ids && id in a ==> id in b && a[id] == b[id]
  }

  lemma {:induction false} HoldsStill(a: map<int, Rec>, b: map<int, Rec>, list: seq<Layer>)
    requires Holds(a, list) && SameRecs(a, b, Ids(list))
    ensures Holds(b, list)
    decreases list
  {
    if list != [] {
      HoldsLayerStill(a, b, list[0]);
      HoldsStill(a, b, list[1..]);
    }
  }

  lemma {:induction false} HoldsLayerStill(a: map<int, Rec>, b: map<int, Rec>, l: Layer)
    requires HoldsLayer(a, l) && SameRecs(a, b, IdsOf(l))
    ensures HoldsLayer(b, l)
    decreases l
  {
    assert l.id in IdsOf(l);
    HoldsStill(a, b, l.sublayers);
    HoldsStill(a, b, l.imaps);
    HoldsStill(a, b, l.omaps);
  }

  lemma {:induction false} HoldsConcat(pool: map<int, Rec>, x: seq<Layer>, y: seq<Layer>)
    requires Holds(pool, x) && Holds(pool, y)
    ensures Holds(pool, x + y)
  {
    if x == [] {
      assert x + y == y;
    } else {
      assert (x + y)[0] == x[0] && (x + y)[1..] == x[1..] + y;
      HoldsConcat(pool, x[1..], y);
    }
  }

  lemma {:induction false} IdsOfConcat(x: seq<Layer>, y: seq<Layer>)
    ensures Ids(x + y) == Ids(x) + Ids(y)
    ensures Distinct(x) && Distinct(y) && Ids(x) !! Ids(y) ==> Distinct(x + y)
    ensures TopSeq(x + y) == TopSeq(x) + TopSeq(y)
  {
    if x == [] {
      assert x + y == y;
    } else {
      assert (x + y)[0] == x[0] && (x + y)[1..] == x[1..] + y;
      IdsOfConcat(x[1..], y);
    }
  }

  // -------------------------------------------------------------------------
  // Attributes of a layer
  // -------------------------------------------------------------------------

  lemma {:induction false} TextAt(attrs: seq<Attr>, i: nat, name: string, otherwise: string)
    requires i < |attrs| && attrs[i].name == name
    requires forall j :: 0 <= j < |attrs| && j != i ==> attrs[j].name != name
    ensures TextOf(attrs, name, otherwise) == attrs[i].text
  {
    if i == 0 {
      NoText(attrs[1..], name, attrs[0].text);
    } else {
      TextAt(attrs[1..], i - 1, name, otherwise);
    }
  }

  lemma {:induction false} NoText(attrs: seq<Attr>, name: string, otherwise: string)
    requires forall j :: 0 <= j < |attrs| ==> attrs[j].name != name
    ensures TextOf(attrs, name, otherwise) == otherwise
  {
    if attrs != [] {
      NoText(attrs[1..], name, otherwise);
    }
  }

  lemma {:induction false} InputsAt(attrs: seq<Attr>, i: nat, mapper: seq<Option<int>>, version: int,
                                    inputs: seq<Input>)
    requires i < |attrs| && attrs[i].name == "inputs"
    requires forall j :: 0 <= j < |attrs| && j != i ==> attrs[j].name != "inputs" && attrs[j].name != "extra_inputs"
    ensures LoadInputs(attrs, mapper, version, inputs)
         == MapInputs(ReadInputs(attrs[i].text, version), mapper, 0, inputs)
  {
    if i == 0 {
      NoInputs(attrs[1..], mapper, version, MapInputs(ReadInputs(attrs[0].text, version), mapper, 0, inputs));
    } else {
      InputsAt(attrs[1..], i - 1, mapper, version, inputs);
    }
  }

  lemma {:induction false} NoInputs(attrs: seq<Attr>, mapper: seq<Option<int>>, version: int, inputs: seq<Input>)
    requires forall j :: 0 <= j < |attrs| ==> attrs[j].name != "inputs" && attrs[j].name != "extra_inputs"
    ensures LoadInputs(attrs, mapper, version, inputs) == inputs
  {
    if attrs != [] {
      NoInputs(attrs[1..], mapper, version, inputs);
    }
  }

  lemma {:induction false} LayerTexts(l: Layer, name: string, pool: set<int>, mapper: seq<Option<int>>, version: int)
    requires version >= 4
    ensures var attrs := LayerAttrs(l, name, pool);
            && TextOf(attrs, "name", "") == name
            && Atoi(TextOf(attrs, "id", "-1")) == l.id
            && Flag(attrs, "visible") == l.enabled
            && Flag(attrs, "expanded") == l.expanded
            && Flag(attrs, "normal") == l.normal
            && LoadInputs(attrs, mapper, version, []) == MapInputs(Written(l.inputs, pool), mapper, 0, [])
  {
    var attrs := LayerAttrs(l, name, pool);
    TextAt(attrs, 0, "name", "");
    TextAt(attrs, 1, "id", "-1");
    TextAt(attrs, 2, "visible", "-1");
    TextAt(attrs, 3, "expanded", "-1");
    TextAt(attrs, 4, "normal", "-1");
    InputsAt(attrs, 5, mapper, version, []);
    AtoiPrinted(l.id);
    AtoiBool(l.enabled);
    AtoiBool(l.expanded);
    AtoiBool(l.normal);
    DecimalText.ReadsInputs(Written(l.inputs, pool), version);
  }

  // -------------------------------------------------------------------------
  // Operations
  // -------------------------------------------------------------------------

  lemma {:induction false} PropsLoad(r: Registry, s: Loader, t: Target, op: Operation, props: seq<Property>)
    requires s.op == Some(t) && OperationAt(s.doc, t) == Some(op) && s.version >= 2
    ensures Load(r, s, PropsEvents(props)) == s.(doc := PutOperation(s.doc, t, op.(props := Overlay(op.props, props))))
    decreases |props|
  {
    if props == [] {
      assert op.(props := Overlay(op.props, [])) == op;
    } else {
      var name, text := props[0].name, Normalize(props[0].text);
      var attrs := [Attr("name", name), Attr("value", text)];
      TextAt(attrs, 0, "name", "");
      TextAt(attrs, 1, "value", "");
      var one := PropertyEvents(name, text);
      var s1 := OnOpen(r, s, "property", attrs);
      assert one[0] == Open("property", attrs) && one[1..] == [Close("property")] && one[1..][1..] == [];
      assert Load(r, s, one) == Load(r, s1, one[1..]) == s1;
      LoadConcat(r, s, one, PropsEvents(props[1..]));
      var base := if name == "" || text == "" then op.props else SetProp(op.props, name, text);
      assert OperationAt(s1.doc, t) == Some(op.(props := base));
      PropsLoad(r, s1, t, op.(props := base), props[1..]);
      PutTwice(s.doc, t, op, op.(props := base), op.(props := Overlay(op.props, props)));
    }
  }

  lemma PutTwice(doc: Doc, t: Target, op: Operation, a: Operation, b: Operation)
    requires OperationAt(doc, t) == Some(op)
    ensures PutOperation(doc, t, op) == doc
    ensures PutOperation(PutOperation(doc, t, a), t, b) == PutOperation(doc, t, b)
  {
    var x := t.layer;
    assert doc.pool[x := doc.pool[x]] == doc.pool;
  }

  /** The state right before the lists of a layer: the layer exists and is the current one. */
  ghost predicate InLayer(s: Loader, id: int, rec: Rec) {
    s.layer == Some(id) && id in s.doc.pool && s.doc.pool[id] == rec && s.version >= 4
  }

  /** The record of a layer right after its operation element was opened. */
  function Opened(r: Registry, rec: Rec, made: Operation): Rec {
    rec.(op := Some(made), blender := Some(Operation("blender", r.blender, false)),
         enabled := rec.enabled && !r.startsOff(made.kind))
  }

  function WithRec(s: Loader, id: int, rec: Rec, op: Option<Target>): Loader {
    s.(op := op, doc := s.doc.(pool := s.doc.pool[id := rec]))
  }

  lemma OperationOpens(r: Registry, s: Loader, id: int, rec: Rec, kind: string)
    requires InLayer(s, id, rec) && kind != "blender" && r.defaults(kind).Some?
    ensures OnOpen(r, s, "operation", [Attr("type", kind)])
         == WithRec(s, id, Opened(r, rec, Operation(kind, r.defaults(kind).value, s.isMap)), Some(OpOf(id)))
  {
    var attrs := [Attr("type", kind)];
    TextAt(attrs, 0, "type", "");
    var doc := s.doc;
    var first := rec.(op := Some(Operation(kind, r.defaults(kind).value, false)),
                      blender := Some(Operation("blender", r.blender, false)));
    assert NewOperation(r, doc, id, kind) == Some(doc.(pool := doc.pool[id := first]));
    var second := first.(enabled := rec.enabled && !r.startsOff(kind));
    assert doc.pool[id := first][id := second] == doc.pool[id := second];
    var third := second.(op := Some(Operation(kind, r.defaults(kind).value, s.isMap)));
    assert doc.pool[id := second][id := third] == doc.pool[id := third];
    assert r.startsOff(kind) || first == second;
  }

  /** The properties and the end of an operation element. */
  lemma {:induction false} OperationFills(r: Registry, s: Loader, t: Target, made: Operation, props: seq<Property>)
    requires s.op == Some(t) && OperationAt(s.doc, t) == Some(made) && s.version >= 2
    ensures Load(r, s, PropsEvents(props) + [Close("operation")])
         == s.(op := None, doc := PutOperation(s.doc, t, made.(props := Overlay(made.props, props))))
  {
    var tail := [Close("operation")];
    PropsLoad(r, s, t, made, props);
    LoadConcat(r, s, PropsEvents(props), tail);
    LoadOne(r, Load(r, s, PropsEvents(props)), Close("operation"));
  }

  lemma {:induction false} LoadOne(r: Registry, s: Loader, e: Event)
    ensures Load(r, s, [e]) == Handle(r, s, e)
  {
    assert [e][1..] == [];
    assert Load(r, Handle(r, s, e), []) == Handle(r, s, e);
  }

  lemma {:induction false} OperationSplits(r: Registry, s: Loader, op: Operation)
    ensures Load(r, s, OperationEvents(op))
         == Load(r, OnOpen(r, s, "operation", [Attr("type", op.kind)]), PropsEvents(op.props) + [Close("operation")])
  {
    var attrs, tail := [Attr("type", op.kind)], PropsEvents(op.props) + [Close("operation")];
    assert OperationEvents(op) == [Open("operation", attrs)] + tail;
    LoadConcat(r, s, [Open("operation", attrs)], tail);
    LoadOne(r, s, Open("operation", attrs));
  }

  lemma {:induction false} OperationLoads(r: Registry, s: Loader, id: int, rec: Rec, op: Operation)
    requires InLayer(s, id, rec) && op.kind != "blender" && r.defaults(op.kind).Some?
    ensures Load(r, s, OperationEvents(op)) == WithRec(s, id, Opened(r, rec, ReloadOperation(r, op, s.isMap)), None)
  {
    var made := Operation(op.kind, r.defaults(op.kind).value, s.isMap);
    OperationSplits(r, s, op);
    OperationOpens(r, s, id, rec, op.kind);
    var before := Opened(r, rec, made);
    var s1 := WithRec(s, id, before, Some(OpOf(id)));
    OperationFills(r, s1, OpOf(id), made, op.props);
    TwicePut(s.doc.pool, id, before, Opened(r, rec, ReloadOperation(r, op, s.isMap)));
  }

  lemma TwicePut(m: map<int, Rec>, id: int, a: Rec, b: Rec)
    ensures m[id := a][id := b] == m[id := b]
  {
  }

  lemma {:induction false} BlenderLoads(r: Registry, s: Loader, id: int, rec: Rec, blender: Operation)
    requires InLayer(s, id, rec) && blender.kind == "blender"
    requires rec.blender == Some(Operation("blender", r.blender, false))
    ensures Load(r, s, OperationEvents(blender))
         == WithRec(s, id, rec.(blender := Some(ReloadOperation(r, blender, s.isMap))), None)
  {
    TextAt([Attr("type", "blender")], 0, "type", "");
    var made := Operation("blender", r.blender, s.isMap);
    var before := rec.(blender := Some(made));
    OperationSplits(r, s, blender);
    var s1 := WithRec(s, id, before, Some(BlenderOf(id)));
    assert OnOpen(r, s, "operation", [Attr("type", "blender")]) == s1;
    OperationFills(r, s1, BlenderOf(id), made, blender.props);
    TwicePut(s.doc.pool, id, before, rec.(blender := Some(ReloadOperation(r, blender, s.isMap))));
  }

  // -------------------------------------------------------------------------
  // Lists and layers
  // -------------------------------------------------------------------------

  /** The loader stands in an open list. */
  ghost predicate InList(s: Loader) {
    && s.place.Some? && Exists(s.doc, s.place.value)
    && s.slots != [] && s.slots[|s.slots| - 1] == Slot(s.place.value, s.isMap)
    && s.op == None && s.version >= 4
    && (forall i :: 0 <= i < |s.layers| ==> s.layers[i] in s.doc.pool)
  }

  /** Moreover, neither the current layer nor the layer that will become current again is a member of
      the open list. */
  ghost predicate ReadyFor(s: Loader) {
    && InList(s)
    && (s.layer.Some? ==> s.layer.value in s.doc.pool && s.layer.value !in ListAt(s.doc, s.place.value))
    && (TopOf(s.layers).Some? ==> TopOf(s.layers).value !in ListAt(s.doc, s.place.value))
  }

  /** Outside one list, old layers are as they were. */
  ghost predicate SameElsewhere(a: Doc, b: Doc, place: Place) {
    && Exists(a, place) && Exists(b, place)
    && (var c := WithList(a, place, ListAt(b, place));
        b.top == c.top && SameRecs(c.pool, b.pool, a.pool.Keys))
  }

  /** Document b is document a with these layers added, and with the given members in one list. */
  ghost predicate GrownTo(a: Doc, b: Doc, place: Place, rl: Reloaded, members: seq<int>) {
    && Exists(a, place)
    && a.pool.Keys <= rl.keys == b.pool.Keys
    && SameElsewhere(a, b, place)
    && ListAt(b, place) == members
    && Holds(b.pool, rl.list)
    && Distinct(rl.list) && Ids(rl.list) == rl.keys - a.pool.Keys
  }

  /** Document b is document a with these layers added at the end of a list. */
  ghost predicate Grown(a: Doc, b: Doc, place: Place, rl: Reloaded) {
    Exists(a, place) && GrownTo(a, b, place, rl, ListAt(a, place) + TopSeq(rl.list))
  }

  /** Reading has turned s into t and added these layers to the open list. */
  ghost predicate Loaded(s: Loader, t: Loader, rl: Reloaded) {
    && s.place.Some?
    && t == s.(doc := t.doc, mapper := rl.mapper, layer := t.layer)
    && (t.layer == s.layer || t.layer == TopOf(s.layers))
    && Grown(s.doc, t.doc, s.place.value, rl)
  }

  lemma LoadedNothing(s: Loader)
    requires ReadyFor(s)
    ensures Loaded(s, s, Reloaded([], s.doc.pool.Keys, s.mapper))
  {
    var place := s.place.value;
    assert TopSeq([]) == [];
    assert ListAt(s.doc, place) + [] == ListAt(s.doc, place);
    assert Ids([]) == {};
    if place.Inside? {
      assert s.doc.pool[place.owner := s.doc.pool[place.owner]] == s.doc.pool;
    }
  }

  lemma StillReady(s: Loader, t: Loader, rl: Reloaded)
    requires ReadyFor(s) && Loaded(s, t, rl)
    ensures ReadyFor(t)
  {
    TopSeqIds(rl.list);
    TopIdsAreIds(rl.list);
  }

  lemma TopSeqIds(list: seq<Layer>)
    ensures forall x :: x in TopSeq(list) ==> x in TopIds(list)
  {
    forall x | x in TopSeq(list) ensures x in TopIds(list) {
      var i :| 0 <= i < |list| && TopSeq(list)[i] == x;
      assert list[i].id == x;
    }
  }

  lemma LoadedBoth(s: Loader, t: Loader, u: Loader, a: Reloaded, b: Reloaded)
    requires ReadyFor(s) && Loaded(s, t, a) && Loaded(t, u, b)
    ensures Loaded(s, u, Reloaded(a.list + b.list, b.keys, b.mapper))
  {
    var place := s.place.value;
    GrownBoth(s.doc, t.doc, u.doc, place, a, b, ListAt(s.doc, place) + TopSeq(a.list));
    IdsOfConcat(a.list, b.list);
    assert ListAt(u.doc, place) == ListAt(s.doc, place) + (TopSeq(a.list) + TopSeq(b.list));
  }

  lemma GrownBoth(d0: Doc, d1: Doc, d2: Doc, place: Place, a: Reloaded, b: Reloaded, members: seq<int>)
    requires GrownTo(d0, d1, place, a, members) && Grown(d1, d2, place, b)
    ensures GrownTo(d0, d2, place, Reloaded(a.list + b.list, b.keys, b.mapper), members + TopSeq(b.list))
  {
    IdsOfConcat(a.list, b.list);
    LaterRecs(d1, d2, a.list, place);
    HoldsStill(d1.pool, d2.pool, a.list);
    HoldsConcat(d2.pool, a.list, b.list);
    ElsewhereBoth(d0, d1, d2, place);
  }

  lemma {:induction false} LaterRecs(a: Doc, b: Doc, list: seq<Layer>, place: Place)
    requires SameElsewhere(a, b, place)
    requires place.Inside? ==> place.owner !in Ids(list)
    ensures SameRecs(a.pool, b.pool, Ids(list))
  {
  }

  lemma ElsewhereBoth(a: Doc, b: Doc, c: Doc, place: Place)
    requires a.pool.Keys <= b.pool.Keys
    requires SameElsewhere(a, b, place) && SameElsewhere(b, c, place)
    ensures SameElsewhere(a, c, place)
  {
    forall x | x in a.pool.Keys ensures c.pool[x] == WithList(a, place, ListAt(c, place)).pool[x] {
      RecBoth(a, b, c, place, x);
    }
  }

  lemma RecBoth(a: Doc, b: Doc, c: Doc, place: Place, x: int)
    requires a.pool.Keys <= b.pool.Keys && x in a.pool
    requires SameElsewhere(a, b, place) && SameElsewhere(b, c, place)
    ensures x in c.pool && c.pool[x] == WithList(a, place, ListAt(c, place)).pool[x]
  {
    assert b.pool[x] == WithList(a, place, ListAt(b, place)).pool[x];
    assert c.pool[x] == WithList(b, place, ListAt(c, place)).pool[x];
    match place
    case Top =>
    case Inside(_, Child) =>
    case Inside(_, IMap) =>
    case Inside(_, OMap) =>
  }

  // -------------------------------------------------------------------------
  // One layer
  // -------------------------------------------------------------------------

  /** The record made by the start of a layer element. */
  function Fresh(l: Layer, pool: set<int>, mapper: seq<Option<int>>): Rec {
    Rec(Normalize(l.name), l.enabled, l.expanded, l.normal, MapInputs(Written(l.inputs, pool), mapper, 0, []), None,
        None, [], [], [])
  }

  /** The document with a new layer behind another one, or at the end of a list. */
  function WithLayer(doc: Doc, place: Place, previous: Option<int>, id: int, rec: Rec): (r: Doc)
    requires Exists(doc, place)
    ensures r.pool.Keys == doc.pool.Keys + {id}
  {
    var placed := WithList(doc, place, AppendAfter(ListAt(doc, place), previous, id));
    placed.(pool := placed.pool[id := rec])
  }

  lemma HeadLoads(r: Registry, s: Loader, l: Layer, pool: set<int>)
    requires InList(s)
    ensures var id := FreshId(s.doc.pool.Keys);
            OnOpen(r, s, "layer", LayerAttrs(l, Normalize(l.name), pool))
            == s.(doc := WithLayer(s.doc, s.place.value, s.layer, id, Fresh(l, pool, s.mapper)),
                  layers := s.layers + [id], layer := Some(id), mapper := PutMapper(s.mapper, l.id, id))
  {
    LayerTexts(l, Normalize(l.name), pool, s.mapper, s.version);
  }

  /** The record of a layer when its operation and its blender have been read. */
  function Equipped(r: Registry, l: Layer, pool: set<int>, mapper: seq<Option<int>>, isMap: bool): Rec {
    Fresh(l, pool, mapper).(
      enabled := l.enabled && !r.startsOff(l.op.kind),
      op := Some(ReloadOperation(r, l.op, isMap)),
      blender := Some(ReloadOperation(r, l.blender, isMap)))
  }

  /** The loader behind the blender of a layer. */
  function BeforeLists(r: Registry, s: Loader, l: Layer, pool: set<int>): Loader
    requires s.place.Some? && Exists(s.doc, s.place.value)
  {
    var id := FreshId(s.doc.pool.Keys);
    s.(doc := WithLayer(s.doc, s.place.value, s.layer, id, Equipped(r, l, pool, s.mapper, s.isMap)),
       layers := s.layers + [id], layer := Some(id), mapper := PutMapper(s.mapper, l.id, id))
  }

  function HeadEvents(l: Layer, pool: set<int>): seq<Event> {
    [Open("layer", LayerAttrs(l, Normalize(l.name), pool))] + OperationEvents(l.op) + OperationEvents(l.blender)
  }

  lemma {:induction false} OperationsLoad(r: Registry, s: Loader, l: Layer, pool: set<int>)
    requires InList(s) && KnownOperationsIn(r, l)
    ensures Load(r, s, HeadEvents(l, pool)) == BeforeLists(r, s, l, pool)
  {
    var id, rec0 := FreshId(s.doc.pool.Keys), Fresh(l, pool, s.mapper);
    var open := Open("layer", LayerAttrs(l, Normalize(l.name), pool));
    HeadLoads(r, s, l, pool);
    LoadOne(r, s, open);
    var s1 := Handle(r, s, open);
    OperationLoads(r, s1, id, rec0, l.op);
    var rec1 := Opened(r, rec0, ReloadOperation(r, l.op, s.isMap));
    var s2 := WithRec(s1, id, rec1, None);
    BlenderLoads(r, s2, id, rec1, l.blender);
    var rec2 := rec1.(blender := Some(ReloadOperation(r, l.blender, s.isMap)));
    LoadConcat(r, s, [open], OperationEvents(l.op));
    LoadConcat(r, s, [open] + OperationEvents(l.op), OperationEvents(l.blender));
    assert rec2 == Equipped(r, l, pool, s.mapper, s.isMap);
    TwicePut(s1.doc.pool, id, rec1, rec2);
    var placed := WithList(s.doc, s.place.value, AppendAfter(ListAt(s.doc, s.place.value), s.layer, id));
    TwicePut(placed.pool, id, rec0, rec2);
  }

  function KindOf(part: Part): string {
    match part
    case Child => "child"
    case IMap => "imap"
    case OMap => "omap"
  }

  /** The loader inside a list of the current layer. */
  function Entered(s: Loader, id: int, part: Part): Loader {
    EnterList(s, Inside(id, part), part != Child || s.isMap).(layer := None)
  }

  /** Between two lists of the current layer. */
  ghost predicate AtLayer(s: Loader, id: int) {
    && s.layer == Some(id) && s.layers != [] && s.layers[|s.layers| - 1] == id
    && (forall i :: 0 <= i < |s.layers| ==> s.layers[i] in s.doc.pool)
    && s.place.Some? && s.slots != [] && s.slots[|s.slots| - 1] == Slot(s.place.value, s.isMap)
    && s.op == None && s.version >= 4
  }

  lemma EnteredIsReady(s: Loader, id: int, part: Part)
    requires AtLayer(s, id) && ListAt(s.doc, Inside(id, part)) == []
    ensures ReadyFor(Entered(s, id, part))
  {
  }

  lemma {:induction false} SublistLoads(r: Registry, s: Loader, id: int, part: Part, inner: seq<Event>, rl: Reloaded)
    requires AtLayer(s, id)
    requires Loaded(Entered(s, id, part), Load(r, Entered(s, id, part), inner), rl)
    ensures var u := Load(r, s, Sublist(KindOf(part), inner));
            u == s.(doc := u.doc, mapper := rl.mapper) && Grown(s.doc, u.doc, Inside(id, part), rl)
  {
    SublistEvents(r, s, id, part, inner);
    var t := Load(r, Entered(s, id, part), inner);
    assert t.slots[..|t.slots| - 1] == s.slots;
  }

  lemma {:induction false} SublistEvents(r: Registry, s: Loader, id: int, part: Part, inner: seq<Event>)
    requires s.layer == Some(id)
    ensures Load(r, s, Sublist(KindOf(part), inner)) == CloseSublayers(Load(r, Entered(s, id, part), inner))
  {
    var open, close := Open("sublayers", [Attr("type", KindOf(part))]), Close("sublayers");
    TextAt([Attr("type", KindOf(part))], 0, "type", "");
    assert Handle(r, s, open) == Entered(s, id, part);
    LoadOne(r, s, open);
    LoadOne(r, Load(r, Entered(s, id, part), inner), close);
    LoadConcat(r, s, [open], inner);
    LoadConcat(r, s, [open] + inner, [close]);
  }

  /** Growing a list inside a layer changes one field of its record. */
  lemma GrownInside(a: Doc, b: Doc, id: int, part: Part, rl: Reloaded)
    requires Grown(a, b, Inside(id, part), rl) && ListAt(a, Inside(id, part)) == []
    ensures id in b.pool && b.top == a.top
    ensures b.pool[id] == match part
                          case Child => a.pool[id].(sub := TopSeq(rl.list))
                          case IMap => a.pool[id].(intensity := TopSeq(rl.list))
                          case OMap => a.pool[id].(opacity := TopSeq(rl.list))
    ensures SameRecs(a.pool, b.pool, a.pool.Keys - {id})
  {
    assert [] + TopSeq(rl.list) == TopSeq(rl.list);
  }

  lemma {:induction false} HoldsLater(a: Doc, b: Doc, id: int, part: Part, rl: Reloaded, list: seq<Layer>)
    requires Grown(a, b, Inside(id, part), rl) && ListAt(a, Inside(id, part)) == []
    requires Holds(a.pool, list) && Ids(list) <= a.pool.Keys - {id}
    ensures Holds(b.pool, list)
  {
    GrownInside(a, b, id, part, rl);
    HoldsStill(a.pool, b.pool, list);
  }

  /** The three lists of a new layer. */
  lemma ListsGrown(d0: Doc, d1: Doc, d2: Doc, d3: Doc, id: int, a: Reloaded, b: Reloaded, c: Reloaded)
    requires id in d0.pool && d0.pool[id].sub == [] && d0.pool[id].intensity == [] && d0.pool[id].opacity == []
    requires Grown(d0, d1, Inside(id, Child), a) && Grown(d1, d2, Inside(id, IMap), b)
             && Grown(d2, d3, Inside(id, OMap), c)
    ensures d3.top == d0.top && SameRecs(d0.pool, d3.pool, d0.pool.Keys - {id})
    ensures id in d3.pool
    ensures d3.pool[id] == d0.pool[id].(sub := TopSeq(a.list), intensity := TopSeq(b.list), opacity := TopSeq(c.list))
    ensures Holds(d3.pool, a.list) && Holds(d3.pool, b.list) && Holds(d3.pool, c.list)
  {
    GrownInside(d0, d1, id, Child, a);
    GrownInside(d1, d2, id, IMap, b);
    GrownInside(d2, d3, id, OMap, c);
    HoldsLater(d1, d2, id, IMap, b, a.list);
    HoldsLater(d2, d3, id, OMap, c, a.list);
    HoldsLater(d2, d3, id, OMap, c, b.list);
  }

  lemma {:induction false} LayerIds(l: Layer, keys: set<int>, a: Reloaded, b: Reloaded, c: Reloaded)
    requires l.id !in keys && l.sublayers == a.list && l.imaps == b.list && l.omaps == c.list
    requires keys + {l.id} <= a.keys <= b.keys <= c.keys
    requires Ids(a.list) == a.keys - (keys + {l.id}) && Ids(b.list) == b.keys - a.keys && Ids(c.list) == c.keys - b.keys
    requires Distinct(a.list) && Distinct(b.list) && Distinct(c.list)
    ensures DistinctLayer(l) && IdsOf(l) == c.keys - keys
  {
  }

  lemma {:induction false} SingleLayer(pool: map<int, Rec>, l: Layer)
    requires DistinctLayer(l) && HoldsLayer(pool, l)
    ensures Distinct([l]) && Ids([l]) == IdsOf(l) && Holds(pool, [l]) && TopSeq([l]) == [l.id]
  {
    assert [l][1..] == [] && Ids([]) == {} && Distinct([]) && Holds(pool, []);
  }

  lemma {:induction false} LayerGrown(doc: Doc, place: Place, previous: Option<int>, d0: Doc, d3: Doc, l: Layer,
                                      keys: set<int>, mapper: seq<Option<int>>)
    requires Exists(doc, place) && l.id !in doc.pool
    requires d0.pool.Keys == doc.pool.Keys + {l.id} <= d3.pool.Keys == keys
    requires exists rec :: d0 == WithLayer(doc, place, previous, l.id, rec)
    requires d3.top == d0.top && SameRecs(d0.pool, d3.pool, d0.pool.Keys - {l.id})
    requires HoldsLayer(d3.pool, l) && DistinctLayer(l) && IdsOf(l) == keys - doc.pool.Keys
    ensures GrownTo(doc, d3, place, Reloaded([l], keys, mapper), AppendAfter(ListAt(doc, place), previous, l.id))
  {
    SingleLayer(d3.pool, l);
  }

  lemma {:induction false} LayerSplits(r: Registry, s: Loader, l: Layer, pool: set<int>, sub: seq<Event>,
                                       intensity: seq<Event>, opacity: seq<Event>)
    requires !l.hidden
    requires sub == Sublist("child", ListEvents(l.sublayers, pool))
    requires intensity == Sublist("imap", ListEvents(l.imaps, pool))
    requires opacity == Sublist("omap", ListEvents(l.omaps, pool))
    ensures Load(r, s, LayerEvents(l, pool))
         == Handle(r, Load(r, Load(r, Load(r, Load(r, s, HeadEvents(l, pool)), sub), intensity), opacity),
                   Close("layer"))
  {
    var head := HeadEvents(l, pool);
    assert LayerEvents(l, pool) == head + sub + intensity + opacity + [Close("layer")];
    LoadConcat(r, s, head, sub);
    LoadConcat(r, s, head + sub, intensity);
    LoadConcat(r, s, head + sub + intensity, opacity);
    LoadConcat(r, s, head + sub + intensity + opacity, [Close("layer")]);
    LoadOne(r, Load(r, s, head + sub + intensity + opacity), Close("layer"));
  }

  function WholeLayer(r: Registry, s: Loader, l: Layer, pool: set<int>, a: Reloaded, b: Reloaded, c: Reloaded): Layer {
    Layer(FreshId(s.doc.pool.Keys), Normalize(l.name), l.enabled && !r.startsOff(l.op.kind),
          l.expanded, l.normal, false,
          ReloadOperation(r, l.op, s.isMap), ReloadOperation(r, l.blender, s.isMap),
          MapInputs(Written(l.inputs, pool), s.mapper, 0, []), a.list, b.list, c.list)
  }

  lemma {:induction false} ReloadLayerIs(r: Registry, s: Loader, l: Layer, pool: set<int>, a: Reloaded, b: Reloaded,
                                         c: Reloaded)
    requires !l.hidden
    requires var id := FreshId(s.doc.pool.Keys);
             a == ReloadList(r, pool, l.sublayers, s.doc.pool.Keys + {id}, PutMapper(s.mapper, l.id, id), s.isMap)
    requires b == ReloadList(r, pool, l.imaps, a.keys, a.mapper, true)
    requires c == ReloadList(r, pool, l.omaps, b.keys, b.mapper, true)
    ensures ReloadLayer(r, pool, l, s.doc.pool.Keys, s.mapper, s.isMap)
         == Reloaded([WholeLayer(r, s, l, pool, a, b, c)], c.keys, c.mapper)
  {
  }

  lemma BeforeListsStands(r: Registry, s: Loader, l: Layer, pool: set<int>)
    requires InList(s)
    ensures var s0, id := BeforeLists(r, s, l, pool), FreshId(s.doc.pool.Keys);
            && AtLayer(s0, id) && s0.doc.pool.Keys == s.doc.pool.Keys + {id}
            && s0.doc.pool[id] == Equipped(r, l, pool, s.mapper, s.isMap)
  {
  }

  /** A document with three more lists, all in one layer. */
  ghost predicate GrownThrice(d0: Doc, d3: Doc, id: int, a: Reloaded, b: Reloaded, c: Reloaded) {
    exists d1, d2 :: Grown(d0, d1, Inside(id, Child), a) && Grown(d1, d2, Inside(id, IMap), b)
        && Grown(d2, d3, Inside(id, OMap), c)
  }

  /** Reading has turned s into t and inserted one layer into the open list, behind the current one. */
  ghost predicate LayerIn(s: Loader, t: Loader, rl: Reloaded) {
    && s.place.Some? && |rl.list| == 1
    && t == s.(doc := t.doc, mapper := rl.mapper, layer := TopOf(s.layers))
    && Exists(s.doc, s.place.value)
    && GrownTo(s.doc, t.doc, s.place.value, rl, AppendAfter(ListAt(s.doc, s.place.value), s.layer, rl.list[0].id))
  }

  lemma LayerAssembled(r: Registry, s: Loader, l: Layer, pool: set<int>, s3: Loader, a: Reloaded, b: Reloaded,
                       c: Reloaded)
    requires InList(s)
    requires var s0 := BeforeLists(r, s, l, pool);
             && s3 == s0.(doc := s3.doc, mapper := c.mapper)
             && GrownThrice(s0.doc, s3.doc, FreshId(s.doc.pool.Keys), a, b, c)
    ensures LayerIn(s, Handle(r, s3, Close("layer")), Reloaded([WholeLayer(r, s, l, pool, a, b, c)], c.keys, c.mapper))
  {
    var whole := WholeLayer(r, s, l, pool, a, b, c);
    LayerDocGrown(s.doc, s.place.value, s.layer, Equipped(r, l, pool, s.mapper, s.isMap), whole, s3.doc, a, b, c);
    assert s3.layers[..|s3.layers| - 1] == s.layers;
  }

  lemma LayerDocGrown(doc: Doc, place: Place, previous: Option<int>, rec: Rec, whole: Layer, d3: Doc, a: Reloaded,
                      b: Reloaded, c: Reloaded)
    requires Exists(doc, place) && whole.id !in doc.pool
    requires whole.sublayers == a.list && whole.imaps == b.list && whole.omaps == c.list
    requires rec.sub == [] && rec.intensity == [] && rec.opacity == []
    requires rec.(sub := TopSeq(a.list), intensity := TopSeq(b.list), opacity := TopSeq(c.list)) == RecOf(whole)
    requires GrownThrice(WithLayer(doc, place, previous, whole.id, rec), d3, whole.id, a, b, c)
    ensures GrownTo(doc, d3, place, Reloaded([whole], c.keys, c.mapper),
                    AppendAfter(ListAt(doc, place), previous, whole.id))
  {
    var id, d0 := whole.id, WithLayer(doc, place, previous, whole.id, rec);
    var d1, d2 :| Grown(d0, d1, Inside(id, Child), a) && Grown(d1, d2, Inside(id, IMap), b)
        && Grown(d2, d3, Inside(id, OMap), c);
    ListsGrown(d0, d1, d2, d3, id, a, b, c);
    LayerIds(whole, doc.pool.Keys, a, b, c);
    LayerGrown(doc, place, previous, d0, d3, whole, c.keys, c.mapper);
  }

  /** Reading the events of a list adds the layers of ReloadList to the open list, and changes
      nothing else. */
  lemma {:induction false} ListLoads(r: Registry, s: Loader, list: seq<Layer>, pool: set<int>)
    requires ReadyFor(s) && KnownOperations(r, list)
    ensures Loaded(s, Load(r, s, ListEvents(list, pool)), ReloadList(r, pool, list, s.doc.pool.Keys, s.mapper, s.isMap))
    decreases list, 0
  {
    if list == [] {
      LoadedNothing(s);
    } else {
      LayerLoads(r, s, list[0], pool);
      var t := Load(r, s, LayerEvents(list[0], pool));
      var a := ReloadLayer(r, pool, list[0], s.doc.pool.Keys, s.mapper, s.isMap);
      StillReady(s, t, a);
      ListLoads(r, t, list[1..], pool);
      var u := Load(r, t, ListEvents(list[1..], pool));
      var b := ReloadList(r, pool, list[1..], a.keys, a.mapper, s.isMap);
      LoadConcat(r, s, LayerEvents(list[0], pool), ListEvents(list[1..], pool));
      LoadedBoth(s, t, u, a, b);
    }
  }

  lemma {:induction false} LayerLoads(r: Registry, s: Loader, l: Layer, pool: set<int>)
    requires ReadyFor(s) && KnownOperationsIn(r, l)
    ensures Loaded(s, Load(r, s, LayerEvents(l, pool)), ReloadLayer(r, pool, l, s.doc.pool.Keys, s.mapper, s.isMap))
    decreases l, 2
  {
    if l.hidden {
      LoadedNothing(s);
    } else {
      LayerLoadsIn(r, s, l, pool);
      var rl := ReloadLayer(r, pool, l, s.doc.pool.Keys, s.mapper, s.isMap);
      assert TopSeq(rl.list) == [rl.list[0].id];
    }
  }

  /** Reading the events of a layer inserts it into the open list behind the current layer, at the end
      if that is not in the list, and changes nothing else. */
  lemma {:induction false} LayerLoadsIn(r: Registry, s: Loader, l: Layer, pool: set<int>)
    requires InList(s) && KnownOperationsIn(r, l) && !l.hidden
    ensures LayerIn(s, Load(r, s, LayerEvents(l, pool)), ReloadLayer(r, pool, l, s.doc.pool.Keys, s.mapper, s.isMap))
    decreases l, 1
  {
    var s0 := BeforeLists(r, s, l, pool);
    BeforeListsStands(r, s, l, pool);
    var s3, a, b, c := ListsLoad(r, s0, FreshId(s.doc.pool.Keys), l, pool);
    OperationsLoad(r, s, l, pool);
    LayerSplits(r, s, l, pool, Sublist("child", ListEvents(l.sublayers, pool)),
                Sublist("imap", ListEvents(l.imaps, pool)),
                Sublist("omap", ListEvents(l.omaps, pool)));
    ReloadLayerIs(r, s, l, pool, a, b, c);
    LayerAssembled(r, s, l, pool, s3, a, b, c);
  }

  lemma {:induction false} ListsLoad(r: Registry, s: Loader, id: int, l: Layer, pool: set<int>)
      returns (u: Loader, a: Reloaded, b: Reloaded, c: Reloaded)
    requires AtLayer(s, id) && KnownOperationsIn(r, l)
    requires ListAt(s.doc, Inside(id, Child)) == [] && ListAt(s.doc, Inside(id, IMap)) == []
             && ListAt(s.doc, Inside(id, OMap)) == []
    ensures u == Load(r, Load(r, Load(r, s, Sublist("child", ListEvents(l.sublayers, pool))),
                              Sublist("imap", ListEvents(l.imaps, pool))),
                      Sublist("omap", ListEvents(l.omaps, pool)))
    ensures a == ReloadList(r, pool, l.sublayers, s.doc.pool.Keys, s.mapper, s.isMap)
    ensures b == ReloadList(r, pool, l.imaps, a.keys, a.mapper, true)
    ensures c == ReloadList(r, pool, l.omaps, b.keys, b.mapper, true)
    ensures u == s.(doc := u.doc, mapper := c.mapper)
    ensures GrownThrice(s.doc, u.doc, id, a, b, c)
    decreases l, 0
  {
    var s1, s2;
    s1, a := ReloadedPart(r, s, id, Child, l.sublayers, pool);
    OtherListStays(s.doc, s1.doc, id, Child, IMap, a);
    OtherListStays(s.doc, s1.doc, id, Child, OMap, a);
    s2, b := ReloadedPart(r, s1, id, IMap, l.imaps, pool);
    OtherListStays(s1.doc, s2.doc, id, IMap, OMap, b);
    u, c := ReloadedPart(r, s2, id, OMap, l.omaps, pool);
  }

  lemma OtherListStays(a: Doc, b: Doc, id: int, part: Part, other: Part, rl: Reloaded)
    requires Grown(a, b, Inside(id, part), rl) && ListAt(a, Inside(id, part)) == [] && other != part
    ensures Exists(a, Inside(id, other)) && Exists(b, Inside(id, other))
    ensures ListAt(b, Inside(id, other)) == ListAt(a, Inside(id, other))
  {
    GrownInside(a, b, id, part, rl);
  }

  lemma {:induction false} ReloadedPart(r: Registry, s: Loader, id: int, part: Part, list: seq<Layer>, pool: set<int>)
      returns (u: Loader, rl: Reloaded)
    requires AtLayer(s, id) && ListAt(s.doc, Inside(id, part)) == [] && KnownOperations(r, list)
    ensures u == Load(r, s, Sublist(KindOf(part), ListEvents(list, pool)))
    ensures rl == ReloadList(r, pool, list, s.doc.pool.Keys, s.mapper, part != Child || s.isMap)
    ensures u == s.(doc := u.doc, mapper := rl.mapper) && Grown(s.doc, u.doc, Inside(id, part), rl)
    ensures AtLayer(u, id)
    decreases list, 1
  {
    EnteredIsReady(s, id, part);
    ListLoads(r, Entered(s, id, part), list, pool);
    rl := ReloadList(r, pool, list, s.doc.pool.Keys, s.mapper, part != Child || s.isMap);
    SublistLoads(r, s, id, part, ListEvents(list, pool), rl);
    u := Load(r, s, Sublist(KindOf(part), ListEvents(list, pool)));
  }
}
