/** Reading a document file: the effect of each markup event on the loader. */
module PfiReader {
  import opened Basics
  import opened LayerTree
  import opened DecimalText
  import opened PfiWriter

  /** A layer of the pool while the document is being read. */
  datatype Rec = Rec(
    name: string,
    enabled: bool,
    expanded: bool,
    normal: bool,
    inputs: seq<Input>,
    op: Option<Operation>,
    blender: Option<Operation>,
    sub: seq<int>,
    intensity: seq<int>,
    opacity: seq<int>)

  const NEW_LAYER := Rec("", true, true, true, [], None, None, [], [], [])

  datatype Doc = Doc(pool: map<int, Rec>, top: seq<int>)

  datatype Part = Child | IMap | OMap

  /** A list of layers: the document's own, or one inside a layer. */
  datatype Place = Top | Inside(owner: int, part: Part)

  /** An open list, and whether layers in it are map layers. */
  datatype Slot = Slot(place: Place, isMap: bool)

  datatype Target = OpOf(layer: int) | BlenderOf(layer: int)

  /** The operations the program knows: their properties with default values, those of a
      blender, and the operations whose layers start switched off. */
  datatype Registry = Registry(
    defaults: string -> Option<seq<Property>>,
    blender: seq<Property>,
    startsOff: string -> bool)

  datatype Loader = Loader(
    doc: Doc,
    layers: seq<int>,
    slots: seq<Slot>,
    layer: Option<int>,
    place: Option<Place>,
    isMap: bool,
    op: Option<Target>,
    version: int,
    mapper: seq<Option<int>>)

  // -------------------------------------------------------------------------
  // Documents
  // -------------------------------------------------------------------------

  /** The lowest free slot of the pool. */
  function FreshFrom(keys: set<int>, n: nat): (id: nat)
    ensures n <= id && id !in keys
    decreases keys
  {
    if n !in keys then n else FreshFrom(keys - {n}, n + 1)
  }

  function FreshId(keys: set<int>): (id: nat)
    ensures id !in keys
  {
    FreshFrom(keys, 0)
  }

  /** All lower slots are taken. */
  lemma FreshIsLowest(keys: set<int>, k: nat)
    requires k < FreshId(keys)
    ensures k in keys
  {
    LowerAreTaken(keys, 0, k);
  }

  lemma {:induction false} LowerAreTaken(keys: set<int>, n: nat, k: nat)
    requires n <= k < FreshFrom(keys, n)
    ensures k in keys
    decreases keys
  {
    if n < k {
      LowerAreTaken(keys - {n}, n + 1, k);
    }
  }

  predicate Exists(doc: Doc, place: Place) {
    place.Inside? ==> place.owner in doc.pool
  }

  function ListAt(doc: Doc, place: Place): seq<int>
    requires Exists(doc, place)
  {
    match place
    case Top => doc.top
    case Inside(x, Child) => doc.pool[x].sub
    case Inside(x, IMap) => doc.pool[x].intensity
    case Inside(x, OMap) => doc.pool[x].opacity
  }

  function WithList(doc: Doc, place: Place, list: seq<int>): (r: Doc)
    requires Exists(doc, place)
    ensures r.pool.Keys == doc.pool.Keys
  {
    match place
    case Top => doc.(top := list)
    case Inside(x, Child) => doc.(pool := doc.pool[x := doc.pool[x].(sub := list)])
    case Inside(x, IMap) => doc.(pool := doc.pool[x := doc.pool[x].(intensity := list)])
    case Inside(x, OMap) => doc.(pool := doc.pool[x := doc.pool[x].(opacity := list)])
  }

  /** Inserts behind `previous`, or at the end if there is none in the list. */
  function AppendAfter(list: seq<int>, previous: Option<int>, id: int): seq<int> {
    if previous.None? || previous.value !in list then list + [id]
    else InsertBehind(list, previous.value, id)
  }

  function InsertBehind(list: seq<int>, previous: int, id: int): seq<int>
    requires previous in list
  {
    if list[0] == previous then [list[0], id] + list[1..]
    else [list[0]] + InsertBehind(list[1..], previous, id)
  }

  lemma {:induction false} InsertBehindAt(list: seq<int>, previous: int, id: int, i: nat)
    requires i < |list| && list[i] == previous && previous !in list[..i]
    ensures InsertBehind(list, previous, id) == list[..i + 1] + [id] + list[i + 1..]
  {
    if i > 0 {
      var rest := list[1..];
      assert list[0] in list[..i];
      assert rest[..i - 1] == list[..i][1..];
      InsertBehindAt(rest, previous, id, i - 1);
      assert list[..i + 1] == [list[0]] + rest[..i];
      assert list[i + 1..] == rest[i..];
      Regrouped([list[0]], rest[..i] + [id], rest[i..]);
    }
  }

  /** The new member stands behind the first place of the previous one, and at the end if there is none. */
  lemma AppendAfterAt(list: seq<int>, previous: Option<int>, id: int)
    ensures previous.None? || previous.value !in list ==> AppendAfter(list, previous, id) == list + [id]
    ensures forall k :: 0 <= k < |list| && previous == Some(list[k]) && list[k] !in list[..k] ==>
              AppendAfter(list, previous, id) == list[..k + 1] + [id] + list[k + 1..]
  {
    forall k | 0 <= k < |list| && previous == Some(list[k]) && list[k] !in list[..k]
      ensures AppendAfter(list, previous, id) == list[..k + 1] + [id] + list[k + 1..]
    {
      InsertBehindAt(list, list[k], id, k);
    }
  }

  // -------------------------------------------------------------------------
  // Attributes
  // -------------------------------------------------------------------------

  function TextOf(attrs: seq<Attr>, name: string, otherwise: string): string {
    if attrs == [] then otherwise
    else TextOf(attrs[1..], name, if attrs[0].name == name then attrs[0].text else otherwise)
  }

  function Known(mapper: seq<Option<int>>, id: int): Option<int> {
    if 0 <= id < |mapper| then mapper[id] else None
  }

  /** Sets the inputs whose layers have been read already; the others leave a gap. */
  function MapInputs(read: seq<Input>, mapper: seq<Option<int>>, n: nat, inputs: seq<Input>): seq<Input> {
    if read == [] then inputs
    else
      var k := Known(mapper, read[0].layer);
      MapInputs(read[1..], mapper, n + 1,
                if k.Some? then SetInput(inputs, n, read[0].(layer := k.value)) else inputs)
  }

  function LoadInputs(attrs: seq<Attr>, mapper: seq<Option<int>>, version: int, inputs: seq<Input>): seq<Input> {
    if attrs == [] then inputs
    else if attrs[0].name == "inputs" || attrs[0].name == "extra_inputs" then
      LoadInputs(attrs[1..], mapper, version, MapInputs(ReadInputs(attrs[0].text, version), mapper, 0, inputs))
    else LoadInputs(attrs[1..], mapper, version, inputs)
  }

  function PadMapper(mapper: seq<Option<int>>, was: int): (r: seq<Option<int>>)
    ensures was < |r| && |mapper| <= |r|
    ensures forall i :: 0 <= i < |r| ==> r[i] == Known(mapper, i)
    decreases was - |mapper|
  {
    if was < |mapper| then mapper else PadMapper(mapper + [None], was)
  }

  function PutMapper(mapper: seq<Option<int>>, was: int, id: int): seq<Option<int>> {
    if was < 0 then mapper else PadMapper(mapper, was)[was := Some(id)]
  }

  // -------------------------------------------------------------------------
  // Operations
  // -------------------------------------------------------------------------

  function SetProp(props: seq<Property>, name: string, text: string): seq<Property> {
    if props == [] then []
    else if props[0].name == name then [Property(name, text)] + props[1..]
    else [props[0]] + SetProp(props[1..], name, text)
  }

  /** Gives a layer a new operation of a known type, and a new blender. */
  function NewOperation(r: Registry, doc: Doc, id: int, kind: string): Option<Doc>
    requires id in doc.pool
  {
    if r.defaults(kind).None? then None
    else Some(doc.(pool := doc.pool[id := doc.pool[id].(op := Some(Operation(kind, r.defaults(kind).value, false)),
                                                       blender := Some(Operation("blender", r.blender, false)))]))
  }

  function OperationAt(doc: Doc, t: Target): Option<Operation> {
    if t.layer !in doc.pool then None
    else if t.OpOf? then doc.pool[t.layer].op else doc.pool[t.layer].blender
  }

  function PutOperation(doc: Doc, t: Target, op: Operation): (r: Doc)
    requires t.layer in doc.pool
    ensures r.pool.Keys == doc.pool.Keys
  {
    if t.OpOf? then doc.(pool := doc.pool[t.layer := doc.pool[t.layer].(op := Some(op))])
    else doc.(pool := doc.pool[t.layer := doc.pool[t.layer].(blender := Some(op))])
  }

  function SetMapFlag(doc: Doc, t: Option<Target>, isMap: bool): (r: Doc)
    ensures r.pool.Keys == doc.pool.Keys
  {
    if t.None? || OperationAt(doc, t.value).None? then doc
    else PutOperation(doc, t.value, OperationAt(doc, t.value).value.(mapFlag := isMap))
  }

  function Assign(doc: Doc, t: Target, name: string, text: string): (r: Doc)
    ensures r.pool.Keys == doc.pool.Keys
  {
    if OperationAt(doc, t).None? then doc
    else
      var op := OperationAt(doc, t).value;
      PutOperation(doc, t, op.(props := SetProp(op.props, name, text)))
  }

  // -------------------------------------------------------------------------
  // Events
  // -------------------------------------------------------------------------

  function Flag(attrs: seq<Attr>, name: string): bool {
    Atoi(TextOf(attrs, name, "-1")) != 0
  }

  /** A new layer with its attributes, at the end of the open list, or behind the current layer if
      that is in it. */
  function NewLayer(s: Loader, attrs: seq<Attr>): Loader
    requires s.place.Some? && Exists(s.doc, s.place.value)
  {
    var id := FreshId(s.doc.pool.Keys);
    var placed := WithList(s.doc, s.place.value, AppendAfter(ListAt(s.doc, s.place.value), s.layer, id));
    var rec := NEW_LAYER.(
      name := TextOf(attrs, "name", ""),
      enabled := Flag(attrs, "visible"),
      expanded := Flag(attrs, "expanded"),
      normal := Flag(attrs, "normal"),
      inputs := LoadInputs(attrs, s.mapper, s.version, []));
    s.(doc := placed.(pool := placed.pool[id := rec]),
       layers := s.layers + [id],
       layer := Some(id),
       mapper := PutMapper(s.mapper, Atoi(TextOf(attrs, "id", "-1")), id))
  }

  function OpenLayer(r: Registry, s: Loader, attrs: seq<Attr>): Loader {
    if s.place.None? || !Exists(s.doc, s.place.value) then s
    else if s.version < 2 && Atoi(TextOf(attrs, "normal", "-1")) == 0 then
      OldGroup(r, NewLayer(s, attrs), FreshId(s.doc.pool.Keys))
    else NewLayer(s, attrs)
  }

  /** Before version 2 groups carried no operation; they get a buffer. */
  function OldGroup(r: Registry, s: Loader, id: int): Loader
    requires id in s.doc.pool
  {
    var made := NewOperation(r, s.doc, id, "buffer");
    var t := if made.None? then s else s.(doc := made.value, op := Some(OpOf(id)));
    t.(doc := SetMapFlag(t.doc, t.op, t.isMap))
  }

  function OpenSublayers(s: Loader, attrs: seq<Attr>): Loader {
    if s.layer.None? then s
    else
      var kind := TextOf(attrs, "type", "");
      var owner := s.layer.value;
      var t :=
        if kind == "imap" then EnterList(s, Inside(owner, IMap), true)
        else if kind == "omap" then EnterList(s, Inside(owner, OMap), true)
        else if kind == "child" then EnterList(s, Inside(owner, Child), s.isMap)
        else s;
      t.(layer := None)
  }

  function EnterList(s: Loader, place: Place, isMap: bool): Loader {
    s.(place := Some(place), isMap := isMap, slots := s.slots + [Slot(place, isMap)])
  }

  function OpenOperation(r: Registry, s: Loader, attrs: seq<Attr>): Loader {
    if s.layer.None? || s.layer.value !in s.doc.pool then s
    else
      var kind, id := TextOf(attrs, "type", ""), s.layer.value;
      var t :=
        if kind == "blender" then s.(op := if s.doc.pool[id].blender.Some? then Some(BlenderOf(id)) else None)
        else
          var made := NewOperation(r, s.doc, id, kind);
          if made.None? then s
          else if r.startsOff(kind) then
            s.(op := Some(OpOf(id)),
               doc := made.value.(pool := made.value.pool[id := made.value.pool[id].(enabled := false)]))
          else s.(op := Some(OpOf(id)), doc := made.value);
      t.(doc := SetMapFlag(t.doc, t.op, t.isMap))
  }

  function OpenProperty(s: Loader, attrs: seq<Attr>): Loader {
    if s.op.None? then s
    else
      var name, text := TextOf(attrs, "name", ""), TextOf(attrs, "value", "");
      if name == "" || text == "" then s
      else if s.version < 2 && (name == "opacity" || name == "blend_mode") then
        if s.layer.Some? then s.(doc := Assign(s.doc, BlenderOf(s.layer.value), name, text)) else s
      else s.(doc := Assign(s.doc, s.op.value, name, text))
  }

  function OnOpen(r: Registry, s: Loader, element: string, attrs: seq<Attr>): Loader {
    if element == "image" || element == "preset" then
      s.(version := Atoi(TextOf(attrs, "version", PrintInt(s.version))))
    else if element == "layer" then OpenLayer(r, s, attrs)
    else if element == "sublayers" then OpenSublayers(s, attrs)
    else if element == "operation" then OpenOperation(r, s, attrs)
    else if element == "property" then OpenProperty(s, attrs)
    else s
  }

  function DropLast<T>(s: seq<T>): seq<T> {
    if s == [] then [] else s[..|s| - 1]
  }

  function TopOf(layers: seq<int>): Option<int> {
    if layers == [] then None else Some(layers[|layers| - 1])
  }

  function CloseLayer(s: Loader): Loader {
    var layers := DropLast(s.layers);
    s.(layers := layers, layer := TopOf(layers))
  }

  function CloseSublayers(s: Loader): Loader {
    var slots := DropLast(s.slots);
    var t := if slots == [] then s.(slots := slots, place := None)
             else s.(slots := slots, place := Some(slots[|slots| - 1].place), isMap := slots[|slots| - 1].isMap);
    t.(layer := TopOf(s.layers))
  }

  function OnClose(s: Loader, element: string): Loader {
    if element == "layer" then CloseLayer(s)
    else if element == "sublayers" then CloseSublayers(s)
    else if element == "operation" then s.(op := None)
    else s
  }

  function Handle(r: Registry, s: Loader, e: Event): Loader {
    match e
    case Open(element, attrs) => OnOpen(r, s, element, attrs)
    case Close(element) => OnClose(s, element)
  }

  function Load(r: Registry, s: Loader, events: seq<Event>): Loader
    decreases |events|
  {
    if events == [] then s else Load(r, Handle(r, s, events[0]), events[1..])
  }

  /** Reading a whole document into the list of an image. */
  function Begin(doc: Doc, version: int): Loader {
    Loader(doc, [], [Slot(Top, false)], None, Some(Top), false, None, version, [])
  }

  lemma {:induction false} LoadConcat(r: Registry, s: Loader, a: seq<Event>, b: seq<Event>)
    ensures Load(r, s, a + b) == Load(r, Load(r, s, a), b)
    decreases |a|
  {
    if a == [] {
      assert a + b == b;
    } else {
      assert (a + b)[0] == a[0] && (a + b)[1..] == a[1..] + b;
      LoadConcat(r, Handle(r, s, a[0]), a[1..], b);
    }
  }
}
