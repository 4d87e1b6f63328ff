/** When a saved and loaded tree is the tree that was saved. */
module PfiSameTree {
  import opened Basics
  import opened LayerTree
  import opened XmlText
  import opened DecimalText
  import opened PfiWriter
  import opened PfiReader
  import opened PfiRoundTrip

  // -------------------------------------------------------------------------
  // The same tree under other ids
  // -------------------------------------------------------------------------

  function Lookup(g: map<int, int>, x: int): int {
    if x in g then g[x] else -1
  }

  /** An input that was never set names no layer; it is the same in every renaming. */
  function RenameInput(i: Input, g: map<int, int>): Input {
    if i.layer < 0 then i else i.(layer := Lookup(g, i.layer))
  }

  function RenameInputs(inputs: seq<Input>, g: map<int, int>): (r: seq<Input>)
    ensures |r| == |inputs|
  {
    if inputs == [] then [] else [RenameInput(inputs[0], g)] + RenameInputs(inputs[1..], g)
  }

  function RenameList(list: seq<Layer>, g: map<int, int>): seq<Layer> {
    if list == [] then [] else [RenameLayer(list[0], g)] + RenameList(list[1..], g)
  }

  function RenameLayer(l: Layer, g: map<int, int>): Layer {
    l.(id := Lookup(g, l.id), inputs := RenameInputs(l.inputs, g), sublayers := RenameList(l.sublayers, g),
       imaps := RenameList(l.imaps, g), omaps := RenameList(l.omaps, g))
  }

  /** Every input names one of these layers. */
  ghost predicate InputsFrom(inputs: seq<Input>, ids: set<int>) {
    forall i :: 0 <= i < |inputs| ==> inputs[i].layer in ids
  }

  /** Every input that is set does. */
  ghost predicate SetInputsFrom(inputs: seq<Input>, ids: set<int>) {
    forall i :: 0 <= i < |inputs| ==> inputs[i].layer < 0 || inputs[i].layer in ids
  }

  /** All inputs that are set in the tree name layers among these. */
  ghost predicate AllInputsFrom(list: seq<Layer>, ids: set<int>) {
    list != [] ==> LayerInputsFrom(list[0], ids) && AllInputsFrom(list[1..], ids)
  }

  ghost predicate LayerInputsFrom(l: Layer, ids: set<int>) {
    && SetInputsFrom(l.inputs, ids)
    && AllInputsFrom(l.sublayers, ids) && AllInputsFrom(l.imaps, ids) && AllInputsFrom(l.omaps, ids)
  }

  ghost predicate OneToOne(g: map<int, int>) {
    forall x, y :: x in g && y in g && g[x] == g[y] ==> x == y
  }

  ghost predicate NonNegative(g: map<int, int>) {
    forall x :: x in g ==> g[x] >= 0
  }

  /** The copy is the tree with its ids replaced one to one; no input is left dangling. */
  ghost predicate IsRenaming(list: seq<Layer>, copy: seq<Layer>, g: map<int, int>) {
    && OneToOne(g) && NonNegative(g)
    && g.Keys == Ids(list) && AllInputsFrom(list, Ids(list))
    && copy == RenameList(list, g)
  }

  // -------------------------------------------------------------------------
  // Properties
  // -------------------------------------------------------------------------

  function DefaultsOf(r: Registry, op: Operation): seq<Property> {
    if op.kind == "blender" then r.blender else if r.defaults(op.kind).Some? then r.defaults(op.kind).value else []
  }

  /** An operation has the properties of its type, in order. */
  ghost predicate Declared(base: seq<Property>, props: seq<Property>) {
    && |base| == |props|
    && (forall i :: 0 <= i < |base| ==> base[i].name == props[i].name && base[i].name != "")
    && (forall i, j :: 0 <= i < j < |base| ==> base[i].name != base[j].name)
  }

  /** No value holds tabs or line breaks, and an empty value is the default. */
  ghost predicate KeptProps(base: seq<Property>, props: seq<Property>)
    requires |base| == |props|
  {
    forall i :: 0 <= i < |props| ==> NoBlanks(props[i].text) && (props[i].text == "" ==> base[i].text == "")
  }

  function Merged(b: Property, p: Property): Property {
    if Normalize(p.text) == "" then b else Property(p.name, Normalize(p.text))
  }

  lemma {:induction false} SetPropAt(props: seq<Property>, i: nat, text: string)
    requires i < |props| && forall j :: 0 <= j < i ==> props[j].name != props[i].name
    ensures SetProp(props, props[i].name, text) == props[i := Property(props[i].name, text)]
  {
    if i == 0 {
      assert props[0 := Property(props[0].name, text)] == [Property(props[0].name, text)] + props[1..];
    } else {
      SetPropAt(props[1..], i - 1, text);
      assert props[i := Property(props[i].name, text)]
             == [props[0]] + props[1..][i - 1 := Property(props[i].name, text)];
    }
  }

  lemma {:induction false} OverlayFrom(base: seq<Property>, props: seq<Property>, i: nat)
    requires Declared(base, props) && i <= |props|
    ensures var o := Overlay(base, props[i..]);
            && |o| == |base|
            && (forall k :: 0 <= k < i ==> o[k] == base[k])
            && (forall k :: i <= k < |base| ==> o[k] == Merged(base[k], props[k]))
    decreases |props| - i
  {
    if i < |props| {
      var next := base[i := Merged(base[i], props[i])];
      OverlayNext(base, props, i);
      OverlayFrom(next, props, i + 1);
    }
  }

  lemma OverlayNext(base: seq<Property>, props: seq<Property>, i: nat)
    requires Declared(base, props) && i < |props|
    ensures var next := base[i := Merged(base[i], props[i])];
            Declared(next, props) && Overlay(base, props[i..]) == Overlay(next, props[i + 1..])
  {
    assert props[i..][0] == props[i] && props[i..][1..] == props[i + 1..];
    SetPropAt(base, i, Normalize(props[i].text));
    assert base[i := base[i]] == base;
  }

  /** The saved values come back exactly if they hold no blanks other than spaces and every
      empty one is the default: an empty value is not read. */
  lemma {:induction false} PropsComeBack(base: seq<Property>, props: seq<Property>)
    requires Declared(base, props)
    ensures Overlay(base, props) == props <==> KeptProps(base, props)
  {
    OverlayFrom(base, props, 0);
    assert props[0..] == props;
    var o := Overlay(base, props);
    forall k | 0 <= k < |props|
      ensures o[k] == props[k] <==> NoBlanks(props[k].text) && (props[k].text == "" ==> base[k].text == "")
    {
      NormalizeKeeps(props[k].text);
    }
    if KeptProps(base, props) {
      assert forall k :: 0 <= k < |props| ==> o[k] == props[k];
    }
  }

  // -------------------------------------------------------------------------
  // Inputs
  // -------------------------------------------------------------------------

  const GAP := Input(-1, -1, true)

  /** The mapper knows the new ids of exactly the layers that have been started. */
  ghost predicate MapperIs(mapper: seq<Option<int>>, f: map<int, int>) {
    forall x :: Known(mapper, x) == if x in f then Some(f[x]) else None
  }

  ghost predicate Extends(f: map<int, int>, g: map<int, int>) {
    forall x :: x in f ==> x in g && g[x] == f[x]
  }

  lemma {:induction false} SetInputAt(inputs: seq<Input>, n: nat, i: Input)
    requires |inputs| <= n
    ensures var s := SetInput(inputs, n, i);
            |s| == n + 1 && s[n] == i && s[..|inputs|] == inputs && forall k :: |inputs| <= k < n ==> s[k] == GAP
    decreases n - |inputs|
  {
    if |inputs| < n {
      SetInputAt(inputs + [GAP], n, i);
    }
  }

  /** Where input i of the file ends up. */
  ghost predicate Landed(i: Input, mapper: seq<Option<int>>, s: seq<Input>, k: nat) {
    var id := Known(mapper, i.layer);
    if id.Some? then k < |s| && s[k] == i.(layer := id.value) else k < |s| ==> s[k] == GAP
  }

  /** Unknown layers leave gaps; at the end they leave nothing. */
  lemma {:induction false} MapInputsAt(read: seq<Input>, mapper: seq<Option<int>>, n: nat, inputs: seq<Input>)
    requires |inputs| <= n
    ensures var s := MapInputs(read, mapper, n, inputs);
            && |inputs| <= |s| <= n + |read|
            && (forall k :: 0 <= k < |inputs| ==> s[k] == inputs[k])
            && (forall k :: |inputs| <= k < n && k < |s| ==> s[k] == GAP)
            && (forall j :: 0 <= j < |read| ==> Landed(read[j], mapper, s, n + j))
    decreases |read|
  {
    if read != [] {
      var k := Known(mapper, read[0].layer);
      if k.Some? {
        SetInputAt(inputs, n, read[0].(layer := k.value));
      }
      var next := if k.Some? then SetInput(inputs, n, read[0].(layer := k.value)) else inputs;
      MapInputsAt(read[1..], mapper, n + 1, next);
      var s := MapInputs(read, mapper, n, inputs);
      forall j | 0 <= j < |read| ensures Landed(read[j], mapper, s, n + j) {
        if j > 0 {
          assert Landed(read[1..][j - 1], mapper, s, n + 1 + (j - 1));
        }
      }
    }
  }

  lemma {:induction false} RenameInputsAt(inputs: seq<Input>, g: map<int, int>, k: nat)
    requires k < |inputs|
    ensures RenameInputs(inputs, g)[k] == RenameInput(inputs[k], g)
  {
    if k > 0 {
      RenameInputsAt(inputs[1..], g, k - 1);
    }
  }

  lemma {:induction false} WrittenAll(inputs: seq<Input>, pool: set<int>)
    ensures |Written(inputs, pool)| <= |inputs|
    ensures |Written(inputs, pool)| == |inputs| <==> AllWritten(inputs, pool)
    ensures AllWritten(inputs, pool) ==> Written(inputs, pool) == inputs
  {
    if inputs != [] {
      WrittenAll(inputs[1..], pool);
      assert inputs == [inputs[0]] + inputs[1..];
      assert AllWritten(inputs, pool) ==> AllWritten(inputs[1..], pool);
    }
  }

  ghost predicate AllWritten(inputs: seq<Input>, pool: set<int>) {
    forall i :: 0 <= i < |inputs| ==> inputs[i].layer >= 0 && inputs[i].layer in pool
  }

  /** The inputs come back under the new ids exactly if each is set and names a layer that was
      started before its user.  Here f holds the layers started so far, g all of them. */
  lemma {:induction false} InputsComeBack(inputs: seq<Input>, pool: set<int>, mapper: seq<Option<int>>,
                                          f: map<int, int>, g: map<int, int>)
    requires MapperIs(mapper, f) && f.Keys <= pool && Extends(f, g)
    requires NonNegative(g) && SetInputsFrom(inputs, g.Keys)
    ensures MapInputs(Written(inputs, pool), mapper, 0, []) == RenameInputs(inputs, g) <==> InputsFrom(inputs, f.Keys)
  {
    WrittenAll(inputs, pool);
    MapInputsAt(Written(inputs, pool), mapper, 0, []);
    if InputsFrom(inputs, f.Keys) {
      StartedComeBack(inputs, pool, mapper, f, g);
    }
    if MapInputs(Written(inputs, pool), mapper, 0, []) == RenameInputs(inputs, g) {
      OnlyStartedComeBack(inputs, pool, mapper, f, g);
    }
  }

  lemma {:induction false} StartedComeBack(inputs: seq<Input>, pool: set<int>, mapper: seq<Option<int>>,
                                           f: map<int, int>, g: map<int, int>)
    requires MapperIs(mapper, f) && f.Keys <= pool && Extends(f, g) && InputsFrom(inputs, f.Keys)
    ensures MapInputs(Written(inputs, pool), mapper, 0, []) == RenameInputs(inputs, g)
  {
    var s, all := MapInputs(inputs, mapper, 0, []), RenameInputs(inputs, g);
    forall k | 0 <= k < |inputs|
      ensures inputs[k].layer >= 0 && Known(mapper, inputs[k].layer) == Some(g[inputs[k].layer])
    {
    }
    WrittenAll(inputs, pool);
    MapInputsAt(inputs, mapper, 0, []);
    forall k | 0 <= k < |inputs| ensures k < |s| && s[k] == all[k] {
      assert Landed(inputs[k], mapper, s, 0 + k);
      RenameInputsAt(inputs, g, k);
    }
    if inputs != [] {
      var last := |inputs| - 1;
      assert Landed(inputs[last], mapper, s, 0 + last);
    }
  }

  lemma {:induction false} OnlyStartedComeBack(inputs: seq<Input>, pool: set<int>, mapper: seq<Option<int>>,
                                               f: map<int, int>, g: map<int, int>)
    requires MapperIs(mapper, f) && NonNegative(g) && SetInputsFrom(inputs, g.Keys)
    requires MapInputs(Written(inputs, pool), mapper, 0, []) == RenameInputs(inputs, g)
    ensures InputsFrom(inputs, f.Keys)
  {
    var s := RenameInputs(inputs, g);
    WrittenAll(inputs, pool);
    MapInputsAt(Written(inputs, pool), mapper, 0, []);
    assert Written(inputs, pool) == inputs;
    forall k | 0 <= k < |inputs| ensures inputs[k].layer in f {
      RenameInputsAt(inputs, g, k);
      assert s[k].layer == g[inputs[k].layer];
      assert Landed(inputs[k], mapper, s, 0 + k);
    }
  }

  /** The inputs that are set, in order. */
  function SetInputs(inputs: seq<Input>): seq<Input> {
    if inputs == [] then []
    else if inputs[0].layer < 0 then SetInputs(inputs[1..])
    else [inputs[0]] + SetInputs(inputs[1..])
  }

  /** An input that was never set is not saved, so the inputs behind it move up by one place. */
  lemma {:induction false} UnsetInputsVanish(inputs: seq<Input>, pool: set<int>, mapper: seq<Option<int>>,
                                             f: map<int, int>, g: map<int, int>)
    requires MapperIs(mapper, f) && f.Keys <= pool && Extends(f, g) && InputsFrom(SetInputs(inputs), f.Keys)
    ensures MapInputs(Written(inputs, pool), mapper, 0, []) == RenameInputs(SetInputs(inputs), g)
  {
    WrittenIgnoresUnset(inputs, pool);
    StartedComeBack(SetInputs(inputs), pool, mapper, f, g);
  }

  lemma {:induction false} WrittenIgnoresUnset(inputs: seq<Input>, pool: set<int>)
    ensures Written(inputs, pool) == Written(SetInputs(inputs), pool)
  {
    if inputs != [] {
      WrittenIgnoresUnset(inputs[1..], pool);
    }
  }

  // -------------------------------------------------------------------------
  // The exact condition
  // -------------------------------------------------------------------------

  /** Every operation has the properties of its type. */
  ghost predicate AllDeclared(r: Registry, list: seq<Layer>) {
    list != [] ==> LayerDeclared(r, list[0]) && AllDeclared(r, list[1..])
  }

  ghost predicate LayerDeclared(r: Registry, l: Layer) {
    && Declared(DefaultsOf(r, l.op), l.op.props) && Declared(DefaultsOf(r, l.blender), l.blender.props)
    && AllDeclared(r, l.sublayers) && AllDeclared(r, l.imaps) && AllDeclared(r, l.omaps)
  }

  /** What a tree must fulfil to come back unchanged, apart from its ids: no hidden layers, no
      tabs or line breaks in names and values, no empty value where the default is not empty,
      no enabled layer of a type that starts switched off, map flags exactly below map lists,
      and all inputs set, to layers that start earlier in the file. */
  ghost predicate Portable(r: Registry, list: seq<Layer>, started: set<int>, isMap: bool) {
    list != [] ==>
      && PortableLayer(r, list[0], started, isMap)
      && Portable(r, list[1..], started + IdsOf(list[0]), isMap)
  }

  ghost predicate PortableLayer(r: Registry, l: Layer, started: set<int>, isMap: bool) {
    && PortableHead(r, l, started, isMap)
    && Portable(r, l.sublayers, started + {l.id}, isMap)
    && Portable(r, l.imaps, started + {l.id} + Ids(l.sublayers), true)
    && Portable(r, l.omaps, started + {l.id} + Ids(l.sublayers) + Ids(l.imaps), true)
  }

  ghost predicate PortableHead(r: Registry, l: Layer, started: set<int>, isMap: bool) {
    && !l.hidden && NoBlanks(l.name) && (l.enabled ==> !r.startsOff(l.op.kind))
    && PortableOperation(r, l.op, isMap) && PortableOperation(r, l.blender, isMap)
    && InputsFrom(l.inputs, started)
  }

  ghost predicate PortableOperation(r: Registry, op: Operation, isMap: bool) {
    op.mapFlag == isMap && |DefaultsOf(r, op)| == |op.props| && KeptProps(DefaultsOf(r, op), op.props)
  }

  lemma OperationComesBack(r: Registry, op: Operation, isMap: bool)
    requires Declared(DefaultsOf(r, op), op.props)
    ensures ReloadOperation(r, op, isMap) == op <==> PortableOperation(r, op, isMap)
  {
    PropsComeBack(DefaultsOf(r, op), op.props);
  }

  /** A saved and reloaded layer without its lists. */
  function HeadOf(l: Layer): Layer {
    l.(sublayers := [], imaps := [], omaps := [])
  }

  function ReloadHead(r: Registry, pool: set<int>, l: Layer, keys: set<int>, mapper: seq<Option<int>>,
                      isMap: bool): Layer {
    Layer(FreshId(keys), Normalize(l.name), l.enabled && !r.startsOff(l.op.kind), l.expanded, l.normal, false,
          ReloadOperation(r, l.op, isMap), ReloadOperation(r, l.blender, isMap),
          MapInputs(Written(l.inputs, pool), mapper, 0, []), [], [], [])
  }

  lemma {:induction false} HeadComesBack(r: Registry, pool: set<int>, l: Layer, keys: set<int>,
                                         mapper: seq<Option<int>>, isMap: bool, f: map<int, int>, g: map<int, int>)
    requires LayerDeclared(r, l) && MapperIs(mapper, f) && f.Keys <= pool && Extends(f, g)
    requires NonNegative(g) && SetInputsFrom(l.inputs, g.Keys) && l.id in g
    ensures ReloadHead(r, pool, l, keys, mapper, isMap) == HeadOf(RenameLayer(l, g))
       <==> g[l.id] == FreshId(keys) && PortableHead(r, l, f.Keys, isMap)
  {
    NormalizeKeeps(l.name);
    OperationComesBack(r, l.op, isMap);
    OperationComesBack(r, l.blender, isMap);
    InputsComeBack(l.inputs, pool, mapper, f, g);
  }

  // -------------------------------------------------------------------------
  // Whole trees
  // -------------------------------------------------------------------------

  /** What is known between two layers: the new id of every started layer, no two alike. */
  ghost predicate Tracks(mapper: seq<Option<int>>, f: map<int, int>, keys: set<int>) {
    && MapperIs(mapper, f) && OneToOne(f) && NonNegative(f)
    && forall x :: x in f ==> f[x] in keys
  }

  lemma StartTracked(mapper: seq<Option<int>>, f: map<int, int>, keys: set<int>, was: nat)
    requires Tracks(mapper, f, keys) && was !in f
    ensures Tracks(PutMapper(mapper, was, FreshId(keys)), f[was := FreshId(keys)], keys + {FreshId(keys)})
  {
    var id := FreshId(keys);
    var padded := PadMapper(mapper, was);
    assert PutMapper(mapper, was, id) == padded[was := Some(id)];
    assert forall x :: Known(padded, x) == Known(mapper, x);
    assert forall x :: Known(padded[was := Some(id)], x) == if x == was then Some(id) else Known(mapper, x);
  }

  lemma {:induction false} MoreInputs(list: seq<Layer>, a: set<int>, b: set<int>)
    requires AllInputsFrom(list, a) && a <= b
    ensures AllInputsFrom(list, b)
    decreases list
  {
    if list != [] {
      MoreLayerInputs(list[0], a, b);
      MoreInputs(list[1..], a, b);
    }
  }

  lemma {:induction false} MoreLayerInputs(l: Layer, a: set<int>, b: set<int>)
    requires LayerInputsFrom(l, a) && a <= b
    ensures LayerInputsFrom(l, b)
    decreases l
  {
    MoreInputs(l.sublayers, a, b);
    MoreInputs(l.imaps, a, b);
    MoreInputs(l.omaps, a, b);
  }

  lemma {:induction false} PortableInputs(r: Registry, list: seq<Layer>, started: set<int>, isMap: bool)
    requires Portable(r, list, started, isMap)
    ensures AllInputsFrom(list, started + Ids(list))
    decreases list
  {
    if list != [] {
      var all := started + Ids(list);
      PortableLayerInputs(r, list[0], started, isMap);
      MoreLayerInputs(list[0], started + IdsOf(list[0]), all);
      PortableInputs(r, list[1..], started + IdsOf(list[0]), isMap);
      MoreInputs(list[1..], started + IdsOf(list[0]) + Ids(list[1..]), all);
    }
  }

  lemma {:induction false} PortableLayerInputs(r: Registry, l: Layer, started: set<int>, isMap: bool)
    requires PortableLayer(r, l, started, isMap)
    ensures LayerInputsFrom(l, started + IdsOf(l))
    decreases l
  {
    var all := started + IdsOf(l);
    PortableInputs(r, l.sublayers, started + {l.id}, isMap);
    PortableInputs(r, l.imaps, started + {l.id} + Ids(l.sublayers), true);
    PortableInputs(r, l.omaps, started + {l.id} + Ids(l.sublayers) + Ids(l.imaps), true);
    MoreInputs(l.sublayers, started + {l.id} + Ids(l.sublayers), all);
    MoreInputs(l.imaps, started + {l.id} + Ids(l.sublayers) + Ids(l.imaps), all);
    MoreInputs(l.omaps, started + {l.id} + Ids(l.sublayers) + Ids(l.imaps) + Ids(l.omaps), all);
  }

  lemma {:induction false} RenameInputsStable(inputs: seq<Input>, f: map<int, int>, g: map<int, int>)
    requires Extends(f, g) && SetInputsFrom(inputs, f.Keys)
    ensures RenameInputs(inputs, f) == RenameInputs(inputs, g)
  {
    forall k | 0 <= k < |inputs| ensures RenameInputs(inputs, f)[k] == RenameInputs(inputs, g)[k] {
      RenameInputsAt(inputs, f, k);
      RenameInputsAt(inputs, g, k);
    }
  }

  lemma {:induction false} RenameStable(list: seq<Layer>, f: map<int, int>, g: map<int, int>)
    requires Extends(f, g) && Ids(list) <= f.Keys && AllInputsFrom(list, f.Keys)
    ensures RenameList(list, f) == RenameList(list, g)
    decreases list
  {
    if list != [] {
      RenameLayerStable(list[0], f, g);
      RenameStable(list[1..], f, g);
    }
  }

  lemma {:induction false} RenameLayerStable(l: Layer, f: map<int, int>, g: map<int, int>)
    requires Extends(f, g) && IdsOf(l) <= f.Keys && LayerInputsFrom(l, f.Keys)
    ensures RenameLayer(l, f) == RenameLayer(l, g)
    decreases l
  {
    RenameInputsStable(l.inputs, f, g);
    RenameStable(l.sublayers, f, g);
    RenameStable(l.imaps, f, g);
    RenameStable(l.omaps, f, g);
  }

  lemma {:induction false} ReloadLayerParts(r: Registry, pool: set<int>, l: Layer, keys: set<int>,
                                            mapper: seq<Option<int>>, isMap: bool, a: Reloaded, b: Reloaded,
                                            c: Reloaded)
    requires !l.hidden
    requires a == ReloadList(r, pool, l.sublayers, keys + {FreshId(keys)}, PutMapper(mapper, l.id, FreshId(keys)),
                             isMap)
    requires b == ReloadList(r, pool, l.imaps, a.keys, a.mapper, true)
    requires c == ReloadList(r, pool, l.omaps, b.keys, b.mapper, true)
    ensures ReloadLayer(r, pool, l, keys, mapper, isMap)
         == Reloaded([ReloadHead(r, pool, l, keys, mapper, isMap)
                      .(sublayers := a.list, imaps := b.list, omaps := c.list)],
                     c.keys, c.mapper)
  {
  }

  /** The demands on a tree that is saved: distinct ids that are in use, known operations. */
  ghost predicate Sound(r: Registry, list: seq<Layer>, started: set<int>, pool: set<int>) {
    KnownOperations(r, list) && AllDeclared(r, list) && Distinct(list) && Ids(list) !! started && Ids(list) <= pool
        && started <= pool
  }

  ghost predicate SoundLayer(r: Registry, l: Layer, started: set<int>, pool: set<int>) {
    KnownOperationsIn(r, l) && LayerDeclared(r, l) && DistinctLayer(l) && IdsOf(l) !! started && IdsOf(l) <= pool
        && started <= pool
  }

  lemma {:induction false} SoundList(r: Registry, list: seq<Layer>, started: set<int>, pool: set<int>)
    requires Sound(r, list, started, pool) && list != []
    ensures SoundLayer(r, list[0], started, pool) && Sound(r, list[1..], started + IdsOf(list[0]), pool)
    ensures started + IdsOf(list[0]) + Ids(list[1..]) == started + Ids(list)
  {
  }

  lemma {:induction false} SoundParts(r: Registry, l: Layer, started: set<int>, pool: set<int>)
    requires SoundLayer(r, l, started, pool)
    ensures l.id >= 0 && l.id !in started
    ensures var s0 := started + {l.id};
            && Sound(r, l.sublayers, s0, pool)
            && Sound(r, l.imaps, s0 + Ids(l.sublayers), pool)
            && Sound(r, l.omaps, s0 + Ids(l.sublayers) + Ids(l.imaps), pool)
            && s0 + Ids(l.sublayers) + Ids(l.imaps) + Ids(l.omaps) == started + IdsOf(l)
  {
    SoundSets(started, l.id, Ids(l.sublayers), Ids(l.imaps), Ids(l.omaps), pool);
    assert l.id in IdsOf(l);
  }

  lemma SoundSets(s: set<int>, id: int, a: set<int>, b: set<int>, c: set<int>, pool: set<int>)
    requires ({id} + a + b + c) !! s && {id} + a + b + c <= pool && s <= pool && id !in a + b + c && a !! b !! c
    ensures var s0 := s + {id};
            && a !! s0 && b !! s0 + a && c !! s0 + a + b && s0 + a + b + c == s + ({id} + a + b + c)
            && a <= pool && b <= pool && c <= pool && s0 <= pool && s0 + a <= pool && s0 + a + b <= pool
  {
  }

  /** A portable tree comes back renamed. */
  lemma {:induction false} PortableComesBack(r: Registry, pool: set<int>, list: seq<Layer>, keys: set<int>,
                                             mapper: seq<Option<int>>, isMap: bool, started: set<int>,
                                             f: map<int, int>)
      returns (g: map<int, int>)
    requires f.Keys == started && Sound(r, list, started, pool) && Tracks(mapper, f, keys)
             && Portable(r, list, started, isMap)
    ensures Extends(f, g) && g.Keys == started + Ids(list)
    ensures var rl := ReloadList(r, pool, list, keys, mapper, isMap);
            Tracks(rl.mapper, g, rl.keys) && rl.list == RenameList(list, g)
    decreases list
  {
    if list == [] {
      g := f;
    } else {
      SoundList(r, list, started, pool);
      var h := PortableLayerComesBack(r, pool, list[0], keys, mapper, isMap, started, f);
      var a := ReloadLayer(r, pool, list[0], keys, mapper, isMap);
      g := PortableComesBack(r, pool, list[1..], a.keys, a.mapper, isMap, started + IdsOf(list[0]), h);
      PortableLayerInputs(r, list[0], started, isMap);
      RenameLayerStable(list[0], h, g);
    }
  }

  lemma {:induction false} PortableLayerComesBack(r: Registry, pool: set<int>, l: Layer, keys: set<int>,
                                                  mapper: seq<Option<int>>, isMap: bool, started: set<int>,
                                                  f: map<int, int>)
      returns (g: map<int, int>)
    requires f.Keys == started && SoundLayer(r, l, started, pool) && Tracks(mapper, f, keys)
             && PortableLayer(r, l, started, isMap)
    ensures Extends(f, g) && g.Keys == started + IdsOf(l)
    ensures var rl := ReloadLayer(r, pool, l, keys, mapper, isMap);
            Tracks(rl.mapper, g, rl.keys) && rl.list == [RenameLayer(l, g)]
    decreases l
  {
    SoundParts(r, l, started, pool);
    StartTracked(mapper, f, keys, l.id);
    var id, s0 := FreshId(keys), started + {l.id};
    var f0, m0 := f[l.id := id], PutMapper(mapper, l.id, id);
    var f1 := PortableComesBack(r, pool, l.sublayers, keys + {id}, m0, isMap, s0, f0);
    var a := ReloadList(r, pool, l.sublayers, keys + {id}, m0, isMap);
    var f2 := PortableComesBack(r, pool, l.imaps, a.keys, a.mapper, true, s0 + Ids(l.sublayers), f1);
    var b := ReloadList(r, pool, l.imaps, a.keys, a.mapper, true);
    g := PortableComesBack(r, pool, l.omaps, b.keys, b.mapper, true, s0 + Ids(l.sublayers) + Ids(l.imaps), f2);
    var c := ReloadList(r, pool, l.omaps, b.keys, b.mapper, true);
    PartsRenamed(r, l, started, isMap, f1, f2, g);
    HeadComesBack(r, pool, l, keys, mapper, isMap, f, g);
    ReloadLayerParts(r, pool, l, keys, mapper, isMap, a, b, c);
  }

  lemma {:induction false} PartsRenamed(r: Registry, l: Layer, started: set<int>, isMap: bool, f1: map<int, int>,
                                        f2: map<int, int>, g: map<int, int>)
    requires PortableLayer(r, l, started, isMap) && Extends(f1, f2) && Extends(f2, g)
    requires f1.Keys == started + {l.id} + Ids(l.sublayers)
             && f2.Keys == started + {l.id} + Ids(l.sublayers) + Ids(l.imaps)
    ensures RenameList(l.sublayers, f1) == RenameList(l.sublayers, g)
            && RenameList(l.imaps, f2) == RenameList(l.imaps, g)
  {
    PortableInputs(r, l.sublayers, started + {l.id}, isMap);
    RenameStable(l.sublayers, f1, g);
    PortableInputs(r, l.imaps, started + {l.id} + Ids(l.sublayers), true);
    RenameStable(l.imaps, f2, g);
  }

  lemma {:induction false} NoMoreLayers(r: Registry, pool: set<int>, list: seq<Layer>, keys: set<int>,
                                        mapper: seq<Option<int>>, isMap: bool)
    ensures |ReloadList(r, pool, list, keys, mapper, isMap).list| <= |list|
    decreases |list|
  {
    if list != [] {
      var a := ReloadLayer(r, pool, list[0], keys, mapper, isMap);
      NoMoreLayers(r, pool, list[1..], a.keys, a.mapper, isMap);
    }
  }

  lemma {:induction false} RenamedLength(list: seq<Layer>, g: map<int, int>)
    ensures |RenameList(list, g)| == |list|
  {
    if list != [] {
      RenamedLength(list[1..], g);
    }
  }

  /** If a tree comes back renamed, so do its first layer and the others. */
  lemma {:induction false} RenamedParts(r: Registry, pool: set<int>, list: seq<Layer>, keys: set<int>,
                                        mapper: seq<Option<int>>, isMap: bool, g: map<int, int>)
    requires list != [] && ReloadList(r, pool, list, keys, mapper, isMap).list == RenameList(list, g)
    ensures var a := ReloadLayer(r, pool, list[0], keys, mapper, isMap);
            && !list[0].hidden && a.list == [RenameLayer(list[0], g)]
            && ReloadList(r, pool, list[1..], a.keys, a.mapper, isMap).list == RenameList(list[1..], g)
  {
    var a := ReloadLayer(r, pool, list[0], keys, mapper, isMap);
    var b := ReloadList(r, pool, list[1..], a.keys, a.mapper, isMap);
    NoMoreLayers(r, pool, list[1..], a.keys, a.mapper, isMap);
    RenamedLength(list[1..], g);
    var all := RenameList(list, g);
    assert all == a.list + b.list;
    if list[0].hidden {
      assert false;
    }
    assert a.list[0] == all[0];
    assert a.list == [a.list[0]] && b.list == all[1..];
  }

  /** Whatever g is: if the tree comes back renamed by g, then it was portable. */
  lemma {:induction false} OnlyPortableComesBack(r: Registry, pool: set<int>, list: seq<Layer>, keys: set<int>,
                                                 mapper: seq<Option<int>>,
                                                 isMap: bool, started: set<int>, f: map<int, int>, g: map<int, int>)
      returns (h: map<int, int>)
    requires f.Keys == started && Sound(r, list, started, pool) && Tracks(mapper, f, keys)
    requires Extends(f, g) && NonNegative(g) && Ids(list) <= g.Keys && AllInputsFrom(list, g.Keys)
    requires ReloadList(r, pool, list, keys, mapper, isMap).list == RenameList(list, g)
    ensures Portable(r, list, started, isMap)
    ensures Extends(h, g) && h.Keys == started + Ids(list)
    ensures var rl := ReloadList(r, pool, list, keys, mapper, isMap); Tracks(rl.mapper, h, rl.keys)
    decreases list
  {
    if list == [] {
      h := f;
    } else {
      SoundList(r, list, started, pool);
      RenamedParts(r, pool, list, keys, mapper, isMap, g);
      h := OnlyPortableLayerComesBack(r, pool, list[0], keys, mapper, isMap, started, f, g);
      var a := ReloadLayer(r, pool, list[0], keys, mapper, isMap);
      h := OnlyPortableComesBack(r, pool, list[1..], a.keys, a.mapper, isMap, started + IdsOf(list[0]), h, g);
    }
  }

  /** The start of a layer element. */
  lemma {:induction false} LayerStarted(r: Registry, pool: set<int>, l: Layer, keys: set<int>, mapper: seq<Option<int>>,
                                        started: set<int>, f: map<int, int>)
    requires f.Keys == started && SoundLayer(r, l, started, pool) && Tracks(mapper, f, keys)
    ensures l.id >= 0 && l.id !in started
    ensures f[l.id := FreshId(keys)].Keys == started + {l.id}
    ensures Tracks(PutMapper(mapper, l.id, FreshId(keys)), f[l.id := FreshId(keys)], keys + {FreshId(keys)})
    ensures var s0 := started + {l.id};
            && Sound(r, l.sublayers, s0, pool)
            && Sound(r, l.imaps, s0 + Ids(l.sublayers), pool)
            && Sound(r, l.omaps, s0 + Ids(l.sublayers) + Ids(l.imaps), pool)
            && s0 + Ids(l.sublayers) + Ids(l.imaps) + Ids(l.omaps) == started + IdsOf(l)
  {
    SoundParts(r, l, started, pool);
    StartTracked(mapper, f, keys, l.id);
  }

  /** If a layer comes back renamed, so do its head and its lists. */
  lemma {:induction false} RenamedHead(r: Registry, pool: set<int>, l: Layer, keys: set<int>, mapper: seq<Option<int>>,
                                       isMap: bool, f: map<int, int>, g: map<int, int>, a: Reloaded, b: Reloaded,
                                       c: Reloaded)
    requires LayerDeclared(r, l) && MapperIs(mapper, f) && f.Keys <= pool && Extends(f, g)
    requires NonNegative(g) && SetInputsFrom(l.inputs, g.Keys) && l.id in g && !l.hidden
    requires a == ReloadList(r, pool, l.sublayers, keys + {FreshId(keys)}, PutMapper(mapper, l.id, FreshId(keys)),
                             isMap)
    requires b == ReloadList(r, pool, l.imaps, a.keys, a.mapper, true)
    requires c == ReloadList(r, pool, l.omaps, b.keys, b.mapper, true)
    requires ReloadLayer(r, pool, l, keys, mapper, isMap).list == [RenameLayer(l, g)]
    ensures a.list == RenameList(l.sublayers, g) && b.list == RenameList(l.imaps, g) && c.list == RenameList(l.omaps, g)
    ensures g[l.id] == FreshId(keys) && PortableHead(r, l, f.Keys, isMap)
    ensures ReloadLayer(r, pool, l, keys, mapper, isMap).mapper == c.mapper
    ensures ReloadLayer(r, pool, l, keys, mapper, isMap).keys == c.keys
  {
    ReloadLayerParts(r, pool, l, keys, mapper, isMap, a, b, c);
    var head := ReloadHead(r, pool, l, keys, mapper, isMap);
    assert [head.(sublayers := a.list, imaps := b.list, omaps := c.list)][0] == RenameLayer(l, g);
    assert head == HeadOf(RenameLayer(l, g));
    HeadComesBack(r, pool, l, keys, mapper, isMap, f, g);
  }

  lemma {:induction false} OnlyPortableLayerComesBack(r: Registry, pool: set<int>, l: Layer, keys: set<int>,
                                                      mapper: seq<Option<int>>,
                                                      isMap: bool, started: set<int>,
                                                      f: map<int, int>, g: map<int, int>)
      returns (h: map<int, int>)
    requires f.Keys == started && SoundLayer(r, l, started, pool) && Tracks(mapper, f, keys)
    requires Extends(f, g) && NonNegative(g) && IdsOf(l) <= g.Keys && LayerInputsFrom(l, g.Keys)
    requires !l.hidden && ReloadLayer(r, pool, l, keys, mapper, isMap).list == [RenameLayer(l, g)]
    ensures PortableLayer(r, l, started, isMap)
    ensures Extends(h, g) && h.Keys == started + IdsOf(l)
    ensures var rl := ReloadLayer(r, pool, l, keys, mapper, isMap); Tracks(rl.mapper, h, rl.keys)
    decreases l
  {
    var id, s0 := FreshId(keys), started + {l.id};
    var f0, m0 := f[l.id := id], PutMapper(mapper, l.id, id);
    var a := ReloadList(r, pool, l.sublayers, keys + {id}, m0, isMap);
    var b := ReloadList(r, pool, l.imaps, a.keys, a.mapper, true);
    var c := ReloadList(r, pool, l.omaps, b.keys, b.mapper, true);
    LayerStarted(r, pool, l, keys, mapper, started, f);
    RenamedHead(r, pool, l, keys, mapper, isMap, f, g, a, b, c);
    var f1 := OnlyPortableComesBack(r, pool, l.sublayers, keys + {id}, m0, isMap, s0, f0, g);
    var f2 := OnlyPortableComesBack(r, pool, l.imaps, a.keys, a.mapper, true, s0 + Ids(l.sublayers), f1, g);
    h := OnlyPortableComesBack(r, pool, l.omaps, b.keys, b.mapper, true, s0 + Ids(l.sublayers) + Ids(l.imaps), f2, g);
    var rl := ReloadLayer(r, pool, l, keys, mapper, isMap);
    assert rl.mapper == c.mapper && rl.keys == c.keys;
  }

  // -------------------------------------------------------------------------
  // Files
  // -------------------------------------------------------------------------

  const FILE_VERSION := 5

  /** The raw markup of a saved image. */
  function SaveImage(list: seq<Layer>, pool: set<int>): seq<Event> {
    [Open("image", [Attr("version", PrintInt(FILE_VERSION))])] + SaveList(list, pool) + [Close("image")]
  }

  lemma {:induction false} SavedImageDelivered(list: seq<Layer>, pool: set<int>)
    requires PlainWords(list)
    ensures Deliver(SaveImage(list, pool))
         == Some([Open("image", [Attr("version", PrintInt(FILE_VERSION))])] + ListEvents(list, pool) + [Close("image")])
  {
    var version := PrintInt(FILE_VERSION);
    IntIsSimple(FILE_VERSION);
    SimpleIsPlain(version);
    DeliverOpen("image", "version", version, version);
    SavedListDelivered(list, pool);
    DeliverOne(Close("image"), Close("image"));
    var head := [Open("image", [Attr("version", version)])];
    DeliverConcat(head, SaveList(list, pool), head, ListEvents(list, pool));
    DeliverConcat(head + SaveList(list, pool), [Close("image")], head + ListEvents(list, pool), [Close("image")]);
  }

  /** Reading a saved image appends the layers of ReloadList to those the document has already,
      and leaves these alone; whatever version the reader expected before. */
  lemma {:induction false} SavedImageLoads(r: Registry, list: seq<Layer>, pool: set<int>, doc: Doc, version: int)
    requires PlainWords(list) && KnownOperations(r, list)
    ensures var events := Deliver(SaveImage(list, pool));
            && events.Some?
            && Grown(doc, Load(r, Begin(doc, version), events.value).doc, Top,
                     ReloadList(r, pool, list, doc.pool.Keys, [], false))
  {
    SavedImageDelivered(list, pool);
    var open := Open("image", [Attr("version", PrintInt(FILE_VERSION))]);
    TextAt([Attr("version", PrintInt(FILE_VERSION))], 0, "version", PrintInt(version));
    AtoiPrinted(FILE_VERSION);
    var s := Begin(doc, version);
    var t := Begin(doc, FILE_VERSION);
    LoadOne(r, s, open);
    ListLoads(r, t, list, pool);
    LoadConcat(r, s, [open], ListEvents(list, pool));
    LoadConcat(r, s, [open] + ListEvents(list, pool), [Close("image")]);
    LoadOne(r, Load(r, t, ListEvents(list, pool)), Close("image"));
  }

  /** Saved and loaded into a document, the layers are the same under other ids. */
  ghost predicate LoadedAs(r: Registry, list: seq<Layer>, pool: set<int>, doc: Doc, g: map<int, int>) {
    IsRenaming(list, ReloadList(r, pool, list, doc.pool.Keys, [], false).list, g)
  }

  /** The loaded layers are the saved ones under other ids exactly if the saved tree is
      portable. */
  lemma {:induction false} SameTreeExactlyIfPortable(r: Registry, list: seq<Layer>, pool: set<int>, doc: Doc)
    requires KnownOperations(r, list) && AllDeclared(r, list) && Distinct(list) && Ids(list) <= pool
    ensures (exists g :: LoadedAs(r, list, pool, doc, g)) <==> Portable(r, list, {}, false)
  {
    if Portable(r, list, {}, false) {
      var g := PortableIsRenamed(r, list, pool, doc);
    } else if exists g :: LoadedAs(r, list, pool, doc, g) {
      var g :| LoadedAs(r, list, pool, doc, g);
      RenamedIsPortable(r, list, pool, doc, g);
    }
  }

  lemma PortableIsRenamed(r: Registry, list: seq<Layer>, pool: set<int>, doc: Doc) returns (g: map<int, int>)
    requires KnownOperations(r, list) && AllDeclared(r, list) && Distinct(list) && Ids(list) <= pool
    requires Portable(r, list, {}, false)
    ensures LoadedAs(r, list, pool, doc, g)
  {
    g := PortableComesBack(r, pool, list, doc.pool.Keys, [], false, {}, map[]);
    PortableInputs(r, list, {}, false);
    assert {} + Ids(list) == Ids(list);
  }

  lemma {:induction false} RenamedIsPortable(r: Registry, list: seq<Layer>, pool: set<int>, doc: Doc, g: map<int, int>)
    requires KnownOperations(r, list) && AllDeclared(r, list) && Distinct(list) && Ids(list) <= pool
    requires LoadedAs(r, list, pool, doc, g)
    ensures Portable(r, list, {}, false)
  {
    var _ := OnlyPortableComesBack(r, pool, list, doc.pool.Keys, [], false, {}, map[], g);
  }
}
