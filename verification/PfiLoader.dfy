/** The loader as the parser drives it: handlers that update its fields at every event. */
module PfiLoader {
  import opened Basics
  import opened LayerTree
  import opened DecimalText
  import opened PfiWriter
  import opened PfiReader
  import opened XmlText
  import PfiRoundTrip

  class FileLoader {
    const registry: Registry
    var doc: Doc
    var layersStack: seq<int>
    var containersStack: seq<Slot>
    var currentLayer: Option<int>
    var currentContainer: Option<Place>
    var currentContainerMapFlag: bool
    var currentOp: Option<Target>
    var version: int
    var layerIdMapper: seq<Option<int>>

    function State(): Loader
      reads this
    {
      Loader(doc, layersStack, containersStack, currentLayer, currentContainer, currentContainerMapFlag, currentOp,
             version, layerIdMapper)
    }

    /** Reading an image: its own list is the open one. */
    constructor (r: Registry, image: Doc, lastVersion: int)
      ensures State() == Begin(image, lastVersion) && registry == r
    {
      registry, doc, version := r, image, lastVersion;
      layersStack, layerIdMapper, currentLayer, currentOp := [], [], None, None;
      currentContainer, currentContainerMapFlag := Some(Top), false;
      containersStack := [Slot(Top, false)];
    }

    static method AppendLayer(layer: int, previous: Option<int>, list: seq<int>) returns (r: seq<int>)
      ensures r == AppendAfter(list, previous, layer)
      ensures previous.None? || previous.value !in list ==> r == list + [layer]
      ensures forall k :: 0 <= k < |list| && previous == Some(list[k]) && list[k] !in list[..k] ==>
                r == list[..k + 1] + [layer] + list[k + 1..]
    {
      AppendAfterAt(list, previous, layer);
      if previous.None? {
        return list + [layer];
      }
      var i := 0;
      assert list[0..] == list;
      while i < |list| && list[i] != previous.value
        invariant 0 <= i <= |list|
        invariant previous.value !in list[..i]
      {
        i := i + 1;
      }
      if i == |list| {
        assert list[..i] == list;
        r := list + [layer];
      } else {
        r := list[..i + 1] + [layer] + list[i + 1..];
        InsertBehindAt(list, previous.value, layer, i);
      }
    }

    /** The cursor loop over the attributes of a layer. */
    method ReadLayerAttributes(attrs: seq<Attr>)
        returns (oldId: int, name: string, visible: int, expanded: int, normal: int, inputs: seq<Input>)
      ensures oldId == Atoi(TextOf(attrs, "id", "-1")) && name == TextOf(attrs, "name", "")
      ensures visible == Atoi(TextOf(attrs, "visible", "-1")) && expanded == Atoi(TextOf(attrs, "expanded", "-1"))
      ensures normal == Atoi(TextOf(attrs, "normal", "-1"))
      ensures inputs == LoadInputs(attrs, layerIdMapper, version, [])
    {
      oldId, name, visible, expanded, normal, inputs := -1, "", -1, -1, -1, [];
      ghost var idText, visibleText, expandedText, normalText := "-1", "-1", "-1", "-1";
      MinusOne();
      assert attrs[0..] == attrs;
      for i := 0 to |attrs|
        invariant oldId == Atoi(idText) && TextOf(attrs[i..], "id", idText) == TextOf(attrs, "id", "-1")
        invariant TextOf(attrs[i..], "name", name) == TextOf(attrs, "name", "")
        invariant visible == Atoi(visibleText) && expanded == Atoi(expandedText) && normal == Atoi(normalText)
        invariant TextOf(attrs[i..], "visible", visibleText) == TextOf(attrs, "visible", "-1")
        invariant TextOf(attrs[i..], "expanded", expandedText) == TextOf(attrs, "expanded", "-1")
        invariant TextOf(attrs[i..], "normal", normalText) == TextOf(attrs, "normal", "-1")
        invariant LoadInputs(attrs[i..], layerIdMapper, version, inputs)
                  == LoadInputs(attrs, layerIdMapper, version, [])
      {
        var a := attrs[i];
        assert attrs[i..][0] == a && attrs[i..][1..] == attrs[i + 1..];
        if a.name == "id" {
          idText, oldId := a.text, Atoi(a.text);
        } else if a.name == "name" {
          name := a.text;
        } else if a.name == "visible" {
          visibleText, visible := a.text, Atoi(a.text);
        } else if a.name == "expanded" {
          expandedText, expanded := a.text, Atoi(a.text);
        } else if a.name == "normal" {
          normalText, normal := a.text, Atoi(a.text);
        } else if a.name == "extra_inputs" || a.name == "inputs" {
          inputs := ReadLayerInputs(a.text, inputs);
        }
      }
    }

    /** The stream loop over the text of the inputs. */
    method ReadLayerInputs(text: string, before: seq<Input>) returns (inputs: seq<Input>)
      ensures inputs == MapInputs(ReadInputs(text, version), layerIdMapper, 0, before)
    {
      inputs := before;
      var rest, ninput := text, 0;
      var next := ReadInput(rest, version);
      while next.Some?
        invariant ninput >= 0
        invariant next == ReadInput(rest, version)
        invariant MapInputs(ReadInputs(rest, version), layerIdMapper, ninput, inputs)
               == MapInputs(ReadInputs(text, version), layerIdMapper, 0, before)
        decreases |rest|
      {
        var i := next.value.0;
        ghost var all := ReadInputs(rest, version);
        assert all[0] == i && all[1..] == ReadInputs(next.value.1, version);
        if 0 <= i.layer < |layerIdMapper| && layerIdMapper[i.layer].Some? {
          inputs := AssignInput(inputs, ninput, i.(layer := layerIdMapper[i.layer].value));
        }
        ninput := ninput + 1;
        rest := next.value.1;
        next := ReadInput(rest, version);
      }
    }

    /** Registers a layer under its old id. */
    method MapId(oldId: int, layer: int)
      modifies this`layerIdMapper
      ensures layerIdMapper == PutMapper(old(layerIdMapper), oldId, layer)
    {
      ghost var before := layerIdMapper;
      while |layerIdMapper| <= oldId
        invariant PadMapper(layerIdMapper, oldId) == PadMapper(before, oldId)
        invariant oldId < |before| || |layerIdMapper| <= oldId + 1
        decreases oldId - |layerIdMapper|
      {
        layerIdMapper := layerIdMapper + [None];
      }
      if oldId >= 0 {
        layerIdMapper := layerIdMapper[oldId := Some(layer)];
      }
    }

    method StartLayer(attrs: seq<Attr>)
      modifies this
      ensures State() == OpenLayer(registry, old(State()), attrs)
    {
      if currentContainer.None? || !Exists(doc, currentContainer.value) {
        return;
      }
      var layer := FreshId(doc.pool.Keys);
      ghost var s := State();
      var list := AppendLayer(layer, currentLayer, ListAt(doc, currentContainer.value));
      doc := WithList(doc, currentContainer.value, list);
      currentLayer := Some(layer);
      layersStack := layersStack + [layer];
      var oldId, name, visible, expanded, normal, inputs := ReadLayerAttributes(attrs);
      MapId(oldId, layer);
      var rec := NEW_LAYER.(name := name, enabled := visible != 0, expanded := expanded != 0, normal := normal != 0,
                            inputs := inputs);
      doc := doc.(pool := doc.pool[layer := rec]);
      assert State() == NewLayer(s, attrs);
      if version < 2 && normal == 0 {
        StartOldGroup(layer);
      }
    }

    /** Gives a group of an old file its operation. */
    method StartOldGroup(layer: int)
      requires layer in doc.pool
      modifies this
      ensures State() == OldGroup(registry, old(State()), layer)
    {
      var made := NewOperation(registry, doc, layer, "buffer");
      if made.Some? {
        doc, currentOp := made.value, Some(OpOf(layer));
      }
      doc := SetMapFlag(doc, currentOp, currentContainerMapFlag);
    }

    method StartSublayers(attrs: seq<Attr>)
      modifies this
      ensures State() == OpenSublayers(old(State()), attrs)
    {
      if currentLayer.None? {
        return;
      }
      var kind := TextOf(attrs, "type", "");
      if kind == "imap" {
        currentContainer, currentContainerMapFlag := Some(Inside(currentLayer.value, IMap)), true;
        containersStack := containersStack + [Slot(currentContainer.value, true)];
      } else if kind == "omap" {
        currentContainer, currentContainerMapFlag := Some(Inside(currentLayer.value, OMap)), true;
        containersStack := containersStack + [Slot(currentContainer.value, true)];
      } else if kind == "child" {
        currentContainer := Some(Inside(currentLayer.value, Child));
        containersStack := containersStack + [Slot(currentContainer.value, currentContainerMapFlag)];
      }
      currentLayer := None;
    }

    method StartOperation(attrs: seq<Attr>)
      modifies this
      ensures State() == OpenOperation(registry, old(State()), attrs)
    {
      var kind := TextOf(attrs, "type", "");
      if currentLayer.None? || currentLayer.value !in doc.pool {
        return;
      }
      var id := currentLayer.value;
      if kind == "blender" {
        currentOp := None;
        if doc.pool[id].blender.Some? {
          currentOp := Some(BlenderOf(id));
        }
      } else {
        var made := NewOperation(registry, doc, id, kind);
        if made.Some? {
          doc, currentOp := made.value, Some(OpOf(id));
          if registry.startsOff(kind) {
            doc := doc.(pool := doc.pool[id := doc.pool[id].(enabled := false)]);
          }
        }
      }
      doc := SetMapFlag(doc, currentOp, currentContainerMapFlag);
    }

    method StartProperty(attrs: seq<Attr>)
      modifies this
      ensures State() == OpenProperty(old(State()), attrs)
    {
      if currentOp.None? {
        return;
      }
      var name, text := TextOf(attrs, "name", ""), TextOf(attrs, "value", "");
      if name != "" && text != "" {
        if version < 2 && (name == "opacity" || name == "blend_mode") {
          if currentLayer.Some? {
            doc := Assign(doc, BlenderOf(currentLayer.value), name, text);
          }
        } else {
          doc := Assign(doc, currentOp.value, name, text);
        }
      }
    }

    method StartElement(element: string, attrs: seq<Attr>)
      modifies this
      ensures State() == Handle(registry, old(State()), Open(element, attrs))
    {
      if element == "image" || element == "preset" {
        version := Atoi(TextOf(attrs, "version", PrintInt(version)));
      } else if element == "layer" {
        StartLayer(attrs);
      } else if element == "sublayers" {
        StartSublayers(attrs);
      } else if element == "operation" {
        StartOperation(attrs);
      } else if element == "property" {
        StartProperty(attrs);
      }
    }

    method EndElement(element: string)
      modifies this
      ensures State() == Handle(registry, old(State()), Close(element))
    {
      if element == "layer" {
        layersStack := DropLast(layersStack);
        currentLayer := None;
        if layersStack != [] {
          currentLayer := Some(layersStack[|layersStack| - 1]);
        }
      } else if element == "sublayers" {
        containersStack := DropLast(containersStack);
        currentContainer := None;
        if containersStack != [] {
          var top := containersStack[|containersStack| - 1];
          currentContainer, currentContainerMapFlag := Some(top.place), top.isMap;
        }
        currentLayer := None;
        if layersStack != [] {
          currentLayer := Some(layersStack[|layersStack| - 1]);
        }
      } else if element == "operation" {
        currentOp := None;
      }
    }

    method Parse(events: seq<Event>)
      modifies this
      ensures State() == Load(registry, old(State()), events)
    {
      ghost var s0 := State();
      assert events[0..] == events;
      for i := 0 to |events|
        invariant Load(registry, State(), events[i..]) == Load(registry, s0, events)
      {
        assert events[i..][0] == events[i] && events[i..][1..] == events[i + 1..];
        match events[i] {
          case Open(element, attrs) => StartElement(element, attrs);
          case Close(element) => EndElement(element);
        }
      }
    }
  }

  lemma MinusOne()
    ensures Atoi("-1") == -1
  {
    AtoiPrinted(-1);
    assert DigitChar(1) == '1';
    assert PrintInt(-1) == "-1";
  }

  // -------------------------------------------------------------------------
  // The stacks
  // -------------------------------------------------------------------------

  /** Where a well formed file stands after some events; n layers are open. */
  datatype Position = AtList(n: nat) | AtLayer(n: nat) | AtOperation(n: nat) | AtProperty(n: nat)

  predicate SublayerKind(attrs: seq<Attr>) {
    var kind := TextOf(attrs, "type", "");
    kind == "child" || kind == "imap" || kind == "omap"
  }

  /** Layers stand in lists, lists and operations in layers, properties in operations. */
  function Move(p: Position, e: Event): Option<Position> {
    match p
    case AtList(n) =>
      if e.Open? && e.element == "layer" then Some(Position.AtLayer(n + 1))
      else if e.Close? && e.element == "sublayers" && n > 0 then Some(Position.AtLayer(n))
      else None
    case AtLayer(n) =>
      if e.Open? && e.element == "sublayers" && SublayerKind(e.attrs) then Some(AtList(n))
      else if e.Open? && e.element == "operation" then Some(AtOperation(n))
      else if e.Close? && e.element == "layer" && n > 0 then Some(AtList(n - 1))
      else None
    case AtOperation(n) =>
      if e.Open? && e.element == "property" then Some(AtProperty(n))
      else if e.Close? && e.element == "operation" then Some(Position.AtLayer(n))
      else None
    case AtProperty(n) =>
      if e.Close? && e.element == "property" then Some(AtOperation(n)) else None
  }

  function Moves(p: Position, events: seq<Event>): Option<Position>
    decreases |events|
  {
    if events == [] then Some(p)
    else
      var q := Move(p, events[0]);
      if q.None? then None else Moves(q.value, events[1..])
  }

  /** A list inside a layer belongs to the layer opened just before it, and is a map list if it
      or any list around it holds maps. */
  ghost predicate SlotsFit(layers: seq<int>, slots: seq<Slot>, isMap: bool) {
    && slots != [] && slots[0].isMap == isMap && slots[0].place == Top
    && |slots| <= |layers| + 1
    && forall i :: 0 < i < |slots| ==> slots[i].place.Inside? && slots[i].place.owner == layers[i - 1]
                                       && slots[i].isMap == (slots[i - 1].isMap || slots[i].place.part != Child)
  }

  /** The two stacks are in step, and the current fields show their tops. */
  ghost predicate InStep(s: Loader, p: Position, isMap: bool) {
    && |s.layers| == p.n
    && |s.slots| == (if p.AtList? then p.n + 1 else p.n)
    && SlotsFit(s.layers, s.slots, isMap)
    && s.place == Some(s.slots[|s.slots| - 1].place) && s.isMap == s.slots[|s.slots| - 1].isMap
    && (s.layer == TopOf(s.layers) || (p.AtList? && s.layer == None))
    && (forall i :: 0 <= i < |s.layers| ==> s.layers[i] in s.doc.pool)
  }

  lemma PropertyKeepsAll(s: Loader, attrs: seq<Attr>)
    ensures OpenProperty(s, attrs) == s.(doc := OpenProperty(s, attrs).doc)
    ensures OpenProperty(s, attrs).doc.pool.Keys == s.doc.pool.Keys
  {
  }

  lemma OperationKeepsStacks(r: Registry, s: Loader, attrs: seq<Attr>)
    ensures var t := OpenOperation(r, s, attrs);
            t == s.(doc := t.doc, op := t.op) && t.doc.pool.Keys == s.doc.pool.Keys
  {
  }

  lemma LayerPushed(r: Registry, s: Loader, attrs: seq<Attr>)
    requires s.place.Some? && Exists(s.doc, s.place.value)
    ensures var t, id := OpenLayer(r, s, attrs), FreshId(s.doc.pool.Keys);
            && t == s.(doc := t.doc, op := t.op, mapper := t.mapper, layers := s.layers + [id], layer := Some(id))
            && t.doc.pool.Keys == s.doc.pool.Keys + {id}
  {
  }

  lemma OpenLayerKeepsStep(r: Registry, s: Loader, attrs: seq<Attr>, n: nat, isMap: bool)
    requires InStep(s, AtList(n), isMap)
    ensures InStep(OpenLayer(r, s, attrs), Position.AtLayer(n + 1), isMap)
  {
    if n > 0 {
      assert s.slots[n].place.owner == s.layers[n - 1];
    }
    LayerPushed(r, s, attrs);
    SlotsFitLayers(s.layers, [FreshId(s.doc.pool.Keys)], s.slots, isMap);
  }

  lemma SlotsFitLayers(layers: seq<int>, more: seq<int>, slots: seq<Slot>, isMap: bool)
    requires SlotsFit(layers, slots, isMap)
    ensures SlotsFit(layers + more, slots, isMap)
  {
  }

  lemma SlotsFitFewer(layers: seq<int>, m: nat, slots: seq<Slot>, k: nat, isMap: bool)
    requires SlotsFit(layers, slots, isMap) && m <= |layers| && 0 < k <= |slots| && k <= m + 1
    ensures SlotsFit(layers[..m], slots[..k], isMap)
  {
  }

  lemma OpenSublayersKeepsStep(s: Loader, attrs: seq<Attr>, n: nat, isMap: bool)
    requires InStep(s, Position.AtLayer(n), isMap) && SublayerKind(attrs)
    ensures InStep(OpenSublayers(s, attrs), AtList(n), isMap)
  {
    var kind := TextOf(attrs, "type", "");
    var part := if kind == "imap" then IMap else if kind == "omap" then OMap else Child;
    assert n > 0 && s.layer == Some(s.layers[n - 1]);
    EnterKeepsStep(s, part, n, isMap);
    assert OpenSublayers(s, attrs) == Entered(s, part, s.layers[n - 1]);
  }

  /** A list inside a layer is opened. */
  function Entered(s: Loader, part: Part, owner: int): Loader {
    EnterList(s, Inside(owner, part), s.isMap || part != Child).(layer := None)
  }

  lemma EnterKeepsStep(s: Loader, part: Part, n: nat, isMap: bool)
    requires InStep(s, Position.AtLayer(n), isMap) && n > 0
    ensures InStep(Entered(s, part, s.layers[n - 1]), AtList(n), isMap)
  {
    var slots := Entered(s, part, s.layers[n - 1]).slots;
    forall i | 0 < i < |slots|
      ensures slots[i].place.Inside? && slots[i].place.owner == s.layers[i - 1]
              && slots[i].isMap == (slots[i - 1].isMap || slots[i].place.part != Child)
    {
      assert slots[i - 1] == s.slots[i - 1];
      if i < n {
        assert slots[i] == s.slots[i];
      }
    }
    assert SlotsFit(s.layers, slots, isMap);
  }

  lemma CloseLayerKeepsStep(s: Loader, n: nat, isMap: bool)
    requires InStep(s, Position.AtLayer(n), isMap) && n > 0
    ensures InStep(CloseLayer(s), AtList(n - 1), isMap)
  {
    SlotsFitFewer(s.layers, n - 1, s.slots, n, isMap);
    assert s.slots[..n] == s.slots;
  }

  lemma CloseSublayersKeepsStep(s: Loader, n: nat, isMap: bool)
    requires InStep(s, AtList(n), isMap) && n > 0
    ensures InStep(CloseSublayers(s), Position.AtLayer(n), isMap)
  {
    SlotsFitFewer(s.layers, n, s.slots, n, isMap);
    assert s.layers[..n] == s.layers;
  }

  /** A step that changes the document only in what its layers hold. */
  lemma StacksKept(s: Loader, t: Loader, p: Position, q: Position, isMap: bool)
    requires InStep(s, p, isMap) && q.n == p.n && (q.AtList? <==> p.AtList?)
    requires t == s.(doc := t.doc, op := t.op) && t.doc.pool.Keys == s.doc.pool.Keys
    ensures InStep(t, q, isMap)
  {
  }

  lemma ListEventKeepsStep(r: Registry, s: Loader, e: Event, p: Position, isMap: bool)
    requires InStep(s, p, isMap) && p.AtList? && Move(p, e).Some?
    ensures InStep(Handle(r, s, e), Move(p, e).value, isMap)
  {
    if e.Open? {
      OpenLayerKeepsStep(r, s, e.attrs, p.n, isMap);
    } else {
      CloseSublayersKeepsStep(s, p.n, isMap);
    }
  }

  lemma LayerEventKeepsStep(r: Registry, s: Loader, e: Event, p: Position, isMap: bool)
    requires InStep(s, p, isMap) && p.AtLayer? && Move(p, e).Some?
    ensures InStep(Handle(r, s, e), Move(p, e).value, isMap)
  {
    if e.Close? {
      CloseLayerKeepsStep(s, p.n, isMap);
    } else if e.element == "sublayers" {
      OpenSublayersKeepsStep(s, e.attrs, p.n, isMap);
    } else {
      OperationKeepsStacks(r, s, e.attrs);
      StacksKept(s, OpenOperation(r, s, e.attrs), p, AtOperation(p.n), isMap);
    }
  }

  lemma OperationEventKeepsStep(r: Registry, s: Loader, e: Event, p: Position, isMap: bool)
    requires InStep(s, p, isMap) && (p.AtOperation? || p.AtProperty?) && Move(p, e).Some?
    ensures InStep(Handle(r, s, e), Move(p, e).value, isMap)
  {
    if e.Open? {
      PropertyKeepsAll(s, e.attrs);
    }
    StacksKept(s, Handle(r, s, e), p, Move(p, e).value, isMap);
  }

  lemma EventKeepsStep(r: Registry, s: Loader, e: Event, p: Position, isMap: bool)
    requires InStep(s, p, isMap) && Move(p, e).Some?
    ensures InStep(Handle(r, s, e), Move(p, e).value, isMap)
  {
    match p
    case AtList(_) => ListEventKeepsStep(r, s, e, p, isMap);
    case AtLayer(_) => LayerEventKeepsStep(r, s, e, p, isMap);
    case _ => OperationEventKeepsStep(r, s, e, p, isMap);
  }

  /** At every point of every well formed file. */
  lemma {:induction false} StacksStayInStep(r: Registry, s: Loader, events: seq<Event>, p: Position, isMap: bool)
    requires InStep(s, p, isMap) && Moves(p, events).Some?
    ensures InStep(Load(r, s, events), Moves(p, events).value, isMap)
    decreases |events|
  {
    if events != [] {
      EventKeepsStep(r, s, events[0], p, isMap);
      StacksStayInStep(r, Handle(r, s, events[0]), events[1..], Move(p, events[0]).value, isMap);
    }
  }

  // -------------------------------------------------------------------------
  // Saved files
  // -------------------------------------------------------------------------

  lemma {:induction false} MovesConcat(p: Position, a: seq<Event>, b: seq<Event>)
    requires Moves(p, a).Some?
    ensures Moves(p, a + b) == Moves(Moves(p, a).value, b)
    decreases |a|
  {
    if a == [] {
      assert a + b == b;
    } else {
      assert (a + b)[0] == a[0] && (a + b)[1..] == a[1..] + b;
      MovesConcat(Move(p, a[0]).value, a[1..], b);
    }
  }

  lemma {:induction false} PrefixMoves(p: Position, events: seq<Event>, k: nat)
    requires Moves(p, events).Some? && k <= |events|
    ensures Moves(p, events[..k]).Some?
    decreases k
  {
    if k > 0 {
      assert events[..k][0] == events[0] && events[..k][1..] == events[1..][..k - 1];
      PrefixMoves(Move(p, events[0]).value, events[1..], k - 1);
    }
  }

  lemma {:induction false} OneMove(p: Position, e: Event)
    ensures Moves(p, [e]) == Move(p, e)
  {
    assert [e][1..] == [];
    assert forall q: Position :: Moves(q, []) == Some(q);
  }

  lemma {:induction false} PropsMove(props: seq<Property>, n: nat)
    ensures Moves(AtOperation(n), PropsEvents(props)) == Some(AtOperation(n))
    decreases |props|
  {
    if props != [] {
      var name, text := props[0].name, Normalize(props[0].text);
      var open := Open("property", [Attr("name", name), Attr("value", text)]);
      OneMove(AtOperation(n), open);
      OneMove(AtProperty(n), Close("property"));
      MovesConcat(AtOperation(n), [open], [Close("property")]);
      assert [open] + [Close("property")] == PropertyEvents(name, text);
      MovesConcat(AtOperation(n), PropertyEvents(name, text), PropsEvents(props[1..]));
      PropsMove(props[1..], n);
    }
  }

  lemma OperationMoves(op: Operation, n: nat)
    ensures Moves(Position.AtLayer(n), OperationEvents(op)) == Some(Position.AtLayer(n))
  {
    var open := Open("operation", [Attr("type", op.kind)]);
    OneMove(Position.AtLayer(n), open);
    PropsMove(op.props, n);
    OneMove(AtOperation(n), Close("operation"));
    MovesConcat(Position.AtLayer(n), [open], PropsEvents(op.props));
    MovesConcat(Position.AtLayer(n), [open] + PropsEvents(op.props), [Close("operation")]);
  }

  lemma {:induction false} SublistMoves(part: Part, inner: seq<Event>, n: nat)
    requires n > 0 && Moves(AtList(n), inner) == Some(AtList(n))
    ensures Moves(Position.AtLayer(n), Sublist(PfiRoundTrip.KindOf(part), inner)) == Some(Position.AtLayer(n))
  {
    var kind := PfiRoundTrip.KindOf(part);
    var open := Open("sublayers", [Attr("type", kind)]);
    PfiRoundTrip.TextAt([Attr("type", kind)], 0, "type", "");
    OneMove(Position.AtLayer(n), open);
    OneMove(AtList(n), Close("sublayers"));
    MovesConcat(Position.AtLayer(n), [open], inner);
    MovesConcat(Position.AtLayer(n), [open] + inner, [Close("sublayers")]);
  }

  lemma {:induction false} SavedListMoves(list: seq<Layer>, pool: set<int>, n: nat)
    ensures Moves(AtList(n), ListEvents(list, pool)) == Some(AtList(n))
    decreases list
  {
    if list != [] {
      SavedLayerMoves(list[0], pool, n);
      MovesConcat(AtList(n), LayerEvents(list[0], pool), ListEvents(list[1..], pool));
      SavedListMoves(list[1..], pool, n);
    }
  }

  lemma {:induction false} SavedLayerMoves(l: Layer, pool: set<int>, n: nat)
    ensures Moves(AtList(n), LayerEvents(l, pool)) == Some(AtList(n))
    decreases l
  {
    if !l.hidden {
      var open := Open("layer", LayerAttrs(l, Normalize(l.name), pool));
      OneMove(AtList(n), open);
      OneMove(Position.AtLayer(n + 1), Close("layer"));
      OperationMoves(l.op, n + 1);
      OperationMoves(l.blender, n + 1);
      SavedListMoves(l.sublayers, pool, n + 1);
      SavedListMoves(l.imaps, pool, n + 1);
      SavedListMoves(l.omaps, pool, n + 1);
      SublistMoves(Child, ListEvents(l.sublayers, pool), n + 1);
      SublistMoves(IMap, ListEvents(l.imaps, pool), n + 1);
      SublistMoves(OMap, ListEvents(l.omaps, pool), n + 1);
      PiecesMove(AtList(n), Position.AtLayer(n + 1), [open], OperationEvents(l.op), OperationEvents(l.blender),
                 Sublist("child", ListEvents(l.sublayers, pool)), Sublist("imap", ListEvents(l.imaps, pool)),
                 Sublist("omap", ListEvents(l.omaps, pool)), [Close("layer")]);
    }
  }

  lemma {:induction false} PiecesMove(p: Position, q: Position, h: seq<Event>, a: seq<Event>, b: seq<Event>,
                                      c: seq<Event>, d: seq<Event>, e: seq<Event>, z: seq<Event>)
    requires Moves(p, h) == Some(q) && Moves(q, a) == Some(q) && Moves(q, b) == Some(q)
    requires Moves(q, c) == Some(q) && Moves(q, d) == Some(q) && Moves(q, e) == Some(q) && Moves(q, z).Some?
    ensures Moves(p, h + a + b + c + d + e + z) == Moves(q, z)
  {
    MovesConcat(p, h, a);
    MovesConcat(p, h + a, b);
    MovesConcat(p, h + a + b, c);
    MovesConcat(p, h + a + b + c, d);
    MovesConcat(p, h + a + b + c + d, e);
    MovesConcat(p, h + a + b + c + d + e, z);
  }

  /** After any number of the events of a saved tree. */
  lemma {:induction false} SavedFileInStep(r: Registry, doc: Doc, version: int, list: seq<Layer>, pool: set<int>,
                                           k: nat)
    requires k <= |ListEvents(list, pool)|
    ensures var events := ListEvents(list, pool)[..k];
            Moves(AtList(0), events).Some? && InStep(Load(r, Begin(doc, version), events),
                                                     Moves(AtList(0), events).value, false)
  {
    SavedListMoves(list, pool, 0);
    PrefixMoves(AtList(0), ListEvents(list, pool), k);
    StacksStayInStep(r, Begin(doc, version), ListEvents(list, pool)[..k], AtList(0), false);
  }

  // -------------------------------------------------------------------------
  // Map flags
  // -------------------------------------------------------------------------

  /** Some list on the way from the document to the current place is a map list. */
  ghost predicate BelowMaps(slots: seq<Slot>) {
    exists i :: 0 <= i < |slots| && slots[i].place.Inside? && slots[i].place.part != Child
  }

  lemma {:induction false} MapFlagMeansBelowMaps(layers: seq<int>, slots: seq<Slot>)
    requires SlotsFit(layers, slots, false)
    ensures slots[|slots| - 1].isMap <==> BelowMaps(slots)
    decreases |slots|
  {
    var n := |slots| - 1;
    if n > 0 {
      SlotsFitFewer(layers, |layers|, slots, n, false);
      assert layers[..|layers|] == layers;
      MapFlagMeansBelowMaps(layers, slots[..n]);
      assert slots[n].place.Inside?;
      if BelowMaps(slots[..n]) {
        var i :| 0 <= i < n && slots[..n][i].place.Inside? && slots[..n][i].place.part != Child;
        assert slots[i].place.Inside?;
      }
      if BelowMaps(slots) {
        var i :| 0 <= i < |slots| && slots[i].place.Inside? && slots[i].place.part != Child;
        assert i == n || slots[..n][i] == slots[i];
      }
    }
  }

  /** An operation read inside a layer is a map operation exactly if one of the lists around the
      layer holds maps. */
  lemma {:induction false} OperationFlagged(r: Registry, s: Loader, attrs: seq<Attr>, n: nat)
    requires InStep(s, Position.AtLayer(n), false)
    requires var kind := TextOf(attrs, "type", ""); kind != "blender" && r.defaults(kind).Some?
    ensures var t, id := OpenOperation(r, s, attrs), s.layers[n - 1];
            && id in t.doc.pool && t.doc.pool[id].op.Some?
            && t.doc.pool[id].op.value.mapFlag == BelowMaps(s.slots)
  {
    MapFlagMeansBelowMaps(s.layers, s.slots);
    assert s.layer == Some(s.layers[n - 1]);
  }

  /** In a loaded tree the flags of all operations and blenders say where they lie. */
  predicate FlagsFit(list: seq<Layer>, isMap: bool) {
    list != [] ==> LayerFlagsFit(list[0], isMap) && FlagsFit(list[1..], isMap)
  }

  predicate LayerFlagsFit(l: Layer, isMap: bool) {
    && l.op.mapFlag == isMap && l.blender.mapFlag == isMap
    && FlagsFit(l.sublayers, isMap) && FlagsFit(l.imaps, true) && FlagsFit(l.omaps, true)
  }

  lemma {:induction false} ReloadedFlagsFit(r: Registry, pool: set<int>, list: seq<Layer>, keys: set<int>,
                                            mapper: seq<Option<int>>, isMap: bool)
    ensures FlagsFit(PfiRoundTrip.ReloadList(r, pool, list, keys, mapper, isMap).list, isMap)
    decreases list, 0
  {
    if list != [] {
      var a := PfiRoundTrip.ReloadLayer(r, pool, list[0], keys, mapper, isMap);
      ReloadedLayerFlagsFit(r, pool, list[0], keys, mapper, isMap);
      ReloadedFlagsFit(r, pool, list[1..], a.keys, a.mapper, isMap);
      if a.list == [] {
        assert a.list + PfiRoundTrip.ReloadList(r, pool, list[1..], a.keys, a.mapper, isMap).list
            == PfiRoundTrip.ReloadList(r, pool, list[1..], a.keys, a.mapper, isMap).list;
      }
    }
  }

  lemma {:induction false} ReloadedLayerFlagsFit(r: Registry, pool: set<int>, l: Layer, keys: set<int>,
                                                 mapper: seq<Option<int>>, isMap: bool)
    ensures var list := PfiRoundTrip.ReloadLayer(r, pool, l, keys, mapper, isMap).list;
            |list| <= 1 && FlagsFit(list, isMap)
    decreases l, 1
  {
    if !l.hidden {
      var id := FreshId(keys);
      var sub := PfiRoundTrip.ReloadList(r, pool, l.sublayers, keys + {id}, PutMapper(mapper, l.id, id), isMap);
      var intensity := PfiRoundTrip.ReloadList(r, pool, l.imaps, sub.keys, sub.mapper, true);
      ReloadedFlagsFit(r, pool, l.sublayers, keys + {id}, PutMapper(mapper, l.id, id), isMap);
      ReloadedFlagsFit(r, pool, l.imaps, sub.keys, sub.mapper, true);
      ReloadedFlagsFit(r, pool, l.omaps, intensity.keys, intensity.mapper, true);
    }
  }
}
