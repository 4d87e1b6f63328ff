/** Incremental rebuild of a pipeline against evaluation from scratch. */
module Rebuild {
  import opened Basics
  import opened LayerTree
  import opened DirtyFlags

  /** What a pipeline remembers about one layer: the images its operation produced, the result
      of blending the first of them, and the colour space the operation settled on. */
  datatype Node<Img> = Node(images: seq<Img>, blended: Option<Img>, colorspace: int)

  datatype Built<Img> = Built(first: Img, more: seq<Img>, colorspace: int)

  /** The image library, at one zoom level: total functions of settings and images. */
  datatype Engine<!Img> = Engine(
    level: int,
    build: (int, Operation, Option<Img>, seq<Option<Img>>) -> Built<Img>,
    blend: (int, Operation, Option<Img>, Img) -> Img,
    accepts: (Operation, int) -> bool,
    hasOpacity: Operation -> bool)

  type Nodes<Img> = map<int, Node<Img>>

  /** Where a walk along a chain stands: the blended image below, the chain's result, the nodes. */
  datatype Walk<Img> = Walk(previous: Option<Img>, out: Option<Img>, nodes: Nodes<Img>)

  // -------------------------------------------------------------------------
  // Evaluation from scratch
  // -------------------------------------------------------------------------

  function ImageOf<Img>(input: Input, node: Node<Img>): Option<Img> {
    if input.blended then node.blended
    else if 0 <= input.image < |node.images| then Some(node.images[input.image])
    else None
  }

  /** The node of a settled, enabled layer. */
  function Settled<Img>(id: int, done: seq<Layer>, nodes: Nodes<Img>): Option<Node<Img>> {
    if done == [] then None
    else if done[|done| - 1].id == id then
      if done[|done| - 1].enabled && id in nodes then Some(nodes[id]) else None
    else Settled(id, done[..|done| - 1], nodes)
  }

  function ExplicitImages<Img>(inputs: seq<Input>, done: seq<Layer>, nodes: Nodes<Img>): seq<Option<Img>> {
    if inputs == [] then []
    else
      var n := Settled(inputs[0].layer, done, nodes);
      [if n.Some? then ImageOf(inputs[0], n.value) else None] + ExplicitImages(inputs[1..], done, nodes)
  }

  /** The blended image of the nearest settled, enabled layer whose colour space suits. */
  function DefaultImage<Img>(e: Engine<Img>, op: Operation, done: seq<Layer>, nodes: Nodes<Img>): Option<Img> {
    if done == [] then None
    else
      var x := done[|done| - 1];
      if x.enabled && x.id in nodes && e.accepts(op, nodes[x.id].colorspace) then nodes[x.id].blended
      else DefaultImage(e, op, done[..|done| - 1], nodes)
  }

  predicate WantsDefault(inputs: seq<Input>) {
    inputs == [] || inputs[0].layer < 0
  }

  function LeafInputs<Img>(e: Engine<Img>, l: Layer, done: seq<Layer>, nodes: Nodes<Img>): seq<Option<Img>> {
    if WantsDefault(l.inputs) then
      [DefaultImage(e, l.op, done, nodes)]
      + (if l.inputs == [] then [] else ExplicitImages(l.inputs[1..], done, nodes))
    else ExplicitImages(l.inputs, done, nodes)
  }

  function Blended<Img>(e: Engine<Img>, l: Layer, previous: Option<Img>, image: Img): Img {
    if e.hasOpacity(l.op) then e.blend(e.level, l.blender, previous, image) else image
  }

  function BuiltNode<Img>(e: Engine<Img>, l: Layer, previous: Option<Img>, inputs: seq<Option<Img>>): Node<Img> {
    var b := e.build(e.level, l.op, previous, inputs);
    Node([b.first] + b.more, Some(Blended(e, l, previous, b.first)), b.colorspace)
  }

  function EvalLayer<Img>(e: Engine<Img>, l: Layer, previous: Option<Img>, done: seq<Layer>,
                          nodes: Nodes<Img>): Nodes<Img> {
    if l.sublayers == [] then
      nodes[l.id := BuiltNode(e, l, previous, LeafInputs(e, l, done, nodes))]
    else
      var sub := EvalList(e, l.sublayers, Walk(previous, None, nodes), done);
      sub.nodes[l.id := BuiltNode(e, l, previous, [sub.out])]
  }

  /** Moves past a layer whose node is up to date. */
  function Advance<Img>(l: Layer, nodes: Nodes<Img>): Walk<Img> {
    var b := if l.id in nodes then nodes[l.id].blended else None;
    Walk(b, b, nodes)
  }

  function EvalList<Img>(e: Engine<Img>, list: seq<Layer>, w: Walk<Img>, done: seq<Layer>): Walk<Img> {
    if list == [] then w
    else EvalList(e, list[1..], EvalStep(e, list[0], w, done), done + Expand(list[0]))
  }

  function EvalStep<Img>(e: Engine<Img>, l: Layer, w: Walk<Img>, done: seq<Layer>): Walk<Img> {
    if l.enabled then Advance(l, EvalLayer(e, l, w.previous, done, w.nodes)) else w
  }

  // -------------------------------------------------------------------------
  // The incremental walk
  // -------------------------------------------------------------------------

  /** Everything one rebuild pass may consult: the tree, the visible layers, the layers whose
      operation or blender is marked modified, and whether all nodes must be rebuilt. */
  datatype Pass = Pass(root: seq<Layer>, visible: set<int>, op: set<int>, blend: set<int>, force: bool)

  /** A layer is visible if it and all layers that contain it are enabled. */
  function VisibleIds(list: seq<Layer>, parent: bool): set<int> {
    if list == [] then {}
    else VisibleIn(list[0], parent) + VisibleIds(list[1..], parent)
  }

  function VisibleIn(l: Layer, parent: bool): set<int> {
    var visible := parent && l.enabled;
    (if visible then {l.id} else {})
    + VisibleIds(l.imaps, visible) + VisibleIds(l.omaps, visible) + VisibleIds(l.sublayers, visible)
  }

  /** The layers that precede a layer, in the order they are found, outside map lists. */
  datatype Search = Search(found: bool, parents: seq<Layer>)

  function Parents(list: seq<Layer>, id: int): Search {
    if list == [] then Search(false, [])
    else if list[0].id == id then Search(true, [])
    else
      var inner := Parents(list[0].sublayers, id);
      if inner.found then inner
      else
        var rest := Parents(list[1..], id);
        Search(rest.found, inner.parents + [list[0]] + rest.parents)
  }

  function DefaultSource<Img>(e: Engine<Img>, op: Operation, parents: seq<Layer>, visible: set<int>,
                              nodes: Nodes<Img>): Option<int> {
    if parents == [] then None
    else
      var x := parents[|parents| - 1].id;
      if x in visible && x in nodes && e.accepts(op, nodes[x].colorspace) then Some(x)
      else DefaultSource(e, op, parents[..|parents| - 1], visible, nodes)
  }

  function FetchDefault<Img>(e: Engine<Img>, p: Pass, l: Layer, nodes: Nodes<Img>): Option<Img> {
    var source := DefaultSource(e, l.op, Parents(p.root, l.id).parents, p.visible, nodes);
    if source.Some? && source.value in nodes then nodes[source.value].blended else None
  }

  function FetchExplicit<Img>(p: Pass, inputs: seq<Input>, nodes: Nodes<Img>): seq<Option<Img>> {
    if inputs == [] then []
    else
      var u := inputs[0].layer;
      [if u in p.visible && u in nodes then ImageOf(inputs[0], nodes[u]) else None]
      + FetchExplicit(p, inputs[1..], nodes)
  }

  function FetchInputs<Img>(e: Engine<Img>, p: Pass, l: Layer, nodes: Nodes<Img>): seq<Option<Img>> {
    if WantsDefault(l.inputs) then
      [FetchDefault(e, p, l, nodes)] + (if l.inputs == [] then [] else FetchExplicit(p, l.inputs[1..], nodes))
    else FetchExplicit(p, l.inputs, nodes)
  }

  /** The pipeline holds an image for the layer. */
  predicate Held<Img>(nodes: Nodes<Img>, id: int) {
    id in nodes && nodes[id].images != []
  }

  predicate Reusable<Img>(p: Pass, l: Layer, nodes: Nodes<Img>) {
    !p.force && l.id !in p.op && Held(nodes, l.id)
  }

  function ReuseLayer<Img>(e: Engine<Img>, p: Pass, l: Layer, previous: Option<Img>, nodes: Nodes<Img>): Nodes<Img>
    requires Reusable(p, l, nodes)
  {
    if l.id in p.blend then
      nodes[l.id := nodes[l.id].(blended := Some(Blended(e, l, previous, nodes[l.id].images[0])))]
    else nodes
  }

  function RebuildLayer<Img>(e: Engine<Img>, p: Pass, l: Layer, previous: Option<Img>, nodes: Nodes<Img>): Nodes<Img> {
    if l.sublayers == [] then
      nodes[l.id := BuiltNode(e, l, previous, FetchInputs(e, p, l, nodes))]
    else
      var sub := RebuildList(e, p, l.sublayers, Walk(previous, None, nodes));
      sub.nodes[l.id := BuiltNode(e, l, previous, [sub.out])]
  }

  function RebuildStep<Img>(e: Engine<Img>, p: Pass, l: Layer, w: Walk<Img>): Walk<Img> {
    if !l.enabled then w
    else if Reusable(p, l, w.nodes) then Advance(l, ReuseLayer(e, p, l, w.previous, w.nodes))
    else Advance(l, RebuildLayer(e, p, l, w.previous, w.nodes))
  }

  function RebuildList<Img>(e: Engine<Img>, p: Pass, list: seq<Layer>, w: Walk<Img>): Walk<Img> {
    if list == [] then w
    else RebuildList(e, p, list[1..], RebuildStep(e, p, list[0], w))
  }

  // -------------------------------------------------------------------------
  // Trees for which the pipeline is kept up to date
  // -------------------------------------------------------------------------

  /** No masks anywhere. */
  predicate NoMaps(list: seq<Layer>) {
    list != [] ==> NoMapsIn(list[0]) && NoMaps(list[1..])
  }

  predicate NoMapsIn(l: Layer) {
    l.imaps == [] && l.omaps == [] && !l.op.mapFlag && NoMaps(l.sublayers)
  }

  /** Every explicit input names a layer settled before its reader, or no layer at all. */
  predicate InputsSettled(list: seq<Layer>, done: set<int>, all: set<int>) {
    list != [] ==>
      && OwnInputsSettled(list[0].inputs, done, all)
      && InputsSettled(list[0].sublayers, done, all)
      && InputsSettled(list[1..], done + IdsOf(list[0]), all)
  }

  predicate OwnInputsSettled(inputs: seq<Input>, done: set<int>, all: set<int>) {
    forall i :: 0 <= i < |inputs| ==> inputs[i].layer in done || inputs[i].layer !in all
  }

  // -------------------------------------------------------------------------
  // Both ways of finding inputs agree
  // -------------------------------------------------------------------------

  /** On the visible ones of these layers both hold the same node. */
  ghost predicate Agree<Img>(done: seq<Layer>, visible: set<int>, a: Nodes<Img>, b: Nodes<Img>) {
    forall i :: 0 <= i < |done| && done[i].id in visible ==>
      done[i].id in a && done[i].id in b && a[done[i].id] == b[done[i].id]
  }

  /** What is visible is enabled. */
  ghost predicate Sees(done: seq<Layer>, visible: set<int>) {
    forall i :: 0 <= i < |done| && done[i].id in visible ==> done[i].enabled
  }

  function SeqIds(done: seq<Layer>): set<int> {
    set i | 0 <= i < |done| :: done[i].id
  }

  lemma {:induction false} SettledIsVisible<Img>(u: int, done: seq<Layer>, visible: set<int>, a: Nodes<Img>,
                                                 b: Nodes<Img>)
    requires Agree(done, visible, a, b) && Sees(done, visible) && b.Keys <= visible
    requires u in SeqIds(done) || u !in visible
    ensures Settled(u, done, b) == if u in visible && u in a then Some(a[u]) else None
  {
    if done != [] {
      var k := |done| - 1;
      if done[k].id != u {
        assert u in SeqIds(done) ==> u in SeqIds(done[..k]);
        SettledIsVisible(u, done[..k], visible, a, b);
      }
    }
  }

  lemma {:induction false} ExplicitAgree<Img>(p: Pass, inputs: seq<Input>, done: seq<Layer>, a: Nodes<Img>,
                                              b: Nodes<Img>)
    requires Agree(done, p.visible, a, b) && Sees(done, p.visible) && b.Keys <= p.visible <= Ids(p.root)
    requires OwnInputsSettled(inputs, SeqIds(done), Ids(p.root))
    ensures FetchExplicit(p, inputs, a) == ExplicitImages(inputs, done, b)
  {
    if inputs != [] {
      SettledIsVisible(inputs[0].layer, done, p.visible, a, b);
      ExplicitAgree(p, inputs[1..], done, a, b);
    }
  }

  lemma {:induction false} DefaultAgree<Img>(e: Engine<Img>, op: Operation, done: seq<Layer>, visible: set<int>,
                                             a: Nodes<Img>, b: Nodes<Img>)
    requires Agree(done, visible, a, b) && Sees(done, visible) && b.Keys <= visible
    ensures var s := DefaultSource(e, op, done, visible, a);
            DefaultImage(e, op, done, b) == if s.Some? && s.value in a then a[s.value].blended else None
  {
    if done != [] {
      DefaultAgree(e, op, done[..|done| - 1], visible, a, b);
    }
  }

  lemma InputsAgree<Img>(e: Engine<Img>, p: Pass, l: Layer, done: seq<Layer>, a: Nodes<Img>, b: Nodes<Img>)
    requires Agree(done, p.visible, a, b) && Sees(done, p.visible) && b.Keys <= p.visible <= Ids(p.root)
    requires OwnInputsSettled(l.inputs, SeqIds(done), Ids(p.root))
    requires Parents(p.root, l.id).parents == done
    ensures FetchInputs(e, p, l, a) == LeafInputs(e, l, done, b)
  {
    DefaultAgree(e, l.op, done, p.visible, a, b);
    ExplicitAgree(p, l.inputs, done, a, b);
    if l.inputs != [] {
      ExplicitAgree(p, l.inputs[1..], done, a, b);
    }
  }

  // -------------------------------------------------------------------------
  // The layers found before a layer are those settled before it
  // -------------------------------------------------------------------------

  lemma {:induction false} ParentsFind(list: seq<Layer>, id: int)
    requires NoMaps(list)
    ensures Parents(list, id).found <==> id in Ids(list)
    ensures id !in Ids(list) ==> Parents(list, id).parents == Flatten(list)
    decreases list
  {
    if list != [] {
      ParentsFind(list[0].sublayers, id);
      ParentsFind(list[1..], id);
      assert Ids([]) == {};
      assert Flatten([]) == [];
      assert Expand(list[0]) == Flatten(list[0].sublayers) + [list[0]];
    }
  }

  /** The part `list` of the tree is reached after exactly the layers `done`. */
  ghost predicate Located(root: seq<Layer>, list: seq<Layer>, done: seq<Layer>) {
    forall id :: id in Ids(list) ==> Parents(root, id).parents == done + Parents(list, id).parents
  }

  lemma {:induction false} LocatedInside(root: seq<Layer>, list: seq<Layer>, done: seq<Layer>)
    requires list != [] && NoMaps(list) && Distinct(list) && Located(root, list, done)
    ensures Located(root, list[0].sublayers, done)
    ensures Parents(root, list[0].id).parents == done
  {
    var l := list[0];
    forall id | id in Ids(l.sublayers) ensures Parents(root, id).parents == done + Parents(l.sublayers, id).parents {
      ParentsFind(l.sublayers, id);
      assert id in Ids(list);
    }
    assert l.id in Ids(list);
    assert done + [] == done;
  }

  lemma {:induction false} LocatedAfter(root: seq<Layer>, list: seq<Layer>, done: seq<Layer>)
    requires list != [] && NoMaps(list) && Distinct(list) && Located(root, list, done)
    ensures Located(root, list[1..], done + Expand(list[0]))
  {
    var l, rest := list[0], list[1..];
    forall id | id in Ids(rest)
      ensures Parents(root, id).parents == done + Expand(l) + Parents(rest, id).parents
    {
      assert id !in IdsOf(l);
      ParentsFind(l.sublayers, id);
      assert Flatten([]) == [];
      assert Expand(l) == Flatten(l.sublayers) + [l];
      assert Parents(list, id).parents == Flatten(l.sublayers) + [l] + Parents(rest, id).parents;
      assert done + (Flatten(l.sublayers) + [l] + Parents(rest, id).parents)
          == done + Expand(l) + Parents(rest, id).parents;
    }
  }

  // -------------------------------------------------------------------------
  // What the pipeline may be trusted with between rebuilds
  // -------------------------------------------------------------------------

  predicate Flagged(f: Flags, id: int) {
    id in f.dirty || id in f.op || id in f.blend
  }

  predicate Clean(f: Flags, ids: set<int>) {
    forall x :: x in ids ==> !Flagged(f, x)
  }

  /** The cached node of a layer, compared with the node n that evaluation gives: right in all
      parts that the layer's own flags do not announce as stale. */
  ghost predicate Cached<Img>(f: Flags, id: int, nodes: Nodes<Img>, n: Node<Img>) {
    id !in f.op && Held(nodes, id) ==>
      && nodes[id].images == n.images && nodes[id].colorspace == n.colorspace
      && (id !in f.blend ==> nodes[id].blended == n.blended)
  }

  /** Images are held for all layers of the list that are enabled with the layers around them. */
  ghost predicate Present<Img>(list: seq<Layer>, nodes: Nodes<Img>) {
    list != [] ==>
      && (list[0].enabled ==> Held(nodes, list[0].id) && Present(list[0].sublayers, nodes))
      && Present(list[1..], nodes)
  }

  /** Up to the first flagged layer, the images that are held are those of evaluation from
      scratch, and a group with an image has the images of its layers as well. */
  ghost predicate Trust<Img>(e: Engine<Img>, list: seq<Layer>, w: Walk<Img>, done: seq<Layer>, f: Flags,
                             nodes: Nodes<Img>)
    decreases list
  {
    list != [] ==>
      && TrustLayer(e, list[0], w, done, f, nodes)
      && (Clean(f, IdsOf(list[0])) ==>
            Trust(e, list[1..], EvalStep(e, list[0], w, done), done + Expand(list[0]), f, nodes))
  }

  ghost predicate TrustLayer<Img>(e: Engine<Img>, l: Layer, w: Walk<Img>, done: seq<Layer>, f: Flags, nodes: Nodes<Img>)
    decreases l
  {
    && Trust(e, l.sublayers, Walk(w.previous, None, w.nodes), done, f, nodes)
    && (Clean(f, Ids(l.sublayers)) && l.enabled ==> TrustOwn(e, l, w, done, f, nodes))
  }

  ghost predicate TrustOwn<Img>(e: Engine<Img>, l: Layer, w: Walk<Img>, done: seq<Layer>, f: Flags, nodes: Nodes<Img>) {
    && Cached(f, l.id, nodes, EvalLayer(e, l, w.previous, done, w.nodes)[l.id])
    && (l.id !in f.op && Held(nodes, l.id) ==> Present(l.sublayers, nodes))
  }

  // -------------------------------------------------------------------------
  // Frames of both walks
  // -------------------------------------------------------------------------

  ghost predicate SameOutside<Img>(a: Nodes<Img>, b: Nodes<Img>, ids: set<int>) {
    forall id :: id !in ids ==> (id in a <==> id in b) && (id in a ==> a[id] == b[id])
  }

  lemma {:induction false} EvalFrame<Img>(e: Engine<Img>, list: seq<Layer>, w: Walk<Img>, done: seq<Layer>)
    ensures SameOutside(w.nodes, EvalList(e, list, w, done).nodes, Ids(list))
    decreases list
  {
    if list != [] {
      EvalStepFrame(e, list[0], w, done);
      EvalFrame(e, list[1..], EvalStep(e, list[0], w, done), done + Expand(list[0]));
    }
  }

  lemma {:induction false} EvalStepFrame<Img>(e: Engine<Img>, l: Layer, w: Walk<Img>, done: seq<Layer>)
    ensures SameOutside(w.nodes, EvalStep(e, l, w, done).nodes, IdsOf(l))
    decreases l
  {
    EvalFrame(e, l.sublayers, Walk(w.previous, None, w.nodes), done);
  }

  lemma {:induction false} RebuildFrame<Img>(e: Engine<Img>, p: Pass, list: seq<Layer>, w: Walk<Img>)
    ensures SameOutside(w.nodes, RebuildList(e, p, list, w).nodes, Ids(list))
    decreases list
  {
    if list != [] {
      RebuildStepFrame(e, p, list[0], w);
      RebuildFrame(e, p, list[1..], RebuildStep(e, p, list[0], w));
    }
  }

  lemma {:induction false} RebuildStepFrame<Img>(e: Engine<Img>, p: Pass, l: Layer, w: Walk<Img>)
    ensures SameOutside(w.nodes, RebuildStep(e, p, l, w).nodes, IdsOf(l))
    decreases l
  {
    RebuildFrame(e, p, l.sublayers, Walk(w.previous, None, w.nodes));
  }

  // -------------------------------------------------------------------------
  // What the dirty walk guarantees to the rebuild
  // -------------------------------------------------------------------------

  /** An unset outgoing flag means that nothing at all was flagged. */
  lemma {:induction false} CleanOutgoing(list: seq<Layer>, incoming: bool, f: Flags)
    requires Distinct(list) && !VisitList(list, incoming, f).dirty
    ensures !incoming && Clean(f, Ids(list))
    decreases list
  {
    if list != [] {
      var v := VisitLayer(list[0], incoming, f);
      VisitLayerGrows(list[0], incoming, f);
      CleanOutgoing(list[1..], v.dirty, v.flags);
      CleanOutgoingLayer(list[0], incoming, f);
    }
  }

  lemma {:induction false} CleanOutgoingLayer(l: Layer, incoming: bool, f: Flags)
    requires DistinctLayer(l) && !VisitLayer(l, incoming, f).dirty
    ensures !incoming && Clean(f, IdsOf(l))
    decreases l
  {
    var f1 := VisitList(l.imaps, false, f);
    var f2 := VisitList(l.omaps, false, f1.flags);
    VisitListGrows(l.imaps, false, f);
    VisitListGrows(l.omaps, false, f1.flags);
    VisitListGrows(l.sublayers, incoming, f2.flags);
    CleanOutgoing(l.imaps, false, f);
    CleanOutgoing(l.omaps, false, f1.flags);
    CleanOutgoing(l.sublayers, incoming, f2.flags);
  }

  /** A clean part that reads nothing dirty is left alone by the walk. */
  lemma {:induction false} CleanPartStays(list: seq<Layer>, before: set<int>, all: set<int>, f: Flags)
    requires NoMaps(list) && InputsSettled(list, before, all) && Clean(f, Ids(list))
    requires before !! f.dirty && f.dirty <= all
    ensures VisitList(list, false, f) == Visit(false, f)
    decreases list
  {
    if list != [] {
      CleanPartStaysIn(list[0], before, all, f);
      NotDirty(f, IdsOf(list[0]));
      CleanPartStays(list[1..], before + IdsOf(list[0]), all, f);
    }
  }

  lemma NotDirty(f: Flags, ids: set<int>)
    requires Clean(f, ids)
    ensures ids !! f.dirty
  {
    forall x | x in ids ensures x !in f.dirty {
      assert !Flagged(f, x);
    }
  }

  lemma {:induction false} CleanPartStaysIn(l: Layer, before: set<int>, all: set<int>, f: Flags)
    requires NoMapsIn(l) && OwnInputsSettled(l.inputs, before, all) && InputsSettled(l.sublayers, before, all)
    requires Clean(f, IdsOf(l)) && before !! f.dirty && f.dirty <= all
    ensures VisitLayer(l, false, f) == Visit(false, f)
    decreases l
  {
    CleanPartStays(l.sublayers, before, all, f);
    assert l.id in IdsOf(l);
    assert !AnyInputDirty(l.inputs, f.dirty);
  }

  // -------------------------------------------------------------------------
  // The incremental walk computes what evaluation from scratch computes
  // -------------------------------------------------------------------------

  /** A list whose containers are all enabled, reached after the layers `done`. */
  ghost predicate Placed(p: Pass, list: seq<Layer>, done: seq<Layer>) {
    && Distinct(list) && NoMaps(list)
    && Located(p.root, list, done)
    && InputsSettled(list, SeqIds(done), Ids(p.root))
    && p.visible <= Ids(p.root)
    && Sees(done, p.visible) && Shows(p.visible, list)
  }

  /** Among the ids of the list exactly the visible ones are in the set. */
  ghost predicate Shows(visible: set<int>, list: seq<Layer>) {
    forall x :: x in Ids(list) ==> (x in visible <==> x in VisibleIds(list, true))
  }

  ghost predicate SameNodes<Img>(a: Nodes<Img>, b: Nodes<Img>, ids: set<int>) {
    forall id :: id in ids ==> (id in a <==> id in b) && (id in a ==> a[id] == b[id])
  }

  ghost predicate SameFlags(f: Flags, g: Flags, ids: set<int>) {
    forall x :: x in ids ==>
      && (x in f.dirty <==> x in g.dirty)
      && (x in f.op <==> x in g.op)
      && (x in f.blend <==> x in g.blend)
  }

  /** The pass carries the marks that the dirty walk left on these ids. */
  ghost predicate Told(p: Pass, g: Flags, ids: set<int>) {
    forall x :: x in ids ==> (x in p.op <==> x in g.op) && (x in p.blend <==> x in g.blend)
  }

  lemma AgreeConcat<Img>(x: seq<Layer>, y: seq<Layer>, v: set<int>, a: Nodes<Img>, b: Nodes<Img>)
    ensures Agree(x + y, v, a, b) <==> Agree(x, v, a, b) && Agree(y, v, a, b)
  {
    if Agree(x + y, v, a, b) {
      assert forall i :: 0 <= i < |x| ==> (x + y)[i] == x[i];
      assert forall i :: 0 <= i < |y| ==> (x + y)[|x| + i] == y[i];
    }
  }

  lemma SeesConcat(x: seq<Layer>, y: seq<Layer>, visible: set<int>)
    ensures Sees(x + y, visible) <==> Sees(x, visible) && Sees(y, visible)
  {
    if Sees(x + y, visible) {
      assert forall i :: 0 <= i < |x| ==> (x + y)[i] == x[i];
      assert forall i :: 0 <= i < |y| ==> (x + y)[|x| + i] == y[i];
    }
  }

  lemma SeqIdsConcat(x: seq<Layer>, y: seq<Layer>)
    ensures SeqIds(x + y) == SeqIds(x) + SeqIds(y)
  {
    assert forall i :: 0 <= i < |y| ==> (x + y)[|x| + i] == y[i];
    forall id | id in SeqIds(x) + SeqIds(y) ensures id in SeqIds(x + y) {
      if id in SeqIds(x) {
        var i :| 0 <= i < |x| && x[i].id == id;
        assert (x + y)[i].id == id;
      } else {
        var i :| 0 <= i < |y| && y[i].id == id;
        assert (x + y)[|x| + i].id == id;
      }
    }
  }

  lemma {:induction false} FlattenIds(list: seq<Layer>)
    ensures SeqIds(Flatten(list)) == Ids(list)
    decreases list
  {
    if list != [] {
      ExpandIds(list[0]);
      FlattenIds(list[1..]);
      SeqIdsConcat(Expand(list[0]), Flatten(list[1..]));
    }
  }

  lemma {:induction false} ExpandIds(l: Layer)
    ensures SeqIds(Expand(l)) == IdsOf(l)
    decreases l
  {
    FlattenIds(l.sublayers);
    FlattenIds(l.imaps);
    FlattenIds(l.omaps);
    SeqIdsConcat(Flatten(l.sublayers), Flatten(l.imaps));
    SeqIdsConcat(Flatten(l.sublayers) + Flatten(l.imaps), Flatten(l.omaps));
    SeqIdsConcat(Flatten(l.sublayers) + Flatten(l.imaps) + Flatten(l.omaps), [l]);
    assert SeqIds([l]) == {[l][0].id};
  }

  // -------------------------------------------------------------------------
  // Visible layers
  // -------------------------------------------------------------------------

  lemma {:induction false} VisibleStayInside(list: seq<Layer>, parent: bool)
    ensures VisibleIds(list, parent) <= Ids(list)
    ensures !parent ==> VisibleIds(list, parent) == {}
    decreases list
  {
    if list != [] {
      VisibleInStays(list[0], parent);
      VisibleStayInside(list[1..], parent);
    }
  }

  lemma {:induction false} VisibleInStays(l: Layer, parent: bool)
    ensures VisibleIn(l, parent) <= IdsOf(l)
    ensures !(parent && l.enabled) ==> VisibleIn(l, parent) == {}
    decreases l
  {
    VisibleStayInside(l.imaps, parent && l.enabled);
    VisibleStayInside(l.omaps, parent && l.enabled);
    VisibleStayInside(l.sublayers, parent && l.enabled);
  }

  lemma {:induction false} VisibleNoMaps(l: Layer)
    requires NoMapsIn(l) && DistinctLayer(l)
    ensures l.enabled ==> VisibleIn(l, true) == {l.id} + VisibleIds(l.sublayers, true)
    ensures !l.enabled ==> VisibleIn(l, true) == {}
    ensures l.id in VisibleIn(l, true) <==> l.enabled
  {
    VisibleInStays(l, true);
    assert VisibleIds([], l.enabled) == {};
  }

  lemma {:induction false} ShowsInside(visible: set<int>, list: seq<Layer>)
    requires list != [] && Distinct(list) && NoMaps(list) && Shows(visible, list)
    ensures list[0].id in visible <==> list[0].enabled
    ensures list[0].enabled ==> Shows(visible, list[0].sublayers)
    ensures !list[0].enabled ==> IdsOf(list[0]) !! visible
    ensures Shows(visible, list[1..])
  {
    var l, rest := list[0], list[1..];
    VisibleInStays(l, true);
    VisibleStayInside(rest, true);
    VisibleNoMaps(l);
    ExpandNoMaps(l);
    forall x | x in IdsOf(l) ensures x in visible <==> x in VisibleIn(l, true) {
      assert x in Ids(list);
    }
    assert forall x :: x in Ids(l.sublayers) ==> x in IdsOf(l) && x != l.id;
    assert l.id in IdsOf(l);
  }

  lemma {:induction false} ShownAreEnabled(visible: set<int>, list: seq<Layer>)
    requires Distinct(list) && NoMaps(list) && Shows(visible, list)
    ensures Sees(Flatten(list), visible)
    decreases list
  {
    if list != [] {
      var l := list[0];
      ShowsInside(visible, list);
      ShownAreEnabled(visible, list[1..]);
      ShownInside(visible, l);
      SeesConcat(Expand(l), Flatten(list[1..]), visible);
    }
  }

  lemma {:induction false} ShownInside(visible: set<int>, l: Layer)
    requires DistinctLayer(l) && NoMapsIn(l)
    requires l.id in visible <==> l.enabled
    requires l.enabled ==> Shows(visible, l.sublayers)
    requires !l.enabled ==> IdsOf(l) !! visible
    ensures Sees(Expand(l), visible)
    decreases l
  {
    ExpandIds(l);
    if l.enabled {
      ExpandNoMaps(l);
      ShownAreEnabled(visible, l.sublayers);
      SeesConcat(Flatten(l.sublayers), [l], visible);
    } else {
      NoneVisible(Expand(l), visible);
    }
  }

  lemma NoneVisible(x: seq<Layer>, visible: set<int>)
    requires SeqIds(x) !! visible
    ensures forall i :: 0 <= i < |x| ==> x[i].id !in visible
  {
    forall i | 0 <= i < |x| ensures x[i].id in SeqIds(x) { }
  }

  lemma PlacedInside(p: Pass, list: seq<Layer>, done: seq<Layer>)
    requires list != [] && Placed(p, list, done) && list[0].enabled
    ensures Placed(p, list[0].sublayers, done)
    ensures OwnInputsSettled(list[0].inputs, SeqIds(done), Ids(p.root))
    ensures Parents(p.root, list[0].id).parents == done
    ensures list[0].id in p.visible
  {
    assert DistinctLayer(list[0]) && NoMapsIn(list[0]);
    LocatedInside(p.root, list, done);
    ShowsInside(p.visible, list);
  }

  lemma {:induction false} ExpandNoMaps(l: Layer)
    requires NoMapsIn(l)
    ensures Expand(l) == Flatten(l.sublayers) + [l]
    ensures IdsOf(l) == Ids(l.sublayers) + {l.id}
  {
    assert Flatten([]) == [] && Ids([]) == {};
  }

  lemma PlacedAfter(p: Pass, list: seq<Layer>, done: seq<Layer>)
    requires list != [] && Placed(p, list, done)
    ensures Placed(p, list[1..], done + Expand(list[0]))
  {
    LocatedAfter(p.root, list, done);
    ShowsInside(p.visible, list);
    ShownInside(p.visible, list[0]);
    SeesConcat(done, Expand(list[0]), p.visible);
    ExpandIds(list[0]);
    SeqIdsConcat(done, Expand(list[0]));
  }

  /** On a clean part that is held, the nodes are already those of evaluation from scratch. */
  lemma {:induction false} TrustedNodes<Img>(e: Engine<Img>, v: set<int>, list: seq<Layer>, w: Walk<Img>,
                                             done: seq<Layer>,
                                             f: Flags, nodes: Nodes<Img>)
    requires Distinct(list) && NoMaps(list) && Shows(v, list)
    requires Trust(e, list, w, done, f, nodes) && Clean(f, Ids(list)) && Present(list, nodes)
    ensures Agree(Flatten(list), v, nodes, EvalList(e, list, w, done).nodes)
    decreases list
  {
    if list != [] {
      var l, rest := list[0], list[1..];
      var next := EvalStep(e, l, w, done);
      ShowsInside(v, list);
      TrustedLayer(e, v, l, w, done, f, nodes);
      TrustedNodes(e, v, rest, next, done + Expand(l), f, nodes);
      EvalFrame(e, rest, next, done + Expand(l));
      ExpandIds(l);
      AgreeLater(Expand(l), v, nodes, next.nodes, EvalList(e, list, w, done).nodes, Ids(rest));
      AgreeConcat(Expand(l), Flatten(rest), v, nodes, EvalList(e, list, w, done).nodes);
    }
  }

  lemma AgreeLater<Img>(x: seq<Layer>, v: set<int>, a: Nodes<Img>, b: Nodes<Img>, c: Nodes<Img>, ids: set<int>)
    requires Agree(x, v, a, b) && SameOutside(b, c, ids) && SeqIds(x) !! ids
    ensures Agree(x, v, a, c)
  {
    forall i | 0 <= i < |x| && x[i].id in v
      ensures x[i].id in a && x[i].id in c && a[x[i].id] == c[x[i].id]
    {
      assert x[i].id in SeqIds(x);
    }
  }

  lemma {:induction false} TrustedLayer<Img>(e: Engine<Img>, v: set<int>, l: Layer, w: Walk<Img>, done: seq<Layer>,
                                             f: Flags, nodes: Nodes<Img>)
    requires DistinctLayer(l) && NoMapsIn(l)
    requires (l.enabled ==> Shows(v, l.sublayers)) && (!l.enabled ==> IdsOf(l) !! v)
    requires TrustLayer(e, l, w, done, f, nodes) && Clean(f, IdsOf(l))
    requires l.enabled ==> Held(nodes, l.id) && Present(l.sublayers, nodes)
    ensures Agree(Expand(l), v, nodes, EvalStep(e, l, w, done).nodes)
    decreases l
  {
    ExpandIds(l);
    if l.enabled {
      ExpandNoMaps(l);
      var inner := Walk(w.previous, None, w.nodes);
      TrustedNodes(e, v, l.sublayers, inner, done, f, nodes);
      FlattenIds(l.sublayers);
      AgreeLater(Flatten(l.sublayers), v, nodes, EvalList(e, l.sublayers, inner, done).nodes,
                 EvalStep(e, l, w, done).nodes, {l.id});
      assert Agree([l], v, nodes, EvalStep(e, l, w, done).nodes);
      AgreeConcat(Flatten(l.sublayers), [l], v, nodes, EvalStep(e, l, w, done).nodes);
    } else {
      NoneVisible(Expand(l), v);
    }
  }

  /** Why a part of the tree may be rebuilt incrementally. */
  ghost predicate Covered<Img>(e: Engine<Img>, p: Pass, list: seq<Layer>, w: Walk<Img>, done: seq<Layer>,
                               incoming: bool, f: Flags, nodes: Nodes<Img>) {
    !p.force ==>
      && Told(p, VisitList(list, incoming, f).flags, Ids(list))
      && (!incoming ==> Trust(e, list, w, done, f, nodes))
  }

  ghost predicate CoveredLayer<Img>(e: Engine<Img>, p: Pass, l: Layer, w: Walk<Img>, done: seq<Layer>,
                                    incoming: bool, f: Flags, nodes: Nodes<Img>) {
    !p.force ==>
      && Told(p, VisitLayer(l, incoming, f).flags, IdsOf(l))
      && (!incoming ==> TrustLayer(e, l, w, done, f, nodes))
  }

  /** Both walks stand at the same point; the evaluation has nodes of visible layers only. */
  ghost predicate Matches<Img>(v: set<int>, a: Walk<Img>, b: Walk<Img>, done: seq<Layer>) {
    a.previous == b.previous && a.out == b.out && Agree(done, v, a.nodes, b.nodes) && b.nodes.Keys <= v
  }

  lemma {:induction false} TrustFrame<Img>(e: Engine<Img>, list: seq<Layer>, w: Walk<Img>, done: seq<Layer>, f: Flags,
                                           g: Flags, nodes: Nodes<Img>)
    requires SameFlags(f, g, Ids(list)) && Trust(e, list, w, done, f, nodes)
    ensures Trust(e, list, w, done, g, nodes)
    decreases list
  {
    if list != [] {
      assert SameFlags(f, g, IdsOf(list[0])) && SameFlags(f, g, Ids(list[1..]));
      TrustLayerFrame(e, list[0], w, done, f, g, nodes);
      if Clean(g, IdsOf(list[0])) {
        assert Clean(f, IdsOf(list[0]));
        TrustFrame(e, list[1..], EvalStep(e, list[0], w, done), done + Expand(list[0]), f, g, nodes);
      }
    }
  }

  lemma {:induction false} TrustLayerFrame<Img>(e: Engine<Img>, l: Layer, w: Walk<Img>, done: seq<Layer>, f: Flags,
                                                g: Flags, nodes: Nodes<Img>)
    requires SameFlags(f, g, IdsOf(l)) && TrustLayer(e, l, w, done, f, nodes)
    ensures TrustLayer(e, l, w, done, g, nodes)
    decreases l
  {
    assert SameFlags(f, g, Ids(l.sublayers)) && l.id in IdsOf(l);
    TrustFrame(e, l.sublayers, Walk(w.previous, None, w.nodes), done, f, g, nodes);
    assert Clean(g, Ids(l.sublayers)) ==> Clean(f, Ids(l.sublayers));
  }

  /** The dirty walk of a layer without masks. */
  lemma {:induction false} VisitPlain(l: Layer, incoming: bool, f: Flags)
    requires NoMapsIn(l) && DistinctLayer(l)
    ensures var sub := VisitList(l.sublayers, incoming, f);
            var input := incoming || AnyInputDirty(l.inputs, f.dirty) || sub.dirty;
            var g := VisitLayer(l, incoming, f).flags;
            && (l.id in g.op <==> l.id in f.op || input)
            && (l.id in g.blend <==> l.id in f.blend || l.id in f.op || input)
            && SameFlags(g, sub.flags, Ids(l.sublayers))
  {
    VisitListGrows(l.sublayers, incoming, f);
  }

  lemma {:induction false} CoveredInside<Img>(e: Engine<Img>, p: Pass, l: Layer, w: Walk<Img>, done: seq<Layer>,
                                              incoming: bool, f: Flags, nodes: Nodes<Img>)
    requires NoMapsIn(l) && DistinctLayer(l)
    requires CoveredLayer(e, p, l, w, done, incoming, f, nodes)
    ensures Covered(e, p, l.sublayers, Walk(w.previous, None, w.nodes), done, incoming, f, nodes)
  {
    if !p.force {
      VisitPlain(l, incoming, f);
      var ids, g, h := Ids(l.sublayers), VisitLayer(l, incoming, f).flags, VisitList(l.sublayers, incoming, f).flags;
      ExpandNoMaps(l);
      assert Told(p, h, ids);
    }
  }

  lemma {:induction false} CoveredAfter<Img>(e: Engine<Img>, p: Pass, list: seq<Layer>, w: Walk<Img>, done: seq<Layer>,
                                             incoming: bool, f: Flags, nodes: Nodes<Img>)
    requires list != [] && Distinct(list)
    requires Covered(e, p, list, w, done, incoming, f, nodes)
    ensures CoveredLayer(e, p, list[0], w, done, incoming, f, nodes)
    ensures var v := VisitLayer(list[0], incoming, f);
            Covered(e, p, list[1..], EvalStep(e, list[0], w, done), done + Expand(list[0]), v.dirty, v.flags, nodes)
  {
    if !p.force {
      var l, rest := list[0], list[1..];
      var v := VisitLayer(l, incoming, f);
      var g := VisitList(list, incoming, f).flags;
      VisitLayerGrows(l, incoming, f);
      VisitListGrows(rest, v.dirty, v.flags);
      if !v.dirty {
        CleanOutgoingLayer(l, incoming, f);
        assert SameFlags(f, v.flags, Ids(rest));
        TrustFrame(e, rest, EvalStep(e, l, w, done), done + Expand(l), f, v.flags, nodes);
      }
    }
  }

  lemma {:induction false} RebuildIsScratch<Img>(e: Engine<Img>, p: Pass, list: seq<Layer>, a: Walk<Img>, b: Walk<Img>,
                                                 done: seq<Layer>, incoming: bool, f: Flags, nodes: Nodes<Img>)
    requires Placed(p, list, done)
    requires Covered(e, p, list, b, done, incoming, f, nodes)
    requires Matches(p.visible, a, b, done) && SameNodes(a.nodes, nodes, Ids(list)) && SeqIds(done) !! Ids(list)
    ensures Matches(p.visible, RebuildList(e, p, list, a), EvalList(e, list, b, done), done + Flatten(list))
    decreases list
  {
    if list == [] {
      assert done + [] == done;
    } else {
      var l, rest := list[0], list[1..];
      var v := VisitLayer(l, incoming, f);
      var a', b' := RebuildStep(e, p, l, a), EvalStep(e, l, b, done);
      CoveredAfter(e, p, list, b, done, incoming, f, nodes);
      PlacedAfter(p, list, done);
      StepIsScratch(e, p, list, a, b, done, incoming, f, nodes);
      RebuildStepFrame(e, p, l, a);
      NotYetVisited(list, done, a.nodes, a'.nodes, nodes);
      RebuildIsScratch(e, p, rest, a', b', done + Expand(l), v.dirty, v.flags, nodes);
      FlattenNext(done, list);
    }
  }

  lemma {:induction false} FlattenNext(done: seq<Layer>, list: seq<Layer>)
    requires list != []
    ensures done + Expand(list[0]) + Flatten(list[1..]) == done + Flatten(list)
  {
    Regrouped(done, Expand(list[0]), Flatten(list[1..]));
  }

  lemma {:induction false} NotYetVisited<Img>(list: seq<Layer>, done: seq<Layer>, a: Nodes<Img>, b: Nodes<Img>,
                                              nodes: Nodes<Img>)
    requires list != [] && Distinct(list) && SeqIds(done) !! Ids(list)
    requires SameNodes(a, nodes, Ids(list)) && SameOutside(a, b, IdsOf(list[0]))
    ensures SameNodes(b, nodes, Ids(list[1..]))
    ensures SeqIds(done + Expand(list[0])) !! Ids(list[1..])
  {
    ExpandIds(list[0]);
    SeqIdsConcat(done, Expand(list[0]));
  }

  lemma {:induction false} StepIsScratch<Img>(e: Engine<Img>, p: Pass, list: seq<Layer>, a: Walk<Img>, b: Walk<Img>,
                                              done: seq<Layer>, incoming: bool, f: Flags, nodes: Nodes<Img>)
    requires list != [] && Placed(p, list, done)
    requires CoveredLayer(e, p, list[0], b, done, incoming, f, nodes)
    requires Matches(p.visible, a, b, done) && SameNodes(a.nodes, nodes, Ids(list)) && SeqIds(done) !! Ids(list)
    ensures Matches(p.visible, RebuildStep(e, p, list[0], a), EvalStep(e, list[0], b, done), done + Expand(list[0]))
    decreases list[0], 1
  {
    var l := list[0];
    if !l.enabled {
      ShowsInside(p.visible, list);
      ExpandIds(l);
      NoneVisible(Expand(l), p.visible);
      AgreeConcat(done, Expand(l), p.visible, a.nodes, b.nodes);
    } else if Reusable(p, l, a.nodes) {
      ReuseIsScratch(e, p, list, a, b, done, incoming, f, nodes);
    } else {
      BuildIsScratch(e, p, list, a, b, done, incoming, f, nodes);
    }
  }

  lemma {:induction false} BuildIsScratch<Img>(e: Engine<Img>, p: Pass, list: seq<Layer>, a: Walk<Img>, b: Walk<Img>,
                                               done: seq<Layer>, incoming: bool, f: Flags, nodes: Nodes<Img>)
    requires list != [] && Placed(p, list, done)
    requires CoveredLayer(e, p, list[0], b, done, incoming, f, nodes)
    requires Matches(p.visible, a, b, done) && SameNodes(a.nodes, nodes, Ids(list)) && SeqIds(done) !! Ids(list)
    requires list[0].enabled && !Reusable(p, list[0], a.nodes)
    ensures Matches(p.visible, RebuildStep(e, p, list[0], a), EvalStep(e, list[0], b, done), done + Expand(list[0]))
    decreases list[0], 0
  {
    var l := list[0];
    var sa, sb := Walk(a.previous, None, a.nodes), Walk(b.previous, None, b.nodes);
    PlacedInside(p, list, done);
    ExpandNoMaps(l);
    CoveredInside(e, p, l, b, done, incoming, f, nodes);
    RebuildIsScratch(e, p, l.sublayers, sa, sb, done, incoming, f, nodes);
    var ra, rb := RebuildList(e, p, l.sublayers, sa), EvalList(e, l.sublayers, sb, done);
    if l.sublayers == [] {
      InputsAgree(e, p, l, done, a.nodes, b.nodes);
      assert Flatten(l.sublayers) == [];
      assert done + [] == done;
    }
    var n := EvalLayer(e, l, b.previous, done, b.nodes)[l.id];
    SameNodeBuilt(e, p, l, a, b, done, n);
    PutAgrees(done + Flatten(l.sublayers), p.visible, l, ra.nodes, rb.nodes, n);
    assert done + Flatten(l.sublayers) + [l] == done + Expand(l);
  }

  /** The node that is built is the one a fresh evaluation gives. */
  lemma {:induction false} SameNodeBuilt<Img>(e: Engine<Img>, p: Pass, l: Layer, a: Walk<Img>, b: Walk<Img>,
                                              done: seq<Layer>, n: Node<Img>)
    requires a.previous == b.previous && n == EvalLayer(e, l, b.previous, done, b.nodes)[l.id]
    requires l.sublayers == [] ==> FetchInputs(e, p, l, a.nodes) == LeafInputs(e, l, done, b.nodes)
    requires RebuildList(e, p, l.sublayers, Walk(a.previous, None, a.nodes)).out
          == EvalList(e, l.sublayers, Walk(b.previous, None, b.nodes), done).out
    ensures RebuildLayer(e, p, l, a.previous, a.nodes)
         == RebuildList(e, p, l.sublayers, Walk(a.previous, None, a.nodes)).nodes[l.id := n]
    ensures EvalLayer(e, l, b.previous, done, b.nodes)
         == EvalList(e, l.sublayers, Walk(b.previous, None, b.nodes), done).nodes[l.id := n]
  {
  }

  lemma PutAgrees<Img>(x: seq<Layer>, v: set<int>, l: Layer, a: Nodes<Img>, b: Nodes<Img>, n: Node<Img>)
    requires Agree(x, v, a, b)
    ensures Agree(x + [l], v, a[l.id := n], b[l.id := n])
  {
    assert Agree(x, v, a[l.id := n], b[l.id := n]);
    assert Agree([l], v, a[l.id := n], b[l.id := n]);
    AgreeConcat(x, [l], v, a[l.id := n], b[l.id := n]);
  }

  lemma {:induction false} ReuseIsScratch<Img>(e: Engine<Img>, p: Pass, list: seq<Layer>, a: Walk<Img>, b: Walk<Img>,
                                               done: seq<Layer>, incoming: bool, f: Flags, nodes: Nodes<Img>)
    requires list != [] && Placed(p, list, done)
    requires CoveredLayer(e, p, list[0], b, done, incoming, f, nodes)
    requires Matches(p.visible, a, b, done) && SameNodes(a.nodes, nodes, Ids(list)) && SeqIds(done) !! Ids(list)
    requires list[0].enabled && Reusable(p, list[0], a.nodes)
    ensures Matches(p.visible, RebuildStep(e, p, list[0], a), EvalStep(e, list[0], b, done), done + Expand(list[0]))
  {
    var l := list[0];
    var sb := Walk(b.previous, None, b.nodes);
    PlacedInside(p, list, done);
    ExpandNoMaps(l);
    UnmarkedIsTrusted(e, p, l, b, done, incoming, f, nodes);
    assert l.id in IdsOf(l) && l.id in Ids(list);
    TrustedNodes(e, p.visible, l.sublayers, sb, done, f, nodes);
    var n := EvalLayer(e, l, b.previous, done, b.nodes)[l.id];
    ReusedNode(e, p, l, b.previous, a.nodes, f, n, done, b.nodes);
    var rb := EvalList(e, l.sublayers, sb, done);
    EvalFrame(e, l.sublayers, sb, done);
    EvalShows(e, l.sublayers, sb, done);
    AgreeLater(done, p.visible, a.nodes, b.nodes, rb.nodes, Ids(l.sublayers));
    FlattenIds(l.sublayers);
    TrustedStill(Flatten(l.sublayers), p.visible, nodes, a.nodes, rb.nodes, Ids(list));
    AgreeConcat(done, Flatten(l.sublayers), p.visible, a.nodes, rb.nodes);
    PutAgrees(done + Flatten(l.sublayers), p.visible, l, a.nodes, rb.nodes, n);
    ReusePuts(e, p, l, a.previous, a.nodes, n);
    assert done + Flatten(l.sublayers) + [l] == done + Expand(l);
    VisibleStayInside(l.sublayers, true);
  }

  /** What the walk does not mark, and the pipeline holds, is held with all its layers as a fresh
      evaluation gives it. */
  lemma {:induction false} UnmarkedIsTrusted<Img>(e: Engine<Img>, p: Pass, l: Layer, b: Walk<Img>, done: seq<Layer>,
                                                  incoming: bool, f: Flags, nodes: Nodes<Img>)
    requires DistinctLayer(l) && NoMapsIn(l) && l.enabled && !p.force && l.id !in p.op && Held(nodes, l.id)
    requires CoveredLayer(e, p, l, b, done, incoming, f, nodes)
    ensures !incoming && Clean(f, Ids(l.sublayers)) && l.id !in f.op
    ensures TrustLayer(e, l, b, done, f, nodes) && TrustOwn(e, l, b, done, f, nodes) && Present(l.sublayers, nodes)
    ensures l.id in p.blend <==> l.id in f.blend
  {
    VisitPlain(l, incoming, f);
    assert l.id in IdsOf(l);
    CleanOutgoing(l.sublayers, incoming, f);
  }

  lemma TrustedStill<Img>(x: seq<Layer>, v: set<int>, a: Nodes<Img>, b: Nodes<Img>, c: Nodes<Img>, ids: set<int>)
    requires Agree(x, v, a, c) && SameNodes(b, a, ids) && SeqIds(x) <= ids
    ensures Agree(x, v, b, c)
  {
    forall i | 0 <= i < |x| && x[i].id in v
      ensures x[i].id in b && x[i].id in c && b[x[i].id] == c[x[i].id]
    {
      assert x[i].id in SeqIds(x);
    }
  }

  /** Evaluation adds nodes of visible layers only. */
  lemma {:induction false} EvalShows<Img>(e: Engine<Img>, list: seq<Layer>, w: Walk<Img>, done: seq<Layer>)
    ensures EvalList(e, list, w, done).nodes.Keys <= w.nodes.Keys + VisibleIds(list, true)
    decreases list
  {
    if list != [] {
      EvalStepShows(e, list[0], w, done);
      EvalShows(e, list[1..], EvalStep(e, list[0], w, done), done + Expand(list[0]));
    }
  }

  lemma {:induction false} EvalStepShows<Img>(e: Engine<Img>, l: Layer, w: Walk<Img>, done: seq<Layer>)
    ensures EvalStep(e, l, w, done).nodes.Keys <= w.nodes.Keys + VisibleIn(l, true)
    decreases l
  {
    EvalShows(e, l.sublayers, Walk(w.previous, None, w.nodes), done);
  }

  /** A reused node, its blended image refreshed where needed, is the evaluated one. */
  lemma {:induction false} ReusedNode<Img>(e: Engine<Img>, p: Pass, l: Layer, previous: Option<Img>, nodes: Nodes<Img>,
                                           f: Flags, n: Node<Img>, done: seq<Layer>, from: Nodes<Img>)
    requires Reusable(p, l, nodes) && Cached(f, l.id, nodes, n)
    requires n == EvalLayer(e, l, previous, done, from)[l.id]
    requires l.id !in f.op && (l.id in f.blend ==> l.id in p.blend)
    ensures ReuseLayer(e, p, l, previous, nodes)[l.id] == n
  {
  }

  lemma ReusePuts<Img>(e: Engine<Img>, p: Pass, l: Layer, previous: Option<Img>, nodes: Nodes<Img>, n: Node<Img>)
    requires Reusable(p, l, nodes)
    requires ReuseLayer(e, p, l, previous, nodes)[l.id] == n
    ensures ReuseLayer(e, p, l, previous, nodes) == nodes[l.id := n]
  {
  }

  // -------------------------------------------------------------------------
  // What a pass leaves alone
  // -------------------------------------------------------------------------

  /** The same images, and the same node if the blender is not marked. */
  ghost predicate ImagesKept<Img>(p: Pass, x: int, a: Nodes<Img>, b: Nodes<Img>)
    requires x in a
  {
    && x in b && b[x].images == a[x].images && b[x].colorspace == a[x].colorspace
    && (x !in p.blend ==> b[x] == a[x])
  }

  /** A held image whose operation is not marked stays, whatever else is rebuilt. */
  lemma {:induction false} UnmarkedStays<Img>(e: Engine<Img>, p: Pass, list: seq<Layer>, w: Walk<Img>, x: int)
    requires !p.force && x !in p.op && Held(w.nodes, x)
    ensures ImagesKept(p, x, w.nodes, RebuildList(e, p, list, w).nodes)
    decreases list
  {
    if list != [] {
      UnmarkedStaysIn(e, p, list[0], w, x);
      UnmarkedStays(e, p, list[1..], RebuildStep(e, p, list[0], w), x);
    }
  }

  lemma {:induction false} UnmarkedStaysIn<Img>(e: Engine<Img>, p: Pass, l: Layer, w: Walk<Img>, x: int)
    requires !p.force && x !in p.op && Held(w.nodes, x)
    ensures ImagesKept(p, x, w.nodes, RebuildStep(e, p, l, w).nodes)
    decreases l
  {
    UnmarkedStays(e, p, l.sublayers, Walk(w.previous, None, w.nodes), x);
  }
}
