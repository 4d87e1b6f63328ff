/** Runs of edits and rebuilds. */
module EditSession {
  import opened Basics
  import opened LayerTree
  import opened DirtyFlags
  import opened LayerQueries
  import opened Rebuild

  /** What the layer manager and one pipeline hold between two rebuilds. */
  datatype Session<!Img> = Session(
    root: seq<Layer>,
    flags: Flags,
    nodes: Nodes<Img>,
    force: bool,
    engine: Engine<Img>)

  // -------------------------------------------------------------------------
  // Edits of the tree
  // -------------------------------------------------------------------------

  datatype Edit =
    | SetOperation(op: Operation)
    | SetBlender(blender: Operation)
    | SetEnabled(on: bool)
    | ChangeInput(position: nat, input: Input)
    | AddSublayer(after: int, layer: Layer)

  /** Inserts behind the member with the given id, at the end for a negative id, and not at all
      when there is no such member. */
  function InsertAfter(list: seq<Layer>, after: int, l: Layer): seq<Layer> {
    if after < 0 then list + [l]
    else if list == [] then []
    else if list[0].id == after then [list[0], l] + list[1..]
    else [list[0]] + InsertAfter(list[1..], after, l)
  }

  function ApplyEdit(l: Layer, e: Edit): Layer {
    match e
    case SetOperation(op) => l.(op := op)
    case SetBlender(b) => l.(blender := b)
    case SetEnabled(on) => l.(enabled := on)
    case ChangeInput(n, i) => l.(inputs := SetInput(l.inputs, n, i))
    case AddSublayer(after, x) => l.(sublayers := InsertAfter(l.sublayers, after, x))
  }

  function EditList(list: seq<Layer>, id: int, e: Edit): seq<Layer> {
    if list == [] then [] else [EditLayer(list[0], id, e)] + EditList(list[1..], id, e)
  }

  function EditLayer(l: Layer, id: int, e: Edit): Layer {
    if l.id == id then ApplyEdit(l, e)
    else l.(sublayers := EditList(l.sublayers, id, e),
            imaps := EditList(l.imaps, id, e),
            omaps := EditList(l.omaps, id, e))
  }

  function WithoutInput(inputs: seq<Input>, id: int): seq<Input> {
    if inputs == [] then []
    else if inputs[0].layer == id then WithoutInput(inputs[1..], id)
    else [inputs[0]] + WithoutInput(inputs[1..], id)
  }

  /** Drops one layer with everything inside it, and all references to it. */
  function RemoveFrom(list: seq<Layer>, id: int): seq<Layer> {
    if list == [] then []
    else if list[0].id == id then RemoveFrom(list[1..], id)
    else [Forget(list[0], id)] + RemoveFrom(list[1..], id)
  }

  function Forget(l: Layer, id: int): Layer {
    l.(inputs := WithoutInput(l.inputs, id),
       sublayers := RemoveFrom(l.sublayers, id),
       imaps := RemoveFrom(l.imaps, id),
       omaps := RemoveFrom(l.omaps, id))
  }

  function Find(list: seq<Layer>, id: int): (l: Layer)
    requires id in Ids(list)
    ensures l.id == id
    decreases list
  {
    if id == list[0].id then list[0]
    else if id in IdsOf(list[0]) then Find(Part(list[0], id), id)
    else Find(list[1..], id)
  }

  // -------------------------------------------------------------------------
  // When trust survives
  // -------------------------------------------------------------------------

  /** Nothing cached for these layers can be reused as it is. */
  ghost predicate Outdated<Img>(f: Flags, nodes: Nodes<Img>, ids: set<int>) {
    forall x :: x in ids ==> x in f.op || (Flagged(f, x) && !Held(nodes, x))
  }

  /** The list b is the list a, up to its first flagged layer. */
  ghost predicate SameSoFar<Img>(a: seq<Layer>, b: seq<Layer>, f: Flags, nodes: Nodes<Img>)
    decreases b
  {
    b != [] ==>
      && (Outdated(f, nodes, IdsOf(b[0])) || (a != [] && SameLayerSoFar(a[0], b[0], f, nodes)))
      && (Clean(f, IdsOf(b[0])) ==> a != [] && a[0] == b[0] && SameSoFar(a[1..], b[1..], f, nodes))
  }

  ghost predicate SameLayerSoFar<Img>(a: Layer, b: Layer, f: Flags, nodes: Nodes<Img>)
    decreases b
  {
    && a.id == b.id
    && SameSoFar(a.sublayers, b.sublayers, f, nodes)
    && (b.id in f.op || !Held(nodes, b.id) || !b.enabled || !Clean(f, Ids(b.sublayers))
        || a == b || (b.id in f.blend && a == b.(blender := a.blender))
        || (b.sublayers != [] && a == b.(inputs := a.inputs)))
  }

  ghost predicate FlagsGrow(f: Flags, g: Flags, ids: set<int>) {
    forall x :: x in ids ==>
      && (x in f.dirty ==> x in g.dirty)
      && (x in f.op ==> x in g.op)
      && (x in f.blend ==> x in g.blend)
  }

  lemma {:induction false} OutdatedIsTrusted<Img>(e: Engine<Img>, list: seq<Layer>, w: Walk<Img>, done: seq<Layer>,
                                                  f: Flags, nodes: Nodes<Img>)
    requires Outdated(f, nodes, Ids(list))
    ensures Trust(e, list, w, done, f, nodes)
    decreases list
  {
    if list != [] {
      OutdatedLayerIsTrusted(e, list[0], w, done, f, nodes);
      assert list[0].id in IdsOf(list[0]) && Flagged(f, list[0].id);
    }
  }

  lemma {:induction false} OutdatedLayerIsTrusted<Img>(e: Engine<Img>, l: Layer, w: Walk<Img>, done: seq<Layer>,
                                                       f: Flags, nodes: Nodes<Img>)
    requires Outdated(f, nodes, IdsOf(l))
    ensures TrustLayer(e, l, w, done, f, nodes)
    decreases l
  {
    assert l.id in IdsOf(l);
    OutdatedIsTrusted(e, l.sublayers, Walk(w.previous, None, w.nodes), done, f, nodes);
  }

  lemma {:induction false} TrustTransfers<Img>(e: Engine<Img>, a: seq<Layer>, b: seq<Layer>, w: Walk<Img>,
                                               done: seq<Layer>, f: Flags, g: Flags, nodes: Nodes<Img>,
                                               after: Nodes<Img>)
    requires Trust(e, a, w, done, f, nodes)
    requires SameSoFar(a, b, g, after)
    requires FlagsGrow(f, g, Ids(b)) && SameNodes(nodes, after, Ids(b))
    ensures Trust(e, b, w, done, g, after)
    decreases b
  {
    if b != [] {
      if Outdated(g, after, IdsOf(b[0])) {
        OutdatedLayerIsTrusted(e, b[0], w, done, g, after);
      } else {
        LayerTrustTransfers(e, a[0], b[0], w, done, f, g, nodes, after);
      }
      if Clean(g, IdsOf(b[0])) {
        assert Clean(f, IdsOf(a[0]));
        TrustTransfers(e, a[1..], b[1..], EvalStep(e, b[0], w, done), done + Expand(b[0]), f, g, nodes, after);
      }
    }
  }

  lemma {:induction false} LayerTrustTransfers<Img>(e: Engine<Img>, a: Layer, b: Layer, w: Walk<Img>,
                                                    done: seq<Layer>, f: Flags, g: Flags, nodes: Nodes<Img>,
                                                    after: Nodes<Img>)
    requires TrustLayer(e, a, w, done, f, nodes)
    requires SameLayerSoFar(a, b, g, after)
    requires FlagsGrow(f, g, IdsOf(b)) && SameNodes(nodes, after, IdsOf(b))
    ensures TrustLayer(e, b, w, done, g, after)
    decreases b
  {
    TrustTransfers(e, a.sublayers, b.sublayers, Walk(w.previous, None, w.nodes), done, f, g, nodes, after);
    assert b.id in IdsOf(b);
    if Clean(g, Ids(b.sublayers)) && b.enabled && b.id !in g.op && Held(after, b.id) {
      assert Clean(f, Ids(a.sublayers));
      BlenderDoesNotMatter(e, a, b.blender, w.previous, done, w.nodes);
      InputsOfGroupsDoNotMatter(e, a, b.inputs, w.previous, done, w.nodes);
      PresentFrame(b.sublayers, nodes, after);
    }
  }

  lemma {:induction false} PresentFrame<Img>(list: seq<Layer>, a: Nodes<Img>, b: Nodes<Img>)
    requires Present(list, a) && SameNodes(a, b, Ids(list))
    ensures Present(list, b)
    decreases list
  {
    if list != [] {
      var l := list[0];
      assert l.id in IdsOf(l) && Ids(l.sublayers) <= IdsOf(l);
      if l.enabled {
        PresentFrame(l.sublayers, a, b);
      }
      PresentFrame(list[1..], a, b);
    }
  }

  /** The images of a layer do not depend on its blender. */
  lemma {:induction false} BlenderDoesNotMatter<Img>(e: Engine<Img>, l: Layer, blender: Operation,
                                                     previous: Option<Img>, done: seq<Layer>, nodes: Nodes<Img>)
    ensures var m, n := EvalLayer(e, l, previous, done, nodes)[l.id],
                        EvalLayer(e, l.(blender := blender), previous, done, nodes)[l.id];
            m.images == n.images && m.colorspace == n.colorspace
  {
  }

  /** The node of a group does not depend on its explicit inputs. */
  lemma {:induction false} InputsOfGroupsDoNotMatter<Img>(e: Engine<Img>, l: Layer, inputs: seq<Input>,
                                                          previous: Option<Img>, done: seq<Layer>, nodes: Nodes<Img>)
    ensures l.sublayers != [] ==>
              EvalLayer(e, l, previous, done, nodes)[l.id]
              == EvalLayer(e, l.(inputs := inputs), previous, done, nodes)[l.id]
  {
  }

  lemma {:induction false} SameAsItself<Img>(list: seq<Layer>, f: Flags, nodes: Nodes<Img>)
    ensures SameSoFar(list, list, f, nodes)
    decreases list
  {
    if list != [] {
      SameAsItself(list[0].sublayers, f, nodes);
      SameAsItself(list[1..], f, nodes);
    }
  }

  // -------------------------------------------------------------------------
  // Edits of one layer
  // -------------------------------------------------------------------------

  /** The ids an edit brings into the tree. */
  function NewIds(e: Edit): set<int> {
    if e.AddSublayer? then {e.layer.id} else {}
  }

  /** A new layer: no contents yet, not a map layer. */
  predicate Bare(l: Layer) {
    l.sublayers == [] && l.imaps == [] && l.omaps == [] && !l.op.mapFlag
  }

  predicate PlainEdit(e: Edit) {
    match e
    case SetOperation(op) => !op.mapFlag
    case AddSublayer(_, l) => Bare(l)
    case _ => true
  }

  lemma {:induction false} BareShape(l: Layer)
    requires Bare(l)
    ensures IdsOf(l) == {l.id} && Ids([l]) == {l.id}
    ensures DistinctLayer(l) && NoMapsIn(l) && Distinct([l]) && NoMaps([l])
  {
    assert Ids([]) == {} && Distinct([]) && NoMaps([]);
    assert [l][1..] == [];
  }

  lemma {:induction false} InsertShape(list: seq<Layer>, after: int, l: Layer)
    requires Distinct(list) && NoMaps(list) && Bare(l) && l.id !in Ids(list)
    ensures var r := InsertAfter(list, after, l);
            && Distinct(r) && NoMaps(r) && (r == list || (Ids(r) == Ids(list) + {l.id} && |r| == |list| + 1))
    decreases list
  {
    BareShape(l);
    if after < 0 {
      AppendShape(list, l);
    } else if list == [] {
    } else if list[0].id == after {
      var r := [list[0], l] + list[1..];
      assert r[1..] == [l] + list[1..] && r[1..][1..] == list[1..];
    } else {
      InsertShape(list[1..], after, l);
      var r := [list[0]] + InsertAfter(list[1..], after, l);
      assert r[1..] == InsertAfter(list[1..], after, l);
      assert list == [list[0]] + list[1..];
    }
  }

  lemma {:induction false} AppendShape(list: seq<Layer>, l: Layer)
    requires Distinct(list) && NoMaps(list) && Bare(l) && l.id !in Ids(list)
    ensures Distinct(list + [l]) && NoMaps(list + [l]) && Ids(list + [l]) == Ids(list) + {l.id}
  {
    BareShape(l);
    if list == [] {
      assert list + [l] == [l];
    } else {
      AppendShape(list[1..], l);
      assert (list + [l])[1..] == list[1..] + [l];
    }
  }

  lemma {:induction false} InsertIsSame<Img>(list: seq<Layer>, after: int, l: Layer, f: Flags, nodes: Nodes<Img>)
    requires IdsOf(l) == {l.id} && Flagged(f, l.id) && l.id !in nodes
    ensures SameSoFar(list, InsertAfter(list, after, l), f, nodes)
  {
    var r := InsertAfter(list, after, l);
    assert !Clean(f, IdsOf(l)) by { assert l.id in IdsOf(l); }
    if after < 0 {
      AppendIsSame(list, l, f, nodes);
    } else if list == [] {
    } else if list[0].id == after {
      assert r == [list[0]] + ([l] + list[1..]);
      assert r[1..] == [l] + list[1..];
      SameAsItself(list[0].sublayers, f, nodes);
    } else {
      InsertIsSame(list[1..], after, l, f, nodes);
      assert r[1..] == InsertAfter(list[1..], after, l);
      SameAsItself(list[0].sublayers, f, nodes);
    }
  }

  lemma {:induction false} AppendIsSame<Img>(list: seq<Layer>, l: Layer, f: Flags, nodes: Nodes<Img>)
    requires IdsOf(l) == {l.id} && Flagged(f, l.id) && l.id !in nodes
    ensures SameSoFar(list, list + [l], f, nodes)
  {
    assert !Clean(f, IdsOf(l)) by { assert l.id in IdsOf(l); }
    if list != [] {
      AppendIsSame(list[1..], l, f, nodes);
      assert (list + [l])[1..] == list[1..] + [l];
      SameAsItself(list[0].sublayers, f, nodes);
    }
  }

  lemma {:induction false} EditShape(list: seq<Layer>, id: int, e: Edit)
    requires Distinct(list) && NoMaps(list) && PlainEdit(e) && NewIds(e) !! Ids(list)
    ensures var r := EditList(list, id, e);
            && Distinct(r) && NoMaps(r)
            && Ids(list) <= Ids(r) <= Ids(list) + NewIds(e)
            && (id !in Ids(list) ==> r == list)
            && (r == list || NewIds(e) <= Ids(r))
    decreases list
  {
    if list != [] {
      var l, rest := list[0], list[1..];
      EditLayerShape(l, id, e);
      EditShape(rest, id, e);
      var r := EditList(list, id, e);
      assert r[0] == EditLayer(l, id, e) && r[1..] == EditList(rest, id, e);
      assert list == [l] + rest;
      if id in IdsOf(l) {
        assert r[1..] == rest;
        OneReplaced(IdsOf(l), IdsOf(r[0]), Ids(rest), NewIds(e));
      } else {
        assert r[0] == l;
        OneReplaced(Ids(rest), Ids(r[1..]), IdsOf(l), NewIds(e));
      }
    }
  }

  lemma OneReplaced(a: set<int>, b: set<int>, other: set<int>, more: set<int>)
    requires a !! other && a <= b <= a + more && more !! a + other
    ensures b !! other && a + other <= b + other <= a + other + more
    ensures b + other == other + b && a + other == other + a
  {
  }

  lemma {:induction false} EditLayerShape(l: Layer, id: int, e: Edit)
    requires DistinctLayer(l) && NoMapsIn(l) && PlainEdit(e) && NewIds(e) !! IdsOf(l)
    ensures var r := EditLayer(l, id, e);
            && DistinctLayer(r) && NoMapsIn(r)
            && IdsOf(l) <= IdsOf(r) <= IdsOf(l) + NewIds(e)
            && (id !in IdsOf(l) ==> r == l)
            && (r == l || NewIds(e) <= IdsOf(r))
    decreases l
  {
    if l.id == id {
      EditOwnShape(l, e);
    } else {
      assert EditList([], id, e) == [];
      ExpandNoMaps(l);
      EditShape(l.sublayers, id, e);
      SublayersReplaced(l, EditList(l.sublayers, id, e), NewIds(e));
    }
  }

  lemma {:induction false} EditOwnShape(l: Layer, e: Edit)
    requires DistinctLayer(l) && NoMapsIn(l) && PlainEdit(e) && NewIds(e) !! IdsOf(l)
    ensures var r := ApplyEdit(l, e);
            && DistinctLayer(r) && NoMapsIn(r)
            && IdsOf(l) <= IdsOf(r) <= IdsOf(l) + NewIds(e)
            && (r == l || NewIds(e) <= IdsOf(r))
  {
    ExpandNoMaps(l);
    if e.AddSublayer? {
      InsertShape(l.sublayers, e.after, e.layer);
      SublayersReplaced(l, InsertAfter(l.sublayers, e.after, e.layer), NewIds(e));
    } else {
      ExpandNoMaps(ApplyEdit(l, e));
    }
  }

  lemma {:induction false} SublayersReplaced(l: Layer, sub: seq<Layer>, more: set<int>)
    requires DistinctLayer(l) && NoMapsIn(l) && Distinct(sub) && NoMaps(sub)
    requires Ids(sub) <= Ids(l.sublayers) + more && more !! IdsOf(l)
    ensures var r := l.(sublayers := sub); DistinctLayer(r) && NoMapsIn(r) && IdsOf(r) == Ids(sub) + {l.id}
  {
    assert Ids([]) == {} && l.id in IdsOf(l);
    ExpandNoMaps(l.(sublayers := sub));
  }

  /** The flags raised by an edit of layer id are up. */
  ghost predicate Announced<Img>(id: int, e: Edit, f: Flags, nodes: Nodes<Img>) {
    match e
    case SetBlender(_) => id in f.blend
    case AddSublayer(_, l) => l.id in f.dirty && l.id !in nodes
    case _ => id in f.op
  }

  lemma {:induction false} EditIsSame<Img>(list: seq<Layer>, id: int, e: Edit, f: Flags, nodes: Nodes<Img>)
    requires Distinct(list) && NoMaps(list) && PlainEdit(e) && NewIds(e) !! Ids(list)
    requires Announced(id, e, f, nodes)
    ensures SameSoFar(list, EditList(list, id, e), f, nodes)
    decreases list
  {
    if list != [] {
      var l, rest := list[0], list[1..];
      var r := EditList(list, id, e);
      assert r[0] == EditLayer(l, id, e) && r[1..] == EditList(rest, id, e);
      EditLayerIsSame(l, id, e, f, nodes);
      EditLayerShape(l, id, e);
      if EditLayer(l, id, e) == l {
        EditIsSame(rest, id, e, f, nodes);
      } else {
        EditRaises(l, id, e, f, nodes);
      }
    }
  }

  /** A layer that an edit changes holds a flagged layer afterwards. */
  lemma {:induction false} EditRaises<Img>(l: Layer, id: int, e: Edit, f: Flags, nodes: Nodes<Img>)
    requires DistinctLayer(l) && NoMapsIn(l) && PlainEdit(e) && NewIds(e) !! IdsOf(l)
    requires Announced(id, e, f, nodes) && EditLayer(l, id, e) != l
    ensures !Clean(f, IdsOf(EditLayer(l, id, e)))
  {
    EditLayerShape(l, id, e);
    var x := if e.AddSublayer? then e.layer.id else id;
    assert x in IdsOf(EditLayer(l, id, e)) && Flagged(f, x);
  }

  lemma {:induction false} EditLayerIsSame<Img>(l: Layer, id: int, e: Edit, f: Flags, nodes: Nodes<Img>)
    requires DistinctLayer(l) && NoMapsIn(l) && PlainEdit(e) && NewIds(e) !! IdsOf(l)
    requires Announced(id, e, f, nodes)
    ensures SameLayerSoFar(l, EditLayer(l, id, e), f, nodes)
    decreases l
  {
    if l.id == id {
      EditOwnIsSame(l, e, f, nodes);
    } else {
      var m := EditLayer(l, id, e);
      assert EditList([], id, e) == [];
      EditIsSame(l.sublayers, id, e, f, nodes);
      EditShape(l.sublayers, id, e);
      if m != l {
        var x := if e.AddSublayer? then e.layer.id else id;
        assert x in Ids(m.sublayers) && Flagged(f, x);
      }
    }
  }

  lemma {:induction false} EditOwnIsSame<Img>(l: Layer, e: Edit, f: Flags, nodes: Nodes<Img>)
    requires DistinctLayer(l) && NoMapsIn(l) && PlainEdit(e) && NewIds(e) !! IdsOf(l)
    requires Announced(l.id, e, f, nodes)
    ensures SameLayerSoFar(l, ApplyEdit(l, e), f, nodes)
  {
    SameAsItself(l.sublayers, f, nodes);
    if e.AddSublayer? {
      var m := ApplyEdit(l, e);
      BareShape(e.layer);
      InsertIsSame(l.sublayers, e.after, e.layer, f, nodes);
      InsertShape(l.sublayers, e.after, e.layer);
      if m != l {
        assert e.layer.id in Ids(m.sublayers) && Flagged(f, e.layer.id);
      }
    }
  }

  // -------------------------------------------------------------------------
  // Changes of an explicit input
  // -------------------------------------------------------------------------

  /** The image of a layer does not depend on its inputs, is not held, or will be built anew. */
  ghost predicate Excused<Img>(l: Layer, op: set<int>, nodes: Nodes<Img>) {
    !l.enabled || l.sublayers != [] || !Held(nodes, l.id) || l.id in op
  }

  /** A layer whose input changes carries a dirty flag.  If the walk marks its operation, then for a
      reason that lies inside or before the layer, where nothing is trusted. */
  lemma {:induction false} InputIsSame<Img>(list: seq<Layer>, id: int, e: Edit, f: Flags, nodes: Nodes<Img>,
                                            before: set<int>, all: set<int>)
    requires Distinct(list) && NoMaps(list) && e.ChangeInput? && id in Ids(list) && id in f.dirty
    requires InputsSettled(EditList(list, id, e), before, all) && before !! f.dirty && f.dirty <= all
    requires Excused(Find(list, id), VisitList(EditList(list, id, e), false, f).flags.op, nodes)
    ensures SameSoFar(list, EditList(list, id, e), f, nodes)
    decreases list
  {
    var l, rest := list[0], list[1..];
    var r := EditList(list, id, e);
    var v := VisitLayer(r[0], false, f);
    assert r[0] == EditLayer(l, id, e) && r[1..] == EditList(rest, id, e);
    EditLayerShape(l, id, e);
    EditShape(rest, id, e);
    if id in IdsOf(l) {
      VisitListGrows(r[1..], v.dirty, v.flags);
      InputIsSameIn(l, id, e, f, nodes, before, all);
      assert Flagged(f, id) && id in IdsOf(r[0]);
    } else {
      SameAsItself(l.sublayers, f, nodes);
      if Clean(f, IdsOf(l)) {
        CleanPartStaysIn(l, before, all, f);
        NotDirty(f, IdsOf(l));
        InputIsSame(rest, id, e, f, nodes, before + IdsOf(l), all);
      }
    }
  }

  lemma {:induction false} InputIsSameIn<Img>(l: Layer, id: int, e: Edit, f: Flags, nodes: Nodes<Img>,
                                              before: set<int>, all: set<int>)
    requires DistinctLayer(l) && NoMapsIn(l) && e.ChangeInput? && id in IdsOf(l) && id in f.dirty
    requires OwnInputsSettled(EditLayer(l, id, e).inputs, before, all)
    requires InputsSettled(EditLayer(l, id, e).sublayers, before, all) && before !! f.dirty && f.dirty <= all
    requires Excused(if id == l.id then l else Find(l.sublayers, id),
                     VisitLayer(EditLayer(l, id, e), false, f).flags.op, nodes)
    ensures SameLayerSoFar(l, EditLayer(l, id, e), f, nodes)
    decreases l
  {
    var m := EditLayer(l, id, e);
    EditLayerShape(l, id, e);
    VisitPlain(m, false, f);
    if l.id == id {
      SameAsItself(l.sublayers, f, nodes);
      assert !AnyInputDirty(m.inputs, f.dirty);
      if Clean(f, Ids(l.sublayers)) {
        CleanPartStays(l.sublayers, before, all, f);
      }
    } else {
      assert EditList([], id, e) == [];
      InputIsSame(l.sublayers, id, e, f, nodes, before, all);
      EditShape(l.sublayers, id, e);
      assert Flagged(f, id) && id in Ids(m.sublayers);
    }
  }

  // -------------------------------------------------------------------------
  // Removal
  // -------------------------------------------------------------------------

  /** The ids of a layer and of everything inside it. */
  function RemovedIds(list: seq<Layer>, id: int): (r: set<int>)
    ensures r <= Ids(list)
  {
    if list == [] then {}
    else (if list[0].id == id then IdsOf(list[0]) else RemovedIn(list[0], id)) + RemovedIds(list[1..], id)
  }

  function RemovedIn(l: Layer, id: int): (r: set<int>)
    ensures r <= IdsOf(l)
  {
    RemovedIds(l.sublayers, id) + RemovedIds(l.imaps, id) + RemovedIds(l.omaps, id)
  }

  lemma {:induction false} RemoveShape(list: seq<Layer>, id: int)
    requires Distinct(list) && NoMaps(list)
    ensures var r := RemoveFrom(list, id);
            && Distinct(r) && NoMaps(r) && id !in Ids(r)
            && Ids(r) == Ids(list) - RemovedIds(list, id)
            && (id !in Ids(list) ==> RemovedIds(list, id) == {})
    decreases list
  {
    if list != [] {
      RemoveShape(list[1..], id);
      if list[0].id != id {
        ForgetShape(list[0], id);
        var r := RemoveFrom(list, id);
        assert r[0] == Forget(list[0], id) && r[1..] == RemoveFrom(list[1..], id);
        BothShrink(IdsOf(list[0]), RemovedIn(list[0], id), Ids(list[1..]), RemovedIds(list[1..], id));
      }
    }
  }

  lemma BothShrink(a: set<int>, x: set<int>, b: set<int>, y: set<int>)
    requires a !! b && x <= a && y <= b
    ensures (a - x) !! (b - y) && (a - x) + (b - y) == a + b - (x + y)
  {
  }

  lemma {:induction false} ForgetShape(l: Layer, id: int)
    requires DistinctLayer(l) && NoMapsIn(l) && l.id != id
    ensures var r := Forget(l, id);
            && DistinctLayer(r) && NoMapsIn(r) && id !in IdsOf(r)
            && IdsOf(r) == IdsOf(l) - RemovedIn(l, id)
            && (id !in IdsOf(l) ==> RemovedIn(l, id) == {})
    decreases l
  {
    assert RemoveFrom([], id) == [] && Ids([]) == {};
    RemoveShape(l.sublayers, id);
  }

  lemma {:induction false} ForgetNothing(inputs: seq<Input>, id: int, done: set<int>, all: set<int>)
    requires OwnInputsSettled(inputs, done, all) && id in all - done
    ensures WithoutInput(inputs, id) == inputs
  {
    if inputs != [] {
      assert inputs[0].layer != id;
      assert OwnInputsSettled(inputs[1..], done, all) by {
        assert forall i :: 0 <= i < |inputs[1..]| ==> inputs[1..][i] == inputs[i + 1];
      }
      ForgetNothing(inputs[1..], id, done, all);
    }
  }

  /** Layers settled before a layer do not refer to it. */
  lemma {:induction false} EarlierStay(list: seq<Layer>, id: int, done: set<int>, all: set<int>)
    requires NoMaps(list) && InputsSettled(list, done, all)
    requires id in all && id !in done + Ids(list)
    ensures RemoveFrom(list, id) == list
    decreases list
  {
    if list != [] {
      EarlierLayerStays(list[0], id, done, all);
      EarlierStay(list[1..], id, done + IdsOf(list[0]), all);
    }
  }

  lemma {:induction false} EarlierLayerStays(l: Layer, id: int, done: set<int>, all: set<int>)
    requires NoMapsIn(l) && OwnInputsSettled(l.inputs, done, all) && InputsSettled(l.sublayers, done, all)
    requires id in all && id !in done + IdsOf(l)
    ensures Forget(l, id) == l
    decreases l
  {
    ForgetNothing(l.inputs, id, done, all);
    EarlierStay(l.sublayers, id, done, all);
    assert RemoveFrom([], id) == [];
  }

  lemma {:induction false} RemoveIsSame<Img>(list: seq<Layer>, id: int, done: set<int>, all: set<int>, f: Flags,
                                             nodes: Nodes<Img>)
    requires Distinct(list) && NoMaps(list) && InputsSettled(list, done, all)
    requires id in Ids(list) && id in all - done
    requires ChildIds(list, id) <= f.op
    ensures SameSoFar(list, RemoveFrom(list, id), f, nodes)
    decreases list
  {
    var l, rest := list[0], list[1..];
    var r := RemoveFrom(list, id);
    if l.id == id {
      RemoveShape(rest, id);
      if r != [] {
        assert IdsOf(r[0]) <= Ids(r);
        assert Outdated(f, nodes, IdsOf(r[0]));
        assert r[0].id in IdsOf(r[0]) && Flagged(f, r[0].id);
      }
    } else {
      assert r[0] == Forget(l, id) && r[1..] == RemoveFrom(rest, id);
      if id in IdsOf(l) {
        assert Part(l, id) == l.sublayers;
        RemoveIsSame(l.sublayers, id, done, all, f, nodes);
        assert l.id in f.op && l.id in IdsOf(r[0]) && Flagged(f, l.id);
      } else {
        EarlierLayerStays(l, id, done, all);
        SameAsItself([l], f, nodes);
        assert [l][0] == l;
        RemoveIsSame(rest, id, done + IdsOf(l), all, f, nodes);
      }
    }
  }

  // -------------------------------------------------------------------------
  // Explicit inputs stay settled
  // -------------------------------------------------------------------------

  lemma {:induction false} EditKeepsSettled(list: seq<Layer>, id: int, e: Edit, done: set<int>, all: set<int>)
    requires !e.AddSublayer? && !e.ChangeInput? && Distinct(list) && NoMaps(list) && PlainEdit(e)
    requires InputsSettled(list, done, all)
    ensures InputsSettled(EditList(list, id, e), done, all)
    decreases list
  {
    if list != [] {
      var l, rest := list[0], list[1..];
      var r := EditList(list, id, e);
      assert r[0] == EditLayer(l, id, e) && r[1..] == EditList(rest, id, e);
      EditLayerShape(l, id, e);
      assert IdsOf(r[0]) == IdsOf(l);
      EditKeepsSettled(l.sublayers, id, e, done, all);
      EditKeepsSettled(rest, id, e, done + IdsOf(l), all);
    }
  }

  lemma {:induction false} InputsShrink(inputs: seq<Input>, id: int, done: set<int>, all: set<int>, done': set<int>,
                                        all': set<int>)
    requires OwnInputsSettled(inputs, done, all)
    requires all' <= all && forall u :: u in done && u in all' ==> u in done'
    ensures OwnInputsSettled(WithoutInput(inputs, id), done', all')
  {
    if inputs != [] {
      assert forall i :: 0 <= i < |inputs[1..]| ==> inputs[1..][i] == inputs[i + 1];
      InputsShrink(inputs[1..], id, done, all, done', all');
    }
  }

  lemma {:induction false} RemoveKeepsSettled(list: seq<Layer>, id: int, done: set<int>, all: set<int>,
                                              done': set<int>, all': set<int>)
    requires Distinct(list) && NoMaps(list) && InputsSettled(list, done, all)
    requires all' <= all && (forall u :: u in done && u in all' ==> u in done')
    requires RemovedIds(list, id) !! all'
    ensures InputsSettled(RemoveFrom(list, id), done', all')
    decreases list
  {
    if list != [] {
      var l, rest := list[0], list[1..];
      if l.id == id {
        RemoveKeepsSettled(rest, id, done + IdsOf(l), all, done', all');
      } else {
        var r := RemoveFrom(list, id);
        assert r[0] == Forget(l, id) && r[1..] == RemoveFrom(rest, id);
        ForgetShape(l, id);
        InputsShrink(l.inputs, id, done, all, done', all');
        RemoveKeepsSettled(l.sublayers, id, done, all, done', all');
        RemoveKeepsSettled(rest, id, done + IdsOf(l), all, done' + IdsOf(r[0]), all');
      }
    }
  }

  // -------------------------------------------------------------------------
  // Sessions
  // -------------------------------------------------------------------------

  datatype Step =
    | Change(id: int, edit: Edit)
    | AddLayer(after: int, layer: Layer)
    | Remove(id: int)
    | SetLevel(level: int)
    | Update

  function Raise(f: Flags, dirty: set<int>, op: set<int>, blend: set<int>): Flags {
    Flags(f.dirty + dirty, f.op + op, f.blend + blend)
  }

  function Drop(f: Flags, ids: set<int>): Flags {
    Flags(f.dirty - ids, f.op - ids, f.blend - ids)
  }

  /** The flags raised when layer id is edited. */
  function Raised(f: Flags, id: int, e: Edit): Flags {
    match e
    case SetBlender(_) => Raise(f, {}, {}, {id})
    case ChangeInput(_, _) => Raise(f, {id}, {}, {})
    case AddSublayer(_, l) => Raise(f, {l.id}, {}, {})
    case _ => Raise(f, {}, {id}, {})
  }

  function MakePass<Img>(s: Session<Img>): Pass {
    var g := VisitList(s.root, false, s.flags).flags;
    Pass(s.root, VisibleIds(s.root, true), g.op, g.blend, s.force)
  }

  function Rebuilt<Img>(s: Session<Img>): Walk<Img> {
    RebuildList(s.engine, MakePass(s), s.root, Walk(None, None, s.nodes))
  }

  function FromScratch<Img>(s: Session<Img>): Walk<Img> {
    EvalList(s.engine, s.root, Walk(None, None, map[]), [])
  }

  function RemoveLayer<Img>(s: Session<Img>, id: int): Session<Img>
    requires id in Ids(s.root)
  {
    var children, gone := ChildIds(s.root, id), RemovedIds(s.root, id);
    s.(root := RemoveFrom(s.root, id),
       flags := Drop(Raise(s.flags, children, children, children), gone),
       nodes := map x | x in s.nodes && x !in gone :: s.nodes[x])
  }

  /** An edit that changes nothing is not noticed, unless it sets an operation or a blender, or
      clears an input. */
  predicate Unnoticed(root: seq<Layer>, id: int, e: Edit) {
    && EditList(root, id, e) == root
    && !e.SetOperation? && !e.SetBlender? && !(e.ChangeInput? && e.input.layer < 0)
  }

  function EditedBy<Img>(s: Session<Img>, id: int, e: Edit): Session<Img> {
    if Unnoticed(s.root, id, e) then s
    else s.(root := EditList(s.root, id, e), flags := Raised(s.flags, id, e))
  }

  function Next<Img>(s: Session<Img>, step: Step): Session<Img>
    requires Legal(s, step)
  {
    match step
    case Change(id, e) => EditedBy(s, id, e)
    case AddLayer(after, l) =>
      if InsertAfter(s.root, after, l) == s.root then s
      else s.(root := InsertAfter(s.root, after, l), flags := Raise(s.flags, {l.id}, {}, {}))
    case Remove(id) => RemoveLayer(s, id)
    case SetLevel(n) => if s.engine.level == n then s else s.(engine := s.engine.(level := n), force := true)
    case Update => Updated(s)
  }

  /** Prepare, rebuild and finalize: afterwards no layer of the tree carries a flag. */
  function Updated<Img>(s: Session<Img>): Session<Img> {
    s.(flags := Drop(s.flags, Ids(s.root)), nodes := Rebuilt(s).nodes, force := false)
  }

  /** The enabled layers inside disabled ones. */
  function HiddenIds(list: seq<Layer>, hidden: bool): set<int> {
    if list == [] then {} else HiddenIn(list[0], hidden) + HiddenIds(list[1..], hidden)
  }

  function HiddenIn(l: Layer, hidden: bool): set<int> {
    (if hidden && l.enabled then {l.id} else {})
    + HiddenIds(l.sublayers, hidden || !l.enabled)
    + HiddenIds(l.imaps, hidden || !l.enabled)
    + HiddenIds(l.omaps, hidden || !l.enabled)
  }

  /** An update is safe if no image that is held for an enabled layer inside a disabled one is marked
      for rebuilding: the update clears the flags of these layers without building them. */
  predicate Safe<Img>(s: Session<Img>) {
    var p := MakePass(s);
    forall x :: x in HiddenIds(s.root, false) && Held(s.nodes, x) ==> !p.force && x !in p.op && x !in p.blend
  }

  /** A changed input is taken up by the next update: the tree stays as it is, or the layer is
      disabled or a group, or its image is built anew, because everything is, because none is held,
      or because the walk marks its operation. */
  predicate TakenUp<Img>(s: Session<Img>, id: int, e: Edit)
    requires id in Ids(s.root)
  {
    var t, l := EditedBy(s, id, e), Find(s.root, id);
    t.root == s.root || !l.enabled || l.sublayers != [] || s.force || !Held(s.nodes, id) || id in MakePass(t).op
  }

  /** What a caller has to check before a step. */
  predicate Legal<Img>(s: Session<Img>, step: Step) {
    match step
    case Change(id, e) =>
      && id in Ids(s.root) && PlainEdit(e) && NewIds(e) !! Ids(s.root)
      && (e.AddSublayer? || e.ChangeInput? ==> var r := EditList(s.root, id, e); InputsSettled(r, {}, Ids(r)))
      && (e.ChangeInput? ==> TakenUp(s, id, e))
    case AddLayer(after, l) =>
      && Bare(l) && l.id !in Ids(s.root)
      && (var r := InsertAfter(s.root, after, l); InputsSettled(r, {}, Ids(r)))
    case Remove(id) => id in Ids(s.root)
    case SetLevel(_) => true
    case Update => Safe(s)
  }

  ghost predicate Valid<Img>(s: Session<Img>) {
    && Distinct(s.root) && NoMaps(s.root) && InputsSettled(s.root, {}, Ids(s.root))
    && s.flags.dirty <= Ids(s.root) && s.flags.op <= Ids(s.root) && s.flags.blend <= Ids(s.root)
    && s.nodes.Keys <= Ids(s.root)
    && (!s.force ==> Trust(s.engine, s.root, Walk(None, None, map[]), [], s.flags, s.nodes))
  }

  // -------------------------------------------------------------------------
  // An update shows what evaluation from scratch shows
  // -------------------------------------------------------------------------

  lemma WholeTreeLocated(root: seq<Layer>)
    ensures Located(root, root, [])
  {
    forall id | id in Ids(root) ensures Parents(root, id).parents == [] + Parents(root, id).parents {
    }
  }

  /** An update of the document shows what evaluation from scratch shows: the output, and the
      node of every visible layer. */
  ghost predicate Faithful<Img>(s: Session<Img>) {
    && Rebuilt(s).out == FromScratch(s).out
    && Agree(Flatten(s.root), VisibleIds(s.root, true), Rebuilt(s).nodes, FromScratch(s).nodes)
  }

  lemma UpdateMatchesScratch<Img>(s: Session<Img>)
    requires Valid(s)
    ensures Faithful(s)
  {
    var p := MakePass(s);
    VisibleStayInside(s.root, true);
    WholeTreeLocated(s.root);
    assert SeqIds([]) == {};
    assert Placed(p, s.root, []);
    RebuildIsScratch(s.engine, p, s.root, Walk(None, None, s.nodes), Walk(None, None, map[]), [], false, s.flags,
                     s.nodes);
    assert [] + Flatten(s.root) == Flatten(s.root);
  }

  // -------------------------------------------------------------------------
  // A safe update keeps the session valid
  // -------------------------------------------------------------------------

  lemma AgreeEarlier<Img>(x: seq<Layer>, v: set<int>, a: Nodes<Img>, b: Nodes<Img>, c: Nodes<Img>, ids: set<int>)
    requires Agree(x, v, a, c) && SameOutside(b, c, ids) && SeqIds(x) !! ids
    ensures Agree(x, v, a, b)
  {
    forall i | 0 <= i < |x| && x[i].id in v
      ensures x[i].id in a && x[i].id in b && a[x[i].id] == b[x[i].id]
    {
      assert x[i].id in SeqIds(x);
    }
  }

  /** What evaluation gives is an image for every visible layer. */
  lemma {:induction false} EvalIsPresent<Img>(e: Engine<Img>, v: set<int>, list: seq<Layer>, w: Walk<Img>,
                                              done: seq<Layer>, nodes: Nodes<Img>)
    requires Distinct(list) && NoMaps(list) && Shows(v, list)
    requires Agree(Flatten(list), v, nodes, EvalList(e, list, w, done).nodes)
    ensures Present(list, nodes)
    decreases list
  {
    if list != [] {
      var l, rest := list[0], list[1..];
      var next := EvalStep(e, l, w, done);
      StepAgrees(e, v, list, w, done, nodes);
      EvalIsPresent(e, v, rest, next, done + Expand(l), nodes);
      if l.enabled {
        EvalIsPresent(e, v, l.sublayers, Walk(w.previous, None, w.nodes), done, nodes);
      }
    }
  }

  /** Agreement on a list is agreement on its first layer, on what that contains, and on the rest. */
  lemma {:induction false} StepAgrees<Img>(e: Engine<Img>, v: set<int>, list: seq<Layer>, w: Walk<Img>,
                                           done: seq<Layer>, nodes: Nodes<Img>)
    requires list != [] && Distinct(list) && NoMaps(list) && Shows(v, list)
    requires Agree(Flatten(list), v, nodes, EvalList(e, list, w, done).nodes)
    ensures var l, next := list[0], EvalStep(e, list[0], w, done);
            && Shows(v, list[1..])
            && Agree(Flatten(list[1..]), v, nodes, EvalList(e, list[1..], next, done + Expand(l)).nodes)
            && (l.enabled ==>
                  && Shows(v, l.sublayers)
                  && Agree(Flatten(l.sublayers), v, nodes,
                           EvalList(e, l.sublayers, Walk(w.previous, None, w.nodes), done).nodes)
                  && l.id in nodes && nodes[l.id] == EvalLayer(e, l, w.previous, done, w.nodes)[l.id])
  {
    var l, rest := list[0], list[1..];
    var next, all := EvalStep(e, l, w, done), EvalList(e, list, w, done).nodes;
    ShowsInside(v, list);
    AgreeConcat(Expand(l), Flatten(rest), v, nodes, all);
    EvalFrame(e, rest, next, done + Expand(l));
    ExpandIds(l);
    AgreeEarlier(Expand(l), v, nodes, next.nodes, all, Ids(rest));
    if l.enabled {
      var sub := EvalList(e, l.sublayers, Walk(w.previous, None, w.nodes), done).nodes;
      ExpandNoMaps(l);
      AgreeConcat(Flatten(l.sublayers), [l], v, nodes, next.nodes);
      FlattenIds(l.sublayers);
      assert next.nodes == EvalLayer(e, l, w.previous, done, w.nodes);
      assert SameOutside(sub, next.nodes, {l.id});
      AgreeEarlier(Flatten(l.sublayers), v, nodes, sub, next.nodes, {l.id});
      assert [l][0] == l;
    }
  }

  /** In a disabled layer, everything stays as it was; what the walk does not mark could be trusted
      before. */
  lemma {:induction false} HiddenStaysTrusted<Img>(e: Engine<Img>, p: Pass, list: seq<Layer>, w: Walk<Img>,
                                                   done: seq<Layer>, incoming: bool, f: Flags, nodes: Nodes<Img>,
                                                   h: Flags, after: Nodes<Img>)
    requires Distinct(list) && NoMaps(list) && Covered(e, p, list, w, done, incoming, f, nodes)
    requires Spared(p, HiddenIds(list, true), nodes) && SameNodes(nodes, after, Ids(list))
    requires Clean(h, Ids(list))
    ensures Trust(e, list, w, done, h, after)
    decreases list
  {
    if list != [] {
      var l := list[0];
      var v := VisitLayer(l, incoming, f);
      CoveredAfter(e, p, list, w, done, incoming, f, nodes);
      HiddenLayerStaysTrusted(e, p, l, w, done, incoming, f, nodes, h, after);
      HiddenStaysTrusted(e, p, list[1..], EvalStep(e, l, w, done), done + Expand(l), v.dirty, v.flags, nodes, h, after);
    }
  }

  /** No image held for these layers is marked for rebuilding. */
  ghost predicate Spared<Img>(p: Pass, ids: set<int>, nodes: Nodes<Img>) {
    forall x :: x in ids && Held(nodes, x) ==> !p.force && x !in p.op && x !in p.blend
  }

  lemma {:induction false} HiddenLayerStaysTrusted<Img>(e: Engine<Img>, p: Pass, l: Layer, w: Walk<Img>,
                                                        done: seq<Layer>, incoming: bool, f: Flags,
                                                        nodes: Nodes<Img>, h: Flags, after: Nodes<Img>)
    requires DistinctLayer(l) && NoMapsIn(l) && CoveredLayer(e, p, l, w, done, incoming, f, nodes)
    requires Spared(p, HiddenIn(l, true), nodes) && SameNodes(nodes, after, IdsOf(l))
    requires Clean(h, IdsOf(l))
    ensures TrustLayer(e, l, w, done, h, after)
    decreases l
  {
    CoveredInside(e, p, l, w, done, incoming, f, nodes);
    assert l.id in IdsOf(l);
    HiddenStaysTrusted(e, p, l.sublayers, Walk(w.previous, None, w.nodes), done, incoming, f, nodes, h, after);
    if l.enabled && Held(after, l.id) {
      assert l.id in HiddenIn(l, true);
      UnmarkedIsTrusted(e, p, l, w, done, incoming, f, nodes);
      PresentFrame(l.sublayers, nodes, after);
    }
  }

  /** After the update: visible layers have the nodes of evaluation from scratch. */
  lemma {:induction false} UpdatedIsTrusted<Img>(e: Engine<Img>, p: Pass, list: seq<Layer>, w: Walk<Img>,
                                                 done: seq<Layer>, incoming: bool, f: Flags, nodes: Nodes<Img>,
                                                 h: Flags, after: Nodes<Img>)
    requires Distinct(list) && NoMaps(list) && Shows(p.visible, list)
    requires Covered(e, p, list, w, done, incoming, f, nodes)
    requires Spared(p, HiddenIds(list, false), nodes) && SameNodes(nodes, after, Ids(list) - p.visible)
    requires Agree(Flatten(list), p.visible, after, EvalList(e, list, w, done).nodes)
    requires Clean(h, Ids(list))
    ensures Trust(e, list, w, done, h, after)
    decreases list
  {
    if list != [] {
      var l := list[0];
      var v := VisitLayer(l, incoming, f);
      var inner := Walk(w.previous, None, w.nodes);
      CoveredAfter(e, p, list, w, done, incoming, f, nodes);
      CoveredInside(e, p, l, w, done, incoming, f, nodes);
      StepAgrees(e, p.visible, list, w, done, after);
      ShowsInside(p.visible, list);
      assert Clean(h, IdsOf(l)) && Clean(h, Ids(l.sublayers));
      assert HiddenIds(l.sublayers, !l.enabled) <= HiddenIn(l, false) <= HiddenIds(list, false);
      if l.enabled {
        UpdatedIsTrusted(e, p, l.sublayers, inner, done, incoming, f, nodes, h, after);
        EvalIsPresent(e, p.visible, l.sublayers, inner, done, after);
      } else {
        HiddenStaysTrusted(e, p, l.sublayers, inner, done, incoming, f, nodes, h, after);
      }
      UpdatedIsTrusted(e, p, list[1..], EvalStep(e, l, w, done), done + Expand(l), v.dirty, v.flags, nodes, h, after);
    }
  }

  /** A pass changes nodes of visible layers only. */
  lemma {:induction false} RebuildTouchesVisible<Img>(e: Engine<Img>, p: Pass, list: seq<Layer>, w: Walk<Img>)
    ensures SameOutside(w.nodes, RebuildList(e, p, list, w).nodes, VisibleIds(list, true))
    decreases list
  {
    if list != [] {
      RebuildStepTouchesVisible(e, p, list[0], w);
      RebuildTouchesVisible(e, p, list[1..], RebuildStep(e, p, list[0], w));
    }
  }

  lemma {:induction false} RebuildStepTouchesVisible<Img>(e: Engine<Img>, p: Pass, l: Layer, w: Walk<Img>)
    ensures SameOutside(w.nodes, RebuildStep(e, p, l, w).nodes, VisibleIn(l, true))
    decreases l
  {
    if l.enabled {
      assert l.id in VisibleIn(l, true) && VisibleIds(l.sublayers, true) <= VisibleIn(l, true);
      RebuildTouchesVisible(e, p, l.sublayers, Walk(w.previous, None, w.nodes));
    }
  }

  lemma UpdateKeepsValid<Img>(s: Session<Img>)
    requires Valid(s) && Safe(s)
    ensures Valid(Updated(s))
  {
    var t, p, w := Updated(s), MakePass(s), Walk(None, None, map[]);
    UpdateMatchesScratch(s);
    VisibleStayInside(s.root, true);
    RebuildTouchesVisible(s.engine, p, s.root, Walk(None, None, s.nodes));
    assert t.nodes.Keys <= Ids(s.root) by {
      forall x | x in t.nodes ensures x in Ids(s.root) { }
    }
    UpdatedIsTrusted(s.engine, p, s.root, w, [], false, s.flags, s.nodes, t.flags, t.nodes);
  }

  // -------------------------------------------------------------------------
  // Every other step keeps the session valid
  // -------------------------------------------------------------------------

  lemma ChangeKeepsValid<Img>(s: Session<Img>, id: int, e: Edit)
    requires Valid(s) && Legal(s, Change(id, e))
    ensures Valid(Next(s, Change(id, e)))
  {
    var t := Next(s, Change(id, e));
    EditShape(s.root, id, e);
    if e.ChangeInput? {
      InputChangeKeepsValid(s, id, e);
    } else if t != s {
      if !e.AddSublayer? {
        EditKeepsSettled(s.root, id, e, {}, Ids(s.root));
      }
      assert !e.AddSublayer? ==> NewIds(e) == {} && Ids(t.root) == Ids(s.root);
      if !s.force {
        assert Announced(id, e, t.flags, t.nodes);
        EditIsSame(s.root, id, e, t.flags, t.nodes);
        TrustTransfers(s.engine, s.root, t.root, Walk(None, None, map[]), [], s.flags, t.flags, s.nodes, t.nodes);
      }
    }
  }

  lemma {:induction false} InputChangeKeepsValid<Img>(s: Session<Img>, id: int, e: Edit)
    requires Valid(s) && e.ChangeInput? && id in Ids(s.root) && TakenUp(s, id, e)
    requires var r := EditList(s.root, id, e); InputsSettled(r, {}, Ids(r))
    ensures Valid(EditedBy(s, id, e))
  {
    var t := EditedBy(s, id, e);
    EditShape(s.root, id, e);
    assert NewIds(e) == {} && Ids(t.root) == Ids(s.root);
    if t != s && !s.force {
      if t.root == s.root {
        SameAsItself(s.root, t.flags, t.nodes);
      } else {
        InputIsSame(s.root, id, e, t.flags, t.nodes, {}, Ids(s.root));
      }
      TrustTransfers(s.engine, s.root, t.root, Walk(None, None, map[]), [], s.flags, t.flags, s.nodes, t.nodes);
    }
  }

  lemma AddLayerKeepsValid<Img>(s: Session<Img>, after: int, l: Layer)
    requires Valid(s) && Legal(s, AddLayer(after, l))
    ensures Valid(Next(s, AddLayer(after, l)))
  {
    var t := Next(s, AddLayer(after, l));
    InsertShape(s.root, after, l);
    BareShape(l);
    if t != s && !s.force {
      InsertIsSame(s.root, after, l, t.flags, t.nodes);
      TrustTransfers(s.engine, s.root, t.root, Walk(None, None, map[]), [], s.flags, t.flags, s.nodes, t.nodes);
    }
  }

  lemma RemoveKeepsValid<Img>(s: Session<Img>, id: int)
    requires Valid(s) && Legal(s, Remove(id))
    ensures Valid(Next(s, Remove(id)))
  {
    var t := Next(s, Remove(id));
    var gone, children := RemovedIds(s.root, id), ChildIds(s.root, id);
    RemoveShape(s.root, id);
    RemoveKeepsSettled(s.root, id, {}, Ids(s.root), {}, Ids(t.root));
    Bounds(s.root, id);
    ChildrenSurvive(s.root, id);
    assert t.flags.op <= Ids(t.root) && t.flags.dirty <= Ids(t.root) && t.flags.blend <= Ids(t.root);
    if !s.force {
      RemoveIsSame(s.root, id, {}, Ids(s.root), t.flags, t.nodes);
      TrustTransfers(s.engine, s.root, t.root, Walk(None, None, map[]), [], s.flags, t.flags, s.nodes, t.nodes);
    }
  }

  /** No child of a layer is removed with it. */
  lemma {:induction false} ChildrenSurvive(list: seq<Layer>, id: int)
    requires Distinct(list) && NoMaps(list) && id in Ids(list)
    ensures ChildIds(list, id) !! RemovedIds(list, id)
    decreases list
  {
    var l, rest := list[0], list[1..];
    if id in IdsOf(l) {
      RemoveShape(rest, id);
      if id != l.id {
        assert Part(l, id) == l.sublayers;
        ChildrenSurvive(l.sublayers, id);
        Bounds(l.sublayers, id);
        assert RemovedIds([], id) == {};
      }
    } else {
      ChildrenSurvive(rest, id);
      ForgetShape(l, id);
    }
  }

  lemma StepKeepsValid<Img>(s: Session<Img>, step: Step)
    requires Valid(s) && Legal(s, step)
    ensures Valid(Next(s, step))
  {
    match step
    case Change(id, e) => ChangeKeepsValid(s, id, e);
    case AddLayer(after, l) => AddLayerKeepsValid(s, after, l);
    case Remove(id) => RemoveKeepsValid(s, id);
    case SetLevel(_) =>
    case Update => UpdateKeepsValid(s);
  }

  // -------------------------------------------------------------------------
  // Runs
  // -------------------------------------------------------------------------

  predicate LegalRun<Img>(s: Session<Img>, steps: seq<Step>)
    decreases |steps|
  {
    steps != [] ==> Legal(s, steps[0]) && LegalRun(Next(s, steps[0]), steps[1..])
  }

  function Run<Img>(s: Session<Img>, steps: seq<Step>): Session<Img>
    requires LegalRun(s, steps)
    decreases |steps|
  {
    if steps == [] then s else Run(Next(s, steps[0]), steps[1..])
  }

  /** A pipeline that was never built, with every layer still to be computed. */
  function Start<Img>(e: Engine<Img>): Session<Img> {
    Session([], Flags({}, {}, {}), map[], false, e)
  }

  lemma {:induction false} RunKeepsValid<Img>(s: Session<Img>, steps: seq<Step>)
    requires Valid(s) && LegalRun(s, steps)
    ensures Valid(Run(s, steps))
    decreases |steps|
  {
    if steps != [] {
      StepKeepsValid(s, steps[0]);
      RunKeepsValid(Next(s, steps[0]), steps[1..]);
    }
  }

  /** Over every run of edits and updates from an empty document: an update at the end shows, for
      every visible layer and for the output, what a new pipeline with all caches empty and a
      forced rebuild shows. */
  lemma {:induction false} EveryRunMatchesFreshPipeline<Img>(e: Engine<Img>, steps: seq<Step>)
    requires LegalRun(Start(e), steps)
    ensures var s := Run(Start(e), steps);
            var anew := Rebuilt(s.(nodes := map[], force := true));
            && Faithful(s)
            && Rebuilt(s).out == anew.out
            && Agree(Flatten(s.root), VisibleIds(s.root, true), Rebuilt(s).nodes, anew.nodes)
  {
    assert Valid(Start(e));
    RunKeepsValid(Start(e), steps);
    var s := Run(Start(e), steps);
    var t := s.(nodes := map[], force := true);
    assert Valid(t);
    UpdateMatchesScratch(s);
    UpdateMatchesScratch(t);
    assert FromScratch(t) == FromScratch(s);
  }
}
