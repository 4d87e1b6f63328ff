/** When a changed explicit input shows. */
module InputChanges {
  import opened Basics
  import opened LayerTree
  import opened DirtyFlags
  import opened LayerQueries
  import opened Rebuild
  import opened EditSession
  import opened UnsafeUpdates

  /** The tree may take this input. */
  predicate Settles(root: seq<Layer>, id: int, c: Edit) {
    var r := EditList(root, id, c);
    c.ChangeInput? && id in Ids(root) && InputsSettled(r, {}, Ids(r))
  }

  /** Setting an explicit input marks the layer dirty and nothing else.  Unless the change is taken up
      for another reason, the next update keeps the images that are held for the layer. */
  lemma InputChangeIsIgnored<Img>(s: Session<Img>, id: int, c: Edit)
    requires c.ChangeInput? && id in Ids(s.root) && !TakenUp(s, id, c)
    ensures Held(s.nodes, id)
    ensures ImagesKept(MakePass(EditedBy(s, id, c)), id, s.nodes, Rebuilt(EditedBy(s, id, c)).nodes)
  {
    var t := EditedBy(s, id, c);
    UnmarkedStays(t.engine, MakePass(t), t.root, Walk(None, None, t.nodes), id);
  }

  // -------------------------------------------------------------------------
  // The exact condition, for given images
  // -------------------------------------------------------------------------

  /** The images held for a layer are those of these nodes. */
  ghost predicate HeldFits<Img>(a: Nodes<Img>, b: Nodes<Img>, id: int) {
    Held(a, id) && id in b && a[id].images == b[id].images && a[id].colorspace == b[id].colorspace
  }

  lemma {:induction false} StaysVisible(list: seq<Layer>, id: int, c: Edit)
    requires Distinct(list) && NoMaps(list) && c.ChangeInput? && id in VisibleIds(list, true)
    ensures id in Ids(list) && id in VisibleIds(EditList(list, id, c), true)
    decreases list
  {
    var l, rest := list[0], list[1..];
    var r := EditList(list, id, c);
    assert r[0] == EditLayer(l, id, c) && r[1..] == EditList(rest, id, c);
    VisibleInStays(l, true);
    VisibleStayInside(rest, true);
    VisibleNoMaps(l);
    if id in VisibleIn(l, true) {
      EditLayerShape(l, id, c);
      VisibleNoMaps(r[0]);
      if id != l.id {
        StaysVisible(l.sublayers, id, c);
      }
    } else {
      StaysVisible(rest, id, c);
    }
  }

  /** If the images held for the layer are the right ones after all, the session may still be
      trusted. */
  lemma {:induction false} HeldIsTrusted<Img>(e: Engine<Img>, list: seq<Layer>, w: Walk<Img>, done: seq<Layer>,
                                              f: Flags, g: Flags, nodes: Nodes<Img>, id: int, c: Edit)
    requires Distinct(list) && NoMaps(list) && c.ChangeInput? && id in VisibleIds(list, true)
    requires Trust(e, list, w, done, f, nodes) && FlagsGrow(f, g, Ids(list)) && id in g.dirty
    requires HeldFits(nodes, EvalList(e, EditList(list, id, c), w, done).nodes, id)
    ensures Trust(e, EditList(list, id, c), w, done, g, nodes)
    decreases list
  {
    var l, rest := list[0], list[1..];
    var r := EditList(list, id, c);
    assert r[0] == EditLayer(l, id, c) && r[1..] == EditList(rest, id, c);
    EditLayerShape(l, id, c);
    EditShape(rest, id, c);
    VisibleInStays(l, true);
    VisibleStayInside(rest, true);
    var next := EvalStep(e, r[0], w, done);
    if id in IdsOf(l) {
      EvalFrame(e, r[1..], next, done + Expand(r[0]));
      HeldIsTrustedIn(e, l, w, done, f, g, nodes, id, c);
      assert Flagged(g, id) && id in IdsOf(r[0]);
    } else {
      SameAsItself(l.sublayers, g, nodes);
      LayerTrustTransfers(e, l, l, w, done, f, g, nodes, nodes);
      if Clean(g, IdsOf(l)) {
        assert Clean(f, IdsOf(l));
        HeldIsTrusted(e, rest, next, done + Expand(l), f, g, nodes, id, c);
      }
    }
  }

  lemma {:induction false} HeldIsTrustedIn<Img>(e: Engine<Img>, l: Layer, w: Walk<Img>, done: seq<Layer>,
                                                f: Flags, g: Flags, nodes: Nodes<Img>, id: int, c: Edit)
    requires DistinctLayer(l) && NoMapsIn(l) && c.ChangeInput? && id in VisibleIn(l, true)
    requires TrustLayer(e, l, w, done, f, nodes) && FlagsGrow(f, g, IdsOf(l)) && id in g.dirty
    requires HeldFits(nodes, EvalStep(e, EditLayer(l, id, c), w, done).nodes, id)
    ensures TrustLayer(e, EditLayer(l, id, c), w, done, g, nodes)
    decreases l
  {
    var m := EditLayer(l, id, c);
    var inner := Walk(w.previous, None, w.nodes);
    VisibleNoMaps(l);
    VisibleInStays(l, true);
    assert l.id in IdsOf(l) && Ids(l.sublayers) <= IdsOf(l);
    if id == l.id {
      SameAsItself(l.sublayers, g, nodes);
      TrustTransfers(e, l.sublayers, l.sublayers, inner, done, f, g, nodes, nodes);
      if Clean(g, Ids(l.sublayers)) {
        assert Clean(f, Ids(l.sublayers));
        OwnIsTrusted(e, l, m, w, done, f, g, nodes);
      }
    } else {
      assert EditList([], id, c) == [];
      VisibleStayInside(l.sublayers, true);
      EditShape(l.sublayers, id, c);
      NodeInside(e, m, w, done, id);
      HeldIsTrusted(e, l.sublayers, inner, done, f, g, nodes, id, c);
      assert Flagged(g, id) && id in Ids(m.sublayers);
    }
  }

  lemma {:induction false} NodeInside<Img>(e: Engine<Img>, l: Layer, w: Walk<Img>, done: seq<Layer>, x: int)
    requires l.enabled && x in Ids(l.sublayers) && x != l.id
    ensures var a := EvalStep(e, l, w, done).nodes;
            var b := EvalList(e, l.sublayers, Walk(w.previous, None, w.nodes), done).nodes;
            (x in a <==> x in b) && (x in a ==> a[x] == b[x])
  {
    assert l.sublayers != [] by { assert Ids([]) == {}; }
  }

  lemma {:induction false} OwnIsTrusted<Img>(e: Engine<Img>, l: Layer, m: Layer, w: Walk<Img>, done: seq<Layer>,
                                             f: Flags, g: Flags, nodes: Nodes<Img>)
    requires m == l.(inputs := m.inputs) && TrustOwn(e, l, w, done, f, nodes)
    requires (l.id in f.op ==> l.id in g.op) && (l.id in f.blend ==> l.id in g.blend)
    requires HeldFits(nodes, EvalLayer(e, m, w.previous, done, w.nodes), l.id)
    ensures TrustOwn(e, m, w, done, g, nodes)
  {
    var n, m' := EvalLayer(e, l, w.previous, done, w.nodes)[l.id], EvalLayer(e, m, w.previous, done, w.nodes)[l.id];
    assert n.blended == Some(Blended(e, l, w.previous, n.images[0]));
    assert m'.blended == Some(Blended(e, m, w.previous, m'.images[0]));
  }

  /** In every sound session, whatever else is marked: the next update after a change of an input is
      right if and only if the change is taken up, or the images held for the layer are those that
      the new inputs give. */
  lemma InputChangeExactly<Img>(s: Session<Img>, id: int, c: Edit)
    requires Valid(s) && Settles(s.root, id, c) && id in VisibleIds(s.root, true)
    ensures var t := EditedBy(s, id, c);
            Faithful(t) <==> TakenUp(s, id, c) || HeldFits(s.nodes, FromScratch(t).nodes, id)
  {
    var t := EditedBy(s, id, c);
    StaysVisible(s.root, id, c);
    EditShape(s.root, id, c);
    if TakenUp(s, id, c) {
      InputChangeKeepsValid(s, id, c);
      UpdateMatchesScratch(t);
    } else {
      InputChangeIsIgnored(s, id, c);
      if HeldFits(s.nodes, FromScratch(t).nodes, id) {
        HeldIsTrusted(s.engine, s.root, Walk(None, None, map[]), [], s.flags, t.flags, s.nodes, id, c);
        assert NewIds(c) == {} && Ids(t.root) == Ids(s.root);
        assert Valid(t);
        UpdateMatchesScratch(t);
      }
      if Faithful(t) {
        AgreesAt(t.root, VisibleIds(t.root, true), Rebuilt(t).nodes, FromScratch(t).nodes, id);
      }
    }
  }

  lemma {:induction false} AgreesAt<Img>(root: seq<Layer>, v: set<int>, a: Nodes<Img>, b: Nodes<Img>, id: int)
    requires Agree(Flatten(root), v, a, b) && id in v && id in Ids(root)
    ensures id in a && id in b && a[id] == b[id]
  {
    FlattenIds(root);
    var i :| 0 <= i < |Flatten(root)| && Flatten(root)[i].id == id;
  }

  // -------------------------------------------------------------------------
  // The exact condition, for all images that the flags allow
  // -------------------------------------------------------------------------

  /** An image is the number of inputs of its layer. */
  function InputCounter(): Engine<int> {
    Engine(0,
           (level: int, op: Operation, previous: Option<int>, inputs: seq<Option<int>>) => Built(|inputs|, [], 0),
           (level: int, op: Operation, previous: Option<int>, image: int) => 0,
           (op: Operation, colorspace: int) => true,
           (op: Operation) => false)
  }

  /** A group is given one image, a layer without explicit inputs the default one. */
  function InputCount(l: Layer): int {
    if l.sublayers != [] then 1 else Max(1, |l.inputs|)
  }

  function CountNode(l: Layer): Node<int> {
    Node([InputCount(l)], Some(InputCount(l)), 0)
  }

  lemma {:induction false} OneImageEach<Img>(inputs: seq<Input>, done: seq<Layer>, nodes: Nodes<Img>)
    ensures |ExplicitImages(inputs, done, nodes)| == |inputs|
  {
    if inputs != [] {
      OneImageEach(inputs[1..], done, nodes);
    }
  }

  lemma {:induction false} CountedNode(l: Layer, previous: Option<int>, done: seq<Layer>, nodes: Nodes<int>)
    ensures EvalLayer(InputCounter(), l, previous, done, nodes)[l.id] == CountNode(l)
  {
    OneImageEach(l.inputs, done, nodes);
    if l.inputs != [] {
      OneImageEach(l.inputs[1..], done, nodes);
    }
    assert [InputCount(l)] + [] == [InputCount(l)];
  }

  /** Evaluation counts the inputs of every visible layer. */
  lemma {:induction false} VisibleAreCounted(list: seq<Layer>, w: Walk<int>, done: seq<Layer>, x: int)
    requires Distinct(list) && NoMaps(list) && x in VisibleIds(list, true)
    ensures x in Ids(list)
    ensures var r := EvalList(InputCounter(), list, w, done).nodes; x in r && r[x] == CountNode(Find(list, x))
    decreases list
  {
    var l, rest := list[0], list[1..];
    var next := EvalStep(InputCounter(), l, w, done);
    VisibleInStays(l, true);
    VisibleStayInside(rest, true);
    if x in VisibleIn(l, true) {
      VisibleNoMaps(l);
      CountedNode(l, w.previous, done, w.nodes);
      EvalFrame(InputCounter(), rest, next, done + Expand(l));
      if x != l.id {
        VisibleStayInside(l.sublayers, true);
        assert Part(l, x) == l.sublayers;
        VisibleAreCounted(l.sublayers, Walk(w.previous, None, w.nodes), done, x);
        NodeInside(InputCounter(), l, w, done, x);
      }
    } else {
      VisibleAreCounted(rest, next, done + Expand(l), x);
    }
  }

  /** What is held for the layers of the list is their number of inputs. */
  ghost predicate HoldsCounts(list: seq<Layer>, nodes: Nodes<int>) {
    forall x :: x in Ids(list) && Held(nodes, x) ==> nodes[x] == CountNode(Find(list, x))
  }

  lemma {:induction false} HoldsCountsIn(list: seq<Layer>, nodes: Nodes<int>)
    requires list != [] && Distinct(list) && NoMaps(list) && HoldsCounts(list, nodes)
    ensures Held(nodes, list[0].id) ==> nodes[list[0].id] == CountNode(list[0])
    ensures HoldsCounts(list[0].sublayers, nodes) && HoldsCounts(list[1..], nodes)
  {
    var l, rest := list[0], list[1..];
    ExpandNoMaps(l);
    assert l.id in Ids(list) && Find(list, l.id) == l;
    forall x | x in Ids(l.sublayers) ensures x in Ids(list) && Find(list, x) == Find(l.sublayers, x) {
      assert x in IdsOf(l) && x != l.id;
    }
    forall x | x in Ids(rest) ensures x in Ids(list) && Find(list, x) == Find(rest, x) {
      assert x !in IdsOf(l);
      assert l.id in IdsOf(l);
    }
  }

  lemma {:induction false} CountsAreTrusted<Img>(e: Engine<Img>, list: seq<Layer>, w: Walk<Img>, u: Walk<int>,
                                                 done: seq<Layer>, f: Flags, nodes: Nodes<Img>, counts: Nodes<int>)
    requires Distinct(list) && NoMaps(list) && Trust(e, list, w, done, f, nodes)
    requires HoldsCounts(list, counts) && forall i :: Held(nodes, i) <==> Held(counts, i)
    ensures Trust(InputCounter(), list, u, done, f, counts)
    decreases list
  {
    if list != [] {
      var l := list[0];
      HoldsCountsIn(list, counts);
      CountsAreTrusted(e, l.sublayers, Walk(w.previous, None, w.nodes), Walk(u.previous, None, u.nodes), done,
                       f, nodes, counts);
      if Clean(f, Ids(l.sublayers)) && l.enabled {
        CountedNode(l, u.previous, done, u.nodes);
        if l.id !in f.op && Held(counts, l.id) {
          PresentIfHeld(l.sublayers, nodes, counts);
        }
      }
      if Clean(f, IdsOf(l)) {
        CountsAreTrusted(e, list[1..], EvalStep(e, l, w, done), EvalStep(InputCounter(), l, u, done),
                         done + Expand(l), f, nodes, counts);
      }
    }
  }

  /** A session with the same tree, flags and set of images held, in which images count inputs. */
  function Counted<Img>(s: Session<Img>): Session<int>
    requires s.nodes.Keys <= Ids(s.root)
  {
    var counts := map i | i in s.nodes ::
      if s.nodes[i].images == [] then Node([], None, 0) else CountNode(Find(s.root, i));
    Session(s.root, s.flags, counts, s.force, InputCounter())
  }

  lemma CountedIsValid<Img>(s: Session<Img>)
    requires Valid(s)
    ensures Valid(Counted(s)) && Alike(s, Counted(s))
  {
    var t := Counted(s);
    if !s.force {
      CountsAreTrusted(s.engine, s.root, Walk(None, None, map[]), Walk(None, None, map[]), [],
                       s.flags, s.nodes, t.nodes);
    }
  }

  lemma {:induction false} SetInputLength(inputs: seq<Input>, n: nat, i: Input)
    ensures |SetInput(inputs, n, i)| == Max(|inputs|, n + 1)
    decreases n - |inputs|
  {
    if |inputs| < n {
      SetInputLength(inputs + [Input(-1, -1, true)], n, i);
    }
  }

  lemma {:induction false} EditedFound(list: seq<Layer>, id: int, c: Edit)
    requires Distinct(list) && NoMaps(list) && c.ChangeInput? && id in Ids(list)
    ensures id in Ids(EditList(list, id, c)) && Find(EditList(list, id, c), id) == ApplyEdit(Find(list, id), c)
    decreases list
  {
    var l, rest := list[0], list[1..];
    var r := EditList(list, id, c);
    assert r[0] == EditLayer(l, id, c) && r[1..] == EditList(rest, id, c);
    EditLayerShape(l, id, c);
    EditShape(rest, id, c);
    if id != l.id {
      if id in IdsOf(l) {
        assert Part(l, id) == l.sublayers;
        EditedFound(l.sublayers, id, c);
        assert Part(r[0], id) == r[0].sublayers;
      } else {
        EditedFound(rest, id, c);
      }
    }
  }

  /** The change gives the layer more inputs than it has. */
  predicate Grows(l: Layer, c: Edit) {
    c.ChangeInput? && c.position >= Max(1, |l.inputs|)
  }

  /** Where a visible layer is given another input and the change is not taken up, the images that go
      with the flags can be such that the next update is wrong. */
  lemma {:induction false} IgnoredInputGoesStale<Img>(s: Session<Img>, id: int, c: Edit)
    requires Valid(s) && Settles(s.root, id, c) && id in VisibleIds(s.root, true)
    requires Grows(Find(s.root, id), c) && !TakenUp(s, id, c)
    ensures Valid(Counted(s)) && Alike(s, Counted(s)) && !Faithful(EditedBy(Counted(s), id, c))
  {
    var t, l := Counted(s), Find(s.root, id);
    CountedIsValid(s);
    var u := EditedBy(t, id, c);
    assert MakePass(u) == MakePass(EditedBy(s, id, c)) && !TakenUp(t, id, c);
    InputChangeExactly(t, id, c);
    StaysVisible(s.root, id, c);
    EditShape(s.root, id, c);
    VisibleAreCounted(u.root, Walk(None, None, map[]), [], id);
    EditedFound(s.root, id, c);
    SetInputLength(l.inputs, c.position, c.input);
    assert t.nodes[id] == CountNode(l);
    assert InputCount(ApplyEdit(l, c)) == c.position + 1 > InputCount(l);
  }

  /** For a visible layer that is given another input, the guard is exact: the change is taken up if and
      only if, whatever the images are that go with the same tree, flags and set of images held, and
      may be trusted as far as the flags say, the next update is right. */
  lemma {:induction false} TakenUpExactlyIfNeverStale<Img>(s: Session<Img>, id: int, c: Edit)
    requires Valid(s) && Settles(s.root, id, c) && id in VisibleIds(s.root, true) && Grows(Find(s.root, id), c)
    ensures TakenUp(s, id, c) <==>
            forall t: Session<int> :: Valid(t) && Alike(s, t) ==> Faithful(EditedBy(t, id, c))
  {
    if TakenUp(s, id, c) {
      forall t: Session<int> | Valid(t) && Alike(s, t) ensures Faithful(EditedBy(t, id, c)) {
        assert MakePass(EditedBy(t, id, c)) == MakePass(EditedBy(s, id, c)) && TakenUp(t, id, c);
        InputChangeKeepsValid(t, id, c);
        UpdateMatchesScratch(EditedBy(t, id, c));
      }
    } else {
      IgnoredInputGoesStale(s, id, c);
    }
  }

  // -------------------------------------------------------------------------
  // A concrete document
  // -------------------------------------------------------------------------

  const NO_OP := Operation("plain", [], false)
  const READER := Layer(0, "reader", true, true, true, false, NO_OP, NO_OP, [], [], [], [])
  const SECOND := ChangeInput(1, Input(7, 0, true))

  function OneReader(): Session<int> {
    Session([READER], Flags({}, {}, {}), map[0 := Node([1], Some(1), 0)], false, InputCounter())
  }

  /** An up-to-date document of one layer, which is shown with the image of one input after it was given
      a second one. */
  lemma ChangedInputGoesStale()
    ensures var s := OneReader();
            && Valid(s)
            && !Faithful(s.(root := EditList(s.root, 0, SECOND), flags := Raised(s.flags, 0, SECOND)))
  {
    var s := OneReader();
    var l := READER.(inputs := [Input(-1, -1, true), Input(7, 0, true)]);
    OneLayer(READER);
    OneLayer(l);
    assert SetInput([], 1, Input(7, 0, true)) == l.inputs;
    assert EditList([READER], 0, SECOND) == [l];
    CountedNode(READER, None, [], map[]);
    assert Valid(s);
    assert Counted(s).nodes == s.nodes;
    IgnoredInputGoesStale(s, 0, SECOND);
  }

  lemma OneLayer(l: Layer)
    requires l == READER.(inputs := l.inputs)
    ensures Ids([l]) == {0} && Distinct([l]) && NoMaps([l]) && VisibleIds([l], true) == {0} && Find([l], 0) == l
    ensures OwnInputsSettled(l.inputs, {}, {0}) ==> InputsSettled([l], {}, {0})
    ensures 0 !in VisitList([l], false, Flags({0}, {}, {})).flags.op || AnyInputDirty(l.inputs, {0})
  {
    assert [l][1..] == [];
    assert Ids([]) == {} && VisibleIds([], true) == {};
    var f := Flags({0}, {}, {});
    VisitPlain(l, false, f);
    var v := VisitLayer(l, false, f);
    assert VisitList([l], false, f) == VisitList([l][1..], v.dirty, v.flags);
  }
}
