/** The guard of an update is exact: where it fails, the flags allow an image to go stale. */
module UnsafeUpdates {
  import opened Basics
  import opened LayerTree
  import opened DirtyFlags
  import opened LayerQueries
  import opened Rebuild
  import opened EditSession

  // -------------------------------------------------------------------------
  // A session in which one image is wrong
  // -------------------------------------------------------------------------

  const BLANK := Node([0], Some(0), 0)
  const SPOILT := Node([0], Some(1), 0)

  /** All images are zero. */
  function Constant(): Engine<int> {
    Engine(0,
           (level: int, op: Operation, previous: Option<int>, inputs: seq<Option<int>>) => Built(0, [], 0),
           (level: int, op: Operation, previous: Option<int>, image: int) => 0,
           (op: Operation, colorspace: int) => true,
           (op: Operation) => false)
  }

  /** What can be seen of two sessions without looking at images is the same. */
  ghost predicate Alike<A, B>(s: Session<A>, t: Session<B>) {
    && s.root == t.root && s.flags == t.flags && s.force == t.force && s.nodes.Keys == t.nodes.Keys
    && forall i :: Held(s.nodes, i) <==> Held(t.nodes, i)
  }

  function SpoiltNodes<Img>(nodes: Nodes<Img>, x: int): Nodes<int> {
    map i | i in nodes :: if nodes[i].images == [] then Node([], None, 0) else if i == x then SPOILT else BLANK
  }

  function Spoilt<Img>(s: Session<Img>, x: int): Session<int> {
    Session(s.root, s.flags, SpoiltNodes(s.nodes, x), s.force, Constant())
  }

  lemma {:induction false} ConstantNode(l: Layer, previous: Option<int>, done: seq<Layer>, nodes: Nodes<int>)
    ensures EvalLayer(Constant(), l, previous, done, nodes)[l.id] == BLANK
  {
    assert [0] + [] == [0];
  }

  lemma {:induction false} BlankStays(list: seq<Layer>, w: Walk<int>, done: seq<Layer>, x: int)
    requires x in w.nodes && w.nodes[x] == BLANK
    ensures var r := EvalList(Constant(), list, w, done).nodes; x in r && r[x] == BLANK
    decreases list
  {
    if list != [] {
      BlankStaysIn(list[0], w, done, x);
      BlankStays(list[1..], EvalStep(Constant(), list[0], w, done), done + Expand(list[0]), x);
    }
  }

  lemma {:induction false} BlankStaysIn(l: Layer, w: Walk<int>, done: seq<Layer>, x: int)
    requires x in w.nodes && w.nodes[x] == BLANK
    ensures var r := EvalStep(Constant(), l, w, done).nodes; x in r && r[x] == BLANK
    decreases l
  {
    ConstantNode(l, w.previous, done, w.nodes);
    BlankStays(l.sublayers, Walk(w.previous, None, w.nodes), done, x);
  }

  lemma {:induction false} VisibleAreBlank(list: seq<Layer>, w: Walk<int>, done: seq<Layer>, x: int)
    requires Distinct(list) && NoMaps(list) && x in VisibleIds(list, true)
    ensures var r := EvalList(Constant(), list, w, done).nodes; x in r && r[x] == BLANK
    decreases list
  {
    var l := list[0];
    var next := EvalStep(Constant(), l, w, done);
    if x in VisibleIn(l, true) {
      VisibleNoMaps(l);
      ConstantNode(l, w.previous, done, w.nodes);
      if x != l.id {
        VisibleAreBlank(l.sublayers, Walk(w.previous, None, w.nodes), done, x);
      }
      BlankStays(list[1..], next, done + Expand(l), x);
    } else {
      VisibleAreBlank(list[1..], next, done + Expand(l), x);
    }
  }

  // -------------------------------------------------------------------------
  // It may be trusted as far as the flags say
  // -------------------------------------------------------------------------

  ghost predicate SpoiltIs<Img>(nodes: Nodes<Img>, spoilt: Nodes<int>, x: int) {
    && (forall i :: Held(nodes, i) <==> Held(spoilt, i))
    && forall i :: Held(spoilt, i) ==> spoilt[i] == if i == x then SPOILT else BLANK
  }

  /** The walk marks x, if it meets it. */
  ghost predicate Marks(g: Flags, x: int, ids: set<int>) {
    x in ids ==> x in g.op || x in g.blend
  }

  lemma {:induction false} SpoiltIsTrusted<Img>(e: Engine<Img>, list: seq<Layer>, w: Walk<Img>, u: Walk<int>,
                                                done: seq<Layer>,
                                                f: Flags, nodes: Nodes<Img>, spoilt: Nodes<int>, x: int,
                                                before: set<int>, all: set<int>)
    requires Distinct(list) && NoMaps(list) && InputsSettled(list, before, all)
    requires before !! f.dirty && f.dirty <= all
    requires Trust(e, list, w, done, f, nodes) && SpoiltIs(nodes, spoilt, x)
    requires Marks(VisitList(list, false, f).flags, x, Ids(list))
    ensures Trust(Constant(), list, u, done, f, spoilt)
    decreases list
  {
    if list != [] {
      var l, rest := list[0], list[1..];
      var v := VisitLayer(l, false, f);
      VisitListGrows(rest, v.dirty, v.flags);
      assert Marks(v.flags, x, IdsOf(l));
      SpoiltLayerIsTrusted(e, l, w, u, done, f, nodes, spoilt, x, before, all);
      if Clean(f, IdsOf(l)) {
        CleanPartStaysIn(l, before, all, f);
        NotDirty(f, IdsOf(l));
        SpoiltIsTrusted(e, rest, EvalStep(e, l, w, done), EvalStep(Constant(), l, u, done), done + Expand(l),
                        f, nodes, spoilt, x, before + IdsOf(l), all);
      }
    }
  }

  lemma {:induction false} SpoiltLayerIsTrusted<Img>(e: Engine<Img>, l: Layer, w: Walk<Img>, u: Walk<int>,
                                                     done: seq<Layer>,
                                                     f: Flags, nodes: Nodes<Img>, spoilt: Nodes<int>, x: int,
                                                     before: set<int>, all: set<int>)
    requires DistinctLayer(l) && NoMapsIn(l)
    requires OwnInputsSettled(l.inputs, before, all) && InputsSettled(l.sublayers, before, all)
    requires before !! f.dirty && f.dirty <= all
    requires TrustLayer(e, l, w, done, f, nodes) && SpoiltIs(nodes, spoilt, x)
    requires Marks(VisitLayer(l, false, f).flags, x, IdsOf(l))
    ensures TrustLayer(Constant(), l, u, done, f, spoilt)
    decreases l
  {
    VisitPlain(l, false, f);
    assert l.id in IdsOf(l) && Ids(l.sublayers) <= IdsOf(l);
    SpoiltIsTrusted(e, l.sublayers, Walk(w.previous, None, w.nodes), Walk(u.previous, None, u.nodes), done,
                    f, nodes, spoilt, x, before, all);
    if Clean(f, Ids(l.sublayers)) && l.enabled {
      CleanPartStays(l.sublayers, before, all, f);
      assert !AnyInputDirty(l.inputs, f.dirty);
      ConstantNode(l, u.previous, done, u.nodes);
      if l.id !in f.op && Held(spoilt, l.id) {
        PresentIfHeld(l.sublayers, nodes, spoilt);
      }
    }
  }

  lemma {:induction false} PresentIfHeld<A, B>(list: seq<Layer>, a: Nodes<A>, b: Nodes<B>)
    requires Present(list, a) && forall i :: Held(a, i) <==> Held(b, i)
    ensures Present(list, b)
    decreases list
  {
    if list != [] {
      if list[0].enabled {
        PresentIfHeld(list[0].sublayers, a, b);
      }
      PresentIfHeld(list[1..], a, b);
    }
  }

  /** The image of a marked layer may be wrong. */
  lemma SpoiltIsValid<Img>(s: Session<Img>, x: int)
    requires Valid(s) && x in Ids(s.root)
    requires s.force || x in MakePass(s).op || x in MakePass(s).blend
    ensures Valid(Spoilt(s, x)) && Alike(s, Spoilt(s, x)) && MakePass(Spoilt(s, x)) == MakePass(s)
  {
    var t := Spoilt(s, x);
    if !s.force {
      SpoiltIsTrusted(s.engine, s.root, Walk(None, None, map[]), Walk(None, None, map[]), [],
                      s.flags, s.nodes, t.nodes, x, {}, Ids(s.root));
    }
  }

  // -------------------------------------------------------------------------
  // Switching on all layers around one
  // -------------------------------------------------------------------------

  /** The disabled layers around a layer, from the outside in. */
  function ClosedAround(list: seq<Layer>, x: int): seq<int>
    requires x in Ids(list)
  {
    var l := list[0];
    if x == l.id then []
    else if x in IdsOf(l) then (if l.enabled then [] else [l.id]) + ClosedAround(Part(l, x), x)
    else ClosedAround(list[1..], x)
  }

  lemma {:induction false} OpenOne(list: seq<Layer>, x: int, c: int)
    requires Distinct(list) && NoMaps(list) && x in Ids(list) && ClosedAround(list, x) != []
    requires c == ClosedAround(list, x)[0]
    ensures c in ContainerIds(list, x) && EditList(list, c, SetEnabled(true)) != list
    ensures Opened(list, EditList(list, c, SetEnabled(true)), x)
    decreases list
  {
    var l, rest := list[0], list[1..];
    var e := SetEnabled(true);
    var r := EditList(list, c, e);
    assert r[0] == EditLayer(l, c, e) && r[1..] == EditList(rest, c, e);
    if x in IdsOf(l) {
      assert Part(l, x) == l.sublayers;
      EditLayerShape(l, c, e);
      if l.enabled {
        OpenOne(l.sublayers, x, c);
        Bounds(l.sublayers, x);
        assert r[0].sublayers == EditList(l.sublayers, c, e);
      }
      assert Part(r[0], x) == r[0].sublayers;
    } else {
      OpenOne(rest, x, c);
      Bounds(rest, x);
      EditLayerShape(l, c, e);
    }
  }

  /** The first disabled layer around x is enabled, and nothing else is changed around x. */
  ghost predicate Opened(list: seq<Layer>, r: seq<Layer>, x: int)
    requires x in Ids(list) && ClosedAround(list, x) != []
  {
    && x in Ids(r)
    && ClosedAround(r, x) == ClosedAround(list, x)[1..] && ContainerIds(r, x) == ContainerIds(list, x)
    && Find(r, x).enabled == Find(list, x).enabled
  }

  lemma {:induction false} OpenIsVisible(list: seq<Layer>, x: int)
    requires Distinct(list) && NoMaps(list) && x in Ids(list) && ClosedAround(list, x) == [] && Find(list, x).enabled
    ensures x in VisibleIds(list, true)
    decreases list
  {
    var l := list[0];
    if x != l.id {
      if x in IdsOf(l) {
        assert Part(l, x) == l.sublayers;
        OpenIsVisible(l.sublayers, x);
      } else {
        OpenIsVisible(list[1..], x);
      }
    }
  }

  lemma {:induction false} HiddenIsEnabled(list: seq<Layer>, hidden: bool, x: int)
    requires Distinct(list) && NoMaps(list) && x in HiddenIds(list, hidden)
    ensures x in Ids(list) && Find(list, x).enabled
    ensures !hidden ==> x !in VisibleIds(list, true)
    decreases list
  {
    var l, rest := list[0], list[1..];
    VisibleInStays(l, true);
    VisibleStayInside(rest, true);
    VisibleNoMaps(l);
    assert HiddenIds([], hidden || !l.enabled) == {};
    if x in HiddenIn(l, hidden) {
      if x in HiddenIds(l.sublayers, hidden || !l.enabled) {
        HiddenIsEnabled(l.sublayers, hidden || !l.enabled, x);
        assert Part(l, x) == l.sublayers;
      }
    } else {
      HiddenIsEnabled(rest, hidden, x);
    }
  }

  /** Only layers around x are marked, and they for rebuilding. */
  ghost predicate OpenedAround<Img>(s: Session<Img>, x: int) {
    && Distinct(s.root) && NoMaps(s.root) && x in Ids(s.root)
    && s.flags.dirty == {} && s.flags.blend == {} && s.flags.op <= ContainerIds(s.root, x)
  }

  lemma {:induction false} OpenAll<Img>(s: Session<Img>, x: int) returns (steps: seq<Step>)
    requires OpenedAround(s, x)
    ensures LegalRun(s, steps)
    ensures var u := Run(s, steps);
            && OpenedAround(u, x) && ClosedAround(u.root, x) == []
            && Find(u.root, x).enabled == Find(s.root, x).enabled
            && u.nodes == s.nodes && u.force == s.force && u.engine == s.engine
    decreases |ClosedAround(s.root, x)|
  {
    if ClosedAround(s.root, x) == [] {
      steps := [];
    } else {
      var c := ClosedAround(s.root, x)[0];
      var step := Change(c, SetEnabled(true));
      OpenOne(s.root, x, c);
      Bounds(s.root, x);
      EditShape(s.root, c, SetEnabled(true));
      var more := OpenAll(Next(s, step), x);
      steps := [step] + more;
      assert steps[0] == step && steps[1..] == more;
    }
  }

  // -------------------------------------------------------------------------
  // The next update passes by
  // -------------------------------------------------------------------------

  /** While only layers around x are marked, the walk does not mark x. */
  lemma {:induction false} WalkPassesBy(list: seq<Layer>, x: int, f: Flags)
    requires Distinct(list) && NoMaps(list) && x in Ids(list)
    requires f.dirty == {} && f.blend == {} && f.op * Ids(list) <= ContainerIds(list, x)
    ensures var g := VisitList(list, false, f).flags; x !in g.op && x !in g.blend
    decreases list
  {
    var l, rest := list[0], list[1..];
    var v := VisitLayer(l, false, f);
    Bounds(list, x);
    if x in IdsOf(l) {
      VisitListGrows(rest, v.dirty, v.flags);
      if x == l.id {
        CleanLayer(l, f);
      } else {
        assert Part(l, x) == l.sublayers;
        WalkPassesBy(l.sublayers, x, f);
        VisitPlain(l, false, f);
      }
    } else {
      Bounds(rest, x);
      CleanLayer(l, f);
      WalkPassesBy(rest, x, f);
    }
  }

  /** Where the guard fails at a layer x, the image of x may have been wrong, and after switching on
      what surrounds it, an update shows it still. */
  lemma UnsafeGoesStale<Img>(s: Session<Img>, x: int) returns (steps: seq<Step>)
    requires Valid(s) && x in HiddenIds(s.root, false) && Held(s.nodes, x)
    requires s.force || x in MakePass(s).op || x in MakePass(s).blend
    ensures var t := Spoilt(s, x);
            && Valid(t) && Alike(s, t)
            && LegalRun(Updated(t), steps) && !Faithful(Run(Updated(t), steps))
  {
    var t := Spoilt(s, x);
    HiddenIsEnabled(s.root, false, x);
    SpoiltIsValid(s, x);
    RebuildTouchesVisible(t.engine, MakePass(t), t.root, Walk(None, None, t.nodes));
    var t' := Updated(t);
    assert t'.flags == Flags({}, {}, {});
    steps := OpenAll(t', x);
    var u := Run(t', steps);
    WalkPassesBy(u.root, x, u.flags);
    UnmarkedStays(u.engine, MakePass(u), u.root, Walk(None, None, u.nodes), x);
    OpenIsVisible(u.root, x);
    VisibleAreBlank(u.root, Walk(None, None, map[]), [], x);
    FlattenIds(u.root);
    var i :| 0 <= i < |Flatten(u.root)| && Flatten(u.root)[i].id == x;
  }

  /** The guard of an update is exact.  It holds if and only if, whatever the images are that go with
      the same tree, flags and set of images held, and may be trusted as far as the flags say,
      every legal run after the update ends in a document that an update shows right. */
  lemma SafeExactlyIfNeverStale<Img>(s: Session<Img>)
    requires Valid(s)
    ensures Safe(s) <==>
            forall t: Session<int>, steps: seq<Step> ::
              Valid(t) && Alike(s, t) && LegalRun(Updated(t), steps) ==> Faithful(Run(Updated(t), steps))
  {
    if Safe(s) {
      forall t: Session<int>, steps: seq<Step> | Valid(t) && Alike(s, t) && LegalRun(Updated(t), steps)
        ensures Faithful(Run(Updated(t), steps))
      {
        assert MakePass(t) == MakePass(s) && Safe(t);
        UpdateKeepsValid(t);
        RunKeepsValid(Updated(t), steps);
        UpdateMatchesScratch(Run(Updated(t), steps));
      }
    } else {
      var x :| x in HiddenIds(s.root, false) && Held(s.nodes, x)
               && (s.force || x in MakePass(s).op || x in MakePass(s).blend);
      var steps := UnsafeGoesStale(s, x);
    }
  }
}
