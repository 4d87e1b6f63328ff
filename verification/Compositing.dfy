/** What the layers of an updated document show, said of each layer on its own. */
module Compositing {
  import opened Basics
  import opened LayerTree
  import opened LayerQueries
  import opened Rebuild
  import opened EditSession

  // -------------------------------------------------------------------------
  // The equations of a composed document
  // -------------------------------------------------------------------------

  /** What lies below position k of a list: the blended image of the nearest enabled layer before it,
      or, if there is none, what lies below the whole list. */
  ghost function Beneath<Img>(list: seq<Layer>, k: nat, below: Option<Img>, nodes: Nodes<Img>): Option<Img>
    requires k <= |list|
  {
    if k == 0 then below
    else if !list[k - 1].enabled then Beneath(list, k - 1, below, nodes)
    else if list[k - 1].id in nodes then nodes[list[k - 1].id].blended
    else None
  }

  /** The image an explicit input stands for: one of those of a visible layer, or its blended image. */
  ghost function Chosen<Img>(i: Input, v: set<int>, nodes: Nodes<Img>): Option<Img> {
    if i.layer !in v || i.layer !in nodes then None
    else if i.blended then nodes[i.layer].blended
    else if 0 <= i.image < |nodes[i.layer].images| then Some(nodes[i.layer].images[i.image])
    else None
  }

  /** The layer can be the default input of the operation. */
  ghost predicate Suits<Img>(e: Engine<Img>, op: Operation, x: Layer, v: set<int>, nodes: Nodes<Img>) {
    x.id in v && x.id in nodes && e.accepts(op, nodes[x.id].colorspace)
  }

  /** The layer at position k, and none behind it, can be the default input. */
  ghost predicate LastToSuit<Img>(e: Engine<Img>, op: Operation, done: seq<Layer>, k: nat, v: set<int>,
                                  nodes: Nodes<Img>)
    requires k < |done|
  {
    Suits(e, op, done[k], v, nodes) && NoneSuits(e, op, done[k + 1..], v, nodes)
  }

  ghost predicate NoneSuits<Img>(e: Engine<Img>, op: Operation, done: seq<Layer>, v: set<int>, nodes: Nodes<Img>) {
    forall j :: 0 <= j < |done| ==> !Suits(e, op, done[j], v, nodes)
  }

  /** The image is the blended image of the last suitable layer, and none if there is no such layer. */
  ghost predicate IsDefault<Img>(e: Engine<Img>, op: Operation, done: seq<Layer>, v: set<int>, nodes: Nodes<Img>,
                                 image: Option<Img>) {
    || (NoneSuits(e, op, done, v, nodes) && image == None)
    || (exists k :: 0 <= k < |done| && LastToSuit(e, op, done, k, v, nodes) && image == nodes[done[k].id].blended)
  }

  /** The images a layer is given: a group what its last enabled layer shows; any other layer its
      explicit inputs, with the default input in front or in place of an unset first one. */
  ghost predicate Fed<Img>(e: Engine<Img>, v: set<int>, l: Layer, done: seq<Layer>, nodes: Nodes<Img>,
                           images: seq<Option<Img>>) {
    if l.sublayers != [] then
      images == [Beneath(l.sublayers, |l.sublayers|, None, nodes)]
    else
      && |images| == (if l.inputs == [] then 1 else |l.inputs|)
      && (if l.inputs == [] || l.inputs[0].layer < 0 then IsDefault(e, l.op, done, v, nodes, images[0])
          else images[0] == Chosen(l.inputs[0], v, nodes))
      && forall i :: 1 <= i < |images| ==> images[i] == Chosen(l.inputs[i], v, nodes)
  }

  /** Every enabled layer of the list holds what its operation makes of its inputs and of what lies
      below it, and shows the first of these images, blended with what lies below it if the operation
      has an opacity. */
  ghost predicate Composed<Img(!new)>(e: Engine<Img>, v: set<int>, list: seq<Layer>, below: Option<Img>,
                                      done: seq<Layer>, nodes: Nodes<Img>)
    decreases list
  {
    forall k :: 0 <= k < |list| && list[k].enabled ==>
      ComposedLayer(e, v, list[k], Beneath(list, k, below, nodes), done + Flatten(list[..k]), nodes)
  }

  ghost predicate ComposedLayer<Img(!new)>(e: Engine<Img>, v: set<int>, l: Layer, below: Option<Img>,
                                           done: seq<Layer>, nodes: Nodes<Img>)
    decreases l
  {
    && Composed(e, v, l.sublayers, below, done, nodes)
    && Held(nodes, l.id)
    && var n := nodes[l.id];
    && n.blended == Some(if e.hasOpacity(l.op) then e.blend(e.level, l.blender, below, n.images[0]) else n.images[0])
    && exists images :: Fed(e, v, l, done, nodes, images) && IsBuilt(n, e.build(e.level, l.op, below, images))
  }

  ghost predicate IsBuilt<Img>(n: Node<Img>, b: Built<Img>) {
    n.images == [b.first] + b.more && n.colorspace == b.colorspace
  }

  // -------------------------------------------------------------------------
  // Which layers are visible, and what comes before them
  // -------------------------------------------------------------------------

  /** A layer is visible exactly if it and all layers around it are enabled. */
  lemma {:induction false} VisibleExactly(list: seq<Layer>, parent: bool, id: int)
    requires Distinct(list) && id in Ids(list)
    ensures ContainerIds(list, id) <= Ids(list)
    ensures id in VisibleIds(list, parent) <==>
              && parent && Find(list, id).enabled
              && forall c :: c in ContainerIds(list, id) ==> Find(list, c).enabled
    decreases list
  {
    var l, rest := list[0], list[1..];
    Bounds(list, id);
    VisibleStayInside(rest, parent);
    if id in IdsOf(l) {
      VisibleInside(l, parent, id);
      if id != l.id {
        var part := Part(l, id);
        DistinctPart(l, id);
        Bounds(part, id);
        VisibleExactly(part, parent && l.enabled, id);
        forall c | c in ContainerIds(part, id) ensures Find(list, c) == Find(part, c) {
          SamePart(l, id, c);
        }
      }
    } else {
      VisibleInStays(l, parent);
      VisibleExactly(rest, parent, id);
      forall c | c in ContainerIds(rest, id) ensures Find(list, c) == Find(rest, c) {
        Bounds(rest, id);
      }
    }
  }

  lemma {:induction false} VisibleInside(l: Layer, parent: bool, id: int)
    requires DistinctLayer(l) && id in IdsOf(l)
    ensures id in VisibleIn(l, parent) <==>
              if id == l.id then parent && l.enabled else id in VisibleIds(Part(l, id), parent && l.enabled)
  {
    var on := parent && l.enabled;
    VisibleStayInside(l.sublayers, on);
    VisibleStayInside(l.imaps, on);
    VisibleStayInside(l.omaps, on);
  }

  /** Without masks, the input layers of a layer are those found before it in build order. */
  lemma {:induction false} InputsComeBefore(list: seq<Layer>, id: int)
    requires Distinct(list) && NoMaps(list) && id in Ids(list)
    ensures SeqIds(Parents(list, id).parents) == InputIds(list, id)
    decreases list
  {
    var l, rest := list[0], list[1..];
    ParentsFind(l.sublayers, id);
    ExpandNoMaps(l);
    if id in Ids(l.sublayers) {
      InputsComeBefore(l.sublayers, id);
    } else if id != l.id {
      InputsComeBefore(rest, id);
      ExpandIds(l);
      SeqIdsConcat(Expand(l), Parents(rest, id).parents);
    }
  }

  // -------------------------------------------------------------------------
  // Lists from the front
  // -------------------------------------------------------------------------

  lemma {:induction false} BeneathNext<Img>(list: seq<Layer>, k: nat, below: Option<Img>, nodes: Nodes<Img>)
    requires 1 <= k <= |list|
    ensures Beneath(list, k, below, nodes) == Beneath(list[1..], k - 1, Beneath(list, 1, below, nodes), nodes)
  {
    if k > 1 {
      BeneathNext(list, k - 1, below, nodes);
      assert list[1..][k - 2] == list[k - 1];
    }
  }

  lemma FlattenPart(done: seq<Layer>, list: seq<Layer>, k: nat)
    requires 1 <= k <= |list|
    ensures done + Flatten(list[..k]) == done + Expand(list[0]) + Flatten(list[1..][..k - 1])
  {
    assert list[..k][0] == list[0] && list[..k][1..] == list[1..][..k - 1];
    FlattenNext(done, list[..k]);
  }

  lemma {:induction false} ComposedNext<Img(!new)>(e: Engine<Img>, v: set<int>, list: seq<Layer>, below: Option<Img>,
                                                   done: seq<Layer>, nodes: Nodes<Img>)
    requires list != []
    ensures Composed(e, v, list, below, done, nodes) <==>
              && (list[0].enabled ==> ComposedLayer(e, v, list[0], below, done, nodes))
              && Composed(e, v, list[1..], Beneath(list, 1, below, nodes), done + Expand(list[0]), nodes)
  {
    var rest, below', done' := list[1..], Beneath(list, 1, below, nodes), done + Expand(list[0]);
    assert list[..0] == [] && done + [] == done;
    forall k | 1 <= k < |list|
      ensures Beneath(list, k, below, nodes) == Beneath(rest, k - 1, below', nodes)
      ensures done + Flatten(list[..k]) == done' + Flatten(rest[..k - 1])
      ensures list[k] == rest[k - 1]
    {
      BeneathNext(list, k, below, nodes);
      FlattenPart(done, list, k);
    }
    if Composed(e, v, list, below, done, nodes) {
      forall k | 0 <= k < |rest| && rest[k].enabled
        ensures ComposedLayer(e, v, rest[k], Beneath(rest, k, below', nodes), done' + Flatten(rest[..k]), nodes)
      {
        assert list[k + 1] == rest[k];
      }
    }
  }

  // -------------------------------------------------------------------------
  // The inputs that are fetched are those of the equations
  // -------------------------------------------------------------------------

  lemma {:induction false} FetchedAreChosen<Img>(p: Pass, inputs: seq<Input>, nodes: Nodes<Img>)
    ensures |FetchExplicit(p, inputs, nodes)| == |inputs|
    ensures forall i :: 0 <= i < |inputs| ==> FetchExplicit(p, inputs, nodes)[i] == Chosen(inputs[i], p.visible, nodes)
  {
    if inputs != [] {
      FetchedAreChosen(p, inputs[1..], nodes);
    }
  }

  lemma LastSuits<Img>(e: Engine<Img>, op: Operation, done: seq<Layer>, v: set<int>, nodes: Nodes<Img>,
                       image: Option<Img>)
    requires done != [] && Suits(e, op, done[|done| - 1], v, nodes)
    ensures IsDefault(e, op, done, v, nodes, image) <==> image == nodes[done[|done| - 1].id].blended
  {
    var n := |done| - 1;
    assert LastToSuit(e, op, done, n, v, nodes);
    forall k | 0 <= k < n ensures !LastToSuit(e, op, done, k, v, nodes) {
      assert done[k + 1..][n - k - 1] == done[n];
    }
  }

  lemma LastDoesNotSuit<Img>(e: Engine<Img>, op: Operation, done: seq<Layer>, v: set<int>, nodes: Nodes<Img>,
                             image: Option<Img>)
    requires done != [] && !Suits(e, op, done[|done| - 1], v, nodes)
    ensures IsDefault(e, op, done, v, nodes, image) <==> IsDefault(e, op, done[..|done| - 1], v, nodes, image)
  {
    var n := |done| - 1;
    NoneSuitsUntil(e, op, done, v, nodes);
    forall k | 0 <= k < n
      ensures LastToSuit(e, op, done, k, v, nodes) <==> LastToSuit(e, op, done[..n], k, v, nodes)
    {
      NoneSuitsUntil(e, op, done[k + 1..], v, nodes);
      assert done[k + 1..][..n - k - 1] == done[..n][k + 1..];
    }
  }

  lemma NoneSuitsUntil<Img>(e: Engine<Img>, op: Operation, done: seq<Layer>, v: set<int>, nodes: Nodes<Img>)
    requires done != [] && !Suits(e, op, done[|done| - 1], v, nodes)
    ensures NoneSuits(e, op, done, v, nodes) <==> NoneSuits(e, op, done[..|done| - 1], v, nodes)
  {
    var before := done[..|done| - 1];
    assert forall j :: 0 <= j < |before| ==> before[j] == done[j];
  }

  lemma {:induction false} FetchedIsDefault<Img>(e: Engine<Img>, op: Operation, done: seq<Layer>, v: set<int>,
                                                 nodes: Nodes<Img>, image: Option<Img>)
    ensures var s := DefaultSource(e, op, done, v, nodes);
            IsDefault(e, op, done, v, nodes, image) <==>
            image == if s.Some? && s.value in nodes then nodes[s.value].blended else None
    decreases |done|
  {
    if done != [] {
      if Suits(e, op, done[|done| - 1], v, nodes) {
        LastSuits(e, op, done, v, nodes, image);
      } else {
        LastDoesNotSuit(e, op, done, v, nodes, image);
        FetchedIsDefault(e, op, done[..|done| - 1], v, nodes, image);
      }
    }
  }

  lemma FetchedAreFed<Img>(e: Engine<Img>, p: Pass, l: Layer, done: seq<Layer>, nodes: Nodes<Img>,
                           images: seq<Option<Img>>)
    requires l.sublayers == [] && Parents(p.root, l.id).parents == done
    ensures Fed(e, p.visible, l, done, nodes, images) <==> images == FetchInputs(e, p, l, nodes)
  {
    var all := FetchInputs(e, p, l, nodes);
    FetchedAreChosen(p, l.inputs, nodes);
    if l.inputs != [] {
      FetchedAreChosen(p, l.inputs[1..], nodes);
      assert forall i :: 1 <= i < |l.inputs| ==> l.inputs[1..][i - 1] == l.inputs[i];
    }
    if images != [] {
      FetchedIsDefault(e, l.op, done, p.visible, nodes, images[0]);
    }
    if Fed(e, p.visible, l, done, nodes, images) {
      assert forall i :: 0 <= i < |all| ==> images[i] == all[i];
    }
  }

  // -------------------------------------------------------------------------
  // Evaluation from scratch is the solution of the equations
  // -------------------------------------------------------------------------

  /** Evaluation has come to a list, and the nodes agree with it so far. */
  ghost predicate Stands<Img>(p: Pass, list: seq<Layer>, w: Walk<Img>, done: seq<Layer>, nodes: Nodes<Img>) {
    && Placed(p, list, done) && SeqIds(done) !! Ids(list)
    && Agree(done, p.visible, nodes, w.nodes) && w.nodes.Keys <= p.visible
  }

  lemma StandsInside<Img>(p: Pass, list: seq<Layer>, w: Walk<Img>, done: seq<Layer>, nodes: Nodes<Img>)
    requires list != [] && list[0].enabled && Stands(p, list, w, done, nodes)
    ensures Stands(p, list[0].sublayers, Walk(w.previous, None, w.nodes), done, nodes)
  {
    PlacedInside(p, list, done);
    ExpandNoMaps(list[0]);
  }

  lemma {:induction false} StandsAfter<Img>(e: Engine<Img>, p: Pass, list: seq<Layer>, w: Walk<Img>, done: seq<Layer>,
                                            nodes: Nodes<Img>)
    requires list != [] && Stands(p, list, w, done, nodes)
    requires Agree(Expand(list[0]), p.visible, nodes, EvalStep(e, list[0], w, done).nodes)
    ensures Stands(p, list[1..], EvalStep(e, list[0], w, done), done + Expand(list[0]), nodes)
  {
    var l, next := list[0], EvalStep(e, list[0], w, done);
    PlacedAfter(p, list, done);
    EvalStepFrame(e, l, w, done);
    AgreeLater(done, p.visible, nodes, w.nodes, next.nodes, IdsOf(l));
    AgreeConcat(done, Expand(l), p.visible, nodes, next.nodes);
    NotYetVisited(list, done, w.nodes, next.nodes, w.nodes);
    EvalStepShows(e, l, w, done);
    VisibleInStays(l, true);
    forall x | x in VisibleIn(l, true) ensures x in p.visible {
      assert x in Ids(list);
    }
  }

  /** The equations of one layer, once those of what it contains hold. */
  lemma {:induction false} OwnEquations<Img(!new)>(e: Engine<Img>, p: Pass, list: seq<Layer>, w: Walk<Img>,
                                                   done: seq<Layer>, nodes: Nodes<Img>)
    requires list != [] && list[0].enabled && Stands(p, list, w, done, nodes)
    requires Composed(e, p.visible, list[0].sublayers, w.previous, done, nodes)
    requires var sub := list[0].sublayers;
             EvalList(e, sub, Walk(w.previous, None, w.nodes), done).out == Beneath(sub, |sub|, None, nodes)
    ensures ComposedLayer(e, p.visible, list[0], w.previous, done, nodes) <==>
              && list[0].id in nodes
              && nodes[list[0].id] == EvalLayer(e, list[0], w.previous, done, w.nodes)[list[0].id]
  {
    var l := list[0];
    PlacedInside(p, list, done);
    if l.sublayers == [] {
      InputsAgree(e, p, l, done, nodes, w.nodes);
      var images := FetchInputs(e, p, l, nodes);
      forall x: seq<Option<Img>> ensures Fed(e, p.visible, l, done, nodes, x) <==> x == images {
        FetchedAreFed(e, p, l, done, nodes, x);
      }
    } else {
      var images := [Beneath(l.sublayers, |l.sublayers|, None, nodes)];
      assert Fed(e, p.visible, l, done, nodes, images);
    }
  }

  /** Nodes that agree with evaluation from scratch satisfy the equations. */
  lemma {:induction false} EvaluatedIsComposed<Img(!new)>(e: Engine<Img>, p: Pass, list: seq<Layer>, w: Walk<Img>,
                                                          done: seq<Layer>, nodes: Nodes<Img>)
    requires Stands(p, list, w, done, nodes)
    requires Agree(Flatten(list), p.visible, nodes, EvalList(e, list, w, done).nodes)
    ensures Composed(e, p.visible, list, w.previous, done, nodes)
    ensures EvalList(e, list, w, done).out == Beneath(list, |list|, w.out, nodes)
    decreases list
  {
    if list != [] {
      var l, rest := list[0], list[1..];
      var next, all := EvalStep(e, l, w, done), EvalList(e, list, w, done).nodes;
      StepAgrees(e, p.visible, list, w, done, nodes);
      AgreeConcat(Expand(l), Flatten(rest), p.visible, nodes, all);
      EvalFrame(e, rest, next, done + Expand(l));
      ExpandIds(l);
      AgreeEarlier(Expand(l), p.visible, nodes, next.nodes, all, Ids(rest));
      if l.enabled {
        StandsInside(p, list, w, done, nodes);
        EvaluatedIsComposed(e, p, l.sublayers, Walk(w.previous, None, w.nodes), done, nodes);
        OwnEquations(e, p, list, w, done, nodes);
      }
      StandsAfter(e, p, list, w, done, nodes);
      EvaluatedIsComposed(e, p, rest, next, done + Expand(l), nodes);
      ComposedNext(e, p.visible, list, w.previous, done, nodes);
      BeneathNext(list, |list|, w.out, nodes);
    }
  }

  /** Nodes that satisfy the equations agree with evaluation from scratch. */
  lemma {:induction false} ComposedIsEvaluated<Img(!new)>(e: Engine<Img>, p: Pass, list: seq<Layer>, w: Walk<Img>,
                                                          done: seq<Layer>, nodes: Nodes<Img>)
    requires Stands(p, list, w, done, nodes)
    requires Composed(e, p.visible, list, w.previous, done, nodes)
    ensures Agree(Flatten(list), p.visible, nodes, EvalList(e, list, w, done).nodes)
    decreases list
  {
    if list != [] {
      var l, rest := list[0], list[1..];
      var next, all := EvalStep(e, l, w, done), EvalList(e, list, w, done).nodes;
      ComposedNext(e, p.visible, list, w.previous, done, nodes);
      ShowsInside(p.visible, list);
      ExpandIds(l);
      if l.enabled {
        ComposedLayerIsEvaluated(e, p, list, w, done, nodes);
      } else {
        NoneVisible(Expand(l), p.visible);
      }
      StandsAfter(e, p, list, w, done, nodes);
      ComposedIsEvaluated(e, p, rest, next, done + Expand(l), nodes);
      EvalFrame(e, rest, next, done + Expand(l));
      AgreeLater(Expand(l), p.visible, nodes, next.nodes, all, Ids(rest));
      AgreeConcat(Expand(l), Flatten(rest), p.visible, nodes, all);
    }
  }

  lemma {:induction false} ComposedLayerIsEvaluated<Img(!new)>(e: Engine<Img>, p: Pass, list: seq<Layer>, w: Walk<Img>,
                                                               done: seq<Layer>, nodes: Nodes<Img>)
    requires list != [] && list[0].enabled && Stands(p, list, w, done, nodes)
    requires ComposedLayer(e, p.visible, list[0], w.previous, done, nodes)
    ensures Agree(Expand(list[0]), p.visible, nodes, EvalStep(e, list[0], w, done).nodes)
    ensures list[0].id in nodes
    ensures nodes[list[0].id] == EvalLayer(e, list[0], w.previous, done, w.nodes)[list[0].id]
    decreases list[0]
  {
    var l, inner := list[0], Walk(w.previous, None, w.nodes);
    var sub, next := EvalList(e, l.sublayers, inner, done), EvalStep(e, l, w, done);
    StandsInside(p, list, w, done, nodes);
    ComposedIsEvaluated(e, p, l.sublayers, inner, done, nodes);
    EvaluatedIsComposed(e, p, l.sublayers, inner, done, nodes);
    OwnEquations(e, p, list, w, done, nodes);
    ExpandNoMaps(l);
    FlattenIds(l.sublayers);
    assert DistinctLayer(l);
    AgreeLater(Flatten(l.sublayers), p.visible, nodes, sub.nodes, next.nodes, {l.id});
    assert Agree([l], p.visible, nodes, next.nodes);
    AgreeConcat(Flatten(l.sublayers), [l], p.visible, nodes, next.nodes);
  }

  // -------------------------------------------------------------------------
  // What an updated document shows
  // -------------------------------------------------------------------------

  lemma StandsAtTheStart<Img>(s: Session<Img>, nodes: Nodes<Img>)
    requires Valid(s)
    ensures Stands(MakePass(s), s.root, Walk(None, None, map[]), [], nodes)
  {
    VisibleStayInside(s.root, true);
    WholeTreeLocated(s.root);
    assert SeqIds([]) == {};
  }

  /** The equations have one solution on the visible layers, and that is evaluation from scratch. */
  lemma {:induction false} ComposedExactlyIfFromScratch<Img(!new)>(s: Session<Img>, nodes: Nodes<Img>)
    requires Valid(s)
    ensures Composed(s.engine, VisibleIds(s.root, true), s.root, None, [], nodes) <==>
            Agree(Flatten(s.root), VisibleIds(s.root, true), nodes, FromScratch(s).nodes)
  {
    var p, w := MakePass(s), Walk(None, None, map[]);
    StandsAtTheStart(s, nodes);
    if Composed(s.engine, p.visible, s.root, None, [], nodes) {
      ComposedIsEvaluated(s.engine, p, s.root, w, [], nodes);
    }
    if Agree(Flatten(s.root), p.visible, nodes, FromScratch(s).nodes) {
      EvaluatedIsComposed(s.engine, p, s.root, w, [], nodes);
    }
  }

  /** After any update every visible layer holds and shows what it should, given what the layers it
      reads hold and show; the output is what the last enabled layer shows. */
  lemma UpdatedIsComposed<Img(!new)>(s: Session<Img>)
    requires Valid(s)
    ensures var nodes := Updated(s).nodes;
            && Composed(s.engine, VisibleIds(s.root, true), s.root, None, [], nodes)
            && Rebuilt(s).out == Beneath(s.root, |s.root|, None, nodes)
  {
    UpdateMatchesScratch(s);
    StandsAtTheStart(s, Updated(s).nodes);
    EvaluatedIsComposed(s.engine, MakePass(s), s.root, Walk(None, None, map[]), [], Updated(s).nodes);
  }

  /** The images of the enabled layers of a list, laid one over the other. */
  ghost function Stacked<Img>(e: Engine<Img>, list: seq<Layer>, below: Option<Img>, nodes: Nodes<Img>): Option<Img> {
    if list == [] then below
    else
      var l := list[0];
      if !l.enabled then Stacked(e, list[1..], below, nodes)
      else if !Held(nodes, l.id) then None
      else
        var image := nodes[l.id].images[0];
        Stacked(e, list[1..],
                Some(if e.hasOpacity(l.op) then e.blend(e.level, l.blender, below, image) else image), nodes)
  }

  lemma {:induction false} ComposedIsStacked<Img(!new)>(e: Engine<Img>, v: set<int>, list: seq<Layer>,
                                                        below: Option<Img>, done: seq<Layer>, nodes: Nodes<Img>)
    requires Composed(e, v, list, below, done, nodes)
    ensures Beneath(list, |list|, below, nodes) == Stacked(e, list, below, nodes)
  {
    if list != [] {
      ComposedNext(e, v, list, below, done, nodes);
      BeneathNext(list, |list|, below, nodes);
      ComposedIsStacked(e, v, list[1..], Beneath(list, 1, below, nodes), done + Expand(list[0]), nodes);
    }
  }

  /** The output of any update is the fold of blending over the images held for the enabled layers at
      the top of the document. */
  lemma OutputIsStacked<Img(!new)>(s: Session<Img>)
    requires Valid(s)
    ensures Rebuilt(s).out == Stacked(s.engine, s.root, None, Updated(s).nodes)
  {
    UpdatedIsComposed(s);
    ComposedIsStacked(s.engine, VisibleIds(s.root, true), s.root, None, [], Updated(s).nodes);
  }
}
