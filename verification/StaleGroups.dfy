/** Concrete runs on which a cached image goes stale. */
module StaleGroups {
  import opened Basics
  import opened LayerTree
  import opened DirtyFlags
  import opened LayerQueries
  import opened Rebuild
  import opened EditSession

  const PLAIN := Operation("plain", [], false)
  const BRIGHT := Operation("plain", [Property("gain", "2")], false)

  /** Images are numbers: an operation adds one to ten times the image below, and its number
      of properties. */
  function Counting(): Engine<int> {
    Engine(0,
           (level: int, op: Operation, previous: Option<int>, inputs: seq<Option<int>>) =>
             Built(1 + |op.props| + (if previous.Some? then 10 * previous.value else 0), [], 0),
           (level: int, op: Operation, previous: Option<int>, image: int) => image,
           (op: Operation, colorspace: int) => true,
           (op: Operation) => false)
  }

  function Bottom(op: Operation): Layer {
    Layer(0, "bottom", true, true, true, false, op, PLAIN, [], [], [], [])
  }

  function Inner(): Layer {
    Layer(2, "inner", true, true, true, false, PLAIN, PLAIN, [], [], [], [])
  }

  function GroupLayer(on: bool): Layer {
    Layer(1, "group", on, true, false, false, PLAIN, PLAIN, [], [Inner()], [], [])
  }

  function Single(n: int): Node<int> {
    Node([n], Some(n), 0)
  }

  /** A document whose pipeline is up to date. */
  function Settled0(): Session<int> {
    Session([Bottom(PLAIN), GroupLayer(true)], Flags({}, {}, {}),
            map[0 := Single(1), 1 := Single(11), 2 := Single(11)], false, Counting())
  }

  lemma TreeFacts(op: Operation, on: bool)
    ensures var root := [Bottom(op), GroupLayer(on)];
            && Ids([Inner()]) == {2} && Ids(root) == {0, 1, 2} && Distinct(root)
            && root[1..] == [GroupLayer(on)] && root[1..][1..] == [] && [Inner()][1..] == []
            && Ids(root[1..]) == {1, 2}
  {
    var root := [Bottom(op), GroupLayer(on)];
    assert [Inner()][1..] == [];
    assert Ids([]) == {};
    assert Ids([Inner()]) == {2};
    assert root[1..] == [GroupLayer(on)];
    assert [GroupLayer(on)][1..] == [];
    assert Ids([GroupLayer(on)]) == {1, 2};
  }

  lemma {:induction false} LeafValue(p: Pass, l: Layer, previous: Option<int>, nodes: Nodes<int>)
    requires l.sublayers == []
    ensures RebuildLayer(Counting(), p, l, previous, nodes)
         == nodes[l.id := Single(1 + |l.op.props| + (if previous.Some? then 10 * previous.value else 0))]
  {
    var inputs := FetchInputs(Counting(), p, l, nodes);
    var b := Counting().build(0, l.op, previous, inputs);
    assert [b.first] + b.more == [b.first];
    assert BuiltNode(Counting(), l, previous, inputs) == Single(b.first);
  }

  const OFF := Change(1, SetEnabled(false))
  const BRIGHTEN := Change(0, SetOperation(BRIGHT))
  const ON := Change(1, SetEnabled(true))

  /** The group is switched off. */
  function SwitchedOff(): Session<int> {
    Settled0().(root := [Bottom(PLAIN), GroupLayer(false)], flags := Flags({}, {1}, {}))
  }

  /** The layer below it is changed. */
  function Brightened(): Session<int> {
    Settled0().(root := [Bottom(BRIGHT), GroupLayer(false)], flags := Flags({}, {0, 1}, {}))
  }

  /** The document is updated. */
  function UpdatedOff(): Session<int> {
    Settled0().(root := [Bottom(BRIGHT), GroupLayer(false)],
                nodes := map[0 := Single(2), 1 := Single(11), 2 := Single(11)])
  }

  /** The update with the group switched off: the layer inside keeps its old image, and its
      flags are gone. */
  lemma OffUpdate()
    ensures Updated(Brightened()) == UpdatedOff()
  {
    var s := Brightened();
    TreeFacts(BRIGHT, false);
    var p, w := MakePass(s), Walk(None, None, s.nodes);
    VisitListGrows(s.root, false, s.flags);
    assert 0 in p.op;
    assert !Reusable(p, s.root[0], s.nodes);
    var w1 := RebuildStep(s.engine, p, s.root[0], w);
    LeafValue(p, Bottom(BRIGHT), None, s.nodes);
    assert w1.nodes[0] == Single(2);
    assert RebuildStep(s.engine, p, s.root[1], w1) == w1;
    assert RebuildList(s.engine, p, s.root[1..], w1) == RebuildList(s.engine, p, s.root[1..][1..], w1);
    assert RebuildList(s.engine, p, s.root, w) == w1;
  }

  /** The document after the group is switched on again. */
  function OnAgain(): Session<int> {
    Settled0().(root := [Bottom(BRIGHT), GroupLayer(true)], flags := Flags({}, {1}, {}),
                nodes := map[0 := Single(2), 1 := Single(11), 2 := Single(11)])
  }

  lemma OnlyTheGroupIsMarked()
    ensures var g := VisitList(OnAgain().root, false, OnAgain().flags).flags;
            g.op == {1} && g.blend == {1}
  {
    var s := OnAgain();
    var group := GroupLayer(true);
    TreeFacts(BRIGHT, true);
    assert Ids([]) == {};
    CleanLayer(Bottom(BRIGHT), s.flags);
    CleanWalk([Inner()], s.flags);
    assert VisitList(group.imaps, false, s.flags) == Visit(false, s.flags);
    var v := VisitLayer(group, false, s.flags);
    assert v.flags.op == {1} && v.flags.blend == {1};
    assert VisitList(s.root[1..], false, s.flags) == VisitList(s.root[1..][1..], v.dirty, v.flags);
  }

  lemma OnUpdateKeepsOldImage()
    ensures 2 in Rebuilt(OnAgain()).nodes && Rebuilt(OnAgain()).nodes[2] == Single(11)
  {
    var s := OnAgain();
    TreeFacts(BRIGHT, true);
    OnlyTheGroupIsMarked();
    var e, p, w := s.engine, MakePass(s), Walk(None, None, s.nodes);
    var w1 := RebuildStep(e, p, s.root[0], w);
    assert w1 == Walk(Some(2), Some(2), s.nodes);
    var sub := Walk(w1.previous, None, s.nodes);
    var sub1 := RebuildStep(e, p, Inner(), sub);
    assert sub1.nodes == s.nodes;
    assert RebuildList(e, p, [Inner()], sub) == RebuildList(e, p, [Inner()][1..], sub1);
    var w2 := RebuildStep(e, p, GroupLayer(true), w1);
    assert w2.nodes[2] == s.nodes[2];
    assert RebuildList(e, p, s.root[1..], w1) == RebuildList(e, p, s.root[1..][1..], w2);
  }

  lemma ScratchGivesNewImage()
    ensures 2 in FromScratch(OnAgain()).nodes && FromScratch(OnAgain()).nodes[2] == Single(21)
  {
    var s := OnAgain();
    TreeFacts(BRIGHT, true);
    var e := s.engine;
    var w: Walk<int> := Walk(None, None, map[]);
    var bottom, group := Bottom(BRIGHT), GroupLayer(true);
    var w1 := EvalStep(e, bottom, w, []);
    EvalValue(bottom, None, [], map[]);
    assert w1 == Walk(Some(2), Some(2), map[0 := Single(2)]);
    var done := [] + Expand(bottom);
    var sub := Walk(w1.previous, None, w1.nodes);
    EvalValue(Inner(), Some(2), done, w1.nodes);
    var sub1 := EvalStep(e, Inner(), sub, done);
    assert sub1.nodes[2] == Single(21);
    assert EvalList(e, [Inner()], sub, done) == EvalList(e, [Inner()][1..], sub1, done + Expand(Inner()));
    assert EvalList(e, group.sublayers, sub, done) == sub1;
    assert EvalLayer(e, group, w1.previous, done, w1.nodes)[2] == Single(21);
    var w2 := EvalStep(e, group, w1, done);
    assert w2.nodes[2] == Single(21);
    assert EvalList(e, s.root[1..], w1, done) == EvalList(e, s.root[1..][1..], w2, done + Expand(group));
  }

  lemma {:induction false} EvalValue(l: Layer, previous: Option<int>, done: seq<Layer>, nodes: Nodes<int>)
    requires l.sublayers == []
    ensures EvalLayer(Counting(), l, previous, done, nodes)
         == nodes[l.id := Single(1 + |l.op.props| + (if previous.Some? then 10 * previous.value else 0))]
  {
    var inputs := LeafInputs(Counting(), l, done, nodes);
    var b := Counting().build(0, l.op, previous, inputs);
    assert [b.first] + b.more == [b.first];
    assert BuiltNode(Counting(), l, previous, inputs) == Single(b.first);
  }

  lemma SwitchOff()
    ensures Legal(Settled0(), OFF) && Next(Settled0(), OFF) == SwitchedOff()
  {
    TreeFacts(PLAIN, true);
    TreeFacts(PLAIN, false);
    EditGroup(PLAIN, true, false);
  }

  lemma ChangeBelow()
    ensures Legal(SwitchedOff(), BRIGHTEN) && Next(SwitchedOff(), BRIGHTEN) == Brightened()
  {
    TreeFacts(PLAIN, false);
    EditBottom(false);
  }

  lemma SwitchOn()
    ensures Legal(UpdatedOff(), ON) && Next(UpdatedOff(), ON) == OnAgain()
  {
    TreeFacts(BRIGHT, false);
    EditGroup(BRIGHT, false, true);
  }

  /** Switching a group off, changing the layer below it, updating, switching the group on and
      updating again leaves the old image in the group.  The first update is not safe. */
  lemma DisabledGroupGoesStale()
    ensures var s := Settled0();
            && Valid(s) && Legal(s, OFF) && Legal(Next(s, OFF), BRIGHTEN)
            && var s2 := Next(Next(s, OFF), BRIGHTEN);
               && !Safe(s2) && Legal(Updated(s2), ON) && !Faithful(Next(Updated(s2), ON))
  {
    SettledIsValid();
    SwitchOff();
    ChangeBelow();
    OffUpdate();
    SwitchOn();
    OldImageIsShown();
    NotSafe();
  }

  /** If it were, the last update would be right. */
  lemma NotSafe()
    requires Valid(Settled0()) && !Faithful(OnAgain())
    ensures !Safe(Brightened())
  {
    if Safe(Brightened()) {
      SwitchOff();
      ChangeKeepsValid(Settled0(), 1, SetEnabled(false));
      ChangeBelow();
      ChangeKeepsValid(SwitchedOff(), 0, SetOperation(BRIGHT));
      UpdateKeepsValid(Brightened());
      OffUpdate();
      SwitchOn();
      ChangeKeepsValid(UpdatedOff(), 1, SetEnabled(true));
      UpdateMatchesScratch(OnAgain());
    }
  }

  lemma OldImageIsShown()
    ensures !Faithful(OnAgain())
  {
    var root := OnAgain().root;
    OnUpdateKeepsOldImage();
    ScratchGivesNewImage();
    assert Expand(Inner()) == [Inner()] by { assert Flatten([]) == []; }
    InnerIsVisible();
    TreeFacts(BRIGHT, true);
    FlattenIds(root);
    var i :| 0 <= i < |Flatten(root)| && Flatten(root)[i].id == 2;
  }

  lemma InnerIsVisible()
    ensures 2 in VisibleIds(OnAgain().root, true)
  {
    TreeFacts(BRIGHT, true);
    var group := GroupLayer(true);
    assert VisibleIds([Inner()], true) == VisibleIn(Inner(), true) + VisibleIds([Inner()][1..], true);
    assert 2 in VisibleIn(group, true);
    assert OnAgain().root[1..][0] == group;
    assert 2 in VisibleIds(OnAgain().root[1..], true);
  }

  lemma EditGroup(op: Operation, was: bool, on: bool)
    ensures EditList([Bottom(op), GroupLayer(was)], 1, SetEnabled(on)) == [Bottom(op), GroupLayer(on)]
  {
    TreeFacts(op, was);
    var root := [Bottom(op), GroupLayer(was)];
    assert EditList(root[1..], 1, SetEnabled(on)) == [GroupLayer(on)] + EditList(root[1..][1..], 1, SetEnabled(on));
  }

  lemma EditBottom(on: bool)
    ensures EditList([Bottom(PLAIN), GroupLayer(on)], 0, SetOperation(BRIGHT)) == [Bottom(BRIGHT), GroupLayer(on)]
  {
    TreeFacts(PLAIN, on);
    var root, e := [Bottom(PLAIN), GroupLayer(on)], SetOperation(BRIGHT);
    assert EditList([Inner()], 0, e) == [Inner()] + EditList([Inner()][1..], 0, e);
    assert EditLayer(GroupLayer(on), 0, e) == GroupLayer(on);
    assert EditList(root[1..], 0, e) == [GroupLayer(on)] + EditList(root[1..][1..], 0, e);
  }

  lemma SettledIsValid()
    ensures Valid(Settled0())
  {
    var s := Settled0();
    TreeFacts(PLAIN, true);
    var e := s.engine;
    var w: Walk<int> := Walk(None, None, map[]);
    var bottom, group := Bottom(PLAIN), GroupLayer(true);
    EvalValue(bottom, None, [], map[]);
    var w1 := EvalStep(e, bottom, w, []);
    assert w1 == Walk(Some(1), Some(1), map[0 := Single(1)]);
    var done := [] + Expand(bottom);
    var sub := Walk(w1.previous, None, w1.nodes);
    EvalValue(Inner(), Some(1), done, w1.nodes);
    var sub1 := EvalStep(e, Inner(), sub, done);
    assert EvalList(e, [Inner()], sub, done) == EvalList(e, [Inner()][1..], sub1, done + Expand(Inner()));
    assert EvalList(e, group.sublayers, sub, done) == sub1;
    assert sub1.nodes == map[0 := Single(1), 2 := Single(11)];
    GroupValue(group, Some(1), sub1);
    assert EvalLayer(e, group, w1.previous, done, w1.nodes) == sub1.nodes[1 := Single(11)];
    var w2 := EvalStep(e, group, w1, done);
    assert w2.nodes == map[0 := Single(1), 1 := Single(11), 2 := Single(11)];
    assert EvalList(e, s.root[1..], w1, done) == EvalList(e, s.root[1..][1..], w2, done + Expand(group));
    assert FromScratch(s).nodes == s.nodes;
    ShapeFacts();
    NothingHidden();
    AllAgree(s.root, s.nodes);
    var p := Pass(s.root, VisibleIds(s.root, true), {}, {}, true);
    UpdatedIsTrusted(e, p, s.root, w, [], false, s.flags, s.nodes, s.flags, s.nodes);
  }

  lemma {:induction false} AllAgree(root: seq<Layer>, nodes: Nodes<int>)
    requires Ids(root) <= nodes.Keys
    ensures Agree(Flatten(root), VisibleIds(root, true), nodes, nodes)
  {
    FlattenIds(root);
    forall i | 0 <= i < |Flatten(root)| ensures Flatten(root)[i].id in nodes {
      assert Flatten(root)[i].id in SeqIds(Flatten(root));
    }
  }

  lemma NothingHidden()
    ensures HiddenIds(Settled0().root, false) == {}
  {
    var root := Settled0().root;
    TreeFacts(PLAIN, true);
    assert HiddenIds([], false) == {};
    assert HiddenIds([Inner()], false) == {};
    assert HiddenIds(root[1..], false) == HiddenIn(GroupLayer(true), false) + HiddenIds(root[1..][1..], false);
  }

  lemma GroupValue(l: Layer, previous: Option<int>, sub: Walk<int>)
    ensures BuiltNode(Counting(), l, previous, [sub.out])
         == Single(1 + |l.op.props| + (if previous.Some? then 10 * previous.value else 0))
  {
    var b := Counting().build(0, l.op, previous, [sub.out]);
    assert [b.first] + b.more == [b.first];
  }

  lemma ShapeFacts()
    ensures var root := Settled0().root; NoMaps(root) && InputsSettled(root, {}, Ids(root))
  {
    var root := Settled0().root;
    TreeFacts(PLAIN, true);
    assert NoMaps([]);
    assert NoMaps([Inner()]);
    assert InputsSettled([Inner()], {0}, {0, 1, 2}) by {
      assert [Inner()][1..] == [];
    }
    assert NoMapsIn(GroupLayer(true));
    assert NoMaps(root[1..]);
    assert IdsOf(root[0]) == {0} by { assert Ids([]) == {}; }
    assert InputsSettled(root[1..], {} + IdsOf(root[0]), {0, 1, 2}) by {
      assert root[1..][0] == GroupLayer(true);
      assert {} + IdsOf(root[0]) == {0};
    }
    assert InputsSettled(root[0].sublayers, {}, {0, 1, 2});
  }
}
