/** The layer manager of one document with one pipeline, as an object that edits its layers,
    flags and nodes in place. */
module LayerManagement {
  import opened Basics
  import opened LayerTree
  import opened DirtyFlags
  import opened LayerQueries
  import opened Rebuild
  import opened EditSession
  import opened Compositing

  class LayerManager<Img(!new)> {
    var layers: seq<Layer>
    var dirty: set<int>
    var opModified: set<int>
    var blenderModified: set<int>
    var visible: set<int>
    var nodes: Nodes<Img>
    var force: bool
    var engine: Engine<Img>

    ghost function CurrentFlags(): Flags
      reads this
    {
      Flags(dirty, opModified, blenderModified)
    }

    ghost function State(): Session<Img>
      reads this
    {
      Session(layers, CurrentFlags(), nodes, force, engine)
    }

    /** The object invariant: every flag belongs to a layer of the tree, and up to the first
        flagged layer the pipeline holds what evaluation from scratch would give. */
    ghost predicate WellFormed()
      reads this
    {
      Valid(State()) && visible <= Ids(layers)
    }

    constructor (e: Engine<Img>)
      ensures WellFormed() && State() == Start(e)
    {
      layers, nodes, engine, force := [], map[], e, false;
      dirty, opModified, blenderModified, visible := {}, {}, {}, {};
    }

    // -----------------------------------------------------------------------
    // Queries
    // -----------------------------------------------------------------------

    /** Appends a layer and everything inside it to a list. */
    static method ExpandLayer(l: Layer, list: seq<Layer>) returns (r: seq<Layer>)
      ensures r == list + Expand(l)
      decreases l
    {
      r := ExpandAll(l.sublayers, list);
      r := ExpandAll(l.imaps, r);
      r := ExpandAll(l.omaps, r);
      r := r + [l];
      FourParts(list, Flatten(l.sublayers), Flatten(l.imaps), Flatten(l.omaps), [l]);
    }

    static lemma FourParts(list: seq<Layer>, a: seq<Layer>, b: seq<Layer>, c: seq<Layer>, d: seq<Layer>)
      ensures list + a + b + c + d == list + (a + b + c + d)
    {
      Regrouped(list, a, b);
      Regrouped(list, a + b, c);
      Regrouped(list, a + b + c, d);
    }

    static method ExpandAll(part: seq<Layer>, list: seq<Layer>) returns (r: seq<Layer>)
      ensures r == list + Flatten(part)
      decreases part
    {
      r := list;
      assert part == part[0..];
      for i := 0 to |part|
        invariant r + Flatten(part[i..]) == list + Flatten(part)
      {
        assert part[i..][0] == part[i] && part[i..][1..] == part[i + 1..];
        r := ExpandLayer(part[i], r);
      }
      assert part[|part|..] == [];
    }

    /** The list that holds a layer, searched level by level. */
    static method GetList(list: seq<Layer>, id: int) returns (r: Option<seq<Layer>>)
      ensures r == FindList(list, id)
      decreases list
    {
      for i := 0 to |list|
        invariant forall k :: 0 <= k < i ==> list[k].id != id
      {
        if list[i].id == id {
          return Some(list);
        }
      }
      assert list[0..] == list;
      for i := 0 to |list|
        invariant FindListInside(list, id) == FindListInside(list[i..], id)
      {
        assert list[i..][0] == list[i] && list[i..][1..] == list[i + 1..];
        r := GetList(list[i].sublayers, id);
        if r.Some? { return; }
        r := GetList(list[i].imaps, id);
        if r.Some? { return; }
        r := GetList(list[i].omaps, id);
        if r.Some? { return; }
      }
      r := None;
    }

    static method Contains(list: seq<Layer>, id: int) returns (b: bool)
      ensures b <==> id in TopIds(list)
    {
      for i := 0 to |list|
        invariant forall k :: 0 <= k < i ==> list[k].id != id
      {
        if list[i].id == id { return true; }
      }
      b := false;
    }

    /** The layer that directly contains another one. */
    static method GetContainerLayer(list: seq<Layer>, id: int, isMap: bool) returns (r: Option<Layer>)
      ensures r == FindContainer(list, id, isMap)
      decreases list
    {
      assert list[0..] == list;
      for i := 0 to |list|
        invariant FirstHolder(list, id, isMap) == FirstHolder(list[i..], id, isMap)
      {
        assert list[i..][0] == list[i] && list[i..][1..] == list[i + 1..];
        var found := Contains(list[i].sublayers, id);
        if !found && isMap {
          found := Contains(list[i].imaps, id);
          if !found {
            found := Contains(list[i].omaps, id);
          }
        }
        if found { return Some(list[i]); }
      }
      for i := 0 to |list|
        invariant FindContainerInside(list, id, isMap) == FindContainerInside(list[i..], id, isMap)
      {
        assert list[i..][0] == list[i] && list[i..][1..] == list[i + 1..];
        r := GetContainerLayer(list[i].imaps, id, isMap);
        if r.Some? { return; }
        r := GetContainerLayer(list[i].omaps, id, isMap);
        if r.Some? { return; }
        r := GetContainerLayer(list[i].sublayers, id, isMap);
        if r.Some? { return; }
      }
      r := None;
    }

    /** Map layers, and only they need to, carry the map flag. */
    static predicate MapsFlagged(root: seq<Layer>) {
      forall id :: id in Ids(root) && HeldAsMap(root, id) ==> Find(root, id).op.mapFlag
    }

    static method HomeOf(root: seq<Layer>, id: int) returns (home: seq<Layer>)
      requires Distinct(root) && id in Ids(root)
      ensures home == Home(root, id)
    {
      FindListFinds(root, id);
      var found := GetList(root, id);
      home := found.value;
    }

    static method ContainerOf(root: seq<Layer>, id: int) returns (r: Option<Layer>)
      requires Distinct(root) && MapsFlagged(root) && id in Ids(root)
      ensures r == Owner(root, id)
    {
      FindContainerFinds(root, id, Find(root, id).op.mapFlag);
      r := GetContainerLayer(root, id, Find(root, id).op.mapFlag);
    }

    static lemma AddOne(list: seq<Layer>, i: nat)
      requires i < |list|
      ensures Ids(list[..i + 1]) == Ids(list[..i]) + IdsOf(list[i])
    {
      assert list[..i + 1] == list[..i] + [list[i]];
      IdsConcat(list[..i], [list[i]]);
      assert [list[i]][0] == list[i] && [list[i]][1..] == [];
    }

    /** Appends the layers below one member of a list, with everything inside them. */
    static method CollectBelow(home: seq<Layer>, id: int, inputs: seq<Layer>) returns (r: seq<Layer>)
      ensures SeqIds(r) == SeqIds(inputs) + BeforeIds(home, id)
    {
      var i := 0;
      r := inputs;
      assert home[..0] == [];
      while i < |home| && home[i].id != id
        invariant 0 <= i <= |home|
        invariant forall k :: 0 <= k < i ==> home[k].id != id
        invariant SeqIds(r) == SeqIds(inputs) + Ids(home[..i])
      {
        SeqIdsConcat(r, Expand(home[i]));
        ExpandIds(home[i]);
        AddOne(home, i);
        r := ExpandLayer(home[i], r);
        i := i + 1;
      }
      BeforeIsPrefix(home, id, i);
      assert i < |home| ==> home[i..][0].id == id;
      assert i == |home| ==> home[i..] == [];
    }

    /** Everything that feeds a layer: what lies below it in its list, then the same for the
        layer that contains it. */
    static method GetInputLayers(root: seq<Layer>, id: int, inputs: seq<Layer>) returns (r: seq<Layer>)
      requires Distinct(root) && MapsFlagged(root) && id in Ids(root)
      ensures SeqIds(r) == SeqIds(inputs) + InputIds(root, id)
      decreases Depth(root, id)
    {
      ClimbStep(root, id);
      var home := HomeOf(root, id);
      r := CollectBelow(home, id, inputs);
      var container := ContainerOf(root, id);
      if container.Some? {
        r := GetInputLayers(root, container.value.id, r);
      }
    }

    /** Lists the layers above one member of a list, walking down from the top.  A layer met
        twice is listed twice; the container of the list is listed without its contents. */
    static method CollectAbove(list: seq<Layer>, id: int, container: Option<Layer>) returns (above: seq<Layer>)
      requires Distinct(list) && id in TopIds(list)
      requires container.Some? ==> container.value.id !in TopIds(list)
      ensures SeqIds(above) == AfterIds(list, id)
    {
      var expanded: seq<Layer> := [];
      above := [];
      var i := |list|;
      assert SeqIds([]) == {} && list[|list|..] == [];
      while i > 0 && list[i - 1].id != id
        invariant 0 <= i <= |list|
        invariant forall k :: i <= k < |list| ==> list[k].id != id
        invariant SeqIds(above) == Ids(list[i..]) && SeqIds(expanded) == Ids(list[i..])
      {
        i := i - 1;
        assert list[i].id in TopIds(list);
        if container.None? || list[i] != container.value {
          AboveStep(list, i, expanded, above);
          expanded := ExpandLayer(list[i], expanded);
          above := expanded + above;
        } else {
          assert false;  // a layer never sits in a list that it contains
        }
      }
      AfterIsSuffix(list, id, i - 1);
    }

    static lemma AboveStep(list: seq<Layer>, i: nat, expanded: seq<Layer>, above: seq<Layer>)
      requires i < |list| && SeqIds(expanded) == SeqIds(above) == Ids(list[i + 1..])
      ensures var e := expanded + Expand(list[i]); SeqIds(e) == Ids(list[i..]) && SeqIds(e + above) == Ids(list[i..])
    {
      assert list[i..][0] == list[i] && list[i..][1..] == list[i + 1..];
      ExpandIds(list[i]);
      SeqIdsConcat(expanded, Expand(list[i]));
      SeqIdsConcat(expanded + Expand(list[i]), above);
    }

    /** Everything that may depend on a layer: what lies above it in its list, the layer that
        contains it, and the same for that layer. */
    static method GetChildLayers(root: seq<Layer>, id: int, children: seq<Layer>) returns (r: seq<Layer>)
      requires Distinct(root) && MapsFlagged(root) && id in Ids(root)
      ensures SeqIds(r) == SeqIds(children) + ChildIds(root, id)
      decreases Depth(root, id)
    {
      ClimbStep(root, id);
      var container := ContainerOf(root, id);
      if container.Some? { OwnerHoldsHome(root, id); }
      var home := HomeOf(root, id);
      HomeHolds(root, id);
      HomeIsDistinct(root, id);
      var above := CollectAbove(home, id, container);
      SeqIdsConcat(children, above);
      r := children + above;
      if container.Some? {
        SeqIdsConcat(r, [container.value]);
        assert SeqIds([container.value]) == {[container.value][0].id};
        r := r + [container.value];
        r := GetChildLayers(root, container.value.id, r);
      }
    }

    // -----------------------------------------------------------------------
    // Preparation: visibility and stale layers
    // -----------------------------------------------------------------------

    /** Sets the visible flag of every layer of a list, from the top of the list down. */
    method UpdateVisible(list: seq<Layer>, parent: bool)
      requires Distinct(list)
      modifies this`visible
      ensures visible == old(visible) - Ids(list) + VisibleIds(list, parent)
      decreases list
    {
      var i := |list|;
      assert list[|list|..] == [];
      while i > 0
        invariant 0 <= i <= |list|
        invariant Distinct(list[i..])
        invariant visible == old(visible) - Ids(list[i..]) + VisibleIds(list[i..], parent)
      {
        i := i - 1;
        var l := list[i];
        assert list[i..][0] == l && list[i..][1..] == list[i + 1..];
        DistinctSuffix(list, i);
        ghost var before := visible;
        var on := parent && l.enabled;
        visible := if on then visible + {l.id} else visible - {l.id};
        UpdateVisible(l.imaps, on);
        UpdateVisible(l.omaps, on);
        UpdateVisible(l.sublayers, on);
        VisibleSettled(l, on, parent, before, visible);
        VisibleStayInside(list[i + 1..], parent);
        VisibleInStays(l, parent);
        VisibleJoin(old(visible), IdsOf(l), Ids(list[i + 1..]), VisibleIn(l, parent),
                    VisibleIds(list[i + 1..], parent));
      }
      assert list[0..] == list;
    }

    static lemma {:induction false} DistinctSuffix(list: seq<Layer>, i: nat)
      requires Distinct(list) && i <= |list|
      ensures Distinct(list[i..])
    {
      if i > 0 {
        DistinctSuffix(list[1..], i - 1);
        assert list[1..][i - 1..] == list[i..];
      } else {
        assert list[0..] == list;
      }
    }

    static lemma VisibleJoin(v: set<int>, a: set<int>, b: set<int>, x: set<int>, y: set<int>)
      requires a !! b && x <= a && y <= b
      ensures (v - b + y) - a + x == v - (a + b) + (x + y)
    {
    }

    static lemma {:induction false} VisibleSettled(l: Layer, on: bool, parent: bool, before: set<int>, after: set<int>)
      requires DistinctLayer(l) && on == (parent && l.enabled)
      requires after == ((((if on then before + {l.id} else before - {l.id})
                           - Ids(l.imaps) + VisibleIds(l.imaps, on))
                          - Ids(l.omaps) + VisibleIds(l.omaps, on))
                         - Ids(l.sublayers) + VisibleIds(l.sublayers, on))
      ensures after == before - IdsOf(l) + VisibleIn(l, parent)
    {
      VisibleInStays(l, parent);
      VisibleStayInside(l.imaps, on);
      VisibleStayInside(l.omaps, on);
      VisibleStayInside(l.sublayers, on);
      var first := if on then before + {l.id} else before - {l.id};
      SettledSets(before, first, l.id, Ids(l.imaps), Ids(l.omaps), Ids(l.sublayers), if on then {l.id} else {},
                  VisibleIds(l.imaps, on), VisibleIds(l.omaps, on), VisibleIds(l.sublayers, on));
    }

    static lemma SettledSets(v: set<int>, first: set<int>, id: int, a: set<int>, b: set<int>, c: set<int>,
                             own: set<int>,
                             x: set<int>, y: set<int>, z: set<int>)
      requires first == v - {id} + own
      requires own <= {id} && x <= a && y <= b && z <= c && id !in a && id !in b && id !in c && a !! b && a !! c
               && b !! c
      ensures first - a + x - b + y - c + z == v - ({id} + c + a + b) + (own + x + y + z)
    {
    }

    /** Spreads the dirty flags along one list and into everything inside it. */
    method UpdateDirty(list: seq<Layer>, incoming: bool) returns (running: bool)
      modifies this`dirty, this`opModified, this`blenderModified
      ensures Visit(running, CurrentFlags()) == VisitList(list, incoming, old(CurrentFlags()))
      decreases list
    {
      running := incoming;
      assert list[0..] == list;
      for i := 0 to |list|
        invariant VisitList(list, incoming, old(CurrentFlags())) == VisitList(list[i..], running, CurrentFlags())
      {
        var l := list[i];
        assert list[i..][0] == l && list[i..][1..] == list[i + 1..];
        ghost var f := CurrentFlags();
        ghost var before := running;
        var inputDirty := running;
        var filterDirty := l.id in opModified;
        var blenderDirty := l.id in blenderModified;
        var found := ReadsDirty(l.inputs);
        if found { inputDirty := true; }

        var imapDirty := UpdateDirty(l.imaps, false);
        var omapDirty := UpdateDirty(l.omaps, false);
        if imapDirty { inputDirty := true; }
        if omapDirty { blenderDirty := true; }
        var subDirty := UpdateDirty(l.sublayers, running);
        if subDirty { inputDirty := true; }

        if l.id in dirty { running := true; }
        running := running || inputDirty || blenderDirty || filterDirty;
        dirty := if running then dirty + {l.id} else dirty - {l.id};
        if inputDirty { opModified := opModified + {l.id}; }
        if inputDirty || blenderDirty || filterDirty { blenderModified := blenderModified + {l.id}; }
        assert Visit(running, CurrentFlags()) == VisitLayer(l, before, f);
      }
      assert list[|list|..] == [];
    }

    method ReadsDirty(inputs: seq<Input>) returns (b: bool)
      ensures b <==> AnyInputDirty(inputs, dirty)
    {
      for i := 0 to |inputs|
        invariant forall k :: 0 <= k < i ==> inputs[k].layer !in dirty
      {
        if inputs[i].layer in dirty { return true; }
      }
      b := false;
    }

    static lemma DropBoth(f: Flags, a: set<int>, b: set<int>)
      ensures Drop(Drop(f, a), b) == Drop(f, a + b)
    {
    }

    static lemma {:induction false} DropLayer(f: Flags, done: set<int>, l: Layer)
      ensures Drop(Drop(Drop(Drop(Drop(f, done), {l.id}), Ids(l.imaps)), Ids(l.omaps)), Ids(l.sublayers))
              == Drop(f, done + IdsOf(l))
    {
      DropBoth(f, done, {l.id});
      DropBoth(f, done + {l.id}, Ids(l.imaps));
      DropBoth(f, done + {l.id} + Ids(l.imaps), Ids(l.omaps));
      DropBoth(f, done + {l.id} + Ids(l.imaps) + Ids(l.omaps), Ids(l.sublayers));
      assert done + {l.id} + Ids(l.imaps) + Ids(l.omaps) + Ids(l.sublayers) == done + IdsOf(l);
    }

    /** Clears every flag of a list and of everything inside it. */
    method ResetFlags(list: seq<Layer>)
      modifies this`dirty, this`opModified, this`blenderModified
      ensures CurrentFlags() == Drop(old(CurrentFlags()), Ids(list))
      decreases list
    {
      assert list[..0] == [];
      for i := 0 to |list|
        invariant CurrentFlags() == Drop(old(CurrentFlags()), Ids(list[..i]))
      {
        var l := list[i];
        AddOne(list, i);
        opModified := opModified - {l.id};
        blenderModified := blenderModified - {l.id};
        dirty := dirty - {l.id};
        ResetFlags(l.imaps);
        ResetFlags(l.omaps);
        ResetFlags(l.sublayers);
        DropLayer(old(CurrentFlags()), Ids(list[..i]), l);
      }
      assert list[..|list|] == list;
    }

    // -----------------------------------------------------------------------
    // Rebuilding the pipeline
    // -----------------------------------------------------------------------

    /** Collects the layers found before a layer; false if the layer is not in these lists. */
    static method GetParentLayers(list: seq<Layer>, id: int, parents: seq<Layer>) returns (found: bool, r: seq<Layer>)
      ensures found == Parents(list, id).found
      ensures r == parents + Parents(list, id).parents
      decreases list
    {
      r := parents;
      assert list[0..] == list;
      for i := 0 to |list|
        invariant Parents(list, id).found == Parents(list[i..], id).found
        invariant parents + Parents(list, id).parents == r + Parents(list[i..], id).parents
      {
        assert list[i..][0] == list[i] && list[i..][1..] == list[i + 1..];
        if list[i].id == id {
          return true, r;
        }
        var inner, all := GetParentLayers(list[i].sublayers, id, r);
        if inner {
          return true, all;
        }
        ghost var rest := Parents(list[i + 1..], id).parents;
        assert r + (Parents(list[i].sublayers, id).parents + [list[i]] + rest) == all + [list[i]] + rest;
        r := all + [list[i]];
      }
      found := false;
    }

    ghost function ThisPass(): Pass
      reads this
    {
      Pass(layers, visible, opModified, blenderModified, force)
    }

    method GetDefaultInput(l: Layer) returns (source: Option<int>)
      ensures source == DefaultSource(engine, l.op, Parents(layers, l.id).parents, visible, nodes)
    {
      var _, parents := GetParentLayers(layers, l.id, []);
      assert parents == Parents(layers, l.id).parents;
      var i := |parents|;
      assert parents[..|parents|] == parents;
      while i > 0
        invariant 0 <= i <= |parents|
        invariant DefaultSource(engine, l.op, parents, visible, nodes)
               == DefaultSource(engine, l.op, parents[..i], visible, nodes)
      {
        i := i - 1;
        var x := parents[i].id;
        DefaultStep(engine, l.op, parents, i, visible, nodes);
        if x in visible && x in nodes && engine.accepts(l.op, nodes[x].colorspace) {
          return Some(x);
        }
      }
      source := None;
    }

    static lemma {:induction false} DefaultStep(e: Engine<Img>, op: Operation, parents: seq<Layer>, i: nat,
                                                visible: set<int>, nodes: Nodes<Img>)
      requires i < |parents|
      ensures DefaultSource(e, op, parents[..i + 1], visible, nodes)
           == (var x := parents[i].id;
               if x in visible && x in nodes && e.accepts(op, nodes[x].colorspace) then Some(x)
               else DefaultSource(e, op, parents[..i], visible, nodes))
    {
      assert parents[..i + 1][i] == parents[i] && parents[..i + 1][..i] == parents[..i];
    }

    /** The images of the explicit inputs from position `first` on. */
    method GetExplicitImages(inputs: seq<Input>, first: nat) returns (images: seq<Option<Img>>)
      requires first <= |inputs|
      ensures images == FetchExplicit(ThisPass(), inputs[first..], nodes)
    {
      images := [];
      ghost var p := ThisPass();
      for i := first to |inputs|
        invariant images + FetchExplicit(p, inputs[i..], nodes) == FetchExplicit(p, inputs[first..], nodes)
      {
        FetchNext(p, inputs, i, nodes, images);
        var u := inputs[i].layer;
        if u !in visible || u !in nodes {
          images := images + [None];
        } else {
          images := images + [ImageOf(inputs[i], nodes[u])];
        }
      }
      assert inputs[|inputs|..] == [];
    }

    static lemma {:induction false} FetchNext(p: Pass, inputs: seq<Input>, i: nat, nodes: Nodes<Img>,
                                              images: seq<Option<Img>>)
      requires i < |inputs|
      ensures images + FetchExplicit(p, inputs[i..], nodes)
           == images + [if inputs[i].layer in p.visible && inputs[i].layer in nodes
                        then ImageOf(inputs[i], nodes[inputs[i].layer]) else None]
              + FetchExplicit(p, inputs[i + 1..], nodes)
    {
      assert inputs[i..][0] == inputs[i] && inputs[i..][1..] == inputs[i + 1..];
    }

    method CollectInputs(l: Layer) returns (images: seq<Option<Img>>)
      ensures images == FetchInputs(engine, ThisPass(), l, nodes)
    {
      images := [];
      var first := 0;
      if l.inputs == [] || l.inputs[0].layer < 0 {
        var source := GetDefaultInput(l);
        var image := None;
        if source.Some? && source.value in nodes {
          image := nodes[source.value].blended;
        }
        images := [image];
        first := 1;
      }
      if first < |l.inputs| {
        var more := GetExplicitImages(l.inputs, first);
        images := images + more;
      }
      assert l.inputs[0..] == l.inputs;
      assert |l.inputs| == 1 ==> l.inputs[1..] == [];
    }

    ghost function BlendedOf(layer: Option<int>): Option<Img>
      reads this
    {
      if layer.Some? && layer.value in nodes then nodes[layer.value].blended else None
    }

    /** Brings the nodes of one chain up to date, starting above a given layer. */
    method RebuildChain(list: seq<Layer>, below: Option<int>) returns (out: Option<Img>)
      modifies this`nodes
      ensures var w := old(RebuildList(engine, ThisPass(), list, Walk(BlendedOf(below), None, nodes)));
              out == w.out && nodes == w.nodes
      decreases list, 1
    {
      var previousLayer := below;
      out := None;
      ghost var p := ThisPass();
      ghost var start := Walk(BlendedOf(below), None, nodes);
      assert list[0..] == list;
      for i := 0 to |list|
        invariant ThisPass() == p && engine == old(engine)
        invariant RebuildList(engine, p, list, start)
               == RebuildList(engine, p, list[i..], Walk(BlendedOf(previousLayer), out, nodes))
      {
        var l := list[i];
        assert list[i..][0] == l && list[i..][1..] == list[i + 1..];
        ghost var w := Walk(BlendedOf(previousLayer), out, nodes);
        if l.enabled {
          var previous := None;
          if previousLayer.Some? && previousLayer.value in nodes {
            previous := nodes[previousLayer.value].blended;
          }
          if !force && l.id !in opModified && l.id in nodes && nodes[l.id].images != [] {
            if l.id in blenderModified {
              var image := nodes[l.id].images[0];
              var blended := image;
              if engine.hasOpacity(l.op) {
                blended := engine.blend(engine.level, l.blender, previous, image);
              }
              nodes := nodes[l.id := nodes[l.id].(blended := Some(blended))];
            }
          } else {
            BuildLayer(l, previousLayer, previous);
          }
          out := nodes[l.id].blended;
          previousLayer := Some(l.id);
          assert Walk(BlendedOf(previousLayer), out, nodes) == RebuildStep(engine, p, l, w);
        }
      }
      assert list[|list|..] == [];
    }

    method BuildLayer(l: Layer, previousLayer: Option<int>, previous: Option<Img>)
      requires previous == BlendedOf(previousLayer)
      modifies this`nodes
      ensures nodes == old(RebuildLayer(engine, ThisPass(), l, previous, nodes))
      ensures l.id in nodes
      decreases l, 0
    {
      var images;
      if l.sublayers == [] {
        images := CollectInputs(l);
      } else {
        var sub := RebuildChain(l.sublayers, if previous.Some? then previousLayer else None);
        images := [sub];
      }
      var b := engine.build(engine.level, l.op, previous, images);
      var blended := b.first;
      if engine.hasOpacity(l.op) {
        blended := engine.blend(engine.level, l.blender, previous, b.first);
      }
      nodes := nodes[l.id := Node([b.first] + b.more, Some(blended), b.colorspace)];
    }

    static lemma {:induction false} WalkThenReset(root: seq<Layer>, f: Flags)
      ensures Drop(VisitList(root, false, f).flags, Ids(root)) == Drop(f, Ids(root))
    {
      VisitListGrows(root, false, f);
    }

    /** One update of the document: find what is stale, rebuild it, clear all flags.  It shows what
        evaluation from scratch shows; if it is safe, later ones will do so as well. */
    method DoUpdate() returns (out: Option<Img>)
      requires WellFormed()
      modifies this
      ensures State() == old(Updated(State())) && visible == VisibleIds(layers, true)
      ensures out == old(FromScratch(State())).out
      ensures Agree(Flatten(layers), visible, nodes, old(FromScratch(State())).nodes)
      ensures Composed(engine, visible, layers, None, [], nodes) && out == Beneath(layers, |layers|, None, nodes)
      ensures old(Safe(State())) ==> WellFormed()
    {
      UpdateMatchesScratch(State());
      UpdatedIsComposed(State());
      if Safe(State()) {
        UpdateKeepsValid(State());
      }
      VisibleStayInside(layers, true);
      UpdateVisible(layers, true);
      assert visible == VisibleIds(layers, true);
      var _ := UpdateDirty(layers, false);
      assert ThisPass() == old(MakePass(State()));
      out := RebuildChain(layers, None);
      ResetFlags(layers);
      WalkThenReset(layers, old(CurrentFlags()));
      force := false;
    }

    // -----------------------------------------------------------------------
    // Edits
    // -----------------------------------------------------------------------

    /** Inserts behind the member with id `after`; appends when `after` is negative. */
    static method InsertLayer(list: seq<Layer>, l: Layer, after: int) returns (ok: bool, r: seq<Layer>)
      ensures r == InsertAfter(list, after, l)
      ensures ok <==> after < 0 || after in TopIds(list)
      ensures !ok ==> r == list
    {
      if after < 0 {
        return true, list + [l];
      }
      var i := 0;
      while i < |list| && list[i].id != after
        invariant 0 <= i <= |list|
        invariant forall k :: 0 <= k < i ==> list[k].id != after
      {
        i := i + 1;
      }
      InsertAfterAt(list, after, l, i);
      if i == |list| {
        return false, list;
      }
      assert list[i].id in TopIds(list);
      return true, list[..i + 1] + [l] + list[i + 1..];
    }

    static lemma {:induction false} InsertAfterAt(list: seq<Layer>, after: int, l: Layer, i: nat)
      requires after >= 0 && i <= |list| && (i < |list| ==> list[i].id == after)
      requires forall k :: 0 <= k < i ==> list[k].id != after
      ensures InsertAfter(list, after, l) == if i < |list| then list[..i + 1] + [l] + list[i + 1..] else list
    {
      if i > 0 {
        InsertAfterAt(list[1..], after, l, i - 1);
        Shifted(list, l, i);
      } else if list != [] {
        assert [list[0], l] == list[..1] + [l];
      }
    }

    static lemma Shifted(list: seq<Layer>, l: Layer, i: nat)
      requires 0 < i <= |list|
      ensures i < |list| ==>
                [list[0]] + (list[1..][..i] + [l] + list[1..][i..]) == list[..i + 1] + [l] + list[i + 1..]
      ensures [list[0]] + list[1..] == list
    {
    }

    /** Erases the first reference to a layer, and starts over until there is none. */
    static method RemoveInput(inputs: seq<Input>, id: int) returns (r: seq<Input>)
      ensures r == WithoutInput(inputs, id)
    {
      r := inputs;
      var done := false;
      while !done
        invariant WithoutInput(r, id) == WithoutInput(inputs, id)
        invariant done ==> forall k :: 0 <= k < |r| ==> r[k].layer != id
        decreases |r|, !done
      {
        done := true;
        var i := 0;
        ghost var n := |r|;
        while i < |r| && done
          invariant 0 <= i && (done ==> i <= |r|)
          invariant done ==> forall k :: 0 <= k < i ==> r[k].layer != id
          invariant WithoutInput(r, id) == WithoutInput(inputs, id)
          invariant if done then |r| == n else |r| < n
        {
          if r[i].layer == id {
            EraseOne(r, id, i);
            r := r[..i] + r[i + 1..];
            done := false;
          }
          i := i + 1;
        }
      }
      NothingToErase(r, id);
    }

    static lemma {:induction false} EraseOne(inputs: seq<Input>, id: int, i: nat)
      requires i < |inputs| && inputs[i].layer == id
      ensures WithoutInput(inputs[..i] + inputs[i + 1..], id) == WithoutInput(inputs, id)
    {
      var r := inputs[..i] + inputs[i + 1..];
      if i == 0 {
        assert r == inputs[1..];
      } else {
        assert r[0] == inputs[0] && r[1..] == inputs[1..][..i - 1] + inputs[1..][i..];
        EraseOne(inputs[1..], id, i - 1);
      }
    }

    static lemma {:induction false} NothingToErase(inputs: seq<Input>, id: int)
      requires forall k :: 0 <= k < |inputs| ==> inputs[k].layer != id
      ensures WithoutInput(inputs, id) == inputs
    {
      if inputs != [] {
        NothingToErase(inputs[1..], id);
      }
    }

    /** The lists without one layer and without references to it. */
    static method EraseLayer(list: seq<Layer>, id: int) returns (r: seq<Layer>)
      ensures r == RemoveFrom(list, id)
      decreases list
    {
      r := [];
      assert list[0..] == list;
      for i := 0 to |list|
        invariant r + RemoveFrom(list[i..], id) == RemoveFrom(list, id)
      {
        var l := list[i];
        assert list[i..][0] == l && list[i..][1..] == list[i + 1..];
        if l.id != id {
          var inputs := RemoveInput(l.inputs, id);
          var sub := EraseLayer(l.sublayers, id);
          var intensity := EraseLayer(l.imaps, id);
          var opacity := EraseLayer(l.omaps, id);
          r := r + [l.(inputs := inputs, sublayers := sub, imaps := intensity, omaps := opacity)];
        }
      }
      assert list[|list|..] == [];
    }

    /** What an edit of a layer changes, and what it keeps. */
    static lemma {:induction false} EditFacts(s: Session<Img>, id: int, e: Edit, visible: set<int>)
      requires Valid(s) && Legal(s, Change(id, e)) && visible <= Ids(s.root)
      ensures var t := Next(s, Change(id, e));
              && Valid(t) && visible <= Ids(t.root)
              && t.root == EditList(s.root, id, e) && t.nodes == s.nodes && t.force == s.force && t.engine == s.engine
              && t.flags == if Unnoticed(s.root, id, e) then s.flags else Raised(s.flags, id, e)
    {
      ChangeKeepsValid(s, id, e);
      EditShape(s.root, id, e);
    }

    method ChangeOperation(id: int, op: Operation)
      requires WellFormed() && Legal(State(), Change(id, SetOperation(op)))
      modifies this
      ensures WellFormed() && State() == old(Next(State(), Change(id, SetOperation(op))))
    {
      ghost var next := Next(State(), Change(id, SetOperation(op)));
      EditFacts(State(), id, SetOperation(op), visible);
      layers := EditList(layers, id, SetOperation(op));
      opModified := opModified + {id};
      assert State() == next;
    }

    method ChangeBlender(id: int, blender: Operation)
      requires WellFormed() && Legal(State(), Change(id, SetBlender(blender)))
      modifies this
      ensures WellFormed() && State() == old(Next(State(), Change(id, SetBlender(blender))))
    {
      ghost var next := Next(State(), Change(id, SetBlender(blender)));
      EditFacts(State(), id, SetBlender(blender), visible);
      layers := EditList(layers, id, SetBlender(blender));
      blenderModified := blenderModified + {id};
      assert State() == next;
    }

    method Enable(id: int, on: bool)
      requires WellFormed() && Legal(State(), Change(id, SetEnabled(on)))
      modifies this
      ensures WellFormed() && State() == old(Next(State(), Change(id, SetEnabled(on))))
    {
      ghost var next := Next(State(), Change(id, SetEnabled(on)));
      EditFacts(State(), id, SetEnabled(on), visible);
      var changed := EditList(layers, id, SetEnabled(on));
      if changed != layers {
        layers := changed;
        opModified := opModified + {id};
      }
      assert State() == next;
    }

    /** Sets an explicit input; the caller marks the layer dirty. */
    method ChangeInput(id: int, position: nat, input: Input)
      requires WellFormed() && Legal(State(), Change(id, Edit.ChangeInput(position, input)))
      modifies this
      ensures WellFormed() && State() == old(Next(State(), Change(id, Edit.ChangeInput(position, input))))
    {
      ghost var next := Next(State(), Change(id, Edit.ChangeInput(position, input)));
      EditFacts(State(), id, Edit.ChangeInput(position, input), visible);
      var changed := EditList(layers, id, Edit.ChangeInput(position, input));
      if changed != layers || input.layer < 0 {
        layers := changed;
        dirty := dirty + {id};
      }
      assert State() == next;
    }

    method InsertSublayer(id: int, l: Layer, after: int)
      requires WellFormed() && Legal(State(), Change(id, AddSublayer(after, l)))
      modifies this
      ensures WellFormed() && State() == old(Next(State(), Change(id, AddSublayer(after, l))))
    {
      ghost var next := Next(State(), Change(id, AddSublayer(after, l)));
      EditFacts(State(), id, AddSublayer(after, l), visible);
      var changed := EditList(layers, id, AddSublayer(after, l));
      if changed != layers {
        layers := changed;
        dirty := dirty + {l.id};
      }
      assert State() == next;
    }

    method InsertTopLayer(l: Layer, after: int) returns (ok: bool)
      requires WellFormed() && Legal(State(), AddLayer(after, l))
      modifies this
      ensures WellFormed() && State() == old(Next(State(), AddLayer(after, l)))
      ensures ok <==> after < 0 || after in old(TopIds(layers))
    {
      ghost var next := Next(State(), AddLayer(after, l));
      AddLayerKeepsValid(State(), after, l);
      InsertShape(layers, after, l);
      var changed;
      ok, changed := InsertLayer(layers, l, after);
      if changed != layers {
        layers := changed;
        dirty := dirty + {l.id};
      }
      assert State() == next;
    }

    static lemma RaiseOne(f: Flags, ids: set<int>, x: int)
      ensures Raise(Raise(f, ids, ids, ids), {x}, {x}, {x}) == Raise(f, ids + {x}, ids + {x}, ids + {x})
    {
    }

    static lemma OneMoreId(list: seq<Layer>, i: nat)
      requires i < |list|
      ensures SeqIds(list[..i + 1]) == SeqIds(list[..i]) + {list[i].id}
    {
      assert list[..i + 1] == list[..i] + [list[i]];
      SeqIdsConcat(list[..i], [list[i]]);
      assert SeqIds([list[i]]) == {[list[i]][0].id};
    }

    /** Flags all layers that may depend on a layer. */
    method FlagChildren(id: int)
      requires Distinct(layers) && MapsFlagged(layers) && id in Ids(layers)
      modifies this`dirty, this`opModified, this`blenderModified
      ensures var children := ChildIds(layers, id);
              CurrentFlags() == Raise(old(CurrentFlags()), children, children, children)
    {
      var children := GetChildLayers(layers, id, []);
      assert SeqIds([]) == {};
      FlagAll(children);
    }

    method FlagAll(list: seq<Layer>)
      modifies this`dirty, this`opModified, this`blenderModified
      ensures CurrentFlags() == Raise(old(CurrentFlags()), SeqIds(list), SeqIds(list), SeqIds(list))
    {
      assert list[..0] == [] && SeqIds([]) == {};
      for i := 0 to |list|
        invariant CurrentFlags() == Raise(old(CurrentFlags()), SeqIds(list[..i]), SeqIds(list[..i]), SeqIds(list[..i]))
      {
        OneMoreId(list, i);
        RaiseOne(old(CurrentFlags()), SeqIds(list[..i]), list[i].id);
        dirty := dirty + {list[i].id};
        opModified := opModified + {list[i].id};
        blenderModified := blenderModified + {list[i].id};
      }
      assert list[..|list|] == list;
    }

    /** Removes a layer with its contents: everything that may depend on it is flagged, all
        references to it are dropped, its nodes are deleted. */
    method RemoveLayer(id: int)
      requires WellFormed() && MapsFlagged(layers) && Legal(State(), Remove(id))
      modifies this
      ensures WellFormed() && State() == old(Next(State(), Remove(id)))
    {
      ghost var next := Next(State(), Remove(id));
      RemoveKeepsValid(State(), id);
      RemoveShape(layers, id);
      FlagChildren(id);
      var gone := RemovedIds(layers, id);
      layers := EraseLayer(layers, id);
      nodes := map x | x in nodes && x !in gone :: nodes[x];
      dirty, opModified, blenderModified := dirty - gone, opModified - gone, blenderModified - gone;
      visible := visible - gone;
      assert State() == next;
    }

    method ChangeLevel(level: int)
      requires WellFormed()
      modifies this
      ensures WellFormed() && State() == old(Next(State(), SetLevel(level)))
      ensures engine == old(engine).(level := level) && force == (old(force) || old(engine.level) != level)
      ensures unchanged(`layers, `dirty, `opModified, `blenderModified, `visible, `nodes)
    {
      if engine.level != level {
        engine := engine.(level := level);
        force := true;
      }
    }
  }
}
