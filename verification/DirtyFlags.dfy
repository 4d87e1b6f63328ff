/** Which layers are stale: the walk that runs before every rebuild. */
module DirtyFlags {
  import opened Basics
  import opened LayerTree

  /** The flags of all pool layers, each as the set of ids that carry it. */
  datatype Flags = Flags(dirty: set<int>, op: set<int>, blend: set<int>)

  // -------------------------------------------------------------------------
  // The walk as a function
  // -------------------------------------------------------------------------

  datatype Visit = Visit(dirty: bool, flags: Flags)

  predicate AnyInputDirty(inputs: seq<Input>, dirty: set<int>) {
    exists i :: 0 <= i < |inputs| && inputs[i].layer in dirty
  }

  function SettleLayer(l: Layer, incoming: bool, inputDirty: bool, blenderDirty: bool, filterDirty: bool,
                       f: Flags): Visit {
    var d := incoming || l.id in f.dirty || inputDirty || blenderDirty || filterDirty;
    Visit(d, Flags(
            if d then f.dirty + {l.id} else f.dirty - {l.id},
            if inputDirty then f.op + {l.id} else f.op,
            if inputDirty || blenderDirty || filterDirty then f.blend + {l.id} else f.blend))
  }

  function VisitLayer(l: Layer, incoming: bool, f: Flags): Visit {
    var viaInput := AnyInputDirty(l.inputs, f.dirty);
    var intensity := VisitList(l.imaps, false, f);
    var opacity := VisitList(l.omaps, false, intensity.flags);
    var sub := VisitList(l.sublayers, incoming, opacity.flags);
    SettleLayer(l, incoming, incoming || viaInput || intensity.dirty || sub.dirty,
                l.id in f.blend || opacity.dirty, l.id in f.op, sub.flags)
  }

  function VisitList(list: seq<Layer>, incoming: bool, f: Flags): Visit {
    if list == [] then Visit(incoming, f)
    else
      var v := VisitLayer(list[0], incoming, f);
      VisitList(list[1..], v.dirty, v.flags)
  }

  // -------------------------------------------------------------------------
  // The dependency graph of a tree
  // -------------------------------------------------------------------------

  datatype Kind = Chain | Group | IntensityMap | OpacityMap | Explicit

  datatype Link = Link(from: int, to: int, kind: Kind)

  /** What one layer reads: its predecessor in the chain, its own sublayers and maps, and those
      explicit inputs whose layers are already settled (`done`) when the layer is reached. */
  function LinksAt(l: Layer, prev: Option<int>, done: set<int>): set<Link> {
    (if prev.Some? then {Link(prev.value, l.id, Chain)} else {})
    + (set i | 0 <= i < |l.sublayers| :: Link(l.sublayers[i].id, l.id, Group))
    + (set i | 0 <= i < |l.imaps| :: Link(l.imaps[i].id, l.id, IntensityMap))
    + (set i | 0 <= i < |l.omaps| :: Link(l.omaps[i].id, l.id, OpacityMap))
    + (set i | 0 <= i < |l.inputs| && l.inputs[i].layer in done :: Link(l.inputs[i].layer, l.id, Explicit))
  }

  /** All links of the lists.  The first sublayer of a group reads what the group's
      predecessor produced; a map chain starts from nothing. */
  function Links(list: seq<Layer>, prev: Option<int>, done: set<int>): set<Link> {
    if list == [] then {}
    else
      var l := list[0];
      LinksOf(l, prev, done) + Links(list[1..], Some(l.id), done + IdsOf(l))
  }

  function LinksOf(l: Layer, prev: Option<int>, done: set<int>): set<Link> {
    LinksAt(l, prev, done)
    + Links(l.imaps, None, done)
    + Links(l.omaps, None, done + Ids(l.imaps))
    + Links(l.sublayers, prev, done + Ids(l.imaps) + Ids(l.omaps))
  }

  /** Layers reading an input that is not settled yet but carries an old dirty flag. */
  function EarlyReaders(list: seq<Layer>, done: set<int>, dirty: set<int>): set<int> {
    if list == [] then {}
    else EarlyReadersOf(list[0], done, dirty) + EarlyReaders(list[1..], done + IdsOf(list[0]), dirty)
  }

  function EarlyReadersOf(l: Layer, done: set<int>, dirty: set<int>): set<int> {
    (if AnyInputDirty(l.inputs, dirty - done) then {l.id} else {})
    + EarlyReaders(l.imaps, done, dirty)
    + EarlyReaders(l.omaps, done + Ids(l.imaps), dirty)
    + EarlyReaders(l.sublayers, done + Ids(l.imaps) + Ids(l.omaps), dirty)
  }

  predicate ClosedUnder(links: set<Link>, s: set<int>) {
    forall e :: e in links && e.from in s ==> e.to in s
  }

  /** The layers of the tree that are stale whatever the links say. */
  function Seeds(list: seq<Layer>, done: set<int>, f: Flags): set<int> {
    f.dirty + (Ids(list) * (f.op + f.blend)) + EarlyReaders(list, done, f.dirty)
  }

  function Targets(links: set<Link>, dirty: set<int>): set<int> {
    set e | e in links && e.from in dirty :: e.to
  }

  function InputLinks(links: set<Link>): set<Link> {
    set e | e in links && e.kind != OpacityMap
  }

  // -------------------------------------------------------------------------
  // Frame
  // -------------------------------------------------------------------------

  ghost predicate Grows(f: Flags, g: Flags, ids: set<int>) {
    && f.dirty <= g.dirty <= f.dirty + ids
    && f.op <= g.op <= f.op + ids
    && f.blend <= g.blend <= f.blend + ids
  }

  lemma {:induction false} VisitLayerGrows(l: Layer, incoming: bool, f: Flags)
    ensures Grows(f, VisitLayer(l, incoming, f).flags, IdsOf(l))
    decreases l
  {
    var intensity := VisitList(l.imaps, false, f);
    var opacity := VisitList(l.omaps, false, intensity.flags);
    VisitListGrows(l.imaps, false, f);
    VisitListGrows(l.omaps, false, intensity.flags);
    VisitListGrows(l.sublayers, incoming, opacity.flags);
  }

  lemma {:induction false} VisitListGrows(list: seq<Layer>, incoming: bool, f: Flags)
    ensures Grows(f, VisitList(list, incoming, f).flags, Ids(list))
    decreases list
  {
    if list != [] {
      var v := VisitLayer(list[0], incoming, f);
      VisitLayerGrows(list[0], incoming, f);
      VisitListGrows(list[1..], v.dirty, v.flags);
    }
  }

  ghost predicate AgreeOutside(a: set<int>, b: set<int>, done: set<int>) {
    forall x :: x !in done ==> (x in a <==> x in b)
  }

  lemma {:induction false} EarlyReadersFrame(list: seq<Layer>, done: set<int>, a: set<int>, b: set<int>)
    requires AgreeOutside(a, b, done)
    ensures EarlyReaders(list, done, a) == EarlyReaders(list, done, b)
    decreases list
  {
    if list != [] {
      EarlyReadersOfFrame(list[0], done, a, b);
      EarlyReadersFrame(list[1..], done + IdsOf(list[0]), a, b);
    }
  }

  lemma {:induction false} EarlyReadersOfFrame(l: Layer, done: set<int>, a: set<int>, b: set<int>)
    requires AgreeOutside(a, b, done)
    ensures EarlyReadersOf(l, done, a) == EarlyReadersOf(l, done, b)
    decreases l
  {
    assert forall x :: x in a - done <==> x in b - done;
    EarlyReadersFrame(l.imaps, done, a, b);
    EarlyReadersFrame(l.omaps, done + Ids(l.imaps), a, b);
    EarlyReadersFrame(l.sublayers, done + Ids(l.imaps) + Ids(l.omaps), a, b);
  }

  // -------------------------------------------------------------------------
  // The dirty set is closed
  // -------------------------------------------------------------------------

  predicate IncomingDirty(prev: Option<int>, f: Flags) {
    prev.Some? && prev.value in f.dirty
  }

  function SeedsOf(l: Layer, done: set<int>, f: Flags): set<int> {
    f.dirty + (IdsOf(l) * (f.op + f.blend)) + EarlyReadersOf(l, done, f.dirty)
  }

  /** Flags set later, elsewhere, do not open a closed set of links. */
  lemma ClosedStaysClosed(links: set<Link>, sources: set<int>, ids: set<int>, s: set<int>, t: set<int>, more: set<int>)
    requires Inside(links, sources, ids) && ClosedUnder(links, s)
    requires s <= t <= s + more && more !! sources + ids
    ensures ClosedUnder(links, t)
  {
  }

  lemma ClosedUnion(a: set<Link>, b: set<Link>, s: set<int>)
    ensures ClosedUnder(a + b, s) <==> ClosedUnder(a, s) && ClosedUnder(b, s)
  {
    if ClosedUnder(a + b, s) {
      assert forall e :: e in a || e in b ==> e in a + b;
    }
  }

  /** The result of one list: what its links and its outgoing flag say. */
  ghost predicate ListSettled(list: seq<Layer>, prev: Option<int>, done: set<int>, f: Flags, v: Visit) {
    && Seeds(list, done, f) <= v.flags.dirty
    && ClosedUnder(Links(list, prev, done), v.flags.dirty)
    && Carries(list, IncomingDirty(prev, f), v)
  }

  /** The outgoing flag is set exactly by the incoming one or by a dirty layer of the list. */
  ghost predicate Carries(list: seq<Layer>, incoming: bool, v: Visit) {
    && (incoming ==> v.dirty)
    && (forall i :: 0 <= i < |list| && list[i].id in v.flags.dirty ==> v.dirty)
    && (v.dirty ==> if list == [] then incoming else list[|list| - 1].id in v.flags.dirty)
  }

  ghost predicate LayerSettled(l: Layer, prev: Option<int>, done: set<int>, f: Flags, v: Visit) {
    && SeedsOf(l, done, f) <= v.flags.dirty
    && ClosedUnder(LinksOf(l, prev, done), v.flags.dirty)
    && v.dirty == (l.id in v.flags.dirty)
  }

  /** A dirty layer of a list is seen by whoever reads the list's outgoing flag. */
  lemma {:induction false} CarriedUp(list: seq<Layer>, incoming: bool, v: Visit, i: int, t: set<int>)
    requires 0 <= i < |list| && list[i].id in t
    requires Carries(list, incoming, v) && t * Ids(list) <= v.flags.dirty
    ensures v.dirty
  {
    TopIdsAreIds(list);
    assert list[i].id in TopIds(list);
  }

  lemma OwnLinksClosed(l: Layer, prev: Option<int>, done: set<int>, inputDirty: bool, blenderDirty: bool, f: Flags,
                       f1: Visit, f2: Visit, f3: Visit, t: set<int>)
    requires prev.Some? ==> prev.value in done
    requires t * done <= f.dirty
    requires t * Ids(l.imaps) <= f1.flags.dirty
    requires t * Ids(l.omaps) <= f2.flags.dirty
    requires t * Ids(l.sublayers) <= f3.flags.dirty
    requires Carries(l.imaps, false, f1) && Carries(l.omaps, false, f2)
    requires Carries(l.sublayers, IncomingDirty(prev, f), f3)
    requires IncomingDirty(prev, f) || AnyInputDirty(l.inputs, f.dirty) || f1.dirty || f3.dirty ==> inputDirty
    requires f2.dirty ==> blenderDirty
    requires inputDirty || blenderDirty ==> l.id in t
    ensures ClosedUnder(LinksAt(l, prev, done), t)
  {
    forall e | e in LinksAt(l, prev, done) && e.from in t ensures e.to in t {
      match e.kind
      case Chain => assert prev.value in t * done;
      case Group =>
        var i :| 0 <= i < |l.sublayers| && e == Link(l.sublayers[i].id, l.id, Group);
        CarriedUp(l.sublayers, IncomingDirty(prev, f), f3, i, t);
      case IntensityMap =>
        var i :| 0 <= i < |l.imaps| && e == Link(l.imaps[i].id, l.id, IntensityMap);
        CarriedUp(l.imaps, false, f1, i, t);
      case OpacityMap =>
        var i :| 0 <= i < |l.omaps| && e == Link(l.omaps[i].id, l.id, OpacityMap);
        CarriedUp(l.omaps, false, f2, i, t);
      case Explicit =>
        var i :| 0 <= i < |l.inputs| && l.inputs[i].layer in done && e == Link(l.inputs[i].layer, l.id, Explicit);
        assert l.inputs[i].layer in t * done;
    }
  }

  lemma {:induction false} LayerIsClosed(l: Layer, prev: Option<int>, done: set<int>, f: Flags)
    requires DistinctLayer(l) && IdsOf(l) !! done
    requires prev.Some? ==> prev.value in done
    ensures LayerSettled(l, prev, done, f, VisitLayer(l, IncomingDirty(prev, f), f))
    decreases l
  {
    var inc := IncomingDirty(prev, f);
    var v := VisitLayer(l, inc, f);
    var f1 := VisitList(l.imaps, false, f);
    var f2 := VisitList(l.omaps, false, f1.flags);
    var f3 := VisitList(l.sublayers, inc, f2.flags);
    VisitListGrows(l.imaps, false, f);
    VisitListGrows(l.omaps, false, f1.flags);
    VisitListGrows(l.sublayers, inc, f2.flags);
    ListIsClosed(l.imaps, None, done, f);
    ListIsClosed(l.omaps, None, done + Ids(l.imaps), f1.flags);
    ListIsClosed(l.sublayers, prev, done + Ids(l.imaps) + Ids(l.omaps), f2.flags);
    OwnLinksClosed(l, prev, done, inc || AnyInputDirty(l.inputs, f.dirty) || f1.dirty || f3.dirty,
                   l.id in f.blend || f2.dirty, f, f1, f2, f3, v.flags.dirty);
    NestedLinksClosed(l, prev, done, f1.flags.dirty, f2.flags.dirty, f3.flags.dirty, v.flags.dirty);
    NestedSeeds(l, prev, done, f, f1.flags, f2.flags, f3.flags);
  }

  lemma {:induction false} NestedLinksClosed(l: Layer, prev: Option<int>, done: set<int>, s1: set<int>, s2: set<int>,
                                             s3: set<int>, t: set<int>)
    requires DistinctLayer(l) && IdsOf(l) !! done
    requires prev.Some? ==> prev.value in done
    requires ClosedUnder(Links(l.imaps, None, done), s1)
    requires ClosedUnder(Links(l.omaps, None, done + Ids(l.imaps)), s2)
    requires ClosedUnder(Links(l.sublayers, prev, done + Ids(l.imaps) + Ids(l.omaps)), s3)
    requires s1 <= s2 <= s1 + Ids(l.omaps)
    requires s2 <= s3 <= s2 + Ids(l.sublayers)
    requires s3 <= t <= s3 + {l.id}
    requires ClosedUnder(LinksAt(l, prev, done), t)
    ensures ClosedUnder(LinksOf(l, prev, done), t)
  {
    LinksStayInside(l.imaps, None, done);
    LinksStayInside(l.omaps, None, done + Ids(l.imaps));
    LinksStayInside(l.sublayers, prev, done + Ids(l.imaps) + Ids(l.omaps));
    ClosedStaysClosed(Links(l.imaps, None, done), done, Ids(l.imaps), s1, t, Ids(l.omaps) + Ids(l.sublayers) + {l.id});
    ClosedStaysClosed(Links(l.omaps, None, done + Ids(l.imaps)), done + Ids(l.imaps), Ids(l.omaps),
                      s2, t, Ids(l.sublayers) + {l.id});
    ClosedStaysClosed(Links(l.sublayers, prev, done + Ids(l.imaps) + Ids(l.omaps)), done + Ids(l.imaps) + Ids(l.omaps),
                      Ids(l.sublayers), s3, t, {l.id});
  }

  lemma {:induction false} NestedSeeds(l: Layer, prev: Option<int>, done: set<int>, f: Flags, f1: Flags, f2: Flags,
                                       f3: Flags)
    requires DistinctLayer(l) && IdsOf(l) !! done
    requires Grows(f, f1, Ids(l.imaps)) && Grows(f1, f2, Ids(l.omaps)) && Grows(f2, f3, Ids(l.sublayers))
    requires Seeds(l.imaps, done, f) <= f1.dirty
    requires Seeds(l.omaps, done + Ids(l.imaps), f1) <= f2.dirty
    requires Seeds(l.sublayers, done + Ids(l.imaps) + Ids(l.omaps), f2) <= f3.dirty
    ensures SeedsOf(l, done, f) <= f3.dirty
            + (if l.id in f.op + f.blend || AnyInputDirty(l.inputs, f.dirty) then {l.id} else {})
  {
    EarlyReadersFrame(l.omaps, done + Ids(l.imaps), f.dirty, f1.dirty);
    EarlyReadersFrame(l.sublayers, done + Ids(l.imaps) + Ids(l.omaps), f.dirty, f2.dirty);
  }

  lemma {:induction false} ListIsClosed(list: seq<Layer>, prev: Option<int>, done: set<int>, f: Flags)
    requires Distinct(list) && Ids(list) !! done
    requires prev.Some? ==> prev.value in done
    ensures ListSettled(list, prev, done, f, VisitList(list, IncomingDirty(prev, f), f))
    decreases list
  {
    if list != [] {
      var l, rest := list[0], list[1..];
      var v := VisitLayer(l, IncomingDirty(prev, f), f);
      var w := VisitList(rest, v.dirty, v.flags);
      LayerIsClosed(l, prev, done, f);
      VisitLayerGrows(l, IncomingDirty(prev, f), f);
      ListIsClosed(rest, Some(l.id), done + IdsOf(l), v.flags);
      VisitListGrows(rest, v.dirty, v.flags);
      ConsSettled(list, prev, done, f, v, w);
    }
  }

  lemma {:induction false} ConsSettled(list: seq<Layer>, prev: Option<int>, done: set<int>, f: Flags, v: Visit,
                                       w: Visit)
    requires list != [] && Distinct(list) && Ids(list) !! done
    requires prev.Some? ==> prev.value in done
    requires LayerSettled(list[0], prev, done, f, v) && Grows(f, v.flags, IdsOf(list[0]))
    requires IncomingDirty(prev, f) ==> v.dirty
    requires ListSettled(list[1..], Some(list[0].id), done + IdsOf(list[0]), v.flags, w)
    requires Grows(v.flags, w.flags, Ids(list[1..]))
    ensures ListSettled(list, prev, done, f, w)
  {
    var l, rest := list[0], list[1..];
    EarlyReadersFrame(rest, done + IdsOf(l), f.dirty, v.flags.dirty);
    LinksOfStayInside(l, prev, done);
    ClosedStaysClosed(LinksOf(l, prev, done), done, IdsOf(l), v.flags.dirty, w.flags.dirty, Ids(rest));
    ConsCarries(list, IncomingDirty(prev, f), v, w);
  }

  lemma {:induction false} ConsCarries(list: seq<Layer>, incoming: bool, v: Visit, w: Visit)
    requires list != [] && Distinct(list)
    requires incoming ==> v.dirty
    requires v.dirty == (list[0].id in v.flags.dirty)
    requires Carries(list[1..], v.dirty, w) && Grows(v.flags, w.flags, Ids(list[1..]))
    ensures Carries(list, incoming, w)
  {
    forall i | 0 <= i < |list| && list[i].id in w.flags.dirty ensures w.dirty {
      if i > 0 { assert list[i] == list[1..][i - 1]; }
    }
    if |list| > 1 { assert list[|list| - 1] == list[1..][|list| - 2]; }
  }

  /** Links start at settled layers or inside the tree and end inside it. */
  ghost predicate Inside(links: set<Link>, sources: set<int>, ids: set<int>) {
    forall e :: e in links ==> e.from in sources + ids && e.to in ids
  }

  lemma {:induction false} LinksOfStayInside(l: Layer, prev: Option<int>, done: set<int>)
    requires prev.Some? ==> prev.value in done
    ensures Inside(LinksOf(l, prev, done), done, IdsOf(l))
    decreases l
  {
    OwnLinksInside(l, prev, done);
    LinksStayInside(l.imaps, None, done);
    LinksStayInside(l.omaps, None, done + Ids(l.imaps));
    LinksStayInside(l.sublayers, prev, done + Ids(l.imaps) + Ids(l.omaps));
    InsideUnion(LinksAt(l, prev, done), Links(l.imaps, None, done), Links(l.omaps, None, done + Ids(l.imaps)),
                Links(l.sublayers, prev, done + Ids(l.imaps) + Ids(l.omaps)),
                done, l.id, Ids(l.sublayers), Ids(l.imaps), Ids(l.omaps));
  }

  lemma {:induction false} OwnLinksInside(l: Layer, prev: Option<int>, done: set<int>)
    requires prev.Some? ==> prev.value in done
    ensures Inside(LinksAt(l, prev, done), done, IdsOf(l))
  {
    TopIdsAreIds(l.imaps);
    TopIdsAreIds(l.omaps);
    TopIdsAreIds(l.sublayers);
  }

  lemma InsideUnion(own: set<Link>, x: set<Link>, y: set<Link>, z: set<Link>, done: set<int>, id: int, s: set<int>,
                    a: set<int>, b: set<int>)
    requires Inside(own, done, {id} + s + a + b) && Inside(x, done, a) && Inside(y, done + a, b)
             && Inside(z, done + a + b, s)
    ensures Inside(own + x + y + z, done, {id} + s + a + b)
  {
  }

  lemma {:induction false} LinksStayInside(list: seq<Layer>, prev: Option<int>, done: set<int>)
    requires prev.Some? ==> prev.value in done
    ensures Inside(Links(list, prev, done), done, Ids(list))
    decreases list
  {
    if list != [] {
      LinksOfStayInside(list[0], prev, done);
      LinksStayInside(list[1..], Some(list[0].id), done + IdsOf(list[0]));
    }
  }

  // -------------------------------------------------------------------------
  // The dirty set is the least closed one
  // -------------------------------------------------------------------------

  lemma {:induction false} SeedsOfPart(part: seq<Layer>, done: set<int>, f: Flags, g: Flags, before: set<int>,
                                       s: set<int>)
    requires before !! Ids(part) && before <= done
    requires Grows(f, g, before) && g.dirty <= s
    requires Ids(part) * (f.op + f.blend) <= s && EarlyReaders(part, done, f.dirty) <= s
    ensures Seeds(part, done, g) <= s
  {
    EarlyReadersFrame(part, done, f.dirty, g.dirty);
  }

  lemma {:induction false} PartsAreLeast(l: Layer, prev: Option<int>, done: set<int>, f: Flags, s: set<int>)
    requires DistinctLayer(l) && IdsOf(l) !! done
    requires prev.Some? ==> prev.value in done
    requires SeedsOf(l, done, f) <= s && ClosedUnder(LinksOf(l, prev, done), s)
    ensures var f1 := VisitList(l.imaps, false, f);
            var f2 := VisitList(l.omaps, false, f1.flags);
            var f3 := VisitList(l.sublayers, IncomingDirty(prev, f), f2.flags);
            f1.flags.dirty <= s && f2.flags.dirty <= s && f3.flags.dirty <= s
    decreases l, 0
  {
    var f1 := VisitList(l.imaps, false, f);
    var f2 := VisitList(l.omaps, false, f1.flags);
    var f3 := VisitList(l.sublayers, IncomingDirty(prev, f), f2.flags);
    VisitListGrows(l.imaps, false, f);
    VisitListGrows(l.omaps, false, f1.flags);
    LinksOfParts(l, prev, done, s);
    var ids := IdsOf(l) * (f.op + f.blend);
    assert Ids(l.imaps) * (f.op + f.blend) <= ids && Ids(l.omaps) * (f.op + f.blend) <= ids;
    assert Ids(l.sublayers) * (f.op + f.blend) <= ids;
    SeedsOfPart(l.imaps, done, f, f, {}, s);
    ListIsLeast(l.imaps, None, done, f, s);
    SeedsOfPart(l.omaps, done + Ids(l.imaps), f, f1.flags, Ids(l.imaps), s);
    ListIsLeast(l.omaps, None, done + Ids(l.imaps), f1.flags, s);
    SeedsOfPart(l.sublayers, done + Ids(l.imaps) + Ids(l.omaps), f, f2.flags, Ids(l.imaps) + Ids(l.omaps), s);
    ListIsLeast(l.sublayers, prev, done + Ids(l.imaps) + Ids(l.omaps), f2.flags, s);
  }

  lemma {:induction false} LayerIsLeast(l: Layer, prev: Option<int>, done: set<int>, f: Flags, s: set<int>)
    requires DistinctLayer(l) && IdsOf(l) !! done
    requires prev.Some? ==> prev.value in done
    requires SeedsOf(l, done, f) <= s && ClosedUnder(LinksOf(l, prev, done), s)
    ensures VisitLayer(l, IncomingDirty(prev, f), f).flags.dirty <= s
    decreases l, 1
  {
    var inc := IncomingDirty(prev, f);
    var f1 := VisitList(l.imaps, false, f);
    var f2 := VisitList(l.omaps, false, f1.flags);
    var f3 := VisitList(l.sublayers, inc, f2.flags);
    PartsAreLeast(l, prev, done, f, s);
    LinksOfParts(l, prev, done, s);
    VisitListGrows(l.imaps, false, f);
    VisitListGrows(l.omaps, false, f1.flags);
    PartsCarry(l, prev, done, f, f1, f2, f3);
    assert IncomingDirty(prev, f2.flags) == inc;
    OwnFlagIsForced(l, prev, done, f, f1, f2, f3, s);
  }

  lemma {:induction false} PartsCarry(l: Layer, prev: Option<int>, done: set<int>, f: Flags, f1: Visit, f2: Visit,
                                      f3: Visit)
    requires DistinctLayer(l) && IdsOf(l) !! done
    requires prev.Some? ==> prev.value in done
    requires f1 == VisitList(l.imaps, false, f)
    requires f2 == VisitList(l.omaps, false, f1.flags)
    requires f3 == VisitList(l.sublayers, IncomingDirty(prev, f), f2.flags)
    ensures Carries(l.imaps, false, f1) && Carries(l.omaps, false, f2)
    ensures Carries(l.sublayers, IncomingDirty(prev, f), f3)
    ensures IncomingDirty(prev, f2.flags) == IncomingDirty(prev, f)
  {
    VisitListGrows(l.imaps, false, f);
    VisitListGrows(l.omaps, false, f1.flags);
    ListIsClosed(l.imaps, None, done, f);
    ListIsClosed(l.omaps, None, done + Ids(l.imaps), f1.flags);
    ListIsClosed(l.sublayers, prev, done + Ids(l.imaps) + Ids(l.omaps), f2.flags);
  }

  lemma {:induction false} LinksOfParts(l: Layer, prev: Option<int>, done: set<int>, s: set<int>)
    requires ClosedUnder(LinksOf(l, prev, done), s)
    ensures ClosedUnder(LinksAt(l, prev, done), s)
    ensures ClosedUnder(Links(l.imaps, None, done), s)
    ensures ClosedUnder(Links(l.omaps, None, done + Ids(l.imaps)), s)
    ensures ClosedUnder(Links(l.sublayers, prev, done + Ids(l.imaps) + Ids(l.omaps)), s)
  {
    var a, b := LinksAt(l, prev, done), Links(l.imaps, None, done);
    var c := Links(l.omaps, None, done + Ids(l.imaps));
    var d := Links(l.sublayers, prev, done + Ids(l.imaps) + Ids(l.omaps));
    ClosedUnion(a, b, s);
    ClosedUnion(a + b, c, s);
    ClosedUnion(a + b + c, d, s);
  }

  lemma OwnFlagIsForced(l: Layer, prev: Option<int>, done: set<int>, f: Flags, f1: Visit, f2: Visit, f3: Visit,
                        s: set<int>)
    requires f.dirty <= s && f1.flags.dirty <= s && f2.flags.dirty <= s && f3.flags.dirty <= s
    requires ClosedUnder(LinksAt(l, prev, done), s)
    requires AnyInputDirty(l.inputs, f.dirty - done) || l.id in f.op + f.blend ==> l.id in s
    requires Carries(l.imaps, false, f1) && Carries(l.omaps, false, f2)
    requires Carries(l.sublayers, IncomingDirty(prev, f), f3)
    ensures (IncomingDirty(prev, f) || AnyInputDirty(l.inputs, f.dirty) || f1.dirty || f2.dirty || f3.dirty
             || l.id in f.op + f.blend) ==> l.id in s
  {
    if IncomingDirty(prev, f) {
      assert Link(prev.value, l.id, Chain) in LinksAt(l, prev, done);
    } else if AnyInputDirty(l.inputs, f.dirty) {
      var i :| 0 <= i < |l.inputs| && l.inputs[i].layer in f.dirty;
      if l.inputs[i].layer in done {
        assert Link(l.inputs[i].layer, l.id, Explicit) in LinksAt(l, prev, done);
      } else {
        assert l.inputs[i].layer in f.dirty - done;
      }
    } else if f1.dirty {
      assert Link(l.imaps[|l.imaps| - 1].id, l.id, IntensityMap) in LinksAt(l, prev, done);
    } else if f2.dirty {
      assert Link(l.omaps[|l.omaps| - 1].id, l.id, OpacityMap) in LinksAt(l, prev, done);
    } else if f3.dirty {
      assert Link(l.sublayers[|l.sublayers| - 1].id, l.id, Group) in LinksAt(l, prev, done);
    }
  }

  lemma {:induction false} ListIsLeast(list: seq<Layer>, prev: Option<int>, done: set<int>, f: Flags, s: set<int>)
    requires Distinct(list) && Ids(list) !! done
    requires prev.Some? ==> prev.value in done
    requires Seeds(list, done, f) <= s && ClosedUnder(Links(list, prev, done), s)
    ensures VisitList(list, IncomingDirty(prev, f), f).flags.dirty <= s
    decreases list, 0
  {
    if list != [] {
      var l, rest := list[0], list[1..];
      var v := VisitLayer(l, IncomingDirty(prev, f), f);
      ClosedUnion(LinksOf(l, prev, done), Links(rest, Some(l.id), done + IdsOf(l)), s);
      LayerIsLeast(l, prev, done, f, s);
      LayerIsClosed(l, prev, done, f);
      VisitLayerGrows(l, IncomingDirty(prev, f), f);
      EarlyReadersFrame(rest, done + IdsOf(l), f.dirty, v.flags.dirty);
      ListIsLeast(rest, Some(l.id), done + IdsOf(l), v.flags, s);
    }
  }

  // -------------------------------------------------------------------------
  // Which operations and blenders end up marked modified
  // -------------------------------------------------------------------------

  ghost predicate Marked(links: set<Link>, early: set<int>, ids: set<int>, f: Flags, g: Flags) {
    && g.op == f.op + Targets(InputLinks(links), g.dirty) + early
    && g.blend == f.blend + ids * f.op + Targets(links, g.dirty) + early
  }

  lemma TargetsUnion(a: set<Link>, b: set<Link>, s: set<int>)
    ensures Targets(a + b, s) == Targets(a, s) + Targets(b, s)
    ensures InputLinks(a + b) == InputLinks(a) + InputLinks(b)
    ensures Targets(InputLinks(a + b), s) == Targets(InputLinks(a), s) + Targets(InputLinks(b), s)
  {
    assert InputLinks(a + b) == InputLinks(a) + InputLinks(b);
    TargetsOfUnion(a, b, s);
    TargetsOfUnion(InputLinks(a), InputLinks(b), s);
  }

  lemma TargetsOfUnion(a: set<Link>, b: set<Link>, s: set<int>)
    ensures Targets(a + b, s) == Targets(a, s) + Targets(b, s)
  {
  }

  lemma TargetsLater(links: set<Link>, sources: set<int>, ids: set<int>, s: set<int>, t: set<int>, more: set<int>)
    requires Inside(links, sources, ids)
    requires s <= t <= s + more && more !! sources + ids
    ensures Targets(links, s) == Targets(links, t)
    ensures Targets(InputLinks(links), s) == Targets(InputLinks(links), t)
  {
  }

  /** The flags a layer reads about its own neighbours, seen again in the final dirty set t. */
  ghost predicate SeenAgain(l: Layer, done: set<int>, f: Flags, f1: Visit, f2: Visit, f3: Visit, t: set<int>) {
    && t * done == f.dirty * done
    && t * Ids(l.imaps) == f1.flags.dirty * Ids(l.imaps)
    && t * Ids(l.omaps) == f2.flags.dirty * Ids(l.omaps)
    && t * Ids(l.sublayers) == f3.flags.dirty * Ids(l.sublayers)
  }

  function OwnId(id: int, flag: bool): set<int> {
    if flag then {id} else {}
  }

  lemma OwnTargetsSound(l: Layer, prev: Option<int>, done: set<int>, f: Flags, f1: Visit, f2: Visit, f3: Visit,
                        t: set<int>, e: Link)
    requires prev.Some? ==> prev.value in done
    requires SeenAgain(l, done, f, f1, f2, f3, t)
    requires Carries(l.imaps, false, f1) && Carries(l.omaps, false, f2)
    requires Carries(l.sublayers, IncomingDirty(prev, f), f3)
    requires e in LinksAt(l, prev, done) && e.from in t
    ensures e.to == l.id
    ensures e.kind != OpacityMap ==> IncomingDirty(prev, f) || AnyInputDirty(l.inputs, f.dirty) || f1.dirty || f3.dirty
    ensures e.kind == OpacityMap ==> f2.dirty
  {
    match e.kind
    case Chain => assert prev.value in t * done;
    case Group =>
      var i :| 0 <= i < |l.sublayers| && e == Link(l.sublayers[i].id, l.id, Group);
      CarriedUp(l.sublayers, IncomingDirty(prev, f), f3, i, t);
    case IntensityMap =>
      var i :| 0 <= i < |l.imaps| && e == Link(l.imaps[i].id, l.id, IntensityMap);
      CarriedUp(l.imaps, false, f1, i, t);
    case OpacityMap =>
      var i :| 0 <= i < |l.omaps| && e == Link(l.omaps[i].id, l.id, OpacityMap);
      CarriedUp(l.omaps, false, f2, i, t);
    case Explicit =>
      var i :| 0 <= i < |l.inputs| && l.inputs[i].layer in done && e == Link(l.inputs[i].layer, l.id, Explicit);
      assert l.inputs[i].layer in t * done;
  }

  lemma {:induction false} LastIsTop(list: seq<Layer>, s: set<int>, t: set<int>)
    requires list != [] && list[|list| - 1].id in s && t * Ids(list) == s * Ids(list)
    ensures list[|list| - 1].id in t
  {
    TopIdsAreIds(list);
    assert list[|list| - 1].id in TopIds(list);
    assert list[|list| - 1].id in s * Ids(list);
  }

  lemma OwnInputComplete(l: Layer, prev: Option<int>, done: set<int>, f: Flags, f1: Visit, f2: Visit, f3: Visit,
                         t: set<int>)
    requires prev.Some? ==> prev.value in done
    requires SeenAgain(l, done, f, f1, f2, f3, t)
    requires Carries(l.imaps, false, f1) && Carries(l.sublayers, IncomingDirty(prev, f), f3)
    requires IncomingDirty(prev, f) || AnyInputDirty(l.inputs, f.dirty) || f1.dirty || f3.dirty
    ensures l.id in Targets(InputLinks(LinksAt(l, prev, done)), t) || AnyInputDirty(l.inputs, f.dirty - done)
  {
    var links := InputLinks(LinksAt(l, prev, done));
    if IncomingDirty(prev, f) {
      assert prev.value in f.dirty * done;
      assert Link(prev.value, l.id, Chain) in links;
    } else if AnyInputDirty(l.inputs, f.dirty) {
      var i :| 0 <= i < |l.inputs| && l.inputs[i].layer in f.dirty;
      if l.inputs[i].layer in done {
        assert l.inputs[i].layer in f.dirty * done;
        assert Link(l.inputs[i].layer, l.id, Explicit) in links;
      } else {
        assert l.inputs[i].layer in f.dirty - done;
      }
    } else if f1.dirty {
      LastIsTop(l.imaps, f1.flags.dirty, t);
      assert Link(l.imaps[|l.imaps| - 1].id, l.id, IntensityMap) in links;
    } else {
      LastIsTop(l.sublayers, f3.flags.dirty, t);
      assert Link(l.sublayers[|l.sublayers| - 1].id, l.id, Group) in links;
    }
  }

  lemma OwnMarks(l: Layer, prev: Option<int>, done: set<int>, f: Flags, f1: Visit, f2: Visit, f3: Visit, t: set<int>)
    requires prev.Some? ==> prev.value in done
    requires SeenAgain(l, done, f, f1, f2, f3, t)
    requires Carries(l.imaps, false, f1) && Carries(l.omaps, false, f2)
    requires Carries(l.sublayers, IncomingDirty(prev, f), f3)
    ensures var links, early := LinksAt(l, prev, done), OwnId(l.id, AnyInputDirty(l.inputs, f.dirty - done));
            var input := IncomingDirty(prev, f) || AnyInputDirty(l.inputs, f.dirty) || f1.dirty || f3.dirty;
            && Targets(InputLinks(links), t) + early == OwnId(l.id, input)
            && Targets(links, t) + early == OwnId(l.id, input || f2.dirty)
  {
    var links := LinksAt(l, prev, done);
    forall e | e in links && e.from in t
      ensures e.to == l.id
      ensures e.kind != OpacityMap ==>
                IncomingDirty(prev, f) || AnyInputDirty(l.inputs, f.dirty) || f1.dirty || f3.dirty
      ensures e.kind == OpacityMap ==> f2.dirty
    {
      OwnTargetsSound(l, prev, done, f, f1, f2, f3, t, e);
    }
    if IncomingDirty(prev, f) || AnyInputDirty(l.inputs, f.dirty) || f1.dirty || f3.dirty {
      OwnInputComplete(l, prev, done, f, f1, f2, f3, t);
    }
    if f2.dirty {
      LastIsTop(l.omaps, f2.flags.dirty, t);
      assert Link(l.omaps[|l.omaps| - 1].id, l.id, OpacityMap) in links;
    }
  }

  lemma {:induction false} ListMarks(list: seq<Layer>, prev: Option<int>, done: set<int>, f: Flags)
    requires Distinct(list) && Ids(list) !! done
    requires prev.Some? ==> prev.value in done
    ensures Marked(Links(list, prev, done), EarlyReaders(list, done, f.dirty), Ids(list), f,
                   VisitList(list, IncomingDirty(prev, f), f).flags)
    decreases list
  {
    if list != [] {
      var l, rest := list[0], list[1..];
      var v := VisitLayer(l, IncomingDirty(prev, f), f);
      var w := VisitList(rest, v.dirty, v.flags);
      var links, more := LinksOf(l, prev, done), Links(rest, Some(l.id), done + IdsOf(l));
      LayerIsClosed(l, prev, done, f);
      VisitLayerGrows(l, IncomingDirty(prev, f), f);
      VisitListGrows(rest, v.dirty, v.flags);
      LayerMarks(l, prev, done, f);
      ListMarks(rest, Some(l.id), done + IdsOf(l), v.flags);
      EarlyReadersFrame(rest, done + IdsOf(l), f.dirty, v.flags.dirty);
      LinksOfStayInside(l, prev, done);
      MarkedJoin(links, more, done, IdsOf(l), Ids(rest), EarlyReadersOf(l, done, f.dirty),
                 EarlyReaders(rest, done + IdsOf(l), f.dirty), f, v.flags, w.flags);
    }
  }

  /** Marks of two consecutive parts of the walk add up. */
  lemma MarkedJoin(a: set<Link>, b: set<Link>, sources: set<int>, ids: set<int>, more: set<int>, ea: set<int>,
                   eb: set<int>, f: Flags, g: Flags, h: Flags)
    requires Inside(a, sources, ids) && more !! sources + ids
    requires Grows(f, g, ids) && Grows(g, h, more)
    requires Marked(a, ea, ids, f, g) && Marked(b, eb, more, g, h)
    ensures Marked(a + b, ea + eb, ids + more, f, h)
  {
    TargetsUnion(a, b, h.dirty);
    TargetsLater(a, sources, ids, g.dirty, h.dirty, more);
    assert more * g.op == more * f.op;
    assert (ids + more) * f.op == ids * f.op + more * f.op;
  }

  lemma {:induction false} LayerMarks(l: Layer, prev: Option<int>, done: set<int>, f: Flags)
    requires DistinctLayer(l) && IdsOf(l) !! done
    requires prev.Some? ==> prev.value in done
    ensures Marked(LinksOf(l, prev, done), EarlyReadersOf(l, done, f.dirty), IdsOf(l), f,
                   VisitLayer(l, IncomingDirty(prev, f), f).flags)
    decreases l, 1
  {
    var inc := IncomingDirty(prev, f);
    var v := VisitLayer(l, inc, f);
    var f1 := VisitList(l.imaps, false, f);
    var f2 := VisitList(l.omaps, false, f1.flags);
    var f3 := VisitList(l.sublayers, inc, f2.flags);
    VisitListGrows(l.imaps, false, f);
    VisitListGrows(l.omaps, false, f1.flags);
    VisitListGrows(l.sublayers, inc, f2.flags);
    PartsMark(l, prev, done, f, f1, f2, f3);
    PartsCarry(l, prev, done, f, f1, f2, f3);
    var input := inc || AnyInputDirty(l.inputs, f.dirty) || f1.dirty || f3.dirty;
    SettleEffect(l, inc, input, l.id in f.blend || f2.dirty, l.id in f.op, f3.flags);
    LayerMarksFrom(l, prev, done, f, f1, f2, f3, v);
  }

  lemma SettleEffect(l: Layer, incoming: bool, input: bool, blender: bool, filter: bool, f: Flags)
    ensures var v := SettleLayer(l, incoming, input, blender, filter, f);
            && f.dirty <= v.flags.dirty <= f.dirty + {l.id}
            && v.flags.op == f.op + OwnId(l.id, input)
            && v.flags.blend == f.blend + OwnId(l.id, input || blender || filter)
  {
  }

  lemma {:induction false} SeesItsNeighbours(l: Layer, done: set<int>, f: Flags, f1: Visit, f2: Visit, f3: Visit,
                                             t: set<int>)
    requires DistinctLayer(l) && IdsOf(l) !! done
    requires f.dirty <= f1.flags.dirty <= f.dirty + Ids(l.imaps)
    requires f1.flags.dirty <= f2.flags.dirty <= f1.flags.dirty + Ids(l.omaps)
    requires f2.flags.dirty <= f3.flags.dirty <= f2.flags.dirty + Ids(l.sublayers)
    requires f3.flags.dirty <= t <= f3.flags.dirty + {l.id}
    ensures SeenAgain(l, done, f, f1, f2, f3, t)
  {
  }

  lemma {:induction false} LayerMarksFrom(l: Layer, prev: Option<int>, done: set<int>, f: Flags, f1: Visit, f2: Visit,
                                          f3: Visit, v: Visit)
    requires DistinctLayer(l) && IdsOf(l) !! done
    requires prev.Some? ==> prev.value in done
    requires Grows(f, f1.flags, Ids(l.imaps)) && Grows(f1.flags, f2.flags, Ids(l.omaps))
    requires Grows(f2.flags, f3.flags, Ids(l.sublayers))
    requires Carries(l.imaps, false, f1) && Carries(l.omaps, false, f2)
    requires Carries(l.sublayers, IncomingDirty(prev, f), f3)
    requires Marked(PartLinks(l, prev, done), PartEarly(l, done, f.dirty),
                    Ids(l.imaps) + Ids(l.omaps) + Ids(l.sublayers), f, f3.flags)
    requires f3.flags.dirty <= v.flags.dirty <= f3.flags.dirty + {l.id}
    requires var input := IncomingDirty(prev, f) || AnyInputDirty(l.inputs, f.dirty) || f1.dirty || f3.dirty;
             && v.flags.op == f3.flags.op + OwnId(l.id, input)
             && v.flags.blend == f3.flags.blend + OwnId(l.id, input || l.id in f.blend || f2.dirty || l.id in f.op)
    ensures Marked(LinksOf(l, prev, done), EarlyReadersOf(l, done, f.dirty), IdsOf(l), f, v.flags)
  {
    var input := IncomingDirty(prev, f) || AnyInputDirty(l.inputs, f.dirty) || f1.dirty || f3.dirty;
    SeesItsNeighbours(l, done, f, f1, f2, f3, v.flags.dirty);
    OwnMarks(l, prev, done, f, f1, f2, f3, v.flags.dirty);
    LayerParts(l, prev, done, f.dirty);
    PartLinksInside(l, prev, done);
    OwnerMarked(LinksAt(l, prev, done), PartLinks(l, prev, done), done,
                Ids(l.imaps) + Ids(l.omaps) + Ids(l.sublayers), l.id,
                OwnId(l.id, AnyInputDirty(l.inputs, f.dirty - done)), PartEarly(l, done, f.dirty),
                input, input || f2.dirty, f, f3.flags, v.flags);
  }

  function PartLinks(l: Layer, prev: Option<int>, done: set<int>): set<Link> {
    Links(l.imaps, None, done)
    + Links(l.omaps, None, done + Ids(l.imaps))
    + Links(l.sublayers, prev, done + Ids(l.imaps) + Ids(l.omaps))
  }

  function PartEarly(l: Layer, done: set<int>, dirty: set<int>): set<int> {
    EarlyReaders(l.imaps, done, dirty)
    + EarlyReaders(l.omaps, done + Ids(l.imaps), dirty)
    + EarlyReaders(l.sublayers, done + Ids(l.imaps) + Ids(l.omaps), dirty)
  }

  lemma {:induction false} PartsMark(l: Layer, prev: Option<int>, done: set<int>, f: Flags, f1: Visit, f2: Visit,
                                     f3: Visit)
    requires DistinctLayer(l) && IdsOf(l) !! done
    requires prev.Some? ==> prev.value in done
    requires f1 == VisitList(l.imaps, false, f)
    requires f2 == VisitList(l.omaps, false, f1.flags)
    requires f3 == VisitList(l.sublayers, IncomingDirty(prev, f), f2.flags)
    ensures Marked(PartLinks(l, prev, done), PartEarly(l, done, f.dirty),
                   Ids(l.imaps) + Ids(l.omaps) + Ids(l.sublayers), f, f3.flags)
    decreases l, 0
  {
    VisitListGrows(l.imaps, false, f);
    VisitListGrows(l.omaps, false, f1.flags);
    VisitListGrows(l.sublayers, IncomingDirty(prev, f), f2.flags);
    ListMarks(l.imaps, None, done, f);
    ListMarks(l.omaps, None, done + Ids(l.imaps), f1.flags);
    ListMarks(l.sublayers, prev, done + Ids(l.imaps) + Ids(l.omaps), f2.flags);
    EarlyReadersFrame(l.omaps, done + Ids(l.imaps), f.dirty, f1.flags.dirty);
    EarlyReadersFrame(l.sublayers, done + Ids(l.imaps) + Ids(l.omaps), f.dirty, f2.flags.dirty);
    PartsMarkJoin(l, prev, done, f, f1.flags, f2.flags, f3.flags);
  }

  lemma {:induction false} PartsMarkJoin(l: Layer, prev: Option<int>, done: set<int>, f: Flags, f1: Flags, f2: Flags,
                                         f3: Flags)
    requires DistinctLayer(l) && IdsOf(l) !! done
    requires prev.Some? ==> prev.value in done
    requires Grows(f, f1, Ids(l.imaps)) && Grows(f1, f2, Ids(l.omaps)) && Grows(f2, f3, Ids(l.sublayers))
    requires Marked(Links(l.imaps, None, done), EarlyReaders(l.imaps, done, f.dirty), Ids(l.imaps), f, f1)
    requires Marked(Links(l.omaps, None, done + Ids(l.imaps)), EarlyReaders(l.omaps, done + Ids(l.imaps), f.dirty),
                    Ids(l.omaps), f1, f2)
    requires Marked(Links(l.sublayers, prev, done + Ids(l.imaps) + Ids(l.omaps)),
                    EarlyReaders(l.sublayers, done + Ids(l.imaps) + Ids(l.omaps), f.dirty), Ids(l.sublayers), f2, f3)
    ensures Marked(PartLinks(l, prev, done), PartEarly(l, done, f.dirty),
                   Ids(l.imaps) + Ids(l.omaps) + Ids(l.sublayers), f, f3)
  {
    var a, b := Links(l.imaps, None, done), Links(l.omaps, None, done + Ids(l.imaps));
    LinksStayInside(l.imaps, None, done);
    LinksStayInside(l.omaps, None, done + Ids(l.imaps));
    var ea, eb := EarlyReaders(l.imaps, done, f.dirty), EarlyReaders(l.omaps, done + Ids(l.imaps), f.dirty);
    MarkedJoin(a, b, done, Ids(l.imaps), Ids(l.omaps), ea, eb, f, f1, f2);
    MarkedJoin(a + b, Links(l.sublayers, prev, done + Ids(l.imaps) + Ids(l.omaps)), done, Ids(l.imaps) + Ids(l.omaps),
               Ids(l.sublayers), ea + eb, EarlyReaders(l.sublayers, done + Ids(l.imaps) + Ids(l.omaps), f.dirty),
               f, f2, f3);
  }

  /** The owner of a group of lists adds its own marks after the lists have added theirs. */
  lemma OwnerMarked(at: set<Link>, parts: set<Link>, sources: set<int>, nested: set<int>, id: int, e0: set<int>,
                    e1: set<int>, input: bool, any: bool, f: Flags, g: Flags, h: Flags)
    requires Inside(parts, sources, nested) && id !in sources + nested
    requires g.dirty <= h.dirty <= g.dirty + {id}
    requires Marked(parts, e1, nested, f, g)
    requires h.op == g.op + OwnId(id, input)
    requires h.blend == g.blend + OwnId(id, any || id in f.blend || id in f.op)
    requires f.blend <= g.blend
    requires Targets(InputLinks(at), h.dirty) + e0 == OwnId(id, input)
    requires Targets(at, h.dirty) + e0 == OwnId(id, any)
    ensures Marked(at + parts, e0 + e1, nested + {id}, f, h)
  {
    var ta, tp := Targets(at, h.dirty), Targets(parts, h.dirty);
    TargetsUnion(at, parts, h.dirty);
    TargetsLater(parts, sources, nested, g.dirty, h.dirty, {id});
    OwnerOps(id, f.op, g.op, h.op, Targets(InputLinks(at), h.dirty), Targets(InputLinks(parts), h.dirty), e0, e1,
             input);
    OwnerBlends(id, f.blend, g.blend, h.blend, f.op, nested, ta, tp, e0, e1, any);
  }

  lemma OwnerOps(id: int, f: set<int>, g: set<int>, h: set<int>, ta: set<int>, tp: set<int>, e0: set<int>,
                 e1: set<int>, input: bool)
    requires g == f + tp + e1
    requires h == g + OwnId(id, input) && ta + e0 == OwnId(id, input)
    ensures h == f + (ta + tp) + (e0 + e1)
  {
    assert h == f + tp + e1 + (ta + e0);
  }

  lemma OwnerBlends(id: int, f: set<int>, g: set<int>, h: set<int>, op: set<int>, nested: set<int>, ta: set<int>,
                    tp: set<int>, e0: set<int>, e1: set<int>, any: bool)
    requires g == f + nested * op + tp + e1
    requires h == g + OwnId(id, any || id in f || id in op) && ta + e0 == OwnId(id, any)
    ensures h == f + (nested + {id}) * op + (ta + tp) + (e0 + e1)
  {
    assert (nested + {id}) * op == nested * op + OwnId(id, id in op);
    assert h == g + OwnId(id, id in op) + OwnId(id, any);
    assert h == f + nested * op + tp + e1 + OwnId(id, id in op) + (ta + e0);
  }

  lemma {:induction false} LayerParts(l: Layer, prev: Option<int>, done: set<int>, dirty: set<int>)
    ensures LinksOf(l, prev, done) == LinksAt(l, prev, done) + PartLinks(l, prev, done)
    ensures EarlyReadersOf(l, done, dirty)
         == OwnId(l.id, AnyInputDirty(l.inputs, dirty - done)) + PartEarly(l, done, dirty)
    ensures IdsOf(l) == Ids(l.imaps) + Ids(l.omaps) + Ids(l.sublayers) + {l.id}
  {
  }

  lemma PartLinksInside(l: Layer, prev: Option<int>, done: set<int>)
    requires prev.Some? ==> prev.value in done
    ensures Inside(PartLinks(l, prev, done), done, Ids(l.imaps) + Ids(l.omaps) + Ids(l.sublayers))
  {
    LinksStayInside(l.imaps, None, done);
    LinksStayInside(l.omaps, None, done + Ids(l.imaps));
    LinksStayInside(l.sublayers, prev, done + Ids(l.imaps) + Ids(l.omaps));
  }

  // -------------------------------------------------------------------------
  // The walk over a whole tree
  // -------------------------------------------------------------------------

  /** The walk marks exactly the least set that holds the seeds and is closed under the links. */
  lemma {:induction false} UpdateDirtyIsLeastClosure(root: seq<Layer>, f: Flags)
    requires Distinct(root)
    ensures var dirty := VisitList(root, false, f).flags.dirty;
            var links := Links(root, None, {});
            && Seeds(root, {}, f) <= dirty
            && ClosedUnder(links, dirty)
            && forall s :: Seeds(root, {}, f) <= s && ClosedUnder(links, s) ==> dirty <= s
  {
    ListIsClosed(root, None, {}, f);
    forall s | Seeds(root, {}, f) <= s && ClosedUnder(Links(root, None, {}), s)
      ensures VisitList(root, false, f).flags.dirty <= s
    {
      ListIsLeast(root, None, {}, f, s);
    }
  }

  /** An operation ends up modified exactly if it was, or if it reads a dirty layer other than
      through its opacity map; a blender also follows its operation and its opacity map. */
  lemma {:induction false} UpdateDirtyMarksReaders(root: seq<Layer>, f: Flags)
    requires Distinct(root)
    ensures var g := VisitList(root, false, f).flags;
            var links := Links(root, None, {});
            && g.op == f.op + Targets(InputLinks(links), g.dirty) + EarlyReaders(root, {}, f.dirty)
            && g.blend == f.blend + Ids(root) * f.op + Targets(links, g.dirty) + EarlyReaders(root, {}, f.dirty)
  {
    ListMarks(root, None, {}, f);
  }

  /** Every layer after a dirty one in its list is dirty, with its operation and blender modified. */
  lemma {:induction false} LaterLayersAreMarked(root: seq<Layer>, f: Flags, i: nat, j: nat)
    requires Distinct(root) && i < j < |root|
    requires root[i].id in VisitList(root, false, f).flags.dirty
    ensures var g := VisitList(root, false, f).flags;
            root[j].id in g.dirty && root[j].id in g.op && root[j].id in g.blend
  {
    if i < j - 1 {
      LaterLayersAreMarked(root, f, i, j - 1);
    }
    NextLayerIsMarked(root, f, j);
  }

  lemma {:induction false} NextLayerIsMarked(root: seq<Layer>, f: Flags, j: nat)
    requires Distinct(root) && 0 < j < |root|
    requires root[j - 1].id in VisitList(root, false, f).flags.dirty
    ensures var g := VisitList(root, false, f).flags;
            root[j].id in g.dirty && root[j].id in g.op && root[j].id in g.blend
  {
    UpdateDirtyIsLeastClosure(root, f);
    UpdateDirtyMarksReaders(root, f);
    ChainLink(root, None, {}, j);
    var links, e := Links(root, None, {}), Link(root[j - 1].id, root[j].id, Chain);
    assert e in links && e in InputLinks(links);
  }

  lemma {:induction false} ChainLink(list: seq<Layer>, prev: Option<int>, done: set<int>, j: nat)
    requires 0 < j < |list|
    ensures Link(list[j - 1].id, list[j].id, Chain) in Links(list, prev, done)
  {
    var l, rest := list[0], list[1..];
    if j == 1 {
      var e := Link(l.id, rest[0].id, Chain);
      assert e in LinksAt(rest[0], Some(l.id), done + IdsOf(l));
      assert e in LinksOf(rest[0], Some(l.id), done + IdsOf(l));
      assert e in Links(rest, Some(l.id), done + IdsOf(l));
    } else {
      ChainLink(rest, Some(l.id), done + IdsOf(l), j - 1);
    }
  }

  // -------------------------------------------------------------------------
  // When explicit inputs are honoured
  // -------------------------------------------------------------------------

  /** The full dependency graph: as `Links`, with every explicit input that names a layer. */
  function AllLinks(list: seq<Layer>, prev: Option<int>, all: set<int>): set<Link> {
    if list == [] then {}
    else AllLinksOf(list[0], prev, all) + AllLinks(list[1..], Some(list[0].id), all)
  }

  function AllLinksOf(l: Layer, prev: Option<int>, all: set<int>): set<Link> {
    LinksAt(l, prev, all)
    + AllLinks(l.imaps, None, all) + AllLinks(l.omaps, None, all) + AllLinks(l.sublayers, prev, all)
  }

  /** Every explicit input names a layer that is settled before its reader is visited, or a
      layer inside the reader itself. */
  predicate WellPlaced(list: seq<Layer>, done: set<int>, all: set<int>) {
    list != [] ==> WellPlacedIn(list[0], done, all) && WellPlaced(list[1..], done + IdsOf(list[0]), all)
  }

  predicate WellPlacedIn(l: Layer, done: set<int>, all: set<int>) {
    && (forall i :: 0 <= i < |l.inputs| && l.inputs[i].layer in all ==> l.inputs[i].layer in done + IdsOf(l))
    && WellPlaced(l.imaps, done, all)
    && WellPlaced(l.omaps, done + Ids(l.imaps), all)
    && WellPlaced(l.sublayers, done + Ids(l.imaps) + Ids(l.omaps), all)
  }

  /** Dirt anywhere inside a layer reaches the layer. */
  lemma {:induction false} DirtRises(l: Layer, prev: Option<int>, done: set<int>, s: set<int>, x: int)
    requires ClosedUnder(LinksOf(l, prev, done), s)
    requires x in IdsOf(l) && x in s
    ensures l.id in s
    decreases l
  {
    LinksOfParts(l, prev, done, s);
    if x in Ids(l.sublayers) {
      var i := DirtRisesToTop(l.sublayers, prev, done + Ids(l.imaps) + Ids(l.omaps), s, x);
      assert Link(l.sublayers[i].id, l.id, Group) in LinksAt(l, prev, done);
    } else if x in Ids(l.imaps) {
      var i := DirtRisesToTop(l.imaps, None, done, s, x);
      assert Link(l.imaps[i].id, l.id, IntensityMap) in LinksAt(l, prev, done);
    } else if x in Ids(l.omaps) {
      var i := DirtRisesToTop(l.omaps, None, done + Ids(l.imaps), s, x);
      assert Link(l.omaps[i].id, l.id, OpacityMap) in LinksAt(l, prev, done);
    }
  }

  lemma {:induction false} DirtRisesToTop(list: seq<Layer>, prev: Option<int>, done: set<int>, s: set<int>,
                                          x: int)
      returns (i: nat)
    requires ClosedUnder(Links(list, prev, done), s)
    requires x in Ids(list) && x in s
    ensures i < |list| && list[i].id in s
    decreases list
  {
    var l, rest := list[0], list[1..];
    ClosedUnion(LinksOf(l, prev, done), Links(rest, Some(l.id), done + IdsOf(l)), s);
    if x in IdsOf(l) {
      DirtRises(l, prev, done, s, x);
      i := 0;
    } else {
      var k := DirtRisesToTop(rest, Some(l.id), done + IdsOf(l), s, x);
      i := k + 1;
    }
  }

  lemma {:induction false} WellPlacedClosedIn(l: Layer, prev: Option<int>, done: set<int>, all: set<int>, s: set<int>)
    requires ClosedUnder(LinksOf(l, prev, done), s)
    requires WellPlacedIn(l, done, all)
    ensures ClosedUnder(AllLinksOf(l, prev, all), s)
    decreases l
  {
    LinksOfParts(l, prev, done, s);
    WellPlacedClosed(l.imaps, None, done, all, s);
    WellPlacedClosed(l.omaps, None, done + Ids(l.imaps), all, s);
    WellPlacedClosed(l.sublayers, prev, done + Ids(l.imaps) + Ids(l.omaps), all, s);
    OwnWellPlaced(l, prev, done, all, s);
    FourClosed(LinksAt(l, prev, all), AllLinks(l.imaps, None, all), AllLinks(l.omaps, None, all),
               AllLinks(l.sublayers, prev, all), s);
  }

  lemma FourClosed(a: set<Link>, b: set<Link>, c: set<Link>, d: set<Link>, s: set<int>)
    requires ClosedUnder(a, s) && ClosedUnder(b, s) && ClosedUnder(c, s) && ClosedUnder(d, s)
    ensures ClosedUnder(a + b + c + d, s)
  {
  }

  lemma {:induction false} OwnWellPlaced(l: Layer, prev: Option<int>, done: set<int>, all: set<int>, s: set<int>)
    requires ClosedUnder(LinksOf(l, prev, done), s)
    requires forall i :: 0 <= i < |l.inputs| && l.inputs[i].layer in all ==> l.inputs[i].layer in done + IdsOf(l)
    ensures ClosedUnder(LinksAt(l, prev, all), s)
  {
    LinksOfParts(l, prev, done, s);
    forall e | e in LinksAt(l, prev, all) && e.from in s ensures e.to in s {
      if e.kind == Explicit {
        var i := ExplicitLinkOf(l, prev, all, e);
        ExplicitWellPlaced(l, prev, done, s, i);
      } else {
        OtherLinksStay(l, prev, all, done, e);
      }
    }
  }

  lemma ExplicitLinkOf(l: Layer, prev: Option<int>, all: set<int>, e: Link) returns (i: nat)
    requires e in LinksAt(l, prev, all) && e.kind == Explicit
    ensures i < |l.inputs| && l.inputs[i].layer in all && e == Link(l.inputs[i].layer, l.id, Explicit)
  {
    i :| 0 <= i < |l.inputs| && l.inputs[i].layer in all && e == Link(l.inputs[i].layer, l.id, Explicit);
  }

  lemma OtherLinksStay(l: Layer, prev: Option<int>, a: set<int>, b: set<int>, e: Link)
    requires e in LinksAt(l, prev, a) && e.kind != Explicit
    ensures e in LinksAt(l, prev, b)
  {
  }

  lemma {:induction false} ExplicitWellPlaced(l: Layer, prev: Option<int>, done: set<int>, s: set<int>, i: nat)
    requires ClosedUnder(LinksOf(l, prev, done), s) && ClosedUnder(LinksAt(l, prev, done), s)
    requires i < |l.inputs| && l.inputs[i].layer in done + IdsOf(l) && l.inputs[i].layer in s
    ensures l.id in s
  {
    var u := l.inputs[i].layer;
    if u in done {
      assert Link(u, l.id, Explicit) in LinksAt(l, prev, done);
    } else {
      DirtRises(l, prev, done, s, u);
    }
  }

  lemma {:induction false} WellPlacedClosed(list: seq<Layer>, prev: Option<int>, done: set<int>, all: set<int>,
                                            s: set<int>)
    requires ClosedUnder(Links(list, prev, done), s)
    requires WellPlaced(list, done, all)
    ensures ClosedUnder(AllLinks(list, prev, all), s)
    decreases list
  {
    if list != [] {
      var l, rest := list[0], list[1..];
      ClosedUnion(LinksOf(l, prev, done), Links(rest, Some(l.id), done + IdsOf(l)), s);
      WellPlacedClosedIn(l, prev, done, all, s);
      WellPlacedClosed(rest, Some(l.id), done + IdsOf(l), all, s);
      ClosedUnion(AllLinksOf(l, prev, all), AllLinks(rest, Some(l.id), all), s);
    }
  }

  /** Nothing flagged, nothing set. */
  lemma {:induction false} CleanWalk(list: seq<Layer>, f: Flags)
    requires f.dirty == {} && Ids(list) !! f.op + f.blend
    ensures VisitList(list, false, f) == Visit(false, f)
    decreases list
  {
    if list != [] {
      CleanLayer(list[0], f);
      CleanWalk(list[1..], f);
    }
  }

  lemma {:induction false} CleanLayer(l: Layer, f: Flags)
    requires f.dirty == {} && IdsOf(l) !! f.op + f.blend
    ensures VisitLayer(l, false, f) == Visit(false, f)
    decreases l
  {
    CleanWalk(l.imaps, f);
    CleanWalk(l.omaps, f);
    CleanWalk(l.sublayers, f);
  }

  /** The chain does not reach into maps: whether or not what lies below a layer is stale, the
      layers in its maps get the same marks. */
  lemma {:induction false} MapsIgnoreChain(l: Layer, f: Flags, x: int)
    requires DistinctLayer(l) && x in Ids(l.imaps) + Ids(l.omaps)
    ensures var stale, clean := VisitLayer(l, true, f).flags, VisitLayer(l, false, f).flags;
            && (x in stale.dirty <==> x in clean.dirty)
            && (x in stale.op <==> x in clean.op) && (x in stale.blend <==> x in clean.blend)
  {
    var maps := VisitList(l.omaps, false, VisitList(l.imaps, false, f).flags).flags;
    VisitListGrows(l.sublayers, true, maps);
    VisitListGrows(l.sublayers, false, maps);
  }

  /** A modified layer that its reader cannot see in time: the reader x stays clean. */
  lemma {:induction false} MisplacedIsMissed(list: seq<Layer>, prev: Option<int>, done: set<int>,
                                             all: set<int>)
      returns (u: int, x: int)
    requires Distinct(list) && Ids(list) !! done
    requires !WellPlaced(list, done, all)
    ensures u in all - done && x in Ids(list)
    ensures Link(u, x, Explicit) in AllLinks(list, prev, all)
    ensures x !in VisitList(list, false, Flags({}, {u}, {})).flags.dirty
    decreases list
  {
    var l, rest := list[0], list[1..];
    if !WellPlacedIn(l, done, all) {
      u, x := MisplacedIsMissedIn(l, prev, done, all);
      var v := VisitLayer(l, false, Flags({}, {u}, {}));
      VisitListGrows(rest, v.dirty, v.flags);
    } else {
      u, x := MisplacedIsMissed(rest, Some(l.id), done + IdsOf(l), all);
      CleanLayer(l, Flags({}, {u}, {}));
    }
  }

  lemma {:induction false} MisplacedIsMissedIn(l: Layer, prev: Option<int>, done: set<int>,
                                               all: set<int>)
      returns (u: int, x: int)
    requires DistinctLayer(l) && IdsOf(l) !! done
    requires !WellPlacedIn(l, done, all)
    ensures u in all - done && x in IdsOf(l)
    ensures Link(u, x, Explicit) in AllLinksOf(l, prev, all)
    ensures x !in VisitLayer(l, false, Flags({}, {u}, {})).flags.dirty
    decreases l
  {
    if !WellPlaced(l.imaps, done, all) {
      u, x := MisplacedIsMissed(l.imaps, None, done, all);
      MissedInImap(l, Flags({}, {u}, {}), x);
    } else if !WellPlaced(l.omaps, done + Ids(l.imaps), all) {
      u, x := MisplacedIsMissed(l.omaps, None, done + Ids(l.imaps), all);
      CleanWalk(l.imaps, Flags({}, {u}, {}));
      MissedInOmap(l, Flags({}, {u}, {}), x);
    } else if !WellPlaced(l.sublayers, done + Ids(l.imaps) + Ids(l.omaps), all) {
      u, x := MisplacedIsMissed(l.sublayers, prev, done + Ids(l.imaps) + Ids(l.omaps), all);
      CleanWalk(l.imaps, Flags({}, {u}, {}));
      CleanWalk(l.omaps, Flags({}, {u}, {}));
    } else {
      var i :| 0 <= i < |l.inputs| && l.inputs[i].layer in all && l.inputs[i].layer !in done + IdsOf(l);
      u, x := l.inputs[i].layer, l.id;
      CleanLayer(l, Flags({}, {u}, {}));
      assert Link(u, x, Explicit) in LinksAt(l, prev, all);
    }
  }

  lemma {:induction false} MissedInImap(l: Layer, f: Flags, x: int)
    requires DistinctLayer(l) && x in Ids(l.imaps)
    requires x !in VisitList(l.imaps, false, f).flags.dirty
    ensures x !in VisitLayer(l, false, f).flags.dirty
  {
    var f1 := VisitList(l.imaps, false, f);
    var f2 := VisitList(l.omaps, false, f1.flags);
    VisitListGrows(l.omaps, false, f1.flags);
    VisitListGrows(l.sublayers, false, f2.flags);
  }

  lemma {:induction false} MissedInOmap(l: Layer, f: Flags, x: int)
    requires DistinctLayer(l) && x in Ids(l.omaps)
    requires VisitList(l.imaps, false, f) == Visit(false, f)
    requires x !in VisitList(l.omaps, false, f).flags.dirty
    ensures x !in VisitLayer(l, false, f).flags.dirty
  {
    VisitListGrows(l.sublayers, false, VisitList(l.omaps, false, f).flags);
  }

  /** The walk honours every explicit input, whatever the flags, exactly for well placed inputs. */
  lemma {:induction false} ExplicitInputsHonoured(root: seq<Layer>)
    requires Distinct(root)
    ensures (forall f :: ClosedUnder(AllLinks(root, None, Ids(root)), VisitList(root, false, f).flags.dirty))
            <==> WellPlaced(root, {}, Ids(root))
  {
    if WellPlaced(root, {}, Ids(root)) {
      forall f ensures ClosedUnder(AllLinks(root, None, Ids(root)), VisitList(root, false, f).flags.dirty) {
        ListIsClosed(root, None, {}, f);
        WellPlacedClosed(root, None, {}, Ids(root), VisitList(root, false, f).flags.dirty);
      }
    } else {
      var u, x := MisplacedIsMissed(root, None, {}, Ids(root));
      var f := Flags({}, {u}, {});
      ListIsClosed(root, None, {}, f);
      assert !ClosedUnder(AllLinks(root, None, Ids(root)), VisitList(root, false, f).flags.dirty);
    }
  }
}
