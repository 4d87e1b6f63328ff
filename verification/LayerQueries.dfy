/** Who feeds whom in a layer tree: inputs, children and containers. */
module LayerQueries {
  import opened Basics
  import opened LayerTree

  // -------------------------------------------------------------------------
  // Structural definitions, read off the tree from the top
  // -------------------------------------------------------------------------

  /** The list inside a layer under which the id is found. */
  function Part(l: Layer, id: int): (part: seq<Layer>)
    requires id in IdsOf(l) && id != l.id
    ensures id in Ids(part)
  {
    if id in Ids(l.sublayers) then l.sublayers
    else if id in Ids(l.imaps) then l.imaps
    else l.omaps
  }

  /** Everything evaluated before a layer: whole layers below it in its list, and below each of
      its containers in theirs. */
  function InputIds(list: seq<Layer>, id: int): set<int>
    requires id in Ids(list)
  {
    var l := list[0];
    if id == l.id then {}
    else if id in IdsOf(l) then InputIds(Part(l, id), id)
    else IdsOf(l) + InputIds(list[1..], id)
  }

  /** Everything evaluated after a layer that may depend on it. */
  function ChildIds(list: seq<Layer>, id: int): set<int>
    requires id in Ids(list)
  {
    var l := list[0];
    if id == l.id then Ids(list[1..])
    else if id in IdsOf(l) then ChildIds(Part(l, id), id) + {l.id} + Ids(list[1..])
    else ChildIds(list[1..], id)
  }

  /** The layers that properly contain a layer. */
  function ContainerIds(list: seq<Layer>, id: int): set<int>
    requires id in Ids(list)
  {
    var l := list[0];
    if id == l.id then {}
    else if id in IdsOf(l) then ContainerIds(Part(l, id), id) + {l.id}
    else ContainerIds(list[1..], id)
  }

  /** The innermost layer that contains a layer. */
  function Owner(list: seq<Layer>, id: int): Option<Layer>
    requires id in Ids(list)
  {
    var l := list[0];
    if id == l.id then None
    else if id in IdsOf(l) then
      if id in TopIds(Part(l, id)) then Some(l) else Owner(Part(l, id), id)
    else Owner(list[1..], id)
  }

  /** The list of which a layer is a direct member. */
  function Home(list: seq<Layer>, id: int): seq<Layer>
    requires id in Ids(list)
  {
    if id in TopIds(list) then list
    else if id in IdsOf(list[0]) then HeadIsTop(list); Home(Part(list[0], id), id)
    else Home(list[1..], id)
  }

  lemma HeadIsTop(list: seq<Layer>)
    requires list != []
    ensures list[0].id in TopIds(list)
  {
  }

  function Depth(list: seq<Layer>, id: int): nat
    requires id in Ids(list)
  {
    var l := list[0];
    if id == l.id then 0
    else if id in IdsOf(l) then Depth(Part(l, id), id) + 1
    else Depth(list[1..], id)
  }

  // -------------------------------------------------------------------------
  // Duality
  // -------------------------------------------------------------------------

  lemma {:induction false} Bounds(list: seq<Layer>, id: int)
    requires id in Ids(list) && Distinct(list)
    ensures InputIds(list, id) <= Ids(list) - {id}
    ensures ChildIds(list, id) <= Ids(list) - {id}
    ensures ContainerIds(list, id) <= Ids(list) - {id}
    decreases list
  {
    var l := list[0];
    if id == l.id {
    } else if id in IdsOf(l) {
      DistinctPart(l, id);
      Bounds(Part(l, id), id);
    } else {
      Bounds(list[1..], id);
    }
  }

  lemma {:induction false} DistinctPart(l: Layer, id: int)
    requires DistinctLayer(l) && id in IdsOf(l) && id != l.id
    ensures Distinct(Part(l, id)) && Ids(Part(l, id)) <= IdsOf(l) && l.id !in Ids(Part(l, id))
  {
  }

  /** x is a child of y exactly when y is an input of x or x properly contains y. */
  lemma {:induction false} InputsAndChildrenAreDual(list: seq<Layer>, x: int, y: int)
    requires Distinct(list) && x in Ids(list) && y in Ids(list)
    ensures x in ChildIds(list, y) <==> y in InputIds(list, x) || x in ContainerIds(list, y)
    decreases list
  {
    var l, rest := list[0], list[1..];
    if x in Ids(rest) && y in Ids(rest) {
      InputsAndChildrenAreDual(rest, x, y);
    } else if x in Ids(rest) {
    } else if y in Ids(rest) {
      Bounds(rest, y);
      if x != l.id {
        DistinctPart(l, x);
        Bounds(Part(l, x), x);
      }
    } else {
      DualWithin(l, rest, x, y);
    }
  }

  lemma {:induction false} DualWithin(l: Layer, rest: seq<Layer>, x: int, y: int)
    requires DistinctLayer(l) && Distinct(rest) && IdsOf(l) !! Ids(rest)
    requires x in IdsOf(l) && y in IdsOf(l)
    ensures var list := [l] + rest;
            x in ChildIds(list, y) <==> y in InputIds(list, x) || x in ContainerIds(list, y)
    decreases l
  {
    var list := [l] + rest;
    assert list[0] == l && list[1..] == rest;
    if x != l.id {
      DistinctPart(l, x);
      Bounds(Part(l, x), x);
    }
    if y != l.id {
      DistinctPart(l, y);
      Bounds(Part(l, y), y);
    }
    if x != l.id && y != l.id && Part(l, x) == Part(l, y) {
      InputsAndChildrenAreDual(Part(l, x), x, y);
    }
  }

  // -------------------------------------------------------------------------
  // Searching the tree
  // -------------------------------------------------------------------------

  /** Looks for the list that holds a layer: first here, then inside each layer in turn. */
  function FindList(list: seq<Layer>, id: int): Option<seq<Layer>>
    decreases list, 1
  {
    if id in TopIds(list) then Some(list) else FindListInside(list, id)
  }

  function FindListInside(list: seq<Layer>, id: int): Option<seq<Layer>>
    decreases list, 0
  {
    if list == [] then None
    else
      var sub := FindList(list[0].sublayers, id);
      if sub.Some? then sub
      else
        var intensity := FindList(list[0].imaps, id);
        if intensity.Some? then intensity
        else
          var opacity := FindList(list[0].omaps, id);
          if opacity.Some? then opacity else FindListInside(list[1..], id)
  }

  predicate Holds(l: Layer, id: int, isMap: bool) {
    id in TopIds(l.sublayers) || (isMap && id in TopIds(l.imaps) + TopIds(l.omaps))
  }

  /** Looks for the layer that owns the list of a layer: first among the layers of this list,
      then inside each of them.  Map lists are only searched directly for map layers. */
  function FindContainer(list: seq<Layer>, id: int, isMap: bool): Option<Layer>
    decreases list, 1
  {
    var direct := FirstHolder(list, id, isMap);
    if direct.Some? then direct else FindContainerInside(list, id, isMap)
  }

  function FirstHolder(list: seq<Layer>, id: int, isMap: bool): Option<Layer> {
    if list == [] then None
    else if Holds(list[0], id, isMap) then Some(list[0])
    else FirstHolder(list[1..], id, isMap)
  }

  function FindContainerInside(list: seq<Layer>, id: int, isMap: bool): Option<Layer>
    decreases list, 0
  {
    if list == [] then None
    else
      var intensity := FindContainer(list[0].imaps, id, isMap);
      if intensity.Some? then intensity
      else
        var opacity := FindContainer(list[0].omaps, id, isMap);
        if opacity.Some? then opacity
        else
          var sub := FindContainer(list[0].sublayers, id, isMap);
          if sub.Some? then sub else FindContainerInside(list[1..], id, isMap)
  }

  lemma {:induction false} FindListFinds(list: seq<Layer>, id: int)
    requires Distinct(list)
    ensures FindList(list, id) == if id in Ids(list) then Some(Home(list, id)) else None
    decreases list, 1
  {
    TopIdsAreIds(list);
    if id !in TopIds(list) {
      FindListInsideFinds(list, id);
    }
  }

  lemma {:induction false} FindListInsideFinds(list: seq<Layer>, id: int)
    requires Distinct(list) && id !in TopIds(list)
    ensures FindListInside(list, id) == if id in Ids(list) then Some(Home(list, id)) else None
    decreases list, 0
  {
    if list != [] {
      var l, rest := list[0], list[1..];
      HeadIsTop(list);
      FindListFinds(l.sublayers, id);
      FindListFinds(l.imaps, id);
      FindListFinds(l.omaps, id);
      NotTopLater(list, id);
      FindListInsideFinds(rest, id);
    }
  }

  lemma NotTopLater(list: seq<Layer>, id: int)
    requires list != [] && id !in TopIds(list)
    ensures id !in TopIds(list[1..])
  {
    forall i | 0 <= i < |list[1..]| ensures list[1..][i].id != id {
      assert list[i + 1].id in TopIds(list);
    }
  }

  /** Whether a layer is a direct member of a map list. */
  function HeldAsMap(list: seq<Layer>, id: int): bool
    requires id in Ids(list)
  {
    var l := list[0];
    if id == l.id then false
    else if id in IdsOf(l) then
      if id in TopIds(Part(l, id)) then id !in Ids(l.sublayers) else HeldAsMap(Part(l, id), id)
    else HeldAsMap(list[1..], id)
  }

  lemma {:induction false} NoContainerOutside(list: seq<Layer>, id: int, isMap: bool)
    requires id !in Ids(list)
    ensures FindContainer(list, id, isMap) == None
    decreases list, 1
  {
    NoHolder(list, id, isMap);
    NoContainerInside(list, id, isMap);
  }

  lemma {:induction false} NoContainerInside(list: seq<Layer>, id: int, isMap: bool)
    requires id !in Ids(list)
    ensures FindContainerInside(list, id, isMap) == None
    decreases list, 0
  {
    if list != [] {
      NoContainerOutside(list[0].imaps, id, isMap);
      NoContainerOutside(list[0].omaps, id, isMap);
      NoContainerOutside(list[0].sublayers, id, isMap);
      NoContainerInside(list[1..], id, isMap);
    }
  }

  lemma {:induction false} NoHolder(list: seq<Layer>, id: int, isMap: bool)
    requires id !in Ids(list)
    ensures FirstHolder(list, id, isMap) == None
  {
    if list != [] {
      TopIdsAreIds(list[0].sublayers);
      TopIdsAreIds(list[0].imaps);
      TopIdsAreIds(list[0].omaps);
      NoHolder(list[1..], id, isMap);
    }
  }

  /** Whether a layer is a direct member of one of the lists of a top-level layer. */
  function HeldByTop(list: seq<Layer>, id: int): bool
    requires id in Ids(list)
  {
    var l := list[0];
    if id == l.id then false
    else if id in IdsOf(l) then id in TopIds(Part(l, id))
    else HeldByTop(list[1..], id)
  }

  lemma {:induction false} TopHasNoOwner(list: seq<Layer>, id: int)
    requires Distinct(list) && id in TopIds(list)
    ensures id in Ids(list) && Owner(list, id) == None && !HeldAsMap(list, id) && !HeldByTop(list, id)
  {
    TopIdsAreIds(list);
    if id != list[0].id {
      var i :| 0 <= i < |list| && list[i].id == id;
      assert list[1..][i - 1].id == id;
      TopHasNoOwner(list[1..], id);
    }
  }

  lemma {:induction false} HolderFinds(list: seq<Layer>, id: int, isMap: bool)
    requires Distinct(list) && id in Ids(list)
    ensures FirstHolder(list, id, isMap)
            == if HeldByTop(list, id) && (HeldAsMap(list, id) ==> isMap) then Owner(list, id) else None
    ensures HeldByTop(list, id) ==> Owner(list, id).Some?
  {
    var l := list[0];
    TopIdsAreIds(l.sublayers);
    TopIdsAreIds(l.imaps);
    TopIdsAreIds(l.omaps);
    if id in IdsOf(l) {
      NoHolder(list[1..], id, isMap);
    } else {
      HolderFinds(list[1..], id, isMap);
    }
  }

  /** The search finds the owner exactly when the layer's map flag tells where it sits. */
  lemma {:induction false} FindContainerFinds(list: seq<Layer>, id: int, isMap: bool)
    requires Distinct(list) && id in Ids(list)
    ensures FindContainer(list, id, isMap) == if HeldAsMap(list, id) ==> isMap then Owner(list, id) else None
    decreases list, 1
  {
    HolderFinds(list, id, isMap);
    if FirstHolder(list, id, isMap).None? {
      InsideFinds(list, id, isMap);
    }
  }

  lemma {:induction false} InsideFinds(list: seq<Layer>, id: int, isMap: bool)
    requires Distinct(list) && id in Ids(list)
    requires HeldByTop(list, id) ==> HeldAsMap(list, id) && !isMap
    ensures FindContainerInside(list, id, isMap) == if HeldAsMap(list, id) ==> isMap then Owner(list, id) else None
    decreases list, 0
  {
    var l, rest := list[0], list[1..];
    if id in IdsOf(l) {
      NoContainerInside(rest, id, isMap);
      if id != l.id {
        var part := Part(l, id);
        FindContainerFinds(part, id, isMap);
        if id in TopIds(part) {
          TopHasNoOwner(part, id);
        }
      }
      OtherPartsHaveNone(l, id, isMap);
    } else {
      NoContainerOutside(l.imaps, id, isMap);
      NoContainerOutside(l.omaps, id, isMap);
      NoContainerOutside(l.sublayers, id, isMap);
      InsideFinds(rest, id, isMap);
    }
  }

  lemma {:induction false} OtherPartsHaveNone(l: Layer, id: int, isMap: bool)
    requires DistinctLayer(l)
    ensures id !in Ids(l.sublayers) ==> FindContainer(l.sublayers, id, isMap) == None
    ensures id !in Ids(l.imaps) ==> FindContainer(l.imaps, id, isMap) == None
    ensures id !in Ids(l.omaps) ==> FindContainer(l.omaps, id, isMap) == None
  {
    if id !in Ids(l.sublayers) { NoContainerOutside(l.sublayers, id, isMap); }
    if id !in Ids(l.imaps) { NoContainerOutside(l.imaps, id, isMap); }
    if id !in Ids(l.omaps) { NoContainerOutside(l.omaps, id, isMap); }
  }

  // -------------------------------------------------------------------------
  // Climbing from a layer to its containers gives the same sets
  // -------------------------------------------------------------------------

  /** The ids of all layers in front of one member of a list, and what they contain. */
  function BeforeIds(list: seq<Layer>, id: int): set<int> {
    if list == [] || list[0].id == id then {} else IdsOf(list[0]) + BeforeIds(list[1..], id)
  }

  function AfterIds(list: seq<Layer>, id: int): set<int> {
    if list == [] then {} else if list[0].id == id then Ids(list[1..]) else AfterIds(list[1..], id)
  }

  lemma {:induction false} ClimbStep(list: seq<Layer>, id: int)
    requires Distinct(list) && id in Ids(list)
    ensures Home(list, id) != []
    ensures Owner(list, id) == None ==>
              && InputIds(list, id) == BeforeIds(Home(list, id), id)
              && ChildIds(list, id) == AfterIds(Home(list, id), id)
              && ContainerIds(list, id) == {}
              && Depth(list, id) == 0
    ensures Owner(list, id).Some? ==>
              var c := Owner(list, id).value.id;
              && c in Ids(list) && c != id
              && InputIds(list, id) == BeforeIds(Home(list, id), id) + InputIds(list, c)
              && ChildIds(list, id) == AfterIds(Home(list, id), id) + {c} + ChildIds(list, c)
              && ContainerIds(list, id) == {c} + ContainerIds(list, c)
              && Depth(list, id) == Depth(list, c) + 1
    decreases list
  {
    var l, rest := list[0], list[1..];
    if id in TopIds(list) {
      ClimbTop(list, id);
    } else if id in IdsOf(l) {
      var part := Part(l, id);
      HeadIsTop(list);
      DistinctPart(l, id);
      if id in TopIds(part) {
        ClimbTop(part, id);
      } else {
        NotTopHasOwner(part, id);
        ClimbStep(part, id);
        SamePart(l, id, Owner(part, id).value.id);
      }
    } else {
      NotTopLater(list, id);
      NotTopHasOwner(list, id);
      ClimbStep(rest, id);
    }
  }

  lemma {:induction false} SamePart(l: Layer, id: int, c: int)
    requires DistinctLayer(l) && id in IdsOf(l) && id != l.id && c in Ids(Part(l, id))
    ensures c in IdsOf(l) && c != l.id && Part(l, c) == Part(l, id)
  {
  }

  lemma {:induction false} ClimbTop(list: seq<Layer>, id: int)
    requires Distinct(list) && id in TopIds(list)
    ensures id in Ids(list) && Home(list, id) == list && Owner(list, id) == None
    ensures InputIds(list, id) == BeforeIds(list, id)
    ensures ChildIds(list, id) == AfterIds(list, id)
    ensures ContainerIds(list, id) == {}
    ensures Depth(list, id) == 0
  {
    TopHasNoOwner(list, id);
    if id != list[0].id {
      var i :| 0 <= i < |list| && list[i].id == id;
      assert list[1..][i - 1].id == id;
      ClimbTop(list[1..], id);
    }
  }

  lemma {:induction false} NotTopHasOwner(list: seq<Layer>, id: int)
    requires Distinct(list) && id in Ids(list) && id !in TopIds(list)
    ensures Owner(list, id).Some? && Owner(list, id).value.id in Ids(list)
    decreases list
  {
    HeadIsTop(list);
    if id in IdsOf(list[0]) {
      DistinctPart(list[0], id);
      if id !in TopIds(Part(list[0], id)) {
        NotTopHasOwner(Part(list[0], id), id);
      }
    } else {
      NotTopLater(list, id);
      NotTopHasOwner(list[1..], id);
    }
  }

  lemma {:induction false} OwnerHoldsHome(list: seq<Layer>, id: int)
    requires Distinct(list) && id in Ids(list) && Owner(list, id).Some?
    ensures var c := Owner(list, id).value;
            && DistinctLayer(c) && id in IdsOf(c) && id != c.id && Home(list, id) == Part(c, id)
    ensures Owner(list, id).value.id !in TopIds(Home(list, id))
    decreases list
  {
    var l := list[0];
    if id in TopIds(list) {
      TopHasNoOwner(list, id);
      assert false;
    }
    HeadIsTop(list);
    if id in IdsOf(l) {
      var part := Part(l, id);
      DistinctPart(l, id);
      if id !in TopIds(part) {
        OwnerHoldsHome(part, id);
      }
    } else {
      NotTopLater(list, id);
      OwnerHoldsHome(list[1..], id);
    }
    var c := Owner(list, id).value;
    DistinctPart(c, id);
    TopIdsAreIds(Part(c, id));
  }

  lemma {:induction false} AfterIsSuffix(list: seq<Layer>, id: int, k: nat)
    requires Distinct(list) && k < |list| && list[k].id == id
    ensures AfterIds(list, id) == Ids(list[k + 1..])
  {
    if k > 0 {
      TopIdsAreIds(list[1..]);
      assert list[1..][k - 1].id in TopIds(list[1..]);
      AfterIsSuffix(list[1..], id, k - 1);
      assert list[1..][k..] == list[k + 1..];
    }
  }

  lemma {:induction false} BeforeIsPrefix(list: seq<Layer>, id: int, k: nat)
    requires k <= |list| && (forall i :: 0 <= i < k ==> list[i].id != id)
    ensures BeforeIds(list, id) == Ids(list[..k]) + BeforeIds(list[k..], id)
  {
    if k == 0 {
      assert list[0..] == list && list[..0] == [];
    } else {
      BeforeIsPrefix(list[1..], id, k - 1);
      assert list[1..][k - 1..] == list[k..];
      assert list[..k][0] == list[0] && list[..k][1..] == list[1..][..k - 1];
    }
  }

  lemma {:induction false} IdsConcat(a: seq<Layer>, b: seq<Layer>)
    ensures Ids(a + b) == Ids(a) + Ids(b)
  {
    if a == [] {
      assert a + b == b;
    } else {
      assert (a + b)[0] == a[0] && (a + b)[1..] == a[1..] + b;
      IdsConcat(a[1..], b);
    }
  }

  lemma {:induction false} HomeHolds(list: seq<Layer>, id: int)
    requires id in Ids(list)
    ensures id in TopIds(Home(list, id))
    decreases list
  {
    if id !in TopIds(list) {
      HeadIsTop(list);
      if id in IdsOf(list[0]) {
        HomeHolds(Part(list[0], id), id);
      } else {
        HomeHolds(list[1..], id);
      }
    }
  }

  lemma {:induction false} HomeIsDistinct(list: seq<Layer>, id: int)
    requires Distinct(list) && id in Ids(list)
    ensures Distinct(Home(list, id))
    decreases list
  {
    if id !in TopIds(list) {
      HeadIsTop(list);
      if id in IdsOf(list[0]) {
        DistinctPart(list[0], id);
        HomeIsDistinct(Part(list[0], id), id);
      } else {
        HomeIsDistinct(list[1..], id);
      }
    }
  }
}
