/** What each edit does to the tree, field by field, and what it leaves alone. */
module EditEffects {
  import opened Basics
  import opened LayerTree
  import opened DirtyFlags
  import opened LayerQueries
  import opened Rebuild
  import opened EditSession

  // -------------------------------------------------------------------------
  // Fields
  // -------------------------------------------------------------------------

  /** The two layers have the same fields of their own and directly hold the same layers in the same
      order. */
  ghost predicate SameFields(a: Layer, b: Layer) {
    && a.id == b.id && a.name == b.name
    && a.enabled == b.enabled && a.expanded == b.expanded && a.normal == b.normal && a.hidden == b.hidden
    && a.op == b.op && a.blender == b.blender && a.inputs == b.inputs
    && SameMembers(a.sublayers, b.sublayers) && SameMembers(a.imaps, b.imaps) && SameMembers(a.omaps, b.omaps)
  }

  ghost predicate SameMembers(a: seq<Layer>, b: seq<Layer>) {
    |a| == |b| && forall k :: 0 <= k < |a| ==> a[k].id == b[k].id
  }

  /** The input stands at the position; those before and behind stay, and gaps are filled with unset
      inputs. */
  ghost predicate InputSet(a: seq<Input>, b: seq<Input>, n: nat, i: Input) {
    && |b| == Max(|a|, n + 1)
    && b[n] == i
    && forall k :: 0 <= k < |b| && k != n ==> b[k] == if k < |a| then a[k] else Input(-1, -1, true)
  }

  /** The layer stands behind the first member with the given id, at the end for a negative id, and
      nowhere if there is no such member. */
  ghost predicate Inserted(a: seq<Layer>, b: seq<Layer>, after: int, l: Layer) {
    && (after < 0 ==> b == a + [l])
    && (after >= 0 && after !in TopIds(a) ==> b == a)
    && (forall k :: 0 <= k < |a| && after >= 0 && a[k].id == after && after !in TopIds(a[..k]) ==>
          b == a[..k + 1] + [l] + a[k + 1..])
  }

  // -------------------------------------------------------------------------
  // One list of inputs, one list of layers
  // -------------------------------------------------------------------------

  lemma {:induction false} SetInputSets(inputs: seq<Input>, n: nat, i: Input)
    ensures InputSet(inputs, SetInput(inputs, n, i), n, i)
    decreases n - |inputs|
  {
    if n > |inputs| {
      SetInputSets(inputs + [Input(-1, -1, true)], n, i);
    }
  }

  lemma {:induction false} InsertAfterInserts(list: seq<Layer>, after: int, l: Layer)
    ensures Inserted(list, InsertAfter(list, after, l), after, l)
  {
    if after >= 0 && list != [] {
      var rest := list[1..];
      assert list == [list[0]] + rest;
      if list[0].id == after {
        assert list[0].id in TopIds(list);
        forall k | 0 < k < |list| ensures after in TopIds(list[..k]) {
          assert list[..k][0] == list[0];
        }
        assert [list[0], l] + rest == list[..1] + [l] + list[1..];
      } else {
        InsertAfterInserts(rest, after, l);
        TopIdsNext(list);
        forall k | 0 <= k < |list| && list[k].id == after && after !in TopIds(list[..k])
          ensures InsertAfter(list, after, l) == list[..k + 1] + [l] + list[k + 1..]
        {
          TopIdsNext(list[..k]);
          assert list[..k][1..] == rest[..k - 1] && rest[k - 1] == list[k];
          assert [list[0]] + (rest[..k] + [l] + rest[k..]) == list[..k + 1] + [l] + list[k + 1..];
        }
      }
    }
  }

  lemma TopIdsNext(list: seq<Layer>)
    requires list != []
    ensures TopIds(list) == {list[0].id} + TopIds(list[1..])
  {
    var rest := list[1..];
    forall i | 0 <= i < |list| ensures list[i].id in {list[0].id} + TopIds(rest) {
      assert i > 0 ==> list[i] == rest[i - 1] && rest[i - 1].id in TopIds(rest);
    }
    forall i | 0 <= i < |rest| ensures rest[i].id in TopIds(list) {
      assert rest[i] == list[i + 1];
    }
  }

  // -------------------------------------------------------------------------
  // Finding layers
  // -------------------------------------------------------------------------

  /** Every layer of a tree is found by its id. */
  lemma {:induction false} FindFinds(list: seq<Layer>, l: Layer)
    requires Distinct(list) && l in Flatten(list)
    ensures l.id in Ids(list) && Find(list, l.id) == l
    decreases list
  {
    var h, rest := list[0], list[1..];
    if l in Expand(h) {
      if l != h {
        var part := if l in Flatten(h.sublayers) then h.sublayers
                    else if l in Flatten(h.imaps) then h.imaps else h.omaps;
        FindFinds(part, l);
        assert Part(h, l.id) == part;
      }
    } else {
      FindFinds(rest, l);
    }
  }

  /** What an added layer must be like: empty, under an id of its own. */
  ghost predicate Admissible(list: seq<Layer>, e: Edit) {
    NewIds(e) !! Ids(list) && (e.AddSublayer? ==> Bare(e.layer))
  }

  lemma {:induction false} InsertedIds(list: seq<Layer>, after: int, l: Layer)
    requires Bare(l)
    ensures Ids(list) <= Ids(InsertAfter(list, after, l)) <= Ids(list) + {l.id}
  {
    BareShape(l);
    if after < 0 {
      IdsConcat(list, [l]);
    } else if list != [] {
      if list[0].id == after {
        assert [list[0], l][1..] == [l];
        IdsConcat([list[0], l], list[1..]);
      } else {
        InsertedIds(list[1..], after, l);
      }
    }
  }

  lemma {:induction false} EditedIds(list: seq<Layer>, id: int, e: Edit)
    requires e.AddSublayer? ==> Bare(e.layer)
    ensures Ids(list) <= Ids(EditList(list, id, e)) <= Ids(list) + NewIds(e)
    decreases list
  {
    if list != [] {
      EditedIdsOf(list[0], id, e);
      EditedIds(list[1..], id, e);
    }
  }

  lemma {:induction false} EditedIdsOf(l: Layer, id: int, e: Edit)
    requires e.AddSublayer? ==> Bare(e.layer)
    ensures IdsOf(l) <= IdsOf(EditLayer(l, id, e)) <= IdsOf(l) + NewIds(e)
    decreases l
  {
    if l.id == id {
      if e.AddSublayer? {
        InsertedIds(l.sublayers, e.after, e.layer);
      }
    } else {
      EditedIds(l.sublayers, id, e);
      EditedIds(l.imaps, id, e);
      EditedIds(l.omaps, id, e);
    }
  }

  lemma {:induction false} EditsNothing(list: seq<Layer>, id: int, e: Edit)
    requires id !in Ids(list)
    ensures EditList(list, id, e) == list
    decreases list
  {
    if list != [] {
      EditsNothingIn(list[0], id, e);
      EditsNothing(list[1..], id, e);
    }
  }

  lemma {:induction false} EditsNothingIn(l: Layer, id: int, e: Edit)
    requires id !in IdsOf(l)
    ensures EditLayer(l, id, e) == l
    decreases l
  {
    EditsNothing(l.sublayers, id, e);
    EditsNothing(l.imaps, id, e);
    EditsNothing(l.omaps, id, e);
  }

  lemma {:induction false} FoundInside(list: seq<Layer>, x: int)
    requires Distinct(list) && x in Ids(list)
    ensures DistinctLayer(Find(list, x)) && IdsOf(Find(list, x)) <= Ids(list)
    decreases list
  {
    if x != list[0].id {
      if x in IdsOf(list[0]) {
        FoundInside(Part(list[0], x), x);
      } else {
        FoundInside(list[1..], x);
      }
    }
  }

  lemma {:induction false} FindBehind(a: seq<Layer>, b: seq<Layer>, x: int)
    requires x in Ids(a + b)
    ensures Find(a + b, x) == if x in Ids(a) then Find(a, x) else assert x in Ids(b) by { IdsConcat(a, b); } Find(b, x)
  {
    IdsConcat(a, b);
    if a == [] {
      assert a + b == b;
    } else {
      assert (a + b)[1..] == a[1..] + b;
      if x != a[0].id && x !in IdsOf(a[0]) {
        FindBehind(a[1..], b, x);
      }
    }
  }

  lemma {:induction false} FindInserted(list: seq<Layer>, after: int, l: Layer, x: int)
    requires Bare(l) && x in Ids(list) && x != l.id
    ensures x in Ids(InsertAfter(list, after, l)) && Find(InsertAfter(list, after, l), x) == Find(list, x)
  {
    InsertedIds(list, after, l);
    var r := InsertAfter(list, after, l);
    if after < 0 {
      FindBehind(list, [l], x);
    } else if list[0].id == after {
      BareShape(l);
      assert r == [list[0]] + ([l] + list[1..]);
      assert r[0] == list[0] && r[1..][0] == l && r[1..][1..] == list[1..];
    } else {
      assert r[0] == list[0] && r[1..] == InsertAfter(list[1..], after, l);
      if x !in IdsOf(list[0]) {
        FindInserted(list[1..], after, l, x);
      }
    }
  }

  /** The layer found under an id after an edit is the one found before, edited if it is the one to be. */
  lemma {:induction false} FindEdited(list: seq<Layer>, id: int, e: Edit, x: int)
    requires Distinct(list) && x in Ids(list) && Admissible(list, e)
    ensures x in Ids(EditList(list, id, e))
    ensures Find(EditList(list, id, e), x) == EditLayer(Find(list, x), id, e)
    decreases list
  {
    var l, rest := list[0], list[1..];
    var r := EditList(list, id, e);
    assert r[0] == EditLayer(l, id, e) && r[1..] == EditList(rest, id, e);
    EditedIds(list, id, e);
    EditedIdsOf(l, id, e);
    if x in IdsOf(l) {
      if x != l.id {
        FindEditedIn(l, id, e, x);
      }
    } else {
      FindEdited(rest, id, e, x);
    }
  }

  lemma {:induction false} FindEditedIn(l: Layer, id: int, e: Edit, x: int)
    requires DistinctLayer(l) && x in IdsOf(l) && x != l.id
    requires NewIds(e) !! IdsOf(l) && (e.AddSublayer? ==> Bare(e.layer))
    ensures var m := EditLayer(l, id, e);
            x in IdsOf(m) && x != m.id && Find(Part(m, x), x) == EditLayer(Find(Part(l, x), x), id, e)
    decreases l
  {
    var part := Part(l, x);
    DistinctPart(l, x);
    if l.id == id {
      FoundInside(part, x);
      EditsNothingIn(Find(part, x), id, e);
      FindInEdited(l, e, x);
    } else {
      FindEdited(part, id, e, x);
      PartEdited(l, id, e, x);
    }
  }

  /** What an edited layer contains is found as before. */
  lemma {:induction false} FindInEdited(l: Layer, e: Edit, x: int)
    requires DistinctLayer(l) && x in IdsOf(l) && x != l.id
    requires NewIds(e) !! IdsOf(l) && (e.AddSublayer? ==> Bare(e.layer))
    ensures var m := ApplyEdit(l, e);
            x in IdsOf(m) && x != m.id && Find(Part(m, x), x) == Find(Part(l, x), x)
  {
    if e.AddSublayer? {
      InsertedIds(l.sublayers, e.after, e.layer);
      if x in Ids(l.sublayers) {
        FindInserted(l.sublayers, e.after, e.layer, x);
      }
    }
  }

  lemma {:induction false} PartEdited(l: Layer, id: int, e: Edit, x: int)
    requires l.id != id && x in IdsOf(l) && x != l.id
    requires NewIds(e) !! IdsOf(l) && (e.AddSublayer? ==> Bare(e.layer))
    ensures var m := EditLayer(l, id, e);
            x in IdsOf(m) && x != m.id && Part(m, x) == EditList(Part(l, x), id, e)
  {
    EditedIds(l.sublayers, id, e);
    EditedIds(l.imaps, id, e);
    EditedIds(l.omaps, id, e);
  }

  // -------------------------------------------------------------------------
  // Edits
  // -------------------------------------------------------------------------

  /** The edited layer has the new value in the one field that the edit sets, and keeps all others. */
  lemma {:induction false} EditSetsOneField(root: seq<Layer>, id: int, e: Edit)
    requires Distinct(root) && id in Ids(root) && Admissible(root, e)
    ensures id in Ids(EditList(root, id, e))
    ensures var l, m := Find(root, id), Find(EditList(root, id, e), id);
            match e
            case SetOperation(op) => m.op == op && SameFields(l, m.(op := l.op))
            case SetBlender(b) => m.blender == b && SameFields(l, m.(blender := l.blender))
            case SetEnabled(on) => m.enabled == on && SameFields(l, m.(enabled := l.enabled))
            case ChangeInput(n, i) => InputSet(l.inputs, m.inputs, n, i) && SameFields(l, m.(inputs := l.inputs))
            case AddSublayer(after, x) =>
              Inserted(l.sublayers, m.sublayers, after, x) && SameFields(l, m.(sublayers := l.sublayers))
  {
    FindEdited(root, id, e, id);
    var l := Find(root, id);
    match e
    case ChangeInput(n, i) => SetInputSets(l.inputs, n, i);
    case AddSublayer(after, x) => InsertAfterInserts(l.sublayers, after, x);
    case _ =>
  }

  /** Every other layer keeps all fields of its own and directly holds the same layers; the document
      keeps its layers, and has no new ones but that of the edit. */
  lemma {:induction false} EditKeepsOthers(root: seq<Layer>, id: int, e: Edit)
    requires Distinct(root) && id in Ids(root) && Admissible(root, e)
    ensures var r := EditList(root, id, e);
            && Ids(root) <= Ids(r) <= Ids(root) + NewIds(e)
            && SameMembers(root, r)
            && forall x :: x in Ids(root) && x != id ==> SameFields(Find(root, x), Find(r, x))
  {
    var r := EditList(root, id, e);
    EditedIds(root, id, e);
    EditedMembers(root, id, e);
    forall x | x in Ids(root) && x != id ensures SameFields(Find(root, x), Find(r, x)) {
      FindEdited(root, id, e, x);
      var l := Find(root, x);
      EditedMembers(l.sublayers, id, e);
      EditedMembers(l.imaps, id, e);
      EditedMembers(l.omaps, id, e);
    }
  }

  lemma {:induction false} EditedMembers(list: seq<Layer>, id: int, e: Edit)
    ensures SameMembers(list, EditList(list, id, e))
  {
    if list != [] {
      EditedMembers(list[1..], id, e);
    }
  }

  // -------------------------------------------------------------------------
  // Removal
  // -------------------------------------------------------------------------

  /** Of the inputs exactly those that do not name the layer are left, in their order. */
  ghost predicate InputsWithout(a: seq<Input>, b: seq<Input>, id: int) {
    exists at: seq<nat> :: Picks(a, b, at, id)
  }

  /** The kept inputs stand at the given positions of the old list. */
  ghost predicate Picks(a: seq<Input>, b: seq<Input>, at: seq<nat>, id: int) {
    && Selects(a, at, b)
    && (forall i: nat :: i in at <==> i < |a| && a[i].layer != id)
  }

  /** One list directly holds what the other does, in the same order, without the layer. */
  ghost predicate MembersWithout(a: seq<Layer>, b: seq<Layer>, id: int) {
    if id !in TopIds(a) then SameMembers(a, b)
    else exists k :: 0 <= k < |a| && a[k].id == id && SameMembers(a[..k] + a[k + 1..], b)
  }

  lemma {:induction false} WithoutInputPicks(inputs: seq<Input>, id: int)
    ensures InputsWithout(inputs, WithoutInput(inputs, id), id)
  {
    if inputs == [] {
      assert Picks(inputs, [], [], id);
    } else {
      WithoutInputPicks(inputs[1..], id);
      var kept := WithoutInput(inputs[1..], id);
      var rest: seq<nat> :| Picks(inputs[1..], kept, rest, id);
      var at := SelectsLater(inputs, rest, kept);
      if inputs[0].layer != id {
        SelectsAlso(inputs, 0, at, kept);
        at := [0] + at;
      }
      assert Picks(inputs, WithoutInput(inputs, id), at, id);
    }
  }

  lemma {:induction false} MembersStay(list: seq<Layer>, id: int)
    requires id !in TopIds(list)
    ensures SameMembers(list, RemoveFrom(list, id))
  {
    if list != [] {
      TopIdsNext(list);
      MembersStay(list[1..], id);
    }
  }

  lemma {:induction false} MemberGoes(list: seq<Layer>, id: int, k: nat)
    requires k < |list| && list[k].id == id && id !in TopIds(list[..k]) && id !in TopIds(list[k + 1..])
    ensures SameMembers(list[..k] + list[k + 1..], RemoveFrom(list, id))
  {
    var rest := list[1..];
    if k == 0 {
      MembersStay(rest, id);
      assert list[..0] + list[1..] == rest;
    } else {
      TopIdsNext(list[..k]);
      assert list[..k][1..] == rest[..k - 1] && rest[k..] == list[k + 1..] && rest[k - 1] == list[k];
      MemberGoes(rest, id, k - 1);
      assert list[..k][0] == list[0];
      assert list[..k] + list[k + 1..] == [list[0]] + (rest[..k - 1] + rest[k..]);
      assert RemoveFrom(list, id) == [Forget(list[0], id)] + RemoveFrom(rest, id);
    }
  }

  lemma {:induction false} OnePlace(list: seq<Layer>, k: nat)
    requires Distinct(list) && k < |list|
    ensures list[k].id !in TopIds(list[..k]) && list[k].id !in TopIds(list[k + 1..])
  {
    var rest := list[1..];
    if k == 0 {
      TopIdsAreIds(rest);
      assert TopIds(list[..0]) == {};
    } else {
      OnePlace(rest, k - 1);
      TopIdsNext(list[..k]);
      TopIdsAreIds(rest);
      assert list[..k][1..] == rest[..k - 1] && rest[k..] == list[k + 1..];
      assert rest[k - 1] == list[k] && list[k].id in TopIds(rest);
    }
  }

  lemma {:induction false} RemovedMembers(list: seq<Layer>, id: int)
    requires Distinct(list)
    ensures MembersWithout(list, RemoveFrom(list, id), id)
  {
    if id in TopIds(list) {
      var k :| 0 <= k < |list| && list[k].id == id;
      OnePlace(list, k);
      MemberGoes(list, id, k);
    } else {
      MembersStay(list, id);
    }
  }

  lemma {:induction false} NothingRemoved(list: seq<Layer>, id: int)
    requires id !in Ids(list)
    ensures RemovedIds(list, id) == {}
    decreases list
  {
    if list != [] {
      NothingRemovedIn(list[0], id);
      NothingRemoved(list[1..], id);
    }
  }

  lemma {:induction false} NothingRemovedIn(l: Layer, id: int)
    requires id !in IdsOf(l)
    ensures RemovedIn(l, id) == {}
    decreases l
  {
    NothingRemoved(l.sublayers, id);
    NothingRemoved(l.imaps, id);
    NothingRemoved(l.omaps, id);
  }

  /** What goes with a layer is the layer and everything inside it. */
  lemma {:induction false} RemovedIsOneLayer(list: seq<Layer>, id: int)
    requires Distinct(list) && id in Ids(list)
    ensures RemovedIds(list, id) == IdsOf(Find(list, id))
    decreases list
  {
    var l := list[0];
    if id in IdsOf(l) {
      NothingRemoved(list[1..], id);
      if id != l.id {
        var part := Part(l, id);
        RemovedIsOneLayer(part, id);
        if part != l.sublayers { NothingRemoved(l.sublayers, id); }
        if part != l.imaps { NothingRemoved(l.imaps, id); }
        if part != l.omaps { NothingRemoved(l.omaps, id); }
      }
    } else {
      NothingRemovedIn(l, id);
      RemovedIsOneLayer(list[1..], id);
    }
  }

  lemma {:induction false} IdsRemoved(list: seq<Layer>, id: int)
    requires Distinct(list)
    ensures Ids(RemoveFrom(list, id)) == Ids(list) - RemovedIds(list, id)
    decreases list
  {
    if list != [] {
      var l, rest := list[0], list[1..];
      IdsRemoved(rest, id);
      if l.id == id {
        NothingRemoved(rest, id);
      } else {
        IdsOfRemoved(l, id);
        BothShrink(IdsOf(l), RemovedIn(l, id), Ids(rest), RemovedIds(rest, id));
      }
    }
  }

  lemma {:induction false} IdsOfRemoved(l: Layer, id: int)
    requires DistinctLayer(l) && l.id != id
    ensures IdsOf(Forget(l, id)) == IdsOf(l) - RemovedIn(l, id)
    decreases l
  {
    IdsRemoved(l.sublayers, id);
    IdsRemoved(l.imaps, id);
    IdsRemoved(l.omaps, id);
    BothShrink(Ids(l.sublayers), RemovedIds(l.sublayers, id), Ids(l.imaps), RemovedIds(l.imaps, id));
    BothShrink(Ids(l.sublayers) + Ids(l.imaps), RemovedIds(l.sublayers, id) + RemovedIds(l.imaps, id), Ids(l.omaps),
               RemovedIds(l.omaps, id));
  }

  /** A layer that stays is found as before, without its references to the removed one. */
  lemma {:induction false} FindAfterRemoval(list: seq<Layer>, id: int, x: int)
    requires Distinct(list) && x in Ids(list) - RemovedIds(list, id)
    ensures x in Ids(RemoveFrom(list, id))
    ensures Find(RemoveFrom(list, id), x) == Forget(Find(list, x), id)
    decreases list
  {
    var l, rest := list[0], list[1..];
    IdsRemoved(list, id);
    if x in IdsOf(l) {
      IdsOfRemoved(l, id);
      if x != l.id {
        FindForgotten(l, id, x);
      }
    } else {
      FindAfterRemoval(rest, id, x);
      if l.id != id {
        IdsOfRemoved(l, id);
      }
    }
  }

  lemma {:induction false} FindForgotten(l: Layer, id: int, x: int)
    requires DistinctLayer(l) && l.id != id && x in IdsOf(l) - RemovedIn(l, id) && x != l.id
    ensures var m := Forget(l, id);
            x in IdsOf(m) && x != m.id && Find(Part(m, x), x) == Forget(Find(Part(l, x), x), id)
    decreases l
  {
    var part := Part(l, x);
    DistinctPart(l, x);
    FindAfterRemoval(part, id, x);
    IdsRemoved(l.sublayers, id);
    IdsRemoved(l.imaps, id);
    IdsRemoved(l.omaps, id);
    assert Part(Forget(l, id), x) == RemoveFrom(part, id);
  }

  /** Removal takes one layer with everything inside it out of the tree.  Every other layer loses its
      inputs that name the layer and keeps all other fields, the others of its inputs, and all members
      but the removed one, in their order. */
  lemma {:induction false} RemovalTakesOneLayer(root: seq<Layer>, id: int)
    requires Distinct(root) && id in Ids(root)
    ensures var r := RemoveFrom(root, id);
            && Ids(r) == Ids(root) - IdsOf(Find(root, id))
            && MembersWithout(root, r, id)
            && forall x :: x in Ids(r) ==>
                 var l, m := Find(root, x), Find(r, x);
                 && InputsWithout(l.inputs, m.inputs, id)
                 && MembersWithout(l.sublayers, m.sublayers, id)
                 && MembersWithout(l.imaps, m.imaps, id)
                 && MembersWithout(l.omaps, m.omaps, id)
                 && m == l.(inputs := m.inputs, sublayers := m.sublayers, imaps := m.imaps, omaps := m.omaps)
  {
    var r := RemoveFrom(root, id);
    IdsRemoved(root, id);
    RemovedIsOneLayer(root, id);
    RemovedMembers(root, id);
    forall x | x in Ids(r)
      ensures x in Ids(root) && Find(r, x) == Forget(Find(root, x), id) && DistinctLayer(Find(root, x))
    {
      FindAfterRemoval(root, id, x);
      FoundInside(root, x);
    }
    forall x | x in Ids(r)
      ensures var l, m := Find(root, x), Find(r, x);
              && InputsWithout(l.inputs, m.inputs, id) && MembersWithout(l.sublayers, m.sublayers, id)
              && MembersWithout(l.imaps, m.imaps, id) && MembersWithout(l.omaps, m.omaps, id)
    {
      var l := Find(root, x);
      WithoutInputPicks(l.inputs, id);
      RemovedMembers(l.sublayers, id);
      RemovedMembers(l.imaps, id);
      RemovedMembers(l.omaps, id);
    }
  }

  // -------------------------------------------------------------------------
  // What each step tells the next update
  // -------------------------------------------------------------------------

  /** The second session differs in its tree and its flags at most. */
  ghost predicate OnlyEdited<Img>(s: Session<Img>, t: Session<Img>) {
    t.nodes == s.nodes && t.force == s.force && t.engine == s.engine
  }

  /** The flags that are up in f or named here are up in g, and no others. */
  ghost predicate Marked(f: Flags, g: Flags, dirty: set<int>, op: set<int>, blend: set<int>) {
    && (forall x :: x in g.dirty <==> x in f.dirty || x in dirty)
    && (forall x :: x in g.op <==> x in f.op || x in op)
    && (forall x :: x in g.blend <==> x in f.blend || x in blend)
  }

  lemma {:induction false} SameTree(list: seq<Layer>, id: int, e: Edit)
    requires Distinct(list) && id in Ids(list) && ApplyEdit(Find(list, id), e) == Find(list, id)
    ensures EditList(list, id, e) == list
    decreases list
  {
    var l, rest := list[0], list[1..];
    assert list == [l] + rest;
    if id in IdsOf(l) {
      SameLayer(l, id, e);
      EditsNothing(rest, id, e);
    } else {
      EditsNothingIn(l, id, e);
      SameTree(rest, id, e);
    }
  }

  lemma {:induction false} SameLayer(l: Layer, id: int, e: Edit)
    requires DistinctLayer(l) && id in IdsOf(l)
    requires id == l.id ==> ApplyEdit(l, e) == l
    requires id != l.id ==> ApplyEdit(Find(Part(l, id), id), e) == Find(Part(l, id), id)
    ensures EditLayer(l, id, e) == l
    decreases l
  {
    if id != l.id {
      var part := Part(l, id);
      SameTree(part, id, e);
      if part != l.sublayers { EditsNothing(l.sublayers, id, e); }
      if part != l.imaps { EditsNothing(l.imaps, id, e); }
      if part != l.omaps { EditsNothing(l.omaps, id, e); }
    }
  }

  lemma {:induction false} InsertedIsLonger(list: seq<Layer>, after: int, l: Layer)
    ensures InsertAfter(list, after, l) != list <==> after < 0 || after in TopIds(list)
  {
    InsertAfterInserts(list, after, l);
    if after >= 0 && after in TopIds(list) {
      var k := FirstPlace(list, after);
      assert list[k].id == after && after !in TopIds(list[..k]);
      assert |list[..k + 1] + [l] + list[k + 1..]| == |list| + 1;
    }
  }

  ghost function FirstPlace(list: seq<Layer>, id: int): (k: nat)
    requires id in TopIds(list)
    ensures k < |list| && list[k].id == id && id !in TopIds(list[..k])
  {
    TopIdsNext(list);
    if list[0].id == id then 0
    else
      var k := FirstPlace(list[1..], id);
      TopIdsNext(list[..k + 1]);
      assert list[..k + 1][1..] == list[1..][..k];
      k + 1
  }

  lemma {:induction false} TreeChangesWithLayer(root: seq<Layer>, id: int, e: Edit)
    requires Distinct(root) && id in Ids(root) && Admissible(root, e)
    ensures EditList(root, id, e) == root <==> ApplyEdit(Find(root, id), e) == Find(root, id)
  {
    FindEdited(root, id, e, id);
    if ApplyEdit(Find(root, id), e) == Find(root, id) {
      SameTree(root, id, e);
    }
  }

  lemma LayerChanges(l: Layer, e: Edit)
    ensures match e
            case SetEnabled(on) => ApplyEdit(l, e) == l <==> l.enabled == on
            case ChangeInput(n, i) => ApplyEdit(l, e) == l <==> n < |l.inputs| && l.inputs[n] == i
            case AddSublayer(after, x) => ApplyEdit(l, e) != l <==> after < 0 || after in TopIds(l.sublayers)
            case _ => true
  {
    match e
    case ChangeInput(n, i) => SetInputSets(l.inputs, n, i);
    case AddSublayer(after, x) => InsertedIsLonger(l.sublayers, after, x);
    case _ =>
  }

  lemma {:induction false} NoticedExactlyIf(root: seq<Layer>, id: int, e: Edit)
    requires Distinct(root) && id in Ids(root) && Admissible(root, e)
    ensures Unnoticed(root, id, e) ==> EditList(root, id, e) == root
    ensures var l := Find(root, id);
            Unnoticed(root, id, e) <==>
              match e
              case SetEnabled(on) => l.enabled == on
              case ChangeInput(n, i) => n < |l.inputs| && l.inputs[n] == i && i.layer >= 0
              case AddSublayer(after, _) => !(after < 0 || after in TopIds(l.sublayers))
              case _ => false
  {
    TreeChangesWithLayer(root, id, e);
    LayerChanges(Find(root, id), e);
  }

  /** An edit marks the operation or the blender that it sets, the operation of a layer that it
      switches on or off, a layer whose input it changes or clears, and a sublayer that it adds. */
  lemma {:induction false} EditMarks<Img>(s: Session<Img>, id: int, e: Edit)
    requires Distinct(s.root) && id in Ids(s.root) && Admissible(s.root, e)
    ensures var t, l := EditedBy(s, id, e), Find(s.root, id);
            && OnlyEdited(s, t) && t.root == EditList(s.root, id, e)
            && match e
               case SetOperation(_) => Marked(s.flags, t.flags, {}, {id}, {})
               case SetBlender(_) => Marked(s.flags, t.flags, {}, {}, {id})
               case SetEnabled(on) => Marked(s.flags, t.flags, {}, if l.enabled != on then {id} else {}, {})
               case ChangeInput(n, i) =>
                 var kept := n < |l.inputs| && l.inputs[n] == i && i.layer >= 0;
                 Marked(s.flags, t.flags, if kept then {} else {id}, {}, {})
               case AddSublayer(after, x) =>
                 var added := after < 0 || after in TopIds(l.sublayers);
                 Marked(s.flags, t.flags, if added then {x.id} else {}, {}, {})
  {
    NoticedExactlyIf(s.root, id, e);
  }

  /** A layer inserted at the top is marked dirty. */
  lemma InsertionMarks<Img>(s: Session<Img>, after: int, l: Layer)
    requires Legal(s, AddLayer(after, l))
    ensures var t := Next(s, AddLayer(after, l));
            && OnlyEdited(s, t) && Inserted(s.root, t.root, after, l)
            && Marked(s.flags, t.flags, if after < 0 || after in TopIds(s.root) then {l.id} else {}, {}, {})
  {
    InsertAfterInserts(s.root, after, l);
    InsertedIsLonger(s.root, after, l);
  }

  /** Removal marks everything that may depend on the layer, and forgets all flags and nodes of what it
      takes out. */
  lemma {:induction false} RemovalMarks<Img>(s: Session<Img>, id: int)
    requires Distinct(s.root) && id in Ids(s.root)
    ensures var t, gone := Next(s, Remove(id)), IdsOf(Find(s.root, id));
            && t.root == RemoveFrom(s.root, id) && t.force == s.force && t.engine == s.engine
            && (forall x :: x in t.nodes <==> x in s.nodes && x !in gone)
            && (forall x :: x in t.nodes ==> t.nodes[x] == s.nodes[x])
            && (forall x :: x in t.flags.dirty <==> (x in s.flags.dirty || x in ChildIds(s.root, id)) && x !in gone)
            && (forall x :: x in t.flags.op <==> (x in s.flags.op || x in ChildIds(s.root, id)) && x !in gone)
            && (forall x :: x in t.flags.blend <==> (x in s.flags.blend || x in ChildIds(s.root, id)) && x !in gone)
  {
    RemovedIsOneLayer(s.root, id);
  }

  /** A changed level forces the next update to build everything at that level. */
  lemma LevelForces<Img>(s: Session<Img>, n: int)
    ensures var t := Next(s, SetLevel(n));
            && t.root == s.root && t.flags == s.flags && t.nodes == s.nodes
            && t.engine == s.engine.(level := n)
            && (t.force <==> s.force || s.engine.level != n)
  {
  }
}
