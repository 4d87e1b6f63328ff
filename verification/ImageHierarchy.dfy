/** The ancestors of an image, with the padding each of them has to be read with. */
module ImageHierarchy {
  import opened Basics

  datatype Element = Element(image: int, padding: int)

  /** The hierarchy blobs attached to images. */
  type Blobs = map<int, seq<Element>>

  // -------------------------------------------------------------------------
  // One array
  // -------------------------------------------------------------------------

  /** Raises the padding of a listed image, or appends the image. */
  function WithElement(vec: seq<Element>, image: int, padding: int): seq<Element> {
    if vec == [] then [Element(image, padding)]
    else if vec[0].image == image then [Element(image, Max(vec[0].padding, padding))] + vec[1..]
    else [vec[0]] + WithElement(vec[1..], image, padding)
  }

  function Lookup(vec: seq<Element>, image: int): Option<int> {
    if vec == [] then None else if vec[0].image == image then Some(vec[0].padding) else Lookup(vec[1..], image)
  }

  ghost predicate EachOnce(vec: seq<Element>) {
    forall i, j :: 0 <= i < j < |vec| ==> vec[i].image != vec[j].image
  }

  lemma {:induction false} LookupFinds(vec: seq<Element>, image: int)
    ensures Lookup(vec, image).Some? <==> exists i :: 0 <= i < |vec| && vec[i].image == image
    ensures Lookup(vec, image).Some? ==> Element(image, Lookup(vec, image).value) in vec
  {
    if vec != [] {
      LookupFinds(vec[1..], image);
      if i :| 0 <= i < |vec| && vec[i].image == image {
        assert i == 0 || vec[1..][i - 1].image == image;
      }
    }
  }

  lemma {:induction false} WithElementLooksUp(vec: seq<Element>, image: int, padding: int, x: int)
    ensures Lookup(WithElement(vec, image, padding), x)
         == if x != image then Lookup(vec, x)
            else if Lookup(vec, x).None? then Some(padding) else Some(Max(Lookup(vec, x).value, padding))
    ensures |WithElement(vec, image, padding)| == if Lookup(vec, image).Some? then |vec| else |vec| + 1
  {
    if vec != [] && vec[0].image != image {
      WithElementLooksUp(vec[1..], image, padding, x);
    }
  }

  lemma {:induction false} WithElementKeepsEachOnce(vec: seq<Element>, image: int, padding: int)
    requires EachOnce(vec)
    ensures EachOnce(WithElement(vec, image, padding))
    ensures forall i :: 0 <= i < |WithElement(vec, image, padding)| ==>
              || WithElement(vec, image, padding)[i].image == image
              || exists j :: 0 <= j < |vec| && vec[j].image == WithElement(vec, image, padding)[i].image
  {
    if vec != [] && vec[0].image != image {
      WithElementKeepsEachOnce(vec[1..], image, padding);
    }
  }

  /** Adds one element after the other. */
  function WithAll(vec: seq<Element>, adds: seq<Element>): seq<Element>
    decreases |adds|
  {
    if adds == [] then vec else WithAll(WithElement(vec, adds[0].image, adds[0].padding), adds[1..])
  }

  /** o is the largest padding among the elements for this image. */
  ghost predicate Largest(adds: seq<Element>, image: int, o: Option<int>) {
    && (forall i :: 0 <= i < |adds| && adds[i].image == image ==> o.Some? && adds[i].padding <= o.value)
    && (o.Some? ==> Element(image, o.value) in adds)
  }

  lemma {:induction false} WithAllTakesLargest(vec: seq<Element>, seen: seq<Element>, adds: seq<Element>, image: int)
    requires EachOnce(vec) && Largest(seen, image, Lookup(vec, image))
    ensures EachOnce(WithAll(vec, adds))
    ensures Largest(seen + adds, image, Lookup(WithAll(vec, adds), image))
    decreases |adds|
  {
    if adds == [] {
      assert seen + adds == seen;
    } else {
      var e := adds[0];
      WithElementKeepsEachOnce(vec, e.image, e.padding);
      WithElementLooksUp(vec, e.image, e.padding, image);
      OneMoreSeen(vec, seen, e, image);
      WithAllTakesLargest(WithElement(vec, e.image, e.padding), seen + [e], adds[1..], image);
      assert seen + adds == (seen + [e]) + adds[1..];
    }
  }

  lemma {:induction false} OneMoreSeen(vec: seq<Element>, seen: seq<Element>, e: Element, image: int)
    requires Largest(seen, image, Lookup(vec, image))
    requires Lookup(WithElement(vec, e.image, e.padding), image)
          == if image != e.image then Lookup(vec, image)
             else if Lookup(vec, image).None? then Some(e.padding) else Some(Max(Lookup(vec, image).value, e.padding))
    ensures Largest(seen + [e], image, Lookup(WithElement(vec, e.image, e.padding), image))
  {
    assert (seen + [e])[|seen|] == e;
    assert forall x :: x in seen ==> x in seen + [e];
  }

  // -------------------------------------------------------------------------
  // Filling the hierarchy of an image
  // -------------------------------------------------------------------------

  function BlobOf(blobs: Blobs, image: int): seq<Element> {
    if image in blobs then blobs[image] else []
  }

  function Shifted(vec: seq<Element>, padding: int): seq<Element>
  {
    seq(|vec|, i requires 0 <= i < |vec| => Element(vec[i].image, vec[i].padding + padding))
  }

  /** What the parents contribute: their own hierarchies, and themselves. */
  function Contributions(blobs: Blobs, padding: int, parents: seq<Option<int>>): seq<Element> {
    if parents == [] then []
    else (if parents[0].None? then []
        else Shifted(BlobOf(blobs, parents[0].value), padding) + [Element(parents[0].value, padding)])
         + Contributions(blobs, padding, parents[1..])
  }

  datatype Fill = Fill(dest: int, padding: int, parents: seq<Option<int>>)

  function Filled(blobs: Blobs, f: Fill): Blobs {
    blobs[f.dest := WithAll([], Contributions(blobs, f.padding, f.parents))]
  }

  function Run(fills: seq<Fill>): Blobs {
    if fills == [] then map[] else Filled(Run(fills[..|fills| - 1]), fills[|fills| - 1])
  }

  // -------------------------------------------------------------------------
  // Derivation paths
  // -------------------------------------------------------------------------

  predicate Mentions(f: Fill, image: int) {
    f.dest == image || Some(image) in f.parents
  }

  /** Every image is filled at most once, before it is used as a parent. */
  ghost predicate InOrder(fills: seq<Fill>) {
    forall k :: 0 <= k < |fills| ==>
      Some(fills[k].dest) !in fills[k].parents && forall j :: 0 <= j < k ==> !Mentions(fills[j], fills[k].dest)
  }

  /** Fill k derives an image from another one. */
  ghost predicate Derives(fills: seq<Fill>, k: nat, parent: int, child: int) {
    k < |fills| && fills[k].dest == child && Some(parent) in fills[k].parents
  }

  /** A derivation: the fills along the way from an ancestor to an image. */
  ghost predicate IsPath(fills: seq<Fill>, from: int, path: seq<nat>, to: int) {
    && path != []
    && (forall i :: 0 <= i < |path| ==> path[i] < |fills|)
    && Some(from) in fills[path[0]].parents
    && (forall i :: 0 < i < |path| ==> Some(fills[path[i - 1]].dest) in fills[path[i]].parents)
    && fills[path[|path| - 1]].dest == to
  }

  function Total(fills: seq<Fill>, path: seq<nat>): int
    requires forall i :: 0 <= i < |path| ==> path[i] < |fills|
  {
    if path == [] then 0 else Total(fills, path[..|path| - 1]) + fills[path[|path| - 1]].padding
  }

  /** The hierarchy of an image is right: an image is listed exactly if there is a derivation from
      it, once, and with the largest sum of paddings along any derivation. */
  ghost predicate Right(fills: seq<Fill>, vec: seq<Element>, to: int) {
    && EachOnce(vec)
    && (forall from :: Lookup(vec, from).Some? ==> exists path ::
         IsPath(fills, from, path, to) && Total(fills, path) == Lookup(vec, from).value)
    && (forall from, path :: IsPath(fills, from, path, to) ==>
         Lookup(vec, from).Some? && Total(fills, path) <= Lookup(vec, from).value)
  }

  lemma {:induction false} TotalSame(a: seq<Fill>, b: seq<Fill>, path: seq<nat>)
    requires forall i :: 0 <= i < |path| ==> path[i] < |a| && path[i] < |b| && a[path[i]] == b[path[i]]
    ensures Total(a, path) == Total(b, path)
  {
    if path != [] {
      TotalSame(a, b, path[..|path| - 1]);
    }
  }

  /** No derivation of an older image uses the last fill. */
  lemma {:induction false} OldPath(fills: seq<Fill>, from: int, path: seq<nat>, to: int)
    requires fills != [] && InOrder(fills) && IsPath(fills, from, path, to) && to != fills[|fills| - 1].dest
    ensures IsPath(fills[..|fills| - 1], from, path, to)
    ensures Total(fills[..|fills| - 1], path) == Total(fills, path)
  {
    var n := |fills| - 1;
    forall i | 0 <= i < |path| ensures path[i] < n {
      LaterFillUnused(fills, path, i, to, from);
    }
    TotalSame(fills[..n], fills, path);
  }

  lemma {:induction false} LaterFillUnused(fills: seq<Fill>, path: seq<nat>, i: nat, to: int, from: int)
    requires fills != [] && InOrder(fills) && IsPath(fills, from, path, to) && to != fills[|fills| - 1].dest
             && i < |path|
    ensures path[i] < |fills| - 1
    decreases |path| - i
  {
    var n := |fills| - 1;
    if i < |path| - 1 {
      LaterFillUnused(fills, path, i + 1, to, from);
      assert Some(fills[path[i + 1 - 1]].dest) in fills[path[i + 1]].parents;
      assert !Mentions(fills[path[i + 1]], fills[n].dest);
    }
  }

  lemma {:induction false} PathStays(fills: seq<Fill>, f: Fill, from: int, path: seq<nat>, to: int)
    requires IsPath(fills, from, path, to)
    ensures IsPath(fills + [f], from, path, to) && Total(fills + [f], path) == Total(fills, path)
  {
    TotalSame(fills, fills + [f], path);
  }

  /** A derivation continues over the last fill. */
  lemma {:induction false} PathExtends(fills: seq<Fill>, f: Fill, from: int, path: seq<nat>, to: int)
    requires IsPath(fills, from, path, to) && Some(to) in f.parents
    ensures IsPath(fills + [f], from, path + [|fills|], f.dest)
    ensures Total(fills + [f], path + [|fills|]) == Total(fills, path) + f.padding
  {
    var p, all := path + [|fills|], fills + [f];
    assert p[..|p| - 1] == path;
    TotalSame(fills, all, path);
    forall i | 0 < i < |p| ensures Some(all[p[i - 1]].dest) in all[p[i]].parents {
    }
  }

  lemma {:induction false} ShortPath(fills: seq<Fill>, f: Fill, from: int)
    requires Some(from) in f.parents
    ensures IsPath(fills + [f], from, [|fills|], f.dest) && Total(fills + [f], [|fills|]) == f.padding
  {
    assert [|fills|][..0] == [];
  }

  /** A derivation of the image that is filled last comes through one of its parents. */
  lemma PathThroughParent(fills: seq<Fill>, f: Fill, from: int, path: seq<nat>)
    requires InOrder(fills + [f]) && IsPath(fills + [f], from, path, f.dest)
    ensures |path| == 1 ==> Some(from) in f.parents && Total(fills + [f], path) == f.padding
    ensures |path| > 1 ==>
              var front := path[..|path| - 1];
              (forall i :: 0 <= i < |front| ==> front[i] < |fills|) &&
              var p := fills[front[|front| - 1]].dest;
              Some(p) in f.parents && IsPath(fills, from, front, p)
              && Total(fills + [f], path) == Total(fills, front) + f.padding
  {
    var all, n := fills + [f], |fills|;
    var last := path[|path| - 1];
    assert last == n by {
      if last < n {
        assert Mentions(all[last], all[n].dest);
      }
    }
    if |path| == 1 {
      assert path[..0] == [];
    } else {
      var front := path[..|path| - 1];
      var p := all[front[|front| - 1]].dest;
      assert front[|front| - 1] == path[|path| - 2] && Some(p) in all[path[|path| - 1]].parents;
      assert IsPath(all, from, front, p);
      assert p != f.dest;
      assert all[..n] == fills;
      OldPath(all, from, front, p);
    }
  }

  // -------------------------------------------------------------------------
  // Contributions and derivations
  // -------------------------------------------------------------------------

  /** An element comes from one of these parents, directly or out of its hierarchy. */
  ghost predicate Contributed(blobs: Blobs, padding: int, parents: seq<Option<int>>, e: Element) {
    exists p :: Some(p) in parents
      && (e == Element(p, padding) || Element(e.image, e.padding - padding) in BlobOf(blobs, p))
  }

  lemma {:induction false} ContributionsAre(blobs: Blobs, padding: int, parents: seq<Option<int>>, e: Element)
    ensures e in Contributions(blobs, padding, parents) <==> Contributed(blobs, padding, parents, e)
  {
    if parents != [] {
      ContributionsAre(blobs, padding, parents[1..], e);
      var more := Contributions(blobs, padding, parents[1..]);
      if parents[0].Some? {
        var p := parents[0].value;
        var vec := BlobOf(blobs, p);
        if e in Shifted(vec, padding) {
          var i :| 0 <= i < |vec| && Shifted(vec, padding)[i] == e;
          assert Element(e.image, e.padding - padding) == vec[i];
        }
        if Element(e.image, e.padding - padding) in vec {
          var i :| 0 <= i < |vec| && vec[i] == Element(e.image, e.padding - padding);
          assert Shifted(vec, padding)[i] == e;
        }
        assert e in Contributions(blobs, padding, parents)
               <==> e in Shifted(vec, padding) || e == Element(p, padding) || e in more;
      }
      ContributedSplits(blobs, padding, parents, e);
    }
  }

  lemma ContributedSplits(blobs: Blobs, padding: int, parents: seq<Option<int>>, e: Element)
    requires parents != []
    ensures Contributed(blobs, padding, parents, e)
       <==> Contributed(blobs, padding, parents[1..], e)
            || (parents[0].Some? && (e == Element(parents[0].value, padding)
                                     || Element(e.image, e.padding - padding) in BlobOf(blobs, parents[0].value)))
  {
    if Contributed(blobs, padding, parents, e) {
      var p :| Some(p) in parents && (e == Element(p, padding)
                                      || Element(e.image, e.padding - padding) in BlobOf(blobs, p));
      assert Some(p) == parents[0] || Some(p) in parents[1..];
    }
    if Contributed(blobs, padding, parents[1..], e) {
      var p :| Some(p) in parents[1..] && (e == Element(p, padding)
                                           || Element(e.image, e.padding - padding) in BlobOf(blobs, p));
      assert Some(p) in parents;
    }
    if parents[0].Some? {
      assert Some(parents[0].value) in parents;
    }
  }

  lemma {:induction false} FilledIsLargest(blobs: Blobs, f: Fill, from: int)
    ensures var vec := BlobOf(Filled(blobs, f), f.dest);
            EachOnce(vec) && Largest(Contributions(blobs, f.padding, f.parents), from, Lookup(vec, from))
  {
    var adds := Contributions(blobs, f.padding, f.parents);
    WithAllTakesLargest([], [], adds, from);
    assert [] + adds == adds;
  }

  /** Every contribution stands for a derivation. */
  lemma {:induction false} ContributionHasPath(fills: seq<Fill>, f: Fill, e: Element)
    requires forall x :: Right(fills, BlobOf(Run(fills), x), x)
    requires Contributed(Run(fills), f.padding, f.parents, e)
    ensures exists path :: IsPath(fills + [f], e.image, path, f.dest) && Total(fills + [f], path) == e.padding
  {
    var p :| Some(p) in f.parents && (e == Element(p, f.padding)
                                      || Element(e.image, e.padding - f.padding) in BlobOf(Run(fills), p));
    if e == Element(p, f.padding) {
      ShortPath(fills, f, p);
    } else {
      var vec := BlobOf(Run(fills), p);
      assert Right(fills, vec, p);
      ListedOnce(vec, Element(e.image, e.padding - f.padding));
      var path :| IsPath(fills, e.image, path, p) && Total(fills, path) == e.padding - f.padding;
      PathExtends(fills, f, e.image, path, p);
    }
  }

  lemma {:induction false} ListedOnce(vec: seq<Element>, e: Element)
    requires EachOnce(vec) && e in vec
    ensures Lookup(vec, e.image) == Some(e.padding)
  {
    if vec[0].image != e.image {
      ListedOnce(vec[1..], e);
    } else {
      var i :| 0 <= i < |vec| && vec[i] == e;
      assert i == 0;
    }
  }

  /** Every derivation is covered by a contribution that is at least as large. */
  lemma {:induction false} PathHasContribution(fills: seq<Fill>, f: Fill, from: int, path: seq<nat>)
    requires InOrder(fills + [f]) && forall x :: Right(fills, BlobOf(Run(fills), x), x)
    requires IsPath(fills + [f], from, path, f.dest)
    ensures exists e ::
              Contributed(Run(fills), f.padding, f.parents, e) && e.image == from
              && e.padding >= Total(fills + [f], path)
  {
    PathThroughParent(fills, f, from, path);
    if |path| == 1 {
      assert Contributed(Run(fills), f.padding, f.parents, Element(from, f.padding));
    } else {
      var front := path[..|path| - 1];
      LongPathHasContribution(fills, f, from, front, fills[front[|front| - 1]].dest);
    }
  }

  lemma {:induction false} LongPathHasContribution(fills: seq<Fill>, f: Fill, from: int, front: seq<nat>, p: int)
    requires Some(p) in f.parents && Right(fills, BlobOf(Run(fills), p), p) && IsPath(fills, from, front, p)
    ensures exists e ::
              Contributed(Run(fills), f.padding, f.parents, e) && e.image == from
              && e.padding >= Total(fills, front) + f.padding
  {
    var vec := BlobOf(Run(fills), p);
    LookupFinds(vec, from);
    var o := Lookup(vec, from);
    assert o.Some? && Total(fills, front) <= o.value;
    var e := Element(from, o.value + f.padding);
    assert Element(e.image, e.padding - f.padding) == Element(from, o.value);
    assert Contributed(Run(fills), f.padding, f.parents, e);
  }

  /** After any number of fills the hierarchy of every image is right. */
  lemma {:induction false} HierarchiesAreRight(fills: seq<Fill>, to: int)
    requires InOrder(fills)
    ensures Right(fills, BlobOf(Run(fills), to), to)
    decreases |fills|
  {
    if fills == [] {
      assert forall from, path :: !IsPath(fills, from, path, to);
    } else {
      var n := |fills| - 1;
      var earlier, f := fills[..n], fills[n];
      assert fills == earlier + [f];
      forall x ensures Right(earlier, BlobOf(Run(earlier), x), x) {
        HierarchiesAreRight(earlier, x);
      }
      if to == f.dest {
        NewHierarchyIsRight(earlier, f);
      } else {
        OldHierarchyIsRight(earlier, f, to);
      }
    }
  }

  lemma {:induction false} NewHierarchyIsRight(fills: seq<Fill>, f: Fill)
    requires InOrder(fills + [f]) && forall x :: Right(fills, BlobOf(Run(fills), x), x)
    ensures Right(fills + [f], BlobOf(Filled(Run(fills), f), f.dest), f.dest)
  {
    var all, vec := fills + [f], BlobOf(Filled(Run(fills), f), f.dest);
    var adds := Contributions(Run(fills), f.padding, f.parents);
    FilledIsLargest(Run(fills), f, f.dest);
    forall from | Lookup(vec, from).Some?
      ensures exists path :: IsPath(all, from, path, f.dest) && Total(all, path) == Lookup(vec, from).value
    {
      FilledIsLargest(Run(fills), f, from);
      var e := Element(from, Lookup(vec, from).value);
      ContributionsAre(Run(fills), f.padding, f.parents, e);
      ContributionHasPath(fills, f, e);
    }
    forall from, path | IsPath(all, from, path, f.dest)
      ensures Lookup(vec, from).Some? && Total(all, path) <= Lookup(vec, from).value
    {
      FilledIsLargest(Run(fills), f, from);
      PathHasContribution(fills, f, from, path);
      var e :| Contributed(Run(fills), f.padding, f.parents, e) && e.image == from && e.padding >= Total(all, path);
      ContributionsAre(Run(fills), f.padding, f.parents, e);
      var i :| 0 <= i < |adds| && adds[i] == e;
    }
  }

  lemma {:induction false} OldHierarchyIsRight(fills: seq<Fill>, f: Fill, to: int)
    requires InOrder(fills + [f]) && to != f.dest && Right(fills, BlobOf(Run(fills), to), to)
    ensures Right(fills + [f], BlobOf(Filled(Run(fills), f), to), to)
  {
    var all, vec := fills + [f], BlobOf(Run(fills), to);
    assert all[..|fills|] == fills;
    forall from | Lookup(vec, from).Some?
      ensures exists path :: IsPath(all, from, path, to) && Total(all, path) == Lookup(vec, from).value
    {
      var path :| IsPath(fills, from, path, to) && Total(fills, path) == Lookup(vec, from).value;
      PathStays(fills, f, from, path, to);
    }
    forall from, path | IsPath(all, from, path, to)
      ensures Lookup(vec, from).Some? && Total(all, path) <= Lookup(vec, from).value
    {
      OldPath(all, from, path, to);
    }
  }

  // -------------------------------------------------------------------------
  // Fills that overwrite each other
  // -------------------------------------------------------------------------

  /** An operation fills its output from its inputs and, if it has maps, once more from them. */
  function OperationFills(dest: int, padding: int, inputs: seq<Option<int>>, maps: seq<Option<int>>): seq<Fill> {
    [Fill(dest, padding, inputs)] + (if maps == [] then [] else [Fill(dest, 0, maps)])
  }

  function RunFrom(blobs: Blobs, fills: seq<Fill>): Blobs
    decreases |fills|
  {
    if fills == [] then blobs else RunFrom(Filled(blobs, fills[0]), fills[1..])
  }

  /** With maps, the inputs leave no trace unless they are ancestors of the maps: an input is
      listed with its padding exactly if there are no maps or it was contributed by them. */
  lemma {:induction false} InputsListed(blobs: Blobs, dest: int, padding: int, inputs: seq<Option<int>>,
                                        maps: seq<Option<int>>, image: int)
    requires Some(dest) !in maps
    ensures var vec := BlobOf(RunFrom(blobs, OperationFills(dest, padding, inputs, maps)), dest);
            Lookup(vec, image).Some? <==>
              exists v :: Contributed(blobs, if maps == [] then padding else 0, if maps == [] then inputs else maps,
                                      Element(image, v))
  {
    var fills := OperationFills(dest, padding, inputs, maps);
    var once := Filled(blobs, fills[0]);
    var last, from := if maps == [] then fills[0] else fills[1], if maps == [] then blobs else once;
    if maps == [] {
      assert fills[1..] == [];
    } else {
      assert fills[1..][0] == fills[1] && fills[1..][1..] == [];
      assert RunFrom(Filled(once, fills[1]), []) == Filled(once, fills[1]);
      forall v
        ensures Contributed(once, 0, maps, Element(image, v)) <==> Contributed(blobs, 0, maps, Element(image, v))
      {
        ContributedElsewhere(blobs, once, dest, maps, Element(image, v));
      }
    }
    var vec := BlobOf(Filled(from, last), dest);
    FilledIsLargest(from, last, image);
    if Lookup(vec, image).Some? {
      ContributionsAre(from, last.padding, last.parents, Element(image, Lookup(vec, image).value));
    }
    if v :| Contributed(from, last.padding, last.parents, Element(image, v)) {
      var adds := Contributions(from, last.padding, last.parents);
      ContributionsAre(from, last.padding, last.parents, Element(image, v));
      var i :| 0 <= i < |adds| && adds[i] == Element(image, v);
    }
  }

  lemma ContributedElsewhere(a: Blobs, b: Blobs, dest: int, parents: seq<Option<int>>, e: Element)
    requires Some(dest) !in parents && forall x :: x != dest ==> BlobOf(a, x) == BlobOf(b, x)
    ensures Contributed(a, 0, parents, e) <==> Contributed(b, 0, parents, e)
  {
    if Contributed(a, 0, parents, e) {
      var p :| Some(p) in parents && (e == Element(p, 0) || Element(e.image, e.padding - 0) in BlobOf(a, p));
      assert BlobOf(a, p) == BlobOf(b, p);
    }
    if Contributed(b, 0, parents, e) {
      var p :| Some(p) in parents && (e == Element(p, 0) || Element(e.image, e.padding - 0) in BlobOf(b, p));
      assert BlobOf(a, p) == BlobOf(b, p);
    }
  }

  /** For example: of an input and a map, only the map is listed. */
  lemma MapHidesInput()
    ensures var vec := BlobOf(RunFrom(map[], OperationFills(3, 5, [Some(1)], [Some(2)])), 3);
            Lookup(vec, 1) == None && Lookup(vec, 2) == Some(0)
  {
    InputsListed(map[], 3, 5, [Some(1)], [Some(2)], 1);
    var fills := OperationFills(3, 5, [Some(1)], [Some(2)]);
    assert fills[1..][0] == fills[1] && fills[1..][1..] == [];
    var once := Filled(map[], fills[0]);
    assert RunFrom(Filled(once, fills[1]), []) == Filled(once, fills[1]);
    var adds := Contributions(once, 0, [Some(2)]);
    assert [Some(2)][1..] == [];
    assert BlobOf(once, 2) == [] && Shifted([], 0) == [];
    assert Contributions(once, 0, []) == [];
    assert adds == [] + [Element(2, 0)] + [];
    assert adds == [Element(2, 0)];
    assert adds[1..] == [];
    assert WithAll([Element(2, 0)], []) == [Element(2, 0)];
  }

  // -------------------------------------------------------------------------
  // Comparing two images
  // -------------------------------------------------------------------------

  /** By how much one element exceeds another for the same image. */
  function Cell(a: Element, b: Element): int {
    if a.image == b.image then a.padding - b.padding else 0
  }

  function RowExcess(a: Element, vec: seq<Element>): int {
    if vec == [] then 0 else Cell(a, vec[0]) + RowExcess(a, vec[1..])
  }

  /** By how much the paddings of the common ancestors in one array exceed those in another. */
  function Excess(u: seq<Element>, v: seq<Element>): int {
    if u == [] then 0 else RowExcess(u[0], v) + Excess(u[1..], v)
  }

  lemma {:induction false} ExcessColumn(u: seq<Element>, v: seq<Element>)
    requires v != []
    ensures Excess(u, v) == Excess(u, v[1..]) - RowExcess(v[0], u)
  {
    if u != [] {
      ExcessColumn(u[1..], v);
    }
  }

  lemma {:induction false} ExcessSwaps(u: seq<Element>, v: seq<Element>)
    ensures Excess(u, v) == -Excess(v, u)
    decreases |v|
  {
    if v == [] {
      ExcessOfNothing(u);
    } else {
      ExcessColumn(u, v);
      ExcessSwaps(u, v[1..]);
    }
  }

  lemma {:induction false} ExcessOfNothing(u: seq<Element>)
    ensures Excess(u, []) == 0
  {
    if u != [] {
      ExcessOfNothing(u[1..]);
    }
  }

  /** The image that is to be kept: 0 for the first, 1 for the second. */
  function Preferred(a: Option<seq<Element>>, b: Option<seq<Element>>): int {
    if a.None? then 1
    else if b.None? then 0
    else if a.value == [] && b.value != [] then 1
    else if b.value == [] && a.value != [] then 0
    else if Excess(a.value, b.value) >= 0 then 0 else 1
  }

  /** If one order prefers the second image, the other order prefers the first, except when
      neither has a hierarchy. */
  lemma PreferenceIsConsistent(a: Option<seq<Element>>, b: Option<seq<Element>>)
    ensures Preferred(a, b) == 1 && Preferred(b, a) == 1 <==> a.None? && b.None?
    ensures Preferred(a, b) == 0 && Preferred(b, a) == 0 ==> a.Some? && b.Some? && Excess(a.value, b.value) == 0
  {
    if a.Some? && b.Some? {
      ExcessSwaps(a.value, b.value);
    }
  }

  /** An image without a hierarchy, or with an empty one, gives way to one that has ancestors. */
  lemma UnknownGivesWay(a: Option<seq<Element>>, b: Option<seq<Element>>)
    ensures a.None? || (a.value == [] && b.Some? && b.value != []) ==> Preferred(a, b) == 1
    ensures a.Some? && (b.None? || (b.value == [] && a.value != [])) ==> Preferred(a, b) == 0
  {
  }

  /** On every common ancestor the first array has at least the padding of the second. */
  ghost predicate Dominates(u: seq<Element>, v: seq<Element>) {
    forall a, b :: a in u && b in v && a.image == b.image ==> a.padding >= b.padding
  }

  lemma {:induction false} RowIsNotNegative(a: Element, v: seq<Element>)
    requires forall b :: b in v && a.image == b.image ==> a.padding >= b.padding
    ensures RowExcess(a, v) >= 0
    ensures forall b :: b in v && a.image == b.image && a.padding > b.padding ==> RowExcess(a, v) > 0
  {
    if v != [] {
      RowIsNotNegative(a, v[1..]);
    }
  }

  lemma {:induction false} DominatingExceeds(u: seq<Element>, v: seq<Element>)
    requires Dominates(u, v)
    ensures Excess(u, v) >= 0
    ensures forall a, b :: a in u && b in v && a.image == b.image && a.padding > b.padding ==> Excess(u, v) > 0
  {
    if u != [] {
      RowIsNotNegative(u[0], v);
      DominatingExceeds(u[1..], v);
    }
  }

  /** The image with the larger paddings is kept: the first if on no common ancestor it has the smaller
      one, and the second if moreover it has the larger one somewhere. */
  lemma LargerPaddingWins(u: seq<Element>, v: seq<Element>)
    requires u != [] || v == []
    ensures Dominates(u, v) ==> Preferred(Some(u), Some(v)) == 0
    ensures Dominates(v, u) && (exists a, b :: a in u && b in v && a.image == b.image && a.padding < b.padding) ==>
              Preferred(Some(u), Some(v)) == 1
  {
    ExcessSwaps(u, v);
    if Dominates(u, v) {
      DominatingExceeds(u, v);
    }
    if Dominates(v, u) {
      DominatingExceeds(v, u);
    }
  }

  /** With one common ancestor its paddings decide, and the first image wins a draw. */
  lemma OneCommonAncestorDecides(u: seq<Element>, v: seq<Element>, a: Element, b: Element)
    requires a in u && b in v && a.image == b.image
    requires forall x, y :: x in u && y in v && x.image == y.image ==> x == a && y == b
    ensures Preferred(Some(u), Some(v)) == if a.padding >= b.padding then 0 else 1
  {
    LargerPaddingWins(u, v);
  }

  method CompareImages(blobs: Blobs, i0: int, i1: int) returns (choice: int)
    ensures choice == Preferred(if i0 in blobs then Some(blobs[i0]) else None,
                                if i1 in blobs then Some(blobs[i1]) else None)
  {
    if i0 !in blobs { return 1; }
    if i1 !in blobs { return 0; }
    var u, v := blobs[i0], blobs[i1];
    if |u| == 0 && |v| != 0 { return 1; }
    if |v| == 0 && |u| != 0 { return 0; }
    var tot0, tot1 := 0, 0;
    assert u[0..] == u;
    for i := 0 to |u|
      invariant tot0 - tot1 + Excess(u[i..], v) == Excess(u, v)
    {
      ghost var before := tot0 - tot1;
      assert u[i..][0] == u[i] && u[i..][1..] == u[i + 1..];
      assert v[0..] == v;
      for j := 0 to |v|
        invariant tot0 - tot1 + RowExcess(u[i], v[j..]) == before + RowExcess(u[i], v)
      {
        assert v[j..][0] == v[j] && v[j..][1..] == v[j + 1..];
        if u[i].image == v[j].image {
          if u[i].padding > v[j].padding {
            tot0 := tot0 + (u[i].padding - v[j].padding);
          } else {
            tot1 := tot1 + (v[j].padding - u[i].padding);
          }
        }
      }
    }
    choice := if tot0 >= tot1 then 0 else 1;
  }

  // -------------------------------------------------------------------------
  // The arrays in place
  // -------------------------------------------------------------------------

  class HierarchyArray {
    var vec: seq<Element>

    constructor ()
      ensures vec == []
    {
      vec := [];
    }

    method AddElement(el: int, padding: int)
      modifies this
      ensures vec == WithElement(old(vec), el, padding)
    {
      var i := 0;
      while i < |vec| && vec[i].image != el
        invariant 0 <= i <= |vec|
        invariant forall j :: 0 <= j < i ==> vec[j].image != el
      {
        i := i + 1;
      }
      WithElementAt(vec, el, padding, i);
      if i < |vec| {
        if vec[i].padding < padding {
          vec := vec[i := Element(el, padding)];
        }
        return;
      }
      vec := vec + [Element(el, padding)];
    }

    /** Adds the hierarchy of a parent. */
    method AddShifted(parray: seq<Element>, padding: int)
      modifies this
      ensures vec == WithAll(old(vec), Shifted(parray, padding))
    {
      ghost var shifted, before := Shifted(parray, padding), vec;
      assert shifted[0..] == shifted;
      for i := 0 to |parray|
        invariant WithAll(vec, shifted[i..]) == WithAll(before, shifted)
      {
        assert shifted[i..][0] == shifted[i] && shifted[i..][1..] == shifted[i + 1..];
        AddElement(parray[i].image, parray[i].padding + padding);
      }
      assert shifted[|parray|..] == [];
    }
  }

  lemma {:induction false} WithElementAt(vec: seq<Element>, el: int, padding: int, i: nat)
    requires i <= |vec| && (i < |vec| ==> vec[i].image == el)
    requires forall j :: 0 <= j < i ==> vec[j].image != el
    ensures WithElement(vec, el, padding)
         == if i < |vec| then vec[i := Element(el, Max(vec[i].padding, padding))] else vec + [Element(el, padding)]
  {
    if i > 0 {
      WithElementAt(vec[1..], el, padding, i - 1);
    }
  }

  class Images {
    var blobs: Blobs

    method FillHierarchy(dest: Option<int>, padding: int, parents: seq<Option<int>>)
      modifies this
      ensures blobs == if dest.None? then old(blobs) else Filled(old(blobs), Fill(dest.value, padding, parents))
    {
      if dest.None? {
        return;
      }
      var arr := new HierarchyArray();
      ghost var adds := Contributions(blobs, padding, parents);
      assert parents[0..] == parents;
      for i := 0 to |parents|
        invariant blobs == old(blobs) && fresh(arr)
        invariant WithAll(arr.vec, Contributions(blobs, padding, parents[i..])) == WithAll([], adds)
      {
        ghost var more := Contributions(blobs, padding, parents[i + 1..]);
        assert parents[i..][0] == parents[i] && parents[i..][1..] == parents[i + 1..];
        if parents[i].Some? {
          var p := parents[i].value;
          var parray := if p in blobs then blobs[p] else [];
          ParentStep(arr.vec, Shifted(parray, padding), Element(p, padding), more);
          arr.AddShifted(parray, padding);
          arr.AddElement(p, padding);
        } else {
          assert [] + more == more;
        }
      }
      assert parents[|parents|..] == [];
      blobs := blobs[dest.value := arr.vec];
    }
  }

  lemma {:induction false} ParentStep(vec: seq<Element>, a: seq<Element>, e: Element, more: seq<Element>)
    ensures WithAll(vec, (a + [e]) + more) == WithAll(WithElement(WithAll(vec, a), e.image, e.padding), more)
  {
    assert (a + [e]) + more == a + ([e] + more);
    WithAllConcat(vec, a, [e] + more);
    assert ([e] + more)[1..] == more;
  }

  lemma {:induction false} WithAllConcat(vec: seq<Element>, a: seq<Element>, b: seq<Element>)
    ensures WithAll(vec, a + b) == WithAll(WithAll(vec, a), b)
    decreases |a|
  {
    if a == [] {
      assert a + b == b;
    } else {
      assert (a + b)[0] == a[0] && (a + b)[1..] == a[1..] + b;
      WithAllConcat(WithElement(vec, a[0].image, a[0].padding), a[1..], b);
    }
  }
}
