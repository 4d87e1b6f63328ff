/** The queue of processing requests: producers push, one worker drains batches, drops what is
    redundant in a batch, and executes the rest. */
module RequestQueue {
  import opened Basics

  predicate Empty(r: Rect) {
    r.width <= 0 || r.height <= 0
  }

  /** The smallest rectangle around two, of which one may be empty. */
  function Union(a: Rect, b: Rect): Rect {
    if Empty(a) then b
    else if Empty(b) then a
    else
      var left, top := Min(a.left, b.left), Min(a.top, b.top);
      Rect(left, top, Max(a.left + a.width, b.left + b.width) - left, Max(a.top + a.height, b.top + b.height) - top)
  }

  predicate Covers(outer: Rect, inner: Rect) {
    Empty(inner)
    || (outer.left <= inner.left && inner.left + inner.width <= outer.left + outer.width
        && outer.top <= inner.top && inner.top + inner.height <= outer.top + outer.height)
  }

  /** Covering means to hold all pixels; an empty rectangle is one that holds none. */
  lemma CoversAllPixels(outer: Rect, inner: Rect)
    ensures Covers(outer, inner) <==> forall row, col :: Inside(inner, row, col) ==> Inside(outer, row, col)
    ensures Empty(inner) <==> forall row, col :: !Inside(inner, row, col)
  {
    if !Empty(inner) {
      assert Inside(inner, inner.top, inner.left);
      assert Inside(inner, inner.top + inner.height - 1, inner.left + inner.width - 1);
    }
  }

  lemma UnionIsLeast(a: Rect, b: Rect, r: Rect)
    ensures Covers(Union(a, b), a) && Covers(Union(a, b), b)
    ensures Covers(r, a) && Covers(r, b) ==> Covers(r, Union(a, b))
  {
  }

  lemma CoversTransitive(a: Rect, b: Rect, c: Rect)
    requires Covers(a, b) && Covers(b, c) && (Empty(b) ==> Empty(c))
    ensures Covers(a, c)
  {
  }

  datatype Kind = Rebuild | Update | End | Other(code: int)

  datatype Request = Request(kind: Kind, image: int, pipeline: int, area: Rect)

  // -------------------------------------------------------------------------
  // What is kept of a batch
  // -------------------------------------------------------------------------

  predicate RebuildFrom(batch: seq<Request>, i: nat)
    decreases |batch| - i
  {
    i < |batch| && (batch[i].kind == Rebuild || RebuildFrom(batch, i + 1))
  }

  lemma {:induction false} RebuildFromIs(batch: seq<Request>, i: nat)
    ensures RebuildFrom(batch, i) <==> exists j :: i <= j < |batch| && batch[j].kind == Rebuild
    decreases |batch| - i
  {
    if i < |batch| {
      RebuildFromIs(batch, i + 1);
    }
  }

  /** Of the rebuilds only the last is kept; an update only if it is the last request. */
  predicate Keep(batch: seq<Request>, i: nat)
    requires i < |batch|
  {
    match batch[i].kind
    case Rebuild => !RebuildFrom(batch, i + 1)
    case Update => i == |batch| - 1
    case _ => true
  }

  function KeptFrom(batch: seq<Request>, i: nat): seq<Request>
    requires i <= |batch|
    decreases |batch| - i
  {
    if i == |batch| then [] else (if Keep(batch, i) then [batch[i]] else []) + KeptFrom(batch, i + 1)
  }

  /** The area of the last request, widened by the updates from i on that no rebuild follows. */
  function WidenedFrom(batch: seq<Request>, i: nat): Rect
    requires i < |batch|
    decreases |batch| - i
  {
    if i == |batch| - 1 then batch[i].area
    else if batch[i].kind == Update && !RebuildFrom(batch, i) then Union(WidenedFrom(batch, i + 1), batch[i].area)
    else WidenedFrom(batch, i + 1)
  }

  function WithLastArea(list: seq<Request>, area: Rect): (r: seq<Request>)
    requires list != []
    ensures |r| == |list|
  {
    list[|list| - 1 := list[|list| - 1].(area := area)]
  }

  function OptimizedFrom(batch: seq<Request>, i: nat): (r: seq<Request>)
    requires i < |batch|
    ensures r != []
  {
    LastIsKept(batch, i);
    WithLastArea(KeptFrom(batch, i), WidenedFrom(batch, i))
  }

  function Optimized(batch: seq<Request>): seq<Request>
    requires batch != []
  {
    OptimizedFrom(batch, 0)
  }

  lemma {:induction false} LastIsKept(batch: seq<Request>, i: nat)
    requires i < |batch|
    ensures var k := KeptFrom(batch, i); k != [] && k[|k| - 1] == batch[|batch| - 1]
    decreases |batch| - i
  {
    if i < |batch| - 1 {
      LastIsKept(batch, i + 1);
      var rest := KeptFrom(batch, i + 1);
      assert KeptFrom(batch, i) == if Keep(batch, i) then [batch[i]] + rest else [] + rest;
    } else {
      assert KeptFrom(batch, i + 1) == [] && KeptFrom(batch, i) == [batch[i]];
    }
  }

  /** What one more request in front does to the optimized ones. */
  lemma StepBack(batch: seq<Request>, i: nat)
    requires i < |batch|
    ensures i == |batch| - 1 ==> OptimizedFrom(batch, i) == [batch[i]]
    ensures i < |batch| - 1 ==>
              var r, later := batch[i], OptimizedFrom(batch, i + 1);
              OptimizedFrom(batch, i)
              == if r.kind == Update then
                   if RebuildFrom(batch, i + 1) then later
                   else WithLastArea(later, Union(later[|later| - 1].area, r.area))
                 else if r.kind == Rebuild && RebuildFrom(batch, i + 1) then later
                 else [r] + later
  {
    LastIsKept(batch, i);
    if i < |batch| - 1 {
      LastIsKept(batch, i + 1);
      var k := KeptFrom(batch, i + 1);
      assert KeptFrom(batch, i) == if Keep(batch, i) then [batch[i]] + k else k;
    } else {
      assert KeptFrom(batch, i) == [batch[i]];
    }
  }

  /** The last area is the bounding box: it covers the area of the last request and of every
      update that no rebuild follows, and lies within every rectangle that does.  Whatever
      pipelines these requests are for, their areas are merged. */
  lemma {:induction false} WidenedIsBoundingBox(batch: seq<Request>, i: nat, j: nat, r: Rect)
    requires i <= j < |batch| && (j == |batch| - 1 || (batch[j].kind == Update && !RebuildFrom(batch, j)))
    ensures Covers(WidenedFrom(batch, i), batch[j].area)
    ensures (forall k :: i <= k < |batch| && (k == |batch| - 1
                                              || (batch[k].kind == Update && !RebuildFrom(batch, k))) ==>
                                                   Covers(r, batch[k].area))
            ==> Covers(r, WidenedFrom(batch, i))
    decreases |batch| - i
  {
    if i < |batch| - 1 {
      var w := WidenedFrom(batch, i + 1);
      UnionIsLeast(w, batch[i].area, r);
      if i < j {
        WidenedIsBoundingBox(batch, i + 1, j, r);
        if !Empty(batch[j].area) {
          CoversTransitive(WidenedFrom(batch, i), w, batch[j].area);
        }
      } else {
        WidenedIsBoundingBox(batch, i + 1, |batch| - 1, r);
      }
    }
  }

  /** Updates before a rebuild of their batch are dropped. */
  lemma {:induction false} KeptKinds(batch: seq<Request>, i: nat, x: Request)
    requires i <= |batch| && x in KeptFrom(batch, i)
    ensures x.kind == Update ==> x == batch[|batch| - 1]
    ensures x.kind == Rebuild ==> exists j :: i <= j < |batch| && batch[j] == x && !RebuildFrom(batch, j + 1)
    decreases |batch| - i
  {
    if x in KeptFrom(batch, i + 1) {
      KeptKinds(batch, i + 1, x);
    }
  }

  /** This request, when executed, brings the area of an update up to date: it is an update of the
      same pipeline and covers the area. */
  predicate Does(u: Request, r: Request) {
    u.kind == Update && u.pipeline == r.pipeline && Covers(u.area, r.area)
  }

  /** An update that no rebuild follows is done by its batch exactly if the batch ends with an
      update of the same pipeline; otherwise its area goes to a request that makes no update, or
      updates another pipeline. */
  lemma UpdateIsDone(batch: seq<Request>, i: nat)
    requires i < |batch| && batch[i].kind == Update && !RebuildFrom(batch, i)
    ensures (exists u :: u in Optimized(batch) && Does(u, batch[i]))
       <==> batch[|batch| - 1].kind == Update && batch[|batch| - 1].pipeline == batch[i].pipeline
  {
    var last := batch[|batch| - 1];
    var kept, opt := KeptFrom(batch, 0), Optimized(batch);
    LastIsKept(batch, 0);
    if last.kind == Update && last.pipeline == batch[i].pipeline {
      WidenedIsBoundingBox(batch, 0, i, last.area);
      assert opt[|opt| - 1] in opt && Does(opt[|opt| - 1], batch[i]);
    }
    if u :| u in opt && Does(u, batch[i]) {
      var k :| 0 <= k < |opt| && opt[k] == u;
      assert kept[k].kind == Update && kept[k].pipeline == u.pipeline && kept[k] in kept;
      KeptKinds(batch, 0, kept[k]);
    }
  }

  /** A batch with a rebuild keeps one, the last. */
  lemma {:induction false} LastRebuildKept(batch: seq<Request>, i: nat, j: nat)
    requires i <= j < |batch| && batch[j].kind == Rebuild && !RebuildFrom(batch, j + 1)
    ensures batch[j] in KeptFrom(batch, i)
    ensures Rebuilds(KeptFrom(batch, i)) == [batch[j]]
    decreases |batch| - i
  {
    RebuildsStep(batch, i);
    if i < j {
      RebuildFromIs(batch, i + 1);
      LastRebuildKept(batch, i + 1, j);
    } else {
      NoRebuilds(batch, i + 1);
    }
  }

  predicate IsRebuildOf(u: Request, image: int) {
    u.kind == Rebuild && u.image == image
  }

  /** Of all images, a batch rebuilds exactly that of its last rebuild. */
  lemma {:induction false} RebuildIsDone(batch: seq<Request>, j: nat, image: int)
    requires j < |batch| && batch[j].kind == Rebuild && !RebuildFrom(batch, j + 1)
    ensures (exists u :: u in Optimized(batch) && IsRebuildOf(u, image)) <==> batch[j].image == image
  {
    var done := LastRebuildIsDone(batch, j);
    if u :| u in Optimized(batch) && IsRebuildOf(u, image) {
      OtherRebuildsAreNot(batch, j, u);
    }
  }

  lemma LastRebuildIsDone(batch: seq<Request>, j: nat) returns (u: Request)
    requires j < |batch| && batch[j].kind == Rebuild && !RebuildFrom(batch, j + 1)
    ensures u in Optimized(batch) && IsRebuildOf(u, batch[j].image)
  {
    LastIsKept(batch, 0);
    LastRebuildKept(batch, 0, j);
    var kept, opt := KeptFrom(batch, 0), Optimized(batch);
    var k :| 0 <= k < |kept| && kept[k] == batch[j];
    u := opt[k];
  }

  lemma {:induction false} OtherRebuildsAreNot(batch: seq<Request>, j: nat, u: Request)
    requires j < |batch| && batch[j].kind == Rebuild && !RebuildFrom(batch, j + 1)
    requires u in Optimized(batch) && u.kind == Rebuild
    ensures u.image == batch[j].image
  {
    var m :| 0 <= m < |Optimized(batch)| && Optimized(batch)[m] == u;
    var x := OptimizedFromKept(batch, m);
    OnlyLastRebuildKept(batch, j, x);
  }

  /** Optimizing changes nothing but the area of a request that is kept. */
  lemma OptimizedFromKept(batch: seq<Request>, m: nat) returns (x: Request)
    requires batch != [] && m < |Optimized(batch)|
    ensures x in KeptFrom(batch, 0) && Optimized(batch)[m] == x.(area := Optimized(batch)[m].area)
  {
    LastIsKept(batch, 0);
    x := KeptFrom(batch, 0)[m];
  }

  lemma {:induction false} OnlyLastRebuildKept(batch: seq<Request>, j: nat, x: Request)
    requires j < |batch| && batch[j].kind == Rebuild && !RebuildFrom(batch, j + 1)
    requires x in KeptFrom(batch, 0) && x.kind == Rebuild
    ensures x == batch[j]
  {
    KeptKinds(batch, 0, x);
    var n :| 0 <= n < |batch| && batch[n] == x && !RebuildFrom(batch, n + 1);
    LastRebuildIsOne(batch, j, n);
  }

  lemma {:induction false} LastRebuildIsOne(batch: seq<Request>, j: nat, n: nat)
    requires j < |batch| && batch[j].kind == Rebuild && !RebuildFrom(batch, j + 1)
    requires n < |batch| && batch[n].kind == Rebuild && !RebuildFrom(batch, n + 1)
    ensures n == j
  {
    RebuildFromIs(batch, n + 1);
    RebuildFromIs(batch, j + 1);
  }

  lemma RebuildsStep(batch: seq<Request>, i: nat)
    requires i < |batch|
    ensures Rebuilds(KeptFrom(batch, i))
         == (if batch[i].kind == Rebuild && !RebuildFrom(batch, i + 1) then [batch[i]] else [])
            + Rebuilds(KeptFrom(batch, i + 1))
  {
    var own := if Keep(batch, i) then [batch[i]] else [];
    RebuildsConcat(own, KeptFrom(batch, i + 1));
    assert own != [] ==> own[1..] == [];
  }

  function Rebuilds(list: seq<Request>): seq<Request> {
    if list == [] then [] else (if list[0].kind == Rebuild then [list[0]] else []) + Rebuilds(list[1..])
  }

  lemma {:induction false} RebuildsConcat(a: seq<Request>, b: seq<Request>)
    ensures Rebuilds(a + b) == Rebuilds(a) + Rebuilds(b)
  {
    if a == [] {
      assert a + b == b;
    } else {
      assert (a + b)[0] == a[0] && (a + b)[1..] == a[1..] + b;
      RebuildsConcat(a[1..], b);
      Regrouped(if a[0].kind == Rebuild then [a[0]] else [], Rebuilds(a[1..]), Rebuilds(b));
    }
  }

  lemma {:induction false} NoRebuilds(batch: seq<Request>, i: nat)
    requires i <= |batch| && !RebuildFrom(batch, i)
    ensures Rebuilds(KeptFrom(batch, i)) == []
    decreases |batch| - i
  {
    if i < |batch| {
      NoRebuilds(batch, i + 1);
      RebuildsStep(batch, i);
    }
  }

  // -------------------------------------------------------------------------
  // Requests that are never dropped
  // -------------------------------------------------------------------------

  const NO_AREA := Rect(0, 0, 0, 0)

  /** The requests other than rebuilds and updates, apart from their areas. */
  function Plain(list: seq<Request>): seq<Request> {
    if list == [] then [] else PlainOne(list[0]) + Plain(list[1..])
  }

  function PlainOne(r: Request): seq<Request> {
    if r.kind == Rebuild || r.kind == Update then [] else [r.(area := NO_AREA)]
  }

  lemma {:induction false} PlainConcat(a: seq<Request>, b: seq<Request>)
    ensures Plain(a + b) == Plain(a) + Plain(b)
  {
    if a == [] {
      assert a + b == b;
    } else {
      assert (a + b)[0] == a[0] && (a + b)[1..] == a[1..] + b;
      PlainConcat(a[1..], b);
      Regrouped(PlainOne(a[0]), Plain(a[1..]), Plain(b));
    }
  }

  lemma {:induction false} KeptPlain(batch: seq<Request>, i: nat)
    requires i <= |batch|
    ensures Plain(KeptFrom(batch, i)) == Plain(batch[i..])
    decreases |batch| - i
  {
    if i < |batch| {
      KeptPlain(batch, i + 1);
      assert batch[i..][0] == batch[i] && batch[i..][1..] == batch[i + 1..];
      PlainConcat(if Keep(batch, i) then [batch[i]] else [], KeptFrom(batch, i + 1));
      assert [batch[i]][1..] == [] && Plain([]) == [];
    }
  }

  lemma {:induction false} PlainIgnoresLastArea(list: seq<Request>, area: Rect)
    requires list != []
    ensures Plain(WithLastArea(list, area)) == Plain(list)
  {
    var n := |list| - 1;
    var front, last := list[..n], list[n];
    assert list == front + [last] && WithLastArea(list, area) == front + [last.(area := area)];
    PlainConcat(front, [last]);
    PlainConcat(front, [last.(area := area)]);
    assert [last][1..] == [] && [last.(area := area)][1..] == [];
  }

  lemma {:induction false} OptimizedPlain(batch: seq<Request>)
    requires batch != []
    ensures Plain(Optimized(batch)) == Plain(batch)
  {
    LastIsKept(batch, 0);
    KeptPlain(batch, 0);
    assert batch[0..] == batch;
    PlainIgnoresLastArea(KeptFrom(batch, 0), WidenedFrom(batch, 0));
  }

  // -------------------------------------------------------------------------
  // Runs
  // -------------------------------------------------------------------------

  /** The worker pops one request and then as many as were queued at that moment; then it works
      on the optimized batch. */
  datatype Phase = Idle | Popping(left: nat) | Working | Stopped

  datatype System = System(
    submitted: seq<Request>,
    queue: seq<Request>,
    phase: Phase,
    batch: seq<Request>,
    todo: seq<Request>,
    executed: seq<Request>,
    running: bool)

  datatype Step = Submit(r: Request) | PopFirst | PopNext | Optimize | Execute | Finish

  ghost predicate Enabled(s: System, e: Step) {
    match e
    case Submit(_) => true
    case PopFirst => s.phase == Idle && s.queue != []
    case PopNext => s.phase.Popping? && s.phase.left > 0
    case Optimize => s.phase == Popping(0)
    case Execute => s.phase == Working && s.todo != []
    case Finish => s.phase == Working && s.todo == []
  }

  function After(s: System, e: Step): System {
    match e
    case Submit(r) => s.(submitted := s.submitted + [r], queue := s.queue + [r])
    case PopFirst =>
      if s.queue == [] then s else s.(queue := s.queue[1..], batch := [s.queue[0]], phase := Popping(|s.queue| - 1))
    case PopNext =>
      if s.queue == [] || !s.phase.Popping? || s.phase.left == 0 then s
      else s.(queue := s.queue[1..], batch := s.batch + [s.queue[0]], phase := Popping(s.phase.left - 1))
    case Optimize =>
      if s.batch == [] then s else s.(todo := s.todo + Optimized(s.batch), batch := [], phase := Working)
    case Execute =>
      if s.todo == [] then s
      else s.(todo := s.todo[1..], executed := s.executed + [s.todo[0]], running := s.running && s.todo[0].kind != End)
    case Finish => s.(phase := if s.running then Idle else Stopped)
  }

  const BEGIN := System([], [], Idle, [], [], [], true)

  ghost predicate Sound(s: System) {
    && (s.phase.Popping? ==> s.phase.left <= |s.queue| && s.batch != [] && s.todo == [])
    && (!s.phase.Popping? ==> s.batch == [])
    && (s.phase != Working ==> s.todo == [])
    && Plain(s.executed + s.todo + s.batch + s.queue) == Plain(s.submitted)
  }

  lemma SubmitKeepsSound(s: System, r: Request)
    requires Sound(s)
    ensures Sound(After(s, Submit(r)))
  {
    var before := s.executed + s.todo + s.batch + s.queue;
    PlainConcat(s.submitted, [r]);
    PlainConcat(before, [r]);
    assert s.executed + s.todo + s.batch + (s.queue + [r]) == before + [r];
  }

  lemma PopKeepsSound(s: System, e: Step)
    requires Sound(s) && Enabled(s, e) && (e == PopFirst || e == PopNext)
    ensures Sound(After(s, e))
  {
    var t := After(s, e);
    assert t.batch == s.batch + [s.queue[0]] && t.queue == s.queue[1..];
    assert t.executed + t.todo + t.batch + t.queue == s.executed + s.todo + s.batch + s.queue;
  }

  lemma OptimizeKeepsSound(s: System)
    requires Sound(s) && Enabled(s, Optimize)
    ensures Sound(After(s, Optimize))
  {
    OptimizedPlain(s.batch);
    var opt := Optimized(s.batch);
    assert s.todo + opt == opt && s.executed + opt + [] + s.queue == s.executed + opt + s.queue;
    assert s.executed + s.todo + s.batch + s.queue == s.executed + s.batch + s.queue;
    PlainConcat(s.executed, opt);
    PlainConcat(s.executed, s.batch);
    PlainConcat(s.executed + opt, s.queue);
    PlainConcat(s.executed + s.batch, s.queue);
  }

  lemma ExecuteKeepsSound(s: System)
    requires Sound(s) && Enabled(s, Execute)
    ensures Sound(After(s, Execute))
  {
    var t := After(s, Execute);
    assert t.executed + t.todo == s.executed + s.todo;
  }

  lemma StepKeepsSound(s: System, e: Step)
    requires Sound(s) && Enabled(s, e)
    ensures Sound(After(s, e))
  {
    match e
    case Submit(r) => SubmitKeepsSound(s, r);
    case PopFirst => PopKeepsSound(s, e);
    case PopNext => PopKeepsSound(s, e);
    case Optimize => OptimizeKeepsSound(s);
    case Execute => ExecuteKeepsSound(s);
    case Finish =>
  }

  function Run(s: System, steps: seq<Step>): System
    decreases |steps|
  {
    if steps == [] then s else Run(After(s, steps[0]), steps[1..])
  }

  ghost predicate Possible(s: System, steps: seq<Step>)
    decreases |steps|
  {
    steps != [] ==> Enabled(s, steps[0]) && Possible(After(s, steps[0]), steps[1..])
  }

  /** In every interleaving of submissions and the worker's steps, every request other than a
      rebuild or update is executed, or waits to be, exactly once and in the order of submission. */
  lemma {:induction false} NothingLost(s: System, steps: seq<Step>)
    requires Sound(s) && Possible(s, steps)
    ensures Sound(Run(s, steps))
    decreases |steps|
  {
    if steps != [] {
      StepKeepsSound(s, steps[0]);
      NothingLost(After(s, steps[0]), steps[1..]);
    }
  }

  /** When the worker has come to rest with an empty queue, all of them have been executed. */
  lemma {:induction false} AllExecuted(steps: seq<Step>)
    requires Possible(BEGIN, steps)
    ensures var s := Run(BEGIN, steps);
            s.phase == Idle && s.queue == [] ==> Plain(s.executed) == Plain(s.submitted)
  {
    NothingLost(BEGIN, steps);
    var s := Run(BEGIN, steps);
    assert s.executed + [] + [] + [] == s.executed;
  }

  // -------------------------------------------------------------------------
  // Rebuilds of different images
  // -------------------------------------------------------------------------

  /** Rebuilds are told apart by nothing but their kind: of two for different images that arrive
      in one batch only the second is executed. */
  lemma RebuildOfOtherImageLost(a: Request, b: Request)
    requires a.kind == Rebuild && b.kind == Rebuild && a.image != b.image
    ensures Optimized([a, b]) == [b]
  {
    var batch := [a, b];
    assert RebuildFrom(batch, 1);
    assert KeptFrom(batch, 2) == [];
    assert KeptFrom(batch, 1) == [b];
    assert KeptFrom(batch, 0) == [b];
    assert WidenedFrom(batch, 1) == b.area;
  }

  // -------------------------------------------------------------------------
  // The processor
  // -------------------------------------------------------------------------

  class ImageProcessor {
    var requests: seq<Request>
    var optimizedRequests: seq<Request>

    constructor ()
      ensures requests == [] && optimizedRequests == []
    {
      requests, optimizedRequests := [], [];
    }

    method SubmitRequest(r: Request)
      modifies this`requests
      ensures requests == old(requests) + [r]
    {
      requests := requests + [r];
    }

    /** Drains the queue and fills the list of optimized requests, walking backwards. */
    method OptimizeRequests()
      requires requests != [] && optimizedRequests == []
      modifies this
      ensures requests == [] && optimizedRequests == Optimized(old(requests))
    {
      var temp := [requests[0]];
      requests := requests[1..];
      var length := |requests|;
      for i := 0 to length
        invariant |requests| == length - i && temp + requests == old(requests) && optimizedRequests == []
      {
        temp := temp + [requests[0]];
        requests := requests[1..];
      }
      assert temp == old(requests);
      var rebuildFound, pushed := false, false;
      var i := |temp|;
      while i > 0
        invariant 0 <= i <= |temp| && requests == []
        invariant rebuildFound == RebuildFrom(temp, i)
        invariant pushed == (i < |temp|)
        invariant if pushed then optimizedRequests == OptimizedFrom(temp, i) else optimizedRequests == []
      {
        i := i - 1;
        var r := temp[i];
        var doPush := true;
        StepBack(temp, i);
        if r.kind == Rebuild {
          if rebuildFound {
            doPush := false;
          }
          rebuildFound := true;
        }
        if r.kind == Update {
          if rebuildFound {
            doPush := false;
          }
          if doPush && pushed {
            var n := |optimizedRequests| - 1;
            var info := optimizedRequests[n];
            optimizedRequests := optimizedRequests[n := info.(area := Union(info.area, r.area))];
            doPush := false;
          }
        }
        if doPush {
          optimizedRequests := [r] + optimizedRequests;
          pushed := true;
        }
      }
    }

    /** Takes all requests of an image out of the queue. */
    method RemoveImageFromQueue(image: int)
      modifies this`requests
      ensures requests == Without(old(requests), image)
    {
      var length := |requests|;
      ghost var all := requests;
      assert all[0..] == all && requests == all + [];
      ghost var done: seq<Request> := [];
      for i := 0 to length
        invariant requests == all[i..] + done
        invariant done + Without(all[i..], image) == Without(all, image)
      {
        var r := requests[0];
        WithoutNext(all, i, done, image);
        requests := requests[1..];
        assert requests == all[i + 1..] + done;
        if r.image != image {
          requests := requests + [r];
          done := done + [r];
        }
      }
      assert all[length..] == [];
    }
  }

  function Without(list: seq<Request>, image: int): seq<Request> {
    if list == [] then [] else (if list[0].image == image then [] else [list[0]]) + Without(list[1..], image)
  }

  lemma {:induction false} WithoutNext(all: seq<Request>, i: nat, done: seq<Request>, image: int)
    requires i < |all|
    ensures (all[i..] + done)[0] == all[i] && (all[i..] + done)[1..] == all[i + 1..] + done
    ensures done + Without(all[i..], image)
         == (if all[i].image != image then done + [all[i]] else done) + Without(all[i + 1..], image)
  {
    assert all[i..][0] == all[i] && all[i..][1..] == all[i + 1..];
  }

  /** Exactly the requests of other images are left, in their order. */
  lemma {:induction false} WithoutKeepsOthers(list: seq<Request>, image: int) returns (at: seq<nat>)
    ensures Selects(list, at, Without(list, image))
    ensures forall i: nat :: i in at <==> i < |list| && list[i].image != image
  {
    if list == [] {
      at := [];
    } else {
      var rest := WithoutKeepsOthers(list[1..], image);
      var kept := Without(list[1..], image);
      at := SelectsLater(list, rest, kept);
      if list[0].image != image {
        SelectsAlso(list, 0, at, kept);
        at := [0] + at;
      } else {
        assert [] + kept == kept;
      }
    }
  }
}
