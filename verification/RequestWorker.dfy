/** The loop of the worker over whole runs: when it goes on, when it stops, and what it gets done. */
module RequestWorker {
  import opened Basics
  import opened RequestQueue

  // -------------------------------------------------------------------------
  // When the worker runs
  // -------------------------------------------------------------------------

  ghost predicate NoEnd(list: seq<Request>) {
    forall k :: 0 <= k < |list| ==> list[k].kind != End
  }

  /** The worker is running exactly if it has met no end request, and it comes to a stop only then; it
      looks for new requests only while it is running. */
  ghost predicate Lively(s: System) {
    && (s.running <==> NoEnd(s.executed))
    && (s.phase == Stopped ==> !s.running)
    && (s.phase == Idle || s.phase.Popping? ==> s.running)
  }

  lemma StepKeepsLively(s: System, e: Step)
    requires Lively(s) && Enabled(s, e)
    ensures Lively(After(s, e))
  {
    if e == Execute {
      var t := After(s, e);
      assert t.executed[|s.executed|] == s.todo[0];
      assert forall k :: 0 <= k < |s.executed| ==> t.executed[k] == s.executed[k];
    }
  }

  lemma {:induction false} RunKeepsLively(s: System, steps: seq<Step>)
    requires Lively(s) && Possible(s, steps)
    ensures Lively(Run(s, steps))
    decreases |steps|
  {
    if steps != [] {
      StepKeepsLively(s, steps[0]);
      RunKeepsLively(After(s, steps[0]), steps[1..]);
    }
  }

  /** Over every run: the worker is running exactly if it has executed no end request, and it stands
      still for good only if it has executed one. */
  lemma {:induction false} RunsUntilEnd(steps: seq<Step>)
    requires Possible(BEGIN, steps)
    ensures var s := Run(BEGIN, steps);
            && (s.running <==> forall k :: 0 <= k < |s.executed| ==> s.executed[k].kind != End)
            && (s.phase == Stopped ==> exists k :: 0 <= k < |s.executed| && s.executed[k].kind == End)
  {
    RunKeepsLively(BEGIN, steps);
  }

  // -------------------------------------------------------------------------
  // The worker goes on
  // -------------------------------------------------------------------------

  ghost predicate WorkerStep(e: Step) {
    !e.Submit?
  }

  ghost predicate WorkerOnly(steps: seq<Step>) {
    forall k :: 0 <= k < |steps| ==> WorkerStep(steps[k])
  }

  /** What the worker does next. */
  ghost function NextStep(s: System): Step {
    match s.phase
    case Idle => PopFirst
    case Popping(left) => if left > 0 then PopNext else Optimize
    case Working => if s.todo != [] then Execute else Finish
    case Stopped => Finish
  }

  ghost predicate AtRest(s: System) {
    s.phase == Stopped || (s.phase == Idle && s.queue == [])
  }

  /** The worker has nothing to do exactly if it has stopped, or idles before an empty queue. */
  lemma RestsExactlyIf(s: System)
    ensures (exists e :: WorkerStep(e) && Enabled(s, e)) <==> !AtRest(s)
  {
    if !AtRest(s) {
      assert WorkerStep(NextStep(s)) && Enabled(s, NextStep(s));
    }
  }

  /** Over every run: while no end request was executed, and something is queued, drained or to be done,
      the worker has a step to take. */
  lemma {:induction false} WorkerIsNeverStuck(steps: seq<Step>)
    requires Possible(BEGIN, steps)
    ensures var s := Run(BEGIN, steps);
            NoEnd(s.executed) && s.queue + s.batch + s.todo != [] ==> exists e :: WorkerStep(e) && Enabled(s, e)
  {
    RunKeepsLively(BEGIN, steps);
    NothingLost(BEGIN, steps);
    RestsExactlyIf(Run(BEGIN, steps));
  }

  ghost function Rank(s: System): nat {
    match s.phase
    case Popping(_) => 2
    case Working => 1
    case _ => 0
  }

  /** Left to itself the worker comes to rest, having taken everything out of the queue unless it has
      stopped. */
  lemma {:induction false} ComesToRest(s: System) returns (more: seq<Step>)
    requires Sound(s) && Lively(s)
    ensures WorkerOnly(more) && Possible(s, more)
    ensures AtRest(Run(s, more)) && Run(s, more).submitted == s.submitted
    decreases |s.queue|, Rank(s), |s.todo|
  {
    if AtRest(s) {
      more := [];
    } else {
      var e := NextStep(s);
      StepKeepsSound(s, e);
      StepKeepsLively(s, e);
      var rest := ComesToRest(After(s, e));
      more := [e] + rest;
      assert more[0] == e && more[1..] == rest;
    }
  }

  lemma {:induction false} RunConcat(s: System, a: seq<Step>, b: seq<Step>)
    ensures Run(s, a + b) == Run(Run(s, a), b)
    ensures Possible(s, a + b) <==> Possible(s, a) && Possible(Run(s, a), b)
    decreases |a|
  {
    if a == [] {
      assert a + b == b;
    } else {
      assert (a + b)[0] == a[0] && (a + b)[1..] == a[1..] + b;
      RunConcat(After(s, a[0]), a[1..], b);
    }
  }

  lemma {:induction false} EndsAreListed(list: seq<Request>, k: nat)
    requires k < |list| && list[k].kind == End
    ensures list[k].(area := NO_AREA) in Plain(list)
  {
    if k > 0 {
      EndsAreListed(list[1..], k - 1);
    }
  }

  lemma {:induction false} ListedAreThere(list: seq<Request>, x: Request)
    requires x in Plain(list)
    ensures exists k :: 0 <= k < |list| && list[k].kind == x.kind
  {
    if x !in PlainOne(list[0]) {
      ListedAreThere(list[1..], x);
      var k :| 0 <= k < |list[1..]| && list[1..][k].kind == x.kind;
      assert list[k + 1].kind == x.kind;
    }
  }

  /** After every run without an end request the worker needs only be left alone: it then executes every
      request other than rebuilds and updates that was submitted, in the order of submission, and waits
      before an empty queue. */
  lemma EverythingGetsDone(steps: seq<Step>) returns (more: seq<Step>)
    requires Possible(BEGIN, steps) && NoEnd(Run(BEGIN, steps).submitted)
    ensures WorkerOnly(more) && Possible(BEGIN, steps + more)
    ensures var t := Run(BEGIN, steps + more);
            && t.submitted == Run(BEGIN, steps).submitted && t.phase == Idle && t.queue == []
            && Plain(t.executed) == Plain(t.submitted)
  {
    var s := Run(BEGIN, steps);
    NothingLost(BEGIN, steps);
    RunKeepsLively(BEGIN, steps);
    more := ComesToRest(s);
    RunConcat(BEGIN, steps, more);
    NothingLost(BEGIN, steps + more);
    RunKeepsLively(BEGIN, steps + more);
    var t := Run(BEGIN, steps + more);
    if t.phase == Stopped {
      var k :| 0 <= k < |t.executed| && t.executed[k].kind == End;
      var all := t.executed + t.todo + t.batch + t.queue;
      assert all[k] == t.executed[k];
      EndsAreListed(all, k);
      ListedAreThere(t.submitted, all[k].(area := NO_AREA));
    } else {
      AllExecuted(steps + more);
    }
  }

  // -------------------------------------------------------------------------
  // One round of the loop
  // -------------------------------------------------------------------------

  /** Of a batch these requests are kept: of the rebuilds the last, an update at the very end, and all
      others. */
  ghost predicate Survives(batch: seq<Request>, i: nat)
    requires i < |batch|
  {
    match batch[i].kind
    case Rebuild => forall j :: i < j < |batch| ==> batch[j].kind != Rebuild
    case Update => i == |batch| - 1
    case _ => true
  }

  /** The requests of the list are those of the batch at the given positions, and these are the positions
      from i on of all that survive. */
  ghost predicate Picked(batch: seq<Request>, i: nat, list: seq<Request>, at: seq<nat>) {
    Selects(batch, at, list) && forall j: nat :: j in at <==> i <= j < |batch| && Survives(batch, j)
  }

  lemma KeepIsSurvive(batch: seq<Request>, i: nat)
    requires i < |batch|
    ensures Keep(batch, i) <==> Survives(batch, i)
  {
    RebuildFromIs(batch, i + 1);
  }

  lemma PickedOneMore(batch: seq<Request>, i: nat, list: seq<Request>, at: seq<nat>)
    requires i < |batch| && Picked(batch, i + 1, list, at) && Survives(batch, i)
    ensures Picked(batch, i, [batch[i]] + list, [i] + at)
  {
    SelectsAlso(batch, i, at, list);
  }

  lemma PickedNoMore(batch: seq<Request>, i: nat, list: seq<Request>, at: seq<nat>)
    requires i < |batch| && Picked(batch, i + 1, list, at) && !Survives(batch, i)
    ensures Picked(batch, i, list, at)
  {
  }

  lemma {:induction false} KeptArePicked(batch: seq<Request>, i: nat) returns (at: seq<nat>)
    requires i <= |batch|
    ensures Picked(batch, i, KeptFrom(batch, i), at)
    decreases |batch| - i
  {
    if i == |batch| {
      at := [];
    } else {
      var rest := KeptArePicked(batch, i + 1);
      var list := KeptFrom(batch, i + 1);
      KeepIsSurvive(batch, i);
      if Keep(batch, i) {
        PickedOneMore(batch, i, list, rest);
        at := [i] + rest;
      } else {
        PickedNoMore(batch, i, list, rest);
        assert [] + list == list;
        at := rest;
      }
    }
  }

  /** Optimizing keeps exactly the surviving requests, in their order, and changes at most the area of the
      last one. */
  lemma OptimizedArePicked(batch: seq<Request>) returns (at: seq<nat>)
    requires batch != []
    ensures var opt := Optimized(batch);
            && |at| == |opt| > 0
            && Picked(batch, 0, WithLastArea(opt, batch[|batch| - 1].area), at)
  {
    at := KeptArePicked(batch, 0);
    LastIsKept(batch, 0);
    var kept := KeptFrom(batch, 0);
    assert WithLastArea(Optimized(batch), batch[|batch| - 1].area) == kept;
  }

  /** The worker is draining what was queued, and what was submitted meanwhile stays queued. */
  ghost predicate Draining(s: System, batch: seq<Request>, before: seq<Request>) {
    && s.phase.Popping? && s.phase.left <= |s.queue| && s.todo == []
    && s.batch + s.queue[..s.phase.left] == batch
    && before + s.queue[s.phase.left..] == s.submitted
  }

  ghost predicate AreOnly(steps: seq<Step>, e: Step) {
    forall k :: 0 <= k < |steps| ==> steps[k] == e || steps[k].Submit?
  }

  lemma {:induction false} Drains(s: System, steps: seq<Step>, batch: seq<Request>, before: seq<Request>)
    requires Draining(s, batch, before) && Possible(s, steps) && AreOnly(steps, PopNext)
    ensures Draining(Run(s, steps), batch, before) && Run(s, steps).executed == s.executed
    decreases |steps|
  {
    if steps != [] {
      var t := After(s, steps[0]);
      assert steps[0] == PopNext || steps[0].Submit?;
      if steps[0] == PopNext {
        assert t.batch + t.queue[..t.phase.left] == s.batch + s.queue[..s.phase.left];
        assert t.queue[t.phase.left..] == s.queue[s.phase.left..];
      } else {
        assert t.queue[..t.phase.left] == s.queue[..s.phase.left];
        assert before + t.queue[t.phase.left..] == before + s.queue[s.phase.left..] + [steps[0].r];
      }
      Drains(t, steps[1..], batch, before);
    }
  }

  lemma {:induction false} Executes(s: System, steps: seq<Step>)
    requires s.phase == Working && Possible(s, steps) && AreOnly(steps, Execute)
    ensures var t := Run(s, steps); t.phase == Working && t.executed + t.todo == s.executed + s.todo
    decreases |steps|
  {
    if steps != [] {
      var t := After(s, steps[0]);
      assert t.executed + t.todo == s.executed + s.todo;
      Executes(t, steps[1..]);
    }
  }

  /** One round, with any submissions in between: the worker drains exactly what is queued when it begins,
      and executes exactly what optimizing leaves of that; what is submitted before it optimizes waits
      for the next round. */
  lemma {:induction false} RoundExecutesBatch(s: System, pops: seq<Step>, executes: seq<Step>)
    requires Sound(s) && s.phase == Idle && Possible(s, [PopFirst] + pops + [Optimize] + executes)
    requires AreOnly(pops, PopNext) && AreOnly(executes, Execute)
    ensures var t, u := Run(s, [PopFirst] + pops + [Optimize]), Run(s, [PopFirst] + pops + [Optimize] + executes);
            && s.submitted + t.queue == t.submitted
            && t.todo == Optimized(s.queue)
            && u.executed + u.todo == s.executed + Optimized(s.queue)
  {
    var drain := [PopFirst] + pops + [Optimize];
    RunConcat(s, drain, executes);
    RoundTakesBatch(s, pops);
    Executes(Run(s, drain), executes);
  }

  lemma {:induction false} RoundTakesBatch(s: System, pops: seq<Step>)
    requires Sound(s) && s.phase == Idle && Possible(s, [PopFirst] + pops + [Optimize]) && AreOnly(pops, PopNext)
    ensures var t := Run(s, [PopFirst] + pops + [Optimize]);
            && s.submitted + t.queue == t.submitted && t.phase == Working && t.executed == s.executed
            && s.queue != [] && t.todo == Optimized(s.queue)
  {
    RunConcat(s, [PopFirst] + pops, [Optimize]);
    RunConcat(s, [PopFirst], pops);
    OneStep(s, PopFirst);
    var a := After(s, PopFirst);
    StartsDraining(s);
    Drains(a, pops, s.queue, s.submitted);
    var b := Run(a, pops);
    OneStep(b, Optimize);
    assert b.batch == b.batch + b.queue[..0] && b.queue == b.queue[0..];
  }

  lemma StartsDraining(s: System)
    requires Sound(s) && Enabled(s, PopFirst)
    ensures Draining(After(s, PopFirst), s.queue, s.submitted) && After(s, PopFirst).executed == s.executed
  {
    var a := After(s, PopFirst);
    assert a.batch + a.queue[..a.phase.left] == s.queue;
    assert a.queue[a.phase.left..] == [] && s.submitted + [] == s.submitted;
  }

  lemma {:induction false} OneStep(s: System, e: Step)
    ensures Run(s, [e]) == After(s, e)
    ensures Possible(s, [e]) <==> Enabled(s, e)
  {
    assert [e][1..] == [];
    assert Run(After(s, e), []) == After(s, e);
  }
}
