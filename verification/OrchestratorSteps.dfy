/** What every step of the orchestrator does, and that its runs get to their end: each child is taken up
  * once and in order, and no run waits for what cannot come. */
module OrchestratorSteps {
  import opened Prelude
  import opened Orchestrator

  /** A worker takes the next child: an execution in memory is joined if it is of the same content and
    * refused if not; anything else is started. */
  predicate Takes(s: State, run: nat, worker: nat, t: State)
    requires run in s.runs && s.runs[run].next < |s.runs[run].todo|
  {
    var r := s.runs[run];
    var d := r.todo[r.next];
    && t.maxRetained == s.maxRetained
    && if d.key !in s.memory then
         && t.execs == s.execs + [Exec(d.key, run, worker, true, false)] && t.nextOrder == s.nextOrder + 1
         && t.memory == s.memory[d.key := Rec(d.fingerprint, |s.execs|, true, s.nextOrder + 1)]
         && t.runs == s.runs[run := RunState(r.todo, r.parallelism, r.next + 1, r.aborted, r.awaiting[worker := |s.execs|])]
       else if s.memory[d.key].fingerprint == d.fingerprint then
         var rec := s.memory[d.key];
         && t.execs == s.execs && t.nextOrder == s.nextOrder + 1
         && t.memory == s.memory[d.key := Rec(rec.fingerprint, rec.exec, rec.active, s.nextOrder + 1)]
         && t.runs == s.runs[run := RunState(r.todo, r.parallelism, r.next + 1, r.aborted, r.awaiting[worker := rec.exec])]
       else
         && t.execs == s.execs && t.nextOrder == s.nextOrder && t.memory == s.memory
         && t.runs == s.runs[run := RunState(r.todo, r.parallelism, r.next + 1, r.aborted, r.awaiting)]
  }

  /** Every step, in the words of the data. */
  ghost predicate Does(s: State, e: Event, t: State)
    requires Enabled(s, e)
  {
    match e
    case Begin(run, todo, parallelism) => t == s.(runs := s.runs[run := RunState(todo, parallelism, 0, false, map[])])
    case Pick(run, worker) => Takes(s, run, worker, t)
    case Resume(run, worker) =>
      run in t.runs && worker !in t.runs[run].awaiting && t.runs[run] == s.runs[run].(awaiting := s.runs[run].awaiting - {worker})
      && t == s.(runs := s.runs[run := t.runs[run]])
    case Abort(run) => run in t.runs && t.runs[run] == s.runs[run].(aborted := true) && t == s.(runs := s.runs[run := t.runs[run]])
    case Finish(exec) =>
      |t.execs| == |s.execs| && !t.execs[exec].running && t.execs[exec].settled && t == s.(execs := s.execs[exec := t.execs[exec]])
      && t.execs[exec] == s.execs[exec].(running := false, settled := true)
    case CancelExec(exec) =>
      |t.execs| == |s.execs| && t.execs[exec] == s.execs[exec].(settled := true) && t == s.(execs := s.execs[exec := t.execs[exec]])
    case Release(exec) =>
      var k := s.execs[exec].key;
      && t.execs == s.execs && t.runs == s.runs && t.maxRetained == s.maxRetained && t.nextOrder == s.nextOrder + 1
      && Retains(s.memory[k := Rec(s.memory[k].fingerprint, s.memory[k].exec, false, s.nextOrder + 1)], s.maxRetained, t.memory)
  }

  /** The settled records that were used last are kept, as many as allowed, and all active ones. */
  ghost predicate Retains(memory: map<Key, Rec>, max: nat, after: map<Key, Rec>) {
    && (forall k :: k in after ==> k in memory && after[k] == memory[k])
    && (forall k :: k in memory && memory[k].active ==> k in after)
    && var kept, settled := (set k | k in after && !after[k].active), (set k | k in memory && !memory[k].active);
       && |kept| == (if |settled| <= max then |settled| else max)
       && forall j, k :: j in settled && j !in after && k in kept ==> memory[j].order < after[k].order
  }

  lemma {:induction false} PrunedRetains(memory: map<Key, Rec>, max: nat)
    requires DistinctOrders(memory)
    ensures Retains(memory, max, Prune(memory, max))
  {
    PruneExact(memory, max);
    var after := Prune(memory, max);
    assert (set k | k in after && !after[k].active) == Settled(after);
    assert (set k | k in memory && !memory[k].active) == Settled(memory);
    hide Prune;
  }

  /** Every step of a reachable state does that. */
  lemma {:induction false} StepDoes(s: State, e: Event)
    requires Enabled(s, e) && Inv(s)
    ensures Does(s, e, Step(s, e))
  {
    if e.Release? {
      var memory := ReleasedMemory(s, e.exec);
      assert DistinctOrders(memory) by {
        forall k | k in s.memory ensures s.memory[k].order <= s.nextOrder { assert RecOk(s, k); }
      }
      PrunedRetains(memory, s.maxRetained);
      hide Prune, Retains, Inv;
    } else {
      hide Inv, Prune, Retains;
    }
  }

  // ---- in order, each once ----

  function Picks(es: seq<Event>, run: nat): nat {
    if es == [] then 0 else (if es[0].Pick? && es[0].run == run then 1 else 0) + Picks(es[1..], run)
  }

  /** A run takes its children one by one from the front: after n picks exactly the first n are taken. */
  lemma {:induction false} TakenInOrder(s: State, es: seq<Event>, run: nat)
    requires IsRun(s, es) && run in s.runs
    ensures var t := Run(s, es);
      run in t.runs && t.runs[run].todo == s.runs[run].todo && t.runs[run].parallelism == s.runs[run].parallelism
      && t.runs[run].next == s.runs[run].next + Picks(es, run)
    decreases |es|
  {
    if es != [] {
      OneTaken(s, es[0], run);
      hide Step, Enabled;
      TakenInOrder(Step(s, es[0]), es[1..], run);
    }
  }

  lemma {:induction false} OneTaken(s: State, e: Event, run: nat)
    requires Enabled(s, e) && run in s.runs
    ensures var t := Step(s, e);
      run in t.runs && t.runs[run].todo == s.runs[run].todo && t.runs[run].parallelism == s.runs[run].parallelism
      && t.runs[run].next == s.runs[run].next + (if e.Pick? && e.run == run then 1 else 0)
  {
    hide Prune;
  }

  // ---- to the end ----

  /** All children are taken and nobody waits. */
  predicate Complete(r: RunState) { r.next == |r.todo| && r.awaiting == map[] }

  /** A run that nobody has aborted; its workers wait for executions that exist. */
  ghost predicate Underway(s: State, run: nat) {
    && Inv(s) && run in s.runs && !s.runs[run].aborted && s.runs[run].next <= |s.runs[run].todo|
    && forall w :: w in s.runs[run].awaiting ==> s.runs[run].awaiting[w] < |s.execs|
  }

  /** Children to take count twice, waiting workers once. */
  function Left(r: RunState): int { 2 * (|r.todo| - r.next) + |r.awaiting| }

  lemma {:induction false} FewerAwaiting(awaiting: map<nat, nat>, w: nat)
    requires w in awaiting
    ensures |awaiting - {w}| == |awaiting| - 1
  {
    assert (awaiting - {w}).Keys == awaiting.Keys - {w};
  }

  lemma {:induction false} MoreAwaiting(awaiting: map<nat, nat>, w: nat, id: nat)
    requires w !in awaiting
    ensures |awaiting[w := id]| == |awaiting| + 1
  {
    assert awaiting[w := id].Keys == awaiting.Keys + {w};
  }

  lemma {:induction false} ResumesOne(s: State, run: nat, w: nat)
    requires Underway(s, run) && w in s.runs[run].awaiting && s.execs[s.runs[run].awaiting[w]].settled
    ensures Enabled(s, Resume(run, w))
    ensures var t := Step(s, Resume(run, w)); Underway(t, run) && Left(t.runs[run]) < Left(s.runs[run]) && t.runs[run].todo == s.runs[run].todo
  {
    InvKept(s, Resume(run, w));
    FewerAwaiting(s.runs[run].awaiting, w);
    hide Inv;
  }

  lemma {:induction false} FinishesOne(s: State, run: nat, w: nat)
    requires Underway(s, run) && w in s.runs[run].awaiting && !s.execs[s.runs[run].awaiting[w]].settled
    ensures var id := s.runs[run].awaiting[w];
      && Enabled(s, Finish(id))
      && var t := Step(s, Finish(id)); Underway(t, run) && t.runs == s.runs && t.execs[id].settled
  {
    var id := s.runs[run].awaiting[w];
    assert ExecOk(s, id);
    InvKept(s, Finish(id));
    hide Inv, ExecOk;
  }

  lemma {:induction false} TakesOne(s: State, run: nat)
    requires Underway(s, run) && s.runs[run].awaiting == map[] && s.runs[run].next < |s.runs[run].todo|
    ensures Enabled(s, Pick(run, 0))
    ensures var t := Step(s, Pick(run, 0)); Underway(t, run) && Left(t.runs[run]) < Left(s.runs[run]) && t.runs[run].todo == s.runs[run].todo
  {
    InvKept(s, Pick(run, 0));
    StepDoes(s, Pick(run, 0));
    var r := s.runs[run];
    MoreAwaiting(r.awaiting, 0, |s.execs|);
    var k := r.todo[r.next].key;
    if k in s.memory {
      assert RecOk(s, k);
      MoreAwaiting(r.awaiting, 0, s.memory[k].exec);
    }
    hide Inv, Step, RecOk;
  }

  predicate WaitsWell(r: RunState, execs: nat) {
    r.next <= |r.todo| && forall w :: w in r.awaiting ==> r.awaiting[w] < execs
  }

  predicate AllWaitWell(s: State) { forall run :: run in s.runs ==> WaitsWell(s.runs[run], |s.execs|) }

  lemma {:induction false} WaitsKept(s: State, e: Event)
    requires Inv(s) && AllWaitWell(s) && Enabled(s, e)
    ensures AllWaitWell(Step(s, e))
  {
    StepDoes(s, e);
    if e.Pick? {
      var k := s.runs[e.run].todo[s.runs[e.run].next].key;
      if k in s.memory { assert RecOk(s, k); }
    }
    hide Step, Inv, RecOk, Retains;
  }

  lemma {:induction false} WaitAlways(s: State, es: seq<Event>)
    requires Inv(s) && AllWaitWell(s) && IsRun(s, es)
    ensures Inv(Run(s, es)) && AllWaitWell(Run(s, es))
    decreases |es|
  {
    if es != [] {
      WaitsKept(s, es[0]);
      InvKept(s, es[0]);
      hide Step, Enabled, Inv, AllWaitWell;
      WaitAlways(Step(s, es[0]), es[1..]);
    }
  }

  lemma {:induction false} RunCompletes(s: State, run: nat) returns (es: seq<Event>)
    requires Underway(s, run)
    ensures IsRun(s, es) && run in Run(s, es).runs && Run(s, es).runs[run].todo == s.runs[run].todo && Complete(Run(s, es).runs[run])
    decreases Left(s.runs[run]), 0
  {
    var r := s.runs[run];
    if Complete(r) {
      es := [];
    } else if r.awaiting == map[] {
      TakesOne(s, run);
      es := Then(s, Pick(run, 0), run, r.todo);
    } else {
      var w :| w in r.awaiting;
      if s.execs[r.awaiting[w]].settled {
        ResumesOne(s, run, w);
        es := Then(s, Resume(run, w), run, r.todo);
      } else {
        var e := Finish(r.awaiting[w]);
        FinishesOne(s, run, w);
        var t := Step(s, e);
        ResumesOne(t, run, w);
        var rest := Then(t, Resume(run, w), run, r.todo);
        es := [e] + rest;
        assert es[1..] == rest;
        hide Step, Underway, Complete;
      }
    }
  }

  lemma {:induction false} Then(s: State, e: Event, run: nat, todo: seq<Descriptor>) returns (es: seq<Event>)
    requires Enabled(s, e) && Underway(Step(s, e), run) && Step(s, e).runs[run].todo == todo
    ensures IsRun(s, es) && run in Run(s, es).runs && Run(s, es).runs[run].todo == todo && Complete(Run(s, es).runs[run])
    decreases Left(Step(s, e).runs[run]), 1
  {
    var rest := RunCompletes(Step(s, e), run);
    es := [e] + rest;
    assert es[1..] == rest;
    hide Step, Underway, Complete;
  }

  /** In whatever reachable state the others leave it, a run that is not aborted can be brought to its end:
    * there is no waiting in a circle, and no child that stays untaken. */
  lemma {:induction false} EveryRunCompletes(maxRetained: nat, before: seq<Event>, run: nat) returns (es: seq<Event>)
    requires IsRun(Init(maxRetained), before)
    requires var s := Run(Init(maxRetained), before); run in s.runs && !s.runs[run].aborted
    ensures var s := Run(Init(maxRetained), before);
      IsRun(s, es) && run in Run(s, es).runs && Run(s, es).runs[run].todo == s.runs[run].todo && Complete(Run(s, es).runs[run])
  {
    WaitAlways(Init(maxRetained), before);
    es := RunCompletes(Run(Init(maxRetained), before), run);
    hide Run, Inv;
  }
}
