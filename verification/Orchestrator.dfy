/** The bounded-parallel orchestrator: runs that share one memory of executions. Every run
  * has a few workers that take its children in order; a child with an execution in memory
  * joins it instead of starting another. */
module Orchestrator {
  import opened Prelude

  /** Scope, parent and child key; the source hashes them, taken to be injective. */
  datatype Key = Key(scope: string, parentTaskId: string, childKey: string)

  datatype Descriptor = Descriptor(key: Key, fingerprint: string)

  /** running: the child's own work; settled: its promise. An abort settles before the work ends. */
  datatype Exec = Exec(key: Key, run: nat, worker: nat, running: bool, settled: bool)

  datatype Rec = Rec(fingerprint: string, exec: nat, active: bool, order: nat)

  datatype RunState = RunState(
    todo: seq<Descriptor>, parallelism: nat, next: nat, aborted: bool, awaiting: map<nat, nat>)

  datatype State = State(
    memory: map<Key, Rec>, nextOrder: nat, maxRetained: nat, execs: seq<Exec>, runs: map<nat, RunState>)

  datatype Event =
    | Begin(run: nat, todo: seq<Descriptor>, parallelism: nat)
    | Pick(run: nat, worker: nat)     // an idle worker takes the next child
    | Resume(run: nat, worker: nat)   // the promise it awaits is settled
    | Abort(run: nat)                 // parent abort or deadline
    | Finish(exec: nat)               // the child's work ends
    | CancelExec(exec: nat)           // its promise is settled by the abort
    | Release(exec: nat)              // the settled record becomes prunable

  function Init(maxRetained: nat): State { State(map[], 0, maxRetained, [], map[]) }

  function Workers(r: RunState): nat {
    var wanted := if |r.todo| == 0 then 1 else |r.todo|;
    if r.parallelism < wanted then r.parallelism else wanted
  }

  predicate Enabled(s: State, e: Event) {
    match e
    case Begin(run, todo, parallelism) => run !in s.runs && parallelism >= 1
    case Pick(run, worker) =>
      && run in s.runs && worker < Workers(s.runs[run]) && worker !in s.runs[run].awaiting
      && !s.runs[run].aborted && s.runs[run].next < |s.runs[run].todo|
    case Resume(run, worker) =>
      && run in s.runs && worker in s.runs[run].awaiting
      && s.runs[run].awaiting[worker] < |s.execs| && s.execs[s.runs[run].awaiting[worker]].settled
    case Abort(run) => run in s.runs
    case Finish(exec) => exec < |s.execs| && s.execs[exec].running
    case CancelExec(exec) =>
      exec < |s.execs| && !s.execs[exec].settled && s.execs[exec].run in s.runs && s.runs[s.execs[exec].run].aborted
    case Release(exec) =>
      && exec < |s.execs| && s.execs[exec].settled && s.execs[exec].key in s.memory
      && s.memory[s.execs[exec].key].exec == exec && s.memory[s.execs[exec].key].active
  }

  // ---- retention ----

  function Settled(memory: map<Key, Rec>): set<Key> { set k | k in memory && !memory[k].active }

  predicate Oldest(memory: map<Key, Rec>, k: Key) {
    k in memory && !memory[k].active && forall j :: j in memory && !memory[j].active ==> memory[k].order <= memory[j].order
  }

  /** The records left when the oldest settled ones beyond the bound are dropped. */
  ghost predicate Pruned(memory: map<Key, Rec>, max: nat, after: map<Key, Rec>) {
    && after.Keys <= memory.Keys
    && (forall k :: k in after ==> after[k] == memory[k])
    && (forall k :: k in memory && memory[k].active ==> k in after)
    && |Settled(after)| == (if |Settled(memory)| <= max then |Settled(memory)| else max)
    && (forall j, k :: j in memory && j !in after && k in after && !after[k].active ==> memory[j].order <= after[k].order)
  }

  function Prune(memory: map<Key, Rec>, max: nat): map<Key, Rec>
    decreases |Settled(memory)|
  {
    if |Settled(memory)| <= max then memory
    else
      OldestExists(memory);
      assert exists k :: Oldest(memory, k);
      var ks := set k | k in memory && Oldest(memory, k);
      FewerSettled(memory, ks);
      Prune(memory - ks, max)
  }

  lemma {:induction false} OldestExists(memory: map<Key, Rec>)
    requires Settled(memory) != {}
    ensures exists k :: Oldest(memory, k)
  {
    var k :| k in Settled(memory);
    OldestFrom(memory, k, Settled(memory) - {k});
  }

  lemma {:induction false} OldestFrom(memory: map<Key, Rec>, k: Key, left: set<Key>)
    requires k in Settled(memory) && left <= Settled(memory)
    requires forall j :: j in Settled(memory) && j !in left ==> memory[k].order <= memory[j].order
    ensures exists o :: Oldest(memory, o)
    decreases left
  {
    if left == {} {
      assert Oldest(memory, k);
    } else {
      var j :| j in left;
      OldestFrom(memory, if memory[j].order < memory[k].order then j else k, left - {j});
    }
  }

  lemma {:induction false} FewerSettled(memory: map<Key, Rec>, ks: set<Key>)
    requires ks == (set k | k in memory && Oldest(memory, k)) && exists k :: Oldest(memory, k)
    ensures |Settled(memory - ks)| < |Settled(memory)|
  {
    var k :| Oldest(memory, k);
    assert Settled(memory - ks) <= Settled(memory) - {k};
    SmallerSet(Settled(memory - ks), Settled(memory) - {k});
  }

  lemma {:induction false} SmallerSet(a: set<Key>, b: set<Key>)
    requires a <= b
    ensures |a| <= |b|
    decreases b
  {
    if a != {} {
      var x :| x in a;
      SmallerSet(a - {x}, b - {x});
    }
  }

  // ---- steps ----

  function Touched(s: State, k: Key): map<Key, Rec>
    requires k in s.memory
  {
    s.memory[k := s.memory[k].(order := s.nextOrder + 1)]
  }

  /** The worker awaits the execution in memory, which becomes the most recently used. */
  function Joined(s: State, run: nat, worker: nat, k: Key): State
    requires run in s.runs && k in s.memory
  {
    var r := s.runs[run];
    s.(memory := Touched(s, k), nextOrder := s.nextOrder + 1,
       runs := s.runs[run := r.(next := r.next + 1, awaiting := r.awaiting[worker := s.memory[k].exec])])
  }

  function PickStep(s: State, run: nat, worker: nat): State
    requires Enabled(s, Pick(run, worker))
  {
    var r := s.runs[run];
    var d := r.todo[r.next];
    if d.key in s.memory then
      var rec := s.memory[d.key];
      if rec.fingerprint != d.fingerprint then s.(runs := s.runs[run := r.(next := r.next + 1)])
      else Joined(s, run, worker, d.key)
    else
      var id := |s.execs|;
      s.(memory := s.memory[d.key := Rec(d.fingerprint, id, true, s.nextOrder + 1)], nextOrder := s.nextOrder + 1,
         execs := s.execs + [Exec(d.key, run, worker, true, false)],
         runs := s.runs[run := r.(next := r.next + 1, awaiting := r.awaiting[worker := id])])
  }

  /** The settled record becomes prunable, and the most recently used. */
  function ReleasedMemory(s: State, exec: nat): map<Key, Rec>
    requires Enabled(s, Release(exec))
  {
    var k := s.execs[exec].key;
    s.memory[k := s.memory[k].(active := false, order := s.nextOrder + 1)]
  }

  function ReleaseStep(s: State, exec: nat): State
    requires Enabled(s, Release(exec))
  {
    s.(memory := Prune(ReleasedMemory(s, exec), s.maxRetained), nextOrder := s.nextOrder + 1)
  }

  function Step(s: State, e: Event): State
    requires Enabled(s, e)
  {
    match e
    case Begin(run, todo, parallelism) => s.(runs := s.runs[run := RunState(todo, parallelism, 0, false, map[])])
    case Pick(run, worker) => PickStep(s, run, worker)
    case Resume(run, worker) => s.(runs := s.runs[run := s.runs[run].(awaiting := s.runs[run].awaiting - {worker})])
    case Abort(run) => s.(runs := s.runs[run := s.runs[run].(aborted := true)])
    case Finish(exec) => s.(execs := s.execs[exec := s.execs[exec].(running := false, settled := true)])
    case CancelExec(exec) => s.(execs := s.execs[exec := s.execs[exec].(settled := true)])
    case Release(exec) => ReleaseStep(s, exec)
  }

  predicate IsRun(s: State, es: seq<Event>)
    decreases |es|
  {
    es == [] || (Enabled(s, es[0]) && IsRun(Step(s, es[0]), es[1..]))
  }

  function Run(s: State, es: seq<Event>): State
    requires IsRun(s, es)
    decreases |es|
  {
    if es == [] then s else Run(Step(s, es[0]), es[1..])
  }

  // ---- the invariant ----

  /** An execution whose promise is open is the one in memory, and active. */
  predicate ExecOk(s: State, id: nat)
    requires id < |s.execs|
  {
    var e := s.execs[id];
    && e.run in s.runs && e.worker < Workers(s.runs[e.run])
    && (!e.settled ==> e.running && e.key in s.memory && s.memory[e.key].exec == id && s.memory[e.key].active)
    && (e.running ==> AwaitedOrAborted(s.runs[e.run], e.worker, id, e.settled))
  }

  /** Running work is awaited by the worker that started it, or its run is over. */
  predicate AwaitedOrAborted(r: RunState, worker: nat, id: nat, settled: bool) {
    && ((worker in r.awaiting && r.awaiting[worker] == id) || (settled && r.aborted))
    && (settled ==> r.aborted)
  }

  predicate RecOk(s: State, k: Key)
    requires k in s.memory
  {
    && s.memory[k].exec < |s.execs| && s.execs[s.memory[k].exec].key == k
    && (!s.memory[k].active ==> s.execs[s.memory[k].exec].settled)
    && s.memory[k].order <= s.nextOrder
  }

  predicate SameWorker(e: Exec, f: Exec) { e.running && f.running && e.run == f.run && e.worker == f.worker }

  predicate AllExecs(s: State) { forall id :: 0 <= id < |s.execs| ==> ExecOk(s, id) }
  predicate AllRecs(s: State) { forall k :: k in s.memory ==> RecOk(s, k) }
  predicate OnePerWorker(execs: seq<Exec>) { forall i, j :: 0 <= i < j < |execs| ==> !SameWorker(execs[i], execs[j]) }

  ghost predicate Inv(s: State) {
    && AllExecs(s) && AllRecs(s) && OnePerWorker(s.execs)
    && (forall run :: run in s.runs ==> s.runs[run].parallelism >= 1)
    && DistinctOrders(s.memory)
    && |Settled(s.memory)| <= s.maxRetained
  }

  predicate DistinctOrders(memory: map<Key, Rec>) {
    forall j, k :: j in memory && k in memory && j != k ==> memory[j].order != memory[k].order
  }

  // ---- pruning drops exactly the oldest settled records ----

  lemma {:induction false} OneOldest(memory: map<Key, Rec>, k: Key)
    requires DistinctOrders(memory) && Oldest(memory, k)
    ensures (set j | j in memory && Oldest(memory, j)) == {k}
  {}

  lemma {:induction false} WithoutOldest(memory: map<Key, Rec>, k: Key)
    requires Oldest(memory, k)
    ensures |Settled(memory - {k})| == |Settled(memory)| - 1
  {
    assert Settled(memory) == Settled(memory - {k}) + {k};
  }

  lemma {:induction false} PruneExact(memory: map<Key, Rec>, max: nat)
    requires DistinctOrders(memory)
    ensures Pruned(memory, max, Prune(memory, max))
    decreases |Settled(memory)|
  {
    if |Settled(memory)| > max {
      OldestExists(memory);
      var k :| Oldest(memory, k);
      OneOldest(memory, k);
      WithoutOldest(memory, k);
      PruneExact(memory - {k}, max);
    }
  }

  // ---- every step keeps the invariant ----

  /** The open executions of s keep their records. */
  predicate MemoryKeeps(s: State, m: map<Key, Rec>) {
    forall id :: 0 <= id < |s.execs| && !s.execs[id].settled ==>
      s.execs[id].key in m && m[s.execs[id].key].exec == id && m[s.execs[id].key].active
  }

  /** No worker of s is taken off what it awaits, and no run forgets its abort. */
  predicate RunKeeps(r: RunState, q: RunState) {
    && Workers(q) == Workers(r) && (r.aborted ==> q.aborted)
    && forall w :: w in r.awaiting ==> w in q.awaiting && q.awaiting[w] == r.awaiting[w]
  }

  predicate RunsKeep(s: State, runs: map<nat, RunState>) {
    forall run :: run in s.runs ==> run in runs && RunKeeps(s.runs[run], runs[run])
  }

  lemma {:induction false} ExecsStay(s: State, t: State)
    requires AllExecs(s) && t.execs == s.execs && MemoryKeeps(s, t.memory) && RunsKeep(s, t.runs)
    ensures AllExecs(t)
  {
    forall id | 0 <= id < |t.execs| ensures ExecOk(t, id) {
      assert ExecOk(s, id) && RunKeeps(s.runs[s.execs[id].run], t.runs[s.execs[id].run]);
    }
  }

  lemma {:induction false} RecsStay(s: State, t: State)
    requires AllRecs(s) && t.execs == s.execs && s.nextOrder <= t.nextOrder
    requires forall k :: k in t.memory ==> k in s.memory && RecStays(s, s.memory[k], t.memory[k], t.nextOrder)
    ensures AllRecs(t)
  {
    forall k | k in t.memory ensures RecOk(t, k) { assert RecOk(s, k); }
  }

  predicate RecStays(s: State, before: Rec, after: Rec, nextOrder: nat) {
    && after.exec == before.exec && before.exec < |s.execs|
    && (!after.active ==> s.execs[before.exec].settled) && after.order <= nextOrder
  }

  lemma {:induction false} OrdersBelow(s: State)
    requires AllRecs(s)
    ensures forall k :: k in s.memory ==> s.memory[k].order <= s.nextOrder
  {
    forall k | k in s.memory ensures s.memory[k].order <= s.nextOrder { assert RecOk(s, k); }
  }

  lemma {:induction false} OpenKept(s: State)
    requires AllExecs(s)
    ensures MemoryKeeps(s, s.memory)
  {
    forall id | 0 <= id < |s.execs| && !s.execs[id].settled
      ensures s.execs[id].key in s.memory && s.memory[s.execs[id].key].exec == id && s.memory[s.execs[id].key].active
    {
      assert ExecOk(s, id);
    }
  }

  lemma {:induction false} TouchKeeps(s: State, k: Key)
    requires AllRecs(s) && MemoryKeeps(s, s.memory) && k in s.memory
    ensures MemoryKeeps(s, Touched(s, k))
    ensures forall j :: j in Touched(s, k) ==> j in s.memory && RecStays(s, s.memory[j], Touched(s, k)[j], s.nextOrder + 1)
  {
    forall j | j in s.memory ensures RecStays(s, s.memory[j], Touched(s, k)[j], s.nextOrder + 1) { RecAt(s, j); }
  }

  lemma {:induction false} JoinKeepsRuns(s: State, run: nat, worker: nat, k: Key)
    requires run in s.runs && k in s.memory && worker !in s.runs[run].awaiting
    requires forall r :: r in s.runs ==> s.runs[r].parallelism >= 1
    ensures RunsKeep(s, Joined(s, run, worker, k).runs)
    ensures forall r :: r in Joined(s, run, worker, k).runs ==> Joined(s, run, worker, k).runs[r].parallelism >= 1
  {
    SameRuns(s);
  }

  /** A request with another fingerprint fails by itself and touches nothing but the run. */
  lemma {:induction false} SkipOk(s: State, run: nat)
    requires Inv(s) && run in s.runs
    ensures Inv(s.(runs := s.runs[run := s.runs[run].(next := s.runs[run].next + 1)]))
  {
    var t := s.(runs := s.runs[run := s.runs[run].(next := s.runs[run].next + 1)]);
    OpenKept(s);
    SameRuns(s);
    assert RunsKeep(s, t.runs);
    forall j | j in s.memory ensures RecStays(s, s.memory[j], s.memory[j], s.nextOrder) { RecAt(s, j); }
    hide AllExecs, AllRecs, OnePerWorker, DistinctOrders, MemoryKeeps, RunsKeep, Settled, RecStays;
    MemoryOk(s, t);
  }

  lemma {:induction false} JoinOk(s: State, run: nat, worker: nat, k: Key)
    requires Inv(s) && run in s.runs && k in s.memory && worker !in s.runs[run].awaiting
    ensures Inv(Joined(s, run, worker, k))
  {
    var t := Joined(s, run, worker, k);
    OrdersBelow(s);
    OpenKept(s);
    TouchOk(s, k);
    TouchKeeps(s, k);
    JoinKeepsRuns(s, run, worker, k);
    hide AllExecs, AllRecs, OnePerWorker, DistinctOrders, MemoryKeeps, RunsKeep, Settled, RecStays, Touched;
    MemoryOk(s, t);
  }

  lemma {:induction false} RecAt(s: State, k: Key)
    requires AllRecs(s) && k in s.memory
    ensures RecOk(s, k)
  {}

  lemma {:induction false} TouchOk(s: State, k: Key)
    requires DistinctOrders(s.memory) && k in s.memory && forall j :: j in s.memory ==> s.memory[j].order <= s.nextOrder
    ensures DistinctOrders(Touched(s, k)) && Settled(Touched(s, k)) == Settled(s.memory)
  {}

  lemma {:induction false} NewExecOk(s: State, run: nat, worker: nat)
    requires Inv(s) && Enabled(s, Pick(run, worker)) && s.runs[run].todo[s.runs[run].next].key !in s.memory
    ensures Inv(Step(s, Pick(run, worker)))
  {
    var t := Step(s, Pick(run, worker));
    var id := |s.execs|;
    OrdersBelow(s);
    NewExecExecs(s, t, run, worker);
    NewExecDistinct(s, t.execs, run, worker);
    hide AllExecs, OnePerWorker;
    forall k | k in t.memory ensures RecOk(t, k) { if k in s.memory { RecAt(s, k); } }
    assert Settled(t.memory) == Settled(s.memory);
  }

  lemma {:induction false} NewExecExecs(s: State, t: State, run: nat, worker: nat)
    requires Inv(s) && Enabled(s, Pick(run, worker)) && s.runs[run].todo[s.runs[run].next].key !in s.memory
    requires t == Step(s, Pick(run, worker))
    ensures AllExecs(t)
  {
    var id := |s.execs|;
    assert RunKeeps(s.runs[run], t.runs[run]);
    forall i | 0 <= i < |t.execs| ensures ExecOk(t, i) {
      if i < id { assert ExecOk(s, i); }
    }
  }

  /** An idle worker of a run that is not aborted has no child at work. */
  lemma {:induction false} NewExecDistinct(s: State, execs: seq<Exec>, run: nat, worker: nat)
    requires AllExecs(s) && OnePerWorker(s.execs) && Enabled(s, Pick(run, worker))
    requires |execs| == |s.execs| + 1 && execs[..|s.execs|] == s.execs
    requires execs[|s.execs|].run == run && execs[|s.execs|].worker == worker
    ensures OnePerWorker(execs)
  {
    var id := |s.execs|;
    forall i, j | 0 <= i < j < |execs| ensures !SameWorker(execs[i], execs[j]) {
      assert execs[i] == s.execs[i];
      if j < id { assert execs[j] == s.execs[j] && !SameWorker(s.execs[i], s.execs[j]); } else { assert ExecOk(s, i); }
    }
  }

  lemma {:induction false} RunsOk(s: State, e: Event)
    requires Inv(s) && Enabled(s, e) && (e.Begin? || e.Resume? || e.Abort?)
    ensures Inv(Step(s, e))
  {
    var t := Step(s, e);
    forall id | 0 <= id < |t.execs| ensures ExecOk(t, id) {
      assert ExecOk(s, id);
    }
    hide AllExecs;
    forall k | k in t.memory ensures RecOk(t, k) { RecAt(s, k); }
  }

  lemma {:induction false} ExecsOk(s: State, e: Event)
    requires Inv(s) && Enabled(s, e) && (e.Finish? || e.CancelExec?)
    ensures Inv(Step(s, e))
  {
    var t := Step(s, e);
    forall id | 0 <= id < |t.execs| ensures ExecOk(t, id) { assert ExecOk(s, id); }
    forall i, j | 0 <= i < j < |t.execs| ensures !SameWorker(t.execs[i], t.execs[j]) {
      assert !SameWorker(s.execs[i], s.execs[j]);
    }
    hide AllExecs, OnePerWorker;
    forall k | k in t.memory ensures RecOk(t, k) { RecAt(s, k); }
  }

  lemma {:induction false} ReleaseMemory(s: State, exec: nat)
    requires Inv(s) && Enabled(s, Release(exec))
    ensures var m, after := ReleasedMemory(s, exec), Prune(ReleasedMemory(s, exec), s.maxRetained);
      && Pruned(m, s.maxRetained, after) && DistinctOrders(after) && |Settled(after)| <= s.maxRetained
  {
    OrdersBelow(s);
    var m := ReleasedMemory(s, exec);
    assert DistinctOrders(m);
    PruneExact(m, s.maxRetained);
    SubOrders(m, Prune(m, s.maxRetained));
  }

  lemma {:induction false} ReleaseRecs(s: State, exec: nat, after: map<Key, Rec>)
    requires AllRecs(s) && Enabled(s, Release(exec)) && Pruned(ReleasedMemory(s, exec), s.maxRetained, after)
    ensures forall j :: j in after ==> j in s.memory && RecStays(s, s.memory[j], after[j], s.nextOrder + 1)
  {
    forall j | j in after ensures j in s.memory && RecStays(s, s.memory[j], after[j], s.nextOrder + 1) {
      assert j in ReleasedMemory(s, exec) && after[j] == ReleasedMemory(s, exec)[j];
      RecAt(s, j);
    }
  }

  /** A state that differs, as far as the invariant can see, in its memory alone. */
  lemma {:induction false} MemoryOk(s: State, t: State)
    requires Inv(s) && t.execs == s.execs && t.maxRetained == s.maxRetained && s.nextOrder <= t.nextOrder
    requires RunsKeep(s, t.runs) && forall r :: r in t.runs ==> t.runs[r].parallelism >= 1
    requires MemoryKeeps(s, t.memory) && DistinctOrders(t.memory) && |Settled(t.memory)| <= s.maxRetained
    requires forall j :: j in t.memory ==> j in s.memory && RecStays(s, s.memory[j], t.memory[j], t.nextOrder)
    ensures Inv(t)
  {
    hide AllExecs, AllRecs, OnePerWorker, DistinctOrders, MemoryKeeps, RunsKeep, Settled, RecStays;
    ExecsStay(s, t);
    RecsStay(s, t);
  }

  lemma {:induction false} ReleaseOk(s: State, exec: nat)
    requires Inv(s) && Enabled(s, Release(exec))
    ensures Inv(ReleaseStep(s, exec))
  {
    var t := ReleaseStep(s, exec);
    ReleaseMemory(s, exec);
    OpenKept(s);
    SameRuns(s);
    hide RunsKeep, ReleasedMemory, Prune, AllExecs, AllRecs, OnePerWorker, DistinctOrders, MemoryKeeps, Settled, RecStays, Enabled;
    ReleaseKeeps(s, exec, t.memory);
    ReleaseRecs(s, exec, t.memory);
    ReleaseBounded(s, exec, t.memory);
    hide Pruned;
    MemoryOk(s, t);
  }

  lemma {:induction false} ReleaseBounded(s: State, exec: nat, after: map<Key, Rec>)
    requires Enabled(s, Release(exec)) && Pruned(ReleasedMemory(s, exec), s.maxRetained, after)
    ensures |Settled(after)| <= s.maxRetained
  {}

  lemma {:induction false} SameRuns(s: State)
    ensures RunsKeep(s, s.runs)
  {
    forall r | r in s.runs ensures RunKeeps(s.runs[r], s.runs[r]) {}
  }

  lemma {:induction false} SubOrders(m: map<Key, Rec>, n: map<Key, Rec>)
    requires DistinctOrders(m) && n.Keys <= m.Keys && forall k :: k in n ==> n[k] == m[k]
    ensures DistinctOrders(n)
  {}

  lemma {:induction false} ReleaseKeeps(s: State, exec: nat, after: map<Key, Rec>)
    requires Enabled(s, Release(exec)) && MemoryKeeps(s, s.memory) && Pruned(ReleasedMemory(s, exec), s.maxRetained, after)
    ensures MemoryKeeps(s, after)
  {
    forall id | 0 <= id < |s.execs| && !s.execs[id].settled
      ensures s.execs[id].key in after && after[s.execs[id].key].exec == id && after[s.execs[id].key].active
    {
      assert s.memory[s.execs[id].key].exec == id;
      assert ReleasedMemory(s, exec)[s.execs[id].key] == s.memory[s.execs[id].key];
    }
  }

  lemma {:induction false} PickOk(s: State, run: nat, worker: nat)
    requires Inv(s) && Enabled(s, Pick(run, worker))
    ensures Inv(Step(s, Pick(run, worker)))
  {
    hide Inv, Joined;
    var d := s.runs[run].todo[s.runs[run].next];
    if d.key !in s.memory { NewExecOk(s, run, worker); }
    else if s.memory[d.key].fingerprint == d.fingerprint { JoinOk(s, run, worker, d.key); }
    else { SkipOk(s, run); }
  }

  lemma {:induction false} InvKept(s: State, e: Event)
    requires Inv(s) && Enabled(s, e)
    ensures Inv(Step(s, e))
  {
    match e
    case Pick(run, worker) => PickOk(s, run, worker);
    case Finish(_) => ExecsOk(s, e);
    case CancelExec(_) => ExecsOk(s, e);
    case Release(exec) => ReleaseOk(s, exec);
    case _ => RunsOk(s, e);
  }

  lemma {:induction false} InvAlways(s: State, es: seq<Event>)
    requires Inv(s) && IsRun(s, es)
    ensures Inv(Run(s, es))
    decreases |es|
  {
    if es != [] {
      InvKept(s, es[0]);
      InvAlways(Step(s, es[0]), es[1..]);
    }
  }

  // ---- what it means ----

  /** The children of a run at work. */
  function Running(execs: seq<Exec>, run: nat): set<nat> {
    set id | 0 <= id < |execs| && execs[id].running && execs[id].run == run
  }

  lemma {:induction false} DistinctWorkers(execs: seq<Exec>, run: nat, ids: set<nat>, bound: nat)
    requires ids <= Running(execs, run)
    requires forall i, j :: 0 <= i < j < |execs| ==> !SameWorker(execs[i], execs[j])
    requires forall id :: id in ids ==> execs[id].worker < bound
    ensures |ids| <= bound
    decreases bound
  {
    if bound > 0 {
      if id :| id in ids && execs[id].worker == bound - 1 {
        forall other | other in ids - {id} ensures execs[other].worker < bound - 1 {
          if other < id { assert !SameWorker(execs[other], execs[id]); } else { assert !SameWorker(execs[id], execs[other]); }
        }
        DistinctWorkers(execs, run, ids - {id}, bound - 1);
      } else {
        DistinctWorkers(execs, run, ids, bound - 1);
      }
    } else {
      assert ids == {};
    }
  }

  /** In every reachable state, aborted or not, a run has at most its parallelism of children
    * at work, even those whose results it no longer waits for. */
  lemma {:induction false} ParallelismRespected(es: seq<Event>, maxRetained: nat, run: nat)
    requires IsRun(Init(maxRetained), es) && run in Run(Init(maxRetained), es).runs
    ensures var s := Run(Init(maxRetained), es);
      |Running(s.execs, run)| <= Workers(s.runs[run]) <= s.runs[run].parallelism
  {
    InvAlways(Init(maxRetained), es);
    var s := Run(Init(maxRetained), es);
    forall id | id in Running(s.execs, run) ensures s.execs[id].worker < Workers(s.runs[run]) { assert ExecOk(s, id); }
    DistinctWorkers(s.execs, run, Running(s.execs, run), Workers(s.runs[run]));
  }

  /** Single flight: at most one open execution per key. */
  lemma {:induction false} SingleFlight(es: seq<Event>, maxRetained: nat, i: nat, j: nat)
    requires IsRun(Init(maxRetained), es)
    requires var s := Run(Init(maxRetained), es); i < j < |s.execs| && s.execs[i].key == s.execs[j].key
    ensures var s := Run(Init(maxRetained), es); s.execs[i].settled || s.execs[j].settled
  {
    InvAlways(Init(maxRetained), es);
    var s := Run(Init(maxRetained), es);
    assert ExecOk(s, i) && ExecOk(s, j);
  }

  /** Two pieces of work for one key overlap only if one belongs to an aborted run. */
  lemma {:induction false} OverlapNeedsAbort(es: seq<Event>, maxRetained: nat, i: nat, j: nat)
    requires IsRun(Init(maxRetained), es)
    requires var s := Run(Init(maxRetained), es);
      i < j < |s.execs| && s.execs[i].key == s.execs[j].key && s.execs[i].running && s.execs[j].running
    ensures var s := Run(Init(maxRetained), es);
      && s.execs[i].run in s.runs && s.execs[j].run in s.runs
      && (s.runs[s.execs[i].run].aborted || s.runs[s.execs[j].run].aborted)
  {
    SingleFlight(es, maxRetained, i, j);
    InvAlways(Init(maxRetained), es);
    var s := Run(Init(maxRetained), es);
    assert ExecOk(s, i) && ExecOk(s, j);
  }

  // ---- starts, over whole runs ----

  /** The event starts execution id. */
  predicate Starts(s: State, e: Event, id: nat) {
    Enabled(s, e) && e.Pick? && id == |s.execs| && id < |Step(s, e).execs|
  }

  /** A start is a pick, in a run not aborted, of a key with no record. */
  lemma {:induction false} StartsExactly(s: State, e: Event)
    requires Enabled(s, e)
    ensures |Step(s, e).execs| != |s.execs| <==>
      e.Pick? && !s.runs[e.run].aborted && s.runs[e.run].todo[s.runs[e.run].next].key !in s.memory
    ensures |s.execs| <= |Step(s, e).execs| <= |s.execs| + 1
    ensures Starts(s, e, |s.execs|) <==> |Step(s, e).execs| != |s.execs|
    ensures forall id :: 0 <= id < |s.execs| ==> SameWork(s.execs[id], Step(s, e).execs[id])
  {}

  predicate SameWork(a: Exec, b: Exec) { a.key == b.key && a.run == b.run && a.worker == b.worker }

  /** Once a run is aborted, by its parent or by its deadline, no child of it starts in any later state. */
  lemma {:induction false} NothingStartsAfterAbort(s: State, es: seq<Event>, run: nat)
    requires IsRun(s, es) && run in s.runs && s.runs[run].aborted
    ensures |s.execs| <= |Run(s, es).execs|
    ensures forall id :: |s.execs| <= id < |Run(s, es).execs| ==> Run(s, es).execs[id].run != run
    decreases |es|
  {
    if es != [] {
      var t := Step(s, es[0]);
      StartsExactly(s, es[0]);
      assert run in t.runs && t.runs[run].aborted;
      NothingStartsAfterAbort(t, es[1..], run);
      if |t.execs| != |s.execs| {
        assert t.execs[|s.execs|].run != run;
        WorkStays(t, es[1..], |s.execs|);
      }
    }
  }

  lemma {:induction false} WorkStays(s: State, es: seq<Event>, id: nat)
    requires IsRun(s, es) && id < |s.execs|
    ensures id < |Run(s, es).execs| && SameWork(s.execs[id], Run(s, es).execs[id])
    decreases |es|
  {
    if es != [] {
      StartsExactly(s, es[0]);
      WorkStays(Step(s, es[0]), es[1..], id);
    }
  }

  /** The event drops the settled record of k, and keeps maxRetained settled ones, all used later than k. */
  ghost predicate Drops(s: State, e: Event, k: Key) {
    && Enabled(s, e) && e.Release? && k in s.memory && k !in Step(s, e).memory
    && !ReleasedMemory(s, e.exec)[k].active
    && |Settled(Step(s, e).memory)| == s.maxRetained
    && forall j :: j in Settled(Step(s, e).memory) ==> ReleasedMemory(s, e.exec)[k].order < Step(s, e).memory[j].order
  }

  lemma {:induction false} ReleasedDistinct(s: State, exec: nat)
    requires Inv(s) && Enabled(s, Release(exec))
    ensures DistinctOrders(ReleasedMemory(s, exec))
  {
    OrdersBelow(s);
  }

  /** A record leaves memory only by being dropped. */
  lemma {:induction false} LeavesByDropping(s: State, e: Event, k: Key)
    requires Inv(s) && Enabled(s, e) && k in s.memory
    ensures k in Step(s, e).memory ==> Step(s, e).memory[k].exec == s.memory[k].exec
    ensures k !in Step(s, e).memory ==> Drops(s, e, k)
  {
    if e.Release? {
      ReleasedDistinct(s, e.exec);
      PruneExact(ReleasedMemory(s, e.exec), s.maxRetained);
    }
  }

  /** At step n of the run the record of k, still that of this execution, is dropped. */
  ghost predicate DropsAt(s: State, es: seq<Event>, n: nat, k: Key, exec: nat) {
    && IsRun(s, es) && n < |es| && IsRun(s, es[..n])
    && var u := Run(s, es[..n]);
    k in u.memory && u.memory[k].exec == exec && Drops(u, es[n], k)
  }

  lemma {:induction false} DroppedInBetween(s: State, es: seq<Event>, k: Key) returns (n: nat)
    requires Inv(s) && IsRun(s, es) && k in s.memory && k !in Run(s, es).memory
    ensures DropsAt(s, es, n, k, s.memory[k].exec)
    decreases |es|
  {
    LeavesByDropping(s, es[0], k);
    if k !in Step(s, es[0]).memory {
      n := 0;
      assert es[..0] == [];
    } else {
      InvKept(s, es[0]);
      var m := DroppedInBetween(Step(s, es[0]), es[1..], k);
      n := m + 1;
      DropsLater(s, es, m, k, s.memory[k].exec);
    }
  }

  lemma {:induction false} DropsLater(s: State, es: seq<Event>, m: nat, k: Key, exec: nat)
    requires es != [] && Enabled(s, es[0]) && DropsAt(Step(s, es[0]), es[1..], m, k, exec)
    ensures DropsAt(s, es, m + 1, k, exec)
  {
    hide Step, Enabled, Drops;
    assert es[..m + 1][1..] == es[1..][..m] && es[..m + 1][0] == es[0];
  }

  /** Two executions of one key: between their starts the record of the first, released, was
    * dropped in favour of maxRetained settled ones used after it. So while a key is active or
    * retained, its work runs once. */
  lemma {:induction false} SecondStartNeedsDropping(s: State, es: seq<Event>, k: Key, id: nat) returns (n: nat)
    requires Inv(s) && IsRun(s, es) && k in s.memory
    requires |s.execs| <= id < |Run(s, es).execs| && Run(s, es).execs[id].key == k
    ensures DropsAt(s, es, n, k, s.memory[k].exec)
    ensures |Run(s, es[..n]).execs| <= id
    decreases |es|
  {
    hide Drops, Settled, Prune, Pruned;
    var t := Step(s, es[0]);
    StartsExactly(s, es[0]);
    LeavesByDropping(s, es[0], k);
    if k !in t.memory {
      n := 0;
      assert es[..0] == [];
    } else {
      InvKept(s, es[0]);
      if id < |t.execs| { WorkStays(t, es[1..], id); }
      var m := SecondStartNeedsDropping(t, es[1..], k, id);
      n := m + 1;
      DropsLater(s, es, m, k, s.memory[k].exec);
      assert es[..n][1..] == es[1..][..m] && es[..n][0] == es[0];
    }
  }

  /** From the start of the system: any two executions of one key, the earlier being the last before
    * the later. */
  lemma {:induction false} RunsOnceWhileKept(s: State, es: seq<Event>, i: nat, j: nat) returns (n: nat)
    requires Inv(s) && IsRun(s, es) && |s.execs| <= i < j < |Run(s, es).execs|
    requires Run(s, es).execs[i].key == Run(s, es).execs[j].key
    ensures DropsAt(s, es, n, Run(s, es).execs[i].key, i)
    ensures i < |Run(s, es[..n]).execs| <= j
    decreases |es|
  {
    var t := Step(s, es[0]);
    StartsExactly(s, es[0]);
    InvKept(s, es[0]);
    var m: nat;
    if i < |t.execs| {
      WorkStays(t, es[1..], i);
      var k := t.execs[i].key;
      assert t.memory[k].exec == i;
      m := SecondStartNeedsDropping(t, es[1..], k, j);
      GrowsAlong(t, es[1..], m);
    } else {
      m := RunsOnceWhileKept(t, es[1..], i, j);
    }
    n := m + 1;
    DropsLater(s, es, m, Run(s, es).execs[i].key, i);
    assert es[..n][1..] == es[1..][..m] && es[..n][0] == es[0];
  }

  lemma {:induction false} GrowsAlong(s: State, es: seq<Event>, n: nat)
    requires n <= |es| && IsRun(s, es[..n])
    ensures |s.execs| <= |Run(s, es[..n]).execs|
    decreases n
  {
    if n > 0 {
      var fs := es[..n];
      StartsExactly(s, fs[0]);
      assert fs[1..] == es[1..][..n - 1];
      GrowsAlong(Step(s, fs[0]), es[1..], n - 1);
    }
  }

  /** In every reachable state memory holds at most the bound of settled records; and a step drops
    * records exactly when it releases one beyond the bound, keeping every active one and, of the
    * settled, those used last. */
  lemma {:induction false} RetentionIsBounded(es: seq<Event>, maxRetained: nat, e: Event)
    requires IsRun(Init(maxRetained), es) && Enabled(Run(Init(maxRetained), es), e)
    ensures var s := Run(Init(maxRetained), es);
      && s.maxRetained == maxRetained && |Settled(s.memory)| <= maxRetained
      && (e.Release? ==> Pruned(ReleasedMemory(s, e.exec), maxRetained, Step(s, e).memory))
      && (!e.Release? ==> s.memory.Keys <= Step(s, e).memory.Keys)
  {
    InvAlways(Init(maxRetained), es);
    BoundFixed(Init(maxRetained), es);
    if e.Release? {
      var s := Run(Init(maxRetained), es);
      ReleasedDistinct(s, e.exec);
      PruneExact(ReleasedMemory(s, e.exec), maxRetained);
    }
  }

  lemma {:induction false} BoundFixed(s: State, es: seq<Event>)
    requires IsRun(s, es)
    ensures Run(s, es).maxRetained == s.maxRetained
    decreases |es|
  {
    if es != [] { BoundFixed(Step(s, es[0]), es[1..]); }
  }
}
