/** Fencing over whole runs: generations count claims, a stale lease is dead for
  * good, and an outcome belongs to the newest generation. */
module DispatchFencing {
  import opened Prelude
  import opened DispatchRecords
  import opened DispatchProtocol
  import opened DispatchInvariant

  /** What an event writes to the durable records. */
  datatype Write = Nothing | Create(task: Task) | By(ref: Reference, expected: Identity, m: Mutation)

  function WriteOf(s: State, e: Event): Write
    requires Enabled(s, e)
  {
    match e
    case StartEnqueue(_, task) => if RefOf(task) in s.world.records then Nothing else Create(task)
    case TryClaim(pid, owner, visibility) =>
      var pc := s.procs[pid];
      By(RefOf(pc.snapshot.task), LeaseIdentity(pc.snapshot),
         Claim(pc.d.id, pc.d.count, owner, pc.snapshot.leaseGeneration + 1, pc.now, visibility))
    case Finish(pid, outcome) =>
      var l := s.procs[pid].lease;
      if l.generation < 1 then Nothing else By(RefOf(l.task), IdentityOf(l), MutationOf(l, outcome))
    case Next(pid) => NextWrite(s.clock, s.procs[pid])
    case _ => Nothing
  }

  function NextWrite(now: int, pc: Pc): Write {
    match pc
    case Quarantining(_, reason, before) => By(RefOf(before.task), LeaseIdentity(before), Quarantine(reason))
    case Renewing(l, _, checkpoint, visibility) =>
      By(RefOf(l.task), IdentityOf(l), Renew(l.owner, l.generation, checkpoint, now + visibility * 1000))
    case Marking(task, expected) => By(RefOf(task), expected, MarkEnqueued)
    case CancelSwapping(ref, reason, _, expected) => By(ref, expected, RequestCancel(reason))
    case _ => Nothing
  }

  function Written(records: map<Reference, Record>, write: Write): map<Reference, Record> {
    match write
    case Nothing => records
    case Create(task) => records[RefOf(task) := NewRecord(task)]
    case By(ref, expected, m) => Store(records, ref, Swap(records, ref, expected, m))
  }

  lemma {:induction false} NextWrites(w: World, now: int, pc: Pc)
    requires !pc.Received? && !pc.Loaded? && !pc.Holding?
    ensures NextEffect(w, now, pc).world.records == Written(w.records, NextWrite(now, pc))
  {}

  /** Every event writes at most one record, by creation or by one swap. */
  lemma {:induction false} StepWrites(s: State, e: Event)
    requires Enabled(s, e)
    ensures Step(s, e).world.records == Written(s.world.records, WriteOf(s, e))
  {
    if e.Next? { NextWrites(s.world, s.clock, s.procs[e.pid]); }
  }

  predicate Took(records: map<Reference, Record>, ref: Reference, write: Write) {
    write.By? && write.ref == ref && Swap(records, ref, write.expected, write.m).Swapped?
  }

  /** The event claims ref: a worker acquires the next lease. */
  predicate Claims(s: State, e: Event, ref: Reference)
    requires Enabled(s, e)
  {
    var write := WriteOf(s, e);
    Took(s.world.records, ref, write) && write.m.Claim?
  }

  function ClaimCount(s: State, es: seq<Event>, ref: Reference): nat
    requires IsRun(s, es)
    decreases |es|
  {
    if es == [] then 0
    else (if Claims(s, es[0], ref) then 1 else 0) + ClaimCount(Step(s, es[0]), es[1..], ref)
  }

  function Generation(s: State, ref: Reference): nat {
    if ref in s.world.records then s.world.records[ref].leaseGeneration else 0
  }

  lemma {:induction false} StepGeneration(s: State, e: Event, ref: Reference)
    requires Enabled(s, e)
    ensures Generation(Step(s, e), ref) == Generation(s, ref) + if Claims(s, e, ref) then 1 else 0
    ensures ref in s.world.records ==> ref in Step(s, e).world.records
  {
    StepWrites(s, e);
  }

  /** The generation of a record counts the claims it has seen, and nothing else. */
  lemma {:induction false} GenerationCountsClaims(s: State, es: seq<Event>, ref: Reference)
    requires IsRun(s, es)
    ensures Generation(Run(s, es), ref) == Generation(s, ref) + ClaimCount(s, es, ref)
    ensures ref in s.world.records ==> ref in Run(s, es).world.records
    decreases |es|
  {
    if es != [] {
      StepGeneration(s, es[0], ref);
      GenerationCountsClaims(Step(s, es[0]), es[1..], ref);
    }
  }

  /** The lease a worker works under. */
  function LeaseHeld(pc: Pc): Option<Lease> {
    match pc
    case Observing(l, _) => Some(l)
    case Holding(l, _) => Some(l)
    case Renewing(l, _, _, _) => Some(l)
    case _ => None
  }

  /** Each acquisition hands out a generation strictly above every earlier one. */
  lemma {:induction false} LaterClaimIsNewer(s: State, first: Event, es: seq<Event>, second: Event, ref: Reference)
    requires Enabled(s, first) && Claims(s, first, ref)
    requires IsRun(Step(s, first), es)
    requires var t := Run(Step(s, first), es); Enabled(t, second) && Claims(t, second, ref)
    ensures var t := Run(Step(s, first), es);
      && Step(s, first).procs[first.pid].Observing?
      && Step(t, second).procs[second.pid].Observing?
      && Step(s, first).procs[first.pid].lease.generation == Generation(s, ref) + 1
      && Step(s, first).procs[first.pid].lease.generation < Step(t, second).procs[second.pid].lease.generation
  {
    StepGeneration(s, first, ref);
    GenerationCountsClaims(Step(s, first), es, ref);
    StepGeneration(Run(Step(s, first), es), second, ref);
  }

  /** Once a newer claim exists, no swap under the old lease is accepted in any later state. */
  lemma {:induction false} StaleForever(s: State, es: seq<Event>, l: Lease, m: Mutation)
    requires RefOf(l.task) in s.world.records && l.generation < Generation(s, RefOf(l.task))
    requires IsRun(s, es)
    ensures Swap(Run(s, es).world.records, RefOf(l.task), IdentityOf(l), m) == Refused
  {
    GenerationCountsClaims(s, es, RefOf(l.task));
  }

  /** A stale worker's heartbeat or terminal call, at any later time, leaves every
    * record and, for the terminal call, every message as it was. */
  lemma {:induction false} StaleWorkerWritesNothing(s: State, es: seq<Event>, l: Lease, e: Event)
    requires RefOf(l.task) in s.world.records && l.generation < Generation(s, RefOf(l.task))
    requires IsRun(s, es) && Enabled(Run(s, es), e)
    requires Actor(e).Some? && Actor(e).value in Run(s, es).procs
    requires LeaseHeld(Run(s, es).procs[Actor(e).value]) == Some(l)
    ensures var t := Run(s, es);
      && Step(t, e).world.records == t.world.records
      && (e.Finish? ==> Step(t, e).world == t.world && e.pid !in Step(t, e).procs)
  {
    var t := Run(s, es);
    StepWrites(t, e);
    var write := WriteOf(t, e);
    if write.By? { StaleForever(s, es, l, write.m); }
  }

  // ---- the outcome on record is that of the newest generation ----

  datatype Commit = Commit(lease: Lease, outcome: Outcome)

  /** The terminal call that took, if the event is one. */
  function CommitOf(s: State, e: Event, ref: Reference): Option<Commit>
    requires Enabled(s, e)
  {
    if e.Finish? && Took(s.world.records, ref, WriteOf(s, e))
    then Some(Commit(s.procs[e.pid].lease, e.outcome)) else None
  }

  /** The last terminal call that took on ref, starting from an earlier one. */
  function LastCommit(earlier: Option<Commit>, s: State, es: seq<Event>, ref: Reference): Option<Commit>
    requires IsRun(s, es)
    decreases |es|
  {
    if es == [] then earlier
    else
      var here := CommitOf(s, es[0], ref);
      LastCommit(if here.Some? then here else earlier, Step(s, es[0]), es[1..], ref)
  }

  predicate WorkerOutcome(st: Status) { st == Completed || st == Failed || st == Cancelled }

  /** The record shows this commit, made under the newest lease. */
  predicate Shows(r: Record, c: Commit) {
    && LeaseIdentity(r) == IdentityOf(c.lease)
    && match c.outcome
       case Succeed(receipt) =>
         r.status == Completed && r.receipt.Some? && r.receipt.value.result == receipt.result
         && r.receipt.value.executionId == receipt.executionId && r.error.None?
       case Fault(error) => r.status == Failed && r.error == Some(error)
       case Stop(_) => r.status == Cancelled && r.cancellationRequested
  }

  predicate Explained(s: State, ref: Reference, last: Option<Commit>) {
    ref in s.world.records && WorkerOutcome(s.world.records[ref].status) ==>
      last.Some? && Shows(s.world.records[ref], last.value)
  }

  /** A callback that took either is the commit, or leaves the worker outcome and its identity alone. */
  lemma {:induction false} MutateExplained(r: Record, m: Mutation, last: Option<Commit>)
    requires Guarded(m, r).Ok? && !m.Foreign? && !m.Complete? && !m.Fail? && !m.Cancel?
    requires WorkerOutcome(r.status) ==> last.Some? && Shows(r, last.value)
    ensures WorkerOutcome(Guarded(m, r).value.status) ==> last.Some? && Shows(Guarded(m, r).value, last.value)
  {}

  lemma {:induction false} CommitShows(r: Record, l: Lease, outcome: Outcome)
    requires Guarded(MutationOf(l, outcome), r).Ok?
    ensures Shows(Guarded(MutationOf(l, outcome), r).value, Commit(l, outcome))
  {}

  lemma {:induction false} ExplainedStep(s: State, e: Event, ref: Reference, last: Option<Commit>)
    requires Enabled(s, e) && Explained(s, ref, last)
    ensures Explained(Step(s, e), ref, if CommitOf(s, e, ref).Some? then CommitOf(s, e, ref) else last)
  {
    StepWrites(s, e);
    var write := WriteOf(s, e);
    if Took(s.world.records, ref, write) {
      if e.Finish? { CommitShows(s.world.records[ref], s.procs[e.pid].lease, e.outcome); }
      else { MutateExplained(s.world.records[ref], write.m, last); }
    }
  }

  /** In every run, a worker outcome on record is that of the last terminal call
    * that took, and that call was made under the record's present generation. */
  lemma {:induction false} OutcomeIsOfNewestGeneration(s: State, es: seq<Event>, ref: Reference, last: Option<Commit>)
    requires IsRun(s, es) && Explained(s, ref, last)
    ensures Explained(Run(s, es), ref, LastCommit(last, s, es, ref))
    decreases |es|
  {
    if es != [] {
      var here := CommitOf(s, es[0], ref);
      ExplainedStep(s, es[0], ref, last);
      OutcomeIsOfNewestGeneration(Step(s, es[0]), es[1..], ref, if here.Some? then here else last);
    }
  }

  // ---- the invocation receipt is written once ----

  /** A completed record carries the invocation receipt of its checkpoint. */
  predicate CarriesInvocation(r: Record) {
    r.status == Completed && Invocation(r).Some? ==> r.receipt.Some? && r.receipt.value.invocation == Invocation(r)
  }

  predicate KeepsInvocation(s: State, ref: Reference, was: Option<string>) {
    ref in s.world.records ==>
      CarriesInvocation(s.world.records[ref]) && (was.Some? ==> Invocation(s.world.records[ref]) == was)
  }

  lemma {:induction false} MutateInvocation(r: Record, m: Mutation)
    requires Guarded(m, r).Ok? && !m.Foreign? && CarriesInvocation(r)
    requires r.status == Completed ==> !m.Renew?
    ensures CarriesInvocation(Guarded(m, r).value)
    ensures Invocation(r).Some? ==> Invocation(Guarded(m, r).value) == Invocation(r)
  {}

  lemma {:induction false} InvocationStep(s: State, e: Event, ref: Reference, was: Option<string>)
    requires Enabled(s, e) && KeepsInvocation(s, ref, was) && (was.Some? ==> ref in s.world.records)
    ensures KeepsInvocation(Step(s, e), ref, was)
    ensures was.Some? ==> ref in Step(s, e).world.records
  {
    StepWrites(s, e);
    if Took(s.world.records, ref, WriteOf(s, e)) { MutateInvocation(s.world.records[ref], WriteOf(s, e).m); }
  }

  /** Whichever workers come later, a recorded invocation receipt never changes,
    * and completion carries it. */
  lemma {:induction false} InvocationForever(s: State, es: seq<Event>, ref: Reference, was: Option<string>)
    requires IsRun(s, es) && KeepsInvocation(s, ref, was) && (was.Some? ==> ref in s.world.records)
    ensures KeepsInvocation(Run(s, es), ref, was)
    decreases |es|
  {
    if es != [] {
      InvocationStep(s, es[0], ref, was);
      InvocationForever(Step(s, es[0]), es[1..], ref, was);
    }
  }

  // ---- forged work ----

  predicate Forged(w: World, p: Payload) {
    p.OtherText? || (p.TaskText? && (!CanonicalTask(p.task) || !Exists(w, p.task)))
  }

  /** A message that is not the exact recorded task is copied to the poison queue,
    * deleted, and changes no record. */
  lemma {:induction false} ForgedIsPoisoned(s: State, pid: nat, maxDequeue: nat)
    requires Inv(s) && pid in s.procs && s.procs[pid].Received? && Forged(s.world, s.procs[pid].d.payload)
    ensures var d := s.procs[pid].d;
      var es := [Load(pid, maxDequeue), Next(pid), Next(pid)];
      && IsRun(s, es)
      && Run(s, es).world.records == s.world.records
      && |Run(s, es).world.poison| == |s.world.poison| + 1
      && Run(s, es).world.poison[|s.world.poison|].payload == d.payload
      && !Current(Run(s, es).world.queue, d.id, FirstReceipt(d))
      && pid !in Run(s, es).procs
  {
    var d := s.procs[pid].d;
    assert ProcOk(s.world, s.procs[pid]);
    if d.payload.TaskText? && RefOf(d.payload.task) in s.world.records {
      assert RecordOk(s.world, RefOf(d.payload.task), s.world.records[RefOf(d.payload.task)]);
    }
    var es := [Load(pid, maxDequeue), Next(pid), Next(pid)];
    assert es[1..] == [Next(pid), Next(pid)] && es[1..][1..] == [Next(pid)] && es[1..][1..][1..] == [];
    var s1 := Step(s, es[0]);
    assert s1.procs[pid].Poisoning? && s1.procs[pid].found.None?;
    var s2 := Step(s1, Next(pid));
    assert s2.procs[pid] == Discarding(d);
    var s3 := Step(s2, Next(pid));
    assert IsRun(s1, [Next(pid), Next(pid)]) && Run(s1, [Next(pid), Next(pid)]) == s3 by {
      assert [Next(pid), Next(pid)][1..] == [Next(pid)];
      assert IsRun(s2, [Next(pid)]) && Run(s2, [Next(pid)]) == s3 by { assert [Next(pid)][1..] == []; }
    }
  }
}
