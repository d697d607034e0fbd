/** When a finished record stays finished. The swap does not look at the status,
  * so "terminal at most once" is false of the queue; this module proves exactly
  * which steps break it and that nothing else does. */
module DispatchTerminal {
  import opened Prelude
  import opened DispatchRecords
  import opened DispatchProtocol
  import opened DispatchInvariant
  import opened DispatchFencing

  predicate Finished(w: World, ref: Reference) { ref in w.records && Terminal(w.records[ref].status) }

  /** The claim or quarantine was decided on the lease identity still stored. */
  predicate DecidedOn(r: Record, before: Record) {
    RefOf(before.task) == RefOf(r.task) && LeaseIdentity(before) == LeaseIdentity(r)
  }

  predicate Accepts(r: Record, l: Lease, outcome: Outcome) {
    && IdentityOf(l) == LeaseIdentity(r)
    && (outcome.Succeed? ==> !r.cancellationRequested && !Clash(Invocation(r), outcome.receipt.invocation))
  }

  /** The steps that overtake a finished record: a claim or a quarantine decided before
    * the record finished, and a worker finishing under a lease that was quarantined. */
  predicate Overtakes(s: State, e: Event, ref: Reference)
    requires Enabled(s, e) && ref in s.world.records
  {
    var r := s.world.records[ref];
    match e
    case TryClaim(pid, _, _) => DecidedOn(r, s.procs[pid].snapshot)
    case Finish(pid, outcome) =>
      r.status == Quarantined && RefOf(s.procs[pid].lease.task) == ref && Accepts(r, s.procs[pid].lease, outcome)
    case Next(pid) => s.procs[pid].Quarantining? && r.status != Quarantined && DecidedOn(r, s.procs[pid].snapshot)
    case _ => false
  }

  /** The parts of a finished record a reader relies on. */
  predicate SameOutcome(r: Record, after: Record) {
    && after.status == r.status && after.receipt == r.receipt && after.error == r.error
    && LeaseIdentity(after) == LeaseIdentity(r)
  }

  lemma {:induction false} HolderSeesQuarantine(s: State, pid: nat, ref: Reference)
    requires Inv(s) && pid in s.procs && s.procs[pid].Holding? && Finished(s.world, ref)
    requires RefOf(s.procs[pid].lease.task) == ref && IdentityOf(s.procs[pid].lease) == LeaseIdentity(s.world.records[ref])
    ensures s.world.records[ref].status == Quarantined
  {
    assert ProcOk(s.world, s.procs[pid]);
  }

  /** A swap does not look at the status: a claim takes a finished record. */
  lemma {:induction false} ClaimOnFinished(r: Record, m: Mutation)
    requires Canonical(r) && r.leaseExpiresAt.None? && m.Claim?
    ensures Guarded(m, r).Ok?
    ensures var after := Guarded(m, r).value;
      after.status == Leased && after.receipt == r.receipt && after.cancellationRequested == r.cancellationRequested
  {}

  lemma {:induction false} QuietOnFinished(r: Record, m: Mutation)
    requires Terminal(r.status) && (m.MarkEnqueued? || m.RequestCancel? || m.Quarantine? || m.Renew?)
    ensures m.Renew? ==> Guarded(m, r).Err?
    ensures Guarded(m, r).Ok? && !m.Quarantine? ==> SameOutcome(r, Guarded(m, r).value)
    ensures m.Quarantine? && Canonical(r) ==>
      Guarded(m, r).Ok? && SameOutcome(r.(status := Quarantined), Guarded(m, r).value)
  {}

  lemma {:induction false} ClaimOvertakes(s: State, e: Event, ref: Reference)
    requires Enabled(s, e) && Finished(s.world, ref) && e.TryClaim? && RecordOk(s.world, ref, s.world.records[ref])
    ensures ref in Step(s, e).world.records
    ensures var r, after := s.world.records[ref], Step(s, e).world.records[ref];
      && (Overtakes(s, e, ref) ==> after.status == Leased && after.receipt == r.receipt
                                   && after.cancellationRequested == r.cancellationRequested)
      && (!Overtakes(s, e, ref) ==> after == r)
  {
    StepWrites(s, e);
    ClaimOnFinished(s.world.records[ref], WriteOf(s, e).m);
  }

  lemma {:induction false} FinishOvertakes(s: State, e: Event, ref: Reference)
    requires Inv(s) && Enabled(s, e) && Finished(s.world, ref) && e.Finish?
    ensures !Overtakes(s, e, ref) ==> Step(s, e).world.records[ref] == s.world.records[ref]
    ensures Overtakes(s, e, ref) ==> WorkerOutcome(Step(s, e).world.records[ref].status)
  {
    StepWrites(s, e);
    assert RecordOk(s.world, ref, s.world.records[ref]);
    assert ProcOk(s.world, s.procs[e.pid]);
    if Took(s.world.records, ref, WriteOf(s, e)) { HolderSeesQuarantine(s, e.pid, ref); }
    hide Step, Inv, RecordOk, ProcOk;
  }

  /** The remaining steps. */
  lemma {:induction false} OtherOvertakes(s: State, e: Event, ref: Reference)
    requires Enabled(s, e) && Finished(s.world, ref) && !e.Finish? && !e.TryClaim? && InScope(s.world.records[ref], ref)
    ensures ref in Step(s, e).world.records
    ensures var r, after := s.world.records[ref], Step(s, e).world.records[ref];
      && (Overtakes(s, e, ref) ==> after.status == Quarantined != r.status)
      && (!Overtakes(s, e, ref) ==> SameOutcome(r, after))
  {
    StepWrites(s, e);
    var write := WriteOf(s, e);
    if write.By? { QuietOnFinished(s.world.records[ref], write.m); }
  }

  /** A finished record changes status in a step exactly when the step overtakes it. */
  lemma {:induction false} TerminalStepExact(s: State, e: Event, ref: Reference)
    requires Inv(s) && Enabled(s, e) && Finished(s.world, ref)
    ensures ref in Step(s, e).world.records
    ensures Step(s, e).world.records[ref].status != s.world.records[ref].status <==> Overtakes(s, e, ref)
    ensures !Overtakes(s, e, ref) ==> SameOutcome(s.world.records[ref], Step(s, e).world.records[ref])
  {
    assert RecordOk(s.world, ref, s.world.records[ref]);
    if e.TryClaim? { ClaimOvertakes(s, e, ref); }
    else if e.Finish? { FinishOvertakes(s, e, ref); }
    else { OtherOvertakes(s, e, ref); }
  }

  /** Work starts: a worker that observed its task goes on to execute it. */
  predicate Starts(s: State, e: Event, ref: Reference)
    requires Enabled(s, e)
  {
    && e.Next? && s.procs[e.pid].Observing? && RefOf(s.procs[e.pid].lease.task) == ref
    && e.pid in Step(s, e).procs && Step(s, e).procs[e.pid] == Holding(s.procs[e.pid].lease, false)
  }

  predicate NeverOvertaken(s: State, es: seq<Event>, ref: Reference)
    requires IsRun(s, es)
    decreases |es|
  {
    es != [] ==>
      && (Finished(s.world, ref) ==> !Overtakes(s, es[0], ref))
      && NeverOvertaken(Step(s, es[0]), es[1..], ref)
  }

  predicate NeverStarts(s: State, es: seq<Event>, ref: Reference)
    requires IsRun(s, es)
    decreases |es|
  {
    es != [] ==> !Starts(s, es[0], ref) && NeverStarts(Step(s, es[0]), es[1..], ref)
  }

  lemma {:induction false} FinishedStep(s: State, e: Event, ref: Reference)
    requires Inv(s) && Enabled(s, e) && Finished(s.world, ref) && !Overtakes(s, e, ref)
    ensures Finished(Step(s, e).world, ref) && SameOutcome(s.world.records[ref], Step(s, e).world.records[ref])
    ensures !Starts(s, e, ref)
  {
    TerminalStepExact(s, e, ref);
  }

  /** In any run that never overtakes it, a finished record keeps its outcome and is
    * never executed again. */
  lemma {:induction false} FinishedForGood(s: State, es: seq<Event>, ref: Reference)
    requires Inv(s) && IsRun(s, es) && Finished(s.world, ref) && NeverOvertaken(s, es, ref)
    ensures Finished(Run(s, es).world, ref)
    ensures SameOutcome(s.world.records[ref], Run(s, es).world.records[ref])
    ensures NeverStarts(s, es, ref)
    decreases |es|
  {
    if es != [] {
      FinishedStep(s, es[0], ref);
      InvKept(s, es[0]);
      FinishedForGood(Step(s, es[0]), es[1..], ref);
    }
  }

  // ---- the race, for every state that allows it ----

  /** A worker's accepted terminal call finishes the record and keeps its lease identity. */
  lemma {:induction false} FinishLands(w: World, l: Lease, outcome: Outcome)
    requires HeldOk(w, l) && l.generation > 0 && InScope(w.records[RefOf(l.task)], RefOf(l.task))
    requires Accepts(w.records[RefOf(l.task)], l, outcome)
    ensures var f := FinishEffect(w, l, outcome);
      && Finished(f.world, RefOf(l.task)) && f.pc == Some(Acking(l))
      && LeaseIdentity(f.world.records[RefOf(l.task)]) == LeaseIdentity(w.records[RefOf(l.task)])
  {}

  /** A claim decided before the record finished leases it again, and the claimant
    * goes on to execute finished work (or to cancel it, if that was asked). */
  lemma {:induction false} StaleClaimRevives(s: State, p: nat, owner: string, visibility: int)
    requires Inv(s) && p in s.procs && s.procs[p].Loaded?
    requires var r := s.procs[p].snapshot; Finished(s.world, RefOf(r.task)) && DecidedOn(s.world.records[RefOf(r.task)], r)
    ensures var ref := RefOf(s.procs[p].snapshot.task);
      var t := Step(s, TryClaim(p, owner, visibility));
      && ref in t.world.records && t.world.records[ref].status == Leased
      && t.world.records[ref].receipt == s.world.records[ref].receipt
      && Enabled(t, Next(p)) && (Starts(t, Next(p), ref) <==> !s.world.records[ref].cancellationRequested)
  {
    hide Step, Inv, Starts, InScope, DecidedOn, Finished;
    StaleClaimLands(s, p, owner, visibility);
    ObserveStarts(Step(s, TryClaim(p, owner, visibility)), p, RefOf(s.procs[p].snapshot.task));
  }

  lemma {:induction false} StaleClaimLands(s: State, p: nat, owner: string, visibility: int)
    requires Inv(s) && p in s.procs && s.procs[p].Loaded?
    requires var r := s.procs[p].snapshot; Finished(s.world, RefOf(r.task)) && DecidedOn(s.world.records[RefOf(r.task)], r)
    ensures var ref, t := RefOf(s.procs[p].snapshot.task), Step(s, TryClaim(p, owner, visibility));
      && ref in t.world.records && InScope(t.world.records[ref], ref) && t.world.records[ref].status == Leased
      && t.world.records[ref].receipt == s.world.records[ref].receipt
      && t.world.records[ref].cancellationRequested == s.world.records[ref].cancellationRequested
      && p in t.procs && t.procs[p].Observing? && t.procs[p].lease.task == s.procs[p].snapshot.task
  {
    var ref := RefOf(s.procs[p].snapshot.task);
    var e := TryClaim(p, owner, visibility);
    assert RecordOk(s.world, ref, s.world.records[ref]);
    ClaimOvertakes(s, e, ref);
    InvKept(s, e);
    assert RecordOk(Step(s, e).world, ref, Step(s, e).world.records[ref]);
  }

  lemma {:induction false} ObserveStarts(t: State, p: nat, ref: Reference)
    requires p in t.procs && t.procs[p].Observing? && RefOf(t.procs[p].lease.task) == ref
    requires ref in t.world.records && InScope(t.world.records[ref], ref)
    ensures Starts(t, Next(p), ref) <==>
      !Terminal(t.world.records[ref].status) && !t.world.records[ref].cancellationRequested
  {}
}
