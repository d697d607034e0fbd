/** How long a lease holds: over whole runs, no other message of the work is leased before the lease on
  * record has run out. */
module DispatchLeasing {
  import opened Prelude
  import opened DispatchRecords
  import opened DispatchProtocol
  import opened DispatchFencing
  import opened DispatchContracts
  import opened DispatchQueue

  /** Nobody has read the clock ahead of time. */
  predicate Timely(s: State) { forall p :: p in s.procs && s.procs[p].Loaded? ==> s.procs[p].now <= s.clock }

  lemma {:induction false} OwnTimely(s: State, e: Event)
    requires Enabled(s, e) && Actor(e).Some?
    ensures var t := Step(s, e); Actor(e).value in t.procs && t.procs[Actor(e).value].Loaded? ==> t.procs[Actor(e).value].now <= t.clock
  {
    hide Swap;
  }

  lemma {:induction false} TimelyKept(s: State, e: Event)
    requires Enabled(s, e) && Timely(s)
    ensures Timely(Step(s, e))
  {
    if Actor(e).Some? { OwnTimely(s, e); }
    hide EffectOf;
  }

  lemma {:induction false} TimelyAlways(s: State, es: seq<Event>)
    requires IsRun(s, es) && Timely(s)
    ensures Timely(Run(s, es))
    decreases |es|
  {
    if es != [] {
      TimelyKept(s, es[0]);
      hide Step, Enabled, Timely;
      TimelyAlways(Step(s, es[0]), es[1..]);
    }
  }

  /** A worker's claim is granted: it now has the lease. */
  predicate Grants(s: State, e: Event)
    requires Enabled(s, e)
  {
    e.TryClaim? && e.pid in Step(s, e).procs && Step(s, e).procs[e.pid].Observing?
  }

  /** What a granted claim finds on record, and what it leaves there. */
  predicate Leasing(s: State, e: Event)
    requires Enabled(s, e) && e.TryClaim?
  {
    var p, t := s.procs[e.pid], Step(s, e);
    var ref := p.snapshot.task.request.ref;
    && ref in s.world.records
    && var r := s.world.records[ref];
       && !HeldFrom(r, p.d.id, p.d.count, p.now)
       && t.world.queue == s.world.queue
       && t.world.records == s.world.records[ref := r.(status := Leased, dequeueCount := p.d.count, leaseOwner := Some(e.owner),
            leaseGeneration := r.leaseGeneration + 1, leaseMessageId := Some(p.d.id), leaseExpiresAt := Some(p.now + e.visibility * 1000))]
       && t.procs[e.pid].lease == Lease(p.snapshot.task, p.d.id, PopReceipt(p.d.count, 0), p.d.count, e.owner, r.leaseGeneration + 1)
  }

  lemma {:induction false} GrantLeases(s: State, e: Event)
    requires Enabled(s, e) && Grants(s, e)
    ensures Leasing(s, e)
  {}

  /** In every run a claim is granted only while nobody holds the record, by the clock at that very step, or
    * to a redelivery of the message it is held for; and from its own reading of the clock it then holds for
    * the visibility it asked for. */
  lemma {:induction false} LeasedOnlyWhenFree(es: seq<Event>, e: Event)
    requires IsRun(Init(), es) && Enabled(Run(Init(), es), e) && Grants(Run(Init(), es), e)
    ensures var t := Run(Init(), es);
      && Leasing(t, e) && t.procs[e.pid].now <= t.clock
      && var p := t.procs[e.pid];
         var r := t.world.records[p.snapshot.task.request.ref];
         && (r.leaseOwner.None? || r.leaseExpiresAt.None? || r.leaseExpiresAt.value <= t.clock
             || (r.leaseMessageId == Some(p.d.id) && r.dequeueCount < p.d.count))
  {
    var t := Run(Init(), es);
    TimelyAlways(Init(), es);
    GrantLeases(t, e);
    hide Run, IsRun, Step, Enabled;
  }

  // ---- one lease() after another ----

  /** The message is the work's, and its record is on file and unfinished. */
  predicate Pending(w: World, id: nat, task: Task) {
    id in w.queue && w.queue[id].payload == TaskText(task) && Filed(w.records, task) && !Ended(w.records[task.request.ref])
  }

  /** After a lease() is granted at now, every lease() that receives another message of the work before the
    * lease has run out is given nothing, deletes that message and leaves every record as it was; from then
    * on it is granted. A redelivery of the same message is granted at any time. */
  lemma {:induction false} LeaseHoldsUntil(w: World, now: int, id: nat, task: Task, owner: string, visibility: int, maxDequeue: nat,
                                           other: nat, later: int, rival: string)
    requires Pending(w, id, task) && Pending(w, other, task) && w.queue[id].receipt.count < maxDequeue && w.queue[other].receipt.count + 1 < maxDequeue
    requires LeaseCall(w, now, id, maxDequeue, owner, visibility).pc.Some?
    ensures var f := LeaseCall(w, now, id, maxDequeue, owner, visibility);
      var v := f.world;
      && task.request.ref in v.records && v.records[task.request.ref].leaseExpiresAt == Some(now + visibility * 1000)
      && GivenLease(f.pc).Some? && GivenLease(f.pc).value.owner == owner
      && other in v.queue
      && var g := LeaseCall(v, later, other, maxDequeue, rival, visibility);
         if other != id && later < now + visibility * 1000 then g.pc == None && g.world == v.(queue := v.queue - {other})
         else
           && GivenLease(g.pc).Some? && GivenLease(g.pc).value.owner == rival
           && GivenLease(g.pc).value.generation == v.records[task.request.ref].leaseGeneration + 1
  {
    hide Damaged, FiledOther, MovedAside, LeaseCall, GivenLease;
    LeaseCallDoes(w, now, id, maxDequeue, owner, visibility);
    var f := LeaseCall(w, now, id, maxDequeue, owner, visibility);
    NoLeaseNoPc(w, now, id, maxDequeue, owner, visibility);
    hide LeaseCall;
    LeaseCallDoes(f.world, later, other, maxDequeue, rival, visibility);
    NoLeaseNoPc(f.world, later, other, maxDequeue, rival, visibility);
  }

  /** lease() answers with a lease or has nothing more to do. */
  lemma {:induction false} NoLeaseNoPc(w: World, now: int, id: nat, maxDequeue: nat, owner: string, visibility: int)
    requires id in w.queue
    ensures var f := LeaseCall(w, now, id, maxDequeue, owner, visibility); f.pc == None || GivenLease(f.pc).Some?
  {
    LeaseCallIs(w, now, id, maxDequeue, owner, visibility);
    hide LeaseCall, Poisoned, Decide;
  }

  /** A heartbeat that got through holds the record for the visibility it asked for, from the clock
    * at its swap. */
  lemma {:induction false} HeartbeatExtends(s: State, pid: nat)
    requires pid in s.procs && s.procs[pid].Renewing? && Filed(s.world.records, s.procs[pid].lease.task)
    ensures var q, t := s.procs[pid], Step(s, Next(pid));
      var ref := q.lease.task.request.ref;
      var r := s.world.records[ref];
      && t.procs == s.procs[pid := t.procs[pid]] && t.world.queue == s.world.queue
      && if LeasedTo(s.world.records, q.lease) && !Ended(r) && SameInvocation(r, q.checkpoint.invocation)
         then t.procs[pid] == Holding(q.lease.(receipt := q.renewed), false)
           && t.world.records == s.world.records[ref := r.(checkpoint := Some(q.checkpoint.(invocation := Carried(r, q.checkpoint.invocation))),
                                                           leaseExpiresAt := Some(s.clock + q.visibility * 1000))]
         else t.procs[pid] == Holding(q.lease, false) && t.world.records == s.world.records
  {}
}
