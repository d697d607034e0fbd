/** Work whose v1 record was asked to cancel is never started, whatever migrates and leases it. */
module DispatchMigrationIntent {
  import opened Prelude
  import opened DispatchRecords
  import opened DispatchProtocol
  import DispatchContracts
  import opened DispatchFencing
  import opened DispatchMigration
  import opened DispatchMigrationContracts
  import opened DispatchMigrationSteps

  predicate AskedToCancel(s: State, ref: Reference) { ref in s.world.records && s.world.records[ref].cancellationRequested }

  lemma {:induction false} IntentStays(s: State, a: Act, ref: Reference)
    requires Can(s, a) && AskedToCancel(s, ref)
    ensures AskedToCancel(Do(s, a), ref)
  {
    if a.Ordinary? { StepWrites(s, a.e); }
    else { MigrateOnFile(s.procs[a.pid].d.payload.request, a.ports, s.world.records, ref); }
    hide Step, Enabled, Migrate;
  }

  /** The lease a process has, or is about to have. */
  function LeaseIn(pc: Pc): Option<Lease> {
    match pc
    case DiscardingTerminal(_, l) => Some(l)
    case Observing(l, _) => Some(l)
    case Holding(l, _) => Some(l)
    case Renewing(l, _, _, _) => Some(l)
    case _ => None
  }

  /** No process has a lease of work that is not on file. */
  predicate LeasesOnFile(s: State) {
    forall p :: p in s.procs && LeaseIn(s.procs[p]).Some? ==> RefOf(LeaseIn(s.procs[p]).value.task) in s.world.records
  }

  lemma {:induction false} OwnLeaseOnFile(s: State, e: Event)
    requires Enabled(s, e) && Actor(e).Some? && Actor(e).value in Step(s, e).procs
    requires Actor(e).value in s.procs && LeaseIn(s.procs[Actor(e).value]).Some? ==> RefOf(LeaseIn(s.procs[Actor(e).value]).value.task) in s.world.records
    ensures var pc := Step(s, e).procs[Actor(e).value]; LeaseIn(pc).Some? ==> RefOf(LeaseIn(pc).value.task) in s.world.records
  {
    hide Guarded;
  }

  lemma {:induction false} LeasesKept(s: State, a: Act)
    requires Can(s, a) && LeasesOnFile(s)
    ensures LeasesOnFile(Do(s, a))
  {
    var t := Do(s, a);
    forall p | p in t.procs && LeaseIn(t.procs[p]).Some? ensures RefOf(LeaseIn(t.procs[p]).value.task) in t.world.records {
      if a.Ordinary? {
        if Actor(a.e) == Some(p) { OwnLeaseOnFile(s, a.e); }
        StepGeneration(s, a.e, RefOf(LeaseIn(t.procs[p]).value.task));
      } else if p in s.procs && LeaseIn(s.procs[p]).Some? && p != a.pid {
        MigrateOnFile(s.procs[a.pid].d.payload.request, a.ports, s.world.records, RefOf(LeaseIn(s.procs[p]).value.task));
      }
    }
  }

  lemma {:induction false} LeasesAlways(s: State, acts: seq<Act>)
    requires IsHistory(s, acts) && LeasesOnFile(s)
    ensures LeasesOnFile(History(s, acts))
    decreases |acts|
  {
    if acts != [] {
      LeasesKept(s, acts[0]);
      hide Do, Can, LeasesOnFile;
      LeasesAlways(Do(s, acts[0]), acts[1..]);
    }
  }

  /** A worker has started this work, or is free to. */
  predicate Works(pc: Pc, ref: Reference) {
    ((pc.Holding? && !pc.mustCancel) || pc.Renewing?) && RefOf(pc.lease.task) == ref
  }

  predicate Unstarted(s: State, ref: Reference) { AskedToCancel(s, ref) && forall p :: p in s.procs ==> !Works(s.procs[p], ref) }

  lemma {:induction false} OwnUnstarted(s: State, e: Event, ref: Reference)
    requires Enabled(s, e) && Actor(e).Some? && AskedToCancel(s, ref)
    requires Actor(e).value in s.procs ==> !Works(s.procs[Actor(e).value], ref)
    ensures Actor(e).value in Step(s, e).procs ==> !Works(Step(s, e).procs[Actor(e).value], ref)
  {
    hide Guarded;
  }

  lemma {:induction false} UnstartedKept(s: State, a: Act, ref: Reference)
    requires Can(s, a) && Unstarted(s, ref)
    ensures Unstarted(Do(s, a), ref)
  {
    IntentStays(s, a, ref);
    var t := Do(s, a);
    forall p | p in t.procs ensures !Works(t.procs[p], ref) {
      if a.Ordinary? && Actor(a.e) == Some(p) { OwnUnstarted(s, a.e, ref); }
    }
  }

  lemma {:induction false} StaysUnstarted(s: State, acts: seq<Act>, ref: Reference)
    requires IsHistory(s, acts) && Unstarted(s, ref)
    ensures Unstarted(History(s, acts), ref)
    decreases |acts|
  {
    if acts != [] {
      UnstartedKept(s, acts[0], ref);
      hide Do, Can, Unstarted;
      StaysUnstarted(Do(s, acts[0]), acts[1..], ref);
    }
  }

  /** The ports give the v1 record of this request, if there is one, and its mode; and what is not there yet
    * can be created. */
  predicate ComesThrough(p: Ports, request: Request, records: map<Reference, Record>) {
    && p.capable && p.legacy.Gives? && (p.legacy.value.Some? ==> OfRequest(p.legacy.value.value, request))
    && p.mode.Gives? && p.mode.value.Some? && p.readable && (request.ref in records || (p.legacy.value.Some? && p.creatable))
  }

  /** What a migration leaves: the v1 record carried over where there was none; and its message read as the v2
    * text if that is then on file, poisoned if other work is, and deferred if it did not come through. */
  lemma {:induction false} MigratesDoes(s: State, a: Act)
    requires Can(s, a) && a.Migrates?
    ensures var d, p, t := s.procs[a.pid].d, a.ports, Do(s, a);
      var request := d.payload.request;
      var through := ComesThrough(p, request, s.world.records);
      && a.pid in t.procs && t == State(s.world.(records := t.world.records), s.clock, s.procs[a.pid := t.procs[a.pid]])
      && (if through && request.ref !in s.world.records then
            && request.ref in t.world.records && t.world.records == s.world.records[request.ref := t.world.records[request.ref]]
            && Carries(t.world.records[request.ref], p.legacy.value.value, Task(V2, request, p.mode.value.value, None))
          else t.world.records == s.world.records)
      && t.procs[a.pid] ==
         if !a.answered then Deferring(d)
         else if p.capable && p.legacy.Gives? && p.legacy.value.Some? && !OfRequest(p.legacy.value.value, request) then Poisoning(d, "unreadable", None)
         else if !through then Deferring(d)
         else
           var task := Task(V2, request, p.mode.value.value, None);
           if DispatchContracts.Filed(t.world.records, task) then Received(Delivery(d.id, d.count, TaskText(task))) else Poisoning(d, "unreadable", None)
  {}

  /** Migrated work whose v1 record was asked to cancel is never started: in no later state, whoever leases
    * it and however often, is there a worker that may do anything but cancel it. */
  lemma {:induction false} CancelledV1NeverStarts(before: seq<Act>, a: Act, after: seq<Act>)
    requires IsHistory(Init(), before)
    requires var s := History(Init(), before);
      && Can(s, a) && a.Migrates? && s.procs[a.pid].d.payload.request.ref !in s.world.records
      && s.procs[a.pid].d.payload.request.ref in Do(s, a).world.records
      && a.ports.legacy.Gives? && a.ports.legacy.value.Some? && a.ports.legacy.value.value.cancellationRequested
      && IsHistory(Do(s, a), after)
    ensures var s := History(Init(), before);
      Unstarted(History(Do(s, a), after), s.procs[a.pid].d.payload.request.ref)
  {
    var s := History(Init(), before);
    var request := s.procs[a.pid].d.payload.request;
    LeasesAlways(Init(), before);
    MigrateCarries(request, a.ports, s.world.records);
    var t := Do(s, a);
    assert Unstarted(t, request.ref) by {
      forall p | p in t.procs ensures !Works(t.procs[p], request.ref) {
        if p != a.pid { assert LeaseIn(s.procs[p]).Some? ==> RefOf(LeaseIn(s.procs[p]).value.task) in s.world.records; }
      }
      hide History, Migrate, Upgrade;
    }
    hide Do, Unstarted, Can;
    StaysUnstarted(t, after, request.ref);
  }
}
