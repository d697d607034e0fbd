/** When accepted work is never lost. The queue deletes a message whose claim was
  * refused, so "no accepted task is lost" is false when a delivery whose pop
  * receipt is outdated wins the claim; in every other run it holds. */
module DispatchLoss {
  import opened Prelude
  import opened DispatchRecords
  import opened DispatchProtocol
  import opened DispatchInvariant
  import opened DispatchFencing

  /** The message its process is bound to delete, and the receipt it will show. */
  function DoomOf(pc: Pc): Option<(nat, PopReceipt)> {
    match pc
    case Discarding(d) => Some((d.id, FirstReceipt(d)))
    case DiscardingTerminal(d, _) => Some((d.id, FirstReceipt(d)))
    case Poisoning(d, _, found) => if found.None? then Some((d.id, FirstReceipt(d))) else None
    case Acking(l) => Some((l.id, l.receipt))
    case _ => None
  }

  predicate Spares(pc: Pc, id: nat, newest: PopReceipt) {
    DoomOf(pc).Some? && DoomOf(pc).value.0 == id ==> Outdated(DoomOf(pc).value.1, newest)
  }

  /** Message id carries the exact task, and no pending delete still has its newest receipt. */
  predicate Safe(s: State, id: nat, task: Task) {
    && id in s.world.queue && s.world.queue[id].payload == TaskText(task)
    && forall p :: p in s.procs ==> Spares(s.procs[p], id, s.world.queue[id].receipt)
  }

  predicate Sent(pc: Pc, ref: Reference) {
    (pc.Rereading? && RefOf(pc.task) == ref) || (pc.Marking? && RefOf(pc.task) == ref)
  }

  /** Queued work whose message was sent. */
  predicate Awaiting(s: State, ref: Reference) {
    && ref in s.world.records && s.world.records[ref].status == Queued
    && (s.world.records[ref].enqueued || exists p :: p in s.procs && Sent(s.procs[p], ref))
  }

  ghost predicate SomeSafe(s: State, task: Task) { exists id :: Safe(s, id, task) }

  /** A lease anchored to its message; queued work anchored to some message. */
  ghost predicate Anchored(s: State, ref: Reference) {
    ref in s.world.records ==>
      var r := s.world.records[ref];
      && (r.status == Leased ==> r.leaseMessageId.Some? && Safe(s, r.leaseMessageId.value, r.task))
      && (Awaiting(s, ref) ==> SomeSafe(s, r.task))
  }

  /** Whoever will be refused because of a claim through the same message has an outdated receipt. */
  predicate RefusedIsOlder(w: World, pc: Pc) {
    pc.Loaded? && RefOf(pc.snapshot.task) in w.records ==>
      var r := w.records[RefOf(pc.snapshot.task)];
      (LeaseIdentity(pc.snapshot) != LeaseIdentity(r) && r.status == Leased && r.leaseMessageId == Some(pc.d.id)
       && pc.d.id in w.queue) ==> Outdated(FirstReceipt(pc.d), w.queue[pc.d.id].receipt)
  }

  ghost predicate LossInv(s: State) {
    && (forall ref :: ref in s.world.records ==> Anchored(s, ref))
    && (forall p :: p in s.procs ==> RefusedIsOlder(s.world, s.procs[p]))
  }

  /** The process can still delete message id: it is bound to, or will be once its claim is refused. */
  predicate Threatens(pc: Pc, id: nat, newest: PopReceipt) {
    !Spares(pc, id, newest) || (pc.Loaded? && pc.d.id == id && !Outdated(FirstReceipt(pc.d), newest))
  }

  /** The event, if it claims, claims through a message no other process can still delete. */
  predicate ClaimsSafely(s: State, e: Event)
    requires Enabled(s, e)
  {
    e.TryClaim? && WriteTook(s, e) ==>
      var id := s.procs[e.pid].d.id;
      && id in s.world.queue
      && forall p :: p in s.procs && p != e.pid ==> !Threatens(s.procs[p], id, s.world.queue[id].receipt)
  }

  predicate WriteTook(s: State, e: Event)
    requires Enabled(s, e)
  {
    var write := WriteOf(s, e);
    write.By? && Swap(s.world.records, write.ref, write.expected, write.m).Swapped?
  }

  // ---- a safe message stays safe unless the step dooms it ----

  lemma {:induction false} QueueHas(s: State, e: Event, id: nat, task: Task)
    requires Inv(s) && Enabled(s, e) && Safe(s, id, task)
    ensures id in EffectOf(s, e).world.queue
  {
    if e.Next? { assert ProcOk(s.world, s.procs[e.pid]); }
  }

  lemma {:induction false} QueueKeeps(s: State, e: Event, id: nat, task: Task)
    requires Inv(s) && Enabled(s, e) && Safe(s, id, task)
    ensures id in EffectOf(s, e).world.queue
    ensures Redelivered(s.world.queue[id], EffectOf(s, e).world.queue[id])
  {
    QueueHas(s, e, id, task);
    EventOk(s, e);
    hide EffectOf, ProcOk;
  }

  lemma {:induction false} SafeKept(s: State, e: Event, id: nat, task: Task)
    requires Inv(s) && Enabled(s, e) && Safe(s, id, task)
    requires var f := EffectOf(s, e);
      f.pc.Some? && id in f.world.queue ==> Spares(f.pc.value, id, f.world.queue[id].receipt)
    ensures Safe(Step(s, e), id, task)
  {
    QueueKeeps(s, e, id, task);
  }

  // ---- and no step dooms the message a record depends on ----

  /** Record r, unfinished, may depend on message id. */
  predicate DependsOn(w: World, ref: Reference, id: nat) {
    && ref in w.records && id in w.queue && w.queue[id].payload == TaskText(w.records[ref].task)
    && (w.records[ref].status == Queued || (w.records[ref].status == Leased && w.records[ref].leaseMessageId == Some(id)))
  }

  lemma {:induction false} DecideSpares(w: World, now: int, d: Delivery, maxDequeue: nat, ref: Reference, id: nat)
    requires WorldOk(w) && DeliveryOk(w, d) && DependsOn(w, ref, id)
    requires Decide(w, now, d, maxDequeue).Some?
    ensures Spares(Decide(w, now, d, maxDequeue).value, id, w.queue[id].receipt)
  {
    assert RecordOk(w, ref, w.records[ref]);
  }

  lemma {:induction false} ClaimSpares(w: World, d: Delivery, before: Record, now: int, owner: string, visibility: int, ref: Reference, id: nat)
    requires WorldOk(w) && ProcOk(w, Loaded(d, before, now)) && RefusedIsOlder(w, Loaded(d, before, now))
    requires var f := ClaimEffect(w, d, before, now, owner, visibility);
      f.pc.Some? && DependsOn(f.world, ref, id)
    ensures var f := ClaimEffect(w, d, before, now, owner, visibility);
      Spares(f.pc.value, id, f.world.queue[id].receipt)
  {
    if ref in w.records { assert RecordOk(w, ref, w.records[ref]); }
  }

  lemma {:induction false} FinishSpares(w: World, l: Lease, outcome: Outcome, ref: Reference, id: nat)
    requires WorldOk(w) && HeldOk(w, l)
    requires var f := FinishEffect(w, l, outcome); f.pc.Some? && DependsOn(f.world, ref, id)
    ensures var f := FinishEffect(w, l, outcome); Spares(f.pc.value, id, f.world.queue[id].receipt)
  {}

  lemma {:induction false} QuarantineSpares(w: World, d: Delivery, reason: string, before: Record, ref: Reference, id: nat)
    requires WorldOk(w) && ProcOk(w, Quarantining(d, reason, before))
    requires var f := Swapping(w, RefOf(before.task), LeaseIdentity(before), Quarantine(reason), Some(Discarding(d)), None, None);
      f.pc.Some? && DependsOn(f.world, ref, id)
    ensures var f := Swapping(w, RefOf(before.task), LeaseIdentity(before), Quarantine(reason), Some(Discarding(d)), None, None);
      Spares(f.pc.value, id, f.world.queue[id].receipt)
  {}

  lemma {:induction false} StepSpares(s: State, e: Event, ref: Reference, id: nat)
    requires Inv(s) && LossInv(s) && Enabled(s, e) && (e.Load? || e.TryClaim? || e.Finish?)
    requires var f := EffectOf(s, e); f.pc.Some? && DependsOn(f.world, ref, id)
    ensures var f := EffectOf(s, e); Spares(f.pc.value, id, f.world.queue[id].receipt)
  {
    var pc := s.procs[e.pid];
    assert ProcOk(s.world, pc);
    match e
    case Load(_, maxDequeue) => DecideSpares(s.world, s.clock, pc.d, maxDequeue, ref, id);
    case TryClaim(_, owner, visibility) =>
      assert RefusedIsOlder(s.world, pc);
      ClaimSpares(s.world, pc.d, pc.snapshot, pc.now, owner, visibility, ref, id);
    case Finish(_, outcome) => FinishSpares(s.world, pc.lease, outcome, ref, id);
  }

  lemma {:induction false} OthersDoomNothing(s: State, e: Event)
    requires Enabled(s, e) && !e.Next? && !e.Load? && !e.TryClaim? && !e.Finish?
    ensures EffectOf(s, e).pc.Some? ==> DoomOf(EffectOf(s, e).pc.value).None?
  {}

  lemma {:induction false} NextSpares(w: World, now: int, pc: Pc, ref: Reference, id: nat)
    requires WorldOk(w) && ProcOk(w, pc) && !pc.Received? && !pc.Loaded? && !pc.Holding?
    requires var f := NextEffect(w, now, pc); f.pc.Some? && DependsOn(f.world, ref, id)
    requires id in w.queue && Spares(pc, id, w.queue[id].receipt)
    ensures var f := NextEffect(w, now, pc); Spares(f.pc.value, id, f.world.queue[id].receipt)
  {
    if pc.Quarantining? { QuarantineSpares(w, pc.d, pc.reason, pc.snapshot, ref, id); }
  }

  // ---- what a write leaves of a record ----

  predicate SameLease(r: Record, after: Record) {
    && LeaseIdentity(after) == LeaseIdentity(r) && after.leaseMessageId == r.leaseMessageId
    && after.dequeueCount == r.dequeueCount
    && (after.status == Leased ==> r.status == Leased) && (after.status == Queued ==> r.status == Queued)
  }

  lemma {:induction false} MutateFrame(r: Record, m: Mutation)
    requires Guarded(m, r).Ok? && !m.Foreign?
    ensures Guarded(m, r).value.task == r.task
    ensures !m.Claim? ==> SameLease(r, Guarded(m, r).value)
  {}

  /** Only a claim changes who leases a record, and only a claim leases it. */
  lemma {:induction false} RecordFrame(s: State, e: Event, ref: Reference)
    requires Enabled(s, e) && ref in s.world.records
    ensures ref in Step(s, e).world.records
    ensures var r, after := s.world.records[ref], Step(s, e).world.records[ref];
      && after.task == r.task
      && (!Claims(s, e, ref) ==> SameLease(r, after))
  {
    StepWrites(s, e);
    hide Step, Guarded;
    if Took(s.world.records, ref, WriteOf(s, e)) { MutateFrame(s.world.records[ref], WriteOf(s, e).m); }
  }

  lemma {:induction false} ClaimFrame(s: State, e: Event, ref: Reference)
    requires Enabled(s, e) && Claims(s, e, ref)
    ensures ref in s.world.records && e.TryClaim? && Step(s, e).world.queue == s.world.queue
    ensures var d, after := s.procs[e.pid].d, Step(s, e).world.records[ref];
      && after.status == Leased && after.leaseMessageId == Some(d.id) && after.dequeueCount == d.count
      && after.task == s.world.records[ref].task
    ensures Step(s, e).procs == s.procs[e.pid := Step(s, e).procs[e.pid]] && Step(s, e).procs[e.pid].Observing?
  {}

  lemma {:induction false} ClaimAnchors(s: State, e: Event, ref: Reference)
    requires Inv(s) && Enabled(s, e) && Claims(s, e, ref) && ClaimsSafely(s, e)
    ensures var r := Step(s, e).world.records[ref]; Safe(Step(s, e), s.procs[e.pid].d.id, r.task)
  {
    ClaimFrame(s, e, ref);
    assert ProcOk(s.world, s.procs[e.pid]);
  }

  lemma {:induction false} SentMessageIsSafe(s: State, e: Event)
    requires Inv(s) && Enabled(s, e) && e.Next? && s.procs[e.pid].Sending?
    ensures Safe(Step(s, e), s.world.nextId, s.procs[e.pid].task)
  {
    var t := Step(s, e);
    forall p | p in t.procs ensures Spares(t.procs[p], s.world.nextId, PopReceipt(0, 0)) {
      if p != e.pid { assert ProcOk(s.world, s.procs[p]); }
    }
  }

  lemma {:induction false} SafeThrough(s: State, e: Event, ref: Reference, id: nat)
    requires Inv(s) && LossInv(s) && Enabled(s, e) && ref in s.world.records
    requires Safe(s, id, s.world.records[ref].task)
    requires ref in Step(s, e).world.records && Step(s, e).world.records[ref].task == s.world.records[ref].task
    requires var r := Step(s, e).world.records;
      (r[ref].status == Queued || (r[ref].status == Leased && r[ref].leaseMessageId == Some(id)))
    ensures Safe(Step(s, e), id, s.world.records[ref].task)
  {
    QueueKeeps(s, e, id, s.world.records[ref].task);
    if EffectOf(s, e).pc.Some? {
      if e.Next? { NextSpares(s.world, s.clock, s.procs[e.pid], ref, id); }
      else if e.Load? || e.TryClaim? || e.Finish? { StepSpares(s, e, ref, id); }
      else { OthersDoomNothing(s, e); }
    }
    SafeKept(s, e, id, s.world.records[ref].task);
  }

  lemma {:induction false} LeasedKept(s: State, e: Event, ref: Reference)
    requires Inv(s) && LossInv(s) && Enabled(s, e) && ClaimsSafely(s, e) && ref in s.world.records
    requires var r := Step(s, e).world.records; ref in r && r[ref].status == Leased
    ensures var r := Step(s, e).world.records[ref];
      r.leaseMessageId.Some? && Safe(Step(s, e), r.leaseMessageId.value, r.task)
  {
    RecordFrame(s, e, ref);
    if Claims(s, e, ref) {
      ClaimFrame(s, e, ref);
      ClaimAnchors(s, e, ref);
    } else {
      assert Anchored(s, ref);
      SafeThrough(s, e, ref, s.world.records[ref].leaseMessageId.value);
    }
  }

  /** A process comes to wait for the mark only by sending the message. */
  lemma {:induction false} SentFrame(s: State, e: Event, p: nat, ref: Reference)
    requires Enabled(s, e) && p in Step(s, e).procs && Sent(Step(s, e).procs[p], ref)
    ensures p in s.procs
    ensures Sent(s.procs[p], ref) || (e == Next(p) && s.procs[p].Sending? && RefOf(s.procs[p].task) == ref)
  {}

  lemma {:induction false} MarkFrame(s: State, e: Event, ref: Reference)
    requires Enabled(s, e) && ref in Step(s, e).world.records && Step(s, e).world.records[ref].enqueued
    ensures ref in s.world.records
    ensures s.world.records[ref].enqueued || (e.Next? && Sent(s.procs[e.pid], ref))
  {
    StepWrites(s, e);
  }

  predicate SendsFor(s: State, e: Event, task: Task) {
    e.Next? && e.pid in s.procs && s.procs[e.pid].Sending? && s.procs[e.pid].task == task
  }

  lemma {:induction false} SenderWaits(s: State, t: State, e: Event, ref: Reference, p: nat)
    requires Inv(s) && p in s.procs
    requires Sent(s.procs[p], ref) || (e == Next(p) && s.procs[p].Sending? && RefOf(s.procs[p].task) == ref)
    requires ref in t.world.records && t.world.records[ref].status == Queued
    requires ref in s.world.records && t.world.records[ref].status == Queued ==> s.world.records[ref].status == Queued
    ensures ref in s.world.records && (Awaiting(s, ref) || SendsFor(s, e, s.world.records[ref].task))
  {
    assert ProcOk(s.world, s.procs[p]);
  }

  /** Work starts to await its message only by the send. */
  lemma {:induction false} AwaitingFrame(s: State, e: Event, ref: Reference)
    requires Inv(s) && Enabled(s, e) && Awaiting(Step(s, e), ref)
    ensures ref in s.world.records && (Awaiting(s, ref) || SendsFor(s, e, s.world.records[ref].task))
  {
    var t := Step(s, e);
    if ref in s.world.records { QueuedFrame(s, e, ref); }
    if t.world.records[ref].enqueued {
      MarkFrame(s, e, ref);
      if !s.world.records[ref].enqueued { SenderWaits(s, t, e, ref, e.pid); }
    } else {
      var p :| p in t.procs && Sent(t.procs[p], ref);
      SentFrame(s, e, p, ref);
      SenderWaits(s, t, e, ref, p);
    }
  }

  lemma {:induction false} QueuedFrame(s: State, e: Event, ref: Reference)
    requires Enabled(s, e) && ref in s.world.records
    ensures ref in Step(s, e).world.records
    ensures Step(s, e).world.records[ref].status == Queued ==> s.world.records[ref].status == Queued
  {
    StepWrites(s, e);
  }

  lemma {:induction false} AwaitingKept(s: State, e: Event, ref: Reference)
    requires Inv(s) && LossInv(s) && Enabled(s, e) && Awaiting(Step(s, e), ref)
    ensures SomeSafe(Step(s, e), Step(s, e).world.records[ref].task)
  {
    AwaitingFrame(s, e, ref);
    RecordFrame(s, e, ref);
    if Awaiting(s, ref) {
      assert Anchored(s, ref);
      var id :| Safe(s, id, s.world.records[ref].task);
      SafeThrough(s, e, ref, id);
    } else {
      SentMessageIsSafe(s, e);
    }
  }

  lemma {:induction false} DecideLoads(w: World, now: int, d: Delivery, maxDequeue: nat)
    requires Decide(w, now, d, maxDequeue).Some? && Decide(w, now, d, maxDequeue).value.Loaded?
    ensures var r := Decide(w, now, d, maxDequeue).value.snapshot;
      RefOf(r.task) in w.records && w.records[RefOf(r.task)] == r
  {}

  /** No step but the load leaves its own process loaded. */
  lemma {:induction false} OnlyLoadLoads(s: State, e: Event, p: nat)
    requires Enabled(s, e) && p in Step(s, e).procs && Step(s, e).procs[p].Loaded?
    ensures (Actor(e) != Some(p) && p in s.procs && s.procs[p] == Step(s, e).procs[p]) || (e.Load? && e.pid == p)
  {
    hide Decide, Swap;
  }

  /** A process that loads holds the record as stored; the others keep their snapshot. */
  lemma {:induction false} LoadedFrame(s: State, e: Event, p: nat)
    requires Inv(s) && Enabled(s, e) && p in Step(s, e).procs && Step(s, e).procs[p].Loaded?
    ensures var pc, records := Step(s, e).procs[p], Step(s, e).world.records;
      || (p in s.procs && s.procs[p] == pc && Actor(e) != Some(p))
      || (RefOf(pc.snapshot.task) in records && records[RefOf(pc.snapshot.task)] == pc.snapshot)
  {
    OnlyLoadLoads(s, e, p);
    if e.Load? && e.pid == p { DecideLoads(s.world, s.clock, s.procs[p].d, e.maxDequeue); }
    hide Decide, Inv, ReceiveEffect, CreateEffect, ClaimEffect, BeatEffect, FinishEffect, NextEffect, Send;
  }

  lemma {:induction false} OlderKept(s: State, e: Event, p: nat)
    requires Inv(s) && LossInv(s) && Enabled(s, e) && ClaimsSafely(s, e) && p in Step(s, e).procs
    ensures RefusedIsOlder(Step(s, e).world, Step(s, e).procs[p])
  {
    var t := Step(s, e);
    if t.procs[p].Loaded? {
      LoadedFrame(s, e, p);
      if p in s.procs && s.procs[p] == t.procs[p] && Actor(e) != Some(p) {
        OthersOlderKept(s, e, p);
      }
    }
  }

  lemma {:induction false} OlderFrame(s: State, e: Event, p: nat)
    requires Inv(s) && Enabled(s, e) && p in s.procs && s.procs[p].Loaded?
    requires s.procs[p].d.id in Step(s, e).world.queue
    ensures s.procs[p].d.id in s.world.queue
    ensures Redelivered(s.world.queue[s.procs[p].d.id], Step(s, e).world.queue[s.procs[p].d.id])
  {
    EventOk(s, e);
    assert ProcOk(s.world, s.procs[p]);
  }

  lemma {:induction false} OthersOlderKept(s: State, e: Event, p: nat)
    requires Inv(s) && Enabled(s, e) && ClaimsSafely(s, e) && p in s.procs && s.procs[p].Loaded? && Actor(e) != Some(p)
    requires RefusedIsOlder(s.world, s.procs[p])
    ensures RefusedIsOlder(Step(s, e).world, s.procs[p])
  {
    var ref := RefOf(s.procs[p].snapshot.task);
    assert ProcOk(s.world, s.procs[p]);
    RecordFrame(s, e, ref);
    if Claims(s, e, ref) { ClaimFrame(s, e, ref); } else if s.procs[p].d.id in Step(s, e).world.queue { OlderFrame(s, e, p); }
  }

  lemma {:induction false} LossInvKept(s: State, e: Event)
    requires Inv(s) && LossInv(s) && Enabled(s, e) && ClaimsSafely(s, e)
    ensures LossInv(Step(s, e))
  {
    var t := Step(s, e);
    forall ref | ref in t.world.records ensures Anchored(t, ref) {
      if t.world.records[ref].status == Leased {
        if ref !in s.world.records { StepWrites(s, e); }
        LeasedKept(s, e, ref);
      }
      if Awaiting(t, ref) { AwaitingKept(s, e, ref); }
    }
    forall p | p in t.procs ensures RefusedIsOlder(t.world, t.procs[p]) { OlderKept(s, e, p); }
  }

  predicate ClaimsAllSafe(s: State, es: seq<Event>)
    requires IsRun(s, es)
    decreases |es|
  {
    es != [] ==> ClaimsSafely(s, es[0]) && ClaimsAllSafe(Step(s, es[0]), es[1..])
  }

  lemma {:induction false} LossInvAlways(s: State, es: seq<Event>)
    requires Inv(s) && LossInv(s) && IsRun(s, es) && ClaimsAllSafe(s, es)
    ensures Inv(Run(s, es)) && LossInv(Run(s, es))
    decreases |es|
  {
    if es != [] {
      InvKept(s, es[0]);
      LossInvKept(s, es[0]);
      LossInvAlways(Step(s, es[0]), es[1..]);
    }
  }

  /** Unfinished accepted work has a main-queue message with its exact request hash. */
  predicate HasMessage(w: World, r: Record) {
    exists id :: id in w.queue && w.queue[id].payload.TaskText? && Hash(w.queue[id].payload.task) == r.requestHash
  }

  ghost predicate NothingLost(w: World) {
    forall ref :: ref in w.records && w.records[ref].enqueued && !Terminal(w.records[ref].status)
      ==> HasMessage(w, w.records[ref])
  }

  /** No accepted task is lost, however workers crash, messages reappear and
    * duplicates or forgeries arrive, as long as each claim that takes is safe. */
  lemma {:induction false} NoTaskLost(es: seq<Event>)
    requires IsRun(Init(), es) && ClaimsAllSafe(Init(), es)
    ensures NothingLost(Run(Init(), es).world)
  {
    LossInvAlways(Init(), es);
    var s := Run(Init(), es);
    forall ref | ref in s.world.records && s.world.records[ref].enqueued && !Terminal(s.world.records[ref].status)
      ensures HasMessage(s.world, s.world.records[ref])
    {
      assert Anchored(s, ref) && RecordOk(s.world, ref, s.world.records[ref]);
      if s.world.records[ref].status == Queued {
        assert Awaiting(s, ref);
        var id :| Safe(s, id, s.world.records[ref].task);
      }
    }
  }

  // ---- which claims are safe ----

  /** A claim by the newest delivery of its message is safe. */
  lemma {:induction false} NewestDeliveryIsSafe(s: State, e: Event)
    requires Inv(s) && Enabled(s, e) && e.TryClaim?
    requires Current(s.world.queue, s.procs[e.pid].d.id, FirstReceipt(s.procs[e.pid].d))
    ensures ClaimsSafely(s, e)
  {
    var d := s.procs[e.pid].d;
    assert HopOf(s.procs[e.pid]).Some?;
    forall p | p in s.procs && p != e.pid ensures !Threatens(s.procs[p], d.id, s.world.queue[d.id].receipt) {
      assert ProcOk(s.world, s.procs[p]);
    }
  }

  /** A lease still has the message it was taken through. */
  predicate LeaseHasMessage(w: World, ref: Reference) {
    ref in w.records && w.records[ref].status == Leased ==>
      w.records[ref].leaseMessageId.Some? && w.records[ref].leaseMessageId.value in w.queue
  }

  predicate NoClaimTakes(s: State, es: seq<Event>)
    requires IsRun(s, es)
    decreases |es|
  {
    es != [] ==> (es[0].TryClaim? ==> !WriteTook(s, es[0])) && NoClaimTakes(Step(s, es[0]), es[1..])
  }

  lemma {:induction false} NoClaimIsSafe(s: State, es: seq<Event>)
    requires IsRun(s, es) && NoClaimTakes(s, es)
    ensures ClaimsAllSafe(s, es)
    decreases |es|
  {
    if es != [] { NoClaimIsSafe(Step(s, es[0]), es[1..]); }
  }

  /** A doomed message goes with the delete its process is bound to make. */
  lemma {:induction false} DoomDeletes(s: State, q: nat)
    requires q in s.procs && DoomOf(s.procs[q]).Some? && !s.procs[q].Poisoning?
    requires Current(s.world.queue, DoomOf(s.procs[q]).value.0, DoomOf(s.procs[q]).value.1)
    ensures Enabled(s, Next(q)) && IsRun(s, [Next(q)]) && NoClaimTakes(s, [Next(q)])
    ensures var w := Run(s, [Next(q)]).world;
      w.records == s.world.records && w.queue == s.world.queue - {DoomOf(s.procs[q]).value.0}
  {
    assert [Next(q)][1..] == [];
  }

  lemma {:induction false} Prefix(s: State, e: Event, es: seq<Event>)
    requires Enabled(s, e) && IsRun(Step(s, e), es) && NoClaimTakes(Step(s, e), es) && (e.TryClaim? ==> !WriteTook(s, e))
    ensures IsRun(s, [e] + es) && NoClaimTakes(s, [e] + es) && Run(s, [e] + es) == Run(Step(s, e), es)
  {
    assert ([e] + es)[1..] == es;
  }

  /** The process that can still delete the claimed message does so in at most two steps. */
  lemma {:induction false} ThreatDeletes(s: State, q: nat, ref: Reference, id: nat) returns (es: seq<Event>)
    requires Inv(s) && q in s.procs && id in s.world.queue
    requires ref in s.world.records && s.world.records[ref].status == Leased && s.world.records[ref].leaseMessageId == Some(id)
    requires Threatens(s.procs[q], id, s.world.queue[id].receipt)
    requires s.procs[q].Loaded? && RefOf(s.procs[q].snapshot.task) == ref ==>
      LeaseIdentity(s.procs[q].snapshot) != LeaseIdentity(s.world.records[ref])
    ensures IsRun(s, es) && NoClaimTakes(s, es)
    ensures !LeaseHasMessage(Run(s, es).world, ref)
  {
    assert ProcOk(s.world, s.procs[q]) && RecordOk(s.world, ref, s.world.records[ref]);
    if s.procs[q].Loaded? {
      var t := Step(s, TryClaim(q, "", 0));
      assert t == State(s.world, s.clock, s.procs[q := Discarding(s.procs[q].d)]);
      DoomDeletes(t, q);
      Prefix(s, TryClaim(q, "", 0), [Next(q)]);
      es := [TryClaim(q, "", 0)] + [Next(q)];
    } else if s.procs[q].Poisoning? {
      var t := Step(s, Next(q));
      DoomDeletes(t, q);
      Prefix(s, Next(q), [Next(q)]);
      es := [Next(q)] + [Next(q)];
    } else {
      DoomDeletes(s, q);
      es := [Next(q)];
    }
  }

  /** Until the next claim, whatever else happens, a lease on ref keeps its message. */
  ghost predicate KeepsMessage(t: State, ref: Reference) {
    forall es :: IsRun(t, es) && NoClaimTakes(t, es) ==> LeaseHasMessage(Run(t, es).world, ref)
  }

  lemma {:induction false} LosesMessage(t: State, ref: Reference, es: seq<Event>)
    requires IsRun(t, es) && NoClaimTakes(t, es) && !LeaseHasMessage(Run(t, es).world, ref)
    ensures !KeepsMessage(t, ref)
  {}

  /** Safe claims are exactly those after which the lease cannot lose its message before the next claim. */
  lemma {:induction false} SafeClaimExact(s: State, e: Event, ref: Reference)
    requires Inv(s) && LossInv(s) && Enabled(s, e) && Claims(s, e, ref)
    ensures ClaimsSafely(s, e) <==> KeepsMessage(Step(s, e), ref)
  {
    var t := Step(s, e);
    InvKept(s, e);
    ClaimFrame(s, e, ref);
    if ClaimsSafely(s, e) {
      LossInvKept(s, e);
      AnchoredKeepsMessage(t, ref);
    } else {
      var id := s.procs[e.pid].d.id;
      var es: seq<Event> := [];
      if id in s.world.queue {
        var q :| q in s.procs && q != e.pid && Threatens(s.procs[q], id, s.world.queue[id].receipt);
        ClaimOutdates(s, e, ref, q);
        es := ThreatDeletes(t, q, ref, id);
      }
      LosesMessage(t, ref, es);
    }
  }

  lemma {:induction false} AnchoredKeepsMessage(t: State, ref: Reference)
    requires Inv(t) && LossInv(t)
    ensures KeepsMessage(t, ref)
  {
    forall es | IsRun(t, es) && NoClaimTakes(t, es) ensures LeaseHasMessage(Run(t, es).world, ref) {
      NoClaimIsSafe(t, es);
      LossInvAlways(t, es);
      assert ref in Run(t, es).world.records ==> Anchored(Run(t, es), ref);
    }
  }

  /** After a claim, everybody else's snapshot of the record is out of date. */
  lemma {:induction false} ClaimOutdates(s: State, e: Event, ref: Reference, q: nat)
    requires Inv(s) && Enabled(s, e) && Claims(s, e, ref) && q in s.procs && q != e.pid
    ensures q in Step(s, e).procs && Step(s, e).procs[q] == s.procs[q]
    ensures s.procs[q].Loaded? && ref in Step(s, e).world.records && RefOf(s.procs[q].snapshot.task) == ref ==>
      LeaseIdentity(s.procs[q].snapshot) != LeaseIdentity(Step(s, e).world.records[ref])
  {
    assert ProcOk(s.world, s.procs[q]);
  }
}
