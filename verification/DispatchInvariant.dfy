/** What every step of the dispatch protocol keeps. */
module DispatchInvariant {
  import opened Prelude
  import opened DispatchRecords
  import opened DispatchProtocol

  /** A delivery: message id and dequeue count. */
  type Hop = (nat, nat)

  /** The claimed delivery of a record is one the queue has handed out. */
  predicate ClaimedFrom(w: World, r: Record) {
    r.leaseMessageId.Some? ==>
      && r.leaseMessageId.value < w.nextId
      && (r.leaseMessageId.value in w.queue ==>
            && w.queue[r.leaseMessageId.value].payload == TaskText(r.task)
            && r.dequeueCount <= w.queue[r.leaseMessageId.value].receipt.count)
  }

  predicate RecordOk(w: World, ref: Reference, r: Record) {
    && InScope(r, ref)
    && (r.leaseOwner.Some? <==> r.leaseGeneration > 0)
    && (r.status == Queued ==> r.leaseGeneration == 0)
    && (r.status == Leased ==> r.leaseGeneration > 0)
    && (r.leaseGeneration > 0 ==> r.leaseMessageId.Some?)
    && (Terminal(r.status) ==> r.leaseExpiresAt.None?)
    && ClaimedFrom(w, r)
  }

  predicate WorldOk(w: World) {
    && (forall id :: id in w.queue ==> id < w.nextId)
    && (forall ref :: ref in w.records ==> RecordOk(w, ref, w.records[ref]))
  }

  /** No record was claimed with this delivery. */
  predicate Unclaimed(w: World, d: Delivery) {
    d.payload.TaskText? && RefOf(d.payload.task) in w.records ==>
      var r := w.records[RefOf(d.payload.task)];
      !(r.leaseMessageId == Some(d.id) && r.dequeueCount == d.count)
  }

  predicate NotNewer(a: PopReceipt, b: PopReceipt) { a == b || Outdated(a, b) }

  predicate HandedOut(w: World, id: nat, receipt: PopReceipt, payload: Payload) {
    && 1 <= receipt.count
    && id < w.nextId
    && (id in w.queue ==> w.queue[id].payload == payload && NotNewer(receipt, w.queue[id].receipt))
  }

  predicate DeliveryOk(w: World, d: Delivery) {
    HandedOut(w, d.id, FirstReceipt(d), d.payload) && Unclaimed(w, d)
  }

  /** An earlier, unfinished state of the record now stored. */
  predicate SnapshotOk(w: World, d: Delivery, before: Record) {
    var ref := RefOf(before.task);
    && d.payload == TaskText(before.task)
    && !Terminal(before.status)
    && InScope(before, ref)
    && ref in w.records
    && w.records[ref].task == before.task
    && before.leaseGeneration <= w.records[ref].leaseGeneration
    && (before.leaseGeneration == w.records[ref].leaseGeneration ==> before.leaseOwner == w.records[ref].leaseOwner)
  }

  predicate Exists(w: World, task: Task) {
    RefOf(task) in w.records && w.records[RefOf(task)].task == task
  }

  /** The lease is no newer than its record. */
  predicate LeaseOk(w: World, l: Lease) {
    && HandedOut(w, l.id, l.receipt, TaskText(l.task))
    && l.receipt.count == l.count
    && Exists(w, l.task)
    && l.generation <= w.records[RefOf(l.task)].leaseGeneration
  }

  predicate Newest(w: World, l: Lease) {
    RefOf(l.task) in w.records && w.records[RefOf(l.task)].leaseGeneration == l.generation
  }

  /** A held lease of the newest generation is the one its record describes. */
  predicate Matches(r: Record, l: Lease) {
    && r.leaseOwner == Some(l.owner)
    && r.leaseMessageId == Some(l.id)
    && r.dequeueCount == l.count
    && (r.status == Leased || r.status == Quarantined)
  }

  predicate HeldOk(w: World, l: Lease) {
    LeaseOk(w, l) && (Newest(w, l) ==> Matches(w.records[RefOf(l.task)], l))
  }

  /** A lease whose newest generation is already finished. */
  predicate SpentOk(w: World, l: Lease) {
    LeaseOk(w, l) && (Newest(w, l) ==> Terminal(w.records[RefOf(l.task)].status))
  }

  predicate ProcOk(w: World, pc: Pc) {
    match pc
    case Received(d) => DeliveryOk(w, d)
    case Loaded(d, before, _) => DeliveryOk(w, d) && SnapshotOk(w, d, before)
    case Discarding(d) => DeliveryOk(w, d)
    case DiscardingTerminal(d, l) => DeliveryOk(w, d) && SpentOk(w, l) && l.id == d.id && l.count == d.count
    case Poisoning(d, _, found) => DeliveryOk(w, d) && (found.Some? ==> SnapshotOk(w, d, found.value))
    case Quarantining(d, _, before) => DeliveryOk(w, d) && SnapshotOk(w, d, before)
    case Deferring(d) => DeliveryOk(w, d)
    case Observing(l, copy) => if copy then SpentOk(w, l) else HeldOk(w, l)
    case Holding(l, _) => HeldOk(w, l)
    case Renewing(l, renewed, _, _) => HeldOk(w, l) && HeldOk(w, l.(receipt := renewed))
    case Acking(l) => SpentOk(w, l)
    case Checking(task) => CanonicalTask(task)
    case Sending(task) => CanonicalTask(task) && Exists(w, task)
    case Rereading(task) => CanonicalTask(task) && Exists(w, task)
    case Marking(task, _) => CanonicalTask(task) && Exists(w, task)
    case CancelReading(_, _, _) => true
    case CancelSwapping(_, _, _, _) => true
  }

  /** The delivery a process answers for. */
  function HopOf(pc: Pc): Option<Hop> {
    match pc
    case Received(d) => Some((d.id, d.count))
    case Loaded(d, _, _) => Some((d.id, d.count))
    case Discarding(d) => Some((d.id, d.count))
    case DiscardingTerminal(d, _) => Some((d.id, d.count))
    case Poisoning(d, _, _) => Some((d.id, d.count))
    case Quarantining(d, _, _) => Some((d.id, d.count))
    case Deferring(d) => Some((d.id, d.count))
    case Observing(l, _) => Some((l.id, l.count))
    case Holding(l, _) => Some((l.id, l.count))
    case Renewing(l, _, _, _) => Some((l.id, l.count))
    case Acking(l) => Some((l.id, l.count))
    case _ => None
  }

  /** No two processes answer for the same delivery. */
  predicate HopsDistinct(procs: map<nat, Pc>) {
    forall p, q :: p in procs && q in procs && p != q && HopOf(procs[p]).Some? ==> HopOf(procs[p]) != HopOf(procs[q])
  }

  ghost predicate Inv(s: State) {
    && WorldOk(s.world)
    && (forall pid :: pid in s.procs ==> ProcOk(s.world, s.procs[pid]))
    && HopsDistinct(s.procs)
  }

  // ---- what one step may do to a record, by the delivery that caused it ----

  predicate Quiet(r: Record, after: Record) {
    && after.leaseGeneration == r.leaseGeneration && after.leaseOwner == r.leaseOwner
    && after.leaseMessageId == r.leaseMessageId && after.dequeueCount == r.dequeueCount
    && (after.status == r.status || after.status == Quarantined)
  }

  predicate ClaimedBy(r: Record, after: Record, hop: Hop) {
    && after.leaseGeneration == r.leaseGeneration + 1
    && after.status == Leased
    && after.leaseMessageId == Some(hop.0) && after.dequeueCount == hop.1
  }

  predicate FinishedBy(r: Record, after: Record, hop: Hop) {
    && after.leaseGeneration == r.leaseGeneration && after.leaseOwner == r.leaseOwner
    && r.leaseMessageId == Some(hop.0) && r.dequeueCount == hop.1
    && after.leaseMessageId == r.leaseMessageId && after.dequeueCount == r.dequeueCount
    && Terminal(after.status)
  }

  predicate Change(r: Record, after: Record, hop: Option<Hop>) {
    && after.task == r.task
    && (Quiet(r, after) || (hop.Some? && (ClaimedBy(r, after, hop.value) || FinishedBy(r, after, hop.value))))
  }

  predicate Redelivered(before: Item, after: Item) {
    after.payload == before.payload && NotNewer(before.receipt, after.receipt)
  }

  predicate RecordsEvolve(w: World, v: World, hop: Option<Hop>) {
    && (forall ref :: ref in w.records ==> ref in v.records && Change(w.records[ref], v.records[ref], hop))
    && (forall ref :: ref in v.records && ref !in w.records ==> v.records[ref].leaseMessageId.None?)
  }

  predicate QueueEvolves(w: World, v: World) {
    && w.nextId <= v.nextId
    && (forall id :: id in v.queue && id < w.nextId ==> id in w.queue && Redelivered(w.queue[id], v.queue[id]))
  }

  predicate Evolves(w: World, v: World, hop: Option<Hop>) {
    RecordsEvolve(w, v, hop) && QueueEvolves(w, v)
  }

  // ---- a process that did not take the step is left in order ----

  lemma {:induction false} DeliveryStable(w: World, v: World, hop: Option<Hop>, d: Delivery)
    requires Evolves(w, v, hop) && DeliveryOk(w, d) && Some((d.id, d.count)) != hop
    ensures DeliveryOk(v, d)
  {
    if d.payload.TaskText? && RefOf(d.payload.task) in w.records {
      assert Change(w.records[RefOf(d.payload.task)], v.records[RefOf(d.payload.task)], hop);
    }
  }

  lemma {:induction false} SnapshotStable(w: World, v: World, hop: Option<Hop>, d: Delivery, before: Record)
    requires Evolves(w, v, hop) && SnapshotOk(w, d, before)
    ensures SnapshotOk(v, d, before)
  {
    assert Change(w.records[RefOf(before.task)], v.records[RefOf(before.task)], hop);
  }

  lemma {:induction false} LeaseStable(w: World, v: World, hop: Option<Hop>, l: Lease)
    requires Evolves(w, v, hop) && LeaseOk(w, l)
    ensures LeaseOk(v, l)
    ensures HeldOk(w, l) && Some((l.id, l.count)) != hop ==> HeldOk(v, l)
    ensures SpentOk(w, l) ==> SpentOk(v, l)
  {
    assert Change(w.records[RefOf(l.task)], v.records[RefOf(l.task)], hop);
  }

  lemma {:induction false} TaskStable(w: World, v: World, hop: Option<Hop>, task: Task)
    requires Evolves(w, v, hop) && Exists(w, task)
    ensures Exists(v, task)
  {
    assert Change(w.records[RefOf(task)], v.records[RefOf(task)], hop);
  }

  lemma {:induction false} ProcStable(w: World, v: World, hop: Option<Hop>, pc: Pc)
    requires Evolves(w, v, hop) && ProcOk(w, pc)
    requires HopOf(pc).Some? ==> HopOf(pc) != hop
    ensures ProcOk(v, pc)
  {
    hide Evolves, DeliveryOk, SnapshotOk, LeaseOk, Exists, Newest;
    match pc
    case Received(d) => DeliveryStable(w, v, hop, d);
    case Loaded(d, before, _) => DeliveryStable(w, v, hop, d); SnapshotStable(w, v, hop, d, before);
    case Discarding(d) => DeliveryStable(w, v, hop, d);
    case DiscardingTerminal(d, l) => DeliveryStable(w, v, hop, d); LeaseStable(w, v, hop, l);
    case Poisoning(d, _, found) =>
      DeliveryStable(w, v, hop, d);
      if found.Some? { SnapshotStable(w, v, hop, d, found.value); }
    case Quarantining(d, _, before) => DeliveryStable(w, v, hop, d); SnapshotStable(w, v, hop, d, before);
    case Deferring(d) => DeliveryStable(w, v, hop, d);
    case Observing(l, _) => LeaseStable(w, v, hop, l);
    case Holding(l, _) => LeaseStable(w, v, hop, l);
    case Renewing(l, renewed, _, _) => LeaseStable(w, v, hop, l); LeaseStable(w, v, hop, l.(receipt := renewed));
    case Acking(l) => LeaseStable(w, v, hop, l);
    case Checking(task) =>
    case Sending(task) => TaskStable(w, v, hop, task);
    case Rereading(task) => TaskStable(w, v, hop, task);
    case Marking(task, _) => TaskStable(w, v, hop, task);
    case _ =>
  }

  /** Where a step may leave its author. */
  predicate PcOk(w: World, pc: Option<Pc>, hop: Option<Hop>) {
    pc.Some? ==> ProcOk(w, pc.value) && (HopOf(pc.value).Some? ==> HopOf(pc.value) == hop)
  }

  /** What a step owes: the world evolves, stays in order, and its author ends in order. */
  predicate EffectOk(w: World, f: Effect, hop: Option<Hop>) {
    Evolves(w, f.world, hop) && WorldOk(f.world) && PcOk(f.world, f.pc, hop)
  }

  // ---- steps that swap one record ----

  lemma {:induction false} OneRecord(w: World, ref: Reference, r: Record, hop: Option<Hop>)
    requires WorldOk(w) && RecordOk(w, ref, r)
    requires if ref in w.records then Change(w.records[ref], r, hop) else r.leaseMessageId.None?
    ensures Evolves(w, w.(records := w.records[ref := r]), hop) && WorldOk(w.(records := w.records[ref := r]))
  {
    var v := w.(records := w.records[ref := r]);
    forall k | k in v.records ensures RecordOk(v, k, v.records[k]) {
      if k != ref { assert RecordOk(w, k, w.records[k]); }
    }
  }

  /** A callback that keeps a record in order, seen from the delivery behind it. */
  predicate KeepsOk(w: World, ref: Reference, m: Mutation, hop: Option<Hop>) {
    ref in w.records && Guarded(m, w.records[ref]).Ok? ==>
      var next := Guarded(m, w.records[ref]).value;
      RecordOk(w, ref, next) && Change(w.records[ref], next, hop)
  }

  function With(w: World, ref: Reference, r: Record): World { w.(records := w.records[ref := r]) }

  lemma {:induction false} SwapOk(w: World, ref: Reference, expected: Identity, m: Mutation, hop: Option<Hop>, done: Option<Pc>,
               refused: Option<Pc>, threw: Option<Pc>)
    requires WorldOk(w) && PcOk(w, refused, hop) && PcOk(w, threw, hop)
    requires ref in w.records && LeaseIdentity(w.records[ref]) == expected ==> KeepsOk(w, ref, m, hop)
    requires ref in w.records && LeaseIdentity(w.records[ref]) == expected && Guarded(m, w.records[ref]).Ok? ==>
      PcOk(With(w, ref, Guarded(m, w.records[ref]).value), done, hop)
    ensures EffectOk(w, Swapping(w, ref, expected, m, done, refused, threw), hop)
  {
    var result := Swap(w.records, ref, expected, m);
    if result.Swapped? { OneRecord(w, ref, result.record, hop); } else { OneWorld(w, hop); }
  }

  lemma {:induction false} OneWorld(w: World, hop: Option<Hop>)
    ensures Evolves(w, w, hop)
  {}

  /** The callbacks that leave owner, generation and delivery alone. */
  lemma {:induction false} QuietKeeps(w: World, ref: Reference, m: Mutation, hop: Option<Hop>)
    requires m.MarkEnqueued? || m.RequestCancel? || m.Quarantine? || m.Renew?
    requires ref in w.records && RecordOk(w, ref, w.records[ref])
    ensures KeepsOk(w, ref, m, hop)
    ensures forall d :: DeliveryOk(w, d) && Guarded(m, w.records[ref]).Ok? ==> DeliveryOk(With(w, ref, Guarded(m, w.records[ref]).value), d)
  {}


  lemma {:induction false} ClaimKeeps(w: World, d: Delivery, before: Record, now: int, owner: string, visibility: int)
    requires DeliveryOk(w, d) && SnapshotOk(w, d, before)
    requires var r := w.records[RefOf(before.task)];
      RecordOk(w, RefOf(before.task), r) && r.leaseGeneration == before.leaseGeneration
    ensures var ref, m := RefOf(before.task), Claim(d.id, d.count, owner, before.leaseGeneration + 1, now, visibility);
      && KeepsOk(w, ref, m, Some((d.id, d.count)))
      && (Guarded(m, w.records[ref]).Ok? ==>
            HeldOk(With(w, ref, Guarded(m, w.records[ref]).value), ClaimedLease(d, before, owner)))
  {}

  lemma {:induction false} FinishKeeps(w: World, l: Lease, outcome: Outcome)
    requires HeldOk(w, l) && RecordOk(w, RefOf(l.task), w.records[RefOf(l.task)])
    ensures var ref, m := RefOf(l.task), MutationOf(l, outcome);
      && KeepsOk(w, ref, m, Some((l.id, l.count)))
      && (Guarded(m, w.records[ref]).Ok? ==> SpentOk(With(w, ref, Guarded(m, w.records[ref]).value), l))
  {}

  lemma {:induction false} CreateOk(w: World, task: Task)
    requires WorldOk(w) && CanonicalTask(task)
    ensures EffectOk(w, CreateEffect(w, task), None)
  {
    if RefOf(task) !in w.records { OneRecord(w, RefOf(task), NewRecord(task), None); } else { OneWorld(w, None); }
  }

  lemma {:induction false} DecideOk(w: World, now: int, d: Delivery, maxDequeue: nat)
    requires WorldOk(w) && DeliveryOk(w, d)
    ensures EffectOk(w, Effect(w, Decide(w, now, d, maxDequeue)), Some((d.id, d.count)))
  {
    OneWorld(w, Some((d.id, d.count)));
    if d.payload.TaskText? && RefOf(d.payload.task) in w.records {
      assert RecordOk(w, RefOf(d.payload.task), w.records[RefOf(d.payload.task)]);
    }
  }

  lemma {:induction false} ClaimOk(w: World, d: Delivery, before: Record, now: int, owner: string, visibility: int)
    requires WorldOk(w) && DeliveryOk(w, d) && SnapshotOk(w, d, before)
    ensures EffectOk(w, ClaimEffect(w, d, before, now, owner, visibility), Some((d.id, d.count)))
  {
    var ref := RefOf(before.task);
    if w.records[ref].leaseGeneration == before.leaseGeneration { ClaimKeeps(w, d, before, now, owner, visibility); }
    SwapOk(w, ref, LeaseIdentity(before), Claim(d.id, d.count, owner, before.leaseGeneration + 1, now, visibility),
      Some((d.id, d.count)), Some(Observing(ClaimedLease(d, before, owner), false)), Some(Discarding(d)), None);
  }

  lemma {:induction false} QuarantineOk(w: World, d: Delivery, reason: string, before: Record)
    requires WorldOk(w) && DeliveryOk(w, d) && SnapshotOk(w, d, before)
    ensures EffectOk(w, Swapping(w, RefOf(before.task), LeaseIdentity(before), Quarantine(reason), Some(Discarding(d)), None, None),
                     Some((d.id, d.count)))
  {
    QuietKeeps(w, RefOf(before.task), Quarantine(reason), Some((d.id, d.count)));
    SwapOk(w, RefOf(before.task), LeaseIdentity(before), Quarantine(reason), Some((d.id, d.count)), Some(Discarding(d)), None, None);
  }

  lemma {:induction false} RenewOk(w: World, now: int, l: Lease, renewed: PopReceipt, checkpoint: Checkpoint, visibility: int)
    requires WorldOk(w) && HeldOk(w, l) && HeldOk(w, l.(receipt := renewed))
    ensures EffectOk(w, RenewEffect(w, now, l, renewed, checkpoint, visibility), Some((l.id, l.count)))
  {
    var ref, hop := RefOf(l.task), Some((l.id, l.count));
    var m := Renew(l.owner, l.generation, checkpoint, now + visibility * 1000);
    QuietKeeps(w, ref, m, hop);
    SwapOk(w, ref, IdentityOf(l), m, hop,
      Some(Holding(l.(receipt := renewed), false)), Some(Holding(l, false)), Some(Holding(l, false)));
  }

  lemma {:induction false} FinishOk(w: World, l: Lease, outcome: Outcome)
    requires WorldOk(w) && HeldOk(w, l)
    ensures EffectOk(w, FinishEffect(w, l, outcome), Some((l.id, l.count)))
  {
    FinishKeeps(w, l, outcome);
    OneWorld(w, Some((l.id, l.count)));
    SwapOk(w, RefOf(l.task), IdentityOf(l), MutationOf(l, outcome), Some((l.id, l.count)), Some(Acking(l)), None, None);
  }

  lemma {:induction false} MarkOk(w: World, task: Task, expected: Identity)
    requires WorldOk(w)
    ensures EffectOk(w, Swapping(w, RefOf(task), expected, MarkEnqueued, None, None, None), None)
  {
    if RefOf(task) in w.records { QuietKeeps(w, RefOf(task), MarkEnqueued, None); }
    SwapOk(w, RefOf(task), expected, MarkEnqueued, None, None, None, None);
  }

  lemma {:induction false} CancelOk(w: World, ref: Reference, reason: string, attempt: nat, expected: Identity)
    requires WorldOk(w)
    ensures EffectOk(w, Swapping(w, ref, expected, RequestCancel(reason), None, Some(CancelReading(ref, reason, attempt + 1)), None), None)
  {
    if ref in w.records { QuietKeeps(w, ref, RequestCancel(reason), None); }
    SwapOk(w, ref, expected, RequestCancel(reason), None, None, Some(CancelReading(ref, reason, attempt + 1)), None);
  }

  // ---- steps that touch the queue ----

  lemma {:induction false} OnlyQueue(w: World, v: World, hop: Option<Hop>)
    requires WorldOk(w) && v.records == w.records && QueueEvolves(w, v)
    requires forall id :: id in v.queue ==> id < v.nextId
    ensures Evolves(w, v, hop) && WorldOk(v)
  {
    forall ref | ref in v.records ensures RecordOk(v, ref, v.records[ref]) {
      assert RecordOk(w, ref, w.records[ref]);
    }
  }

  lemma {:induction false} ReceiveOk(w: World, id: nat)
    requires WorldOk(w) && id in w.queue
    ensures EffectOk(w, ReceiveEffect(w, id), Some((id, w.queue[id].receipt.count + 1)))
  {
    OnlyQueue(w, ReceiveEffect(w, id).world, Some((id, w.queue[id].receipt.count + 1)));
    var p := w.queue[id].payload;
    if p.TaskText? && RefOf(p.task) in w.records { assert RecordOk(w, RefOf(p.task), w.records[RefOf(p.task)]); }
  }

  lemma {:induction false} DeleteOk(w: World, id: nat, receipt: PopReceipt, hop: Option<Hop>)
    requires WorldOk(w)
    ensures EffectOk(w, Effect(Delete(w, id, receipt), None), hop)
  {
    OnlyQueue(w, Delete(w, id, receipt), hop);
  }

  lemma {:induction false} DiscardTerminalOk(w: World, d: Delivery, l: Lease)
    requires WorldOk(w) && SpentOk(w, l) && l.id == d.id && l.count == d.count
    ensures EffectOk(w, DiscardTerminalEffect(w, d, l), Some((d.id, d.count)))
  {
    var v := DiscardTerminalEffect(w, d, l).world;
    OnlyQueue(w, v, None);
    LeaseStable(w, v, None, l);
    OnlyQueue(w, v, Some((d.id, d.count)));
  }

  lemma {:induction false} BeatOk(w: World, l: Lease, checkpoint: Checkpoint, visibility: int)
    requires WorldOk(w) && HeldOk(w, l)
    ensures EffectOk(w, BeatEffect(w, l, checkpoint, visibility), Some((l.id, l.count)))
  {
    var v := BeatEffect(w, l, checkpoint, visibility).world;
    OnlyQueue(w, v, None);
    LeaseStable(w, v, None, l);
    OnlyQueue(w, v, Some((l.id, l.count)));
  }

  lemma {:induction false} SendOk(w: World, payload: Payload)
    requires WorldOk(w)
    ensures Evolves(w, Send(w, payload), None) && WorldOk(Send(w, payload))
  {
    OnlyQueue(w, Send(w, payload), None);
  }

  predicate SwapPc(pc: Pc) { pc.Quarantining? || pc.Renewing? || pc.Marking? || pc.CancelSwapping? }

  lemma {:induction false} SendingOk(w: World, task: Task)
    requires WorldOk(w) && ProcOk(w, Sending(task))
    ensures EffectOk(w, Effect(Send(w, TaskText(task)), Some(Rereading(task))), None)
  {
    SendOk(w, TaskText(task));
    TaskStable(w, Send(w, TaskText(task)), None, task);
  }

  lemma {:induction false} NextOk(w: World, now: int, pc: Pc)
    requires WorldOk(w) && ProcOk(w, pc) && !pc.Received? && !pc.Loaded? && !pc.Holding?
    ensures EffectOk(w, NextEffect(w, now, pc), HopOf(pc))
  {
    if SwapPc(pc) { NextSwapOk(w, now, pc); }
    else if QueuePc(pc) { NextQueueOk(w, now, pc); }
    else { NextReadOk(w, now, pc); }
  }

  lemma {:induction false} NextSwapOk(w: World, now: int, pc: Pc)
    requires WorldOk(w) && ProcOk(w, pc) && SwapPc(pc)
    ensures EffectOk(w, NextEffect(w, now, pc), HopOf(pc))
  {
    match pc
    case Quarantining(d, reason, before) => QuarantineOk(w, d, reason, before);
    case Renewing(l, renewed, checkpoint, visibility) => RenewOk(w, now, l, renewed, checkpoint, visibility);
    case Marking(task, expected) => MarkOk(w, task, expected);
    case CancelSwapping(ref, reason, attempt, expected) => CancelOk(w, ref, reason, attempt, expected);
  }

  lemma {:induction false} NextReadOk(w: World, now: int, pc: Pc)
    requires WorldOk(w) && ProcOk(w, pc) && !pc.Received? && !pc.Loaded? && !pc.Holding?
    requires !SwapPc(pc) && !QueuePc(pc)
    ensures EffectOk(w, NextEffect(w, now, pc), HopOf(pc))
  {
    match pc
    case Observing(l, copy) => ObserveOk(w, l, copy);
    case Checking(task) => CheckOk(w, task);
    case Poisoning(d, reason, found) => PoisonOk(w, d, reason, found);
    case DiscardingTerminal(d, l) => DiscardTerminalOk(w, d, l);
    case Sending(task) => SendingOk(w, task);
    case Rereading(task) => OneWorld(w, None);
  }

  predicate QueuePc(pc: Pc) {
    pc.Discarding? || pc.Acking? || pc.CancelReading? || pc.Deferring?
  }

  lemma {:induction false} NextQueueOk(w: World, now: int, pc: Pc)
    requires WorldOk(w) && ProcOk(w, pc) && QueuePc(pc)
    ensures EffectOk(w, NextEffect(w, now, pc), HopOf(pc))
  {
    match pc
    case Discarding(d) => DeleteOk(w, d.id, FirstReceipt(d), HopOf(pc));
    case Acking(l) => DeleteOk(w, l.id, l.receipt, HopOf(pc));
    case CancelReading(_, _, _) => OneWorld(w, None);
    case Deferring(d) => OnlyQueue(w, Renewed(w, d.id, FirstReceipt(d)), HopOf(pc));
  }

  lemma {:induction false} PoisonOk(w: World, d: Delivery, reason: string, found: Option<Record>)
    requires WorldOk(w) && ProcOk(w, Poisoning(d, reason, found))
    ensures EffectOk(w, PoisonEffect(w, d, reason, found), Some((d.id, d.count)))
  {
    var v := PoisonEffect(w, d, reason, found).world;
    OnlyQueue(w, v, None);
    OnlyQueue(w, v, Some((d.id, d.count)));
    DeliveryStable(w, v, None, d);
    if found.Some? { SnapshotStable(w, v, None, d, found.value); }
  }

  lemma {:induction false} ObserveOk(w: World, l: Lease, copy: bool)
    requires WorldOk(w) && ProcOk(w, Observing(l, copy))
    ensures EffectOk(w, ObserveEffect(w, l), Some((l.id, l.count)))
  {
    OneWorld(w, Some((l.id, l.count)));
    assert LeaseOk(w, l) && Exists(w, l.task);
    if !Terminal(w.records[RefOf(l.task)].status) { assert HeldOk(w, l); }
  }

  lemma {:induction false} CheckOk(w: World, task: Task)
    requires WorldOk(w) && CanonicalTask(task)
    ensures EffectOk(w, CheckEffect(w, task), None)
  {
    OneWorld(w, None);
    if RefOf(task) in w.records { assert RecordOk(w, RefOf(task), w.records[RefOf(task)]); }
  }

  // ---- the invariant ----

  /** The delivery behind an event: the one its process answers for, or the one being handed out. */
  function EventHop(s: State, e: Event): Option<Hop>
    requires Enabled(s, e)
  {
    if e.Receive? then Some((e.id, s.world.queue[e.id].receipt.count + 1))
    else if Actor(e).Some? && Actor(e).value in s.procs then HopOf(s.procs[Actor(e).value])
    else None
  }

  lemma {:induction false} EventOk(s: State, e: Event)
    requires Inv(s) && Enabled(s, e)
    ensures EffectOk(s.world, EffectOf(s, e), EventHop(s, e))
  {
    var w := s.world;
    OneWorld(w, EventHop(s, e));
    match e
    case Expire(id) => OnlyQueue(w, EffectOf(s, e).world, None);
    case Inject(payload) => SendOk(w, payload);
    case StartEnqueue(_, task) => CreateOk(w, task);
    case Receive(_, id) => ReceiveOk(w, id);
    case Load(pid, maxDequeue) => DecideOk(w, s.clock, s.procs[pid].d, maxDequeue);
    case TryClaim(pid, owner, visibility) =>
      var pc := s.procs[pid];
      ClaimOk(w, pc.d, pc.snapshot, pc.now, owner, visibility);
    case Beat(pid, checkpoint, visibility) => BeatOk(w, s.procs[pid].lease, checkpoint, visibility);
    case Finish(pid, outcome) => FinishOk(w, s.procs[pid].lease, outcome);
    case Next(pid) => NextOk(w, s.clock, s.procs[pid]);
    case _ =>
  }

  /** A delivery is handed out once: nobody answers for the one a receive creates. */
  lemma {:induction false} HopFresh(s: State, e: Event, q: nat)
    requires Inv(s) && Enabled(s, e) && q in s.procs && Actor(e) != Some(q)
    ensures HopOf(s.procs[q]).Some? ==> HopOf(s.procs[q]) != EventHop(s, e)
  {
    assert ProcOk(s.world, s.procs[q]);
  }

  lemma {:induction false} InvKept(s: State, e: Event)
    requires Inv(s) && Enabled(s, e)
    ensures Inv(Step(s, e))
  {
    var t, hop := Step(s, e), EventHop(s, e);
    EventOk(s, e);
    forall q | q in t.procs && Actor(e) != Some(q)
      ensures q in s.procs && t.procs[q] == s.procs[q] && ProcOk(t.world, t.procs[q])
      ensures HopOf(t.procs[q]).Some? ==> HopOf(t.procs[q]) != hop
    {
      HopFresh(s, e, q);
      ProcStable(s.world, t.world, hop, s.procs[q]);
    }
  }

  lemma {:induction false} InvAlways(s: State, es: seq<Event>)
    requires Inv(s) && IsRun(s, es)
    ensures Inv(Run(s, es))
    decreases |es|
  {
    if es != [] {
      InvKept(s, es[0]);
      InvAlways(Step(s, es[0]), es[1..]);
    }
  }
}
