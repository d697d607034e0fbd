/** Whole histories of calls on the queue that migrates as it goes, beside the same calls where every
  * v1 record had been migrated from the start: exactly which calls tell the two apart. */
module DispatchMigrationRuns {
  import opened Prelude
  import ToolMerge
  import opened DispatchRecords
  import opened DispatchProtocol
  import opened DispatchQueue
  import opened DispatchMigration

  datatype Call =
    | LeaseOf(id: nat, now: int, maxDequeue: nat, owner: string, visibility: int)
    | HeartbeatOf(lease: Lease, now: int, checkpoint: Checkpoint, visibility: int)
    | FinishOf(lease: Lease, outcome: Outcome)
    | CancelOf(ref: Reference, reason: string)
    | EnqueueOf(task: Task)

  /** What a call leaves behind and hands out, and whether it throws. */
  datatype Reply = Reply(world: World, given: Option<Lease>, refused: bool)

  function BeatAnswer(w: World, l: Lease, m: Mutation): Reply {
    if l.generation < 1 || !Current(w.queue, l.id, l.receipt) then Reply(w, Option.None, true)
    else Reply(Swapped0(Renewed(w, l.id, l.receipt), RefOf(l.task), IdentityOf(l), m), Option.None,
               !Swap(w.records, RefOf(l.task), IdentityOf(l), m).Swapped?)
  }

  function FinishAnswer(w: World, l: Lease, m: Mutation): Reply {
    if l.generation < 1 || !Swap(w.records, RefOf(l.task), IdentityOf(l), m).Swapped? then Reply(w, Option.None, true)
    else Reply(Delete(Swapped0(w, RefOf(l.task), IdentityOf(l), m), l.id, l.receipt), Option.None, !Current(w.queue, l.id, l.receipt))
  }

  /** A record that is not there is an error; a finished one is left alone. */
  function CancelAnswer(w: World, ref: Reference, reason: string): Reply {
    if ref !in w.records then Reply(w, Option.None, true)
    else if Terminal(w.records[ref].status) then Reply(w, Option.None, false)
    else Reply(Swapped0(w, ref, LeaseIdentity(w.records[ref]), RequestCancel(reason)), Option.None,
               !Swap(w.records, ref, LeaseIdentity(w.records[ref]), RequestCancel(reason)).Swapped?)
  }

  predicate Conflicts(r: Record, task: Task) { r.requestHash != Hash(task) || r.idempotencyKey != task.request.idempotencyKey }

  function EnqueueAnswer(w: World, task: Task): Reply {
    if !CanonicalTask(task) then Reply(w, Option.None, true)
    else Reply(EnqueueCall(w, task).world, Option.None, RefOf(task) in w.records && Conflicts(w.records[RefOf(task)], task))
  }

  function AnswerOf(w: World, c: Call): Reply
    requires !c.LeaseOf?
  {
    match c
    case HeartbeatOf(l, now, checkpoint, visibility) =>
      if !ToolMerge.Accepted(checkpoint.tools) then Reply(w, Option.None, true)
      else BeatAnswer(w, l, Renew(l.owner, l.generation, checkpoint, now + visibility * 1000))
    case FinishOf(l, outcome) => FinishAnswer(w, l, MutationOf(l, outcome))
    case CancelOf(ref, reason) => CancelAnswer(w, ref, reason)
    case EnqueueOf(task) => EnqueueAnswer(w, task)
  }

  /** A call on the queue that migrates as it goes. */
  function Migrating(w: World, legacy: Legacy, modes: map<Request, Mode>, c: Call): Reply
    requires c.LeaseOf? ==> c.id in w.queue
  {
    if !c.LeaseOf? then AnswerOf(w, c)
    else
      var got := ReceiveEffect(w, c.id);
      var f := DecidedWith(got.world, legacy, modes, c.now, got.pc.value.d, c.maxDequeue, c.owner, c.visibility);
      Reply(f.world, GivenLease(f.pc), false)
  }

  /** The same call where everything had been v2 from the start. */
  function Plain(v: World, c: Call): Reply
    requires c.LeaseOf? ==> c.id in v.queue
  {
    if !c.LeaseOf? then AnswerOf(v, c)
    else
      var got := ReceiveEffect(v, c.id);
      var f := Decided(got.world, c.now, got.pc.value.d, c.maxDequeue, c.owner, c.visibility);
      Reply(f.world, GivenLease(f.pc), false)
  }

  /** The two replies cannot be told apart, and the worlds stay in step. */
  predicate SameReply(f: Reply, g: Reply, legacy: Legacy, modes: map<Request, Mode>) {
    f.given == g.given && f.refused == g.refused && Shadows(f.world, g.world, legacy, modes)
  }

  predicate Takes(r: Record, expected: Identity, m: Mutation) { LeaseIdentity(r) == expected && Guarded(m, r).Ok? }

  predicate Changes(r: Record, m: Mutation) { Guarded(m, r) != Ok(r) }

  /** A message with v1 text for this reference, whose mode the server knows. */
  predicate Waiting(w: World, modes: map<Request, Mode>, ref: Reference) {
    exists id :: id in w.queue && w.queue[id].payload.LegacyText? && w.queue[id].payload.request.ref == ref && w.queue[id].payload.request in modes
  }

  /** The calls that tell a queue with work still to be migrated from one without: v2 text for such work, a
    * lease, cancellation or enqueue of such work (unless the v1 record is like new), and an enqueue that gives
    * a v1 message the record it has been waiting for. */
  predicate TellsApart(w: World, legacy: Legacy, modes: map<Request, Mode>, c: Call) {
    match c
    case LeaseOf(id, _, _, _, _) => id in w.queue && Overlooked(w.queue[id].payload, w, legacy, modes)
    case HeartbeatOf(l, now, checkpoint, visibility) =>
      && Pending(w, legacy, modes, RefOf(l.task)) && l.generation >= 1 && ToolMerge.Accepted(checkpoint.tools)
      && Current(w.queue, l.id, l.receipt)
      && Takes(Upgraded(legacy, modes, RefOf(l.task)), IdentityOf(l), Renew(l.owner, l.generation, checkpoint, now + visibility * 1000))
    case FinishOf(l, outcome) =>
      && Pending(w, legacy, modes, RefOf(l.task)) && l.generation >= 1
      && Takes(Upgraded(legacy, modes, RefOf(l.task)), IdentityOf(l), MutationOf(l, outcome))
      && (Current(w.queue, l.id, l.receipt) || Changes(Upgraded(legacy, modes, RefOf(l.task)), MutationOf(l, outcome)))
    case CancelOf(ref, _) => Pending(w, legacy, modes, ref)
    case EnqueueOf(task) =>
      var ref := RefOf(task);
      && CanonicalTask(task)
      && (if Pending(w, legacy, modes, ref) then Upgraded(legacy, modes, ref) != NewRecord(task)
          else ref !in w.records && ref !in legacy && Waiting(w, modes, ref))
  }

  predicate Numbered(w: World) { forall id :: id in w.queue ==> id < w.nextId }

  // ---- swaps in both worlds ----

  lemma {:induction false} SwapsAlike(w: World, v: World, legacy: Legacy, modes: map<Request, Mode>, ref: Reference, expected: Identity, m: Mutation)
    requires Shadows(w, v, legacy, modes)
    ensures ref in w.records ==>
      && Swap(v.records, ref, expected, m) == Swap(w.records, ref, expected, m)
      && Shadows(Swapped0(w, ref, expected, m), Swapped0(v, ref, expected, m), legacy, modes)
    ensures ref !in w.records ==>
      && Swapped0(w, ref, expected, m) == w && !Swap(w.records, ref, expected, m).Swapped?
      && (Swap(v.records, ref, expected, m).Swapped? <==>
            Pending(w, legacy, modes, ref) && Takes(Upgraded(legacy, modes, ref), expected, m))
      && (!Swap(v.records, ref, expected, m).Swapped? ==> Swapped0(v, ref, expected, m) == v)
  {
    if ref in w.records { SwapShadows(w, v, legacy, modes, ref, expected, m); }
    assert v.records == ShadowRecords(w.records, legacy, modes);
    hide ShadowQueue;
  }

  lemma {:induction false} RenewKeepsRecords(w: World, id: nat, receipt: PopReceipt)
    ensures Renewed(w, id, receipt).records == w.records
  {}

  lemma {:induction false} BeatTells(w: World, v: World, legacy: Legacy, modes: map<Request, Mode>, l: Lease, m: Mutation)
    requires Shadows(w, v, legacy, modes)
    ensures SameReply(BeatAnswer(w, l, m), BeatAnswer(v, l, m), legacy, modes) <==>
      !(Pending(w, legacy, modes, RefOf(l.task)) && l.generation >= 1 && Current(w.queue, l.id, l.receipt)
        && Takes(Upgraded(legacy, modes, RefOf(l.task)), IdentityOf(l), m))
  {
    hide Shadows, Swap, Renewed, Swapped0, Takes;
    CurrentShadows(w, v, legacy, modes, l.id, l.receipt);
    RenewShadows(w, v, legacy, modes, l.id, l.receipt);
    RenewKeepsRecords(w, l.id, l.receipt);
    RenewKeepsRecords(v, l.id, l.receipt);
    SwapsAlike(Renewed(w, l.id, l.receipt), Renewed(v, l.id, l.receipt), legacy, modes, RefOf(l.task), IdentityOf(l), m);
  }

  lemma {:induction false} RecordAlike(w: World, v: World, legacy: Legacy, modes: map<Request, Mode>, ref: Reference)
    requires Shadows(w, v, legacy, modes)
    ensures ref in w.records ==> ref in v.records && v.records[ref] == w.records[ref]
    ensures ref !in w.records ==> (ref in v.records <==> Pending(w, legacy, modes, ref))
    ensures Pending(w, legacy, modes, ref) ==> ref in v.records && v.records[ref] == Upgraded(legacy, modes, ref)
  {
    hide ShadowQueue;
  }

  lemma {:induction false} FinishStored(w: World, v: World, legacy: Legacy, modes: map<Request, Mode>, l: Lease, m: Mutation)
    requires Shadows(w, v, legacy, modes) && RefOf(l.task) in w.records
    ensures SameReply(FinishAnswer(w, l, m), FinishAnswer(v, l, m), legacy, modes)
  {
    hide Shadows, Swap, Swapped0, Delete, Takes;
    var ref := RefOf(l.task);
    SwapsAlike(w, v, legacy, modes, ref, IdentityOf(l), m);
    CurrentShadows(w, v, legacy, modes, l.id, l.receipt);
    DeleteShadows(Swapped0(w, ref, IdentityOf(l), m), Swapped0(v, ref, IdentityOf(l), m), legacy, modes, l.id, l.receipt);
  }

  /** Finishing work the store has not: refused here; elsewhere refused too, without a trace, unless
    * the swap takes. */
  lemma {:induction false} FinishMissing(w: World, v: World, legacy: Legacy, modes: map<Request, Mode>, l: Lease, m: Mutation)
    requires Shadows(w, v, legacy, modes) && RefOf(l.task) !in w.records && l.generation >= 1
    requires Swap(v.records, RefOf(l.task), IdentityOf(l), m).Swapped? && !Current(v.queue, l.id, l.receipt)
    requires Pending(w, legacy, modes, RefOf(l.task))
    ensures SameReply(FinishAnswer(w, l, m), FinishAnswer(v, l, m), legacy, modes) <==> !Changes(Upgraded(legacy, modes, RefOf(l.task)), m)
  {
    hide Shadows, Guarded, Upgradable, Upgraded;
    var ref := RefOf(l.task);
    RecordAlike(w, v, legacy, modes, ref);
    var r, g := Upgraded(legacy, modes, ref), FinishAnswer(v, l, m);
    assert g == Reply(v.(records := v.records[ref := Guarded(m, r).value]), Option.None, true);
    if Changes(r, m) {
      if Shadows(w, g.world, legacy, modes) { RecordAlike(w, g.world, legacy, modes, ref); }
    } else {
      assert g.world == v;
    }
  }

  lemma {:induction false} FinishTells(w: World, v: World, legacy: Legacy, modes: map<Request, Mode>, l: Lease, m: Mutation)
    requires Shadows(w, v, legacy, modes)
    ensures SameReply(FinishAnswer(w, l, m), FinishAnswer(v, l, m), legacy, modes) <==>
      !(Pending(w, legacy, modes, RefOf(l.task)) && l.generation >= 1 && Takes(Upgraded(legacy, modes, RefOf(l.task)), IdentityOf(l), m)
        && (Current(w.queue, l.id, l.receipt) || Changes(Upgraded(legacy, modes, RefOf(l.task)), m)))
  {
    hide Shadows, Swap, Swapped0, Delete, Takes, Changes, Upgraded;
    var ref := RefOf(l.task);
    SwapsAlike(w, v, legacy, modes, ref, IdentityOf(l), m);
    CurrentShadows(w, v, legacy, modes, l.id, l.receipt);
    if ref in w.records {
      FinishStored(w, v, legacy, modes, l, m);
    } else if l.generation >= 1 && Swap(v.records, ref, IdentityOf(l), m).Swapped? && !Current(w.queue, l.id, l.receipt) {
      FinishMissing(w, v, legacy, modes, l, m);
    }
  }

  lemma {:induction false} IntentTakes(r: Record, reason: string)
    requires Canonical(r)
    ensures Takes(r, LeaseIdentity(r), RequestCancel(reason))
  {}

  lemma {:induction false} CancelTells(w: World, v: World, legacy: Legacy, modes: map<Request, Mode>, ref: Reference, reason: string)
    requires Shadows(w, v, legacy, modes)
    ensures SameReply(CancelAnswer(w, ref, reason), CancelAnswer(v, ref, reason), legacy, modes) <==> !Pending(w, legacy, modes, ref)
  {
    RecordAlike(w, v, legacy, modes, ref);
    if Pending(w, legacy, modes, ref) {
      UpgradedInScope(legacy, modes, ref);
      IntentTakes(v.records[ref], reason);
    }
    hide Shadows, Swapped0, Guarded, Pending;
    if ref in w.records { SwapsAlike(w, v, legacy, modes, ref, LeaseIdentity(w.records[ref]), RequestCancel(reason)); }
  }

  // ---- enqueue() ----

  /** Sending and marking work that both worlds have. */
  lemma {:induction false} SendShadows(w: World, v: World, legacy: Legacy, modes: map<Request, Mode>, task: Task)
    requires Shadows(w, v, legacy, modes) && RefOf(task) in w.records && InScope(w.records[RefOf(task)], RefOf(task))
    ensures Shadows(SendAndMark(w, task), SendAndMark(v, task), legacy, modes)
  {
    var ref := RefOf(task);
    var item := Item(TaskText(task), PopReceipt(0, 0), true);
    ItemShadows(w, v, legacy, modes, w.nextId, item);
    var w1, v1 := Send(w, TaskText(task)), Send(v, TaskText(task));
    assert Shadows(w1, v1, legacy, modes);
    RecordAlike(w, v, legacy, modes, ref);
    hide Shadows, Send;
    assert w1.records == w.records && v1.records == v.records by { SendKeepsRecords(w, task); SendKeepsRecords(v, task); }
    WriteShadows(w1, v1, legacy, modes, ref, w.records[ref].(enqueued := true));
  }

  lemma {:induction false} SendKeepsRecords(w: World, task: Task)
    ensures Send(w, TaskText(task)).records == w.records
  {}

  /** A record new to both worlds changes no text, unless v1 text has been waiting for it. */
  lemma {:induction false} NewShadows(w: World, v: World, legacy: Legacy, modes: map<Request, Mode>, ref: Reference, r: Record)
    requires Shadows(w, v, legacy, modes) && ref !in w.records && !Pending(w, legacy, modes, ref) && (ref in legacy || !Waiting(w, modes, ref))
    ensures Shadows(With(w, ref, r), With(v, ref, r), legacy, modes)
  {
    hide Matching, Upgraded;
    var q := ShadowQueue(w.queue, w.records[ref := r], legacy, modes);
    forall id | id in w.queue ensures q[id] == ShadowItem(w.queue[id], w.records, legacy, modes) {
      var p := w.queue[id].payload;
      assert ShadowText(p, w.records[ref := r], legacy, modes) == ShadowText(p, w.records, legacy, modes);
    }
    assert q == ShadowQueue(w.queue, w.records, legacy, modes);
    assert ShadowRecords(w.records[ref := r], legacy, modes) == ShadowRecords(w.records, legacy, modes)[ref := r];
  }

  lemma {:induction false} NewInScope(task: Task)
    requires CanonicalTask(task)
    ensures InScope(NewRecord(task), RefOf(task))
  {}

  lemma {:induction false} EnqueueIs(w: World, task: Task)
    ensures EnqueueCall(w, task).world ==
      if RefOf(task) in w.records then (if Refuses(w, task) then w else SendAndMark(w, task))
      else SendAndMark(With(w, RefOf(task), NewRecord(task)), task)
  {
    EnqueueCallIs(w, task);
    hide SendAndMark;
  }

  /** Work that the store has: the same in both worlds. */
  lemma {:induction false} EnqueueKnown(w: World, v: World, legacy: Legacy, modes: map<Request, Mode>, task: Task)
    requires Shadows(w, v, legacy, modes) && InOrder(w) && RefOf(task) in w.records
    ensures SameReply(EnqueueAnswer(w, task), EnqueueAnswer(v, task), legacy, modes)
  {
    RecordAlike(w, v, legacy, modes, RefOf(task));
    EnqueueIs(w, task);
    EnqueueIs(v, task);
    assert InScope(w.records[RefOf(task)], RefOf(task));
    hide Shadows, SendAndMark, EnqueueCall;
    SendShadows(w, v, legacy, modes, task);
  }

  /** Work that is new, or like new, to both. */
  lemma {:induction false} EnqueueNew(w: World, v: World, legacy: Legacy, modes: map<Request, Mode>, task: Task)
    requires Shadows(w, v, legacy, modes) && CanonicalTask(task) && RefOf(task) !in w.records
    requires if Pending(w, legacy, modes, RefOf(task)) then Upgraded(legacy, modes, RefOf(task)) == NewRecord(task)
             else RefOf(task) in legacy || !Waiting(w, modes, RefOf(task))
    ensures SameReply(EnqueueAnswer(w, task), EnqueueAnswer(v, task), legacy, modes)
  {
    var ref := RefOf(task);
    RecordAlike(w, v, legacy, modes, ref);
    EnqueueIs(w, task);
    EnqueueIs(v, task);
    NewInScope(task);
    hide Shadows, SendAndMark, EnqueueCall, InScope, Waiting;
    if Pending(w, legacy, modes, ref) {
      CreateShadows(w, v, legacy, modes, ref);
      SendShadows(With(w, ref, NewRecord(task)), v, legacy, modes, task);
    } else {
      NewShadows(w, v, legacy, modes, ref, NewRecord(task));
      SendShadows(With(w, ref, NewRecord(task)), With(v, ref, NewRecord(task)), legacy, modes, task);
    }
  }

  /** Work that is still v1, and not like new: a second record beside it, which the shadow refuses
    * or cannot match. */
  lemma {:induction false} EnqueuePending(w: World, v: World, legacy: Legacy, modes: map<Request, Mode>, task: Task)
    requires Shadows(w, v, legacy, modes) && CanonicalTask(task) && Pending(w, legacy, modes, RefOf(task))
    requires Upgraded(legacy, modes, RefOf(task)) != NewRecord(task)
    ensures !SameReply(EnqueueAnswer(w, task), EnqueueAnswer(v, task), legacy, modes)
  {
    var ref := RefOf(task);
    RecordAlike(w, v, legacy, modes, ref);
    EnqueueIs(w, task);
    EnqueueIs(v, task);
    NewInScope(task);
    UpgradedInScope(legacy, modes, ref);
    var f, g := EnqueueAnswer(w, task), EnqueueAnswer(v, task);
    assert f.world.records[ref] == NewRecord(task).(enqueued := true) && f.world.nextId == w.nextId + 1;
    if Refuses(v, task) {
      assert g.world == v;
    } else {
      assert g.world.records[ref] == Upgraded(legacy, modes, ref).(enqueued := true);
      assert !Upgraded(legacy, modes, ref).enqueued;
      if SameReply(f, g, legacy, modes) { RecordAlike(f.world, g.world, legacy, modes, ref); }
    }
  }

  /** A v1 message that waited for a record can now be leased; its shadow keeps being deferred. */
  lemma {:induction false} EnqueueWaiting(w: World, v: World, legacy: Legacy, modes: map<Request, Mode>, task: Task)
    requires Shadows(w, v, legacy, modes) && CanonicalTask(task) && Numbered(w)
    requires RefOf(task) !in w.records && RefOf(task) !in legacy && Waiting(w, modes, RefOf(task))
    ensures !SameReply(EnqueueAnswer(w, task), EnqueueAnswer(v, task), legacy, modes)
  {
    var ref := RefOf(task);
    RecordAlike(w, v, legacy, modes, ref);
    EnqueueIs(w, task);
    EnqueueIs(v, task);
    NewInScope(task);
    var f, g := EnqueueAnswer(w, task), EnqueueAnswer(v, task);
    var id :| id in w.queue && w.queue[id].payload.LegacyText? && w.queue[id].payload.request.ref == ref && w.queue[id].payload.request in modes;
    assert f.world.queue[id] == w.queue[id] && ref in f.world.records;
    assert v.queue[id].payload == w.queue[id].payload && g.world.queue[id] == v.queue[id];
    assert ShadowItem(f.world.queue[id], f.world.records, legacy, modes).payload.TaskText?;
    hide Shadows, EnqueueCall, EnqueueAnswer, SendAndMark;
    if SameReply(f, g, legacy, modes) { ItemIs(f.world, g.world, legacy, modes, id); }
  }

  lemma {:induction false} ItemIs(w: World, v: World, legacy: Legacy, modes: map<Request, Mode>, id: nat)
    requires Shadows(w, v, legacy, modes) && id in w.queue
    ensures id in v.queue && v.queue[id] == ShadowItem(w.queue[id], w.records, legacy, modes)
  {}

  lemma {:induction false} EnqueueTells(w: World, v: World, legacy: Legacy, modes: map<Request, Mode>, task: Task)
    requires Shadows(w, v, legacy, modes) && InOrder(w) && Numbered(w)
    ensures SameReply(EnqueueAnswer(w, task), EnqueueAnswer(v, task), legacy, modes) <==> !TellsApart(w, legacy, modes, EnqueueOf(task))
  {
    hide Shadows, EnqueueCall, InOrder, Numbered, Waiting;
    var ref := RefOf(task);
    if !CanonicalTask(task) {
    } else if ref in w.records {
      EnqueueKnown(w, v, legacy, modes, task);
    } else if TellsApart(w, legacy, modes, EnqueueOf(task)) {
      if Pending(w, legacy, modes, ref) { EnqueuePending(w, v, legacy, modes, task); } else { EnqueueWaiting(w, v, legacy, modes, task); }
    } else {
      EnqueueNew(w, v, legacy, modes, task);
    }
  }

  // ---- lease() ----

  lemma {:induction false} ReceiveShadows(w: World, v: World, legacy: Legacy, modes: map<Request, Mode>, id: nat)
    requires Shadows(w, v, legacy, modes) && id in w.queue
    ensures id in v.queue && Shadows(ReceiveEffect(w, id).world, ReceiveEffect(v, id).world, legacy, modes)
    ensures ReceiveEffect(v, id).pc.value.d == ShadowDelivery(ReceiveEffect(w, id).pc.value.d, ReceiveEffect(w, id).world, legacy, modes)
  {
    var item := w.queue[id];
    ItemShadows(w, v, legacy, modes, id, Item(item.payload, PopReceipt(item.receipt.count + 1, 0), false));
  }

  /** The v2 text of work that is still v1 is poisoned; where the record exists it is leased,
    * discarded or settled. */
  lemma {:induction false} OverlookedTells(w: World, v: World, legacy: Legacy, modes: map<Request, Mode>, now: int, d: Delivery, maxDequeue: nat,
                     owner: string, visibility: int)
    requires Shadows(w, v, legacy, modes) && Overlooked(d.payload, w, legacy, modes) && Current(w.queue, d.id, FirstReceipt(d))
    ensures var f, g := Decided(w, now, d, maxDequeue, owner, visibility), Decided(v, now, d, maxDequeue, owner, visibility);
      !(Shadows(f.world, g.world, legacy, modes) && GivenLease(f.pc) == GivenLease(g.pc))
  {
    var ref := RefOf(d.payload.task);
    var r := Upgraded(legacy, modes, ref);
    RecordAlike(w, v, legacy, modes, ref);
    UpgradedInScope(legacy, modes, ref);
    CurrentShadows(w, v, legacy, modes, d.id, FirstReceipt(d));
    var f, g := Decided(w, now, d, maxDequeue, owner, visibility), Decided(v, now, d, maxDequeue, owner, visibility);
    assert Decide(w, now, d, maxDequeue) == Some(Poisoning(d, "unknown or mismatched", Option.None));
    assert f == Effect(Poisoned(w, d, "unknown or mismatched", Option.None), Option.None);
    assert |f.world.poison| == |w.poison| + 1 && f.world.records == w.records && |v.poison| == |w.poison|;
    hide Shadows, InScope, Overlooked, Upgraded;
    if Terminal(r.status) {
      assert GivenLease(g.pc).Some?;
    } else if d.count > maxDequeue {
      QuarantineParts(w, v, legacy, modes, d, f.world, g.world);
    } else if LiveLease(r, now) && !SameMessageRedelivery(r, d.id, d.count) {
      assert g.world.poison == v.poison;
      if Shadows(f.world, g.world, legacy, modes) { PoisonIs(f.world, g.world, legacy, modes); }
    } else {
      ClaimGives(v, d, r, now, owner, visibility);
    }
  }

  lemma {:induction false} PoisonIs(w: World, v: World, legacy: Legacy, modes: map<Request, Mode>)
    requires Shadows(w, v, legacy, modes)
    ensures |v.poison| == |w.poison|
  {}

  lemma {:induction false} QuarantineParts(w: World, v: World, legacy: Legacy, modes: map<Request, Mode>, d: Delivery, w1: World, v1: World)
    requires Overlooked(d.payload, w, legacy, modes) && w1.records == w.records
    requires var r := Upgraded(legacy, modes, RefOf(d.payload.task));
      && RefOf(d.payload.task) in v.records && v.records[RefOf(d.payload.task)] == r && InScope(r, RefOf(d.payload.task)) && !Terminal(r.status)
      && v1 == Poisoned(v, d, "maximum dequeue count", Some(r))
    ensures !Shadows(w1, v1, legacy, modes)
  {
    var ref := RefOf(d.payload.task);
    var r := Upgraded(legacy, modes, ref);
    assert Swap(v.records, ref, LeaseIdentity(r), Quarantine("maximum dequeue count")).Swapped?;
    assert v1.records[ref].status == Quarantined;
    if Shadows(w1, v1, legacy, modes) { RecordAlike(w1, v1, legacy, modes, ref); }
  }

  lemma {:induction false} ClaimGives(v: World, d: Delivery, r: Record, now: int, owner: string, visibility: int)
    requires RefOf(r.task) in v.records && v.records[RefOf(r.task)] == r && Canonical(r)
    requires !(LiveLease(r, now) && !SameMessageRedelivery(r, d.id, d.count))
    ensures GivenLease(Claimed(v, d, r, now, owner, visibility).pc).Some?
  {
    assert Swap(v.records, RefOf(r.task), LeaseIdentity(r), Claim(d.id, d.count, owner, r.leaseGeneration + 1, now, visibility)).Swapped?;
  }

  lemma {:induction false} LeaseTells(w: World, v: World, legacy: Legacy, modes: map<Request, Mode>, c: Call)
    requires Shadows(w, v, legacy, modes) && InOrder(w) && c.LeaseOf? && c.id in w.queue
    ensures c.id in v.queue
    ensures SameReply(Migrating(w, legacy, modes, c), Plain(v, c), legacy, modes) <==> !TellsApart(w, legacy, modes, c)
  {
    ReceiveShadows(w, v, legacy, modes, c.id);
    var got := ReceiveEffect(w, c.id);
    var d, w1, v1 := got.pc.value.d, got.world, ReceiveEffect(v, c.id).world;
    assert Overlooked(d.payload, w1, legacy, modes) == Overlooked(w.queue[c.id].payload, w, legacy, modes);
    assert Current(w1.queue, d.id, FirstReceipt(d)) && InOrder(w1);
    hide Shadows, Decided, DecidedWith, Overlooked, InOrder, ShadowText;
    if Overlooked(d.payload, w1, legacy, modes) {
      TextOfTask(d.payload, w1, legacy, modes);
      OverlookedTells(w1, v1, legacy, modes, c.now, d, c.maxDequeue, c.owner, c.visibility);
      PlainText(w1, legacy, modes, c, d);
    } else {
      LeaseShadows(w1, v1, legacy, modes, c.now, d, c.maxDequeue, c.owner, c.visibility);
    }
  }

  lemma {:induction false} TextOfTask(p: Payload, w: World, legacy: Legacy, modes: map<Request, Mode>)
    requires Overlooked(p, w, legacy, modes)
    ensures p.TaskText? && ShadowText(p, w.records, legacy, modes) == p
  {}

  lemma {:induction false} PlainText(w: World, legacy: Legacy, modes: map<Request, Mode>, c: Call, d: Delivery)
    requires c.LeaseOf? && d.payload.TaskText?
    ensures DecidedWith(w, legacy, modes, c.now, d, c.maxDequeue, c.owner, c.visibility) == Decided(w, c.now, d, c.maxDequeue, c.owner, c.visibility)
  {}

  // ---- call by call ----

  /** The queue that migrates as it goes and its shadow answer a call alike and stay in step, if and
    * only if it is not one of the calls that tell them apart. */
  lemma {:induction false} ToldApartExactly(w: World, v: World, legacy: Legacy, modes: map<Request, Mode>, c: Call)
    requires Shadows(w, v, legacy, modes) && InOrder(w) && Numbered(w) && (c.LeaseOf? ==> c.id in w.queue)
    ensures c.LeaseOf? ==> c.id in v.queue
    ensures SameReply(Migrating(w, legacy, modes, c), Plain(v, c), legacy, modes) <==> !TellsApart(w, legacy, modes, c)
  {
    hide Shadows, InOrder, Numbered, BeatAnswer, FinishAnswer, CancelAnswer, EnqueueAnswer, Takes, Overlooked, Waiting, SameReply;
    match c
    case LeaseOf(_, _, _, _, _) => LeaseTells(w, v, legacy, modes, c);
    case HeartbeatOf(l, now, checkpoint, visibility) =>
      BeatTells(w, v, legacy, modes, l, Renew(l.owner, l.generation, checkpoint, now + visibility * 1000));
      SameRefusal(w, v, legacy, modes);
    case FinishOf(l, outcome) => FinishTells(w, v, legacy, modes, l, MutationOf(l, outcome));
    case CancelOf(ref, reason) => CancelTells(w, v, legacy, modes, ref, reason);
    case EnqueueOf(task) => EnqueueTells(w, v, legacy, modes, task);
  }

  lemma {:induction false} SameRefusal(w: World, v: World, legacy: Legacy, modes: map<Request, Mode>)
    requires Shadows(w, v, legacy, modes)
    ensures SameReply(Reply(w, Option.None, true), Reply(v, Option.None, true), legacy, modes)
  {}

  lemma {:induction false} SwapInOrder(records: map<Reference, Record>, ref: Reference, expected: Identity, m: Mutation)
    requires forall k :: k in records ==> InScope(records[k], k)
    ensures var after := Store(records, ref, Swap(records, ref, expected, m)); forall k :: k in after ==> InScope(after[k], k)
  {}

  lemma {:induction false} EnqueueInOrder(w: World, task: Task)
    requires InOrder(w) && CanonicalTask(task)
    ensures InOrder(EnqueueCall(w, task).world)
  {
    EnqueueIs(w, task);
    NewInScope(task);
    hide EnqueueCall;
  }

  /** Calls never put a record out of its scope. */
  lemma {:induction false} CallInOrder(w: World, legacy: Legacy, modes: map<Request, Mode>, c: Call)
    requires InOrder(w) && (c.LeaseOf? ==> c.id in w.queue)
    ensures InOrder(Migrating(w, legacy, modes, c).world)
  {
    hide Swap, EnqueueCall;
    match c
    case LeaseOf(id, now, maxDequeue, owner, visibility) =>
      var got := ReceiveEffect(w, id);
      LeaseInOrder(got.world, legacy, modes, now, got.pc.value.d, maxDequeue, owner, visibility);
    case HeartbeatOf(l, now, checkpoint, visibility) =>
      RenewKeepsRecords(w, l.id, l.receipt);
      SwapInOrder(w.records, RefOf(l.task), IdentityOf(l), Renew(l.owner, l.generation, checkpoint, now + visibility * 1000));
    case FinishOf(l, outcome) => SwapInOrder(w.records, RefOf(l.task), IdentityOf(l), MutationOf(l, outcome));
    case CancelOf(ref, reason) => if ref in w.records { SwapInOrder(w.records, ref, LeaseIdentity(w.records[ref]), RequestCancel(reason)); }
    case EnqueueOf(task) => if CanonicalTask(task) { EnqueueInOrder(w, task); }
  }

  lemma {:induction false} LeaseInOrder(w: World, legacy: Legacy, modes: map<Request, Mode>, now: int, d: Delivery, maxDequeue: nat,
                     owner: string, visibility: int)
    requires InOrder(w)
    ensures InOrder(DecidedWith(w, legacy, modes, now, d, maxDequeue, owner, visibility).world)
  {
    if d.payload.LegacyText? {
      var parsed := Migrate(d.payload.request, PortsOf(legacy, modes, d.payload.request), w.records, w.records);
      MigrateRecords(w.records, legacy, modes, d.payload.request);
      hide Decided, Migrate;
      if parsed.migration.Migrated? {
        DecidedInOrder(w.(records := parsed.records), now, d.(payload := TaskText(parsed.migration.task)), maxDequeue, owner, visibility);
      }
    } else {
      hide Decided;
      DecidedInOrder(w, now, d, maxDequeue, owner, visibility);
    }
  }

  lemma {:induction false} ClaimedInOrder(w: World, d: Delivery, before: Record, now: int, owner: string, visibility: int)
    requires InOrder(w)
    ensures InOrder(Claimed(w, d, before, now, owner, visibility).world)
  {
    hide Swap;
    var m := Claim(d.id, d.count, owner, before.leaseGeneration + 1, now, visibility);
    SwapInOrder(w.records, RefOf(before.task), LeaseIdentity(before), m);
    assert Store(w.records, RefOf(before.task), Swap(w.records, RefOf(before.task), LeaseIdentity(before), m))
      == Claimed(w, d, before, now, owner, visibility).world.records;
  }

  lemma {:induction false} PoisonedInOrder(w: World, d: Delivery, reason: string, found: Option<Record>)
    requires InOrder(w)
    ensures InOrder(Poisoned(w, d, reason, found))
  {
    hide Swap;
    if found.Some? {
      var ref, expected := RefOf(found.value.task), LeaseIdentity(found.value);
      SwapInOrder(w.records, ref, expected, Quarantine(reason));
      assert Store(w.records, ref, Swap(w.records, ref, expected, Quarantine(reason))) == Poisoned(w, d, reason, found).records;
    }
  }

  lemma {:induction false} DecidedInOrder(w: World, now: int, d: Delivery, maxDequeue: nat, owner: string, visibility: int)
    requires InOrder(w)
    ensures InOrder(Decided(w, now, d, maxDequeue, owner, visibility).world)
  {
    var decided := Decide(w, now, d, maxDequeue);
    hide Claimed, Poisoned, Decide;
    if decided.Some? && decided.value.Loaded? {
      ClaimedInOrder(w, d, decided.value.snapshot, now, owner, visibility);
    } else if decided.Some? && decided.value.Poisoning? {
      PoisonedInOrder(w, d, decided.value.reason, decided.value.found);
    }
  }


  lemma {:induction false} EnqueueNumbered(w: World, task: Task)
    requires Numbered(w)
    ensures Numbered(EnqueueCall(w, task).world)
  {
    EnqueueIs(w, task);
    hide EnqueueCall;
  }

  lemma {:induction false} DecidedKeepsIds(w: World, now: int, d: Delivery, maxDequeue: nat, owner: string, visibility: int)
    ensures var f := Decided(w, now, d, maxDequeue, owner, visibility);
      f.world.queue.Keys <= w.queue.Keys && f.world.nextId == w.nextId
  {
    hide Decide, Swap;
  }

  /** Message numbers come from the counter. */
  lemma {:induction false} CallNumbered(w: World, legacy: Legacy, modes: map<Request, Mode>, c: Call)
    requires Numbered(w) && (c.LeaseOf? ==> c.id in w.queue)
    ensures Numbered(Migrating(w, legacy, modes, c).world)
  {
    hide Swap, EnqueueCall, Decided, Migrate;
    match c
    case LeaseOf(id, now, maxDequeue, owner, visibility) =>
      var got := ReceiveEffect(w, id);
      var d := got.pc.value.d;
      if d.payload.LegacyText? {
        var parsed := Migrate(d.payload.request, PortsOf(legacy, modes, d.payload.request), got.world.records, got.world.records);
        if parsed.migration.Migrated? {
          DecidedKeepsIds(got.world.(records := parsed.records), now, d.(payload := TaskText(parsed.migration.task)), maxDequeue, owner, visibility);
        }
      } else {
        DecidedKeepsIds(got.world, now, d, maxDequeue, owner, visibility);
      }
    case EnqueueOf(task) => if CanonicalTask(task) { EnqueueNumbered(w, task); }
    case _ =>
  }

  // ---- whole histories ----

  /** Calls on messages that are there, none of which tells the two apart. */
  predicate History(w: World, legacy: Legacy, modes: map<Request, Mode>, cs: seq<Call>)
    decreases |cs|
  {
    cs == [] ||
      ((cs[0].LeaseOf? ==> cs[0].id in w.queue) && !TellsApart(w, legacy, modes, cs[0])
       && History(Migrating(w, legacy, modes, cs[0]).world, legacy, modes, cs[1..]))
  }

  predicate PlainHistory(v: World, cs: seq<Call>)
    decreases |cs|
  {
    cs == [] || ((cs[0].LeaseOf? ==> cs[0].id in v.queue) && PlainHistory(Plain(v, cs[0]).world, cs[1..]))
  }

  /** What each call hands out and whether it throws, call by call, and the world at the end. */
  function Told(w: World, legacy: Legacy, modes: map<Request, Mode>, cs: seq<Call>): (seq<(Option<Lease>, bool)>, World)
    requires History(w, legacy, modes, cs)
    decreases |cs|
  {
    if cs == [] then ([], w)
    else
      var reply := Migrating(w, legacy, modes, cs[0]);
      var rest := Told(reply.world, legacy, modes, cs[1..]);
      ([(reply.given, reply.refused)] + rest.0, rest.1)
  }

  function PlainTold(v: World, cs: seq<Call>): (seq<(Option<Lease>, bool)>, World)
    requires PlainHistory(v, cs)
    decreases |cs|
  {
    if cs == [] then ([], v)
    else
      var reply := Plain(v, cs[0]);
      var rest := PlainTold(reply.world, cs[1..]);
      ([(reply.given, reply.refused)] + rest.0, rest.1)
  }

  /** Over any history without such a call, migrating a v1 record when its message turns up is the
    * same for every caller as having had the v2 record all along: the same leases with the same
    * generations, the same errors, and in the end the same records. */
  lemma {:induction false} MigrationSimulates(w: World, v: World, legacy: Legacy, modes: map<Request, Mode>, cs: seq<Call>)
    requires Shadows(w, v, legacy, modes) && InOrder(w) && Numbered(w) && History(w, legacy, modes, cs)
    ensures PlainHistory(v, cs)
    ensures Told(w, legacy, modes, cs).0 == PlainTold(v, cs).0
    ensures Shadows(Told(w, legacy, modes, cs).1, PlainTold(v, cs).1, legacy, modes)
    decreases |cs|
  {
    hide Shadows, Migrating, Plain, TellsApart, InOrder, Numbered;
    if cs != [] {
      ToldApartExactly(w, v, legacy, modes, cs[0]);
      CallInOrder(w, legacy, modes, cs[0]);
      CallNumbered(w, legacy, modes, cs[0]);
      MigrationSimulates(Migrating(w, legacy, modes, cs[0]).world, Plain(v, cs[0]).world, legacy, modes, cs[1..]);
    }
  }

  // ---- which calls are left, where v2 text is only sent for stored records ----

  /** No queued v2 text is for work that is still v1: enqueue() stores before it sends. */
  predicate Backed(w: World, legacy: Legacy, modes: map<Request, Mode>) {
    forall id :: id in w.queue ==> !Overlooked(w.queue[id].payload, w, legacy, modes)
  }

  /** The lease was handed out by this queue (its record is then stored, and stays so). */
  predicate FromHere(w: World, c: Call) {
    match c
    case HeartbeatOf(l, _, _, _) => RefOf(l.task) in w.records
    case FinishOf(l, _) => RefOf(l.task) in w.records
    case _ => true
  }

  lemma {:induction false} DecidedKeeps(w: World, now: int, d: Delivery, maxDequeue: nat, owner: string, visibility: int)
    requires InOrder(w)
    ensures var f := Decided(w, now, d, maxDequeue, owner, visibility);
      && w.records.Keys <= f.world.records.Keys && (forall id :: id in f.world.queue ==> id in w.queue && f.world.queue[id].payload == w.queue[id].payload)
      && (GivenLease(f.pc).Some? ==> RefOf(GivenLease(f.pc).value.task) in w.records)
  {
    hide Swap, LiveLease, SameMessageRedelivery, Canonical, CanonicalTask;
    if d.payload.TaskText? && RefOf(d.payload.task) in w.records { assert InScope(w.records[RefOf(d.payload.task)], RefOf(d.payload.task)); }
  }

  lemma {:induction false} LeaseKeeps(w: World, legacy: Legacy, modes: map<Request, Mode>, c: Call)
    requires InOrder(w) && c.LeaseOf? && c.id in w.queue
    ensures var r := Migrating(w, legacy, modes, c);
      && w.records.Keys <= r.world.records.Keys && (forall id :: id in r.world.queue ==> id in w.queue && r.world.queue[id].payload == w.queue[id].payload)
      && (r.given.Some? ==> RefOf(r.given.value.task) in r.world.records)
  {
    hide Decided, Migrate, InScope, Upgraded, Upgradable;
    var got := ReceiveEffect(w, c.id);
    var d := got.pc.value.d;
    if d.payload.LegacyText? {
      var parsed := Migrate(d.payload.request, PortsOf(legacy, modes, d.payload.request), got.world.records, got.world.records);
      MigrateRecords(got.world.records, legacy, modes, d.payload.request);
      assert InOrder(got.world.(records := parsed.records));
      if parsed.migration.Migrated? {
        DecidedKeeps(got.world.(records := parsed.records), c.now, d.(payload := TaskText(parsed.migration.task)), c.maxDequeue, c.owner, c.visibility);
      }
    } else {
      DecidedKeeps(got.world, c.now, d, c.maxDequeue, c.owner, c.visibility);
    }
  }

  lemma {:induction false} EnqueueKeeps(w: World, legacy: Legacy, modes: map<Request, Mode>, task: Task)
    requires InOrder(w) && Backed(w, legacy, modes)
    ensures var u := EnqueueCall(w, task).world; w.records.Keys <= u.records.Keys && Backed(u, legacy, modes)
  {
    EnqueueIs(w, task);
    var u := EnqueueCall(w, task).world;
    hide EnqueueCall, Upgradable;
    assert w.records.Keys <= u.records.Keys && (u != w ==> RefOf(task) in u.records);
    forall id | id in u.queue ensures !Overlooked(u.queue[id].payload, u, legacy, modes) {
      if id in w.queue && u.queue[id] == w.queue[id] { assert !Overlooked(w.queue[id].payload, w, legacy, modes); }
    }
  }

  lemma {:induction false} AnswerKeeps(w: World, c: Call)
    requires !c.LeaseOf? && !c.EnqueueOf?
    ensures var u := AnswerOf(w, c).world;
      w.records.Keys <= u.records.Keys && forall id :: id in u.queue ==> id in w.queue && u.queue[id].payload == w.queue[id].payload
  {
    hide Swap;
  }

  /** Every call keeps it so: the store loses no record, v2 text is only sent for stored work, and a
    * lease is only handed out for stored work. */
  lemma {:induction false} CallKeepsBacked(w: World, legacy: Legacy, modes: map<Request, Mode>, c: Call)
    requires InOrder(w) && Backed(w, legacy, modes) && (c.LeaseOf? ==> c.id in w.queue)
    ensures var r := Migrating(w, legacy, modes, c);
      && Backed(r.world, legacy, modes) && w.records.Keys <= r.world.records.Keys
      && (r.given.Some? ==> RefOf(r.given.value.task) in r.world.records)
  {
    var u := Migrating(w, legacy, modes, c).world;
    if c.EnqueueOf? {
      EnqueueKeeps(w, legacy, modes, c.task);
      hide EnqueueCall, Backed;
    } else {
      if c.LeaseOf? { LeaseKeeps(w, legacy, modes, c); } else { AnswerKeeps(w, c); }
      hide Migrating, AnswerOf, Upgradable;
      forall id | id in u.queue ensures !Overlooked(u.queue[id].payload, u, legacy, modes) {
        assert !Overlooked(w.queue[id].payload, w, legacy, modes);
      }
    }
  }

  /** So from such a start no worker can tell: only cancelling or enqueuing work that is still to be
    * migrated does. */
  lemma {:induction false} WorkersCannotTell(w: World, legacy: Legacy, modes: map<Request, Mode>, c: Call)
    requires Backed(w, legacy, modes) && FromHere(w, c) && TellsApart(w, legacy, modes, c)
    ensures c.EnqueueOf? || (c.CancelOf? && Pending(w, legacy, modes, c.ref))
  {
    hide Takes, Changes, Upgradable;
  }

  // ---- cancelling before the migration ----

  /** Every world has its shadow, so all of this applies to every start. */
  function ShadowOf(w: World, legacy: Legacy, modes: map<Request, Mode>): (v: World)
    ensures Shadows(w, v, legacy, modes)
  {
    w.(records := ShadowRecords(w.records, legacy, modes), queue := ShadowQueue(w.queue, w.records, legacy, modes))
  }

  /** A v1 dispatch whose message is still in the queue. */
  function Accepted(request: Request): LegacyRecord {
    LegacyRecord(request.ref.taskId, request.idempotencyKey, LegacyDigest(request), Queued, request, true, 0,
                 Option.None, Option.None, Option.None, Option.None, false, Option.None, Option.None, Option.None, Option.None, Option.None)
  }

  function OneMessage(request: Request): World { World(map[], map[0 := Item(LegacyText(request), PopReceipt(0, 0), true)], 1, []) }

  /** Cancelling v1 work before its message turns up is refused and leaves no trace, so the work is
    * then leased with no intent on it; with the record already v2 the intent is recorded. */
  lemma {:induction false} CancelBeforeMigrationIsLost(request: Request, mode: Mode, reason: string, owner: string)
    ensures var w, legacy, modes := OneMessage(request), map[request.ref := Accepted(request)], map[request := mode];
      var c, lease := CancelOf(request.ref, reason), LeaseOf(0, 0, 5, owner, 30);
      var f, g := Migrating(w, legacy, modes, c), Plain(ShadowOf(w, legacy, modes), c);
      && f == Reply(w, Option.None, true) && !g.refused
      && request.ref in g.world.records && g.world.records[request.ref].cancellationRequested
      && var later := Migrating(f.world, legacy, modes, lease);
         && later.given.Some? && RefOf(later.given.value.task) == request.ref
         && request.ref in later.world.records && !later.world.records[request.ref].cancellationRequested
  {
    var w, legacy, modes := OneMessage(request), map[request.ref := Accepted(request)], map[request := mode];
    var v := ShadowOf(w, legacy, modes);
    UpgradedInScope(legacy, modes, request.ref);
    RecordAlike(w, v, legacy, modes, request.ref);
    var r := Upgraded(legacy, modes, request.ref);
    IntentTakes(r, reason);
    FirstLease(request, mode, owner);
    hide Shadows, ShadowOf;
  }

  lemma {:induction false} FirstLease(request: Request, mode: Mode, owner: string)
    ensures var w, legacy, modes := OneMessage(request), map[request.ref := Accepted(request)], map[request := mode];
      var later := Migrating(w, legacy, modes, LeaseOf(0, 0, 5, owner, 30));
      && later.given.Some? && RefOf(later.given.value.task) == request.ref
      && request.ref in later.world.records && !later.world.records[request.ref].cancellationRequested
  {
    var w, legacy, modes := OneMessage(request), map[request.ref := Accepted(request)], map[request := mode];
    var got := ReceiveEffect(w, 0).world;
    var d := Delivery(0, 1, LegacyText(request));
    var task := MigratedTask(request, mode);
    var r := Upgrade(Accepted(request), task);
    var parsed := Migrate(request, PortsOf(legacy, modes, request), got.records, got.records);
    assert parsed == Parsed(Migrated(task), map[request.ref := r]);
    var w1 := got.(records := map[request.ref := r]);
    var e := d.(payload := TaskText(task));
    assert Decide(w1, 0, e, 5) == Some(Loaded(e, r, 0));
    assert Swap(w1.records, request.ref, LeaseIdentity(r), Claim(0, 1, owner, 1, 0, 30)).Swapped?;
    hide Decide, Migrate;
  }
}
