/** What a migration carries over from a v1 record, field by field, and what follows for the work. */
module DispatchMigrationContracts {
  import opened Prelude
  import opened DispatchRecords
  import opened DispatchProtocol
  import opened DispatchQueue
  import opened DispatchContracts
  import opened DispatchMigration
  import opened DispatchMigrationRuns

  /** The v1 record is of this very request. */
  predicate OfRequest(was: LegacyRecord, request: Request) {
    && was.request == request && was.taskId == request.ref.taskId && was.idempotencyKey == request.idempotencyKey
    && was.requestHash == LegacyDigest(request)
  }

  /** The v2 record says everything the v1 record said: its progress, its lease, what was asked of it and
    * how it ended. */
  predicate Carries(r: Record, was: LegacyRecord, task: Task) {
    && r.taskId == task.request.ref.taskId && r.idempotencyKey == task.request.idempotencyKey && r.requestHash == TaskDigest(task) && r.task == task
    && r.status == was.status && r.enqueued == was.enqueued && r.dequeueCount == was.dequeueCount
    && r.leaseOwner == was.leaseOwner && r.leaseGeneration == (if was.leaseGeneration.Some? then was.leaseGeneration.value else 0)
    && r.leaseMessageId == was.leaseMessageId && r.leaseExpiresAt == was.leaseExpiresAt
    && r.cancellationRequested == was.cancellationRequested && r.cancellationReason == was.cancellationReason
    && r.checkpoint == was.checkpoint && r.receipt == was.receipt && r.error == was.error && r.quarantineReason == was.quarantineReason
  }

  /** The world with the v1 record carried over, if there was no v2 record. */
  predicate CarriedInto(w: World, legacy: Legacy, task: Task, u: World) {
    var ref := task.request.ref;
    if ref in w.records then u == w
    else ref in legacy && ref in u.records && Carries(u.records[ref], legacy[ref], task) && u == w.(records := w.records[ref := u.records[ref]])
  }

  /** lease() on a v1 message, on a queue with a migration: refused, deferred, or leased as the v2
    * work it is. */
  ghost predicate MigratingDoes(w: World, legacy: Legacy, modes: map<Request, Mode>, id: nat, now: int, maxDequeue: nat, owner: string,
                                visibility: int, v: World, given: Option<Lease>)
    requires id in w.queue && w.queue[id].payload.LegacyText?
  {
    var request, count := w.queue[id].payload.request, w.queue[id].receipt.count + 1;
    if request.ref in legacy && !OfRequest(legacy[request.ref], request) then given == None && MovedAside(w, id, count, LegacyText(request), v)
    else if request !in modes || (request.ref !in legacy && request.ref !in w.records) then
      given == None && v == w.(queue := w.queue[id := Item(w.queue[id].payload, PopReceipt(count, 1), false)])
    else
      var task := Task(V2, request, modes[request], None);
      exists u :: CarriedInto(w, legacy, task, u)
        && (Filed(u.records, task) ==> LeaseDoes(u, id, TaskText(task), now, maxDequeue, owner, visibility, v, given))
        && (FiledOther(u.records, task) ==> given == None && MovedAside(w, id, count, LegacyText(request), v))
  }

  lemma {:induction false} MigrateCarries(request: Request, ports: Ports, records: map<Reference, Record>)
    requires request.ref !in records && request.ref in Migrate(request, ports, records, records).records
    ensures ports.legacy.Gives? && ports.legacy.value.Some? && ports.mode.Gives? && ports.mode.value.Some?
    ensures OfRequest(ports.legacy.value.value, request)
    ensures Carries(Migrate(request, ports, records, records).records[request.ref], ports.legacy.value.value, Task(V2, request, ports.mode.value.value, None))
  {}

  /** A received message whose migration came through, decided on as the v2 text. */
  lemma {:induction false} MigratedDoes(w: World, records: map<Reference, Record>, id: nat, task: Task,
                                        now: int, maxDequeue: nat, owner: string, visibility: int)
    requires id in w.queue
    ensures var d := Delivery(id, w.queue[id].receipt.count + 1, TaskText(task));
      var f := Decided(ReceiveEffect(w, id).world.(records := records), now, d, maxDequeue, owner, visibility);
      LeaseDoes(w.(records := records), id, TaskText(task), now, maxDequeue, owner, visibility, f.world, GivenLease(f.pc))
  {
    hide Decided, LeaseDoes, GivenLease, Filed;
    DecidedDoes(w.(records := records), now, id, TaskText(task), maxDequeue, owner, visibility);
    hide Decided, LeaseDoes;
  }

  lemma {:induction false} MigratingLeaseDoes(w: World, legacy: Legacy, modes: map<Request, Mode>, id: nat, now: int, maxDequeue: nat, owner: string,
                                              visibility: int)
    requires id in w.queue && w.queue[id].payload.LegacyText?
    ensures var reply := Migrating(w, legacy, modes, LeaseOf(id, now, maxDequeue, owner, visibility));
      MigratingDoes(w, legacy, modes, id, now, maxDequeue, owner, visibility, reply.world, reply.given)
  {
    var request := w.queue[id].payload.request;
    var ports := PortsOf(legacy, modes, request);
    var parsed := Migrate(request, ports, w.records, w.records);
    var u := w.(records := parsed.records);
    DeleteReceived(w, id);
    AsideReceived(w, id, LegacyText(request), "unreadable");
    AsideReceived(u, id, LegacyText(request), "unreadable");
    if request in modes { MigratedDoes(w, parsed.records, id, Task(V2, request, modes[request], None), now, maxDequeue, owner, visibility); }
    if request.ref !in w.records && request.ref in parsed.records { MigrateCarries(request, ports, w.records); }
    hide Decided, LeaseDoes, Poisoned, Upgrade, Carries;
    if request in modes && CarriedInto(w, legacy, Task(V2, request, modes[request], None), u) {}
  }
}
