/** v1 messages: what lease() does with a server-owned migration, beside the same queue with every
  * v1 record migrated beforehand. DispatchMigrationRuns has whole histories of calls on both. */
module DispatchMigration {
  import opened Prelude
  import ToolMerge
  import opened DispatchRecords
  import opened DispatchProtocol
  import opened DispatchInvariant
  import opened DispatchQueue

  datatype LegacyRecord = LegacyRecord(
    taskId: string,
    idempotencyKey: string,
    requestHash: Digest,
    status: Status,
    request: Request,
    enqueued: bool,
    dequeueCount: nat,
    leaseOwner: Option<string>,
    leaseGeneration: Option<nat>,
    leaseMessageId: Option<nat>,
    leaseExpiresAt: Option<int>,
    cancellationRequested: bool,
    cancellationReason: Option<string>,
    checkpoint: Option<Checkpoint>,
    receipt: Option<Receipt>,
    error: Option<string>,
    quarantineReason: Option<string>)

  type Legacy = map<Reference, LegacyRecord>

  predicate Matching(r: LegacyRecord, request: Request) {
    && r.request == request && r.taskId == request.ref.taskId && r.idempotencyKey == request.idempotencyKey
    && r.requestHash == LegacyDigest(request)
  }

  function MigratedTask(request: Request, mode: Mode): Task { Task(V2, request, mode, Option.None) }

  /** The v2 record created beside a v1 one. */
  function Upgrade(was: LegacyRecord, task: Task): Record {
    Record(task.request.ref.taskId, task.request.idempotencyKey, Hash(task), was.status, task, was.enqueued,
           was.dequeueCount, was.leaseOwner, was.leaseGeneration.UnwrapOr(0), was.leaseMessageId, was.leaseExpiresAt,
           was.cancellationRequested, was.cancellationReason, was.checkpoint, was.receipt, was.error, was.quarantineReason)
  }

  /** A read or a call to the migration capability; any of them may throw. */
  datatype Answer<T> = Throws | Gives(value: Option<T>)

  /** What the ports answer while one v1 message is migrated. The v2 record is read
    * before the create (first) and, should another process win the create, after it. */
  datatype Ports = Ports(
    capable: bool, legacy: Answer<LegacyRecord>, mode: Answer<Mode>, readable: bool, creatable: bool)

  datatype Migration = Migrated(task: Task) | Unavailable | Mismatch

  datatype Parsed = Parsed(migration: Migration, records: map<Reference, Record>)

  /** migrateLegacyTask: first is the store at the read, second at the create. */
  function Migrate(request: Request, p: Ports, first: map<Reference, Record>, second: map<Reference, Record>): Parsed {
    if !p.capable || p.legacy.Throws? then Parsed(Unavailable, second)
    else if p.legacy.value.Some? && !Matching(p.legacy.value.value, request) then Parsed(Mismatch, second)
    else if p.mode.Throws? || p.mode.value.None? || !p.readable then Parsed(Unavailable, second)
    else
      var task := MigratedTask(request, p.mode.value.value);
      if request.ref in first then Parsed(Bound(first[request.ref], task), second)
      else if p.legacy.value.None? || !p.creatable then Parsed(Unavailable, second)
      else if request.ref in second then Parsed(Bound(second[request.ref], task), second)
      else
        var created := Upgrade(p.legacy.value.value, task);
        Parsed(Bound(created, task), second[request.ref := created])
  }

  /** The record must be the migrated task's own. */
  function Bound(current: Record, task: Task): Migration {
    if !InScope(current, RefOf(task)) || current.requestHash != Hash(task) then Mismatch else Migrated(task)
  }

  // ---- deferral, and where the execution mode comes from ----

  /** A v1 message is deferred, whatever went wrong, without a write. */
  lemma {:induction false} UnavailableWritesNothing(request: Request, p: Ports, first: map<Reference, Record>, second: map<Reference, Record>)
    ensures Migrate(request, p, first, second).migration.Unavailable? ==> Migrate(request, p, first, second).records == second
    ensures !p.capable || p.legacy.Throws? ==> Migrate(request, p, first, second).migration.Unavailable?
    ensures p.mode.Throws? || p.mode.value.None? ==> !Migrate(request, p, first, second).migration.Migrated?
  {}

  /** The mode of a migrated task is the server's answer, never a default; at most one
    * record is written, it is the upgrade of the matching v1 record, and it is written
    * only where there was none. */
  lemma {:induction false} MigratedModeIsServerOwned(request: Request, p: Ports, first: map<Reference, Record>, second: map<Reference, Record>)
    ensures var m := Migrate(request, p, first, second);
      && (m.migration.Migrated? ==> p.mode == Gives(Some(m.migration.task.mode)) && m.migration.task.request == request)
      && (m.records == second
          || (request.ref !in second && p.legacy.Gives? && p.legacy.value.Some? && Matching(p.legacy.value.value, request)
              && p.mode.Gives? && p.mode.value.Some?
              && m.records == second[request.ref := Upgrade(p.legacy.value.value, MigratedTask(request, p.mode.value.value))]))
  {}

  /** Migrating twice is migrating once. */
  lemma {:induction false} MigrateIdempotent(request: Request, p: Ports, records: map<Reference, Record>)
    ensures var once := Migrate(request, p, records, records);
      Migrate(request, p, once.records, once.records) == once
  {}

  /** A process that loses the create to another migrator of the same message ends like the winner. */
  lemma {:induction false} MigrateRace(request: Request, p: Ports, records: map<Reference, Record>)
    requires request.ref !in records
    ensures var won := Migrate(request, p, records, records);
      Migrate(request, p, records, won.records) == won
  {}

  // ---- lease() on a v1 message ----

  function PortsOf(legacy: Legacy, modes: map<Request, Mode>, request: Request): Ports {
    Ports(true,
          Gives(if request.ref in legacy then Some(legacy[request.ref]) else Option.None),
          Gives(if request in modes then Some(modes[request]) else Option.None), true, true)
  }

  /** lease() after the receive, on a queue that owns the migration capability. */
  function DecidedWith(w: World, legacy: Legacy, modes: map<Request, Mode>, now: int, d: Delivery, maxDequeue: nat,
                       owner: string, visibility: int): Effect {
    if !d.payload.LegacyText? then Decided(w, now, d, maxDequeue, owner, visibility)
    else
      var parsed := Migrate(d.payload.request, PortsOf(legacy, modes, d.payload.request), w.records, w.records);
      match parsed.migration
      case Unavailable => Effect(Renewed(w, d.id, FirstReceipt(d)), Option.None)
      case Mismatch => Effect(Poisoned(w.(records := parsed.records), d, "unreadable", Option.None), Option.None)
      case Migrated(task) =>
        Decided(w.(records := parsed.records), now, d.(payload := TaskText(task)), maxDequeue, owner, visibility)
  }

  // ---- the shadow: the same system with every v1 record migrated beforehand ----

  predicate Upgradable(legacy: Legacy, modes: map<Request, Mode>, ref: Reference) {
    && ref in legacy && legacy[ref].request.ref == ref && Matching(legacy[ref], legacy[ref].request)
    && legacy[ref].request in modes
  }

  function Upgraded(legacy: Legacy, modes: map<Request, Mode>, ref: Reference): Record
    requires Upgradable(legacy, modes, ref)
  {
    Upgrade(legacy[ref], MigratedTask(legacy[ref].request, modes[legacy[ref].request]))
  }

  function ShadowRecords(records: map<Reference, Record>, legacy: Legacy, modes: map<Request, Mode>): map<Reference, Record> {
    map ref | ref in records.Keys + legacy.Keys && (ref in records || Upgradable(legacy, modes, ref))
      :: if ref in records then records[ref] else Upgraded(legacy, modes, ref)
  }

  /** The text a v1 message would have had as v2; forged v1 text is unreadable, and text
    * nobody can migrate yet stays what it is. */
  function ShadowText(p: Payload, records: map<Reference, Record>, legacy: Legacy, modes: map<Request, Mode>): Payload {
    if !p.LegacyText? then p
    else if p.request.ref in legacy && !Matching(legacy[p.request.ref], p.request) then OtherText("forged")
    else if p.request !in modes || (p.request.ref !in legacy && p.request.ref !in records) then p
    else TaskText(MigratedTask(p.request, modes[p.request]))
  }

  function ShadowItem(item: Item, records: map<Reference, Record>, legacy: Legacy, modes: map<Request, Mode>): Item {
    item.(payload := ShadowText(item.payload, records, legacy, modes))
  }

  function ShadowQueue(queue: map<nat, Item>, records: map<Reference, Record>, legacy: Legacy, modes: map<Request, Mode>): map<nat, Item> {
    map id | id in queue :: ShadowItem(queue[id], records, legacy, modes)
  }

  /** w, and the world v in which all of it had been v2 from the start: the same
    * records but for the v1 ones not yet asked for, the same queue but for the wording. */
  predicate Shadows(w: World, v: World, legacy: Legacy, modes: map<Request, Mode>) {
    && v.records == ShadowRecords(w.records, legacy, modes)
    && v.queue == ShadowQueue(w.queue, w.records, legacy, modes)
    && v.nextId == w.nextId
    && |v.poison| == |w.poison|
    && forall i :: 0 <= i < |w.poison| ==> v.poison[i].id == w.poison[i].id && v.poison[i].count == w.poison[i].count
  }

  // ---- every step keeps the shadow ----

  predicate InOrder(w: World) { forall ref :: ref in w.records ==> InScope(w.records[ref], ref) }

  function With(w: World, ref: Reference, r: Record): World { w.(records := w.records[ref := r]) }

  lemma {:induction false} TextKept(records: map<Reference, Record>, ref: Reference, r: Record,
                                    legacy: Legacy, modes: map<Request, Mode>, queue: map<nat, Item>)
    requires ref in records || ref in legacy
    ensures ShadowQueue(queue, records[ref := r], legacy, modes) == ShadowQueue(queue, records, legacy, modes)
  {
    forall p ensures ShadowText(p, records[ref := r], legacy, modes) == ShadowText(p, records, legacy, modes) {}
  }

  /** Writing a record both worlds have. */
  lemma {:induction false} WriteShadows(w: World, v: World, legacy: Legacy, modes: map<Request, Mode>, ref: Reference, r: Record)
    requires Shadows(w, v, legacy, modes) && ref in w.records
    ensures ref in v.records && v.records[ref] == w.records[ref]
    ensures Shadows(With(w, ref, r), With(v, ref, r), legacy, modes)
  {
    TextKept(w.records, ref, r, legacy, modes, w.queue);
    assert ShadowRecords(w.records[ref := r], legacy, modes) == ShadowRecords(w.records, legacy, modes)[ref := r];
  }

  /** Writing the upgrade of a v1 record: the shadow had it all along. */
  lemma {:induction false} CreateShadows(w: World, v: World, legacy: Legacy, modes: map<Request, Mode>, ref: Reference)
    requires Shadows(w, v, legacy, modes) && ref !in w.records && Upgradable(legacy, modes, ref)
    ensures Shadows(With(w, ref, Upgraded(legacy, modes, ref)), v, legacy, modes)
  {
    var r := Upgraded(legacy, modes, ref);
    TextKept(w.records, ref, r, legacy, modes, w.queue);
    assert ShadowRecords(w.records[ref := r], legacy, modes) == ShadowRecords(w.records, legacy, modes);
  }

  lemma {:induction false} CurrentShadows(w: World, v: World, legacy: Legacy, modes: map<Request, Mode>, id: nat, receipt: PopReceipt)
    requires Shadows(w, v, legacy, modes)
    ensures Current(w.queue, id, receipt) <==> Current(v.queue, id, receipt)
  {}

  lemma {:induction false} DeleteShadows(w: World, v: World, legacy: Legacy, modes: map<Request, Mode>, id: nat, receipt: PopReceipt)
    requires Shadows(w, v, legacy, modes)
    ensures Shadows(Delete(w, id, receipt), Delete(v, id, receipt), legacy, modes)
  {
    CurrentShadows(w, v, legacy, modes, id, receipt);
    assert ShadowQueue(w.queue - {id}, w.records, legacy, modes) == ShadowQueue(w.queue, w.records, legacy, modes) - {id};
  }

  lemma {:induction false} ItemShadows(w: World, v: World, legacy: Legacy, modes: map<Request, Mode>, id: nat, item: Item)
    requires Shadows(w, v, legacy, modes)
    ensures Shadows(w.(queue := w.queue[id := item]), v.(queue := v.queue[id := ShadowItem(item, w.records, legacy, modes)]), legacy, modes)
  {
    var shadow := ShadowItem(item, w.records, legacy, modes);
    assert ShadowQueue(w.queue[id := item], w.records, legacy, modes) == ShadowQueue(w.queue, w.records, legacy, modes)[id := shadow];
  }

  lemma {:induction false} RenewShadows(w: World, v: World, legacy: Legacy, modes: map<Request, Mode>, id: nat, receipt: PopReceipt)
    requires Shadows(w, v, legacy, modes)
    ensures Shadows(Renewed(w, id, receipt), Renewed(v, id, receipt), legacy, modes)
  {
    CurrentShadows(w, v, legacy, modes, id, receipt);
    if id in w.queue { ItemShadows(w, v, legacy, modes, id, w.queue[id].(receipt := NextReceipt(receipt))); }
  }

  function Copied(w: World, p: Poison): World { w.(poison := w.poison + [p]) }

  lemma {:induction false} PoisonShadows(w: World, v: World, legacy: Legacy, modes: map<Request, Mode>, p: Poison, q: Poison)
    requires Shadows(w, v, legacy, modes) && p.id == q.id && p.count == q.count
    ensures Shadows(Copied(w, p), Copied(v, q), legacy, modes)
  {}

  lemma {:induction false} SwapShadows(w: World, v: World, legacy: Legacy, modes: map<Request, Mode>, ref: Reference, expected: Identity, m: Mutation)
    requires Shadows(w, v, legacy, modes) && ref in w.records
    ensures Swap(v.records, ref, expected, m) == Swap(w.records, ref, expected, m)
    ensures Shadows(Swapped0(w, ref, expected, m), Swapped0(v, ref, expected, m), legacy, modes)
  {
    var result := Swap(w.records, ref, expected, m);
    WriteShadows(w, v, legacy, modes, ref, if result.Swapped? then result.record else w.records[ref]);
  }

  lemma {:induction false} PoisonedShadows(w: World, v: World, legacy: Legacy, modes: map<Request, Mode>, d: Delivery, e: Delivery,
                        reason: string, other: string, found: Option<Record>)
    requires Shadows(w, v, legacy, modes) && d.id == e.id && d.count == e.count
    requires found.Some? ==> RefOf(found.value.task) in w.records && reason == other
    ensures Shadows(Poisoned(w, d, reason, found), Poisoned(v, e, other, found), legacy, modes)
  {
    hide Swap, Shadows;
    var p, q := Poison(reason, d.id, d.count, d.payload), Poison(other, e.id, e.count, e.payload);
    PoisonShadows(w, v, legacy, modes, p, q);
    var w1, v1 := Copied(w, p), Copied(v, q);
    if found.None? {
      DeleteShadows(w1, v1, legacy, modes, d.id, FirstReceipt(d));
    } else {
      var ref, m := RefOf(found.value.task), Quarantine(reason);
      SwapShadows(w1, v1, legacy, modes, ref, LeaseIdentity(found.value), m);
      DeleteShadows(Swapped0(w1, ref, LeaseIdentity(found.value), m), Swapped0(v1, ref, LeaseIdentity(found.value), m),
        legacy, modes, d.id, FirstReceipt(d));
    }
  }

  lemma {:induction false} ClaimedShadows(w: World, v: World, legacy: Legacy, modes: map<Request, Mode>, d: Delivery, e: Delivery,
                       before: Record, now: int, owner: string, visibility: int)
    requires Shadows(w, v, legacy, modes) && d.id == e.id && d.count == e.count && RefOf(before.task) in w.records
    ensures var f, g := Claimed(w, d, before, now, owner, visibility), Claimed(v, e, before, now, owner, visibility);
      Shadows(f.world, g.world, legacy, modes) && f.pc == g.pc
  {
    hide Swap, Shadows;
    var ref, m := RefOf(before.task), Claim(d.id, d.count, owner, before.leaseGeneration + 1, now, visibility);
    SwapShadows(w, v, legacy, modes, ref, LeaseIdentity(before), m);
    DeleteShadows(w, v, legacy, modes, d.id, FirstReceipt(d));
  }

  /** A decision whose reads hold in w. */
  predicate Readable(w: World, d: Delivery, decided: Option<Pc>) {
    decided.Some? ==>
      match decided.value
      case Loaded(_, before, _) => RefOf(before.task) in w.records
      case Poisoning(_, _, found) => found.Some? ==> RefOf(found.value.task) in w.records
      case _ => true
  }

  lemma {:induction false} ActedShadows(w: World, v: World, legacy: Legacy, modes: map<Request, Mode>, decided: Option<Pc>, now: int, d: Delivery,
                     owner: string, visibility: int)
    requires Shadows(w, v, legacy, modes) && Readable(w, d, decided)
    ensures var f, g := Acted(w, decided, now, d, owner, visibility), Acted(v, decided, now, d, owner, visibility);
      Shadows(f.world, g.world, legacy, modes) && f.pc == g.pc
  {
    hide Shadows, Claimed, Poisoned;
    DeleteShadows(w, v, legacy, modes, d.id, FirstReceipt(d));
    RenewShadows(w, v, legacy, modes, d.id, FirstReceipt(d));
    CurrentShadows(w, v, legacy, modes, d.id, FirstReceipt(d));
    if decided.Some? {
      match decided.value
      case Loaded(_, before, _) => ClaimedShadows(w, v, legacy, modes, d, d, before, now, owner, visibility);
      case Poisoning(_, reason, found) => PoisonedShadows(w, v, legacy, modes, d, d, reason, reason, found);
      case _ =>
    }
  }

  /** One v2 delivery, decided in both worlds. */
  lemma {:induction false} DecidedShadows(w: World, v: World, legacy: Legacy, modes: map<Request, Mode>, now: int, d: Delivery, maxDequeue: nat,
                       owner: string, visibility: int)
    requires Shadows(w, v, legacy, modes) && InOrder(w)
    requires d.payload.TaskText? && RefOf(d.payload.task) !in w.records ==> RefOf(d.payload.task) !in v.records
    ensures var f, g := Decided(w, now, d, maxDequeue, owner, visibility), Decided(v, now, d, maxDequeue, owner, visibility);
      Shadows(f.world, g.world, legacy, modes) && f.pc == g.pc
  {
    hide Shadows, Acted, Decide;
    DecideShadows(w, v, legacy, modes, now, d, maxDequeue);
    ActedShadows(w, v, legacy, modes, Decide(w, now, d, maxDequeue), now, d, owner, visibility);
  }

  lemma {:induction false} DecideShadows(w: World, v: World, legacy: Legacy, modes: map<Request, Mode>, now: int, d: Delivery, maxDequeue: nat)
    requires Shadows(w, v, legacy, modes) && InOrder(w)
    requires d.payload.TaskText? && RefOf(d.payload.task) !in w.records ==> RefOf(d.payload.task) !in v.records
    ensures Decide(v, now, d, maxDequeue) == Decide(w, now, d, maxDequeue)
    ensures Readable(w, d, Decide(w, now, d, maxDequeue))
  {
    hide LiveLease, SameMessageRedelivery, CanonicalTask;
    if d.payload.TaskText? && RefOf(d.payload.task) in w.records { assert InScope(w.records[RefOf(d.payload.task)], RefOf(d.payload.task)); }
  }

  // ---- the simulation, call by call ----

  function ShadowDelivery(d: Delivery, w: World, legacy: Legacy, modes: map<Request, Mode>): Delivery {
    d.(payload := ShadowText(d.payload, w.records, legacy, modes))
  }

  /** A v1 record that can be migrated and has not been. */
  predicate Pending(w: World, legacy: Legacy, modes: map<Request, Mode>, ref: Reference) {
    ref !in w.records && Upgradable(legacy, modes, ref)
  }

  /** The v2 text of work that is still v1: a record only the shadow has. */
  predicate Overlooked(p: Payload, w: World, legacy: Legacy, modes: map<Request, Mode>) {
    && p.TaskText? && Pending(w, legacy, modes, RefOf(p.task))
    && p.task == Upgraded(legacy, modes, RefOf(p.task)).task
  }

  lemma {:induction false} UpgradedInScope(legacy: Legacy, modes: map<Request, Mode>, ref: Reference)
    requires Upgradable(legacy, modes, ref)
    ensures InScope(Upgraded(legacy, modes, ref), ref)
  {}

  /** Other v2 text for such work is poisoned in both worlds, for want of a record or of its hash. */
  lemma {:induction false} MismatchedDecided(w: World, v: World, legacy: Legacy, modes: map<Request, Mode>, now: int, d: Delivery, maxDequeue: nat)
    requires Shadows(w, v, legacy, modes) && d.payload.TaskText? && Pending(w, legacy, modes, RefOf(d.payload.task))
    requires !Overlooked(d.payload, w, legacy, modes)
    ensures Decide(v, now, d, maxDequeue) == Decide(w, now, d, maxDequeue)
    ensures Decide(w, now, d, maxDequeue).Some? && Decide(w, now, d, maxDequeue).value.Poisoning?
    ensures Readable(w, d, Decide(w, now, d, maxDequeue))
  {
    var ref := RefOf(d.payload.task);
    UpgradedInScope(legacy, modes, ref);
    assert v.records[ref] == Upgraded(legacy, modes, ref);
  }

  /** What lease() decides on a v1 or v2 message, and on its v2 wording in the shadow, is the same, unless
    * the message is the v2 text of work that is still v1. */
  lemma {:induction false} LeaseShadows(w: World, v: World, legacy: Legacy, modes: map<Request, Mode>, now: int, d: Delivery, maxDequeue: nat,
                     owner: string, visibility: int)
    requires Shadows(w, v, legacy, modes) && InOrder(w) && !Overlooked(d.payload, w, legacy, modes)
    ensures var f := DecidedWith(w, legacy, modes, now, d, maxDequeue, owner, visibility);
      var g := Decided(v, now, ShadowDelivery(d, w, legacy, modes), maxDequeue, owner, visibility);
      Shadows(f.world, g.world, legacy, modes) && GivenLease(f.pc) == GivenLease(g.pc)
  {
    if d.payload.LegacyText? {
      LegacyShadows(w, v, legacy, modes, now, d, maxDequeue, owner, visibility);
    } else if d.payload.TaskText? && Pending(w, legacy, modes, RefOf(d.payload.task)) {
      MismatchedDecided(w, v, legacy, modes, now, d, maxDequeue);
      hide Shadows, Acted, Decide, Overlooked;
      ActedShadows(w, v, legacy, modes, Decide(w, now, d, maxDequeue), now, d, owner, visibility);
    } else {
      DecidedShadows(w, v, legacy, modes, now, d, maxDequeue, owner, visibility);
    }
  }

  /** Migration ends as the shadow's text says. */
  lemma {:induction false} MigrateText(records: map<Reference, Record>, legacy: Legacy, modes: map<Request, Mode>, request: Request)
    requires request.ref in records ==> InScope(records[request.ref], request.ref)
    ensures var parsed := Migrate(request, PortsOf(legacy, modes, request), records, records);
      var text := ShadowText(LegacyText(request), records, legacy, modes);
      && (parsed.migration.Unavailable? ==> parsed.records == records && text == LegacyText(request))
      && (parsed.migration.Migrated? ==> text == TaskText(parsed.migration.task) && request.ref in parsed.records)
      && (parsed.migration.Mismatch? ==> parsed.records == records && Refused(records, text))
  {}

  lemma {:induction false} MigrateRecords(records: map<Reference, Record>, legacy: Legacy, modes: map<Request, Mode>, request: Request)
    ensures var parsed := Migrate(request, PortsOf(legacy, modes, request), records, records);
      parsed.records == records
      || (request.ref !in records && Upgradable(legacy, modes, request.ref) && InScope(Upgraded(legacy, modes, request.ref), request.ref)
          && parsed.records == records[request.ref := Upgraded(legacy, modes, request.ref)])
  {}

  /** Migration leaves a store the shadow already had. */
  lemma {:induction false} MigrateShadows(w: World, v: World, legacy: Legacy, modes: map<Request, Mode>, request: Request)
    requires Shadows(w, v, legacy, modes) && InOrder(w)
    ensures var parsed := Migrate(request, PortsOf(legacy, modes, request), w.records, w.records);
      Shadows(w.(records := parsed.records), v, legacy, modes) && InOrder(w.(records := parsed.records))
  {
    hide Migrate, Shadows;
    MigrateRecords(w.records, legacy, modes, request);
    if request.ref !in w.records && Upgradable(legacy, modes, request.ref) { CreateShadows(w, v, legacy, modes, request.ref); }
  }

  /** The text is one the parser or the record check sends to the poison queue. */
  predicate Refused(records: map<Reference, Record>, text: Payload) {
    || text.OtherText?
    || (text.TaskText? && CanonicalTask(text.task) && RefOf(text.task) in records
        && InScope(records[RefOf(text.task)], RefOf(text.task)) && records[RefOf(text.task)].requestHash != Hash(text.task))
  }

  function RefusalReason(text: Payload): string {
    if text.OtherText? then "unreadable" else "unknown or mismatched"
  }

  lemma {:induction false} RefusedIsPoisoned(v: World, now: int, e: Delivery, maxDequeue: nat, owner: string, visibility: int)
    requires Refused(v.records, e.payload)
    ensures Decided(v, now, e, maxDequeue, owner, visibility)
         == Effect(Poisoned(v, e, RefusalReason(e.payload), Option.None), Option.None)
  {
    assert Decide(v, now, e, maxDequeue) == Some(Poisoning(e, RefusalReason(e.payload), Option.None));
  }

  lemma {:induction false} ShadowHas(w: World, v: World, legacy: Legacy, modes: map<Request, Mode>, text: Payload)
    requires Shadows(w, v, legacy, modes) && Refused(w.records, text)
    ensures Refused(v.records, text)
  {}

  /** A refused migration and a refused text end in the poison queue alike. */
  lemma {:induction false} MismatchShadows(w: World, v: World, legacy: Legacy, modes: map<Request, Mode>, now: int, d: Delivery, e: Delivery,
                        maxDequeue: nat, owner: string, visibility: int)
    requires Shadows(w, v, legacy, modes) && d.id == e.id && d.count == e.count && Refused(w.records, e.payload)
    ensures var g := Decided(v, now, e, maxDequeue, owner, visibility);
      g.pc.None? && Shadows(Poisoned(w, d, "unreadable", Option.None), g.world, legacy, modes)
  {
    ShadowHas(w, v, legacy, modes, e.payload);
    hide Shadows, Poisoned, Decided, Refused;
    RefusedIsPoisoned(v, now, e, maxDequeue, owner, visibility);
    PoisonedShadows(w, v, legacy, modes, d, e, "unreadable", RefusalReason(e.payload), Option.None);
  }

  lemma {:induction false} LegacyShadows(w: World, v: World, legacy: Legacy, modes: map<Request, Mode>, now: int, d: Delivery, maxDequeue: nat,
                      owner: string, visibility: int)
    requires Shadows(w, v, legacy, modes) && InOrder(w) && d.payload.LegacyText?
    ensures var f := DecidedWith(w, legacy, modes, now, d, maxDequeue, owner, visibility);
      var g := Decided(v, now, ShadowDelivery(d, w, legacy, modes), maxDequeue, owner, visibility);
      Shadows(f.world, g.world, legacy, modes) && GivenLease(f.pc) == GivenLease(g.pc)
  {
    var request := d.payload.request;
    var e := ShadowDelivery(d, w, legacy, modes);
    if request.ref in w.records { assert InScope(w.records[request.ref], request.ref); }
    MigrateText(w.records, legacy, modes, request);
    MigrateShadows(w, v, legacy, modes, request);
    var parsed := Migrate(request, PortsOf(legacy, modes, request), w.records, w.records);
    var w1 := w.(records := parsed.records);
    hide Shadows, Migrate, Decided, Poisoned, ShadowText, Refused, InScope, Renewed;
    match parsed.migration
    case Unavailable =>
      RenewShadows(w, v, legacy, modes, d.id, FirstReceipt(d));
      DeferredDecided(v, now, d, maxDequeue, owner, visibility);
    case Mismatch =>
      MismatchShadows(w, v, legacy, modes, now, d, e, maxDequeue, owner, visibility);
    case Migrated(task) =>
      assert e == d.(payload := TaskText(task));
      MigratedRef(request, legacy, modes, w.records);
      DecidedShadows(w1, v, legacy, modes, now, e, maxDequeue, owner, visibility);
  }

  lemma {:induction false} DeferredDecided(v: World, now: int, d: Delivery, maxDequeue: nat, owner: string, visibility: int)
    requires d.payload.LegacyText?
    ensures Decided(v, now, d, maxDequeue, owner, visibility) == Effect(Renewed(v, d.id, FirstReceipt(d)), Option.None)
  {}

  lemma {:induction false} MigratedRef(request: Request, legacy: Legacy, modes: map<Request, Mode>, records: map<Reference, Record>)
    ensures var parsed := Migrate(request, PortsOf(legacy, modes, request), records, records);
      parsed.migration.Migrated? ==> RefOf(parsed.migration.task) == request.ref && request.ref in parsed.records
  {}
}
