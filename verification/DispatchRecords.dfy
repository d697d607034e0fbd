/** The durable dispatch record of one task, the callbacks the queue hands to
  * compare-and-swap, and the swap itself. A swap compares only the lease owner
  * and generation, and applies its callback to the CURRENT record. */
module DispatchRecords {
  import opened Prelude
  import ToolMerge

  datatype Mode = ReadOnly | WorkspaceWrite
  datatype Version = V2 | V3
  datatype Reference = Reference(tenantId: string, requesterId: string, conversationId: string, taskId: string)

  /** The caller's fields, common to every schema version (and all there is in v1). */
  datatype Request = Request(
    ref: Reference, idempotencyKey: string, provider: string, prompt: string, createdAt: string)
  datatype Task = Task(version: Version, request: Request, mode: Mode, model: Option<string>)

  /** SHA-256 over the canonical text, taken to be injective. */
  datatype Digest = TaskDigest(task: Task) | LegacyDigest(request: Request)

  function Hash(task: Task): Digest { TaskDigest(task) }

  datatype Status = Queued | Leased | Completed | Failed | Cancelled | Quarantined

  predicate Terminal(s: Status) { s != Queued && s != Leased }

  datatype Checkpoint = Checkpoint(sequence: nat, message: string, tools: seq<ToolMerge.Usage>, invocation: Option<string>)
  datatype Receipt = Receipt(result: string, executionId: string, invocation: Option<string>)

  datatype Record = Record(
    taskId: string,
    idempotencyKey: string,
    requestHash: Digest,
    status: Status,
    task: Task,
    enqueued: bool,
    dequeueCount: nat,
    leaseOwner: Option<string>,
    leaseGeneration: nat,
    leaseMessageId: Option<nat>,
    leaseExpiresAt: Option<int>,
    cancellationRequested: bool,
    cancellationReason: Option<string>,
    checkpoint: Option<Checkpoint>,
    receipt: Option<Receipt>,
    error: Option<string>,
    quarantineReason: Option<string>)

  datatype Identity = Identity(owner: Option<string>, generation: nat)

  function LeaseIdentity(r: Record): Identity { Identity(r.leaseOwner, r.leaseGeneration) }

  datatype Error =
    | DispatchConflict | LeaseConflict | ImmutableIdentity | InvalidState | MissingRecord
    | InvalidPopReceipt | InvalidArgument | CancelledCannotComplete | InvocationImmutable

  predicate CanonicalTask(t: Task) { t.version == V2 ==> t.model.None? }

  predicate Canonical(r: Record) {
    && CanonicalTask(r.task)
    && r.taskId == r.task.request.ref.taskId
    && r.idempotencyKey == r.task.request.idempotencyKey
    && r.requestHash == Hash(r.task)
  }

  predicate InScope(r: Record, ref: Reference) { Canonical(r) && r.task.request.ref == ref }

  function NewRecord(task: Task): Record {
    Record(task.request.ref.taskId, task.request.idempotencyKey, Hash(task), Queued, task,
           false, 0, None, 0, None, None, false, None, None, None, None, None)
  }

  /** A live lease, seen by the delivery (messageId, count) at time now. */
  predicate LiveLease(r: Record, now: int) {
    r.leaseOwner.Some? && r.leaseExpiresAt.Some? && r.leaseExpiresAt.value > now
  }

  predicate SameMessageRedelivery(r: Record, messageId: nat, count: nat) {
    r.leaseMessageId == Some(messageId) && count > r.dequeueCount
  }

  datatype Mutation =
    | MarkEnqueued
    | Claim(messageId: nat, count: nat, newOwner: string, newGeneration: nat, now: int, visibility: int)
    | Renew(owner: string, generation: nat, checkpoint: Checkpoint, expires: int)
    | Complete(owner: string, generation: nat, receipt: Receipt)
    | Fail(owner: string, generation: nat, error: string)
    | Cancel(owner: string, generation: nat, reason: string)
    | RequestCancel(reason: string)
    | Quarantine(reason: string)
    | Foreign(next: Record)   // whatever any other callback would return

  predicate Owned(r: Record, owner: string, generation: nat) {
    r.leaseOwner == Some(owner) && r.leaseGeneration == generation
  }

  /** Two invocation receipts that disagree. */
  predicate Clash(before: Option<string>, after: Option<string>) {
    before.Some? && after.Some? && before != after
  }

  function Either(a: Option<string>, b: Option<string>): Option<string> { if a.Some? then a else b }

  function Invocation(r: Record): Option<string> {
    if r.checkpoint.Some? then r.checkpoint.value.invocation else None
  }

  /** The callback's result on the current record, or what it throws. */
  function Mutate(m: Mutation, r: Record): Result<Record, Error> {
    match m
    case MarkEnqueued => Ok(r.(enqueued := true))
    case Claim(messageId, count, owner, generation, now, visibility) =>
      if LiveLease(r, now) && !SameMessageRedelivery(r, messageId, count) then Err(LeaseConflict)
      else Ok(r.(status := Leased, dequeueCount := count, leaseOwner := Some(owner),
                 leaseGeneration := generation, leaseMessageId := Some(messageId),
                 leaseExpiresAt := Some(now + visibility * 1000)))
    case Renew(owner, generation, checkpoint, expires) =>
      if !Owned(r, owner, generation) || Terminal(r.status) then Err(LeaseConflict)
      else if Clash(Invocation(r), checkpoint.invocation) then Err(InvocationImmutable)
      else Ok(r.(checkpoint := Some(checkpoint.(invocation := Either(checkpoint.invocation, Invocation(r)))),
                 leaseExpiresAt := Some(expires)))
    case Complete(owner, generation, receipt) =>
      if !Owned(r, owner, generation) then Err(LeaseConflict)
      else if r.cancellationRequested then Err(CancelledCannotComplete)
      else if Clash(Invocation(r), receipt.invocation) then Err(InvocationImmutable)
      else Ok(r.(status := Completed, error := None, leaseExpiresAt := None,
                 receipt := Some(receipt.(invocation := Either(receipt.invocation, Invocation(r))))))
    case Fail(owner, generation, error) =>
      if !Owned(r, owner, generation) then Err(LeaseConflict)
      else Ok(r.(status := Failed, error := Some(error), leaseExpiresAt := None))
    case Cancel(owner, generation, reason) =>
      if !Owned(r, owner, generation) then Err(LeaseConflict)
      else Ok(r.(status := Cancelled, cancellationRequested := true,
                 cancellationReason := Some(reason), leaseExpiresAt := None))
    case RequestCancel(reason) =>
      Ok(r.(cancellationRequested := true, cancellationReason := Some(reason)))
    case Quarantine(reason) =>
      Ok(r.(status := Quarantined, quarantineReason := Some(reason), leaseExpiresAt := None))
    case Foreign(next) => Ok(next)
  }

  predicate SameDispatch(a: Record, b: Record) {
    a.taskId == b.taskId && a.idempotencyKey == b.idempotencyKey
    && a.requestHash == b.requestHash && a.task == b.task
  }

  /** Runs the callback under the guard that keeps the dispatch identity immutable. */
  function Guarded(m: Mutation, r: Record): Result<Record, Error> {
    if !Canonical(r) then Err(InvalidState)
    else
      match Mutate(m, r)
      case Err(e) => Err(e)
      case Ok(next) => if SameDispatch(r, next) then Ok(next) else Err(ImmutableIdentity)
  }

  datatype SwapResult = Refused | Threw(error: Error) | Swapped(record: Record)

  function Swap(records: map<Reference, Record>, ref: Reference, expected: Identity, m: Mutation): SwapResult {
    if ref !in records then Threw(MissingRecord)
    else if LeaseIdentity(records[ref]) != expected then Refused
    else
      match Guarded(m, records[ref])
      case Err(e) => Threw(e)
      case Ok(next) => Swapped(next)
  }

  function Store(records: map<Reference, Record>, ref: Reference, result: SwapResult): map<Reference, Record> {
    if result.Swapped? then records[ref := result.record] else records
  }
}
