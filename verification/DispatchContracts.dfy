/** What each call of the dispatch queue does to the stored records and to the two queues, in the words of
  * the data alone: every case, every field. */
module DispatchContracts {
  import opened Prelude
  import opened DispatchRecords
  import opened DispatchProtocol

  /** The record is of its task and stored under its own reference. */
  predicate Filed(records: map<Reference, Record>, task: Task) {
    && task.request.ref in records
    && var r := records[task.request.ref];
       && r.task == task && r.taskId == task.request.ref.taskId && r.idempotencyKey == task.request.idempotencyKey
       && r.requestHash == TaskDigest(task) && (task.version == V2 ==> task.model.None?)
  }

  /** Other work is filed there. */
  predicate FiledOther(records: map<Reference, Record>, task: Task) {
    var ref := task.request.ref;
    ref in records && records[ref].task.request.ref == ref && Filed(records, records[ref].task) && records[ref].task != task
  }

  /** What is stored there is not the record of any work under that reference. */
  predicate Damaged(records: map<Reference, Record>, ref: Reference) {
    ref in records && !(records[ref].task.request.ref == ref && Filed(records, records[ref].task))
  }

  predicate Ended(r: Record) { r.status == Completed || r.status == Failed || r.status == Cancelled || r.status == Quarantined }

  /** At this time the record is leased, and not to an earlier delivery of the same message. */
  predicate HeldFrom(r: Record, id: nat, count: nat, now: int) {
    && r.leaseOwner.Some? && r.leaseExpiresAt.Some? && now < r.leaseExpiresAt.value
    && !(r.leaseMessageId == Some(id) && r.dequeueCount < count)
  }

  /** The message moves to the poison queue and the records stay. */
  predicate MovedAside(w: World, id: nat, count: nat, text: Payload, v: World) {
    |v.poison| == |w.poison| + 1
    && var p := v.poison[|w.poison|];
       p.id == id && p.count == count && p.payload == text && v == w.(queue := w.queue - {id}, poison := w.poison + [p])
  }

  /** lease() on the message id, once it is read as this text. */
  predicate LeaseDoes(w: World, id: nat, text: Payload, now: int, maxDequeue: nat, owner: string, visibility: int, v: World, given: Option<Lease>)
    requires id in w.queue
  {
    var count := w.queue[id].receipt.count + 1;
    var receipt := PopReceipt(count, 0);
    match text
    case OtherText(_) => given == None && MovedAside(w, id, count, text, v)
    case LegacyText(_) => given == None && v == w.(queue := w.queue[id := Item(w.queue[id].payload, PopReceipt(count, 1), false)])
    case TaskText(task) =>
      var ref := task.request.ref;
      && (ref !in w.records || (task.version == V2 && task.model.Some?) ==> given == None && MovedAside(w, id, count, text, v))
      && (Filed(w.records, task) ==>
            var r := w.records[ref];
            if Ended(r) then
              && given == Some(Lease(task, id, receipt, count, r.leaseOwner.UnwrapOr("terminal"), r.leaseGeneration))
              && v == w.(queue := w.queue - {id})
            else if count > maxDequeue then
              && given == None && |v.poison| == |w.poison| + 1 && v.nextId == w.nextId && v.queue == w.queue - {id}
              && v.records == w.records[ref := r.(status := Quarantined, quarantineReason := Some("maximum dequeue count"), leaseExpiresAt := None)]
              && v.poison == w.poison + [Poison("maximum dequeue count", id, count, text)]
            else if HeldFrom(r, id, count, now) then given == None && v == w.(queue := w.queue - {id})
            else
              && given == Some(Lease(task, id, receipt, count, owner, r.leaseGeneration + 1))
              && v.records == w.records[ref := r.(status := Leased, dequeueCount := count, leaseOwner := Some(owner),
                   leaseGeneration := r.leaseGeneration + 1, leaseMessageId := Some(id), leaseExpiresAt := Some(now + visibility * 1000))]
              && v.queue == w.queue[id := Item(w.queue[id].payload, receipt, false)] && v.nextId == w.nextId && v.poison == w.poison)
      && (FiledOther(w.records, task) ==>
            given == None && MovedAside(w, id, count, text, v))
      && (Damaged(w.records, ref) && (task.version == V2 ==> task.model.None?) ==>
            given == None && v == w.(queue := w.queue[id := Item(w.queue[id].payload, receipt, false)]))
  }

  /** enqueue() of readable work. */
  predicate EnqueueDoes(w: World, task: Task, v: World, r: Result<Record, Error>) {
    var ref := task.request.ref;
    var sent := w.queue[w.nextId := Item(TaskText(task), PopReceipt(0, 0), true)];
    && (ref !in w.records ==>
          var created := Record(ref.taskId, task.request.idempotencyKey, TaskDigest(task), Queued, task, true, 0, None, 0, None, None,
                                false, None, None, None, None, None);
          r == Ok(created) && v == World(w.records[ref := created], sent, w.nextId + 1, w.poison))
    && (Filed(w.records, task) ==>
          var was := w.records[ref];
          if was.enqueued || Ended(was) then r == Ok(was) && v == w
          else r == Ok(was.(enqueued := true)) && v == World(w.records[ref := was.(enqueued := true)], sent, w.nextId + 1, w.poison))
    && (FiledOther(w.records, task) ==>
          r == Result.Err(DispatchConflict) && v == w)
  }

  /** The record is leased under this lease. */
  predicate LeasedTo(records: map<Reference, Record>, l: Lease) {
    l.task.request.ref in records && records[l.task.request.ref].leaseOwner == Some(l.owner)
    && records[l.task.request.ref].leaseGeneration == l.generation
  }

  predicate SameInvocation(r: Record, invocation: Option<string>) {
    r.checkpoint.Some? && r.checkpoint.value.invocation.Some? && invocation.Some? ==> invocation == r.checkpoint.value.invocation
  }

  /** The invocation receipt a later checkpoint or result carries: its own, or the one on record. */
  function Carried(r: Record, invocation: Option<string>): Option<string> {
    if invocation.Some? then invocation else if r.checkpoint.Some? then r.checkpoint.value.invocation else None
  }

  /** heartbeat() with arguments that pass: the message is renewed first, then the record. */
  predicate HeartbeatDoes(w: World, now: int, l: Lease, checkpoint: Checkpoint, visibility: int, v: World, r: Result<Lease, Error>) {
    var ref, next := l.task.request.ref, PopReceipt(l.receipt.count, l.receipt.renewals + 1);
    if !(l.id in w.queue && w.queue[l.id].receipt == l.receipt) then r == Result.Err(InvalidPopReceipt) && v == w
    else
      && v.queue == w.queue[l.id := w.queue[l.id].(receipt := next)] && v.nextId == w.nextId && v.poison == w.poison
      && (r.Ok? ==> r.value == l.(receipt := next))
      && (Filed(w.records, l.task) ==>
            var was := w.records[ref];
            if !LeasedTo(w.records, l) || Ended(was) then r == Result.Err(LeaseConflict) && v.records == w.records
            else if !SameInvocation(was, checkpoint.invocation) then r == Result.Err(InvocationImmutable) && v.records == w.records
            else r.Ok? && v.records == w.records[ref := was.(checkpoint := Some(checkpoint.(invocation := Carried(was, checkpoint.invocation))),
                                                             leaseExpiresAt := Some(now + visibility * 1000))])
  }

  /** complete(), fail() and cancel() under a lease of generation 1 or more. */
  predicate TerminateDoes(w: World, l: Lease, outcome: Outcome, v: World, r: Result<bool, Error>) {
    Filed(w.records, l.task) ==>
      var ref := l.task.request.ref;
      var was := w.records[ref];
      if !LeasedTo(w.records, l) then r == Result.Err(LeaseConflict) && v == w
      else if outcome.Succeed? && was.cancellationRequested then r == Result.Err(CancelledCannotComplete) && v == w
      else if outcome.Succeed? && !SameInvocation(was, outcome.receipt.invocation) then r == Result.Err(InvocationImmutable) && v == w
      else
        && v.records == w.records[ref :=
             match outcome
             case Succeed(receipt) => was.(status := Completed, error := None, leaseExpiresAt := None,
                                           receipt := Some(receipt.(invocation := Carried(was, receipt.invocation))))
             case Fault(error) => was.(status := Failed, error := Some(error), leaseExpiresAt := None)
             case Stop(reason) => was.(status := Cancelled, cancellationRequested := true, cancellationReason := Some(reason), leaseExpiresAt := None)]
        && v.nextId == w.nextId && v.poison == w.poison
        && if l.id in w.queue && w.queue[l.id].receipt == l.receipt then r == Ok(true) && v.queue == w.queue - {l.id}
           else r == Result.Err(InvalidPopReceipt) && v.queue == w.queue
  }

  /** requestCancellation(). */
  predicate CancellationDoes(w: World, ref: Reference, reason: string, v: World, r: Result<bool, Error>) {
    && (ref !in w.records ==> r == Result.Err(MissingRecord) && v == w)
    && (Damaged(w.records, ref) ==> r == Result.Err(InvalidState) && v == w)
    && (ref in w.records && w.records[ref].task.request.ref == ref && Filed(w.records, w.records[ref].task) ==>
          var was := w.records[ref];
          && r == Ok(true)
          && v == if Ended(was) then w
                  else w.(records := w.records[ref := was.(cancellationRequested := true, cancellationReason := Some(reason))]))
  }
}
