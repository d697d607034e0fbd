/** The dispatch queue as a step system: any number of enqueuers, workers and
  * cancellers, one step per awaited call, beside an at-least-once queue whose
  * messages may reappear, be duplicated or be forged. A crash drops a process
  * between two of its steps. */
module DispatchProtocol {
  import opened Prelude
  import opened DispatchRecords
  import ToolMerge

  /** Message text: a v2/v3 task, a v1 task, or text the parser refuses. */
  datatype Payload = TaskText(task: Task) | LegacyText(request: Request) | OtherText(text: string)

  /** Changes on every receive (count) and on every renewal. */
  datatype PopReceipt = PopReceipt(count: nat, renewals: nat)
  datatype Item = Item(payload: Payload, receipt: PopReceipt, visible: bool)
  datatype Delivery = Delivery(id: nat, count: nat, payload: Payload)

  datatype Lease = Lease(task: Task, id: nat, receipt: PopReceipt, count: nat, owner: string, generation: nat)

  datatype Poison = Poison(reason: string, id: nat, count: nat, payload: Payload)

  /** Where a process stands between two awaited calls. */
  datatype Pc =
    // lease()
    | Received(d: Delivery)
    | Loaded(d: Delivery, snapshot: Record, now: int)
    | Discarding(d: Delivery)
    | DiscardingTerminal(d: Delivery, lease: Lease)
    | Poisoning(d: Delivery, reason: string, found: Option<Record>)
    | Quarantining(d: Delivery, reason: string, snapshot: Record)
    | Deferring(d: Delivery)
    // the worker that was given a lease
    | Observing(lease: Lease, copy: bool)
    | Holding(lease: Lease, mustCancel: bool)
    | Renewing(lease: Lease, renewed: PopReceipt, checkpoint: Checkpoint, visibility: int)
    | Acking(lease: Lease)
    // enqueue()
    | Checking(task: Task) | Sending(task: Task) | Rereading(task: Task) | Marking(task: Task, expected: Identity)
    // requestCancellation()
    | CancelReading(ref: Reference, reason: string, attempt: nat)
    | CancelSwapping(ref: Reference, reason: string, attempt: nat, expected: Identity)

  /** The stored records, the main queue (ids come from a counter) and the poison queue. */
  datatype World = World(
    records: map<Reference, Record>, queue: map<nat, Item>, nextId: nat, poison: seq<Poison>)
  datatype State = State(world: World, clock: int, procs: map<nat, Pc>)

  /** What one step of a process does, and where the process then stands (None: it returned or threw). */
  datatype Effect = Effect(world: World, pc: Option<Pc>)

  datatype Outcome = Succeed(receipt: Receipt) | Fault(error: string) | Stop(reason: string)

  datatype Event =
    | Tick(delta: nat) | Expire(id: nat) | Inject(payload: Payload) | Crash(pid: nat)
    | StartEnqueue(pid: nat, task: Task)
    | StartCancel(pid: nat, ref: Reference, reason: string)
    | Receive(pid: nat, id: nat)
    | Load(pid: nat, maxDequeue: nat)
    | TryClaim(pid: nat, owner: string, visibility: int)
    | Beat(pid: nat, checkpoint: Checkpoint, visibility: int)
    | Finish(pid: nat, outcome: Outcome)
    | Next(pid: nat)     // every step without a choice

  function Init(): State { State(World(map[], map[], 0, []), 0, map[]) }

  function RefOf(task: Task): Reference { task.request.ref }

  function FirstReceipt(d: Delivery): PopReceipt { PopReceipt(d.count, 0) }

  /** The delete and update calls both demand the newest pop receipt. */
  predicate Current(queue: map<nat, Item>, id: nat, receipt: PopReceipt) {
    id in queue && queue[id].receipt == receipt
  }

  function MutationOf(l: Lease, outcome: Outcome): Mutation {
    match outcome
    case Succeed(receipt) => Complete(l.owner, l.generation, receipt)
    case Fault(error) => Fail(l.owner, l.generation, error)
    case Stop(reason) => Cancel(l.owner, l.generation, reason)
  }

  function IdentityOf(l: Lease): Identity { Identity(Some(l.owner), l.generation) }

  predicate Outdated(a: PopReceipt, b: PopReceipt) {
    a.count < b.count || (a.count == b.count && a.renewals < b.renewals)
  }

  /** A delete with an outdated receipt throws and removes nothing. */
  function Delete(w: World, id: nat, receipt: PopReceipt): World {
    if Current(w.queue, id, receipt) then w.(queue := w.queue - {id}) else w
  }

  /** A renewal gives the message its next pop receipt; an outdated one throws. */
  function Renewed(w: World, id: nat, receipt: PopReceipt): World {
    if Current(w.queue, id, receipt)
    then w.(queue := w.queue[id := w.queue[id].(receipt := NextReceipt(receipt))])
    else w
  }

  function NextReceipt(receipt: PopReceipt): PopReceipt { PopReceipt(receipt.count, receipt.renewals + 1) }

  function Send(w: World, payload: Payload): World {
    w.(queue := w.queue[w.nextId := Item(payload, PopReceipt(0, 0), true)], nextId := w.nextId + 1)
  }

  function Swapping(w: World, ref: Reference, expected: Identity, m: Mutation, done: Option<Pc>, refused: Option<Pc>,
                    threw: Option<Pc>): Effect {
    match Swap(w.records, ref, expected, m)
    case Swapped(r) => Effect(w.(records := w.records[ref := r]), done)
    case Refused => Effect(w, refused)
    case Threw(_) => Effect(w, threw)
  }

  // ---- enqueue() ----

  function CreateEffect(w: World, task: Task): Effect {
    if RefOf(task) in w.records then Effect(w, Some(Checking(task)))
    else Effect(w.(records := w.records[RefOf(task) := NewRecord(task)]), Some(Sending(task)))
  }

  function CheckEffect(w: World, task: Task): Effect {
    var ref := RefOf(task);
    if ref !in w.records || w.records[ref].requestHash != Hash(task)
       || w.records[ref].idempotencyKey != task.request.idempotencyKey
       || w.records[ref].enqueued || Terminal(w.records[ref].status)
    then Effect(w, None)
    else Effect(w, Some(Sending(task)))
  }

  function RereadEffect(w: World, task: Task): Effect {
    var ref := RefOf(task);
    if ref !in w.records || !InScope(w.records[ref], ref) then Effect(w, None)
    else Effect(w, Some(Marking(task, LeaseIdentity(w.records[ref]))))
  }

  // ---- lease() ----

  function TerminalLease(d: Delivery, task: Task, r: Record): Lease {
    Lease(task, d.id, FirstReceipt(d), d.count, r.leaseOwner.UnwrapOr("terminal"), r.leaseGeneration)
  }

  /** From the received message to the decision, for a queue built without a v1
    * migration (module DispatchMigration has the queue that owns one). */
  function Decide(w: World, now: int, d: Delivery, maxDequeue: nat): Option<Pc> {
    if d.payload.LegacyText? then Some(Deferring(d))
    else if !(d.payload.TaskText? && CanonicalTask(d.payload.task)) then Some(Poisoning(d, "unreadable", None))
    else
      var ref := RefOf(d.payload.task);
      if ref !in w.records then Some(Poisoning(d, "unknown or mismatched", None))
      else
        var r := w.records[ref];
        if !InScope(r, ref) then None
        else if r.requestHash != Hash(d.payload.task) then Some(Poisoning(d, "unknown or mismatched", None))
        else if Terminal(r.status) then Some(DiscardingTerminal(d, TerminalLease(d, d.payload.task, r)))
        else if d.count > maxDequeue then Some(Poisoning(d, "maximum dequeue count", Some(r)))
        else if LiveLease(r, now) && !SameMessageRedelivery(r, d.id, d.count) then Some(Discarding(d))
        else Some(Loaded(d, r, now))
  }

  function ClaimedLease(d: Delivery, before: Record, owner: string): Lease {
    Lease(before.task, d.id, FirstReceipt(d), d.count, owner, before.leaseGeneration + 1)
  }

  function ClaimEffect(w: World, d: Delivery, before: Record, now: int, owner: string, visibility: int): Effect {
    Swapping(w, RefOf(before.task), LeaseIdentity(before),
             Claim(d.id, d.count, owner, before.leaseGeneration + 1, now, visibility),
             Some(Observing(ClaimedLease(d, before, owner), false)), Some(Discarding(d)), None)
  }

  function DiscardTerminalEffect(w: World, d: Delivery, lease: Lease): Effect {
    if Current(w.queue, d.id, FirstReceipt(d))
    then Effect(w.(queue := w.queue - {d.id}), Some(Observing(lease, true)))
    else Effect(w, None)
  }

  function PoisonEffect(w: World, d: Delivery, reason: string, found: Option<Record>): Effect {
    Effect(w.(poison := w.poison + [Poison(reason, d.id, d.count, d.payload)]),
           Some(if found.Some? then Quarantining(d, reason, found.value) else Discarding(d)))
  }

  // ---- the worker ----

  function ObserveEffect(w: World, l: Lease): Effect {
    var ref := RefOf(l.task);
    if ref !in w.records then Effect(w, Some(Holding(l, false)))
    else if !InScope(w.records[ref], ref) || Terminal(w.records[ref].status) then Effect(w, None)
    else Effect(w, Some(Holding(l, w.records[ref].cancellationRequested)))
  }

  /** heartbeat() renews the message before it swaps; a heartbeat that throws
    * leaves the worker with the lease and pop receipt it had. */
  function BeatEffect(w: World, l: Lease, checkpoint: Checkpoint, visibility: int): Effect {
    if l.generation < 1 || !ToolMerge.Accepted(checkpoint.tools) || !Current(w.queue, l.id, l.receipt)
    then Effect(w, Some(Holding(l, false)))
    else
      Effect(Renewed(w, l.id, l.receipt), Some(Renewing(l, NextReceipt(l.receipt), checkpoint, visibility)))
  }

  function RenewEffect(w: World, now: int, l: Lease, renewed: PopReceipt, checkpoint: Checkpoint, visibility: int): Effect {
    Swapping(w, RefOf(l.task), IdentityOf(l), Renew(l.owner, l.generation, checkpoint, now + visibility * 1000),
             Some(Holding(l.(receipt := renewed), false)), Some(Holding(l, false)), Some(Holding(l, false)))
  }

  function FinishEffect(w: World, l: Lease, outcome: Outcome): Effect {
    if l.generation < 1 then Effect(w, None)
    else Swapping(w, RefOf(l.task), IdentityOf(l), MutationOf(l, outcome), Some(Acking(l)), None, None)
  }

  // ---- requestCancellation(): four attempts ----

  function CancelReadEffect(w: World, ref: Reference, reason: string, attempt: nat): Effect {
    if attempt >= 4 || ref !in w.records || !InScope(w.records[ref], ref) || Terminal(w.records[ref].status)
    then Effect(w, None)
    else Effect(w, Some(CancelSwapping(ref, reason, attempt, LeaseIdentity(w.records[ref]))))
  }

  /** The steps that leave no choice. */
  function NextEffect(w: World, now: int, pc: Pc): Effect
    requires !pc.Received? && !pc.Loaded? && !pc.Holding?
  {
    match pc
    case Discarding(d) => Effect(Delete(w, d.id, FirstReceipt(d)), None)
    case DiscardingTerminal(d, l) => DiscardTerminalEffect(w, d, l)
    case Poisoning(d, reason, found) => PoisonEffect(w, d, reason, found)
    case Quarantining(d, reason, before) =>
      Swapping(w, RefOf(before.task), LeaseIdentity(before), Quarantine(reason), Some(Discarding(d)), None, None)
    case Deferring(d) => Effect(Renewed(w, d.id, FirstReceipt(d)), None)
    case Observing(l, _) => ObserveEffect(w, l)
    case Renewing(l, renewed, checkpoint, visibility) => RenewEffect(w, now, l, renewed, checkpoint, visibility)
    case Acking(l) => Effect(Delete(w, l.id, l.receipt), None)
    case Checking(task) => CheckEffect(w, task)
    case Sending(task) => Effect(Send(w, TaskText(task)), Some(Rereading(task)))
    case Rereading(task) => RereadEffect(w, task)
    case Marking(task, expected) => Swapping(w, RefOf(task), expected, MarkEnqueued, None, None, None)
    case CancelReading(ref, reason, attempt) => CancelReadEffect(w, ref, reason, attempt)
    case CancelSwapping(ref, reason, attempt, expected) =>
      Swapping(w, ref, expected, RequestCancel(reason), None, Some(CancelReading(ref, reason, attempt + 1)), None)
  }

  function ReceiveEffect(w: World, id: nat): Effect
    requires id in w.queue
  {
    var item := w.queue[id];
    var count := item.receipt.count + 1;
    Effect(w.(queue := w.queue[id := Item(item.payload, PopReceipt(count, 0), false)]),
           Some(Received(Delivery(id, count, item.payload))))
  }

  predicate Enabled(s: State, e: Event) {
    match e
    case Tick(_) => true
    case Expire(id) => id in s.world.queue
    case Inject(_) => true
    case Crash(pid) => pid in s.procs
    case StartEnqueue(pid, task) => pid !in s.procs && CanonicalTask(task)
    case StartCancel(pid, _, _) => pid !in s.procs
    case Receive(pid, id) => pid !in s.procs && id in s.world.queue && s.world.queue[id].visible
    case Load(pid, _) => pid in s.procs && s.procs[pid].Received?
    case TryClaim(pid, _, _) => pid in s.procs && s.procs[pid].Loaded?
    case Beat(pid, _, _) => pid in s.procs && s.procs[pid].Holding? && !s.procs[pid].mustCancel
    case Finish(pid, outcome) => pid in s.procs && s.procs[pid].Holding? && (s.procs[pid].mustCancel ==> outcome.Stop?)
    case Next(pid) => pid in s.procs && !s.procs[pid].Received? && !s.procs[pid].Loaded? && !s.procs[pid].Holding?
  }

  /** The process that takes the step, if one does. */
  function Actor(e: Event): Option<nat> {
    match e
    case Tick(_) => None
    case Expire(_) => None
    case Inject(_) => None
    case Crash(pid) => Some(pid)
    case StartEnqueue(pid, _) => Some(pid)
    case StartCancel(pid, _, _) => Some(pid)
    case Receive(pid, _) => Some(pid)
    case Load(pid, _) => Some(pid)
    case TryClaim(pid, _, _) => Some(pid)
    case Beat(pid, _, _) => Some(pid)
    case Finish(pid, _) => Some(pid)
    case Next(pid) => Some(pid)
  }

  /** The effect of an event; an environment event leaves no process behind. */
  function EffectOf(s: State, e: Event): Effect
    requires Enabled(s, e)
  {
    var w := s.world;
    match e
    case Tick(_) => Effect(w, None)
    case Expire(id) => Effect(w.(queue := w.queue[id := w.queue[id].(visible := true)]), None)
    case Inject(payload) => Effect(Send(w, payload), None)
    case Crash(_) => Effect(w, None)
    case StartEnqueue(_, task) => CreateEffect(w, task)
    case StartCancel(_, ref, reason) => Effect(w, Some(CancelReading(ref, reason, 0)))
    case Receive(_, id) => ReceiveEffect(w, id)
    case Load(pid, maxDequeue) => Effect(w, Decide(w, s.clock, s.procs[pid].d, maxDequeue))
    case TryClaim(pid, owner, visibility) =>
      var pc := s.procs[pid]; ClaimEffect(w, pc.d, pc.snapshot, pc.now, owner, visibility)
    case Beat(pid, checkpoint, visibility) => BeatEffect(w, s.procs[pid].lease, checkpoint, visibility)
    case Finish(pid, outcome) => FinishEffect(w, s.procs[pid].lease, outcome)
    case Next(pid) => NextEffect(w, s.clock, s.procs[pid])
  }

  function Placed(procs: map<nat, Pc>, actor: Option<nat>, pc: Option<Pc>): map<nat, Pc> {
    if actor.None? then procs
    else if pc.Some? then procs[actor.value := pc.value]
    else procs - {actor.value}
  }

  function Step(s: State, e: Event): State
    requires Enabled(s, e)
  {
    var f := EffectOf(s, e);
    State(f.world, if e.Tick? then s.clock + e.delta else s.clock, Placed(s.procs, Actor(e), f.pc))
  }

  /** A run, and the state it ends in. */
  predicate IsRun(s: State, es: seq<Event>)
    decreases |es|
  {
    es == [] || (Enabled(s, es[0]) && IsRun(Step(s, es[0]), es[1..]))
  }

  function Run(s: State, es: seq<Event>): State
    requires IsRun(s, es)
    decreases |es|
  {
    if es == [] then s else Run(Step(s, es[0]), es[1..])
  }
}
