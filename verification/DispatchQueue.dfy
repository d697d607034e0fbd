/** AzureAgentDispatchQueue over its two in-memory ports, in the source's own steps.
  * Undisturbed, each call is a run of the protocol. */
module DispatchQueue {
  import opened Prelude
  import ToolMerge
  import opened DispatchRecords
  import opened DispatchProtocol
  import opened DispatchInvariant
  import opened DispatchFencing
  import opened DispatchPorts
  import opened DispatchContracts

  /** A process that waits for its caller: it decides nothing more by itself. */
  predicate Waits(pc: Pc) { pc.Received? || pc.Loaded? || pc.Holding? || pc.Observing? }

  /** Lets one process go on, alone, for at most fuel steps. */
  function Drive(now: int, f: Effect, fuel: nat): Effect
    decreases fuel
  {
    if fuel == 0 || f.pc.None? || Waits(f.pc.value) then f
    else Drive(now, NextEffect(f.world, now, f.pc.value), fuel - 1)
  }

  predicate Moves(e: Event, pid: nat) { Actor(e) == Some(pid) && !e.Beat? }

  /** Driving a process is a run of the protocol in which only it moves. */
  lemma {:induction false} DriveIsRun(s: State, pid: nat, fuel: nat) returns (es: seq<Event>)
    requires pid in s.procs
    ensures IsRun(s, es) && forall e :: e in es ==> Moves(e, pid)
    ensures var f, t := Drive(s.clock, Effect(s.world, Some(s.procs[pid])), fuel), Run(s, es);
      t == State(f.world, s.clock, Placed(s.procs, Some(pid), f.pc))
    decreases fuel
  {
    if fuel == 0 || Waits(s.procs[pid]) {
      es := [];
      assert s.procs[pid := s.procs[pid]] == s.procs;
    } else {
      var t := Step(s, Next(pid));
      var f := NextEffect(s.world, s.clock, s.procs[pid]);
      if f.pc.None? {
        es := [Next(pid)];
        assert es[1..] == [];
      } else {
        var rest := DriveIsRun(t, pid, fuel - 1);
        es := [Next(pid)] + rest;
        assert es[1..] == rest;
        assert Placed(t.procs, Some(pid), Drive(s.clock, f, fuel - 1).pc) == Placed(s.procs, Some(pid), Drive(s.clock, f, fuel - 1).pc);
      }
    }
  }

  function EnqueueCall(w: World, task: Task): Effect { Drive(0, CreateEffect(w, task), 4) }

  /** Sending the message and marking the record, undisturbed. */
  function SendAndMark(w: World, task: Task): World {
    var sent := Send(w, TaskText(task));
    if RefOf(task) !in w.records || !InScope(w.records[RefOf(task)], RefOf(task)) then sent
    else sent.(records := w.records[RefOf(task) := w.records[RefOf(task)].(enqueued := true)])
  }

  predicate Refuses(w: World, task: Task) {
    RefOf(task) in w.records && CheckEffect(w, task).pc.None?
  }

  lemma {:induction false} SendAndMarkDrives(w: World, task: Task)
    ensures Drive(0, Effect(w, Some(Sending(task))), 3) == Effect(SendAndMark(w, task), None)
  {
    var sent := Send(w, TaskText(task));
    var read := RereadEffect(sent, task);
    assert Drive(0, Effect(w, Some(Sending(task))), 3) == Drive(0, Effect(sent, Some(Rereading(task))), 2) == Drive(0, read, 1);
    if read.pc.Some? {
      var marked := NextEffect(sent, 0, read.pc.value);
      assert Drive(0, read, 1) == Drive(0, marked, 0) == marked;
    }
  }

  /** enqueue() in one piece: refused, or stored, sent and marked. */
  lemma {:induction false} EnqueueCallIs(w: World, task: Task)
    ensures EnqueueCall(w, task).world ==
      if Refuses(w, task) then w
      else SendAndMark(if RefOf(task) in w.records then w else w.(records := w.records[RefOf(task) := NewRecord(task)]), task)
  {
    var f := CreateEffect(w, task);
    if f.pc.value.Checking? {
      var checked := CheckEffect(w, task);
      assert Drive(0, f, 4) == Drive(0, checked, 3);
      if checked.pc.Some? { SendAndMarkDrives(w, task); }
    } else {
      SendAndMarkDrives(f.world, task);
      DriveSettles(0, f, 3);
    }
  }

  /** Fuel beyond the last step is not used. */
  lemma {:induction false} DriveSettles(now: int, f: Effect, fuel: nat)
    requires Drive(now, f, fuel).pc.None?
    ensures Drive(now, f, fuel + 1) == Drive(now, f, fuel)
    decreases fuel
  {
    if fuel > 0 && f.pc.Some? && !Waits(f.pc.value) { DriveSettles(now, NextEffect(f.world, now, f.pc.value), fuel - 1); }
  }

  function LeaseCall(w: World, now: int, id: nat, maxDequeue: nat, owner: string, visibility: int): Effect
    requires id in w.queue
  {
    var got := ReceiveEffect(w, id);
    var decided := Decide(got.world, now, got.pc.value.d, maxDequeue);
    if decided.Some? && decided.value.Loaded?
    then Drive(now, ClaimEffect(got.world, decided.value.d, decided.value.snapshot, now, owner, visibility), 1)
    else Drive(now, Effect(got.world, decided), 3)
  }

  /** Copying a message to the poison queue, settling its record if one was read, and deleting it. */
  function Poisoned(w: World, d: Delivery, reason: string, found: Option<Record>): World {
    var copied := w.(poison := w.poison + [Poison(reason, d.id, d.count, d.payload)]);
    if found.None? then Delete(copied, d.id, FirstReceipt(d))
    else
      match Swap(w.records, RefOf(found.value.task), LeaseIdentity(found.value), Quarantine(reason))
      case Swapped(r) => Delete(copied.(records := w.records[RefOf(found.value.task) := r]), d.id, FirstReceipt(d))
      case _ => copied
  }

  lemma {:induction false} PoisoningDrives(w: World, now: int, d: Delivery, reason: string, found: Option<Record>)
    ensures Drive(now, Effect(w, Some(Poisoning(d, reason, found))), 3) == Effect(Poisoned(w, d, reason, found), None)
  {
    var f := PoisonEffect(w, d, reason, found);
    assert Drive(now, Effect(w, Some(Poisoning(d, reason, found))), 3) == Drive(now, f, 2);
    var g := NextEffect(f.world, now, f.pc.value);
    assert Drive(now, f, 2) == Drive(now, g, 1);
    if g.pc.Some? { assert Drive(now, g, 1) == Drive(now, NextEffect(g.world, now, g.pc.value), 0); }
  }

  /** The claim; a refused one deletes the message. */
  function Claimed(w: World, d: Delivery, before: Record, now: int, owner: string, visibility: int): Effect {
    match Swap(w.records, RefOf(before.task), LeaseIdentity(before),
               Claim(d.id, d.count, owner, before.leaseGeneration + 1, now, visibility))
    case Swapped(r) =>
      Effect(w.(records := w.records[RefOf(before.task) := r]), Some(Observing(ClaimedLease(d, before, owner), false)))
    case Refused => Effect(Delete(w, d.id, FirstReceipt(d)), None)
    case Threw(_) => Effect(w, None)
  }

  /** lease() after the receive, in one piece. */
  function Decided(w: World, now: int, d: Delivery, maxDequeue: nat, owner: string, visibility: int): Effect {
    Acted(w, Decide(w, now, d, maxDequeue), now, d, owner, visibility)
  }

  function Acted(w: World, decided: Option<Pc>, now: int, d: Delivery, owner: string, visibility: int): Effect {
    if decided.None? then Effect(w, None)
    else
      match decided.value
      case Loaded(_, before, _) => Claimed(w, d, before, now, owner, visibility)
      case Poisoning(_, reason, found) => Effect(Poisoned(w, d, reason, found), None)
      case DiscardingTerminal(_, lease) => DiscardTerminalEffect(w, d, lease)
      case Deferring(_) => Effect(Renewed(w, d.id, FirstReceipt(d)), None)
      case _ => Effect(Delete(w, d.id, FirstReceipt(d)), None)
  }

  lemma {:induction false} LeaseCallIs(w: World, now: int, id: nat, maxDequeue: nat, owner: string, visibility: int)
    requires id in w.queue
    ensures var got := ReceiveEffect(w, id);
      LeaseCall(w, now, id, maxDequeue, owner, visibility) == Decided(got.world, now, got.pc.value.d, maxDequeue, owner, visibility)
  {
    var got := ReceiveEffect(w, id);
    var decided := Decide(got.world, now, got.pc.value.d, maxDequeue);
    if decided.Some? && decided.value.Poisoning? {
      PoisoningDrives(got.world, now, decided.value.d, decided.value.reason, decided.value.found);
    } else if decided.Some? && decided.value.Loaded? {
      var f := ClaimEffect(got.world, decided.value.d, decided.value.snapshot, now, owner, visibility);
      if f.pc.Some? && f.pc.value.Discarding? {
        assert Drive(now, f, 1) == Drive(now, NextEffect(f.world, now, f.pc.value), 0);
      }
    } else if decided.Some? && !decided.value.Loaded? {
      assert Drive(now, Effect(got.world, decided), 3) == Drive(now, NextEffect(got.world, now, decided.value), 2);
    }
  }

  lemma {:induction false} OneStep(s: State, e: Event)
    requires Enabled(s, e)
    ensures IsRun(s, [e]) && Run(s, [e]) == Step(s, e)
  {
    assert [e][1..] == [];
  }

  lemma {:induction false} Concat(s: State, es: seq<Event>, fs: seq<Event>)
    requires IsRun(s, es) && IsRun(Run(s, es), fs)
    ensures IsRun(s, es + fs) && Run(s, es + fs) == Run(Run(s, es), fs)
    decreases |es|
  {
    if es == [] {
      assert es + fs == fs;
    } else {
      Concat(Step(s, es[0]), es[1..], fs);
      assert (es + fs)[1..] == es[1..] + fs;
    }
  }

  lemma {:induction false} ReceiveAndDecide(s: State, pid: nat, id: nat, maxDequeue: nat) returns (es: seq<Event>)
    requires Enabled(s, Receive(pid, id))
    ensures IsRun(s, es) && forall e :: e in es ==> Moves(e, pid)
    ensures var got := ReceiveEffect(s.world, id);
      Run(s, es) == State(got.world, s.clock, Placed(s.procs, Some(pid), Decide(got.world, s.clock, got.pc.value.d, maxDequeue)))
    ensures var got := ReceiveEffect(s.world, id);
      var decided := Decide(got.world, s.clock, got.pc.value.d, maxDequeue);
      decided.Some? && decided.value.Loaded? ==> decided.value.now == s.clock
  {
    var s1 := Step(s, Receive(pid, id));
    OneStep(s, Receive(pid, id));
    OneStep(s1, Load(pid, maxDequeue));
    es := [Receive(pid, id)] + [Load(pid, maxDequeue)];
    Concat(s, [Receive(pid, id)], [Load(pid, maxDequeue)]);
    var decided := Decide(s1.world, s.clock, s1.procs[pid].d, maxDequeue);
    assert Placed(s1.procs, Some(pid), decided) == Placed(s.procs, Some(pid), decided);
  }

  /** A lease() call that nobody disturbs is a run of the protocol. */
  lemma {:induction false} LeaseCallIsRun(s: State, pid: nat, id: nat, maxDequeue: nat, owner: string, visibility: int) returns (es: seq<Event>)
    requires Enabled(s, Receive(pid, id))
    ensures IsRun(s, es) && forall e :: e in es ==> Moves(e, pid)
    ensures var f := LeaseCall(s.world, s.clock, id, maxDequeue, owner, visibility);
      Run(s, es) == State(f.world, s.clock, Placed(s.procs, Some(pid), f.pc))
  {
    hide Decide, ClaimEffect, Drive;
    var got := ReceiveEffect(s.world, id);
    var decided := Decide(got.world, s.clock, got.pc.value.d, maxDequeue);
    var s2 := State(got.world, s.clock, Placed(s.procs, Some(pid), decided));
    es := ReceiveAndDecide(s, pid, id, maxDequeue);
    if decided.Some? && decided.value.Loaded? {
      var claim := TryClaim(pid, owner, visibility);
      OneStep(s2, claim);
      Concat(s, es, [claim]);
      es := es + [claim];
      var f := ClaimEffect(got.world, decided.value.d, decided.value.snapshot, s.clock, owner, visibility);
      var s3 := State(f.world, s.clock, Placed(s.procs, Some(pid), f.pc));
      assert Step(s2, claim) == s3;
      if f.pc.Some? { es := Continue(s, es, s3, pid, 1, s.procs); } else { DriveEnds(s.clock, f, 1); }
    } else if decided.Some? {
      es := Continue(s, es, s2, pid, 3, s.procs);
    } else {
      DriveEnds(s.clock, Effect(got.world, decided), 3);
    }
  }

  lemma {:induction false} DriveEnds(now: int, f: Effect, fuel: nat)
    requires f.pc.None?
    ensures Drive(now, f, fuel) == f
  {}

  /** Driving on from the end of a run. */
  lemma {:induction false} Continue(s: State, es: seq<Event>, t: State, pid: nat, fuel: nat, procs: map<nat, Pc>) returns (longer: seq<Event>)
    requires IsRun(s, es) && Run(s, es) == t && pid in t.procs && t.procs == procs[pid := t.procs[pid]]
    requires pid !in procs && forall e :: e in es ==> Moves(e, pid)
    ensures IsRun(s, longer) && forall e :: e in longer ==> Moves(e, pid)
    ensures var f := Drive(t.clock, Effect(t.world, Some(t.procs[pid])), fuel);
      Run(s, longer) == State(f.world, t.clock, Placed(procs, Some(pid), f.pc))
  {
    var rest := DriveIsRun(t, pid, fuel);
    Concat(s, es, rest);
    longer := es + rest;
    var f := Drive(t.clock, Effect(t.world, Some(t.procs[pid])), fuel);
    assert Placed(t.procs, Some(pid), f.pc) == Placed(procs, Some(pid), f.pc);
  }

  lemma {:induction false} DeleteReceived(w: World, id: nat)
    requires id in w.queue
    ensures var got := ReceiveEffect(w, id);
      && got.world == w.(queue := w.queue[id := Item(w.queue[id].payload, PopReceipt(w.queue[id].receipt.count + 1, 0), false)])
      && got.pc == Some(Received(Delivery(id, w.queue[id].receipt.count + 1, w.queue[id].payload)))
      && Delete(got.world, id, PopReceipt(w.queue[id].receipt.count + 1, 0)) == w.(queue := w.queue - {id})
  {
    assert w.queue[id := Item(w.queue[id].payload, PopReceipt(w.queue[id].receipt.count + 1, 0), false)] - {id} == w.queue - {id};
  }

  /** A message moved to the poison queue on receipt. */
  lemma {:induction false} AsideReceived(w: World, id: nat, text: Payload, reason: string)
    requires id in w.queue
    ensures var count := w.queue[id].receipt.count + 1;
      MovedAside(w, id, count, text, Poisoned(ReceiveEffect(w, id).world, Delivery(id, count, text), reason, Option.None))
  {
    DeleteReceived(w, id);
    var p := Poison(reason, id, w.queue[id].receipt.count + 1, text);
    assert (w.poison + [p])[|w.poison|] == p;
  }

  /** What a delivery of recorded work is decided on. */
  lemma {:induction false} FiledDecided(w: World, now: int, d: Delivery, maxDequeue: nat)
    requires d.payload.TaskText? && Filed(w.records, d.payload.task)
    ensures var r := w.records[RefOf(d.payload.task)];
      Decide(w, now, d, maxDequeue) == Some(
        if Ended(r)
        then DiscardingTerminal(d, Lease(d.payload.task, d.id, PopReceipt(d.count, 0), d.count, r.leaseOwner.UnwrapOr("terminal"), r.leaseGeneration))
        else if d.count > maxDequeue then Poisoning(d, "maximum dequeue count", Some(r))
        else if HeldFrom(r, d.id, d.count, now) then Discarding(d)
        else Loaded(d, r, now))
  {}

  lemma {:induction false} FiledSwaps(w: World, task: Task, m: Mutation)
    requires Filed(w.records, task) && Mutate(m, w.records[RefOf(task)]).Ok? && SameDispatch(w.records[RefOf(task)], Mutate(m, w.records[RefOf(task)]).value)
    ensures Swap(w.records, RefOf(task), LeaseIdentity(w.records[RefOf(task)]), m) == Swapped(Mutate(m, w.records[RefOf(task)]).value)
  {}

  lemma {:induction false} FiledDoes(w: World, now: int, id: nat, text: Payload, maxDequeue: nat, owner: string, visibility: int)
    requires id in w.queue && text.TaskText? && Filed(w.records, text.task)
    ensures var d := Delivery(id, w.queue[id].receipt.count + 1, text);
      var f := Decided(ReceiveEffect(w, id).world, now, d, maxDequeue, owner, visibility);
      LeaseDoes(w, id, text, now, maxDequeue, owner, visibility, f.world, GivenLease(f.pc))
  {
    DeleteReceived(w, id);
    var got, count, task := ReceiveEffect(w, id).world, w.queue[id].receipt.count + 1, text.task;
    var d, r := Delivery(id, count, text), w.records[RefOf(task)];
    FiledDecided(got, now, d, maxDequeue);
    hide Decide, Swap;
    if !Ended(r) {
      if count > maxDequeue { FiledSwaps(got, task, Quarantine("maximum dequeue count")); }
      else if !HeldFrom(r, id, count, now) { FiledSwaps(got, task, Claim(id, count, owner, r.leaseGeneration + 1, now, visibility)); }
    }
  }

  lemma {:induction false} DecidedDoes(w: World, now: int, id: nat, text: Payload, maxDequeue: nat, owner: string, visibility: int)
    requires id in w.queue
    ensures var d := Delivery(id, w.queue[id].receipt.count + 1, text);
      var f := Decided(ReceiveEffect(w, id).world, now, d, maxDequeue, owner, visibility);
      LeaseDoes(w, id, text, now, maxDequeue, owner, visibility, f.world, GivenLease(f.pc))
  {
    DeleteReceived(w, id);
    if text.TaskText? && Filed(w.records, text.task) {
      FiledDoes(w, now, id, text, maxDequeue, owner, visibility);
    } else {
      AsideReceived(w, id, text, "unreadable");
      AsideReceived(w, id, text, "unknown or mismatched");
      hide MovedAside, Poisoned;
    }
  }

  /** lease() in one piece does what its contract says. */
  lemma {:induction false} LeaseCallDoes(w: World, now: int, id: nat, maxDequeue: nat, owner: string, visibility: int)
    requires id in w.queue
    ensures var f := LeaseCall(w, now, id, maxDequeue, owner, visibility);
      LeaseDoes(w, id, w.queue[id].payload, now, maxDequeue, owner, visibility, f.world, GivenLease(f.pc))
  {
    hide LeaseCall, LeaseDoes, Decided, GivenLease;
    LeaseCallIs(w, now, id, maxDequeue, owner, visibility);
    DecidedDoes(w, now, id, w.queue[id].payload, maxDequeue, owner, visibility);
  }

  function HeartbeatCall(w: World, now: int, l: Lease, checkpoint: Checkpoint, visibility: int): Effect {
    var f := BeatEffect(w, l, checkpoint, visibility);
    if f.pc.Some? && f.pc.value.Renewing? then Drive(now, f, 1) else f
  }

  function Swapped0(w: World, ref: Reference, expected: Identity, m: Mutation): World {
    w.(records := Store(w.records, ref, Swap(w.records, ref, expected, m)))
  }

  lemma {:induction false} HeartbeatCallIs(w: World, now: int, l: Lease, checkpoint: Checkpoint, visibility: int)
    requires l.generation >= 1 && ToolMerge.Accepted(checkpoint.tools)
    ensures var f := HeartbeatCall(w, now, l, checkpoint, visibility);
      var renewed := Renewed(w, l.id, l.receipt);
      var m := Renew(l.owner, l.generation, checkpoint, now + visibility * 1000);
      var kept := Current(w.queue, l.id, l.receipt) && Swap(w.records, RefOf(l.task), IdentityOf(l), m).Swapped?;
      && f.world == (if Current(w.queue, l.id, l.receipt) then Swapped0(renewed, RefOf(l.task), IdentityOf(l), m) else w)
      && f.pc == Some(Holding(if kept then l.(receipt := NextReceipt(l.receipt)) else l, false))
  {
    var f := BeatEffect(w, l, checkpoint, visibility);
    if f.pc.value.Renewing? { assert Drive(now, f, 1) == Drive(now, NextEffect(f.world, now, f.pc.value), 0); }
  }

  /** How a heartbeat whose message was renewed is answered. */
  function BeatResult(swap: SwapResult, l: Lease): Result<Lease, Error> {
    match swap
    case Swapped(_) => Ok(l.(receipt := NextReceipt(l.receipt)))
    case Refused => Result.Err(LeaseConflict)
    case Threw(error) => Result.Err(error)
  }

  lemma {:induction false} BeatDoes(w: World, now: int, l: Lease, checkpoint: Checkpoint, visibility: int)
    ensures !Current(w.queue, l.id, l.receipt) ==> HeartbeatDoes(w, now, l, checkpoint, visibility, w, Result.Err(InvalidPopReceipt))
    ensures Current(w.queue, l.id, l.receipt) ==>
      var swap := Swap(w.records, RefOf(l.task), IdentityOf(l), Renew(l.owner, l.generation, checkpoint, now + visibility * 1000));
      HeartbeatDoes(w, now, l, checkpoint, visibility, Renewed(w, l.id, l.receipt).(records := Store(w.records, RefOf(l.task), swap)), BeatResult(swap, l))
  {}

  lemma {:induction false} FinishCallIs(w: World, l: Lease, outcome: Outcome)
    ensures FinishCall(w, l, outcome).world ==
      if l.generation < 1 || !Swap(w.records, RefOf(l.task), IdentityOf(l), MutationOf(l, outcome)).Swapped? then w
      else Delete(Swapped0(w, RefOf(l.task), IdentityOf(l), MutationOf(l, outcome)), l.id, l.receipt)
  {
    var f := FinishEffect(w, l, outcome);
    if f.pc.Some? { assert Drive(0, f, 1) == Drive(0, NextEffect(f.world, 0, f.pc.value), 0); }
  }

  function FinishCall(w: World, l: Lease, outcome: Outcome): Effect { Drive(0, FinishEffect(w, l, outcome), 1) }

  function CancelCall(w: World, ref: Reference, reason: string): Effect {
    Drive(0, Effect(w, Some(CancelReading(ref, reason, 0))), 2)
  }

  predicate ValidVisibility(seconds: int) { 1 <= seconds <= 604_800 }

  class AzureAgentDispatchQueue {
    const client: MemoryQueueClient
    const state: MemoryState

    constructor (client: MemoryQueueClient, state: MemoryState)
      ensures this.client == client && this.state == state
    {
      this.client, this.state := client, state;
    }

    ghost predicate Valid()
      reads client
    {
      client.Valid()
    }

    /** What the two ports stand for. */
    ghost function World(): World
      requires Valid()
      reads client, state
    {
      DispatchProtocol.World.World(state.records, client.Queue(), client.nextId, client.poison)
    }

    method Enqueue(task: Task) returns (r: Result<Record, Error>)
      requires Valid()
      modifies client, state
      ensures Valid()
      ensures task.version == V2 && task.model.Some? ==> r == Result.Err(InvalidArgument) && World() == old(World())
      ensures CanonicalTask(task) ==> World() == EnqueueCall(old(World()), task).world
      ensures (task.version == V2 ==> task.model.None?) ==> EnqueueDoes(old(World()), task, World(), r)
      ensures r.Ok? ==> RefOf(task) in state.records && state.records[RefOf(task)] == r.value
      ensures r.Ok? ==> r.value.requestHash == Hash(task) && (r.value.enqueued || Terminal(r.value.status))
    {
      EnqueueCallIs(World(), task);
      if !CanonicalTask(task) { return Result.Err(InvalidArgument); }
      var ref := RefOf(task);
      var created := state.Create(NewRecord(task));
      if !created {
        var existing := state.Get(ref);
        if existing.None? || existing.value.requestHash != Hash(task)
           || existing.value.idempotencyKey != task.request.idempotencyKey {
          return Result.Err(DispatchConflict);
        }
        if existing.value.enqueued || Terminal(existing.value.status) { return Ok(existing.value); }
      }
      client.SendMessage(TaskText(task));
      var current := state.Get(ref);
      if current.None? { return Result.Err(MissingRecord); }
      if !InScope(current.value, ref) { return Result.Err(InvalidState); }
      var persisted := state.CompareAndSwap(ref, LeaseIdentity(current.value), MarkEnqueued);
      match persisted {
        case Swapped(record) => r := Ok(record);
        case Refused => r := Result.Err(LeaseConflict);
        case Threw(error) => r := Result.Err(error);
      }
    }

    method Observe(ref: Reference) returns (r: Result<Option<Record>, Error>)
      ensures r.Ok? ==> r.value == (if ref in state.records then Some(state.records[ref]) else Option.None)
      ensures r.Err? <==> ref in state.records && !InScope(state.records[ref], ref)
    {
      var record := state.Get(ref);
      if record.Some? && !InScope(record.value, ref) { return Result.Err(InvalidState); }
      return Ok(record);
    }

    method QuarantineMessage(d: Delivery, found: Option<Record>, reason: string) returns (r: Result<bool, Error>)
      requires Valid()
      modifies client, state
      ensures Valid() && World() == Poisoned(old(World()), d, reason, found)
    {
      client.SendPoisonMessage(Poison(reason, d.id, d.count, d.payload));
      if found.Some? {
        var ref := RefOf(found.value.task);
        var updated := state.CompareAndSwap(ref, LeaseIdentity(found.value), Quarantine(reason));
        match updated {
          case Swapped(_) =>
          case Refused => return Result.Err(LeaseConflict);
          case Threw(error) => return Result.Err(error);
        }
      }
      var deleted := client.DeleteMessage(d.id, FirstReceipt(d));
      return if deleted then Ok(true) else Result.Err(InvalidPopReceipt);
    }

    /** Removes the delivery's message. */
    method Discard(d: Delivery) returns (r: Result<Option<Lease>, Error>)
      requires Valid()
      modifies client
      ensures Valid() && World() == Delete(old(World()), d.id, FirstReceipt(d))
      ensures r == if Current(old(World()).queue, d.id, FirstReceipt(d)) then Ok(Option.None) else Result.Err(InvalidPopReceipt)
    {
      var deleted := client.DeleteMessage(d.id, FirstReceipt(d));
      return if deleted then Ok(Option.None) else Result.Err(InvalidPopReceipt);
    }

    method Lease(now: int, visibility: int, maxDequeue: nat, owner: string) returns (r: Result<Option<DispatchProtocol.Lease>, Error>)
      requires Valid()
      modifies client, state
      ensures Valid()
      ensures !(1 <= visibility <= 604_800) ==> r == Result.Err(InvalidArgument) && World() == old(World())
      ensures 1 <= visibility <= 604_800 && FirstVisible(old(client.messages)).None? ==>
        r == Ok(Option.None) && World() == old(World())
      ensures 1 <= visibility <= 604_800 && FirstVisible(old(client.messages)).Some? ==>
        var id := FirstVisible(old(client.messages)).value;
        && id in old(World()).queue && old(World()).queue[id].visible
        && var f := LeaseCall(old(World()), now, id, maxDequeue, owner, visibility);
        && World() == f.world && Given(r) == GivenLease(f.pc)
        && LeaseDoes(old(World()), id, old(World()).queue[id].payload, now, maxDequeue, owner, visibility, World(), Given(r))
    {
      hide LeaseDoes;
      hide Decided, LeaseCall, ReceiveEffect, FirstVisible;
      if !ValidVisibility(visibility) { return Result.Err(InvalidArgument); }
      ghost var before := World();
      var received := Take();
      if received.None? { return Ok(Option.None); }
      LeaseCallIs(before, now, received.value.id, maxDequeue, owner, visibility);
      LeaseCallDoes(before, now, received.value.id, maxDequeue, owner, visibility);
      r := Settle(received.value, now, visibility, maxDequeue, owner);
    }

    method Take() returns (d: Option<Delivery>)
      requires Valid()
      modifies client
      ensures Valid() && (d.Some? <==> FirstVisible(old(client.messages)).Some?)
      ensures d.None? ==> World() == old(World())
      ensures d.Some? ==>
        && Some(d.value.id) == FirstVisible(old(client.messages)) && d.value.id in old(World()).queue
        && old(World()).queue[d.value.id].visible
        && ReceiveEffect(old(World()), d.value.id) == Effect(World(), Some(Received(d.value)))
    {
      hide FirstVisible, AsMap;
      d := client.ReceiveMessage();
    }

    /** lease() once the message is received. */
    method Settle(d: Delivery, now: int, visibility: int, maxDequeue: nat, owner: string)
      returns (r: Result<Option<DispatchProtocol.Lease>, Error>)
      requires Valid()
      modifies client, state
      ensures Valid()
      ensures var f := Decided(old(World()), now, d, maxDequeue, owner, visibility); World() == f.world && Given(r) == GivenLease(f.pc)
    {
      hide Swap, Poisoned, Claimed, DiscardTerminalEffect, Delete, Renewed, LiveLease, SameMessageRedelivery, InScope, AsMap;
      if d.payload.LegacyText? {
        r := Defer(d);
        return;
      }
      if d.payload.OtherText? || !CanonicalTask(d.payload.task) {
        r := Reject(d, Option.None, "unreadable");
        return;
      }
      var found := state.Get(RefOf(d.payload.task));
      if found.Some? && !InScope(found.value, RefOf(d.payload.task)) { return Result.Err(InvalidState); }
      if found.None? || found.value.requestHash != Hash(d.payload.task) {
        r := Reject(d, Option.None, "unknown or mismatched");
        return;
      }
      var record := found.value;
      if Terminal(record.status) {
        r := DiscardFinished(d, TerminalLease(d, d.payload.task, record));
        return;
      }
      if d.count > maxDequeue {
        r := Reject(d, found, "maximum dequeue count");
        return;
      }
      if LiveLease(record, now) && !SameMessageRedelivery(record, d.id, d.count) {
        r := Discard(d);
        return;
      }
      r := ClaimRecord(d, record, now, visibility, owner);
    }

    method Defer(d: Delivery) returns (r: Result<Option<DispatchProtocol.Lease>, Error>)
      requires Valid()
      modifies client
      ensures Valid() && World() == Renewed(old(World()), d.id, FirstReceipt(d)) && Given(r) == Option.None
    {
      var renewed := client.UpdateMessage(d.id, FirstReceipt(d));
      return if renewed then Ok(Option.None) else Result.Err(InvalidPopReceipt);
    }

    /** A message of finished work is deleted and its caller gets a copy of the record's lease. */
    method DiscardFinished(d: Delivery, l: DispatchProtocol.Lease) returns (r: Result<Option<DispatchProtocol.Lease>, Error>)
      requires Valid()
      modifies client
      ensures Valid()
      ensures var f := DiscardTerminalEffect(old(World()), d, l); World() == f.world && Given(r) == GivenLease(f.pc)
    {
      r := Discard(d);
      return if r.Ok? then Ok(Some(l)) else r;
    }

    method Reject(d: Delivery, found: Option<Record>, reason: string) returns (r: Result<Option<DispatchProtocol.Lease>, Error>)
      requires Valid()
      modifies client, state
      ensures Valid() && World() == Poisoned(old(World()), d, reason, found) && Given(r) == Option.None
    {
      hide Poisoned;
      var poisoned := QuarantineMessage(d, found, reason);
      return if poisoned.Ok? then Ok(Option.None) else Result.Err(poisoned.error);
    }

    method ClaimRecord(d: Delivery, record: Record, now: int, visibility: int, owner: string)
      returns (r: Result<Option<DispatchProtocol.Lease>, Error>)
      requires Valid()
      modifies client, state
      ensures Valid()
      ensures var f := Claimed(old(World()), d, record, now, owner, visibility); World() == f.world && Given(r) == GivenLease(f.pc)
    {
      hide Swap;
      var claimed := state.CompareAndSwap(RefOf(record.task), LeaseIdentity(record),
        Claim(d.id, d.count, owner, record.leaseGeneration + 1, now, visibility));
      match claimed {
        case Swapped(_) => return Ok(Some(ClaimedLease(d, record, owner)));
        case Threw(error) => return Result.Err(error);
        case Refused => r := Discard(d);
      }
    }

    method Heartbeat(now: int, l: DispatchProtocol.Lease, checkpoint: Checkpoint, visibility: int)
      returns (r: Result<DispatchProtocol.Lease, Error>)
      requires Valid()
      modifies client, state
      ensures Valid()
      ensures r == Result.Err(InvalidArgument) <==> !(l.generation >= 1 && 1 <= visibility <= 604_800 && ToolMerge.Accepted(checkpoint.tools))
      ensures r == Result.Err(InvalidArgument) ==> World() == old(World())
      ensures r != Result.Err(InvalidArgument) ==>
        var f := HeartbeatCall(old(World()), now, l, checkpoint, visibility);
        && World() == f.world
        && (r.Ok? ==> r.value == l.(receipt := NextReceipt(l.receipt)) && f.pc == Some(Holding(r.value, false)))
        && (r.Err? ==> f.pc == Some(Holding(l, false)))
        && HeartbeatDoes(old(World()), now, l, checkpoint, visibility, World(), r)
    {
      if l.generation < 1 || !ValidVisibility(visibility) { return Result.Err(InvalidArgument); }
      var tools := ToolMerge.MergeObservedToolUsage([], checkpoint.tools);
      if |tools| != |checkpoint.tools| { return Result.Err(InvalidArgument); }
      HeartbeatCallIs(World(), now, l, checkpoint, visibility);
      BeatDoes(World(), now, l, checkpoint, visibility);
      hide Swap, HeartbeatCall, HeartbeatDoes;
      var renewed := client.UpdateMessage(l.id, l.receipt);
      if !renewed { return Result.Err(InvalidPopReceipt); }
      var persisted := state.CompareAndSwap(RefOf(l.task), IdentityOf(l),
        Renew(l.owner, l.generation, checkpoint, now + visibility * 1000));
      match persisted {
        case Swapped(_) => r := Ok(l.(receipt := NextReceipt(l.receipt)));
        case Refused => r := Result.Err(LeaseConflict);
        case Threw(error) => r := Result.Err(error);
      }
    }

    /** complete(), fail() and cancel(): the swap comes before the delete, so a stale
      * lease fails with a lease conflict and never with a pop-receipt error. */
    method Terminate(l: DispatchProtocol.Lease, outcome: Outcome) returns (r: Result<bool, Error>)
      requires Valid()
      modifies client, state
      ensures Valid() && World() == FinishCall(old(World()), l, outcome).world
      ensures r.Ok? ==> RefOf(l.task) in state.records && Terminal(state.records[RefOf(l.task)].status)
      ensures r.Ok? ==> Shows(state.records[RefOf(l.task)], Commit(l, outcome))
      ensures r.Ok? && outcome.Succeed? ==> !state.records[RefOf(l.task)].cancellationRequested
      ensures r.Ok? ==> !Current(World().queue, l.id, l.receipt)
      ensures l.generation >= 1 ==> TerminateDoes(old(World()), l, outcome, World(), r)
      ensures Stale(old(state.records), l) && l.generation >= 1 ==> r == Result.Err(LeaseConflict) && World() == old(World())
    {
      hide FinishCall;
      FinishCallIs(World(), l, outcome);
      if l.generation < 1 { return Result.Err(InvalidArgument); }
      var persisted := state.CompareAndSwap(RefOf(l.task), IdentityOf(l), MutationOf(l, outcome));
      match persisted {
        case Refused => return Result.Err(LeaseConflict);
        case Threw(error) => return Result.Err(error);
        case Swapped(_) =>
      }
      var deleted := client.DeleteMessage(l.id, l.receipt);
      return if deleted then Ok(true) else Result.Err(InvalidPopReceipt);
    }

    method RequestCancellation(ref: Reference, reason: string) returns (r: Result<bool, Error>)
      requires Valid()
      modifies client, state
      ensures Valid() && World() == CancelCall(old(World()), ref, reason).world
      ensures CancellationDoes(old(World()), ref, reason, World(), r)
      ensures r.Ok? <==> ref in state.records && InScope(state.records[ref], ref)
      ensures r.Ok? ==> Terminal(state.records[ref].status) || state.records[ref].cancellationRequested
    {
      CancelCallIs(World(), ref, reason);
      hide CancelCall;
      for attempt := 0 to 4
        invariant Valid() && World() == old(World()) && attempt == 0
      {
        var current := state.Get(ref);
        if current.None? { return Result.Err(MissingRecord); }
        if !InScope(current.value, ref) { return Result.Err(InvalidState); }
        if Terminal(current.value.status) { return Ok(true); }
        var updated := state.CompareAndSwap(ref, LeaseIdentity(current.value), RequestCancel(reason));
        match updated {
          case Swapped(_) => return Ok(true);
          case Threw(error) => return Result.Err(error);
          case Refused =>
        }
      }
      return Result.Err(LeaseConflict);
    }
  }

  /** requestCancellation() in one piece. */
  lemma {:induction false} CancelCallIs(w: World, ref: Reference, reason: string)
    ensures CancelCall(w, ref, reason).world ==
      if ref !in w.records || !InScope(w.records[ref], ref) || Terminal(w.records[ref].status) then w
      else Swapped0(w, ref, LeaseIdentity(w.records[ref]), RequestCancel(reason))
  {
    var f := CancelReadEffect(w, ref, reason, 0);
    assert Drive(0, Effect(w, Some(CancelReading(ref, reason, 0))), 2) == Drive(0, f, 1);
    if f.pc.Some? { assert Drive(0, f, 1) == Drive(0, NextEffect(w, 0, f.pc.value), 0); }
  }

  /** A cancellation that is overtaken between its read and its swap reads again, up to four times; it goes by
    * the owner and generation it read. */
  lemma {:induction false} CancelTriesAgain(s: State, pid: nat)
    requires pid in s.procs && (s.procs[pid].CancelReading? || s.procs[pid].CancelSwapping?)
    ensures var q, t := s.procs[pid], Step(s, Next(pid));
      var whole := q.ref in s.world.records && !Damaged(s.world.records, q.ref);
      if q.CancelReading? then
        && t.world == s.world
        && t.procs == if whole && !Ended(s.world.records[q.ref]) && q.attempt < 4
                      then s.procs[pid := CancelSwapping(q.ref, q.reason, q.attempt,
                                                         Identity(s.world.records[q.ref].leaseOwner, s.world.records[q.ref].leaseGeneration))]
                      else s.procs - {pid}
      else if q.ref in s.world.records && q.expected != Identity(s.world.records[q.ref].leaseOwner, s.world.records[q.ref].leaseGeneration) then
        t.world == s.world && t.procs == s.procs[pid := CancelReading(q.ref, q.reason, q.attempt + 1)]
      else
        t.procs == s.procs - {pid}
        && (whole ==> t.world == s.world.(records := s.world.records[q.ref :=
              s.world.records[q.ref].(cancellationRequested := true, cancellationReason := Some(q.reason))]))
  {}

  predicate Stale(records: map<Reference, Record>, l: Lease) {
    RefOf(l.task) in records && LeaseIdentity(records[RefOf(l.task)]) != IdentityOf(l)
  }

  function GivenLease(pc: Option<Pc>): Option<Lease> {
    if pc.Some? && pc.value.Observing? then Some(pc.value.lease) else Option.None
  }

  function Given(r: Result<Option<Lease>, Error>): Option<Lease> {
    if r.Ok? then r.value else Option.None
  }
}
