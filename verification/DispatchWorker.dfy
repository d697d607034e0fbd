/** AzureCodexWorker.runOnce over the in-memory queue, while its executor reports, an
  * operator asks for cancellation and other workers take what becomes visible. Whatever
  * happens meanwhile, the call is a run of the protocol that follows the checkpoint discipline. */
module DispatchWorker {
  import opened Prelude
  import opened DispatchRecords
  import opened DispatchProtocol
  import opened DispatchFencing
  import opened DispatchPorts
  import opened DispatchContracts
  import opened DispatchQueue
  import opened DispatchCheckpoints
  import ToolMerge

  // ---- runs of the protocol, with the workers' notes ----

  function NotesRun(s: State, notes: map<nat, Notes>, es: seq<Event>): map<nat, Notes>
    requires IsRun(s, es)
    decreases |es|
  {
    if es == [] then notes else NotesRun(Step(s, es[0]), NotesAfter(s, notes, es[0]), es[1..])
  }

  /** es leads from s to t, disciplined, and the notes from n to m. */
  ghost predicate Leads(s: State, n: map<nat, Notes>, es: seq<Event>, t: State, m: map<nat, Notes>) {
    IsRun(s, es) && IsDisciplinedRun(s, n, es) && Run(s, es) == t && NotesRun(s, n, es) == m
  }

  lemma {:induction false} LeadsOn(s: State, n: map<nat, Notes>, es: seq<Event>, t: State, m: map<nat, Notes>, fs: seq<Event>, u: State, k: map<nat, Notes>)
    requires Leads(s, n, es, t, m) && Leads(t, m, fs, u, k)
    ensures Leads(s, n, es + fs, u, k)
    decreases |es|
  {
    if es == [] {
      assert es + fs == fs;
    } else {
      hide Step, NotesAfter, Disciplined, Enabled;
      LeadsOn(Step(s, es[0]), NotesAfter(s, n, es[0]), es[1..], t, m, fs, u, k);
      assert (es + fs)[1..] == es[1..] + fs;
    }
  }

  lemma {:induction false} LeadsOne(s: State, n: map<nat, Notes>, e: Event)
    requires Enabled(s, e) && Disciplined(n, e)
    ensures Leads(s, n, [e], Step(s, e), NotesAfter(s, n, e))
  {
    assert [e][1..] == [];
  }

  /** What runs like runOnce's keep: the notes stay good and no checkpoint goes back. */
  lemma {:induction false} LeadsKeepsCheckpoints(s: State, n: map<nat, Notes>, es: seq<Event>, t: State, m: map<nat, Notes>, ref: Reference)
    requires Noted(s, n) && Leads(s, n, es, t, m)
    ensures Noted(t, m) && Advanced(CheckpointAt(s, ref), CheckpointAt(t, ref))
    decreases |es|
  {
    CheckpointsOnlyAdvance(s, n, es, ref);
    hide Step, Noted, Advanced, NotesAfter;
    if es != [] {
      NotedKept(s, n, es[0]);
      LeadsKeepsCheckpoints(Step(s, es[0]), NotesAfter(s, n, es[0]), es[1..], t, m, ref);
    }
  }

  /** In every disciplined run from the empty system, between any two points of it. */
  lemma {:induction false} CheckpointsFromTheStart(n: map<nat, Notes>, es: seq<Event>, t: State, m: map<nat, Notes>, fs: seq<Event>,
                                u: State, k: map<nat, Notes>, ref: Reference)
    requires Leads(Init(), n, es, t, m) && Leads(t, m, fs, u, k)
    ensures Advanced(CheckpointAt(t, ref), CheckpointAt(u, ref))
  {
    hide Leads, Noted, Advanced;
    InitNoted(n);
    LeadsKeepsCheckpoints(Init(), n, es, t, m, ref);
    LeadsKeepsCheckpoints(t, m, fs, u, k, ref);
  }

  /** A process that sends no heartbeat is disciplined, and touches no other notes. */
  lemma {:induction false} LeadsQuietly(s: State, n: map<nat, Notes>, es: seq<Event>, pid: nat)
    requires IsRun(s, es) && forall e :: e in es ==> Moves(e, pid)
    ensures Leads(s, n, es, Run(s, es), NotesRun(s, n, es))
    ensures forall p :: p != pid && p in n ==> p in NotesRun(s, n, es) && NotesRun(s, n, es)[p] == n[p]
    decreases |es|
  {
    if es != [] {
      assert Moves(es[0], pid);
      hide Step;
      LeadsQuietly(Step(s, es[0]), NotesAfter(s, n, es[0]), es[1..], pid);
    }
  }

  lemma {:induction false} FreshPid(procs: map<nat, Pc>) returns (pid: nat)
    ensures pid !in procs
  {
    pid := 0;
    var below: set<nat> := {};
    while pid in procs
      invariant below <= procs.Keys && |below| == pid && forall p :: p in below ==> p < pid
      decreases procs.Keys - below
    {
      below := below + {pid};
      pid := pid + 1;
    }
  }

  // ---- single calls as runs ----

  lemma {:induction false} HeartbeatLeads(s: State, n: map<nat, Notes>, pid: nat, checkpoint: Checkpoint, visibility: int) returns (es: seq<Event>)
    requires pid in s.procs && s.procs[pid].Holding? && !s.procs[pid].mustCancel
    requires Disciplined(n, Beat(pid, checkpoint, visibility))
    ensures var f := HeartbeatCall(s.world, s.clock, s.procs[pid].lease, checkpoint, visibility);
      && f.pc.Some?
      && Leads(s, n, es, State(f.world, s.clock, s.procs[pid := f.pc.value]), n[pid := Notes(checkpoint.sequence, checkpoint.tools)])
  {
    var beat := Beat(pid, checkpoint, visibility);
    var t, m := Step(s, beat), NotesAfter(s, n, beat);
    LeadsOne(s, n, beat);
    es := [beat];
    if t.procs[pid].Renewing? {
      LeadsOne(t, m, Next(pid));
      LeadsOn(s, n, es, t, m, [Next(pid)], Step(t, Next(pid)), m);
      es := es + [Next(pid)];
      var f := BeatEffect(s.world, s.procs[pid].lease, checkpoint, visibility);
      assert Drive(s.clock, f, 1) == Drive(s.clock, NextEffect(f.world, s.clock, f.pc.value), 0);
      assert t.procs[pid := Step(t, Next(pid)).procs[pid]] == s.procs[pid := Step(t, Next(pid)).procs[pid]];
    }
  }

  lemma {:induction false} FinishLeads(s: State, n: map<nat, Notes>, pid: nat, outcome: Outcome) returns (es: seq<Event>)
    requires Enabled(s, Finish(pid, outcome))
    ensures Leads(s, n, es, State(FinishCall(s.world, s.procs[pid].lease, outcome).world, s.clock, s.procs - {pid}), n)
  {
    var finish := Finish(pid, outcome);
    var t := Step(s, finish);
    LeadsOne(s, n, finish);
    es := [finish];
    if pid in t.procs {
      LeadsOne(t, n, Next(pid));
      LeadsOn(s, n, es, t, n, [Next(pid)], Step(t, Next(pid)), n);
      es := es + [Next(pid)];
      var f := FinishEffect(s.world, s.procs[pid].lease, outcome);
      assert Drive(0, f, 1) == Drive(0, NextEffect(f.world, 0, f.pc.value), 0);
      assert t.procs - {pid} == s.procs - {pid};
    }
  }

  lemma {:induction false} OperatorLeads(s: State, n: map<nat, Notes>, pid: nat, ref: Reference, reason: string)
    returns (es: seq<Event>, m: map<nat, Notes>)
    requires pid !in s.procs
    ensures Leads(s, n, es, State(CancelCall(s.world, ref, reason).world, s.clock, s.procs), m)
    ensures forall p :: p != pid && p in n ==> p in m && m[p] == n[p]
  {
    var start := StartCancel(pid, ref, reason);
    var t := Step(s, start);
    var rest := DriveIsRun(t, pid, 2);
    LeadsOne(s, n, start);
    LeadsQuietly(t, n, rest, pid);
    m := NotesRun(t, n, rest);
    LeadsOn(s, n, [start], t, n, rest, Run(t, rest), m);
    es := [start] + rest;
    CancelEnds(s.world, s.clock, ref, reason);
    assert t.procs - {pid} == s.procs;
  }

  lemma {:induction false} CancelEnds(w: World, now: int, ref: Reference, reason: string)
    ensures Drive(now, Effect(w, Some(CancelReading(ref, reason, 0))), 2) == Effect(CancelCall(w, ref, reason).world, None)
  {
    var f := CancelReadEffect(w, ref, reason, 0);
    assert Drive(now, Effect(w, Some(CancelReading(ref, reason, 0))), 2) == Drive(now, f, 1);
    assert Drive(0, Effect(w, Some(CancelReading(ref, reason, 0))), 2) == Drive(0, f, 1);
    if f.pc.Some? {
      assert Drive(now, f, 1) == Drive(now, NextEffect(w, now, f.pc.value), 0);
      assert Drive(0, f, 1) == Drive(0, NextEffect(w, 0, f.pc.value), 0);
    }
  }

  lemma {:induction false} LeaseLeads(s: State, n: map<nat, Notes>, pid: nat, id: nat, maxDequeue: nat, owner: string, visibility: int)
    returns (es: seq<Event>, m: map<nat, Notes>)
    requires Enabled(s, Receive(pid, id))
    ensures var f := LeaseCall(s.world, s.clock, id, maxDequeue, owner, visibility);
      Leads(s, n, es, State(f.world, s.clock, Placed(s.procs, Some(pid), f.pc)), m)
    ensures forall p :: p != pid && p in n ==> p in m && m[p] == n[p]
  {
    es := LeaseCallIsRun(s, pid, id, maxDequeue, owner, visibility);
    LeadsQuietly(s, n, es, pid);
    m := NotesRun(s, n, es);
  }

  lemma {:induction false} FirstStep(s: State, n: map<nat, Notes>)
    ensures Leads(s, n, [], s, n)
  {}

  /** Newly claimed live work, or a copy of a finished record's lease, with every record as it was. */
  predicate FreshLease(w: World, v: World, l: Lease, copy: bool) {
    var ref := RefOf(l.task);
    && ref in w.records && ref in v.records
    && v.records[ref].cancellationRequested == w.records[ref].cancellationRequested
    && (if copy then v.records == w.records && Terminal(w.records[ref].status)
        else l.generation >= 1 && !Terminal(w.records[ref].status) && v.records[ref].status == Leased)
  }

  lemma {:induction false} LeaseEnds(w: World, now: int, id: nat, maxDequeue: nat, owner: string, visibility: int)
    requires id in w.queue
    ensures var f := LeaseCall(w, now, id, maxDequeue, owner, visibility);
      f.pc.Some? ==> f.pc.value.Observing? && FreshLease(w, f.world, f.pc.value.lease, f.pc.value.copy)
  {
    LeaseCallIs(w, now, id, maxDequeue, owner, visibility);
    hide LeaseCall, Poisoned, LiveLease;
  }

  // ---- the worker ----

  datatype Tick =
    | Report(message: string, news: seq<ToolMerge.Usage>, invocation: Option<string>)   // the executor's own checkpoint
    | Interval                                                                          // the heartbeat timer
    | Operator(reason: string)                                                          // a cancellation request
    | Lapse(owner: string, maxDequeue: nat)   // the message becomes visible and another worker leases

  /** How the execution ends. */
  datatype End = Done(receipt: Receipt) | Broke(error: string)

  datatype Signal = Working | Stopped | Lost

  datatype Answer = Idle | Duplicate | Succeeded | Faulted | Cancelled

  function AnswerTo(outcome: Outcome): Answer {
    match outcome case Succeed(_) => Succeeded case Fault(_) => Faulted case Stop(_) => Answer.Cancelled
  }

  predicate Empty(receipt: Receipt) { receipt.result == "" || receipt.executionId == "" }

  // ---- what the answer is, from what happened ----

  /** The lease is the one on record, and its message is there under this receipt. */
  predicate Standing(w: World, l: Lease) {
    && l.generation >= 1 && Filed(w.records, l.task) && LeasedTo(w.records, l)
    && l.id in w.queue && w.queue[l.id].receipt == l.receipt
  }

  /** No other invocation than this one is on record. */
  predicate KnownOnly(w: World, task: Task, invocation: Option<string>) {
    task.request.ref in w.records && var c := w.records[task.request.ref].checkpoint;
    c.Some? && c.value.invocation.Some? ==> c.value.invocation == invocation
  }

  /** The lease stands, on live work that nobody has asked to cancel. */
  predicate Clean(w: World, l: Lease, invocation: Option<string>) {
    && Standing(w, l) && KnownOnly(w, l.task, invocation)
    && w.records[l.task.request.ref].status == Leased && !w.records[l.task.request.ref].cancellationRequested
  }

  predicate Own(receipt: Option<string>, invocation: Option<string>) { receipt.None? || receipt == invocation }

  /** Nobody interferes: the executor reports under its own invocation, or the timer ticks. */
  predicate Quiet(tick: Tick, invocation: Option<string>) { tick.Interval? || (tick.Report? && Own(tick.invocation, invocation)) }

  predicate QuietThroughout(ticks: seq<Tick>, end: End, invocation: Option<string>) {
    (forall k :: 0 <= k < |ticks| ==> Quiet(ticks[k], invocation)) && (end.Done? ==> Own(end.receipt.invocation, invocation))
  }

  /** The first visible message is of this work, and lease() may have it. */
  predicate Offered(w: World, id: nat, task: Task, now: int, maxDequeue: nat) {
    && id in w.queue && w.queue[id].payload == TaskText(task) && Filed(w.records, task)
    && !Ended(w.records[task.request.ref]) && w.queue[id].receipt.count < maxDequeue
    && !HeldFrom(w.records[task.request.ref], id, w.queue[id].receipt.count + 1, now)
  }

  /** A heartbeat on a clean lease gets through and leaves it clean. */
  lemma {:induction false} CleanBeats(w: World, now: int, l: Lease, checkpoint: Checkpoint, visibility: int,
                                      v: World, r: Result<Lease, Error>, own: Option<string>)
    requires Clean(w, l, own) && Own(checkpoint.invocation, own) && HeartbeatDoes(w, now, l, checkpoint, visibility, v, r)
    ensures r.Ok? && Clean(v, r.value, own)
  {}

  /** The message received is of work that lease() may have, and from then on nobody interferes. */
  predicate Undisturbed(w: World, id: nat, task: Task, own: Option<string>, now: int, maxDequeue: nat, startFails: Option<string>, ticks: seq<Tick>, end: End) {
    && Offered(w, id, task, now, maxDequeue) && KnownOnly(w, task, own)
    && (w.records[task.request.ref].cancellationRequested || startFails.Some? || QuietThroughout(ticks, end, own))
  }

  /** The lease stands in v, and nothing is in the way of an answer. */
  predicate Answerable(w: World, v: World, l: Lease, own: Option<string>, startFails: Option<string>, ticks: seq<Tick>, end: End) {
    && RefOf(l.task) in w.records && !Ended(w.records[RefOf(l.task)]) && Standing(v, l)
    && (w.records[RefOf(l.task)].cancellationRequested || (Clean(v, l, own) && (startFails.Some? || QuietThroughout(ticks, end, own))))
  }

  lemma {:induction false} OfferedIsLeased(w: World, id: nat, task: Task, own: Option<string>, now: int, maxDequeue: nat, startFails: Option<string>,
                                           ticks: seq<Tick>, end: End, owner: string, visibility: int, v: World, given: Option<Lease>)
    requires Undisturbed(w, id, task, own, now, maxDequeue, startFails, ticks, end)
    requires LeaseDoes(w, id, w.queue[id].payload, now, maxDequeue, owner, visibility, v, given)
    ensures given.Some? && given.value.task == task && Answerable(w, v, given.value, own, startFails, ticks, end)
  {
    hide QuietThroughout;
  }

  /** Which answer a started execution gets. */
  predicate Deserves(answer: Answer, startFails: Option<string>, signal: Signal, end: End, settlesFirst: bool) {
    && (answer == Succeeded <==>
          startFails.None? && end.Done? && end.receipt.result != "" && end.receipt.executionId != ""
          && (signal == Working || settlesFirst))
    && (answer == Answer.Cancelled <==>
          startFails.None? && !(settlesFirst && end.Done?) && (signal == Stopped || (signal == Lost && settlesFirst)))
    && (answer == Faulted <==>
          || startFails.Some? || (signal == Lost && !settlesFirst) || (end.Broke? && signal == Working)
          || (end.Done? && (end.receipt.result == "" || end.receipt.executionId == "") && (signal == Working || settlesFirst)))
  }

  /** The error of a failed execution that still has its lease. */
  function ErrorOf(startFails: Option<string>, end: End): string {
    if startFails.Some? then startFails.value else if end.Broke? then end.error else "EMPTY_TERMINAL_RECEIPT"
  }

  /** What the record then says. */
  predicate Told(r: Record, answer: Answer, startFails: Option<string>, end: End) {
    match answer
    case Succeeded => end.Done? && r.status == Completed && r.error.None? && r.receipt.Some?
      && r.receipt.value.result == end.receipt.result && r.receipt.value.executionId == end.receipt.executionId
    case Faulted => r.status == Status.Failed && r.error == Some(ErrorOf(startFails, end))
    case Cancelled => r.status == Status.Cancelled && r.cancellationRequested
    case _ => false
  }

  class AzureCodexWorker {
    const queue: AzureAgentDispatchQueue
    const visibility: int

    constructor (queue: AzureAgentDispatchQueue, visibility: int)
      ensures this.queue == queue && this.visibility == visibility
    {
      this.queue, this.visibility := queue, visibility;
    }

    /** The protocol state in which this worker, as process pid, holds l with these notes. */
    ghost predicate Holds(s: State, n: map<nat, Notes>, pid: nat, now: int, l: Lease, notes: Notes)
      reads queue.client, queue.state
    {
      && queue.Valid() && queue.World() == s.world && s.clock == now
      && pid in s.procs && s.procs[pid] == Holding(l, false) && l.generation >= 1
      && pid in n && n[pid] == notes && ToolMerge.Normal(notes.tools)
    }

    /** The pop receipt is outdated, or the record is not this task's any more. */
    ghost predicate LeaseIsLost(l: Lease)
      requires queue.Valid()
      reads queue.client, queue.state
    {
      || !Current(queue.World().queue, l.id, l.receipt)
      || (RefOf(l.task) in queue.state.records && !InScope(queue.state.records[RefOf(l.task)], RefOf(l.task)))
    }

    ghost predicate Recorded(l: Lease, outcome: Outcome)
      reads queue.state
    {
      RefOf(l.task) in queue.state.records && Shows(queue.state.records[RefOf(l.task)], Commit(l, outcome))
    }

    /** One more heartbeat: the next number, and the tools merged with the news. */
    method Renew(ghost s: State, ghost n: map<nat, Notes>, ghost pid: nat, now: int, l: Lease, notes: Notes,
                 message: string, news: seq<ToolMerge.Usage>, invocation: Option<string>)
      returns (renewed: bool, after: Lease, noted: Notes, ghost es: seq<Event>, ghost t: State, ghost m: map<nat, Notes>)
      requires Holds(s, n, pid, now, l, notes) && ValidVisibility(visibility)
      modifies queue.client, queue.state
      ensures Leads(s, n, es, t, m) && Holds(t, m, pid, now, after, noted) && t.procs.Keys == s.procs.Keys
      ensures noted.sequence == notes.sequence + 1 && EntriesFollow(notes.tools, noted.tools)
      ensures after.task == l.task
      ensures !renewed ==> after == l && !Current(queue.World().queue, l.id, l.receipt)
      ensures forall own :: Clean(s.world, l, own) && Own(invocation, own) ==> renewed && Clean(queue.World(), after, own)
    {
      hide HeartbeatCall, ToolMerge.Merge, ToolMerge.Normal, HeartbeatDoes, Clean, Swap;
      MergeFollows(notes.tools, news);
      noted := Notes(notes.sequence + 1, ToolMerge.Merge(notes.tools, news));
      var checkpoint := Checkpoint(noted.sequence, message, noted.tools, invocation);
      ToolMerge.AcceptedExact(noted.tools);
      es := HeartbeatLeads(s, n, pid, checkpoint, visibility);
      HeartbeatCallIs(s.world, now, l, checkpoint, visibility);
      var answer := queue.Heartbeat(now, l, checkpoint, visibility);
      renewed, after := answer.Ok?, if answer.Ok? then answer.value else l;
      forall own | Clean(s.world, l, own) && Own(invocation, own) ensures answer.Ok? && Clean(queue.World(), answer.value, own) {
        CleanBeats(s.world, now, l, checkpoint, visibility, queue.World(), answer, own);
      }
      t := State(queue.World(), now, s.procs[pid := Holding(after, false)]);
      m := n[pid := noted];
    }

    /** The lease() call, as process pid. */
    method Begin(ghost s: State, ghost n: map<nat, Notes>, ghost pid: nat, now: int, owner: string, maxDequeue: nat)
      returns (leased: Result<Option<Lease>, Error>, ghost es: seq<Event>, ghost t: State, ghost m: map<nat, Notes>)
      requires queue.Valid() && queue.World() == s.world && s.clock == now && pid !in s.procs
      modifies queue.client, queue.state
      ensures queue.Valid() && Leads(s, n, es, t, m) && t.world == queue.World() && t.clock == now
      ensures leased.Err? || leased.value.None? ==> pid !in t.procs
      ensures !ValidVisibility(visibility) ==> leased.Err?
      ensures ValidVisibility(visibility) && FirstVisible(old(queue.client.messages)).None? ==> leased == Ok(Option.None) && t.world == s.world
      ensures ValidVisibility(visibility) && FirstVisible(old(queue.client.messages)).Some? ==>
        var id := FirstVisible(old(queue.client.messages)).value;
        id in s.world.queue && LeaseDoes(s.world, id, s.world.queue[id].payload, now, maxDequeue, owner, visibility, t.world, Given(leased))
      ensures leased.Ok? && leased.value.Some? ==>
        && pid in t.procs && t.procs[pid].Observing? && t.procs[pid].lease == leased.value.value
        && FreshLease(s.world, t.world, leased.value.value, t.procs[pid].copy) && ValidVisibility(visibility)
    {
      hide LeaseCall, FirstVisible, Leads, Step, LeaseDoes;
      es, t, m := [], s, n;
      FirstStep(s, n);
      ghost var visible := FirstVisible(queue.client.messages);
      leased := queue.Lease(now, visibility, maxDequeue, owner);
      if ValidVisibility(visibility) && visible.Some? {
        es, m := LeaseLeads(s, n, pid, visible.value, maxDequeue, owner, visibility);
        LeaseEnds(s.world, now, visible.value, maxDequeue, owner, visibility);
        t := State(queue.World(), now, Placed(s.procs, Some(pid), LeaseCall(s.world, now, visible.value, maxDequeue, owner, visibility).pc));
      }
    }

    /** One thing that happens while the executor runs. */
    method Tend(ghost s: State, ghost n: map<nat, Notes>, ghost pid: nat, now: int, l: Lease, notes: Notes, tick: Tick)
      returns (signal: Signal, after: Lease, noted: Notes, ghost es: seq<Event>, ghost t: State, ghost m: map<nat, Notes>)
      requires Holds(s, n, pid, now, l, notes) && ValidVisibility(visibility)
      modifies queue.client, queue.state
      ensures Leads(s, n, es, t, m) && Holds(t, m, pid, now, after, noted)
      ensures notes.sequence <= noted.sequence && EntriesFollow(notes.tools, noted.tools)
      ensures signal.Lost? ==> LeaseIsLost(after)
      ensures after.task == l.task
      ensures signal.Stopped? ==> RefOf(l.task) in queue.state.records && queue.state.records[RefOf(l.task)].cancellationRequested
      ensures forall own :: Clean(s.world, l, own) && Quiet(tick, own) ==> signal.Working? && Clean(queue.World(), after, own)
    {
      signal, after, noted, es, t, m := Working, l, notes, [], s, n;
      FollowsItself(notes.tools);
      match tick {
        case Report(message, news, invocation) =>
          var renewed;
          renewed, after, noted, es, t, m := Renew(s, n, pid, now, l, notes, message, news, invocation);
        case Interval =>
          var observed := queue.Observe(RefOf(l.task));
          if observed.Err? {
            signal := Lost;
          } else if observed.value.Some? && observed.value.value.cancellationRequested {
            signal := Stopped;
          } else {
            var renewed;
            renewed, after, noted, es, t, m := Renew(s, n, pid, now, l, notes, "worker heartbeat", [], Option.None);
            if !renewed { signal := Lost; }
          }
        case Operator(reason) =>
          ghost var other := FreshPid(s.procs);
          es, m := OperatorLeads(s, n, other, RefOf(l.task), reason);
          var asked := queue.RequestCancellation(RefOf(l.task), reason);
          t := State(queue.World(), now, s.procs);
        case Lapse(owner, maxDequeue) =>
          es, t, m := LetLapse(s, n, pid, now, l, notes, owner, maxDequeue);
      }
    }

    /** The message's visibility timeout runs out, if the message is still there. */
    method LetVisible(ghost s: State, ghost n: map<nat, Notes>, id: nat) returns (ghost es: seq<Event>, ghost t: State)
      requires queue.Valid() && queue.World() == s.world
      modifies queue.client
      ensures Leads(s, n, es, t, n) && queue.Valid() && t == s.(world := queue.World())
    {
      queue.client.Expire(id);
      es, t := [], s;
      if id in s.world.queue {
        LeadsOne(s, n, DispatchProtocol.Expire(id));
        es, t := [DispatchProtocol.Expire(id)], Step(s, DispatchProtocol.Expire(id));
      }
    }

    method LetLapse(ghost s: State, ghost n: map<nat, Notes>, ghost pid: nat, now: int, l: Lease, notes: Notes, owner: string, maxDequeue: nat)
      returns (ghost es: seq<Event>, ghost t: State, ghost m: map<nat, Notes>)
      requires Holds(s, n, pid, now, l, notes) && ValidVisibility(visibility)
      modifies queue.client, queue.state
      ensures Leads(s, n, es, t, m) && Holds(t, m, pid, now, l, notes)
    {
      hide LeaseCall, LeaseDoes, FirstVisible, Leads, ToolMerge.Normal, Step, Given, GivenLease;
      es, t := LetVisible(s, n, l.id);
      m := n;
      ghost var visible := FirstVisible(queue.client.messages);
      var taken := queue.Lease(now, visibility, maxDequeue, owner);
      if visible.Some? {
        ghost var other := FreshPid(t.procs);
        ghost var fs, k := LeaseLeads(t, m, other, visible.value, maxDequeue, owner, visibility);
        ghost var f := LeaseCall(t.world, now, visible.value, maxDequeue, owner, visibility);
        ghost var u := State(f.world, now, Placed(t.procs, Some(other), f.pc));
        LeadsOn(s, n, es, t, m, fs, u, k);
        es, t, m := es + fs, u, k;
      }
    }

    /** complete(), fail() or cancel(). */
    method Call(ghost s: State, ghost n: map<nat, Notes>, ghost pid: nat, now: int, l: Lease, outcome: Outcome, end: End)
      returns (r: Result<Answer, Error>, ghost es: seq<Event>, ghost t: State)
      requires queue.Valid() && queue.World() == s.world && s.clock == now
      requires Enabled(s, Finish(pid, outcome)) && s.procs[pid].lease == l
      requires outcome.Succeed? ==> end == Done(outcome.receipt) && !Empty(outcome.receipt)
      modifies queue.client, queue.state
      ensures queue.Valid() && Leads(s, n, es, t, n) && t == State(queue.World(), now, s.procs - {pid})
      ensures r.Ok? ==> r.value == AnswerTo(outcome) && Answers(r.value, l, end) && Recorded(l, outcome)
      ensures Standing(s.world, l) && !outcome.Succeed? ==> r.Ok?
      ensures forall own :: Clean(s.world, l, own) && (outcome.Succeed? ==> Own(outcome.receipt.invocation, own)) ==> r.Ok?
    {
      es := FinishLeads(s, n, pid, outcome);
      hide FinishCall, Leads;
      var landed := queue.Terminate(l, outcome);
      t := State(queue.World(), now, s.procs - {pid});
      if landed.Err? { return Result.Err(landed.error), es, t; }
      assert Recorded(l, outcome);
      r := Ok(AnswerTo(outcome));
    }

    /** The one terminal call, or none when the lease is lost before the executor settles. */
    method Conclude(ghost s: State, ghost n: map<nat, Notes>, ghost pid: nat, now: int, l: Lease, notes: Notes,
                    signal: Signal, end: End, settlesFirst: bool)
      returns (r: Result<Answer, Error>, ghost es: seq<Event>, ghost t: State)
      requires Holds(s, n, pid, now, l, notes) && (signal.Lost? ==> LeaseIsLost(l))
      modifies queue.client, queue.state
      ensures queue.Valid() && Leads(s, n, es, t, n) && t == State(queue.World(), now, s.procs - {pid})
      ensures r.Ok? ==> r.value != Idle && r.value != Duplicate && Answers(r.value, l, end)
      ensures r.Ok? ==> Deserves(r.value, Option.None, signal, end, settlesFirst)
      ensures r.Ok? && !(signal.Lost? && !settlesFirst) ==>
        RefOf(l.task) in queue.state.records && Told(queue.state.records[RefOf(l.task)], r.value, Option.None, end)
      ensures forall own :: signal.Working? && Clean(s.world, l, own) && (end.Done? ==> Own(end.receipt.invocation, own)) ==> r.Ok?
    {
      if signal.Lost? && !settlesFirst {
        LeadsOne(s, n, Crash(pid));
        es, t := [Crash(pid)], Step(s, Crash(pid));
        return Ok(Faulted), es, t;
      }
      var outcome :=
        if signal != Working && !(settlesFirst && end.Done?) then Stop("worker cancellation observed")
        else if end.Broke? then Fault(end.error)
        else if Empty(end.receipt) then Fault("EMPTY_TERMINAL_RECEIPT")
        else Succeed(end.receipt);
      hide Answers;
      r, es, t := Call(s, n, pid, now, l, outcome, end);
    }

    /** The look at the record that follows the claim. */
    method Look(ghost s: State, ghost n: map<nat, Notes>, ghost pid: nat, now: int, l: Lease)
      returns (found: Result<Record, Error>, ghost es: seq<Event>, ghost t: State, ghost m: map<nat, Notes>)
      requires queue.Valid() && queue.World() == s.world && s.clock == now
      requires pid in s.procs && s.procs[pid].Observing? && s.procs[pid].lease == l && RefOf(l.task) in s.world.records
      requires !s.procs[pid].copy ==> l.generation >= 1
      ensures Leads(s, n, es, t, m) && t.world == s.world && t.clock == now
      ensures found.Ok? ==> found.value == queue.state.records[RefOf(l.task)]
      ensures Filed(s.world.records, l.task) ==> found.Ok?
      ensures found.Err? || Terminal(found.value.status) ==> pid !in t.procs
      ensures found.Ok? && !Terminal(found.value.status) ==>
        && pid in t.procs && t.procs[pid] == Holding(l, found.value.cancellationRequested)
        && (l.generation >= 1 && !found.value.cancellationRequested ==> Holds(t, m, pid, now, l, NotesOf(found.value.checkpoint)))
    {
      var observed := queue.Observe(RefOf(l.task));
      LeadsOne(s, n, Next(pid));
      es, t, m := [Next(pid)], Step(s, Next(pid)), NotesAfter(s, n, Next(pid));
      if observed.Err? { return Result.Err(observed.error), es, t, m; }
      var record := observed.value.value;
      if record.checkpoint.Some? {
        ToolMerge.FoldNormal([], [] + record.checkpoint.value.tools);
      }
      found := Ok(record);
    }

    /** From the start of the executor to the terminal call. */
    method Execute(ghost s: State, ghost n: map<nat, Notes>, ghost pid: nat, now: int, l: Lease, notes: Notes,
                   startFails: Option<string>, ticks: seq<Tick>, end: End, settlesFirst: bool)
      returns (r: Result<Answer, Error>, held: Lease, signal: Signal, ghost es: seq<Event>, ghost t: State, ghost m: map<nat, Notes>)
      requires Holds(s, n, pid, now, l, notes) && ValidVisibility(visibility)
      modifies queue.client, queue.state
      ensures queue.Valid() && Leads(s, n, es, t, m) && t.world == queue.World() && pid !in t.procs
      ensures held.task == l.task
      ensures r.Ok? ==> r.value != Idle && r.value != Duplicate && Answers(r.value, held, end)
      ensures r.Ok? ==> Deserves(r.value, startFails, signal, end, settlesFirst)
      ensures r.Ok? && (startFails.Some? || !(signal.Lost? && !settlesFirst)) ==>
        RefOf(l.task) in queue.state.records && Told(queue.state.records[RefOf(l.task)], r.value, startFails, end)
      ensures forall own :: Clean(s.world, l, own) && (startFails.Some? || QuietThroughout(ticks, end, own)) ==> r.Ok? && signal.Working?
    {
      hide Leads, Answers, Step, ToolMerge.Normal, Clean;
      signal, held, es, t, m := Working, l, [], s, n;
      FirstStep(s, n);
      if startFails.Some? {
        r, es, t := Call(s, n, pid, now, l, Fault(startFails.value), end);
        return;
      }
      var noted, i := notes, 0;
      ghost var fs;
      hide Holds, LeaseIsLost;
      while i < |ticks| && signal.Working?
        invariant 0 <= i <= |ticks| && queue.Valid() && held.task == l.task
        invariant Leads(s, n, es, t, m) && Holds(t, m, pid, now, held, noted)
        invariant signal.Lost? ==> LeaseIsLost(held)
        invariant forall own :: Clean(s.world, l, own) && QuietThroughout(ticks, end, own) ==> signal.Working? && Clean(t.world, held, own)
      {
        ghost var before, were := t, m;
        signal, held, noted, fs, t, m := Tend(t, m, pid, now, held, noted, ticks[i]);
        LeadsOn(s, n, es, before, were, fs, t, m);
        es, i := es + fs, i + 1;
      }
      ghost var before := t;
      r, fs, t := Conclude(t, m, pid, now, held, noted, signal, end, settlesFirst);
      LeadsOn(s, n, es, before, m, fs, t, m);
      es := es + fs;
    }

    /** What an answer vouches for. */
    ghost predicate Answers(answer: Answer, l: Lease, end: End)
      requires queue.Valid()
      reads queue.client, queue.state
    {
      match answer
      case Succeeded =>
        && end.Done? && !Empty(end.receipt) && Recorded(l, Succeed(end.receipt))
        && !queue.state.records[RefOf(l.task)].cancellationRequested
        && !Current(queue.World().queue, l.id, l.receipt)
      case Cancelled => exists reason :: Recorded(l, Stop(reason))
      case Faulted => LeaseIsLost(l) || exists error :: Recorded(l, Fault(error))
      case _ => false
    }

    /** From the lease to the answer; w is the world before the lease. */
    method RunLeased(ghost w: World, ghost s: State, ghost n: map<nat, Notes>, ghost pid: nat, now: int, l: Lease,
                     startFails: Option<string>, ticks: seq<Tick>, end: End, settlesFirst: bool)
      returns (r: Result<Answer, Error>, started: bool, held: Lease, signal: Signal,
               ghost es: seq<Event>, ghost t: State, ghost m: map<nat, Notes>)
      requires queue.Valid() && queue.World() == s.world && s.clock == now && ValidVisibility(visibility)
      requires pid in s.procs && s.procs[pid].Observing? && s.procs[pid].lease == l && FreshLease(w, s.world, l, s.procs[pid].copy)
      modifies queue.client, queue.state
      ensures queue.Valid() && Leads(s, n, es, t, m) && t.world == queue.World() && pid !in t.procs
      ensures held.task == l.task && RefOf(l.task) in w.records
      ensures var was := w.records[RefOf(l.task)];
        && (r == Ok(Duplicate) ==> t.world.records == s.world.records)
        && (started ==> !Terminal(was.status) && !was.cancellationRequested)
        && (r.Ok? ==> r.value != Idle && (r.value == Duplicate <==> Ended(was)) && (started <==> !Ended(was) && !was.cancellationRequested))
        && (r.Ok? && !started && !Ended(was) ==> r.value == Answer.Cancelled)
      ensures r.Ok? && r.value != Duplicate ==> Answers(r.value, held, end)
      ensures started && r.Ok? ==> Deserves(r.value, startFails, signal, end, settlesFirst)
      ensures r.Ok? && r.value != Duplicate && (!started || startFails.Some? || !(signal.Lost? && !settlesFirst)) ==>
        RefOf(l.task) in t.world.records && Told(t.world.records[RefOf(l.task)], r.value, startFails, end)
      ensures forall own :: Answerable(w, s.world, l, own, startFails, ticks, end) ==> r.Ok? && signal == Working
    {
      hide Leads, Answers, Holds, Step, ValidVisibility, Deserves, QuietThroughout, LeasedTo, KnownOnly;
      started, held, signal := false, l, Working;
      var found;
      found, es, t, m := Look(s, n, pid, now, l);
      if found.Err? { return Result.Err(found.error), started, held, signal, es, t, m; }
      var existing := found.value;
      if Terminal(existing.status) { return Ok(Duplicate), started, held, signal, es, t, m; }
      ghost var middle, noted, fs := t, m, [];
      if existing.cancellationRequested {
        r, fs, t := Call(t, m, pid, now, l, Stop("cancellation requested before execution"), end);
      } else {
        hide Shows, Told, Standing;
        started := true;
        r, held, signal, fs, t, m := Execute(t, m, pid, now, l, NotesOf(existing.checkpoint), startFails, ticks, end, settlesFirst);
      }
      LeadsOn(s, n, es, middle, noted, fs, t, m);
      es := es + fs;
    }

    /** runOnce(): executes only live work that nobody has asked to cancel; success is answered only with the
      * result on record, under this lease, uncancelled, and its message gone. Conversely the answer follows
      * from what happened: what was leased, how the start went, how the watch over it ended (signal) and how
      * the execution did. */
    method RunOnce(ghost s: State, ghost n: map<nat, Notes>, ghost pid: nat, now: int, owner: string, maxDequeue: nat,
                   startFails: Option<string>, ticks: seq<Tick>, end: End, settlesFirst: bool)
      returns (r: Result<Answer, Error>, started: bool, held: Option<Lease>, signal: Signal,
               ghost es: seq<Event>, ghost t: State, ghost m: map<nat, Notes>)
      requires queue.Valid() && queue.World() == s.world && s.clock == now && pid !in s.procs
      modifies queue.client, queue.state
      ensures queue.Valid() && Leads(s, n, es, t, m) && t.world == queue.World() && pid !in t.procs
      ensures started ==> held.Some? && var ref := RefOf(held.value.task);
        ref in old(queue.state.records) && !Terminal(old(queue.state.records)[ref].status) && !old(queue.state.records)[ref].cancellationRequested
      ensures r == Ok(Duplicate) ==> held.Some? && !started && queue.state.records == old(queue.state.records)
      ensures r.Ok? && held.Some? && r.value != Duplicate ==> Answers(r.value, held.value, end)
      // which answer
      ensures r.Ok? ==> (r.value == Idle <==> held.None?)
      ensures ValidVisibility(visibility) && FirstVisible(old(queue.client.messages)).None? ==> r == Ok(Idle) && t.world == s.world
      ensures held.None? && ValidVisibility(visibility) && FirstVisible(old(queue.client.messages)).Some? ==>
        var id := FirstVisible(old(queue.client.messages)).value;
        id in s.world.queue && LeaseDoes(s.world, id, s.world.queue[id].payload, now, maxDequeue, owner, visibility, t.world, Option.None)
      ensures r.Ok? && held.Some? ==>
        RefOf(held.value.task) in s.world.records && var was := s.world.records[RefOf(held.value.task)];
        && (r.value == Duplicate <==> Ended(was)) && (started <==> !Ended(was) && !was.cancellationRequested)
        && (!started && !Ended(was) ==> r.value == Answer.Cancelled)
      ensures started && r.Ok? ==> Deserves(r.value, startFails, signal, end, settlesFirst)
      ensures r.Ok? && held.Some? && r.value != Duplicate && (!started || startFails.Some? || !(signal.Lost? && !settlesFirst)) ==>
        RefOf(held.value.task) in t.world.records && Told(t.world.records[RefOf(held.value.task)], r.value, startFails, end)
      // and nothing goes wrong by itself
      ensures forall id, task, own ::
        ValidVisibility(visibility) && FirstVisible(old(queue.client.messages)) == Some(id)
        && Undisturbed(s.world, id, task, own, now, maxDequeue, startFails, ticks, end) ==>
          r.Ok? && held.Some? && held.value.task == task && signal == Working
    {
      hide Leads, Answers, Holds, Step, ValidVisibility, LeaseDoes, Told, Deserves, Undisturbed, Answerable, FirstVisible;
      started, held, signal := false, Option.None, Working;
      ghost var visible := FirstVisible(queue.client.messages);
      var leased;
      leased, es, t, m := Begin(s, n, pid, now, owner, maxDequeue);
      forall id, task, own | ValidVisibility(visibility) && visible == Some(id)
        && Undisturbed(s.world, id, task, own, now, maxDequeue, startFails, ticks, end)
        ensures leased.Ok? && leased.value.Some? && leased.value.value.task == task
        ensures Answerable(s.world, t.world, leased.value.value, own, startFails, ticks, end)
      {
        OfferedIsLeased(s.world, id, task, own, now, maxDequeue, startFails, ticks, end, owner, visibility, t.world, Given(leased));
      }
      if leased.Err? { return Result.Err(leased.error), started, held, signal, es, t, m; }
      if leased.value.None? { return Ok(Idle), started, held, signal, es, t, m; }
      ghost var middle, noted, fs := t, m, [];
      var after;
      r, started, after, signal, fs, t, m := RunLeased(s.world, t, m, pid, now, leased.value.value, startFails, ticks, end, settlesFirst);
      held := Some(after);
      LeadsOn(s, n, es, middle, noted, fs, t, m);
      es := es + fs;
    }
  }
}
