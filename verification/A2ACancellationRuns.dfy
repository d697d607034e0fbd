/** Cancelling a parent while its children go on: passes, bindings and the aborted orchestrator
  * run take turns at the store, and each decides on the dispatch as it last got it back. */
module A2ACancellationRuns {
  import opened Prelude
  import opened A2ADispatch
  import opened A2ACancellation

  /** A pass over all children, the bindChild of one child, or what follows the outcome of one child. */
  datatype Kind = Whole | Binder | Settler

  datatype Phase = Aborting | Deciding | Calling | Acking

  /** seen is the dispatch the process last got back from the store. */
  datatype Proc = Proc(kind: Kind, mode: Mode, seen: Dispatch, at: nat, phase: Phase)

  datatype Ending = Ending(status: ChildStatus, job: Option<string>)

  /** dispatchChildren: its children run and settle, then their outcomes are recorded once more,
    * the children acknowledged if it was cancelled, and the parent ended. */
  datatype Orchestration =
    | NoRun
    | Executing(aborted: bool, started: set<nat>, settled: map<nat, Ending>)
    | Recording(results: map<nat, Ending>, recorded: nat)
    | Confirming(seen: Dispatch, confirmed: nat, status: DispatchStatus)
    | Ended
    | Broken

  datatype State = State(parent: Parent, procs: map<nat, Proc>, run: Orchestration)

  datatype Event =
    | Request(pid: nat, agents: Registry, stored: bool)        // cancelDispatch puts the intent on file
    | Recover(pid: nat, handler: Option<Registry>)             // reconcileCancellation, after a restart
    | Abort(pid: nat)                                          // cancelDispatch aborts the run
    | Choose(pid: nat)                                         // the next child; a provider may be called
    | Answer(pid: nat, confirmed: bool)                        // the provider's answer, or the deadline
    | Ack(pid: nat, stored: bool)
    | Finish(pid: nat, stored: bool)                           // the pass is through
    | Start(n: nat)
    | Bound(pid: nat, n: nat, job: string, agents: Registry, stored: bool)
    | Settle(pid: nat, n: nat, ending: Ending, stored: bool)   // onChildSettled records the outcome
    | Collect                                                  // every started child has settled
    | RecordNext(stored: bool)
    | ReadIntent(stored: bool)
    | ConfirmNext(stored: bool)
    | Close(stored: bool)
    | Other(op: Op, stored: bool)                              // any other operation but the end of a dispatch
    | Crash

  function Width(s: State): nat { if s.parent.dispatch.Some? then |s.parent.dispatch.value.children| else 0 }

  predicate InPhase(s: State, pid: nat, phase: Phase) {
    pid in s.procs && s.procs[pid].phase == phase && s.parent.dispatch.Some?
  }

  predicate AtChild(s: State, pid: nat) { pid in s.procs && s.procs[pid].at < |s.procs[pid].seen.children| }

  predicate Enabled(s: State, e: Event) {
    match e
    case Request(pid, _, _) => pid !in s.procs && s.parent.dispatch.Some?
    case Recover(pid, _) => pid !in s.procs && Requested(s.parent) && !DispatchTerminal(s.parent.dispatch.value.status)
    case Abort(pid) => InPhase(s, pid, Aborting)
    case Choose(pid) => InPhase(s, pid, Deciding) && AtChild(s, pid)
    case Answer(pid, _) => InPhase(s, pid, Calling) && AtChild(s, pid)
    case Ack(pid, _) => InPhase(s, pid, Acking) && AtChild(s, pid)
    case Finish(pid, _) => InPhase(s, pid, Deciding) && !AtChild(s, pid)
    case Start(n) => s.run.Executing? && !s.run.aborted && n < Width(s)
    case Bound(pid, n, _, _, _) => pid !in s.procs && !s.run.NoRun? && n < Width(s)
    case Settle(pid, n, ending, _) =>
      && pid !in s.procs && s.run.Executing? && n < Width(s) && n in s.run.started && n !in s.run.settled
      && ChildTerminal(ending.status)
    case Collect =>
      && s.run.Executing? && s.run.started <= s.run.settled.Keys
      && (forall pid :: pid in s.procs ==> !s.procs[pid].kind.Settler?)
      && (s.run.aborted || forall n :: 0 <= n < Width(s) ==> n in s.run.started)
    case RecordNext(_) => s.run.Recording? && s.run.recorded < Width(s) && s.run.recorded in s.run.results
    case ReadIntent(_) => s.run.Recording? && s.run.recorded == Width(s) && s.parent.dispatch.Some?
    case ConfirmNext(_) => s.run.Confirming? && s.run.confirmed < |s.run.seen.children|
    case Close(_) => s.run.Confirming? && s.run.confirmed == |s.run.seen.children| && s.parent.dispatch.Some?
    case Other(op, _) => !op.Finalize?
    case Crash => true
  }

  /** What a process does with the child it is at. bindChild calls only with the intent on file
    * and the child not acknowledged; a pass as its mode says. */
  function Choice(q: Proc): A2ACancellation.Step
    requires q.at < |q.seen.children|
  {
    var c := q.seen.children[q.at];
    if q.kind.Whole? then Decide(q.mode, c)
    else if !q.seen.cancelRequested || c.acked || c.job.None? || !q.mode.Live? then Skip
    else TrustedCancel(q.mode.agents, c)
  }

  function Advance(s: State, pid: nat): State
    requires pid in s.procs
  {
    var q := s.procs[pid];
    s.(procs := if q.kind.Whole? then s.procs[pid := q.(at := q.at + 1, phase := Deciding)] else s.procs - {pid})
  }

  predicate Lands(p: Parent, op: Op, stored: bool) { stored && Apply(p, op).Ok? }

  function Outcomes(children: seq<Child>): (r: seq<Outcome>)
    ensures |r| == |children|
    ensures forall i :: 0 <= i < |r| ==> r[i] == Outcome(children[i].plan.key, children[i].status, children[i].job)
  {
    seq(|children|, i requires 0 <= i < |children| => Outcome(children[i].plan.key, children[i].status, children[i].job))
  }

  function OutcomeAt(s: State, n: nat, ending: Ending): Op
    requires n < Width(s)
  {
    Record(Outcome(s.parent.dispatch.value.children[n].plan.key, ending.status, ending.job))
  }

  /** The run's outcomes once it ends: the children it never started count as canceled. */
  function Collected(s: State): map<nat, Ending>
    requires s.run.Executing?
  {
    map n: nat | 0 <= n < Width(s) :: if n in s.run.settled then s.run.settled[n] else Ending(ChildCanceled, None)
  }

  predicate AllEndings(results: map<nat, Ending>, status: ChildStatus) { forall n :: n in results ==> results[n].status == status }

  function Next(s: State, e: Event): State
    requires Enabled(s, e)
  {
    match e
    case Request(pid, agents, stored) =>
      var p := After(s.parent, RequestCancel, stored);
      if !Lands(s.parent, RequestCancel, stored) then s
      else s.(parent := p, procs := s.procs[pid := Proc(Whole, Live(agents), p.dispatch.value, 0, Aborting)])
    case Recover(pid, handler) =>
      s.(procs := s.procs[pid := Proc(Whole, Restart(handler), s.parent.dispatch.value, 0, Deciding)])
    case Abort(pid) =>
      s.(procs := s.procs[pid := s.procs[pid].(phase := Deciding)],
         run := if s.run.Executing? then s.run.(aborted := true) else s.run)
    case Choose(pid) =>
      var q := s.procs[pid];
      var step := Choice(q);
      if step.Call? then s.(procs := s.procs[pid := q.(phase := Calling)])
      else if step.AckOnly? then s.(procs := s.procs[pid := q.(phase := Acking)])
      else Advance(s, pid)
    case Answer(pid, confirmed) =>
      if confirmed then s.(procs := s.procs[pid := s.procs[pid].(phase := Acking)]) else Advance(s, pid)
    case Ack(pid, stored) => AckNext(s, pid, stored)
    case Finish(pid, stored) =>
      var q := s.procs[pid];
      var last := if q.mode.Live? then q.seen else s.parent.dispatch.value;
      s.(parent := if AllTerminal(last) then After(s.parent, Finalize(AllCanceled, Outcomes(last.children)), stored) else s.parent,
         procs := s.procs - {pid})
    case Start(n) => s.(run := s.run.(started := s.run.started + {n}))
    case Bound(pid, n, job, agents, stored) =>
      var op := Bind(s.parent.dispatch.value.children[n].plan.key, job);
      var p := After(s.parent, op, stored);
      if !Lands(s.parent, op, stored) then s
      else s.(parent := p, procs := s.procs[pid := Proc(Binder, Live(agents), p.dispatch.value, n, Deciding)])
    case Settle(pid, n, ending, stored) =>
      var op := OutcomeAt(s, n, ending);
      var p := After(s.parent, op, stored);
      if !Lands(s.parent, op, stored) then s.(run := Broken)
      else
        State(p, if p.dispatch.value.cancelRequested && ending.status == ChildCanceled
                 then s.procs[pid := Proc(Settler, Live(map[]), p.dispatch.value, n, Acking)] else s.procs,
              s.run.(settled := s.run.settled[n := ending]))
    case Collect => s.(run := Recording(Collected(s), 0))
    case RecordNext(stored) =>
      var op := OutcomeAt(s, s.run.recorded, s.run.results[s.run.recorded]);
      State(After(s.parent, op, stored), s.procs, if Lands(s.parent, op, stored) then s.run.(recorded := s.run.recorded + 1) else Broken)
    case ReadIntent(stored) => ReadNext(s, stored)
    case ConfirmNext(stored) =>
      var c := s.run.seen.children[s.run.confirmed];
      if c.acked || !ChildTerminal(c.status) then s.(run := s.run.(confirmed := s.run.confirmed + 1))
      else
        State(After(s.parent, Acknowledge(c.plan.key), stored), s.procs,
              if Lands(s.parent, Acknowledge(c.plan.key), stored) then s.run.(confirmed := s.run.confirmed + 1) else Broken)
    case Close(stored) =>
      var op := Finalize(s.run.status, Outcomes(s.parent.dispatch.value.children));
      State(After(s.parent, op, stored), s.procs, if Lands(s.parent, op, stored) then Ended else Broken)
    case Other(op, stored) => s.(parent := After(s.parent, op, stored))
    case Crash => s.(procs := map[], run := NoRun)
  }

  /** An acknowledgement; a pass goes on with the dispatch that comes back. */
  function AckNext(s: State, pid: nat, stored: bool): State
    requires InPhase(s, pid, Acking) && AtChild(s, pid)
  {
    var q := s.procs[pid];
    var op := Acknowledge(q.seen.children[q.at].plan.key);
    var p := After(s.parent, op, stored);
    if !Lands(s.parent, op, stored)
    then State(s.parent, s.procs - {pid}, if q.kind.Settler? then Broken else s.run)
    else if q.kind.Whole? && p.dispatch.Some? then State(p, s.procs[pid := Proc(Whole, q.mode, p.dispatch.value, q.at + 1, Deciding)], s.run)
    else State(p, s.procs - {pid}, s.run)
  }

  /** Once the outcomes are recorded the run looks whether it was cancelled; if every child was, it was. */
  function ReadNext(s: State, stored: bool): State
    requires s.run.Recording? && s.parent.dispatch.Some?
  {
    var d := s.parent.dispatch.value;
    var all := AllEndings(s.run.results, ChildCanceled);
    if !d.cancelRequested && !all
    then s.(run := Confirming(d, |d.children|, if AllEndings(s.run.results, ChildCompleted) then AllCompleted else SomeFailed))
    else if d.cancelRequested then s.(run := Confirming(d, 0, AllCanceled))
    else
      var p := After(s.parent, RequestCancel, stored);
      if !Lands(s.parent, RequestCancel, stored) || p.dispatch.None? then s.(run := Broken)
      else State(p, s.procs, Confirming(p.dispatch.value, 0, AllCanceled))
  }

  // ---- runs ----

  /** The state before the kth event. */
  function At(s: State, es: seq<Event>, k: nat): State
    requires k <= |es|
  {
    if k == 0 then s
    else
      var t := At(s, es, k - 1);
      if Enabled(t, es[k - 1]) then Next(t, es[k - 1]) else t
  }

  predicate IsRun(s: State, es: seq<Event>) {
    forall k :: 0 <= k < |es| ==> Enabled(At(s, es, k), es[k])
  }

  datatype ProviderCall = ProviderCall(child: nat, key: string, job: string, agents: Registry)

  /** The provider call an event makes. */
  function CallOf(s: State, e: Event): Option<ProviderCall> {
    if !e.Choose? || !Enabled(s, e) || !Choice(s.procs[e.pid]).Call? then None
    else
      var q := s.procs[e.pid];
      var agents := if q.mode.Live? then q.mode.agents else q.mode.handler.UnwrapOr(map[]);
      Some(ProviderCall(q.at, q.seen.children[q.at].plan.key, q.seen.children[q.at].job.UnwrapOr(""), agents))
  }

  /** The keys of the children that providers are called for, in order. */
  function Calls(s: State, es: seq<Event>, k: nat): seq<string>
    requires k <= |es|
  {
    if k == 0 then []
    else
      var call := CallOf(At(s, es, k - 1), es[k - 1]);
      Calls(s, es, k - 1) + if call.Some? then [call.value.key] else []
  }

  // ---- what every step keeps ----

  predicate ProcOk(p: Parent, q: Proc) {
    && p.dispatch.Some? && LaterDispatch(q.seen, p.dispatch.value) && q.at <= |q.seen.children|
    && (q.kind.Whole? ==> q.seen.cancelRequested || (q.mode.Live? && AllTerminal(q.seen)))
  }

  predicate Inv(s: State) {
    Sound(s.parent) && forall pid :: pid in s.procs ==> ProcOk(s.parent, s.procs[pid])
  }

  lemma {:induction false} DispatchLaterTransitive(a: Dispatch, b: Dispatch, c: Dispatch)
    requires LaterDispatch(a, b) && LaterDispatch(b, c)
    ensures LaterDispatch(a, c)
  {
    LaterTransitive(a.children, b.children, c.children);
  }

  lemma {:induction false} LaterParents(p: Parent, q: Parent, r: Parent)
    requires Later(p, q) && Later(q, r)
    ensures Later(p, r)
  {
    hide LaterDispatch;
    if p.dispatch.Some? { DispatchLaterTransitive(p.dispatch.value, q.dispatch.value, r.dispatch.value); }
  }

  lemma {:induction false} ProcStays(p: Parent, r: Parent, q: Proc)
    requires ProcOk(p, q) && Later(p, r)
    ensures ProcOk(r, q)
  {
    hide LaterDispatch;
    DispatchLaterTransitive(q.seen, p.dispatch.value, r.dispatch.value);
  }

  lemma {:induction false} AfterKeeps(p: Parent, op: Op, stored: bool)
    requires Sound(p)
    ensures Sound(After(p, op, stored)) && Later(p, After(p, op, stored))
  {
    hide Apply, Later, Sound;
    if Lands(p, op, stored) { ApplyKeeps(p, op); } else { LaterParent(p); }
  }

  lemma {:induction false} OthersStay(s: State, p: Parent)
    requires Inv(s) && Later(s.parent, p)
    ensures forall pid :: pid in s.procs ==> ProcOk(p, s.procs[pid])
  {
    hide ProcOk, Later, Sound;
    forall pid | pid in s.procs ensures ProcOk(p, s.procs[pid]) { ProcStays(s.parent, p, s.procs[pid]); }
  }

  lemma {:induction false} FreshSeen(p: Parent)
    requires p.dispatch.Some?
    ensures LaterDispatch(p.dispatch.value, p.dispatch.value)
  {
    LaterSelf(p.dispatch.value.children);
  }

  /** A cancellation request that lands leaves the intent on file, unless all children had already
    * been cancelled. */
  lemma {:induction false} RequestLands(p: Parent, stored: bool)
    requires Sound(p) && p.dispatch.Some? && Lands(p, RequestCancel, stored)
    ensures var q := After(p, RequestCancel, stored);
      q.dispatch.Some? && (q.dispatch.value.cancelRequested || AllTerminal(q.dispatch.value))
  {}

  lemma {:induction false} AckNextKeeps(s: State, pid: nat, stored: bool)
    requires Inv(s) && InPhase(s, pid, Acking) && AtChild(s, pid)
    ensures Inv(AckNext(s, pid, stored)) && Later(s.parent, AckNext(s, pid, stored).parent)
  {
    var q := s.procs[pid];
    var op := Acknowledge(q.seen.children[q.at].plan.key);
    var p := After(s.parent, op, stored);
    hide Apply, Sound, LaterDispatch;
    AfterKeeps(s.parent, op, stored);
    LaterParent(s.parent);
    OthersStay(s, p);
    FreshSeen(p);
    hide Later;
    if Lands(s.parent, op, stored) {
      AckNeedsIntent(s.parent, q.seen.children[q.at].plan.key);
      assert ProcOk(p, Proc(Whole, q.mode, p.dispatch.value, q.at + 1, Deciding)) by {
        assert |p.dispatch.value.children| == |q.seen.children| by { LaterWidth(s.parent, p, q); }
      }
    }
  }

  lemma {:induction false} LaterWidth(p: Parent, r: Parent, q: Proc)
    requires ProcOk(p, q) && Later(p, r)
    ensures r.dispatch.Some? && |r.dispatch.value.children| == |q.seen.children|
  {}

  lemma {:induction false} AckNeedsIntent(p: Parent, key: string)
    requires p.dispatch.Some? && Apply(p, Acknowledge(key)).Ok?
    ensures var r := Apply(p, Acknowledge(key)).value; r.dispatch.Some? && r.dispatch.value.cancelRequested && Requested(p)
  {}

  lemma {:induction false} ReadNextKeeps(s: State, stored: bool)
    requires Inv(s) && s.run.Recording? && s.parent.dispatch.Some?
    ensures Inv(ReadNext(s, stored)) && Later(s.parent, ReadNext(s, stored).parent)
  {
    hide Apply, Sound, LaterDispatch, ProcOk;
    AfterKeeps(s.parent, RequestCancel, stored);
    LaterParent(s.parent);
    OthersStay(s, After(s.parent, RequestCancel, stored));
    hide Later;
  }

  lemma {:induction false} BeginKeeps(s: State, e: Event)
    requires Inv(s) && Enabled(s, e) && (e.Request? || e.Recover? || e.Bound? || e.Settle?)
    ensures Inv(Next(s, e)) && Later(s.parent, Next(s, e).parent)
  {
    LaterParent(s.parent);
    FreshSeen(s.parent);
    match e
    case Request(pid, agents, stored) =>
      AfterKeeps(s.parent, RequestCancel, stored);
      if Lands(s.parent, RequestCancel, stored) { RequestLands(s.parent, stored); }
      FreshSeen(After(s.parent, RequestCancel, stored));
      OthersStay(s, After(s.parent, RequestCancel, stored));
      hide Apply, Sound, LaterDispatch;
    case Recover(pid, handler) => hide Sound, Later, LaterDispatch;
    case Bound(pid, n, job, agents, stored) =>
      var op := Bind(s.parent.dispatch.value.children[n].plan.key, job);
      AfterKeeps(s.parent, op, stored);
      FreshSeen(After(s.parent, op, stored));
      OthersStay(s, After(s.parent, op, stored));
      hide Apply, Sound, LaterChildren;
    case Settle(pid, n, ending, stored) =>
      var op := OutcomeAt(s, n, ending);
      AfterKeeps(s.parent, op, stored);
      FreshSeen(After(s.parent, op, stored));
      OthersStay(s, After(s.parent, op, stored));
      hide Apply, Sound, LaterChildren;
  }

  /** Every step keeps the store sound, settles nothing twice, and leaves every process with
    * a dispatch it did get back. */
  lemma {:induction false} NextKeeps(s: State, e: Event)
    requires Inv(s) && Enabled(s, e)
    ensures Inv(Next(s, e)) && Later(s.parent, Next(s, e).parent)
  {
    hide Apply, Sound, LaterDispatch;
    LaterParent(s.parent);
    var p := Next(s, e).parent;
    match e
    case Request(_, _, _) => hide Next, Inv, Later; BeginKeeps(s, e);
    case Recover(_, _) => hide Next, Inv, Later; BeginKeeps(s, e);
    case Bound(_, _, _, _, _) => hide Next, Inv, Later; BeginKeeps(s, e);
    case Settle(_, _, _, _) => hide Next, Inv, Later; BeginKeeps(s, e);
    case Ack(pid, stored) => hide Inv, Later, AckNext; AckNextKeeps(s, pid, stored);
    case ReadIntent(stored) => hide Inv, Later, ReadNext; ReadNextKeeps(s, stored);
    case Abort(_) => hide Later;
    case Choose(_) => hide Later;
    case Answer(_, _) => hide Later;
    case Start(_) => hide Later;
    case Collect => hide Later;
    case Crash => hide Later;
    case _ => WriteKeeps(s, e); hide Later, ProcOk;
  }

  /** The one store operation of an event that begins no process. */
  function OpOf(s: State, e: Event): (Op, bool)
    requires Enabled(s, e) && (e.Finish? || e.RecordNext? || e.ConfirmNext? || e.Close? || e.Other?)
  {
    match e
    case Finish(pid, stored) =>
      var q := s.procs[pid];
      (Finalize(AllCanceled, Outcomes((if q.mode.Live? then q.seen else s.parent.dispatch.value).children)), stored)
    case RecordNext(stored) => (OutcomeAt(s, s.run.recorded, s.run.results[s.run.recorded]), stored)
    case ConfirmNext(stored) => (Acknowledge(s.run.seen.children[s.run.confirmed].plan.key), stored)
    case Close(stored) => (Finalize(s.run.status, Outcomes(s.parent.dispatch.value.children)), stored)
    case Other(op, stored) => (op, stored)
  }

  lemma {:induction false} WriteKeeps(s: State, e: Event)
    requires Inv(s) && Enabled(s, e) && (e.Finish? || e.RecordNext? || e.ConfirmNext? || e.Close? || e.Other?)
    ensures Inv(Next(s, e)) && Later(s.parent, Next(s, e).parent)
  {
    hide Apply, Sound, LaterDispatch, ProcOk;
    LaterParent(s.parent);
    var (op, stored) := OpOf(s, e);
    AfterKeeps(s.parent, op, stored);
    OthersStay(s, After(s.parent, op, stored));
    hide Later;
  }

  lemma {:induction false} InvAt(s: State, es: seq<Event>, k: nat)
    requires Inv(s) && k <= |es|
    ensures Inv(At(s, es, k))
  {
    hide Inv, Next, Enabled;
    if k > 0 {
      InvAt(s, es, k - 1);
      if Enabled(At(s, es, k - 1), es[k - 1]) { NextKeeps(At(s, es, k - 1), es[k - 1]); }
    }
  }

  lemma {:induction false} LaterAt(s: State, es: seq<Event>, j: nat, k: nat)
    requires Inv(s) && j <= k <= |es|
    ensures Later(At(s, es, j).parent, At(s, es, k).parent)
    decreases k
  {
    hide Inv, Next, Enabled, Later;
    if j == k {
      LaterParent(At(s, es, j).parent);
    } else {
      var t := At(s, es, k - 1);
      LaterAt(s, es, j, k - 1);
      InvAt(s, es, k - 1);
      if Enabled(t, es[k - 1]) {
        NextKeeps(t, es[k - 1]);
        LaterParents(At(s, es, j).parent, t.parent, At(s, es, k).parent);
      }
    }
  }

  // ---- every provider call has the stored intent behind it ----

  /** Over any run of passes, bindings, settlements, aborted runs, failed writes and crashes: when a
    * provider is called, the cancellation is on file, the stored child is bound to that very job,
    * and the agent is the one its stored plan names, with the same provider, identity and boundary. */
  lemma {:induction false} CallsFollowIntent(s: State, es: seq<Event>, k: nat)
    requires Sound(s.parent) && s.procs == map[] && k < |es|
    ensures var t, call := At(s, es, k), CallOf(At(s, es, k), es[k]);
      call.Some? ==>
        && Requested(t.parent) && call.value.child < Width(t)
        && var c, agents := t.parent.dispatch.value.children[call.value.child], call.value.agents;
           && c.job == Some(call.value.job) && c.plan.agentId in agents && agents[c.plan.agentId].cancels
           && agents[c.plan.agentId].providerId == c.plan.providerId
           && agents[c.plan.agentId].identity == c.plan.identity && agents[c.plan.agentId].boundary == c.plan.boundary
  {
    InvAt(s, es, k);
    var t := At(s, es, k);
    if CallOf(t, es[k]).Some? { CallIsBacked(t, es[k]); }
  }

  lemma {:induction false} CallIsBacked(t: State, e: Event)
    requires Inv(t) && CallOf(t, e).Some?
    ensures var call := CallOf(t, e).value;
      && Requested(t.parent) && call.child < Width(t)
      && var c, agents := t.parent.dispatch.value.children[call.child], call.agents;
         && c.job == Some(call.job) && c.plan.agentId in agents && agents[c.plan.agentId].cancels
         && agents[c.plan.agentId].providerId == c.plan.providerId
         && agents[c.plan.agentId].identity == c.plan.identity && agents[c.plan.agentId].boundary == c.plan.boundary
  {
    var q := t.procs[e.pid];
    assert ProcOk(t.parent, q);
    assert LaterChild(q.seen.children[q.at], t.parent.dispatch.value.children[q.at]);
    hide Sound;
  }

  // ---- when a finished or acknowledged child is called again ----

  /** An event in which a process gets the dispatch back from the store. */
  predicate Refreshes(e: Event, pid: nat) { (e.Request? || e.Recover? || e.Bound? || e.Settle? || e.Ack?) && e.pid == pid }

  /** How many events in a process last got the dispatch back from the store. */
  function LastSeen(es: seq<Event>, k: nat, pid: nat): (r: nat)
    requires k <= |es|
    ensures r <= k
  {
    if k == 0 then 0
    else
      var e := es[k - 1];
      if Refreshes(e, pid) then k else LastSeen(es, k - 1, pid)
  }

  lemma {:induction false} KeepsDispatch(p: Parent, op: Op, stored: bool)
    requires p.dispatch.Some?
    ensures After(p, op, stored).dispatch.Some?
  {
    hide RecordOne, RecordEach, BindChild;
  }

  lemma {:induction false} SeenMoves(t: State, e: Event, pid: nat)
    requires Enabled(t, e) && pid in Next(t, e).procs
    ensures if Refreshes(e, pid) then
              Next(t, e).parent.dispatch == Some(Next(t, e).procs[pid].seen)
            else pid in t.procs && t.procs[pid].seen == Next(t, e).procs[pid].seen
  {
    if e.Request? { KeepsDispatch(t.parent, RequestCancel, e.stored); }
    if e.Bound? { KeepsDispatch(t.parent, Bind(t.parent.dispatch.value.children[e.n].plan.key, e.job), e.stored); }
    if e.Settle? { KeepsDispatch(t.parent, OutcomeAt(t, e.n, e.ending), e.stored); }
    hide Apply, After, Outcomes, OutcomeAt, Collected, Decide, TrustedCancel, AllTerminal, AllEndings, Requested, Lands;
  }

  lemma {:induction false} SeenIsStored(s: State, es: seq<Event>, k: nat, pid: nat)
    requires s.procs == map[] && IsRun(s, es) && k <= |es| && pid in At(s, es, k).procs
    ensures At(s, es, LastSeen(es, k, pid)).parent.dispatch == Some(At(s, es, k).procs[pid].seen)
  {
    hide Next, Enabled;
    assert k > 0;
    var e, t := es[k - 1], At(s, es, k - 1);
    assert Enabled(t, e);
    SeenMoves(t, e, pid);
    if !Refreshes(e, pid) { SeenIsStored(s, es, k - 1, pid); }
  }

  datatype Fact = IsAcked | IsFinished

  predicate Holds(fact: Fact, s: State, n: nat) {
    n < Width(s) && var c := s.parent.dispatch.value.children[n]; if fact.IsAcked? then c.acked else ChildTerminal(c.status)
  }

  predicate Becomes(fact: Fact, s: State, es: seq<Event>, j: nat, n: nat)
    requires j < |es|
  {
    !Holds(fact, At(s, es, j), n) && Holds(fact, At(s, es, j + 1), n)
  }

  lemma {:induction false} BecomesBetween(fact: Fact, s: State, es: seq<Event>, r: nat, k: nat, n: nat)
    requires r <= k <= |es| && !Holds(fact, At(s, es, r), n) && Holds(fact, At(s, es, k), n)
    ensures exists j :: r <= j < k && Becomes(fact, s, es, j, n)
    decreases k
  {
    hide Holds, At;
    if !Holds(fact, At(s, es, k - 1), n) {
      assert Becomes(fact, s, es, k - 1, n);
    } else {
      BecomesBetween(fact, s, es, r, k - 1, n);
    }
  }

  lemma {:induction false} FactStays(fact: Fact, s: State, es: seq<Event>, j: nat, k: nat, n: nat)
    requires Inv(s) && j <= k <= |es| && Holds(fact, At(s, es, j), n)
    ensures Holds(fact, At(s, es, k), n)
  {
    hide At, Inv;
    LaterAt(s, es, j, k);
    assert LaterChild(At(s, es, j).parent.dispatch.value.children[n], At(s, es, k).parent.dispatch.value.children[n]);
  }

  /** Over any run, a provider is called for an acknowledged child exactly if the acknowledgement
    * landed after the caller last got the dispatch back; a live pass calls for a finished child
    * exactly if it finished since then; a restart or a binding also if it had finished before,
    * unacknowledged: completed or failed, for a restart. */
  lemma {:induction false} CalledAgainExactly(s: State, es: seq<Event>, k: nat)
    requires Sound(s.parent) && s.procs == map[] && IsRun(s, es) && k < |es| && CallOf(At(s, es, k), es[k]).Some?
    ensures var t, pid := At(s, es, k), es[k].pid;
      var q, r := t.procs[pid], LastSeen(es, k, pid);
      && (Holds(IsAcked, t, q.at) <==> exists j :: r <= j < k && Becomes(IsAcked, s, es, j, q.at))
      && (Holds(IsFinished, t, q.at) <==> Holds(IsFinished, At(s, es, r), q.at) || exists j :: r <= j < k && Becomes(IsFinished, s, es, j, q.at))
      && (Holds(IsFinished, At(s, es, r), q.at) ==>
            && !Holds(IsAcked, At(s, es, r), q.at) && (q.kind.Binder? || q.mode.Restart?)
            && (q.kind.Whole? ==> At(s, es, r).parent.dispatch.value.children[q.at].status != ChildCanceled))
  {
    var t, pid := At(s, es, k), es[k].pid;
    var q, r := t.procs[pid], LastSeen(es, k, pid);
    InvAt(s, es, k);
    SeenIsStored(s, es, k, pid);
    assert ProcOk(t.parent, q);
    SettlersDoNotCall(s, es, k, pid);
    var n := q.at;
    assert !Holds(IsAcked, At(s, es, r), n);
    hide At, Inv, Next, Enabled;
    Since(IsAcked, s, es, r, k, n);
    Since(IsFinished, s, es, r, k, n);
  }

  lemma {:induction false} Since(fact: Fact, s: State, es: seq<Event>, r: nat, k: nat, n: nat)
    requires Inv(s) && r <= k <= |es|
    ensures Holds(fact, At(s, es, k), n) <==> Holds(fact, At(s, es, r), n) || exists j :: r <= j < k && Becomes(fact, s, es, j, n)
  {
    hide Holds, At, Inv;
    if Holds(fact, At(s, es, r), n) {
      FactStays(fact, s, es, r, k, n);
    } else if Holds(fact, At(s, es, k), n) {
      BecomesBetween(fact, s, es, r, k, n);
    } else {
      forall j | r <= j < k ensures !Becomes(fact, s, es, j, n) {
        if Becomes(fact, s, es, j, n) { FactStays(fact, s, es, j + 1, k, n); }
      }
    }
  }

  lemma {:induction false} SettlersDoNotCall(s: State, es: seq<Event>, k: nat, pid: nat)
    requires s.procs == map[] && k <= |es| && pid in At(s, es, k).procs
    ensures At(s, es, k).procs[pid].kind.Settler? ==> At(s, es, k).procs[pid].phase == Acking
  {
    hide Next, Enabled;
    if k > 0 {
      var t := At(s, es, k - 1);
      if pid in t.procs { SettlersDoNotCall(s, es, k - 1, pid); }
      if Enabled(t, es[k - 1]) { SettlerStays(t, es[k - 1], pid); }
    }
  }

  lemma {:induction false} SettlerStays(t: State, e: Event, pid: nat)
    requires Enabled(t, e) && pid in Next(t, e).procs
    requires pid in t.procs && t.procs[pid].kind.Settler? ==> t.procs[pid].phase == Acking
    ensures Next(t, e).procs[pid].kind.Settler? ==> Next(t, e).procs[pid].phase == Acking
  {
    hide Apply, After, Outcomes, OutcomeAt, Collected, Decide, TrustedCancel, AllTerminal, AllEndings, Requested, Lands;
  }

  // ---- a pass on an old snapshot ----

  predicate Trusted(agents: Registry, plan: Plan) {
    && plan.agentId in agents
    && var a := agents[plan.agentId];
       a.providerId == plan.providerId && a.cancels && a.identity == plan.identity && a.boundary == plan.boundary
  }

  /** Two children at work for their jobs, in a run of this process. */
  function TwoAtWork(a: Plan, b: Plan): State {
    State(Parent(Working, Some(Dispatch("f", Running, false, [Child(a, ChildWorking, Some("j0"), false), Child(b, ChildWorking, Some("j1"), false)]))),
          map[], Executing(false, {0, 1}, map[]))
  }

  /** While the first child's provider is awaited, the second child settles and is acknowledged; the
    * first call fails. */
  function StaleCall(agents: Registry): seq<Event> {
    [Request(0, agents, true), Abort(0), Choose(0), Settle(1, 1, Ending(ChildCanceled, None), true), Ack(1, true), Answer(0, false), Choose(0)]
  }

  /** The states on the way. */
  function AtWork(a: Plan, b: Plan, agents: Registry, k: nat): State {
    var c0, c1 := Child(a, ChildWorking, Some("j0"), false), Child(b, ChildWorking, Some("j1"), false);
    var c2 := c1.(status := ChildCanceled);
    var d := Dispatch("f", Canceling, true, [c0, c1]);
    var after := d.(children := [c0, if k < 5 then c2 else c2.(acked := true)]);
    var q := Proc(Whole, Live(agents), d, 0, if k <= 1 then Aborting else if k == 2 then Deciding else Calling);
    var run := if k <= 1 then Executing(false, {0, 1}, map[]) else Executing(true, {0, 1}, if k < 4 then map[] else map[1 := Ending(ChildCanceled, None)]);
    if k == 0 then TwoAtWork(a, b)
    else if k < 4 then State(Parent(Working, Some(d)), map[0 := q], run)
    else if k == 4 then State(Parent(Working, Some(after)), map[0 := q, 1 := Proc(Settler, Live(map[]), after, 1, Acking)], run)
    else if k == 5 then State(Parent(Working, Some(after)), map[0 := q], run)
    else State(Parent(Working, Some(after)), map[0 := q.(at := 1, phase := Deciding)], run)
  }

  lemma {:induction false} AtWorkSettles(a: Plan, b: Plan, agents: Registry)
    requires a.key != b.key
    ensures var s, e := AtWork(a, b, agents, 3), StaleCall(agents)[3];
      Enabled(s, e) && Next(s, e) == AtWork(a, b, agents, 4)
  {
    var s := AtWork(a, b, agents, 3);
    SecondFound(s.parent.dispatch.value.children[0], s.parent.dispatch.value.children[1]);
    var cs := s.parent.dispatch.value.children;
    assert cs[1 := cs[1].(status := ChildCanceled)] == AtWork(a, b, agents, 4).parent.dispatch.value.children;
    var p := After(s.parent, OutcomeAt(s, 1, Ending(ChildCanceled, None)), true);
    assert p == AtWork(a, b, agents, 4).parent;
  }

  lemma {:induction false} AtWorkAcks(a: Plan, b: Plan, agents: Registry)
    requires a.key != b.key
    ensures var s, e := AtWork(a, b, agents, 4), StaleCall(agents)[4];
      Enabled(s, e) && Next(s, e) == AtWork(a, b, agents, 5)
  {
    var s := AtWork(a, b, agents, 4);
    SecondFound(s.parent.dispatch.value.children[0], s.parent.dispatch.value.children[1]);
    var cs := s.parent.dispatch.value.children;
    assert cs[1 := cs[1].(acked := true)] == AtWork(a, b, agents, 5).parent.dispatch.value.children;
    assert After(s.parent, Acknowledge(b.key), true) == AtWork(a, b, agents, 5).parent;
    assert s.procs - {1} == AtWork(a, b, agents, 5).procs;
  }

  lemma {:induction false} AtWorkMoves(a: Plan, b: Plan, agents: Registry, k: nat)
    requires a.key != b.key && k < 6 && Trusted(agents, a)
    ensures Enabled(AtWork(a, b, agents, k), StaleCall(agents)[k])
    ensures Next(AtWork(a, b, agents, k), StaleCall(agents)[k]) == AtWork(a, b, agents, k + 1)
  {
    if k == 3 {
      AtWorkSettles(a, b, agents);
    } else if k == 4 {
      AtWorkAcks(a, b, agents);
    }
  }

  lemma {:induction false} AtWorkIs(a: Plan, b: Plan, agents: Registry, k: nat)
    requires a.key != b.key && k <= 6 && Trusted(agents, a)
    ensures At(TwoAtWork(a, b), StaleCall(agents), k) == AtWork(a, b, agents, k)
  {
    if k > 0 {
      AtWorkIs(a, b, agents, k - 1);
      AtWorkMoves(a, b, agents, k - 1);
      hide Next, Enabled, TwoAtWork;
    }
  }

  /** The live pass then calls the provider of the second child, canceled and acknowledged as it is. */
  lemma {:induction false} StalePassCallsAgain(a: Plan, b: Plan, agents: Registry)
    requires ValidPlans([a, b]) && Trusted(agents, a) && Trusted(agents, b)
    ensures var s, es := TwoAtWork(a, b), StaleCall(agents);
      && IsRun(s, es) && Holds(IsAcked, At(s, es, 6), 1) && Holds(IsFinished, At(s, es, 6), 1)
      && CallOf(At(s, es, 6), es[6]) == Some(ProviderCall(1, b.key, "j1", agents))
  {
    assert [a, b][0].key != [a, b][1].key;
    AtWorkIs(a, b, agents, 6);
    forall k | 0 <= k < 6 ensures Enabled(At(TwoAtWork(a, b), StaleCall(agents), k), StaleCall(agents)[k]) {
      AtWorkIs(a, b, agents, k);
      AtWorkMoves(a, b, agents, k);
    }
    hide At, Next;
  }

  lemma {:induction false} SecondFound(c: Child, d: Child)
    requires c.plan.key != d.plan.key
    ensures Find([c, d], d.plan.key) == 1 && Find([c, d], c.plan.key) == 0
  {
    assert [c, d][1..] == [d];
  }
}
