/** What every step of cancelling passes, bindings and the aborted run does, and that a pass gets to its end. */
module A2ARunSteps {
  import opened Prelude
  import opened A2ADispatch
  import opened A2AContracts
  import opened A2ACancellation
  import opened A2APassContracts
  import opened A2ACancellationRuns

  /** The operation is accepted and its write goes through. */
  predicate Goes(p: Parent, op: Op, stored: bool) { stored && Apply(p, op).Ok? }

  /** The parent is as the operation leaves it if it goes, and else as it was. */
  predicate Follows(p: Parent, op: Op, stored: bool, q: Parent) {
    if Goes(p, op, stored) then q == Apply(p, op).value else q == p
  }

  /** A pass moves on to the next child; everything else is done with its one child. */
  predicate MovesOn(s: State, pid: nat, t: State)
    requires pid in s.procs
  {
    var q := s.procs[pid];
    && t.parent == s.parent && t.run == s.run
    && t.procs == if q.kind == Whole then s.procs[pid := Proc(q.kind, q.mode, q.seen, q.at + 1, Deciding)] else s.procs - {pid}
  }

  predicate In(s: State, pid: nat, t: State, phase: Phase)
    requires pid in s.procs
  {
    var q := s.procs[pid];
    t == s.(procs := s.procs[pid := Proc(q.kind, q.mode, q.seen, q.at, phase)])
  }

  /** A pass decides about a child by its mode; bindChild asks the provider of a job bound too late. */
  ghost predicate Chooses(s: State, pid: nat, t: State)
    requires pid in s.procs && s.procs[pid].at < |s.procs[pid].seen.children|
  {
    var q := s.procs[pid];
    var c := q.seen.children[q.at];
    if q.kind == Whole then
      exists step :: DecisionDoes(q.mode, c, step)
        && match step
           case Call(_) => In(s, pid, t, Calling)
           case AckOnly => In(s, pid, t, Acking)
           case _ => MovesOn(s, pid, t)
    else if q.seen.cancelRequested && !c.acked && c.job.Some? && q.mode.Live? && A2APassContracts.Trusted(q.mode.agents, c) then In(s, pid, t, Calling)
    else MovesOn(s, pid, t)
  }

  /** An acknowledgement: a pass goes on with the dispatch it gets back; one that fails ends its process, and
    * breaks the run off if it was the run's own. */
  predicate Acknowledges(s: State, pid: nat, stored: bool, t: State)
    requires pid in s.procs && s.procs[pid].at < |s.procs[pid].seen.children|
  {
    var q := s.procs[pid];
    var op := Acknowledge(q.seen.children[q.at].plan.key);
    && Follows(s.parent, op, stored, t.parent)
    && if Goes(s.parent, op, stored) then
         && t.run == s.run
         && t.procs == if q.kind == Whole && t.parent.dispatch.Some?
                       then s.procs[pid := Proc(Whole, q.mode, t.parent.dispatch.value, q.at + 1, Deciding)] else s.procs - {pid}
       else t.procs == s.procs - {pid} && t.run == if q.kind == Settler then Broken else s.run
  }

  predicate AllEnded(d: Dispatch) { forall i :: 0 <= i < |d.children| ==> ChildEnded(d.children[i].status) }

  ghost predicate Finishes(s: State, pid: nat, stored: bool, t: State)
    requires pid in s.procs && s.parent.dispatch.Some?
  {
    var last := if s.procs[pid].mode.Live? then s.procs[pid].seen else s.parent.dispatch.value;
    && t.procs == s.procs - {pid} && t.run == s.run
    && if AllEnded(last)
       then exists os :: OutcomesOf(last.children, os) && Follows(s.parent, Finalize(AllCanceled, os), stored, t.parent)
       else t.parent == s.parent
  }

  predicate OutcomesOf(children: seq<Child>, os: seq<Outcome>) {
    |os| == |children| && forall i :: 0 <= i < |os| ==> os[i] == Outcome(children[i].plan.key, children[i].status, children[i].job)
  }

  /** Every step. */
  ghost predicate Does(s: State, e: Event, t: State)
    requires Enabled(s, e)
  {
    match e
    case Request(pid, agents, stored) =>
      && Follows(s.parent, RequestCancel, stored, t.parent) && t.run == s.run
      && t.procs == if Goes(s.parent, RequestCancel, stored) && t.parent.dispatch.Some?
                    then s.procs[pid := Proc(Whole, Live(agents), t.parent.dispatch.value, 0, Aborting)] else s.procs
    case Recover(pid, handler) => t == s.(procs := s.procs[pid := Proc(Whole, Restart(handler), s.parent.dispatch.value, 0, Deciding)])
    case Abort(pid) =>
      In(s, pid, State(t.parent, t.procs, s.run), Deciding)
      && t.run == if s.run.Executing? then Executing(true, s.run.started, s.run.settled) else s.run
    case Choose(pid) => Chooses(s, pid, t)
    case Answer(pid, confirmed) => if confirmed then In(s, pid, t, Acking) else MovesOn(s, pid, t)
    case Ack(pid, stored) => Acknowledges(s, pid, stored, t)
    case Finish(pid, stored) => Finishes(s, pid, stored, t)
    case Start(n) => t == s.(run := Executing(s.run.aborted, s.run.started + {n}, s.run.settled))
    case Bound(pid, n, job, agents, stored) =>
      var op := Bind(s.parent.dispatch.value.children[n].plan.key, job);
      && Follows(s.parent, op, stored, t.parent) && t.run == s.run
      && t.procs == if Goes(s.parent, op, stored) && t.parent.dispatch.Some?
                    then s.procs[pid := Proc(Binder, Live(agents), t.parent.dispatch.value, n, Deciding)] else s.procs
    case Settle(pid, n, ending, stored) =>
      var op := Record(Outcome(s.parent.dispatch.value.children[n].plan.key, ending.status, ending.job));
      && Follows(s.parent, op, stored, t.parent)
      && if Goes(s.parent, op, stored) then
           && t.run == Executing(s.run.aborted, s.run.started, s.run.settled[n := ending])
           && t.procs == if t.parent.dispatch.Some? && t.parent.dispatch.value.cancelRequested && ending.status == ChildCanceled
                         then s.procs[pid := Proc(Settler, Live(map[]), t.parent.dispatch.value, n, Acking)] else s.procs
         else t.run == Broken && t.procs == s.procs
    case Collect =>
      t.parent == s.parent && t.procs == s.procs && t.run.Recording? && t.run.recorded == 0
      && (forall n :: n in t.run.results <==> 0 <= n < Width(s))
      && forall n :: n in t.run.results ==> t.run.results[n] == if n in s.run.settled then s.run.settled[n] else Ending(ChildCanceled, None)
    case RecordNext(stored) =>
      var n := s.run.recorded;
      var op := Record(Outcome(s.parent.dispatch.value.children[n].plan.key, s.run.results[n].status, s.run.results[n].job));
      Follows(s.parent, op, stored, t.parent) && t.procs == s.procs
      && t.run == if Goes(s.parent, op, stored) then Recording(s.run.results, n + 1) else Broken
    case ReadIntent(stored) =>
      var d := s.parent.dispatch.value;
      t.procs == s.procs
      && if d.cancelRequested then t.parent == s.parent && t.run == Confirming(d, 0, AllCanceled)
         else if exists n :: n in s.run.results && s.run.results[n].status != ChildCanceled then
           t.parent == s.parent
           && t.run == Confirming(d, |d.children|,
                if forall n :: n in s.run.results ==> s.run.results[n].status == ChildCompleted then AllCompleted else SomeFailed)
         else
           Follows(s.parent, RequestCancel, stored, t.parent)
           && t.run == if Goes(s.parent, RequestCancel, stored) && t.parent.dispatch.Some? then Confirming(t.parent.dispatch.value, 0, AllCanceled) else Broken
    case ConfirmNext(stored) =>
      var c := s.run.seen.children[s.run.confirmed];
      var on := Confirming(s.run.seen, s.run.confirmed + 1, s.run.status);
      t.procs == s.procs
      && if c.acked || !ChildEnded(c.status) then t.parent == s.parent && t.run == on
         else Follows(s.parent, Acknowledge(c.plan.key), stored, t.parent) && t.run == if Goes(s.parent, Acknowledge(c.plan.key), stored) then on else Broken
    case Close(stored) =>
      t.procs == s.procs
      && exists os :: OutcomesOf(s.parent.dispatch.value.children, os)
           && Follows(s.parent, Finalize(s.run.status, os), stored, t.parent)
           && t.run == if Goes(s.parent, Finalize(s.run.status, os), stored) then Ended else Broken
    case Other(op, stored) => Follows(s.parent, op, stored, t.parent) && t.procs == s.procs && t.run == s.run
    case Crash => t.parent == s.parent && t.procs == map[] && t.run == NoRun
  }

  lemma {:induction false} ChoosesSo(s: State, pid: nat)
    requires Enabled(s, Choose(pid))
    ensures Chooses(s, pid, Next(s, Choose(pid)))
  {
    var q := s.procs[pid];
    var c := q.seen.children[q.at];
    DecidesSo(q.mode, c);
    hide Decide, DecisionDoes;
    if q.kind == Whole { assert DecisionDoes(q.mode, c, Choice(q)); }
  }

  lemma {:induction false} FinishesSo(s: State, pid: nat, stored: bool)
    requires Enabled(s, Finish(pid, stored))
    ensures Finishes(s, pid, stored, Next(s, Finish(pid, stored)))
  {
    var last := if s.procs[pid].mode.Live? then s.procs[pid].seen else s.parent.dispatch.value;
    hide Apply;
    assert OutcomesOf(last.children, Outcomes(last.children));
    assert AllTerminal(last) <==> AllEnded(last);
    var t := Next(s, Finish(pid, stored));
    if AllTerminal(last) { assert Follows(s.parent, Finalize(AllCanceled, Outcomes(last.children)), stored, t.parent); }
  }

  lemma {:induction false} ClosesSo(s: State, stored: bool)
    requires Enabled(s, Close(stored))
    ensures Does(s, Close(stored), Next(s, Close(stored)))
  {
    hide Apply;
    assert OutcomesOf(s.parent.dispatch.value.children, Outcomes(s.parent.dispatch.value.children));
  }

  lemma {:induction false} IntentSo(s: State, stored: bool)
    requires Enabled(s, ReadIntent(stored))
    ensures Does(s, ReadIntent(stored), Next(s, ReadIntent(stored)))
  {
    assert Apply(s.parent, RequestCancel).Ok? ==> Apply(s.parent, RequestCancel).value.dispatch.Some?;
    assert !AllEndings(s.run.results, ChildCanceled) <==> exists n :: n in s.run.results && s.run.results[n].status != ChildCanceled;
    hide Apply;
  }

  lemma {:induction false} AcksSo(s: State, pid: nat, stored: bool)
    requires Enabled(s, Ack(pid, stored))
    ensures Acknowledges(s, pid, stored, Next(s, Ack(pid, stored)))
  {
    hide Apply;
  }

  lemma {:induction false} PassStepsSo(s: State, e: Event)
    requires Enabled(s, e) && (e.Request? || e.Recover? || e.Abort? || e.Answer?)
    ensures Does(s, e, Next(s, e))
  {
    if e.Request? { assert Apply(s.parent, RequestCancel).Ok? ==> Apply(s.parent, RequestCancel).value.dispatch.Some?; }
    hide Apply;
  }

  lemma {:induction false} BindKeeps(p: Parent, op: Op)
    requires p.dispatch.Some? && (op.Bind? || op.Record?) && Apply(p, op).Ok?
    ensures Apply(p, op).value.dispatch.Some?
  {
    hide RecordOne, BindChild;
  }

  lemma {:induction false} RunStepsSo(s: State, e: Event)
    requires Enabled(s, e) && (e.Start? || e.Bound? || e.Settle? || e.Collect? || e.RecordNext? || e.ConfirmNext? || e.Other? || e.Crash?)
    ensures Does(s, e, Next(s, e))
  {
    if e.Bound? || e.Settle? {
      var op := if e.Bound? then Bind(s.parent.dispatch.value.children[e.n].plan.key, e.job) else OutcomeAt(s, e.n, e.ending);
      if Apply(s.parent, op).Ok? { BindKeeps(s.parent, op); }
    }
    hide Apply;
  }

  lemma {:induction false} StepDoes(s: State, e: Event)
    requires Enabled(s, e)
    ensures Does(s, e, Next(s, e))
  {
    hide Next, Enabled, Chooses, Acknowledges, Finishes;
    match e
    case Choose(pid) => ChoosesSo(s, pid);
    case Ack(pid, stored) => AcksSo(s, pid, stored);
    case Finish(pid, stored) => FinishesSo(s, pid, stored);
    case ReadIntent(stored) => IntentSo(s, stored);
    case Close(stored) => ClosesSo(s, stored);
    case Request(_, _, _) => PassStepsSo(s, e);
    case Recover(_, _) => PassStepsSo(s, e);
    case Abort(_) => PassStepsSo(s, e);
    case Answer(_, _) => PassStepsSo(s, e);
    case _ => RunStepsSo(s, e);
  }
}
