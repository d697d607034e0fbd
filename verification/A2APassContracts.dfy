/** What a cancellation pass decides about a child, and what it then leaves of it. */
module A2APassContracts {
  import opened Prelude
  import opened A2ADispatch
  import opened A2AContracts
  import opened A2ACancellation

  /** The agent is the one of the plan: same provider, identity and boundary, and able to cancel. */
  predicate Trusted(agents: Registry, c: Child) {
    && c.plan.agentId in agents && agents[c.plan.agentId].providerId == c.plan.providerId && agents[c.plan.agentId].cancels
    && agents[c.plan.agentId].identity == c.plan.identity && agents[c.plan.agentId].boundary == c.plan.boundary
  }

  /** There is somebody under that name for that provider who could be asked. */
  predicate Reachable(agents: Registry, c: Child) {
    c.plan.agentId in agents && agents[c.plan.agentId].providerId == c.plan.providerId && agents[c.plan.agentId].cancels
  }

  /** An acknowledged child is left alone and a canceled one acknowledged. Any other is asked of its provider;
    * a live pass first acknowledges those that have ended, and a restart does not. */
  predicate DecisionDoes(mode: Mode, c: Child, step: Step) {
    if c.acked then step == Skip
    else if c.status == ChildCanceled then step == AckOnly
    else
      match mode
      case Live(agents) =>
        if ChildEnded(c.status) then step == AckOnly
        else if c.job.None? then step == Report(MissingJob)
        else if !Reachable(agents, c) then step == Report(MissingProvider)
        else if !Trusted(agents, c) then step == Report(CancellationFailed)
        else step == Call(c.job.value in agents[c.plan.agentId].confirms)
      case Restart(handler) =>
        if c.job.None? then step == Report(MissingJob)
        else if handler.None? then step == Report(MissingProvider)
        else if !Trusted(handler.value, c) then step == Report(CancellationFailed)
        else step == Call(c.job.value in handler.value[c.plan.agentId].confirms)
  }

  lemma {:induction false} DecidesSo(mode: Mode, c: Child)
    ensures DecisionDoes(mode, c, Decide(mode, c))
  {}

  /** What the whole pass leaves of a child: acknowledged, and canceled if it had not ended, exactly if it was
    * canceled before, had ended before a live pass, or its trusted provider confirms. */
  lemma {:induction false} ChildPassed(mode: Mode, c: Child)
    ensures var agents := match mode case Live(a) => Some(a) case Restart(h) => h;
      var confirmed := agents.Some? && c.job.Some? && Trusted(agents.value, c) && c.job.value in agents.value[c.plan.agentId].confirms;
      Passed(mode, c) ==
        if !c.acked && (c.status == ChildCanceled || (mode.Live? && ChildEnded(c.status)) || confirmed)
        then Child(c.plan, if ChildEnded(c.status) then c.status else ChildCanceled, c.job, true) else c
  {
    DecidesSo(mode, c);
    hide Decide;
  }

  /** The end of a parent whose children have all ended. */
  lemma {:induction false} SettledSo(p: Parent)
    requires p.dispatch.Some? && !TaskEnded(p.status)
    ensures var d := p.dispatch.value;
      Settled(p) == if forall i :: 0 <= i < |d.children| ==> ChildEnded(d.children[i].status) then Parent(Canceled, Some(d.(status := AllCanceled))) else p
  {
    EndsSo(p, p.dispatch.value, AllCanceled);
    hide Apply;
  }

  predicate AllPassed(mode: Mode, before: seq<Child>, after: seq<Child>) {
    |after| == |before| && forall i :: 0 <= i < |before| ==> after[i] == Passed(mode, before[i])
  }

  /** From a requested cancellation that nobody disturbs: the parent is canceled exactly if every child has
    * then ended, and nothing else of it changes. */
  lemma {:induction false} CancelledSo(p: Parent, mode: Mode)
    requires Sound(p) && p.dispatch.Some? && p.dispatch.value.cancelRequested && !TaskEnded(p.status)
    ensures var d, q := p.dispatch.value, Cancelled(p, mode);
      var done := q.dispatch.Some? && forall i :: 0 <= i < |q.dispatch.value.children| ==> ChildEnded(q.dispatch.value.children[i].status);
      && q.dispatch.Some? && AllPassed(mode, d.children, q.dispatch.value.children)
      && q.dispatch.value.cancelRequested && q.dispatch.value.fingerprint == d.fingerprint
      && q.status == (if done then Canceled else p.status) && q.dispatch.value.status == (if done then AllCanceled else d.status)
  {
    var d := p.dispatch.value;
    hide Passed, Pass, Sound, Decide, Settled;
    PassResult(mode, p);
    var passed := WithChildren(p, PassedUpTo(mode, d.children, |d.children|));
    SettledSo(passed);
  }

  /** The provider is called, a failure reported, and the child acknowledged, as the decision has it. */
  predicate Carried(p: Parent, mode: Mode, i: nat, step: Step, acked: Result<Parent, Fault>, m: Move)
    requires p.dispatch.Some? && i < |p.dispatch.value.children|
  {
    && DecisionDoes(mode, p.dispatch.value.children[i], step) && AcknowledgeDoes(p, p.dispatch.value, i, acked)
    && m.call == step.Call?
    && m.report == (match step
                    case Report(why) => Some(why)
                    case Call(confirmed) => if confirmed then None else Some(CancellationFailed)
                    case _ => None)
    && m.parent == (if (step == AckOnly || step == Call(true)) && acked.Ok? then acked.value else p)
  }

  /** What a pass does at one child of the dispatch it has. */
  ghost predicate MoveDoes(p: Parent, key: string, mode: Mode, m: Move) {
    if p.dispatch.None? then m == Move(p, false, None)
    else
      && (NoChild(p.dispatch.value.children, key) ==> m == Move(p, false, None))
      && forall i: nat :: ChildAt(p.dispatch.value.children, key, i) ==> exists step, acked :: Carried(p, mode, i, step, acked, m)
  }

  lemma {:induction false} MovesSo(p: Parent, key: string, mode: Mode)
    ensures MoveDoes(p, key, mode, MoveOne(p, key, mode))
  {
    if p.dispatch.Some? {
      var children := p.dispatch.value.children;
      FoundAt(children, key);
      var i := Find(children, key);
      if i < |children| { MoveCarried(p, key, mode, i); }
      hide Carried, Apply, Decide;
    }
  }

  lemma {:induction false} MoveCarried(p: Parent, key: string, mode: Mode, i: nat)
    requires p.dispatch.Some? && i == Find(p.dispatch.value.children, key) < |p.dispatch.value.children|
    ensures Carried(p, mode, i, Decide(mode, p.dispatch.value.children[i]), Apply(p, Acknowledge(key)), MoveOne(p, key, mode))
  {
    DecidesSo(mode, p.dispatch.value.children[i]);
    ChildOpsSo(p, p.dispatch.value, key, i, "", Outcome(key, ChildCanceled, None));
    hide Decide, Apply, DecisionDoes, AcknowledgeDoes, BindDoes, RecordDoes, StartDoes;
  }
}
