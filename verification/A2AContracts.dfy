/** What each operation of the dispatch store does to a parent, and what a cancellation pass decides about a
  * child, in the words of the data. */
module A2AContracts {
  import opened Prelude
  import opened A2ADispatch

  predicate ChildEnded(s: ChildStatus) { s == ChildCompleted || s == ChildFailed || s == ChildCanceled }

  predicate DispatchEnded(s: DispatchStatus) { s == AllCompleted || s == SomeFailed || s == AllCanceled }

  predicate TaskEnded(s: TaskStatus) { s == Completed || s == Failed || s == Canceled || s == Rejected }

  /** A finished task stays; nothing returns to submitted; only work is completed. */
  predicate MayBecome(previous: TaskStatus, next: TaskStatus) {
    if TaskEnded(previous) then next == previous
    else if previous == Submitted then next != Completed
    else next != Submitted && (next == Completed ==> previous == Working)
  }

  predicate ChildAt(children: seq<Child>, key: string, i: nat) {
    i < |children| && children[i].plan.key == key && forall j :: 0 <= j < i ==> children[j].plan.key != key
  }

  predicate NoChild(children: seq<Child>, key: string) { forall i :: 0 <= i < |children| ==> children[i].plan.key != key }

  /** The parent with one child and the status of its dispatch changed. */
  function With(p: Parent, d: Dispatch, i: nat, c: Child, status: DispatchStatus): Parent
    requires i < |d.children|
  {
    Parent(p.status, Some(Dispatch(d.fingerprint, status, d.cancelRequested, d.children[i := c])))
  }

  function Begun(d: Dispatch): DispatchStatus { if d.status == Pending then Running else d.status }

  predicate StartDoes(p: Parent, d: Dispatch, i: nat, r: Result<Parent, Fault>)
    requires i < |d.children|
  {
    var c := d.children[i];
    if ChildEnded(c.status) then r == Ok(p) else r == Ok(With(p, d, i, Child(c.plan, ChildWorking, c.job, c.acked), Begun(d)))
  }

  /** A child is bound to one job only, and not after it has ended. */
  predicate BindDoes(p: Parent, d: Dispatch, i: nat, job: string, r: Result<Parent, Fault>)
    requires i < |d.children|
  {
    var c, status := d.children[i], if d.cancelRequested then d.status else Begun(d);
    if c.job.Some? && c.job.value != job then r == Err(Conflict)
    else if ChildEnded(c.status) then (if c.job.Some? then r == Ok(With(p, d, i, c, status)) else r == Err(TerminalImmutable))
    else r == Ok(With(p, d, i, Child(c.plan, ChildWorking, Some(job), c.acked), status))
  }

  /** An outcome ends a child once; it may bind it, but not to another job. */
  predicate RecordDoes(p: Parent, d: Dispatch, i: nat, o: Outcome, r: Result<Parent, Fault>)
    requires i < |d.children|
  {
    var c := d.children[i];
    if !ChildEnded(o.status) then r == Err(InvalidTask)
    else if o.job.Some? && c.job.Some? && o.job != c.job then r == Err(Conflict)
    else if ChildEnded(c.status) then
      r == (if (o.job.Some? && c.job.None?) || c.status != o.status then Err(TerminalImmutable) else Ok(p))
    else r == Ok(With(p, d, i, Child(c.plan, o.status, if c.job.Some? then c.job else o.job, c.acked), if d.cancelRequested then d.status else Begun(d)))
  }

  predicate RequestDoes(p: Parent, d: Dispatch, r: Result<Parent, Fault>) {
    if d.status == AllCompleted || d.status == SomeFailed then r == Err(TerminalImmutable)
    else if d.status == AllCanceled || d.cancelRequested then r == Ok(p)
    else r == Ok(Parent(p.status, Some(Dispatch(d.fingerprint, Canceling, true, d.children))))
  }

  predicate AcknowledgeDoes(p: Parent, d: Dispatch, i: nat, r: Result<Parent, Fault>)
    requires i < |d.children|
  {
    var c := d.children[i];
    if !d.cancelRequested then r == Err(InvalidTask)
    else if c.acked then r == Ok(p)
    else r == Ok(With(p, d, i, Child(c.plan, if ChildEnded(c.status) then c.status else ChildCanceled, c.job, true), d.status))
  }

  /** The end of a dispatch whose outcomes are all recorded. */
  predicate FinalizeDoes(p: Parent, d: Dispatch, status: DispatchStatus, r: Result<Parent, Fault>) {
    if !DispatchEnded(status) || (exists i :: 0 <= i < |d.children| && !ChildEnded(d.children[i].status))
       || (status == AllCompleted && exists i :: 0 <= i < |d.children| && d.children[i].status != ChildCompleted)
    then r == Err(InvalidTask)
    else
      var next := if status == AllCompleted then Completed else if status == SomeFailed then Failed else Canceled;
      r == if MayBecome(p.status, next) then Ok(Parent(next, Some(Dispatch(d.fingerprint, status, d.cancelRequested, d.children)))) else Err(TerminalImmutable)
  }

  /** One to sixteen plans, no key twice, and identity and boundary only together. */
  predicate GoodPlans(plans: seq<Plan>) {
    && 1 <= |plans| <= 16
    && (forall i, j :: 0 <= i < |plans| && 0 <= j < |plans| && i != j ==>
          plans[i].key != plans[j].key && plans[i].idempotencyKey != plans[j].idempotencyKey)
    && forall i :: 0 <= i < |plans| ==> plans[i].identity.Some? == plans[i].boundary.Some?
  }

  predicate CreateDoes(p: Parent, fingerprint: string, plans: seq<Plan>, r: Result<Parent, Fault>) {
    if !GoodPlans(plans) then r == Err(InvalidRequest)
    else if p.dispatch.Some? then
      var d := p.dispatch.value;
      if d.fingerprint == fingerprint && |d.children| == |plans| && forall i :: 0 <= i < |plans| ==> d.children[i].plan == plans[i]
      then r == Ok(p) else r == Err(Conflict)
    else if TaskEnded(p.status) then r == Err(TerminalImmutable)
    else
      r.Ok? && r.value.dispatch.Some? && r.value.status == (if p.status == Submitted then Working else p.status)
      && var d := r.value.dispatch.value;
         d.fingerprint == fingerprint && d.status == Pending && !d.cancelRequested && |d.children| == |plans|
         && forall i :: 0 <= i < |plans| ==> d.children[i] == Child(plans[i], ChildPending, None, false)
  }

  /** Every operation on a parent; finalize here with its outcomes recorded before. */
  ghost predicate OpDoes(p: Parent, op: Op, r: Result<Parent, Fault>) {
    match op
    case Transition(next) => r == if MayBecome(p.status, next) then Ok(Parent(next, p.dispatch)) else Err(TerminalImmutable)
    case CreateDispatch(fingerprint, plans) => CreateDoes(p, fingerprint, plans, r)
    case RequestCancel => if p.dispatch.None? then r == Ok(p) else RequestDoes(p, p.dispatch.value, r)
    case Finalize(status, outcomes) => if p.dispatch.None? then r == Ok(p) else outcomes == [] ==> FinalizeDoes(p, p.dispatch.value, status, r)
    case MarkStarted(key) =>
      if p.dispatch.None? then r == Ok(p)
      else
        && (NoChild(p.dispatch.value.children, key) ==> r == Err(InvalidTask))
        && forall i: nat :: ChildAt(p.dispatch.value.children, key, i) ==> StartDoes(p, p.dispatch.value, i, r)
    case Bind(key, job) =>
      if p.dispatch.None? then r == Ok(p)
      else
        && (NoChild(p.dispatch.value.children, key) ==> r == Err(InvalidTask))
        && forall i: nat :: ChildAt(p.dispatch.value.children, key, i) ==> BindDoes(p, p.dispatch.value, i, job, r)
    case Record(o) =>
      if p.dispatch.None? then r == Ok(p)
      else
        && (NoChild(p.dispatch.value.children, o.key) ==> r == Err(InvalidTask))
        && forall i: nat :: ChildAt(p.dispatch.value.children, o.key, i) ==> RecordDoes(p, p.dispatch.value, i, o, r)
    case Acknowledge(key) =>
      if p.dispatch.None? then r == Ok(p)
      else
        && (NoChild(p.dispatch.value.children, key) ==> r == Err(InvalidTask))
        && forall i: nat :: ChildAt(p.dispatch.value.children, key, i) ==> AcknowledgeDoes(p, p.dispatch.value, i, r)
  }

  lemma {:induction false} FoundAt(children: seq<Child>, key: string)
    ensures NoChild(children, key) <==> Find(children, key) == |children|
    ensures forall i: nat :: ChildAt(children, key, i) ==> i == Find(children, key)
  {}

  lemma {:induction false} CreatesSo(p: Parent, fingerprint: string, plans: seq<Plan>)
    ensures CreateDoes(p, fingerprint, plans, Apply(p, CreateDispatch(fingerprint, plans)))
  {
    assert ValidPlans(plans) <==> GoodPlans(plans);
  }

  lemma {:induction false} ChildOpsSo(p: Parent, d: Dispatch, key: string, i: nat, job: string, o: Outcome)
    requires p.dispatch == Some(d) && i == Find(d.children, key) < |d.children| && o.key == key
    ensures StartDoes(p, d, i, Apply(p, MarkStarted(key))) && BindDoes(p, d, i, job, Apply(p, Bind(key, job)))
    ensures RecordDoes(p, d, i, o, Apply(p, Record(o))) && AcknowledgeDoes(p, d, i, Apply(p, Acknowledge(key)))
  {
    assert d.children[i := d.children[i]] == d.children;
  }

  lemma {:induction false} EndsSo(p: Parent, d: Dispatch, status: DispatchStatus)
    requires p.dispatch == Some(d)
    ensures RequestDoes(p, d, Apply(p, RequestCancel)) && FinalizeDoes(p, d, status, Apply(p, Finalize(status, [])))
  {}

  /** The store's operations do exactly that. */
  lemma {:induction false} AppliesSo(p: Parent, op: Op)
    ensures OpDoes(p, op, Apply(p, op))
  {
    if op.CreateDispatch? { CreatesSo(p, op.fingerprint, op.plans); hide Apply, CreateDoes; }
    else if !op.Transition? && p.dispatch.Some? {
      var d := p.dispatch.value;
      var key := match op case MarkStarted(k) => k case Bind(k, _) => k case Acknowledge(k) => k case Record(o) => o.key case _ => "";
      FoundAt(d.children, key);
      EndsSo(p, d, if op.Finalize? then op.status else AllCanceled);
      var i := Find(d.children, key);
      if i < |d.children| {
        ChildOpsSo(p, d, key, i, if op.Bind? then op.job else "", if op.Record? then op.outcome else Outcome(key, ChildFailed, None));
        hide Apply, StartDoes, BindDoes, RecordDoes, AcknowledgeDoes, RequestDoes, FinalizeDoes;
      }
    }
  }

  /** finalize records its outcomes one by one, as if each had been recorded before; the first that is refused
    * refuses it. */
  lemma {:induction false} FinalizeRecordsFirst(p: Parent, status: DispatchStatus, os: seq<Outcome>)
    requires p.dispatch.Some? && DispatchEnded(status) && os != []
    ensures var first := Apply(p, Record(os[0]));
      Apply(p, Finalize(status, os)) == match first case Err(why) => Err(why) case Ok(q) => Apply(q, Finalize(status, os[1..]))
  {
    hide RecordOne, AllTerminal, AllSucceeded;
  }
}
