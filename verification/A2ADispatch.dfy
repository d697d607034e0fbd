/** A parent task and its durable child dispatch: intent, bindings, outcomes, cancellation. */
module A2ADispatch {
  import opened Prelude

  /** The TaskState values of section 6.3 of the A2A 0.2.6 specification that the store keeps. */
  datatype TaskStatus = Submitted | Working | InputRequired | AuthRequired | Completed | Failed | Canceled | Rejected

  predicate TaskTerminal(s: TaskStatus) { s == Completed || s == Failed || s == Canceled || s == Rejected }

  predicate Allowed(previous: TaskStatus, next: TaskStatus) {
    match previous
    case Submitted => next != Completed
    case Working => next != Submitted
    case InputRequired => next != Submitted && next != Completed
    case AuthRequired => next != Submitted && next != Completed
    case _ => next == previous
  }

  datatype ChildStatus = ChildPending | ChildWorking | ChildCompleted | ChildFailed | ChildCanceled

  predicate ChildTerminal(s: ChildStatus) { s == ChildCompleted || s == ChildFailed || s == ChildCanceled }

  datatype Plan = Plan(
    key: string, idempotencyKey: string, role: string, agentId: string, providerId: string,
    identity: Option<string>, boundary: Option<string>, requestSha256: string)

  datatype Child = Child(plan: Plan, status: ChildStatus, job: Option<string>, acked: bool)

  datatype DispatchStatus = Pending | Running | Canceling | AllCompleted | SomeFailed | AllCanceled

  predicate DispatchTerminal(s: DispatchStatus) { s == AllCompleted || s == SomeFailed || s == AllCanceled }

  datatype Dispatch = Dispatch(fingerprint: string, status: DispatchStatus, cancelRequested: bool, children: seq<Child>)

  datatype Parent = Parent(status: TaskStatus, dispatch: Option<Dispatch>)

  datatype Outcome = Outcome(key: string, status: ChildStatus, job: Option<string>)

  datatype Op =
    | CreateDispatch(fingerprint: string, plans: seq<Plan>)
    | MarkStarted(key: string)
    | Bind(key: string, job: string)
    | Record(outcome: Outcome)
    | RequestCancel
    | Acknowledge(key: string)
    | Finalize(status: DispatchStatus, outcomes: seq<Outcome>)
    | Transition(next: TaskStatus)     // transitionTask and cancelTask, which do not look at the dispatch

  datatype Fault = Conflict | TerminalImmutable | InvalidRequest | InvalidTask | WriteFailed

  const MAX_DISPATCH_CHILDREN: nat := 16

  predicate ValidPlans(plans: seq<Plan>) {
    && 1 <= |plans| <= MAX_DISPATCH_CHILDREN
    && (forall i, j :: 0 <= i < j < |plans| ==> plans[i].key != plans[j].key && plans[i].idempotencyKey != plans[j].idempotencyKey)
    && (forall i :: 0 <= i < |plans| ==> (plans[i].identity.Some? <==> plans[i].boundary.Some?))
  }

  function NewChildren(plans: seq<Plan>): (r: seq<Child>)
    ensures |r| == |plans| && forall i :: 0 <= i < |plans| ==> r[i] == Child(plans[i], ChildPending, None, false)
  {
    if plans == [] then [] else [Child(plans[0], ChildPending, None, false)] + NewChildren(plans[1..])
  }

  predicate SamePlan(children: seq<Child>, plans: seq<Plan>) {
    |children| == |plans| && forall i :: 0 <= i < |plans| ==> children[i].plan == plans[i]
  }

  function Find(children: seq<Child>, key: string): (i: nat)
    ensures i <= |children|
    ensures i < |children| ==> children[i].plan.key == key
    ensures forall j :: 0 <= j < i ==> children[j].plan.key != key
  {
    if children == [] || children[0].plan.key == key then 0 else 1 + Find(children[1..], key)
  }

  function BindChild(c: Child, job: string): Result<Child, Fault> {
    if c.job.Some? then (if c.job.value == job then Ok(c) else Err(Conflict))
    else if ChildTerminal(c.status) then Err(TerminalImmutable)
    else Ok(c.(job := Some(job)))
  }

  function SettleChild(c: Child, o: Outcome): Result<Child, Fault> {
    match (if o.job.Some? then BindChild(c, o.job.value) else Ok(c))
    case Err(e) => Err(e)
    case Ok(bound) =>
      if ChildTerminal(bound.status) then (if bound.status == o.status then Ok(bound) else Err(TerminalImmutable))
      else Ok(bound.(status := o.status))
  }

  function Started(d: Dispatch): Dispatch { if d.status == Pending then d.(status := Running) else d }

  function RecordOne(d: Dispatch, o: Outcome): Result<Dispatch, Fault> {
    var i := Find(d.children, o.key);
    if i == |d.children| || !ChildTerminal(o.status) then Err(InvalidTask)
    else
      match SettleChild(d.children[i], o)
      case Err(e) => Err(e)
      case Ok(c) =>
        var e := d.(children := d.children[i := c]);
        Ok(if !ChildTerminal(d.children[i].status) && !d.cancelRequested then Started(e) else e)
  }

  function RecordEach(d: Dispatch, os: seq<Outcome>): Result<Dispatch, Fault>
    decreases |os|
  {
    if os == [] then Ok(d)
    else
      match RecordOne(d, os[0])
      case Err(e) => Err(e)
      case Ok(next) => RecordEach(next, os[1..])
  }

  predicate AllTerminal(d: Dispatch) { forall i :: 0 <= i < |d.children| ==> ChildTerminal(d.children[i].status) }
  predicate AllSucceeded(d: Dispatch) { forall i :: 0 <= i < |d.children| ==> d.children[i].status == ChildCompleted }

  function TaskStatusOf(s: DispatchStatus): TaskStatus
    requires DispatchTerminal(s)
  {
    match s case AllCompleted => Completed case SomeFailed => Failed case _ => Canceled
  }

  function ApplyDispatch(p: Parent, d: Dispatch, op: Op): Result<Parent, Fault>
    requires p.dispatch == Some(d) && !op.CreateDispatch? && !op.Transition?
  {
    match op
    case MarkStarted(key) =>
      var i := Find(d.children, key);
      if i == |d.children| then Err(InvalidTask)
      else if ChildTerminal(d.children[i].status) then Ok(p)
      else Ok(p.(dispatch := Some(Started(d.(children := d.children[i := d.children[i].(status := ChildWorking)])))))
    case Bind(key, job) =>
      var i := Find(d.children, key);
      if i == |d.children| then Err(InvalidTask)
      else (match BindChild(d.children[i], job)
            case Err(e) => Err(e)
            case Ok(c) =>
              var e := d.(children := d.children[i := if ChildTerminal(c.status) then c else c.(status := ChildWorking)]);
              Ok(p.(dispatch := Some(if d.cancelRequested then e else Started(e)))))
    case Record(o) =>
      (match RecordOne(d, o)
       case Err(e) => Err(e)
       case Ok(e) => Ok(p.(dispatch := Some(e))))
    case RequestCancel =>
      if d.status == AllCompleted || d.status == SomeFailed then Err(TerminalImmutable)
      else if d.status == AllCanceled || d.cancelRequested then Ok(p)
      else Ok(p.(dispatch := Some(d.(cancelRequested := true, status := Canceling))))
    case Acknowledge(key) =>
      var i := Find(d.children, key);
      if !d.cancelRequested || i == |d.children| then Err(InvalidTask)
      else if d.children[i].acked then Ok(p)
      else
        var c := d.children[i].(acked := true);
        Ok(p.(dispatch := Some(d.(children := d.children[i := if ChildTerminal(c.status) then c else c.(status := ChildCanceled)]))))
    case Finalize(status, outcomes) =>
      if !DispatchTerminal(status) then Err(InvalidTask)
      else
        match RecordEach(d, outcomes)
        case Err(e) => Err(e)
        case Ok(e) =>
          if !AllTerminal(e) || (status == AllCompleted && !AllSucceeded(e)) then Err(InvalidTask)
          else if !Allowed(p.status, TaskStatusOf(status)) then Err(TerminalImmutable)
          else Ok(Parent(TaskStatusOf(status), Some(e.(status := status))))
  }

  function Apply(p: Parent, op: Op): Result<Parent, Fault> {
    match op
    case Transition(next) => if Allowed(p.status, next) then Ok(p.(status := next)) else Err(TerminalImmutable)
    case CreateDispatch(fingerprint, plans) =>
      if !ValidPlans(plans) then Err(InvalidRequest)
      else if p.dispatch.Some? then
        (if p.dispatch.value.fingerprint == fingerprint && SamePlan(p.dispatch.value.children, plans) then Ok(p) else Err(Conflict))
      else if TaskTerminal(p.status) then Err(TerminalImmutable)
      else Ok(Parent(if p.status == Submitted then Working else p.status,
                     Some(Dispatch(fingerprint, Pending, false, NewChildren(plans)))))
    case _ => if p.dispatch.None? then Ok(p) else ApplyDispatch(p, p.dispatch.value, op)
  }

  // ---- what every operation keeps ----

  predicate ValidChildren(children: seq<Child>) {
    && 1 <= |children| <= MAX_DISPATCH_CHILDREN
    && (forall i, j :: 0 <= i < j < |children| ==> children[i].plan.key != children[j].plan.key)
    && (forall i, j :: 0 <= i < j < |children| ==> children[i].plan.idempotencyKey != children[j].plan.idempotencyKey)
    && (forall i :: 0 <= i < |children| ==> (children[i].plan.identity.Some? <==> children[i].plan.boundary.Some?))
  }

  /** What the store demands of a dispatch before it writes it, and more. */
  predicate SoundDispatch(d: Dispatch) {
    && ValidChildren(d.children)
    && (forall i :: 0 <= i < |d.children| && d.children[i].acked ==> d.cancelRequested && ChildTerminal(d.children[i].status))
    && (d.status == Canceling ==> d.cancelRequested)
    && (d.cancelRequested ==> d.status != Pending && d.status != Running)
    && (DispatchTerminal(d.status) ==> AllTerminal(d))
    && (d.status == AllCompleted ==> AllSucceeded(d))
  }

  predicate Sound(p: Parent) {
    p.dispatch.Some? ==>
      && SoundDispatch(p.dispatch.value)
      && (DispatchTerminal(p.dispatch.value.status) ==> p.status == TaskStatusOf(p.dispatch.value.status))
  }

  /** Nothing settled is unsettled: plans, terminal statuses, job bindings, acknowledgements. */
  predicate LaterChild(a: Child, b: Child) {
    && b.plan == a.plan
    && (ChildTerminal(a.status) ==> b.status == a.status)
    && (a.job.Some? ==> b.job == a.job)
    && (a.acked ==> b.acked)
  }

  predicate LaterChildren(a: seq<Child>, b: seq<Child>) {
    |a| == |b| && forall i :: 0 <= i < |a| ==> LaterChild(a[i], b[i])
  }

  predicate LaterDispatch(a: Dispatch, b: Dispatch) {
    && b.fingerprint == a.fingerprint && LaterChildren(a.children, b.children)
    && (a.cancelRequested ==> b.cancelRequested)
    && (DispatchTerminal(a.status) ==> b.status == a.status)
  }

  predicate Later(p: Parent, q: Parent) {
    && (TaskTerminal(p.status) ==> q.status == p.status)
    && (p.dispatch.Some? ==> q.dispatch.Some? && LaterDispatch(p.dispatch.value, q.dispatch.value))
  }

  /** Between the operations of one finalize: no dispatch status is set yet. */
  predicate Midway(a: Dispatch, b: Dispatch) {
    && b.fingerprint == a.fingerprint && LaterChildren(a.children, b.children) && b.cancelRequested == a.cancelRequested
    && ValidChildren(b.children)
    && (forall i :: 0 <= i < |b.children| && b.children[i].acked ==> b.cancelRequested && ChildTerminal(b.children[i].status))
    && (if a.status == Pending && !a.cancelRequested then b.status == Pending || b.status == Running else b.status == a.status)
  }


  lemma {:induction false} LaterSelf(children: seq<Child>)
    ensures LaterChildren(children, children)
  {}

  lemma {:induction false} ReplaceLater(children: seq<Child>, i: nat, c: Child)
    requires i < |children| && LaterChild(children[i], c)
    ensures LaterChildren(children, children[i := c])
    ensures ValidChildren(children) ==> ValidChildren(children[i := c])
  {}

  lemma {:induction false} RecordOneMidway(a: Dispatch, d: Dispatch, o: Outcome)
    requires Midway(a, d) && RecordOne(d, o).Ok?
    ensures Midway(a, RecordOne(d, o).value)
  {
    var i := Find(d.children, o.key);
    var c := SettleChild(d.children[i], o).value;
    ReplaceLater(d.children, i, c);
    LaterTransitive(a.children, d.children, d.children[i := c]);
  }

  lemma {:induction false} LaterTransitive(a: seq<Child>, b: seq<Child>, c: seq<Child>)
    requires LaterChildren(a, b) && LaterChildren(b, c)
    ensures LaterChildren(a, c)
  {
    forall i | 0 <= i < |a| ensures LaterChild(a[i], c[i]) { assert LaterChild(a[i], b[i]) && LaterChild(b[i], c[i]); }
  }

  lemma {:induction false} RecordEachMidway(a: Dispatch, d: Dispatch, os: seq<Outcome>)
    requires Midway(a, d) && RecordEach(d, os).Ok?
    ensures Midway(a, RecordEach(d, os).value)
    decreases |os|
  {
    if os != [] {
      RecordOneMidway(a, d, os[0]);
      RecordEachMidway(a, RecordOne(d, os[0]).value, os[1..]);
    }
  }

  lemma {:induction false} MidwaySelf(d: Dispatch)
    requires SoundDispatch(d)
    ensures Midway(d, d)
  {
    LaterSelf(d.children);
  }

  /** Replacing one child of a live dispatch, its status otherwise as it may be. */
  lemma {:induction false} ChildStep(d: Dispatch, i: nat, c: Child, status: DispatchStatus)
    requires SoundDispatch(d) && i < |d.children| && LaterChild(d.children[i], c)
    requires c.acked ==> d.cancelRequested && ChildTerminal(c.status)
    requires status == d.status || (d.status == Pending && status == Running)
    ensures var e := d.(children := d.children[i := c], status := status); SoundDispatch(e) && LaterDispatch(d, e)
  {
    ReplaceLater(d.children, i, c);
  }




  lemma {:induction false} ApplyDispatchKeeps(p: Parent, op: Op)
    requires Sound(p) && p.dispatch.Some? && !op.CreateDispatch? && !op.Transition?
    requires ApplyDispatch(p, p.dispatch.value, op).Ok?
    ensures var q := ApplyDispatch(p, p.dispatch.value, op).value; Sound(q) && Later(p, q)
  {
    var d := p.dispatch.value;
    LaterSelf(d.children);
    hide LaterChildren, ValidChildren, LaterChild, RecordOne, RecordEach, Midway;
    match op
    case MarkStarted(key) =>
      var i := Find(d.children, key);
      ChildStep(d, i, if ChildTerminal(d.children[i].status) then d.children[i] else d.children[i].(status := ChildWorking), Started(d).status);
    case Bind(key, job) =>
      var i := Find(d.children, key);
      var c := BindChild(d.children[i], job).value;
      ChildStep(d, i, if ChildTerminal(c.status) then c else c.(status := ChildWorking), if d.cancelRequested then d.status else Started(d).status);
    case Record(o) =>
      MidwaySelf(d);
      RecordOneMidway(d, d, o);
      MidwayKeeps(p, d, RecordOne(d, o).value);
    case RequestCancel => if !DispatchTerminal(d.status) && !d.cancelRequested { RequestKeeps(p, d); }
    case Acknowledge(key) =>
      var i := Find(d.children, key);
      var c := d.children[i].(acked := true);
      ChildStep(d, i, if ChildTerminal(c.status) then c else c.(status := ChildCanceled), d.status);
    case Finalize(status, outcomes) =>
      MidwaySelf(d);
      RecordEachMidway(d, d, outcomes);
      FinalizeKeeps(p, d, RecordEach(d, outcomes).value, status);
  }

  lemma {:induction false} RequestKeeps(p: Parent, d: Dispatch)
    requires Sound(p) && p.dispatch == Some(d) && !DispatchTerminal(d.status) && !d.cancelRequested
    ensures var e := d.(cancelRequested := true, status := Canceling); Sound(p.(dispatch := Some(e))) && LaterDispatch(d, e)
  {
    LaterSelf(d.children);
  }

  lemma {:induction false} FinalizeKeeps(p: Parent, d: Dispatch, e: Dispatch, status: DispatchStatus)
    requires Sound(p) && p.dispatch == Some(d) && Midway(d, e) && DispatchTerminal(status) && AllTerminal(e)
    requires (status == AllCompleted ==> AllSucceeded(e)) && Allowed(p.status, TaskStatusOf(status))
    ensures var q := Parent(TaskStatusOf(status), Some(e.(status := status))); Sound(q) && Later(p, q)
  {}

  /** Recording outcomes without finalizing. */
  lemma {:induction false} MidwayKeeps(p: Parent, d: Dispatch, e: Dispatch)
    requires Sound(p) && p.dispatch == Some(d) && Midway(d, e)
    ensures Sound(p.(dispatch := Some(e))) && LaterDispatch(d, e)
  {
    if DispatchTerminal(d.status) {
      forall i | 0 <= i < |e.children| ensures e.children[i].status == d.children[i].status { assert LaterChild(d.children[i], e.children[i]); }
    }
  }

  /** Every operation keeps the dispatch sound and settles nothing twice. */
  lemma {:induction false} ApplyKeeps(p: Parent, op: Op)
    requires Sound(p) && Apply(p, op).Ok?
    ensures Sound(Apply(p, op).value) && Later(p, Apply(p, op).value)
  {
    if p.dispatch.Some? { LaterSelf(p.dispatch.value.children); }
    if !op.CreateDispatch? && !op.Transition? && p.dispatch.Some? { ApplyDispatchKeeps(p, op); }
  }
}
