/** The durable job, its approval, and the mutations the job store stages. */
module AgentJobs {
  import opened Prelude

  datatype Mode = ReadOnly | WorkspaceWrite
  datatype Status = Queued | AwaitingApproval | InputRequired | Running | Completed | Failed | Cancelled

  predicate Terminal(s: Status) { s == Completed || s == Failed || s == Cancelled }

  /** Jobs from before tenant scoping have no tenant and match no scope. */
  datatype Scope = Scope(tenantId: string, requesterId: string, conversationId: string)

  datatype Notices = Notices(enabled: bool, delivered: seq<Status>)

  datatype ApprovalState = Pending | Accepted | Denied | Expired
  datatype Settlement = Settlement(status: Status, at: int)

  /** SHA-256 over the fields of the operation that waits for approval, taken to be injective. */
  datatype Revision = OperationDigest(
    id: string, prompt: string, mode: Mode, provider: Option<string>, environment: Option<string>, selection: Option<string>)

  datatype Approval = Approval(
    approvalId: string, revision: Revision, approverId: string, tenantId: string, deadline: int, state: ApprovalState,
    decidedAt: Option<int>, settled: Option<Settlement>)

  datatype Idempotency = Idempotency(key: string, requestHash: string)

  datatype Job = Job(
    id: string,
    tenantId: Option<string>, requesterId: string, conversationId: string,
    prompt: string, mode: Mode, status: Status,
    provider: Option<string>, selection: Option<string>, environment: Option<string>,
    idempotency: Option<Idempotency>,
    progress: seq<string>,
    result: Option<string>, error: Option<string>,
    tokenUsage: Option<nat>, invocation: Option<string>, receipt: Option<string>,
    notices: Option<Notices>,
    cancellationRequestedAt: Option<int>,
    approval: Option<Approval>,
    createdAt: int, finishedAt: Option<int>)

  function RevisionOf(job: Job): Revision {
    OperationDigest(job.id, job.prompt, job.mode, job.provider, job.environment, job.selection)
  }

  predicate Matches(job: Job, scope: Scope) {
    job.tenantId == Some(scope.tenantId) && job.requesterId == scope.requesterId && job.conversationId == scope.conversationId
  }

  // ---- approval ----

  datatype Decision = Accept | Deny | Expire
  datatype Identity = Identity(approvalId: string, revision: Revision)
  datatype Refusal = Unsupported | Invalid | Mismatch | Conflict

  /** The persisted authority is sound for its job. */
  predicate Sound(a: Approval, job: Job) {
    && a.approverId == job.requesterId && Some(a.tenantId) == job.tenantId
    && job.mode == WorkspaceWrite && a.revision == RevisionOf(job) && a.deadline > job.createdAt
    && (a.state == Pending <==> a.decidedAt.None?)
    && (a.decidedAt.Some? ==> a.decidedAt.value >= job.createdAt)
    && (a.decidedAt.Some? ==> (a.state == Expired <==> a.decidedAt.value >= a.deadline))
    && (a.settled.Some? ==> Terminal(a.settled.value.status) && a.settled.value.status == job.status)
    && (a.settled.Some? ==> a.settled.value.at >= a.decidedAt.UnwrapOr(job.createdAt))
    && (a.state == Denied || a.state == Expired ==> job.status == Cancelled && a.settled.Some? && a.settled.value.status == Cancelled)
    && (a.state == Pending ==> Terminal(job.status) || job.status == AwaitingApproval)
    && (a.state == Accepted ==> job.status != AwaitingApproval)
  }

  datatype Transition = Transition(job: Job, dispatch: bool, replayed: bool)

  function Decide(job: Job, scope: Scope, request: Identity, decision: Decision, now: int): Result<Transition, Refusal> {
    if job.approval.None? then Err(Unsupported)
    else if !Sound(job.approval.value, job) then Err(Invalid)
    else
      var a := job.approval.value;
      if !Matches(job, scope) || a.approverId != scope.requesterId || a.tenantId != scope.tenantId
         || a.approvalId != request.approvalId || a.revision != request.revision then Err(Mismatch)
      else if a.state != Pending then
        if (decision == Accept && a.state == Accepted) || (decision == Deny && a.state == Denied) || a.state == Expired
        then Ok(Transition(job, false, true)) else Err(Conflict)
      else if job.status != AwaitingApproval || a.settled.Some? then Err(Conflict)
      else if decision == Expire && now < a.deadline then Ok(Transition(job, false, true))
      else if now >= a.deadline || decision == Deny then
        Ok(Transition(job.(status := Cancelled, finishedAt := Some(now),
             approval := Some(a.(state := if now >= a.deadline then Expired else Denied, decidedAt := Some(now),
                                 settled := Some(Settlement(Cancelled, now))))), false, false))
      else
        Ok(Transition(job.(status := Queued, error := None,
             approval := Some(a.(state := Accepted, decidedAt := Some(now)))), true, false))
  }

  /** A decision, and the check on reading back what it would store. */
  function DecideSoundly(job: Job, scope: Scope, request: Identity, decision: Decision, now: int): Result<Transition, Refusal> {
    match Decide(job, scope, request, decision, now)
    case Err(e) => Err(e)
    case Ok(t) => if Sound(t.job.approval.value, t.job) then Ok(t) else Err(Invalid)
  }

  /** Recorded beside the terminal write of the job. */
  function Settle(job: Job): Result<Job, Refusal> {
    if job.approval.None? then Ok(job)
    else if !Sound(job.approval.value, job) then Err(Invalid)
    else if !Terminal(job.status) || job.approval.value.settled.Some? then Ok(job)
    else if job.finishedAt.None? then Err(Invalid)
    else
      var a, at := job.approval.value, job.finishedAt.value;
      var settled :=
        if a.state == Pending && job.status == Cancelled then
          a.(state := if at >= a.deadline then Expired else Denied, decidedAt := Some(at), settled := Some(Settlement(Cancelled, at)))
        else a.(settled := Some(Settlement(job.status, at)));
      if Sound(settled, job) then Ok(job.(approval := Some(settled))) else Err(Invalid)
  }

  // ---- staged mutations ----

  /** A field is absent from a patch (None) or set, perhaps to nothing. */
  datatype Patch = Patch(
    status: Option<Status>, result: Option<Option<string>>, error: Option<Option<string>>,
    finishedAt: Option<Option<int>>,
    id: Option<string>, prompt: Option<string>, mode: Option<Mode>, idempotency: Option<Option<Idempotency>>, createdAt: Option<int>,
    provider: Option<Option<string>>, selection: Option<Option<string>>, environment: Option<Option<string>>,
    tokenUsage: Option<Option<nat>>, invocation: Option<Option<string>>, receipt: Option<Option<string>>,
    notices: Option<Option<Notices>>, cancellationRequestedAt: Option<Option<int>>)

  function Patched(job: Job, p: Patch): Job {
    job.(status := p.status.UnwrapOr(job.status), result := p.result.UnwrapOr(job.result), error := p.error.UnwrapOr(job.error),
         finishedAt := p.finishedAt.UnwrapOr(job.finishedAt),
         id := p.id.UnwrapOr(job.id), prompt := p.prompt.UnwrapOr(job.prompt), mode := p.mode.UnwrapOr(job.mode),
         idempotency := p.idempotency.UnwrapOr(job.idempotency), createdAt := p.createdAt.UnwrapOr(job.createdAt),
         provider := p.provider.UnwrapOr(job.provider), selection := p.selection.UnwrapOr(job.selection),
         environment := p.environment.UnwrapOr(job.environment),
         tokenUsage := p.tokenUsage.UnwrapOr(job.tokenUsage), invocation := p.invocation.UnwrapOr(job.invocation),
         receipt := p.receipt.UnwrapOr(job.receipt), notices := p.notices.UnwrapOr(job.notices),
         cancellationRequestedAt := p.cancellationRequestedAt.UnwrapOr(job.cancellationRequestedAt))
  }

  /** A patch may not rewrite what is fixed once set. Id, prompt, mode, idempotency key and creation
    * time are not among it. */
  predicate Permitted(job: Job, p: Patch) {
    && (p.notices.Some? && job.notices.Some? ==> p.notices.value.Some? && p.notices.value.value.enabled == job.notices.value.enabled)
    && (p.provider.Some? ==> p.provider.value == job.provider)
    && (p.selection.Some? ==> p.selection.value == job.selection)
    && (p.environment.Some? ==> p.environment.value == job.environment)
    && (p.invocation.Some? && job.invocation.Some? ==> p.invocation.value == job.invocation)
    && (p.receipt.Some? && job.receipt.Some? ==> p.receipt.value == job.receipt)
    && (p.tokenUsage.Some? && job.tokenUsage.Some? ==> p.tokenUsage.value == job.tokenUsage)
    && (p.cancellationRequestedAt.Some? && job.cancellationRequestedAt.Some? ==> p.cancellationRequestedAt.value == job.cancellationRequestedAt)
    && (Patched(job, p).status == Completed ==> Patched(job, p).result.Some? && Patched(job, p).result.value != "")
  }

  function UpdateJob(job: Job, p: Patch): Result<Job, Refusal> {
    match Settle(Patched(job, p))
    case Err(e) => Err(e)
    case Ok(updated) => if Permitted(job, p) then Ok(updated) else Err(Invalid)
  }

  function Last<T>(s: seq<T>, n: nat): seq<T> { if |s| <= n then s else s[|s| - n..] }

  function Progressed(job: Job, message: string): Job {
    if job.progress != [] && job.progress[|job.progress| - 1] == message then job
    else job.(progress := Last(job.progress, 7) + [message])
  }

  /** What names a job, and what never changes once it is set. */
  predicate SameIdentity(a: Job, b: Job) { SameName(a, b) && SameRecord(a, b) }

  predicate SameName(a: Job, b: Job) {
    && a.id == b.id && a.prompt == b.prompt && a.mode == b.mode && a.idempotency == b.idempotency && a.createdAt == b.createdAt
  }

  predicate SameRecord(a: Job, b: Job) {
    && a.tenantId == b.tenantId && a.requesterId == b.requesterId && a.conversationId == b.conversationId
    && a.selection == b.selection && a.environment == b.environment
    && (a.provider.Some? ==> b.provider == a.provider)
    && (a.notices.Some? ==> b.notices.Some? && b.notices.value.enabled == a.notices.value.enabled)
    && (a.invocation.Some? ==> b.invocation == a.invocation)
    && (a.receipt.Some? ==> b.receipt == a.receipt)
    && (a.tokenUsage.Some? ==> b.tokenUsage == a.tokenUsage)
    && (a.cancellationRequestedAt.Some? ==> b.cancellationRequestedAt == a.cancellationRequestedAt)
    && (a.approval.Some? <==> b.approval.Some?)
    && (a.approval.Some? ==> SameAuthority(a.approval.value, b.approval.value))
  }

  /** An approval keeps its identity and deadline; a decision and a settlement are made once. */
  predicate SameAuthority(a: Approval, b: Approval) {
    && a.approvalId == b.approvalId && a.revision == b.revision && a.approverId == b.approverId && a.tenantId == b.tenantId
    && a.deadline == b.deadline
    && (a.state != Pending ==> b.state == a.state && b.decidedAt == a.decidedAt)
    && (a.settled.Some? ==> b.settled == a.settled)
  }

  /** The patch leaves what names the job alone. */
  predicate KeepsName(job: Job, p: Patch) {
    && (p.id.Some? ==> p.id.value == job.id) && (p.prompt.Some? ==> p.prompt.value == job.prompt)
    && (p.mode.Some? ==> p.mode.value == job.mode) && (p.idempotency.Some? ==> p.idempotency.value == job.idempotency)
    && (p.createdAt.Some? ==> p.createdAt.value == job.createdAt)
  }

  lemma {:induction false} SettleKeepsRecord(job: Job)
    requires Settle(job).Ok?
    ensures SameIdentity(job, Settle(job).value) && Settle(job).value == job.(approval := Settle(job).value.approval)
    ensures job.approval.Some? ==> Sound(Settle(job).value.approval.value, Settle(job).value)
  {}

  /** An accepted update keeps what is fixed once set, and keeps what names the job exactly if the
    * patch does: the store does not check that. With an approval attached, id, prompt and mode
    * cannot change at all. */
  lemma {:induction false} UpdateKeepsIdentity(job: Job, p: Patch)
    requires UpdateJob(job, p).Ok?
    ensures var after := UpdateJob(job, p).value;
      && SameRecord(job, after)
      && (SameIdentity(job, after) <==> KeepsName(job, p))
      && (job.approval.Some? && Sound(job.approval.value, job) ==> after.id == job.id && after.prompt == job.prompt && after.mode == job.mode)
  {
    SettleKeepsRecord(Patched(job, p));
    hide Settle, Sound;
    assert job.approval.Some? && Sound(job.approval.value, job) ==> job.approval.value.revision == RevisionOf(job) by { SoundRevision(job); }
    SoundRevision(UpdateJob(job, p).value);
  }

  lemma {:induction false} SoundRevision(job: Job)
    ensures job.approval.Some? && Sound(job.approval.value, job) ==> job.approval.value.revision == RevisionOf(job)
  {}

  lemma {:induction false} DecideKeepsIdentity(job: Job, scope: Scope, request: Identity, decision: Decision, now: int)
    requires DecideSoundly(job, scope, request, decision, now).Ok?
    ensures SameIdentity(job, DecideSoundly(job, scope, request, decision, now).value.job)
  {}

  lemma {:induction false} SameRecordTransitive(a: Job, b: Job, c: Job)
    requires SameRecord(a, b) && SameRecord(b, c)
    ensures SameRecord(a, c)
  {}

  // ---- lists of jobs ----

  predicate DistinctIds(jobs: seq<Job>) { forall i, j :: 0 <= i < j < |jobs| ==> jobs[i].id != jobs[j].id }

  predicate SameScope(a: Job, b: Job) {
    a.tenantId.Some? && a.tenantId == b.tenantId && a.requesterId == b.requesterId && a.conversationId == b.conversationId
  }

  predicate SameKey(a: Job, b: Job) {
    SameScope(a, b) && a.idempotency.Some? && b.idempotency.Some? && a.idempotency.value.key == b.idempotency.value.key
  }

  predicate UniqueKeys(jobs: seq<Job>) { forall i, j :: 0 <= i < j < |jobs| ==> !SameKey(jobs[i], jobs[j]) }

  lemma {:induction false} SameIdentityTransitive(a: Job, b: Job, c: Job)
    requires SameIdentity(a, b) && SameIdentity(b, c)
    ensures SameIdentity(a, c)
  {}
}
