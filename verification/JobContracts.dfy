/** What an update and a decision do to a job, field by field, and when they are refused. */
module JobContracts {
  import opened Prelude
  import opened AgentJobs

  predicate Finished(status: Status) { status == Completed || status == Failed || status == Cancelled }

  // ---- updates ----

  function Set<T>(given: Option<T>, was: T): T { if given.Some? then given.value else was }

  /** Every field is the patch's, where it has one, or stays; the approval is looked at on its own. */
  predicate FieldsFollow(job: Job, p: Patch, after: Job) {
    && after.tenantId == job.tenantId && after.requesterId == job.requesterId && after.conversationId == job.conversationId
    && after.progress == job.progress
    && after.status == Set(p.status, job.status) && after.result == Set(p.result, job.result) && after.error == Set(p.error, job.error)
    && after.finishedAt == Set(p.finishedAt, job.finishedAt) && after.createdAt == Set(p.createdAt, job.createdAt)
    && after.id == Set(p.id, job.id) && after.prompt == Set(p.prompt, job.prompt) && after.mode == Set(p.mode, job.mode)
    && after.idempotency == Set(p.idempotency, job.idempotency)
    && after.provider == Set(p.provider, job.provider) && after.selection == Set(p.selection, job.selection)
    && after.environment == Set(p.environment, job.environment) && after.tokenUsage == Set(p.tokenUsage, job.tokenUsage)
    && after.invocation == Set(p.invocation, job.invocation) && after.receipt == Set(p.receipt, job.receipt)
    && after.notices == Set(p.notices, job.notices)
    && after.cancellationRequestedAt == Set(p.cancellationRequestedAt, job.cancellationRequestedAt)
  }

  /** With the job's end the approval is settled: denied or expired if it was still pending and the job is
    * cancelled, otherwise as it was. */
  predicate ApprovalFollows(job: Job, after: Job) {
    if job.approval.None? then after.approval.None?
    else if !Finished(after.status) || job.approval.value.settled.Some? then after.approval == job.approval
    else
      after.finishedAt.Some?
      && var a, at := job.approval.value, after.finishedAt.value;
         after.approval == Some(
           if a.state == Pending && after.status == Cancelled
           then a.(state := if at >= a.deadline then Expired else Denied, decidedAt := Some(at), settled := Some(Settlement(Cancelled, at)))
           else a.(settled := Some(Settlement(after.status, at))))
  }

  /** The patch changes something that is fixed once set. */
  predicate Rewrites(job: Job, p: Patch) {
    || (p.provider.Some? && p.provider.value != job.provider) || (p.selection.Some? && p.selection.value != job.selection)
    || (p.environment.Some? && p.environment.value != job.environment)
    || (p.invocation.Some? && job.invocation.Some? && p.invocation.value != job.invocation)
    || (p.receipt.Some? && job.receipt.Some? && p.receipt.value != job.receipt)
    || (p.tokenUsage.Some? && job.tokenUsage.Some? && p.tokenUsage.value != job.tokenUsage)
    || (p.cancellationRequestedAt.Some? && job.cancellationRequestedAt.Some? && p.cancellationRequestedAt.value != job.cancellationRequestedAt)
    || (p.notices.Some? && job.notices.Some? && (p.notices.value.None? || p.notices.value.value.enabled != job.notices.value.enabled))
  }

  /** It would leave the job completed without a result. */
  predicate Resultless(job: Job, p: Patch) {
    Set(p.status, job.status) == Completed && (Set(p.result, job.result).None? || Set(p.result, job.result).value == "")
  }

  lemma {:induction false} FieldsDo(job: Job, p: Patch)
    requires UpdateJob(job, p).Ok?
    ensures FieldsFollow(job, p, UpdateJob(job, p).value)
  {
    SettleKeepsRecord(Patched(job, p));
    hide Sound, Settle, Permitted;
  }

  lemma {:induction false} ApprovalDoes(job: Job, p: Patch)
    requires UpdateJob(job, p).Ok?
    ensures ApprovalFollows(job, UpdateJob(job, p).value)
  {
    SettleKeepsRecord(Patched(job, p));
    hide Sound, Permitted;
  }

  lemma {:induction false} PermitDoes(job: Job, p: Patch)
    ensures Permitted(job, p) <==> !Rewrites(job, p) && !Resultless(job, p)
  {}

  /** An accepted update leaves exactly this; a job without an approval is refused exactly for rewriting what
    * is fixed, or for completing without a result. */
  lemma {:induction false} UpdateDoes(job: Job, p: Patch)
    ensures UpdateJob(job, p).Ok? ==>
      && FieldsFollow(job, p, UpdateJob(job, p).value) && ApprovalFollows(job, UpdateJob(job, p).value)
      && !Rewrites(job, p) && !Resultless(job, p)
    ensures job.approval.None? && !Rewrites(job, p) && !Resultless(job, p) ==> UpdateJob(job, p).Ok?
  {
    PermitDoes(job, p);
    if UpdateJob(job, p).Ok? {
      FieldsDo(job, p);
      ApprovalDoes(job, p);
    }
    hide Sound, FieldsFollow, ApprovalFollows, Permitted, Rewrites, Resultless;
  }

  /** The status the patch leaves fits the approval: the one it was settled with; an end not before what was
    * decided; or the wait for a decision. */
  predicate Fits(job: Job, a: Approval, p: Patch) {
    var s, at := Set(p.status, job.status), Set(p.finishedAt, job.finishedAt);
    if a.settled.Some? then s == a.settled.value.status
    else if Finished(s) then at.Some? && at.value >= (if a.decidedAt.Some? then a.decidedAt.value else job.createdAt)
    else (a.state == Pending <==> s == AwaitingApproval)
  }

  /** An update of a job with an approval, that leaves the operation as it was approved, is accepted exactly so:
    * a waiting job can be cancelled at any time, before its deadline or after it. */
  lemma {:induction false} ApprovedUpdate(job: Job, a: Approval, p: Patch)
    requires job.approval == Some(a) && !Unreadable(a, job)
    requires Set(p.id, job.id) == job.id && Set(p.prompt, job.prompt) == job.prompt && Set(p.mode, job.mode) == job.mode
    requires Set(p.createdAt, job.createdAt) == job.createdAt
    ensures UpdateJob(job, p).Ok? <==> !Rewrites(job, p) && !Resultless(job, p) && Fits(job, a, p)
  {
    PermitDoes(job, p);
    SoundExactly(a, job);
    if !Rewrites(job, p) { ApprovedSettles(job, a, p); }
    hide Permitted, Settle, Rewrites, Resultless, Fits, Unreadable, Sound;
  }

  lemma {:induction false} ApprovedSettles(job: Job, a: Approval, p: Patch)
    requires job.approval == Some(a) && Sound(a, job) && !Rewrites(job, p)
    requires Set(p.id, job.id) == job.id && Set(p.prompt, job.prompt) == job.prompt && Set(p.mode, job.mode) == job.mode
    requires Set(p.createdAt, job.createdAt) == job.createdAt
    ensures Settle(Patched(job, p)).Ok? <==> Fits(job, a, p)
  {}

  // ---- decisions ----

  /** The request names this very approval, in the scope of the job. */
  predicate Names(job: Job, a: Approval, scope: Scope, request: Identity) {
    && job.tenantId == Some(scope.tenantId) && job.requesterId == scope.requesterId && job.conversationId == scope.conversationId
    && a.approverId == scope.requesterId && a.tenantId == scope.tenantId
    && a.approvalId == request.approvalId && a.revision == request.revision
  }

  /** A decision on an approval that reads back, at a time not before the job was created. */
  predicate DecisionDoes(job: Job, a: Approval, scope: Scope, request: Identity, decision: Decision, now: int, r: Result<Transition, Refusal>) {
    if !Names(job, a, scope, request) then r == Err(Mismatch)
    else if a.state == Pending && job.status == AwaitingApproval && a.settled.None? then
      if decision == Expire && now < a.deadline then r == Ok(Transition(job, false, true))
      else if now >= a.deadline then
        r == Ok(Transition(job.(status := Cancelled, finishedAt := Some(now),
               approval := Some(a.(state := Expired, decidedAt := Some(now), settled := Some(Settlement(Cancelled, now))))), false, false))
      else if decision == Deny then
        r == Ok(Transition(job.(status := Cancelled, finishedAt := Some(now),
               approval := Some(a.(state := Denied, decidedAt := Some(now), settled := Some(Settlement(Cancelled, now))))), false, false))
      else r == Ok(Transition(job.(status := Queued, error := None, approval := Some(a.(state := Accepted, decidedAt := Some(now)))), true, false))
    else if a.state == Expired || (a.state == Accepted && decision == Accept) || (a.state == Denied && decision == Deny)
    then r == Ok(Transition(job, false, true))
    else r == Err(Conflict)
  }

  lemma {:induction false} DecideDoes(job: Job, scope: Scope, request: Identity, decision: Decision, now: int)
    ensures job.approval.None? ==> DecideSoundly(job, scope, request, decision, now) == Err(Unsupported)
    ensures job.approval.Some? && !Sound(job.approval.value, job) ==> DecideSoundly(job, scope, request, decision, now) == Err(Invalid)
    ensures job.approval.Some? && Sound(job.approval.value, job) && job.createdAt <= now ==>
      DecisionDoes(job, job.approval.value, scope, request, decision, now, DecideSoundly(job, scope, request, decision, now))
  {}

  /** An approval is not read back that is of another job, scope or operation; whose deadline is not after the
    * creation; whose decision does not fit its time; or whose settlement does not fit the job. */
  predicate Unreadable(a: Approval, job: Job) {
    || a.approverId != job.requesterId || job.tenantId != Some(a.tenantId) || job.mode != WorkspaceWrite
    || a.revision != OperationDigest(job.id, job.prompt, job.mode, job.provider, job.environment, job.selection)
    || a.deadline <= job.createdAt
    || (a.state == Pending && a.decidedAt.Some?) || (a.state != Pending && a.decidedAt.None?)
    || (a.decidedAt.Some? && (a.decidedAt.value < job.createdAt
          || (a.state == Expired && a.decidedAt.value < a.deadline) || (a.state != Expired && a.decidedAt.value >= a.deadline)))
    || (a.settled.Some? && (!Finished(a.settled.value.status) || a.settled.value.status != job.status
          || a.settled.value.at < (if a.decidedAt.Some? then a.decidedAt.value else job.createdAt)))
    || ((a.state == Denied || a.state == Expired) && (job.status != Cancelled || a.settled.None?))
    || (a.state == Pending && !Finished(job.status) && job.status != AwaitingApproval)
    || (a.state == Accepted && job.status == AwaitingApproval)
  }

  /** Nothing is decided, updated or settled on such an approval, and nothing of the kind is ever stored. */
  lemma {:induction false} UnreadableIsRefused(job: Job, a: Approval, scope: Scope, request: Identity, decision: Decision, now: int, p: Patch)
    requires job.approval == Some(a)
    ensures Unreadable(a, job) ==> DecideSoundly(job, scope, request, decision, now) == Err(Invalid)
    ensures DecideSoundly(job, scope, request, decision, now).Ok? ==>
      var t := DecideSoundly(job, scope, request, decision, now).value.job; t.approval.Some? && !Unreadable(t.approval.value, t)
    ensures UpdateJob(job, p).Ok? ==> UpdateJob(job, p).value.approval.Some? && !Unreadable(UpdateJob(job, p).value.approval.value, UpdateJob(job, p).value)
    ensures !Unreadable(a, job) ==> DecideSoundly(job, scope, request, Expire, job.createdAt) != Err(Invalid)
  {
    SoundExactly(a, job);
    if DecideSoundly(job, scope, request, decision, now).Ok? {
      var t := DecideSoundly(job, scope, request, decision, now).value.job;
      DecidesSoundly(job, scope, request, decision, now);
      SoundExactly(t.approval.value, t);
    }
    if UpdateJob(job, p).Ok? {
      SettleKeepsRecord(Patched(job, p));
      SoundExactly(UpdateJob(job, p).value.approval.value, UpdateJob(job, p).value);
    }
    if !Unreadable(a, job) { EarlyExpiry(job, a, scope, request); }
    hide Sound, Unreadable, Decide, Settle, Patched, Permitted;
  }

  lemma {:induction false} SoundExactly(a: Approval, job: Job)
    ensures Unreadable(a, job) <==> !Sound(a, job)
  {}

  lemma {:induction false} DecidesSoundly(job: Job, scope: Scope, request: Identity, decision: Decision, now: int)
    requires DecideSoundly(job, scope, request, decision, now).Ok?
    ensures var t := DecideSoundly(job, scope, request, decision, now).value.job; t.approval.Some? && Sound(t.approval.value, t)
  {}

  lemma {:induction false} EarlyExpiry(job: Job, a: Approval, scope: Scope, request: Identity)
    requires job.approval == Some(a) && Sound(a, job)
    ensures DecideSoundly(job, scope, request, Expire, job.createdAt) != Err(Invalid)
  {}
}
