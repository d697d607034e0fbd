/** What each mutation of the job store answers and leaves behind, and what a caller that asks again is told. */
module JobAnswers {
  import opened Prelude
  import opened AgentJobs
  import opened JobLoading
  import opened JobStore

  // ---- one mutation, in the words of the data ----

  predicate InScope(job: Job, scope: Scope) {
    job.tenantId == Some(scope.tenantId) && job.requesterId == scope.requesterId && job.conversationId == scope.conversationId
  }

  /** The first job of this id in this scope. */
  predicate Target(jobs: seq<Job>, id: string, scope: Scope, i: nat) {
    && i < |jobs| && jobs[i].id == id && InScope(jobs[i], scope)
    && forall j :: 0 <= j < i ==> !(jobs[j].id == id && InScope(jobs[j], scope))
  }

  predicate NoTarget(jobs: seq<Job>, id: string, scope: Scope) {
    forall j :: 0 <= j < |jobs| ==> !(jobs[j].id == id && InScope(jobs[j], scope))
  }

  /** The job holds the idempotency key of another one, in its scope. */
  predicate HoldsKeyOf(held: Job, job: Job) {
    && held.tenantId.Some? && held.tenantId == job.tenantId && held.requesterId == job.requesterId && held.conversationId == job.conversationId
    && held.idempotency.Some? && job.idempotency.Some? && held.idempotency.value.key == job.idempotency.value.key
  }

  /** The first job that holds the key. */
  predicate KeyHolder(jobs: seq<Job>, job: Job, i: nat) {
    i < |jobs| && HoldsKeyOf(jobs[i], job) && forall j :: 0 <= j < i ==> !HoldsKeyOf(jobs[j], job)
  }

  predicate KeyFree(jobs: seq<Job>, job: Job) { forall j :: 0 <= j < |jobs| ==> !HoldsKeyOf(jobs[j], job) }

  /** create(): a key that stands in the scope is answered, everything else is put at the head. */
  ghost predicate CreateDoes(jobs: seq<Job>, job: Job, after: seq<Job>, r: Result<Option<Job>, Thrown>) {
    && (forall i: nat :: KeyHolder(jobs, job, i) ==>
          && after == jobs
          && r == Err(if jobs[i].idempotency.value.requestHash == job.idempotency.value.requestHash then IdempotentReplay(jobs[i]) else IdempotencyConflict))
    && (KeyFree(jobs, job) ==> after == [job] + jobs && r == Ok(Some(job)))
  }

  /** A job changed by what the mutation does to it, or left alone with the refusal. */
  ghost predicate OneDoes(jobs: seq<Job>, id: string, scope: Scope, change: Result<Job, Refusal>, i: nat, after: seq<Job>, r: Result<Option<Job>, Thrown>)
    requires i < |jobs|
  {
    match change
    case Ok(job) => after == jobs[i := job] && r == Ok(Some(job))
    case Err(why) => after == jobs && r == Err(Refused(why))
  }

  /** The last seven messages and the new one, unless it repeats the last. */
  predicate Appended(before: seq<string>, message: string, after: seq<string>) {
    if before != [] && before[|before| - 1] == message then after == before
    else
      && |after| == (if |before| < 7 then |before| else 7) + 1 && after[|after| - 1] == message
      && forall k :: 0 <= k < |after| - 1 ==> after[k] == before[|before| - (|after| - 1) + k]
  }

  /** What a mutation of an initialized store does when its write goes through. */
  ghost predicate MutationDoes(jobs: seq<Job>, m: Mutation, after: seq<Job>, r: Result<Option<Job>, Thrown>) {
    match m
    case Create(job) => CreateDoes(jobs, job, after, r)
    case Update(id, scope, patch) =>
      && (NoTarget(jobs, id, scope) ==> after == jobs && r == Ok(None))
      && (forall i: nat :: Target(jobs, id, scope, i) ==> OneDoes(jobs, id, scope, UpdateJob(jobs[i], patch), i, after, r))
    case DecideApproval(id, scope, request, decision, now) =>
      && (NoTarget(jobs, id, scope) ==> after == jobs && r == Ok(None))
      && (forall i: nat :: Target(jobs, id, scope, i) ==>
            var t := DecideSoundly(jobs[i], scope, request, decision, now);
            OneDoes(jobs, id, scope, if t.Ok? then Ok(t.value.job) else Err(t.error), i, after, r))
    case AppendProgress(id, scope, message) =>
      && (NoTarget(jobs, id, scope) ==> after == jobs && r == Ok(None))
      && (forall i: nat :: Target(jobs, id, scope, i) ==>
            && r.Ok? && r.value.Some? && after == jobs[i := r.value.value] && r.value.value == jobs[i].(progress := r.value.value.progress)
            && Appended(jobs[i].progress, message, r.value.value.progress))
    case RecoverInterrupted(now) =>
      (r.Err? ==> after == jobs) && (r.Ok? ==> r.value == None && |after| == |jobs| && forall i :: 0 <= i < |jobs| ==> RecoveryDoes(jobs[i], now, after[i]))
  }

  /** Recovery after a restart fails the jobs that were at work, and settles their approval with that. */
  predicate RecoveryDoes(job: Job, now: int, after: Job) {
    if job.status != Queued && job.status != Running then after == job
    else
      && after == job.(status := Failed, error := Some("restarted"), finishedAt := Some(now), approval := after.approval)
      && (job.approval.None? ==> after.approval.None?)
      && (job.approval.Some? ==> after.approval == Some(job.approval.value.(settled :=
            if job.approval.value.settled.Some? then job.approval.value.settled else Some(Settlement(Failed, now)))))
  }

  function StagedAnswer(jobs: seq<Job>, m: Mutation): Result<Option<Job>, Thrown> {
    match Stage(jobs, m) case Ok(staged) => Ok(staged.answer) case Err(why) => Err(why)
  }

  function StagedJobs(jobs: seq<Job>, m: Mutation): seq<Job> {
    match Stage(jobs, m) case Ok(staged) => staged.jobs case Err(_) => jobs
  }

  lemma {:induction false} TargetFound(jobs: seq<Job>, id: string, scope: Scope)
    ensures NoTarget(jobs, id, scope) <==> Find(jobs, id, scope) == |jobs|
    ensures forall i: nat :: Target(jobs, id, scope, i) ==> i == Find(jobs, id, scope)
  {
    var k := Find(jobs, id, scope);
    if k < |jobs| { assert jobs[k].id == id && InScope(jobs[k], scope); }
  }

  lemma {:induction false} KeyFound(jobs: seq<Job>, job: Job)
    ensures KeyFree(jobs, job) <==> FindKey(jobs, job) == |jobs|
    ensures forall i: nat :: KeyHolder(jobs, job, i) ==> i == FindKey(jobs, job)
  {
    var k := FindKey(jobs, job);
    if k < |jobs| { assert HoldsKeyOf(jobs[k], job); }
  }

  lemma {:induction false} ProgressDoes(job: Job, message: string)
    ensures var after := Progressed(job, message); after == job.(progress := after.progress) && Appended(job.progress, message, after.progress)
  {}

  lemma {:induction false} RecoverDoes(job: Job, now: int)
    requires RecoverOne(job, now).Ok?
    ensures RecoveryDoes(job, now, RecoverOne(job, now).value)
  {}

  lemma {:induction false} StageDoes(jobs: seq<Job>, m: Mutation)
    ensures MutationDoes(jobs, m, StagedJobs(jobs, m), StagedAnswer(jobs, m))
  {
    match m
    case Create(job) => KeyFound(jobs, job);
    case Update(id, scope, _) => TargetFound(jobs, id, scope); hide UpdateJob;
    case DecideApproval(id, scope, _, _, _) => TargetFound(jobs, id, scope); hide DecideSoundly;
    case AppendProgress(id, scope, message) =>
      TargetFound(jobs, id, scope);
      var i := Find(jobs, id, scope);
      if i < |jobs| { ProgressDoes(jobs[i], message); }
      hide Progressed, Appended;
    case RecoverInterrupted(now) =>
      var all := RecoverAll(jobs, now);
      if all.Ok? {
        forall i | 0 <= i < |jobs| ensures RecoveryDoes(jobs[i], now, all.value[i]) { RecoverDoes(jobs[i], now); }
      }
      hide RecoverOne, RecoveryDoes;
  }

  // ---- asking again ----

  /** A published creation, retried as it was after any history of tame mutations and upgrades, is answered
    * with the job it created, as that job stands now. */
  lemma {:induction false} RetriedCreateIsAnswered(jobs: seq<Job>, job: Job, acts: seq<Act>, retry: Job) returns (i: nat)
    requires DistinctIds(jobs) && UniqueKeys(jobs) && FreshId(jobs, Create(job)) && KeyFree(jobs, job)
    requires job.tenantId.Some? && job.idempotency.Some? && AllTame([job] + jobs, acts)
    requires HoldsKeyOf(job, retry) && retry.idempotency == job.idempotency
    ensures var now := Replay([job] + jobs, acts);
      && i < |now| && now[i].id == job.id && SameIdentity(job, now[i]) && (forall j :: 0 <= j < |now| && now[j].id == job.id ==> j == i)
      && StagedAnswer(now, Create(retry)) == Err(IdempotentReplay(now[i])) && StagedJobs(now, Create(retry)) == now
  {
    var start, now := [job] + jobs, Replay([job] + jobs, acts);
    KeyFound(jobs, job);
    CreateContinues(jobs, job);
    IdentityForever(start, acts);
    i := |now| - |start|;
    assert SameIdentity(start[0], now[i]);
    hide AllTame, Replay;
    KeyFound(now, retry);
    StageDoes(now, Create(retry));
    assert HoldsKeyOf(now[i], retry);
    var k := FindKey(now, retry);
    assert KeyHolder(now, retry, k);
    assert k == i;
  }

  /** The same key with other content is refused, and a key that is free or absent is never held
    * against a creation. */
  lemma {:induction false} OtherContentConflicts(jobs: seq<Job>, job: Job, i: nat)
    requires UniqueKeys(jobs) && i < |jobs| && HoldsKeyOf(jobs[i], job) && jobs[i].idempotency.value.requestHash != job.idempotency.value.requestHash
    ensures StagedAnswer(jobs, Create(job)) == Err(IdempotencyConflict) && StagedJobs(jobs, Create(job)) == jobs
  {
    KeyFound(jobs, job);
    StageDoes(jobs, Create(job));
    var k := FindKey(jobs, job);
    assert KeyHolder(jobs, job, k);
    assert k == i;
  }

  // ---- the queue of mutations ----

  /** Undisturbed, a mutation asked for while the store is idle is published with its write; if the write
    * fails or the mutation is refused, everything is as before. */
  lemma {:induction false} MutationGoesThrough(s: State, m: Mutation)
    requires s.initialized && s.doing.Idle? && s.queue == []
    ensures var next := StagedJobs(s.memory, m);
      if StagedAnswer(s.memory, m).Ok? then
        && IsRun(s, [Submit(m), Begin, Land, Publish]) && Run(s, [Submit(m), Begin, Land, Publish]) == s.(memory := next, file := Some(next))
        && IsRun(s, [Submit(m), Begin, Fail]) && Run(s, [Submit(m), Begin, Fail]) == s
      else IsRun(s, [Submit(m), Begin]) && Run(s, [Submit(m), Begin]) == s
  {
    hide Stage;
    var s1 := Step(s, Submit(m));
    var s2 := Step(s1, Begin);
    assert s1.queue == [m] && s2.queue == [];
    RunsOn(s1, Begin, []);
    RunsOn(s, Submit(m), [Begin]);
    if Stage(s.memory, m).Ok? {
      var s3 := Step(s2, Land);
      RunsOn(s2, Fail, []);
      RunsOn(s1, Begin, [Fail]);
      RunsOn(s, Submit(m), [Begin, Fail]);
      RunsOn(s3, Publish, []);
      RunsOn(s2, Land, [Publish]);
      RunsOn(s1, Begin, [Land, Publish]);
      RunsOn(s, Submit(m), [Begin, Land, Publish]);
    }
  }

  lemma {:induction false} RunsOn(s: State, e: Event, es: seq<Event>)
    requires Enabled(s, e) && IsRun(Step(s, e), es)
    ensures IsRun(s, [e] + es) && Run(s, [e] + es) == Run(Step(s, e), es)
  {
    assert ([e] + es)[1..] == es;
  }

  /** A file that is not there is an empty list, and one that cannot be read is refused. */
  lemma {:induction false} StartReads(file: Option<seq<Job>>, loaded: Snapshot, legacyProvider: Option<string>)
    ensures Reads(file, loaded) <==> if file.None? then loaded == Missing else loaded == Present(file.value) || loaded == Corrupt
    ensures Loaded(Missing, legacyProvider) == Some([]) && NeedsWrite(Missing, legacyProvider)
    ensures Loaded(Corrupt, legacyProvider) == None
    ensures file.Some? ==>
      && Loaded(Present(file.value), legacyProvider) == LoadAll(file.value, legacyProvider)
      && (NeedsWrite(Present(file.value), legacyProvider) <==>
            exists i :: 0 <= i < |file.value| && (file.value[i].tenantId.None? || (file.value[i].provider.None? && legacyProvider.Some?)))
  {
    if file.Some? { MigratedSo(file.value, legacyProvider); }
  }

  /** A start publishes what it loaded, with its write where one is needed, and nothing if that fails or the
    * snapshot is refused; until then the store takes no mutation. */
  lemma {:induction false} StartGoesThrough(file: Option<seq<Job>>, loaded: Snapshot, legacyProvider: Option<string>, m: Mutation)
    requires Reads(file, loaded)
    ensures var s := Init(file);
      && Enabled(s, Initialize(loaded, legacyProvider)) && Step(s, Submit(m)) == s && s.file == file
      && match Loaded(loaded, legacyProvider)
         case None => Step(s, Initialize(loaded, legacyProvider)) == s
         case Some(jobs) =>
           if NeedsWrite(loaded, legacyProvider) then
             var t := Step(s, Initialize(loaded, legacyProvider));
             && t.memory == [] && t.file == file && Step(t, Submit(m)) == t && Enabled(t, InitWritten(true)) && Enabled(t, InitWritten(false))
             && Step(t, InitWritten(true)) == State(jobs, true, [], Idle, Some(jobs)) && Step(t, InitWritten(false)) == s
           else Step(s, Initialize(loaded, legacyProvider)) == State(jobs, true, [], Idle, file)
  {
    hide LoadAll, AnyMigrated;
  }

  /** The mutations asked for, and those taken up, in the order of the run. */
  function Asked(s: State, es: seq<Event>): seq<Mutation>
    requires IsRun(s, es)
    decreases |es|
  {
    if es == [] then []
    else (if es[0].Submit? && s.initialized then [es[0].m] else []) + Asked(Step(s, es[0]), es[1..])
  }

  function TakenUp(s: State, es: seq<Event>): seq<Mutation>
    requires IsRun(s, es)
    decreases |es|
  {
    if es == [] then []
    else (if es[0].Begin? then [s.queue[0]] else []) + TakenUp(Step(s, es[0]), es[1..])
  }

  lemma {:induction false} OneTakenUp(s: State, e: Event)
    requires Enabled(s, e) && e != Kill
    ensures e.Begin? ==> s.queue != []
    ensures (if e.Begin? then [s.queue[0]] else []) + Step(s, e).queue == s.queue + if e.Submit? && s.initialized then [e.m] else []
  {
    hide Stage, Loaded, NeedsWrite;
  }

  /** While the process lives, mutations are taken up one at a time in the order they were asked for. */
  lemma {:induction false} InTheOrderAsked(s: State, es: seq<Event>)
    requires IsRun(s, es) && Kill !in es
    ensures TakenUp(s, es) + Run(s, es).queue == s.queue + Asked(s, es)
    decreases |es|
  {
    hide Step, Enabled;
    if es != [] {
      var e, t, rest := es[0], Step(s, es[0]), es[1..];
      OneTakenUp(s, e);
      var taken, asked := if e.Begin? then [s.queue[0]] else [], if e.Submit? && s.initialized then [e.m] else [];
      InTheOrderAsked(t, rest);
      assert (taken + TakenUp(t, rest)) + Run(t, rest).queue == taken + (TakenUp(t, rest) + Run(t, rest).queue);
      assert (s.queue + asked) + Asked(t, rest) == s.queue + (asked + Asked(t, rest));
      assert taken + (t.queue + Asked(t, rest)) == (taken + t.queue) + Asked(t, rest);
    }
  }

  // ---- the store as the source writes it, one undisturbed call at a time ----

  class AgentJobStore {
    var jobs: seq<Job>
    var initialized: bool
    var file: Option<seq<Job>>

    constructor (file: Option<seq<Job>>)
      ensures jobs == [] && !initialized && this.file == file
    {
      jobs, initialized, this.file := [], false, file;
    }

    method InitializeFrom(loaded: Snapshot, legacyProvider: Option<string>, writable: bool) returns (ok: bool)
      requires Reads(file, loaded)
      modifies this
      ensures ok == (old(initialized) || (Loaded(loaded, legacyProvider).Some? && (NeedsWrite(loaded, legacyProvider) ==> writable)))
      ensures !ok || old(initialized) ==> jobs == old(jobs) && file == old(file) && initialized == old(initialized)
      ensures ok && !old(initialized) ==> initialized && jobs == Loaded(loaded, legacyProvider).value && file == Some(jobs)
    {
      if initialized { return true; }
      if loaded.Present? && LoadAll(loaded.jobs, legacyProvider).Some? { LoadedStays(loaded.jobs, legacyProvider); }
      if Loaded(loaded, legacyProvider).None? { return false; }
      var next := Loaded(loaded, legacyProvider).value;
      if NeedsWrite(loaded, legacyProvider) {
        if !writable { return false; }
        file := Some(next);
      }
      jobs, initialized := next, true;
      return true;
    }

    /** Stages on a private copy, writes, and publishes only then. */
    method EnqueueMutation(m: Mutation, writable: bool) returns (r: Result<Option<Job>, Thrown>)
      modifies this
      ensures initialized == old(initialized)
      ensures r.Ok? <==> old(initialized) && Stage(old(jobs), m).Ok? && writable
      ensures r.Ok? ==> r.value == Stage(old(jobs), m).value.answer && jobs == Stage(old(jobs), m).value.jobs && file == Some(jobs)
      ensures r.Err? ==> jobs == old(jobs) && file == old(file)
      ensures old(initialized) && Stage(old(jobs), m).Err? ==> r == Err(Stage(old(jobs), m).error)
      ensures !old(initialized) ==> r == Err(NotInitialized)
      ensures old(initialized) && writable ==> MutationDoes(old(jobs), m, jobs, r)
      ensures old(initialized) && !writable ==> r.Err? && (r.error == WriteFailed || MutationDoes(old(jobs), m, jobs, r))
    {
      StageDoes(jobs, m);
      hide Stage, MutationDoes;
      if !initialized { return Err(NotInitialized); }
      var previous := jobs;
      var staged := Stage(jobs, m);
      if staged.Err? {
        jobs := previous;
        return Err(staged.error);
      }
      jobs := previous;
      if !writable { return Err(WriteFailed); }
      file := Some(staged.value.jobs);
      jobs := staged.value.jobs;
      return Ok(staged.value.answer);
    }
  }
}
