/** AgentJobStore: mutations staged on a private copy, written atomically, and only then
  * published; one at a time, in the order they were asked for. */
module JobStore {
  import opened Prelude
  import opened AgentJobs
  import opened JobLoading

  datatype Mutation =
    | Create(job: Job)
    | Update(id: string, scope: Scope, patch: Patch)
    | DecideApproval(id: string, scope: Scope, request: Identity, decision: Decision, now: int)
    | AppendProgress(id: string, scope: Scope, message: string)
    | RecoverInterrupted(now: int)

  datatype Thrown = IdempotentReplay(job: Job) | IdempotencyConflict | Refused(reason: Refusal) | NotInitialized | WriteFailed

  datatype Staged = Staged(jobs: seq<Job>, answer: Option<Job>)

  function Find(jobs: seq<Job>, id: string, scope: Scope): (i: nat)
    ensures i <= |jobs|
    ensures i < |jobs| ==> jobs[i].id == id && Matches(jobs[i], scope)
    ensures forall j :: 0 <= j < i ==> !(jobs[j].id == id && Matches(jobs[j], scope))
  {
    if jobs == [] || (jobs[0].id == id && Matches(jobs[0], scope)) then 0 else 1 + Find(jobs[1..], id, scope)
  }

  /** The job that already used this idempotency key in this scope. */
  function FindKey(jobs: seq<Job>, job: Job): (i: nat)
    ensures i <= |jobs|
    ensures i < |jobs| ==> SameKey(jobs[i], job)
    ensures forall j :: 0 <= j < i ==> !SameKey(jobs[j], job)
  {
    if jobs == [] || SameKey(jobs[0], job) then 0 else 1 + FindKey(jobs[1..], job)
  }

  function RecoverOne(job: Job, now: int): Result<Job, Refusal> {
    if job.status != Queued && job.status != Running then Ok(job)
    else Settle(job.(status := Failed, error := Some("restarted"), finishedAt := Some(now)))
  }

  function RecoverAll(jobs: seq<Job>, now: int): (r: Result<seq<Job>, Refusal>)
    ensures r.Ok? ==> |r.value| == |jobs| && forall i :: 0 <= i < |jobs| ==> RecoverOne(jobs[i], now) == Ok(r.value[i])
  {
    if jobs == [] then Ok([])
    else
      match (RecoverOne(jobs[0], now), RecoverAll(jobs[1..], now))
      case (Ok(first), Ok(rest)) => Ok([first] + rest)
      case (Err(e), _) => Err(e)
      case (_, Err(e)) => Err(e)
  }

  /** The staged snapshot and the answer, or what the mutation throws. */
  function Stage(jobs: seq<Job>, m: Mutation): Result<Staged, Thrown> {
    match m
    case Create(job) =>
      var k := FindKey(jobs, job);
      if k < |jobs| then
        Err(if jobs[k].idempotency.value.requestHash == job.idempotency.value.requestHash then IdempotentReplay(jobs[k]) else IdempotencyConflict)
      else Ok(Staged([job] + jobs, Some(job)))
    case Update(id, scope, patch) =>
      var i := Find(jobs, id, scope);
      if i == |jobs| then Ok(Staged(jobs, None))
      else (match UpdateJob(jobs[i], patch)
            case Err(e) => Err(Refused(e))
            case Ok(updated) => Ok(Staged(jobs[i := updated], Some(updated))))
    case DecideApproval(id, scope, request, decision, now) =>
      var i := Find(jobs, id, scope);
      if i == |jobs| then Ok(Staged(jobs, None))
      else (match DecideSoundly(jobs[i], scope, request, decision, now)
            case Err(e) => Err(Refused(e))
            case Ok(t) => Ok(Staged(jobs[i := t.job], Some(t.job))))
    case AppendProgress(id, scope, message) =>
      var i := Find(jobs, id, scope);
      if i == |jobs| then Ok(Staged(jobs, None))
      else Ok(Staged(jobs[i := Progressed(jobs[i], message)], Some(Progressed(jobs[i], message))))
    case RecoverInterrupted(now) =>
      match RecoverAll(jobs, now)
      case Err(e) => Err(Refused(e))
      case Ok(recovered) => Ok(Staged(recovered, None))
  }

  // ---- what every mutation keeps ----

  /** A fresh job id has not been used. */
  predicate FreshId(jobs: seq<Job>, m: Mutation) { m.Create? ==> forall i :: 0 <= i < |jobs| ==> jobs[i].id != m.job.id }

  /** The later snapshot is the earlier one with jobs put in front: each job keeps its identity. */
  predicate Continues(before: seq<Job>, after: seq<Job>) {
    && |before| <= |after|
    && forall i :: 0 <= i < |before| ==> SameIdentity(before[i], after[|after| - |before| + i])
  }

  lemma {:induction false} ReplaceContinues(jobs: seq<Job>, i: nat, job: Job)
    requires i < |jobs| && SameIdentity(jobs[i], job) && DistinctIds(jobs) && UniqueKeys(jobs)
    ensures Continues(jobs, jobs[i := job]) && DistinctIds(jobs[i := job]) && UniqueKeys(jobs[i := job])
  {}

  /** Rewriting every job without touching what identifies it. */
  lemma {:induction false} RewriteContinues(jobs: seq<Job>, after: seq<Job>)
    requires |after| == |jobs| && DistinctIds(jobs) && UniqueKeys(jobs)
    requires forall i :: 0 <= i < |jobs| ==> SameIdentity(jobs[i], after[i])
    ensures Continues(jobs, after) && DistinctIds(after) && UniqueKeys(after)
  {
    forall i, j | 0 <= i < j < |after| ensures after[i].id != after[j].id && !SameKey(after[i], after[j]) {
      assert SameIdentity(jobs[i], after[i]) && SameIdentity(jobs[j], after[j]);
      assert jobs[i].id != jobs[j].id && !SameKey(jobs[i], jobs[j]);
    }
  }

  lemma {:induction false} RecoverKeepsIdentity(job: Job, now: int)
    requires RecoverOne(job, now).Ok?
    ensures SameIdentity(job, RecoverOne(job, now).value)
  {}

  lemma {:induction false} RecoverContinues(jobs: seq<Job>, now: int)
    requires RecoverAll(jobs, now).Ok? && DistinctIds(jobs) && UniqueKeys(jobs)
    ensures var after := RecoverAll(jobs, now).value; Continues(jobs, after) && DistinctIds(after) && UniqueKeys(after)
  {
    var after := RecoverAll(jobs, now).value;
    hide RecoverOne, SameIdentity, Continues, UniqueKeys, DistinctIds;
    forall i | 0 <= i < |jobs| ensures SameIdentity(jobs[i], after[i]) {
      assert RecoverOne(jobs[i], now) == Ok(after[i]);
      RecoverKeepsIdentity(jobs[i], now);
    }
    RewriteContinues(jobs, after);
  }

  lemma {:induction false} SameIdentitySelf(job: Job)
    ensures SameIdentity(job, job)
  {}

  lemma {:induction false} HeadContinues(jobs: seq<Job>, job: Job)
    ensures Continues(jobs, [job] + jobs)
  {
    forall i | 0 <= i < |jobs| ensures SameIdentity(jobs[i], ([job] + jobs)[i + 1]) { SameIdentitySelf(jobs[i]); }
  }

  lemma {:induction false} HeadDistinct(jobs: seq<Job>, job: Job)
    requires DistinctIds(jobs) && forall i :: 0 <= i < |jobs| ==> jobs[i].id != job.id
    ensures DistinctIds([job] + jobs)
  {}

  lemma {:induction false} KeyApart(job: Job, other: Job)
    ensures SameKey(job, other) <==> SameKey(other, job)
  {}

  lemma {:induction false} HeadUnique(jobs: seq<Job>, job: Job)
    requires UniqueKeys(jobs) && forall i :: 0 <= i < |jobs| ==> !SameKey(jobs[i], job)
    ensures UniqueKeys([job] + jobs)
  {
    var all := [job] + jobs;
    forall i, j | 0 <= i < j < |all| ensures !SameKey(all[i], all[j]) {
      if i == 0 { KeyApart(job, jobs[j - 1]); }
    }
  }

  lemma {:induction false} CreateContinues(jobs: seq<Job>, job: Job)
    requires DistinctIds(jobs) && UniqueKeys(jobs) && FreshId(jobs, Create(job)) && FindKey(jobs, job) == |jobs|
    ensures Continues(jobs, [job] + jobs) && DistinctIds([job] + jobs) && UniqueKeys([job] + jobs)
  {
    hide SameKey, Continues;
    HeadContinues(jobs, job);
    HeadDistinct(jobs, job);
    HeadUnique(jobs, job);
  }

  /** An update that leaves what names its job alone. All the service's own updates do. */
  predicate Tame(jobs: seq<Job>, m: Mutation) {
    m.Update? ==> var i := Find(jobs, m.id, m.scope); i < |jobs| ==> KeepsName(jobs[i], m.patch)
  }

  /** The new snapshot continues the old one, exactly if the mutation is tame: a mutation inserts
    * only at the head and keeps each job's identity. It then also keeps ids and idempotency keys
    * unique. */
  lemma {:induction false} StageContinues(jobs: seq<Job>, m: Mutation)
    requires DistinctIds(jobs) && UniqueKeys(jobs) && FreshId(jobs, m) && Stage(jobs, m).Ok?
    ensures var after := Stage(jobs, m).value.jobs;
      && (Continues(jobs, after) <==> Tame(jobs, m))
      && (Tame(jobs, m) ==> DistinctIds(after) && UniqueKeys(after))
  {
    ContinuesSelf(jobs);
    hide SameIdentity, UniqueKeys, DistinctIds, Continues, FreshId, UpdateJob, DecideSoundly, RecoverAll, KeepsName;
    match m
    case Create(job) => CreateContinues(jobs, job);
    case Update(id, scope, patch) =>
      var i := Find(jobs, id, scope);
      if i < |jobs| {
        UpdateKeepsIdentity(jobs[i], patch);
        var updated := UpdateJob(jobs[i], patch).value;
        if SameIdentity(jobs[i], updated) { ReplaceContinues(jobs, i, updated); } else { ReplacedDiffers(jobs, i, updated); }
      }
    case DecideApproval(id, scope, request, decision, now) =>
      var i := Find(jobs, id, scope);
      if i < |jobs| {
        DecideKeepsIdentity(jobs[i], scope, request, decision, now);
        ReplaceContinues(jobs, i, DecideSoundly(jobs[i], scope, request, decision, now).value.job);
      }
    case AppendProgress(id, scope, message) =>
      var i := Find(jobs, id, scope);
      if i < |jobs| {
        ProgressKeepsIdentity(jobs[i], message);
        ReplaceContinues(jobs, i, Progressed(jobs[i], message));
      }
    case RecoverInterrupted(now) => RecoverContinues(jobs, now);
  }

  lemma {:induction false} ReplacedDiffers(jobs: seq<Job>, i: nat, job: Job)
    requires i < |jobs| && !SameIdentity(jobs[i], job)
    ensures !Continues(jobs, jobs[i := job])
  {
    var after := jobs[i := job];
    assert after[|after| - |jobs| + i] == job;
  }

  /** Otherwise uniqueness is not the store's doing: after an update ids are distinct exactly if no
    * other job has the id the patch gives, and keys exactly if no other job of the scope has its
    * key. */
  lemma {:induction false} UpdateUniqueExactly(jobs: seq<Job>, id: string, scope: Scope, patch: Patch)
    requires DistinctIds(jobs) && UniqueKeys(jobs) && Stage(jobs, Update(id, scope, patch)).Ok? && Find(jobs, id, scope) < |jobs|
    ensures var i, after := Find(jobs, id, scope), Stage(jobs, Update(id, scope, patch)).value.jobs;
      && (DistinctIds(after) <==> forall j :: 0 <= j < |jobs| && j != i ==> jobs[j].id != patch.id.UnwrapOr(id))
      && (UniqueKeys(after) <==> forall j :: 0 <= j < |jobs| && j != i ==>
            !SameKey(jobs[j], jobs[i].(idempotency := patch.idempotency.UnwrapOr(jobs[i].idempotency))))
  {
    var i := Find(jobs, id, scope);
    var updated := UpdateJob(jobs[i], patch).value;
    var after := jobs[i := updated];
    UpdateNames(jobs[i], patch);
    hide UpdateJob;
    forall j | 0 <= j < |jobs| && j != i && DistinctIds(after) ensures jobs[j].id != updated.id { assert after[j] == jobs[j] && after[i] == updated; }
    forall j | 0 <= j < |jobs| && j != i && UniqueKeys(after) ensures !SameKey(jobs[j], updated) {
      assert after[j] == jobs[j] && after[i] == updated;
      KeyApart(jobs[j], updated);
    }
    forall j, k | 0 <= j < k < |after| ensures j != i && k != i ==> after[j].id != after[k].id && !SameKey(after[j], after[k]) {}
    forall j | 0 <= j < |jobs| ensures SameKey(jobs[j], updated) <==> SameKey(updated, jobs[j]) { KeyApart(jobs[j], updated); }
  }

  lemma {:induction false} UpdateNames(job: Job, patch: Patch)
    requires UpdateJob(job, patch).Ok?
    ensures var after := UpdateJob(job, patch).value;
      && after.id == patch.id.UnwrapOr(job.id) && after.idempotency == patch.idempotency.UnwrapOr(job.idempotency)
      && after.tenantId == job.tenantId && after.requesterId == job.requesterId && after.conversationId == job.conversationId
  {
    SettleKeepsRecord(Patched(job, patch));
    hide Settle, Sound;
  }

  const NO_PATCH := Patch(None, None, None, None, None, None, None, None, None, None, None, None, None, None, None, None, None)

  /** Two jobs, one renamed after the other: the store accepts the update, and a later start refuses
    * the snapshot. */
  lemma {:induction false} UpdateCanRename(a: Job, b: Job, scope: Scope, legacyProvider: Option<string>)
    requires a.id != b.id && Matches(a, scope) && a.approval.None? && a.status == Queued
    ensures var staged := Stage([a, b], Update(a.id, scope, NO_PATCH.(id := Some(b.id))));
      && staged.Ok? && staged.value.jobs == [a.(id := b.id), b]
      && LoadAll(staged.value.jobs, legacyProvider).None?
  {
    var jobs, patch := [a, b], NO_PATCH.(id := Some(b.id));
    assert Find(jobs, a.id, scope) == 0;
    assert UpdateJob(a, patch) == Ok(a.(id := b.id));
    var after := jobs[0 := a.(id := b.id)];
    assert after == [a.(id := b.id), b];
    var loaded := LoadEach(after, legacyProvider);
    if loaded.Some? {
      LoadOneAgain(after[0], legacyProvider);
      LoadOneAgain(after[1], legacyProvider);
      assert loaded.value[0].id == loaded.value[1].id;
    }
  }

  lemma {:induction false} ContinuesSelf(jobs: seq<Job>)
    ensures Continues(jobs, jobs)
  {}

  lemma {:induction false} ProgressKeepsIdentity(job: Job, message: string)
    ensures SameIdentity(job, Progressed(job, message))
  {}

  // ---- the store as a step system ----

  /** What initialization reads: nothing yet, a snapshot, or text it cannot parse. */
  datatype Snapshot = Missing | Present(jobs: seq<Job>) | Corrupt

  datatype Doing =
    | Idle
    | Initializing(next: seq<Job>, legacyProvider: Option<string>)
    | Writing(m: Mutation, next: seq<Job>, landed: bool)

  datatype State = State(
    memory: seq<Job>, initialized: bool, queue: seq<Mutation>, doing: Doing, file: Option<seq<Job>>)

  datatype Event =
    | Submit(m: Mutation)              // enqueueMutation: refused until initialized
    | Initialize(loaded: Snapshot, legacyProvider: Option<string>)
    | InitWritten(ok: bool)            // the first write, if one was needed
    | Begin                            // the head of the queue is staged
    | Land                             // its atomic write replaced the file
    | Publish                          // and its promise resolved
    | Fail                             // or the write failed
    | Kill                             // the process dies; the file is what it is

  function Init(file: Option<seq<Job>>): State { State([], false, [], Idle, file) }

  /** What initialization publishes for a snapshot. */
  function Loaded(s: Snapshot, legacyProvider: Option<string>): Option<seq<Job>> {
    match s
    case Missing => Some([])
    case Present(jobs) => LoadAll(jobs, legacyProvider)
    case Corrupt => None
  }

  predicate NeedsWrite(s: Snapshot, legacyProvider: Option<string>) { s.Missing? || (s.Present? && AnyMigrated(s.jobs, legacyProvider)) }

  /** The snapshot is the file. */
  predicate Reads(file: Option<seq<Job>>, s: Snapshot) {
    match s
    case Missing => file.None?
    case Present(jobs) => file == Some(jobs)
    case Corrupt => file.Some?
  }

  predicate Enabled(s: State, e: Event) {
    match e
    case Submit(m) => true
    case Initialize(loaded, _) => !s.initialized && s.doing.Idle? && Reads(s.file, loaded)
    case InitWritten(_) => s.doing.Initializing?
    case Begin => s.doing.Idle? && s.queue != []
    case Land => s.doing.Writing? && !s.doing.landed
    case Publish => s.doing.Writing? && s.doing.landed
    case Fail => s.doing.Writing? && !s.doing.landed
    case Kill => true
  }

  function Step(s: State, e: Event): State
    requires Enabled(s, e)
  {
    match e
    case Submit(m) => if s.initialized then s.(queue := s.queue + [m]) else s
    case Initialize(loaded, legacyProvider) =>
      if Loaded(loaded, legacyProvider).None? then s
      else if NeedsWrite(loaded, legacyProvider)
      then s.(doing := Initializing(Loaded(loaded, legacyProvider).value, legacyProvider))
      else s.(memory := Loaded(loaded, legacyProvider).value, initialized := true)
    case InitWritten(ok) =>
      if ok then s.(memory := s.doing.next, initialized := true, file := Some(s.doing.next), doing := Idle)
      else s.(doing := Idle)
    case Begin =>
      var m := s.queue[0];
      (match Stage(s.memory, m)
       case Err(_) => s.(queue := s.queue[1..])
       case Ok(staged) => s.(queue := s.queue[1..], doing := Writing(m, staged.jobs, false)))
    case Land => s.(file := Some(s.doing.next), doing := s.doing.(landed := true))
    case Publish => s.(memory := s.doing.next, doing := Idle)
    case Fail => s.(doing := Idle)
    case Kill => State([], false, [], Idle, s.file)
  }

  predicate IsRun(s: State, es: seq<Event>)
    decreases |es|
  {
    es == [] || (Enabled(s, es[0]) && IsRun(Step(s, es[0]), es[1..]))
  }

  function Run(s: State, es: seq<Event>): State
    requires IsRun(s, es)
    decreases |es|
  {
    if es == [] then s else Run(Step(s, es[0]), es[1..])
  }

  /** The snapshot readers see is one that was written; the file holds it, or already its successor. */
  predicate Consistent(s: State) {
    && (s.doing.Writing? ==> s.initialized && Stage(s.memory, s.doing.m).Ok? && s.doing.next == Stage(s.memory, s.doing.m).value.jobs)
    && (s.doing.Initializing? ==> !s.initialized)
    && (s.doing.Initializing? && s.file.Some? ==> LoadAll(s.file.value, s.doing.legacyProvider) == Some(s.doing.next))
    && (s.doing.Initializing? && s.file.None? ==> s.doing.next == [])
    && (s.initialized ==> s.file == Some(if s.doing.Writing? && s.doing.landed then s.doing.next else s.memory))
    && (!s.initialized ==> s.memory == [] && s.queue == [])
  }

  lemma {:induction false} StepConsistent(s: State, e: Event)
    requires Consistent(s) && Enabled(s, e)
    ensures Consistent(Step(s, e))
  {
    if e.Initialize? && e.loaded.Present? && LoadAll(e.loaded.jobs, e.legacyProvider).Some? { LoadedStays(e.loaded.jobs, e.legacyProvider); }
    hide LoadAll, AnyMigrated, Stage;
  }

  // ---- refinement of a sequential list of jobs ----

  /** What reaches the file: a mutation, or a start that brings it up to date. */
  datatype Act = Did(m: Mutation) | BroughtUp(legacyProvider: Option<string>)

  function Acted(jobs: seq<Job>, act: Act): seq<Job> {
    match act
    case Did(m) => (match Stage(jobs, m) case Ok(staged) => staged.jobs case Err(_) => jobs)
    case BroughtUp(legacyProvider) => LoadAll(jobs, legacyProvider).UnwrapOr(jobs)
  }

  function Replay(jobs: seq<Job>, acts: seq<Act>): seq<Job>
    decreases |acts|
  {
    if acts == [] then jobs else Acted(Replay(jobs, acts[..|acts| - 1]), acts[|acts| - 1])
  }

  /** base is the file the history began with, or no job at all; done is everything that landed
    * since, over any number of processes. */
  datatype History = History(base: seq<Job>, done: seq<Act>)

  /** Follows the writes that land. */
  function Follow(h: History, s: State, e: Event): History
    requires Enabled(s, e)
  {
    match e
    case InitWritten(ok) =>
      if !ok then h
      else if s.file.None? then History([], [])
      else h.(done := h.done + [BroughtUp(s.doing.legacyProvider)])
    case Land => h.(done := h.done + [Did(s.doing.m)])
    case _ => h
  }

  function Followed(h: History, s: State, es: seq<Event>): History
    requires IsRun(s, es)
    decreases |es|
  {
    if es == [] then h else Followed(Follow(h, s, es[0]), Step(s, es[0]), es[1..])
  }

  predicate Explains(h: History, s: State) { s.file.Some? ==> s.file.value == Replay(h.base, h.done) }

  lemma {:induction false} FollowExplains(h: History, s: State, e: Event)
    requires Consistent(s) && Enabled(s, e) && Explains(h, s)
    ensures Explains(Follow(h, s, e), Step(s, e))
  {
    hide Stage, LoadAll;
    if e.Land? { assert (h.done + [Did(s.doing.m)])[..|h.done|] == h.done; }
    if e.InitWritten? { assert (h.done + [BroughtUp(s.doing.legacyProvider)])[..|h.done|] == h.done; }
  }

  /** In every run, with any failed writes, killed processes and restarts, the file is exactly what the
    * mutations and the upgrades whose write landed leave when applied one after the other; and
    * readers see that snapshot, or the one just before a write whose answer is on its way. */
  lemma {:induction false} StoreRefinesSequence(h: History, s: State, es: seq<Event>)
    requires Consistent(s) && Explains(h, s) && IsRun(s, es)
    ensures var t := Run(s, es);
      && Consistent(t) && Explains(Followed(h, s, es), t)
      && (t.initialized && !(t.doing.Writing? && t.doing.landed) ==> t.file == Some(t.memory))
    decreases |es|
  {
    if es != [] {
      StepConsistent(s, es[0]);
      FollowExplains(h, s, es[0]);
      StoreRefinesSequence(Follow(h, s, es[0]), Step(s, es[0]), es[1..]);
    }
  }

  /** A failed write, a refused mutation or a failed migration changes neither memory nor file. */
  lemma {:induction false} FailureChangesNothing(s: State, e: Event)
    requires Enabled(s, e)
    requires e.Fail? || e == InitWritten(false) || (e.Begin? && Stage(s.memory, s.queue[0]).Err?)
          || (e.Submit? && !s.initialized) || (e.Initialize? && e.loaded.Corrupt?)
    ensures Step(s, e).memory == s.memory && Step(s, e).file == s.file && Step(s, e).initialized == s.initialized
  {}

  // ---- a job's identity over a whole history ----

  /** Every mutation has a fresh id to insert and is tame where it is applied. */
  predicate AllTame(jobs: seq<Job>, acts: seq<Act>)
    decreases |acts|
  {
    acts == [] ||
    (var n := |acts| - 1;
     AllTame(jobs, acts[..n])
     && (acts[n].Did? ==> FreshId(Replay(jobs, acts[..n]), acts[n].m) && Tame(Replay(jobs, acts[..n]), acts[n].m)))
  }

  lemma {:induction false} ContinuesTransitive(a: seq<Job>, b: seq<Job>, c: seq<Job>)
    requires Continues(a, b) && Continues(b, c)
    ensures Continues(a, c)
  {
    forall i | 0 <= i < |a| ensures SameIdentity(a[i], c[|c| - |a| + i]) {
      var j := |b| - |a| + i;
      assert SameIdentity(b[j], c[|c| - |b| + j]);
      SameIdentityTransitive(a[i], b[j], c[|c| - |b| + j]);
    }
  }

  lemma {:induction false} ActContinues(jobs: seq<Job>, act: Act)
    requires DistinctIds(jobs) && UniqueKeys(jobs) && (act.Did? ==> FreshId(jobs, act.m) && Tame(jobs, act.m))
    ensures Continues(jobs, Acted(jobs, act)) && DistinctIds(Acted(jobs, act)) && UniqueKeys(Acted(jobs, act))
  {
    ContinuesSelf(jobs);
    hide DistinctIds, UniqueKeys, Continues, FreshId, Tame, LoadAll, Stage;
    match act
    case Did(m) => if Stage(jobs, m).Ok? { StageContinues(jobs, m); }
    case BroughtUp(legacyProvider) =>
      if LoadAll(jobs, legacyProvider).Some? {
        LoadedStays(jobs, legacyProvider);
        RewriteContinues(jobs, LoadAll(jobs, legacyProvider).value);
      }
  }

  /** Over any history of tame mutations and upgrades, jobs keep their order and their identity: id,
    * prompt, mode, key, scope, provider, model, receipts, notification intent, cancellation time,
    * and an approval's deadline, decision and settlement never change once set; ids and idempotency
    * keys stay unique. */
  lemma {:induction false} IdentityForever(jobs: seq<Job>, acts: seq<Act>)
    requires DistinctIds(jobs) && UniqueKeys(jobs) && AllTame(jobs, acts)
    ensures var after := Replay(jobs, acts); Continues(jobs, after) && DistinctIds(after) && UniqueKeys(after)
    decreases |acts|
  {
    ContinuesSelf(jobs);
    if acts != [] {
      var n := |acts| - 1;
      IdentityForever(jobs, acts[..n]);
      hide DistinctIds, UniqueKeys, Continues, FreshId, Tame, Acted;
      ActContinues(Replay(jobs, acts[..n]), acts[n]);
      ContinuesTransitive(jobs, Replay(jobs, acts[..n]), Replay(jobs, acts));
    }
  }
}
