/** Reading a stored snapshot: records from before tenants or providers are brought up to date,
  * and a snapshot with an unsound record, a repeated id or a repeated key is refused. */
module JobLoading {
  import opened Prelude
  import opened AgentJobs
  import JobContracts

  const NO_RESULT := "completed without a result"

  predicate Blank(text: Option<string>) { text.None? || text.value == "" }

  /** loadJob() before its approval is checked; None for a record it refuses. */
  function Upgraded(job: Job, legacyProvider: Option<string>): Option<Job> {
    var known := if job.provider.Some? then job else job.(provider := legacyProvider);
    if job.status != Completed || !Blank(job.result) then Some(known)
    else if job.tenantId.Some? then None
    else Some(known.(status := Failed, error := if Blank(job.error) then Some(NO_RESULT) else job.error))
  }

  function LoadOne(job: Job, legacyProvider: Option<string>): Option<Job> {
    var next := Upgraded(job, legacyProvider);
    if next.Some? && next.value.approval.Some? && !Sound(next.value.approval.value, next.value) then None else next
  }

  /** A record without a tenant counts as migrated on every load: no tenant is ever guessed. */
  predicate Migrated(job: Job, legacyProvider: Option<string>) {
    job.tenantId.None? || (job.provider.None? && legacyProvider.Some?)
  }

  predicate AnyMigrated(jobs: seq<Job>, legacyProvider: Option<string>) {
    exists i :: 0 <= i < |jobs| && Migrated(jobs[i], legacyProvider)
  }

  function LoadEach(snapshot: seq<Job>, legacyProvider: Option<string>): (r: Option<seq<Job>>)
    ensures r.Some? ==> |r.value| == |snapshot|
    ensures r.Some? ==> forall i :: 0 <= i < |snapshot| ==> LoadOne(snapshot[i], legacyProvider) == Some(r.value[i])
    ensures r.None? ==> exists i :: 0 <= i < |snapshot| && LoadOne(snapshot[i], legacyProvider).None?
  {
    if snapshot == [] then Some([])
    else
      match (LoadOne(snapshot[0], legacyProvider), LoadEach(snapshot[1..], legacyProvider))
      case (Some(job), Some(rest)) => Some([job] + rest)
      case _ => None
  }

  /** Two jobs of one scope, the tenant perhaps missing from both, with one idempotency key. */
  predicate Clash(a: Job, b: Job) {
    && a.tenantId == b.tenantId && a.requesterId == b.requesterId && a.conversationId == b.conversationId
    && a.idempotency.Some? && b.idempotency.Some? && a.idempotency.value.key == b.idempotency.value.key
  }

  predicate NoClash(jobs: seq<Job>) { forall i, j :: 0 <= i < j < |jobs| ==> !Clash(jobs[i], jobs[j]) }

  /** loadJobs() */
  function LoadAll(snapshot: seq<Job>, legacyProvider: Option<string>): Option<seq<Job>> {
    var loaded := LoadEach(snapshot, legacyProvider);
    if loaded.Some? && DistinctIds(loaded.value) && NoClash(loaded.value) then loaded else None
  }

  lemma {:induction false} LoadOneAgain(job: Job, legacyProvider: Option<string>)
    requires LoadOne(job, legacyProvider).Some?
    ensures var next := LoadOne(job, legacyProvider).value;
      && LoadOne(next, legacyProvider) == Some(next) && next.id == job.id && next.tenantId == job.tenantId
      && (!Migrated(job, legacyProvider) ==> next == job)
      && SameIdentity(job, next)
  {
    hide Sound;
  }

  /** Loading what was loaded changes nothing; nor does loading a snapshot with nothing to bring up to date. */
  lemma {:induction false} LoadedStays(snapshot: seq<Job>, legacyProvider: Option<string>)
    requires LoadAll(snapshot, legacyProvider).Some?
    ensures var next := LoadAll(snapshot, legacyProvider).value;
      && LoadAll(next, legacyProvider) == Some(next)
      && (!AnyMigrated(snapshot, legacyProvider) ==> next == snapshot)
      && |next| == |snapshot|
      && forall i :: 0 <= i < |next| ==> SameIdentity(snapshot[i], next[i]) && LoadOne(snapshot[i], legacyProvider) == Some(next[i])
  {
    var next := LoadAll(snapshot, legacyProvider).value;
    hide LoadOne, Migrated, SameIdentity, DistinctIds, NoClash;
    forall i | 0 <= i < |next|
      ensures LoadOne(next[i], legacyProvider) == Some(next[i]) && SameIdentity(snapshot[i], next[i])
      ensures !Migrated(snapshot[i], legacyProvider) ==> next[i] == snapshot[i]
    {
      LoadOneAgain(snapshot[i], legacyProvider);
    }
    var again := LoadEach(next, legacyProvider);
    assert again.Some? && again.value == next;
  }

  // ---- in the words of the data ----

  predicate HasText(text: Option<string>) { text.Some? && text.value != "" }

  /** A record is given the legacy provider if it has none; one completed without a result fails, or is refused
    * if it has a tenant; and one whose approval cannot be read back is refused. */
  lemma {:induction false} LoadsSo(job: Job, legacyProvider: Option<string>)
    ensures var named := job.(provider := if job.provider.Some? then job.provider else legacyProvider);
      var next := if job.status == Completed && !HasText(job.result)
                  then named.(status := Failed, error := if HasText(job.error) then job.error else Some("completed without a result")) else named;
      LoadOne(job, legacyProvider) ==
        if (job.status == Completed && !HasText(job.result) && job.tenantId.Some?)
           || (next.approval.Some? && JobContracts.Unreadable(next.approval.value, next)) then None else Some(next)
  {
    var next := Upgraded(job, legacyProvider);
    if next.Some? && next.value.approval.Some? { JobContracts.SoundExactly(next.value.approval.value, next.value); }
    hide Sound, JobContracts.Unreadable;
  }

  /** It counts as migrated exactly if a record has no tenant, or no provider where there is a legacy one. */
  lemma {:induction false} MigratedSo(snapshot: seq<Job>, legacyProvider: Option<string>)
    ensures AnyMigrated(snapshot, legacyProvider) <==>
      exists i :: 0 <= i < |snapshot| && (snapshot[i].tenantId.None? || (snapshot[i].provider.None? && legacyProvider.Some?))
  {
    assert AnyMigrated(snapshot, legacyProvider) <==> exists i :: 0 <= i < |snapshot| && Migrated(snapshot[i], legacyProvider);
  }

  /** A snapshot is loaded exactly if every record is, no id comes twice and no key twice in one scope, each
    * record in its place. */
  lemma {:induction false} LoadsAllSo(snapshot: seq<Job>, legacyProvider: Option<string>)
    ensures LoadAll(snapshot, legacyProvider).None? <==>
      || (exists i :: 0 <= i < |snapshot| && LoadOne(snapshot[i], legacyProvider).None?)
      || (exists i, j :: 0 <= i < j < |snapshot| && snapshot[i].id == snapshot[j].id)
      || (exists i, j :: 0 <= i < j < |snapshot| && SharesKey(snapshot[i], snapshot[j]))
    ensures LoadAll(snapshot, legacyProvider).Some? ==>
      var next := LoadAll(snapshot, legacyProvider).value;
      |next| == |snapshot| && forall i :: 0 <= i < |next| ==> LoadOne(snapshot[i], legacyProvider) == Some(next[i])
  {
    hide Sound;
    var loaded := LoadEach(snapshot, legacyProvider);
    if loaded.Some? {
      forall i | 0 <= i < |snapshot|
        ensures loaded.value[i].id == snapshot[i].id && SameNames(snapshot[i], loaded.value[i])
      {
        LoadOneAgain(snapshot[i], legacyProvider);
      }
      hide LoadOne;
      assert NoClash(loaded.value) <==> forall i, j :: 0 <= i < j < |snapshot| ==> !SharesKey(snapshot[i], snapshot[j]) by {
        forall i, j | 0 <= i < j < |snapshot| ensures Clash(loaded.value[i], loaded.value[j]) <==> SharesKey(snapshot[i], snapshot[j]) {}
      }
      assert DistinctIds(loaded.value) <==> forall i, j :: 0 <= i < j < |snapshot| ==> snapshot[i].id != snapshot[j].id;
    }
  }

  predicate SharesKey(a: Job, b: Job) {
    && a.tenantId == b.tenantId && a.requesterId == b.requesterId && a.conversationId == b.conversationId
    && a.idempotency.Some? && b.idempotency.Some? && a.idempotency.value.key == b.idempotency.value.key
  }

  predicate SameNames(a: Job, b: Job) {
    a.tenantId == b.tenantId && a.requesterId == b.requesterId && a.conversationId == b.conversationId && a.idempotency == b.idempotency
  }
}
