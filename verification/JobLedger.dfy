/** RuntimeStoreAgentJobLedger: a snapshot written job by job, each against the version
  * it replaces. */
module JobLedger {
  import opened Prelude
  import opened AgentJobs
  import opened JobStore

  type Ledger = map<string, Job>

  /** What ended a persist. */
  datatype Outcome = Persisted | DeletionRefused | ChangedConcurrently | IdTaken | WriteRefused

  predicate Contains(jobs: seq<Job>, id: string) { exists i :: 0 <= i < |jobs| && jobs[i].id == id }

  /** new Map over ids: the last job with the id. */
  function ById(jobs: seq<Job>, id: string): (r: Option<Job>)
    ensures r.Some? <==> Contains(jobs, id)
    ensures r.Some? ==> r.value in jobs && r.value.id == id
  {
    if jobs == [] then None
    else if jobs[|jobs| - 1].id == id then Some(jobs[|jobs| - 1])
    else
      assert forall i :: 0 <= i < |jobs| && jobs[i].id == id ==> jobs[..|jobs| - 1][i].id == id;
      ById(jobs[..|jobs| - 1], id)
  }

  predicate Deletes(previous: seq<Job>, next: seq<Job>) {
    exists i :: 0 <= i < |previous| && !Contains(next, previous[i].id)
  }

  /** The jobs of next that differ from previous, in order. */
  function Changed(previous: seq<Job>, next: seq<Job>): (r: seq<Job>)
    ensures forall x :: x in r <==> x in next && ById(previous, x.id) != Some(x)
  {
    if next == [] then []
    else
      var head, rest := next[0], Changed(previous, next[1..]);
      assert next == [head] + next[1..];
      if ById(previous, head.id) == Some(head) then rest else [head] + rest
  }

  /** A stored v1 record that lacks only the provider the next one has. */
  predicate IsLegacyProviderMigration(current: Job, next: Job) {
    current.provider.None? && next.provider.Some? && current.(provider := next.provider) == next
  }

  datatype Verdict = Write | Skip | Stop(outcome: Outcome)

  /** What the loop does with one changed job. */
  function Judge(previous: seq<Job>, current: Option<Job>, job: Job): Verdict {
    var before := ById(previous, job.id);
    if before.Some? then (if current == before then Write else Stop(ChangedConcurrently))
    else if current.None? then Write
    else if current.value == job then Skip
    else if IsLegacyProviderMigration(current.value, job) then Write
    else Stop(IdTaken)
  }

  datatype Written = Written(ledger: Ledger, outcome: Outcome, count: nat)

  function Get(ledger: Ledger, id: string): Option<Job> { if id in ledger then Some(ledger[id]) else None }

  /** The loop: writable writes succeed, the next one fails; landed says whether it was carried out
    * all the same, and only its answer lost. count is what reached the store. */
  function WriteAll(ledger: Ledger, previous: seq<Job>, changed: seq<Job>, writable: nat, landed: bool): (w: Written)
    ensures w.outcome == Persisted ==> w.count <= writable
    decreases |changed|
  {
    if changed == [] then Written(ledger, Persisted, 0)
    else
      match Judge(previous, Get(ledger, changed[0].id), changed[0])
      case Stop(outcome) => Written(ledger, outcome, 0)
      case Skip => WriteAll(ledger, previous, changed[1..], writable, landed)
      case Write =>
        if writable == 0 then Written(if landed then ledger[changed[0].id := changed[0]] else ledger, WriteRefused, if landed then 1 else 0)
        else
          var rest := WriteAll(ledger[changed[0].id := changed[0]], previous, changed[1..], writable - 1, landed);
          rest.(count := rest.count + 1)
  }

  function Persist(ledger: Ledger, previous: seq<Job>, next: seq<Job>, writable: nat, landed: bool): Written {
    if Deletes(previous, next) then Written(ledger, DeletionRefused, 0)
    else WriteAll(ledger, previous, Changed(previous, next), writable, landed)
  }

  // ---- what a persist does ----

  /** The ledger holds the snapshot. */
  ghost predicate Stores(ledger: Ledger, jobs: seq<Job>) {
    forall i :: 0 <= i < |jobs| ==> Get(ledger, jobs[i].id) == Some(jobs[i])
  }

  lemma {:induction false} TailContains(changed: seq<Job>)
    requires changed != []
    ensures forall id :: Contains(changed, id) <==> id == changed[0].id || Contains(changed[1..], id)
  {
    forall id | Contains(changed[1..], id) ensures Contains(changed, id) {
      var i :| 0 <= i < |changed[1..]| && changed[1..][i].id == id;
      assert changed[i + 1].id == id;
    }
    forall id | Contains(changed, id) && id != changed[0].id ensures Contains(changed[1..], id) {
      var i :| 0 <= i < |changed| && changed[i].id == id;
      assert changed[1..][i - 1].id == id;
    }
  }

  /** A loop that comes to its end has stored every changed job and nothing else. */
  lemma {:induction false} WriteAllStores(ledger: Ledger, previous: seq<Job>, changed: seq<Job>, writable: nat, landed: bool)
    requires DistinctIds(changed)
    ensures var w := WriteAll(ledger, previous, changed, writable, landed);
      && (w.outcome == Persisted ==> Stores(w.ledger, changed))
      && (forall id :: !Contains(changed, id) ==> Get(w.ledger, id) == Get(ledger, id))
    decreases |changed|
  {
    if changed != [] {
      var head, tail := changed[0], changed[1..];
      assert forall i :: 0 <= i < |tail| ==> tail[i] == changed[i + 1];
      assert !Contains(tail, head.id);
      var verdict := Judge(previous, Get(ledger, head.id), head);
      if verdict.Skip? {
        WriteAllStores(ledger, previous, tail, writable, landed);
        AfterHead(ledger, WriteAll(ledger, previous, tail, writable, landed), head, tail);
      } else if verdict.Write? && writable > 0 {
        WriteAllStores(ledger[head.id := head], previous, tail, writable - 1, landed);
        AfterHead(ledger, WriteAll(ledger[head.id := head], previous, tail, writable - 1, landed), head, tail);
      }
      TailContains(changed);
    }
  }

  lemma {:induction false} AfterHead(ledger: Ledger, w: Written, head: Job, tail: seq<Job>)
    requires w.outcome == Persisted ==> Stores(w.ledger, tail)
    requires Get(w.ledger, head.id) == Some(head)
    ensures w.outcome == Persisted ==> Stores(w.ledger, [head] + tail)
  {}

  lemma {:induction false} ChangedDistinct(previous: seq<Job>, next: seq<Job>)
    requires DistinctIds(next)
    ensures DistinctIds(Changed(previous, next))
  {
    if next != [] {
      assert forall i :: 0 <= i < |next[1..]| ==> next[1..][i] == next[i + 1];
      ChangedDistinct(previous, next[1..]);
      var rest := Changed(previous, next[1..]);
      forall i | 0 <= i < |rest| ensures rest[i].id != next[0].id {
        assert rest[i] in next[1..];
      }
    }
  }

  /** A persist that succeeds leaves the whole snapshot in the ledger. */
  lemma {:induction false} PersistStores(ledger: Ledger, previous: seq<Job>, next: seq<Job>, writable: nat, landed: bool)
    requires DistinctIds(next) && Stores(ledger, previous)
    requires Persist(ledger, previous, next, writable, landed).outcome == Persisted
    ensures Stores(Persist(ledger, previous, next, writable, landed).ledger, next)
  {
    var changed := Changed(previous, next);
    ChangedDistinct(previous, next);
    WriteAllStores(ledger, previous, changed, writable, landed);
    var w := WriteAll(ledger, previous, changed, writable, landed);
    forall i | 0 <= i < |next| ensures Get(w.ledger, next[i].id) == Some(next[i]) {
      if ById(previous, next[i].id) == Some(next[i]) {
        UnchangedKept(previous, next, i);
        var k :| 0 <= k < |previous| && previous[k] == next[i];
      } else {
        assert next[i] in changed;
        var k :| 0 <= k < |changed| && changed[k] == next[i];
      }
    }
  }

  lemma {:induction false} UnchangedKept(previous: seq<Job>, next: seq<Job>, i: nat)
    requires DistinctIds(next) && i < |next| && ById(previous, next[i].id) == Some(next[i])
    ensures !Contains(Changed(previous, next), next[i].id)
  {
    var changed := Changed(previous, next);
    forall k | 0 <= k < |changed| ensures changed[k].id != next[i].id {
      assert changed[k] in changed;
      var j :| 0 <= j < |next| && next[j] == changed[k];
    }
  }

  /** Nothing another process stored meanwhile is overwritten. */
  lemma {:induction false} NoLostUpdate(ledger: Ledger, previous: seq<Job>, changed: seq<Job>, writable: nat, landed: bool, id: string)
    requires ById(previous, id).Some? && Get(ledger, id) != ById(previous, id)
    ensures Get(WriteAll(ledger, previous, changed, writable, landed).ledger, id) == Get(ledger, id)
    ensures Contains(changed, id) ==> WriteAll(ledger, previous, changed, writable, landed).outcome != Persisted
    decreases |changed|
  {
    if changed != [] {
      var head, tail := changed[0], changed[1..];
      TailContains(changed);
      var verdict := Judge(previous, Get(ledger, head.id), head);
      if verdict.Skip? { NoLostUpdate(ledger, previous, tail, writable, landed, id); }
      if verdict.Write? && writable > 0 { NoLostUpdate(ledger[head.id := head], previous, tail, writable - 1, landed, id); }
    }
  }

  // ---- a failed persist, exactly ----

  /** What the loop does first other than skipping, judged against the ledger as it is before the call. */
  function FirstVerdict(ledger: Ledger, previous: seq<Job>, changed: seq<Job>): Option<Verdict> {
    if changed == [] then None
    else
      var verdict := Judge(previous, Get(ledger, changed[0].id), changed[0]);
      if verdict.Skip? then FirstVerdict(ledger, previous, changed[1..]) else Some(verdict)
  }

  lemma {:induction false} ChangesExactly(ledger: Ledger, previous: seq<Job>, changed: seq<Job>, writable: nat, landed: bool)
    requires DistinctIds(changed) && forall i :: 0 <= i < |changed| ==> ById(previous, changed[i].id) != Some(changed[i])
    ensures WriteAll(ledger, previous, changed, writable, landed).ledger == ledger <==>
      (writable == 0 && !landed) || FirstVerdict(ledger, previous, changed) != Some(Write)
    decreases |changed|
  {
    if changed != [] {
      var head, tail := changed[0], changed[1..];
      assert forall i :: 0 <= i < |tail| ==> tail[i] == changed[i + 1];
      var verdict := Judge(previous, Get(ledger, head.id), head);
      if verdict.Skip? { ChangesExactly(ledger, previous, tail, writable, landed); }
      if verdict.Write? && writable == 0 { assert Get(ledger, head.id) != Some(head); }
      if verdict.Write? && writable > 0 {
        WriteAllStores(ledger[head.id := head], previous, tail, writable - 1, landed);
        var w := WriteAll(ledger[head.id := head], previous, tail, writable - 1, landed);
        assert !Contains(tail, head.id);
        assert Get(w.ledger, head.id) == Some(head) && Get(ledger, head.id) != Some(head);
      }
    }
  }

  /** A persist that fails leaves the ledger as it was exactly if it deletes a job, the store carries
    * out no write, or the first changed job that is not already stored is one the loop stops at. Else
    * the jobs written before the failing one stay, and that one too if only its answer was lost. */
  lemma {:induction false} FailedPersistExact(ledger: Ledger, previous: seq<Job>, next: seq<Job>, writable: nat, landed: bool)
    requires DistinctIds(next) && Persist(ledger, previous, next, writable, landed).outcome != Persisted
    ensures Persist(ledger, previous, next, writable, landed).ledger == ledger <==>
      || Deletes(previous, next) || (writable == 0 && !landed)
      || FirstVerdict(ledger, previous, Changed(previous, next)) != Some(Write)
  {
    var changed := Changed(previous, next);
    ChangedDistinct(previous, next);
    forall i | 0 <= i < |changed| ensures ById(previous, changed[i].id) != Some(changed[i]) { assert changed[i] in changed; }
    hide Changed, ById, FirstVerdict, WriteAll;
    ChangesExactly(ledger, previous, changed, writable, landed);
  }

  /** With at most one changed job a failed persist leaves either that job or nothing. */
  lemma {:induction false} SingleChange(ledger: Ledger, previous: seq<Job>, next: seq<Job>, writable: nat, landed: bool)
    requires |Changed(previous, next)| <= 1 && Persist(ledger, previous, next, writable, landed).outcome != Persisted
    ensures var changed := Changed(previous, next);
      Persist(ledger, previous, next, writable, landed).ledger ==
        if !Deletes(previous, next) && writable == 0 && landed && FirstVerdict(ledger, previous, changed) == Some(Write)
        then ledger[changed[0].id := changed[0]] else ledger
  {
    var changed := Changed(previous, next);
    if |changed| == 1 {
      assert changed[1..] == [];
      assert WriteAll(ledger, previous, [], writable, landed) == Written(ledger, Persisted, 0);
      assert FirstVerdict(ledger, previous, []) == None;
      if writable > 0 {
        var after := ledger[changed[0].id := changed[0]];
        assert WriteAll(after, previous, [], writable - 1, landed) == Written(after, Persisted, 0);
      }
    }
  }

  /** The changed jobs of a list with one job replaced are at most that one. */
  lemma {:induction false} ChangedAfterReplace(previous: seq<Job>, next: seq<Job>, id: string)
    requires DistinctIds(next)
    requires forall i :: 0 <= i < |next| ==> next[i].id == id || ById(previous, next[i].id) == Some(next[i])
    ensures |Changed(previous, next)| <= 1
    ensures forall x :: x in Changed(previous, next) ==> x.id == id
  {
    if next != [] {
      assert forall i :: 0 <= i < |next[1..]| ==> next[1..][i] == next[i + 1];
      ChangedAfterReplace(previous, next[1..], id);
      var rest := Changed(previous, next[1..]);
      forall x | x in rest ensures x.id == id && x.id != next[0].id {
        var i :| 0 <= i < |next[1..]| && next[1..][i] == x;
      }
      assert rest != [] ==> rest[0] in rest;
    }
  }

  lemma {:induction false} ByIdAt(jobs: seq<Job>, i: nat)
    requires DistinctIds(jobs) && i < |jobs|
    ensures ById(jobs, jobs[i].id) == Some(jobs[i])
  {
    var n := |jobs| - 1;
    if i < n {
      assert jobs[..n][i] == jobs[i];
      ByIdAt(jobs[..n], i);
    }
  }

  /** The id a mutation touches. */
  function Touched(m: Mutation): string
    requires !m.RecoverInterrupted?
  {
    match m
    case Create(job) => job.id
    case Update(id, _, _) => id
    case DecideApproval(id, _, _, _, _) => id
    case AppendProgress(id, _, _) => id
  }

  /** The write of the one job that the mutation changes is tried first of all and fails, but is carried out. */
  predicate LandsUnanswered(ledger: Ledger, jobs: seq<Job>, next: seq<Job>, writable: nat, landed: bool) {
    writable == 0 && landed && !Deletes(jobs, next) && FirstVerdict(ledger, jobs, Changed(jobs, next)) == Some(Write)
  }

  /** Every mutation but restart recovery changes at most one job. So over the ledger, too, it happens or
    * changes nothing, except exactly if its write is carried out and answered with an error: then it
    * fails, and the changed job is in the ledger all the same. */
  lemma {:induction false} MutationIsAtomic(ledger: Ledger, jobs: seq<Job>, m: Mutation, writable: nat, landed: bool)
    requires DistinctIds(jobs) && UniqueKeys(jobs) && FreshId(jobs, m) && !m.RecoverInterrupted? && Stage(jobs, m).Ok?
    requires Persist(ledger, jobs, Stage(jobs, m).value.jobs, writable, landed).outcome != Persisted
    ensures var next := Stage(jobs, m).value.jobs;
      var w, changed := Persist(ledger, jobs, next, writable, landed), Changed(jobs, next);
      && (w.ledger != ledger <==> LandsUnanswered(ledger, jobs, next, writable, landed))
      && (LandsUnanswered(ledger, jobs, next, writable, landed) ==> |changed| == 1 && w.ledger == ledger[changed[0].id := changed[0]])
  {
    var next := Stage(jobs, m).value.jobs;
    hide Stage, SameIdentity, KeepsName;
    if Renames(jobs, m) {
      RenameDeletes(jobs, m);
    } else {
      StagedDistinct(jobs, m);
      StagedChanges(jobs, m);
      SingleChange(ledger, jobs, next, writable, landed);
      FailedPersistExact(ledger, jobs, next, writable, landed);
      assert |Changed(jobs, next)| == 0 ==> FirstVerdict(ledger, jobs, Changed(jobs, next)) == None;
    }
  }

  /** An update that gives its job another id. */
  predicate Renames(jobs: seq<Job>, m: Mutation) {
    m.Update? && Find(jobs, m.id, m.scope) < |jobs| && m.patch.id.Some? && m.patch.id.value != m.id
  }

  /** The ledger takes that for a deletion, and refuses it. */
  lemma {:induction false} RenameDeletes(jobs: seq<Job>, m: Mutation)
    requires DistinctIds(jobs) && Stage(jobs, m).Ok? && Renames(jobs, m)
    ensures Deletes(jobs, Stage(jobs, m).value.jobs)
  {
    var i, next := Find(jobs, m.id, m.scope), Stage(jobs, m).value.jobs;
    UpdateNames(jobs[i], m.patch);
    hide UpdateJob;
    forall j | 0 <= j < |next| ensures next[j].id != m.id { assert j != i ==> next[j] == jobs[j]; }
  }

  lemma {:induction false} StagedDistinct(jobs: seq<Job>, m: Mutation)
    requires DistinctIds(jobs) && UniqueKeys(jobs) && FreshId(jobs, m) && Stage(jobs, m).Ok? && !Renames(jobs, m)
    ensures DistinctIds(Stage(jobs, m).value.jobs)
  {
    if m.Update? {
      if Find(jobs, m.id, m.scope) < |jobs| {
        UpdateUniqueExactly(jobs, m.id, m.scope, m.patch);
        hide Stage;
        assert forall j :: 0 <= j < |jobs| && j != Find(jobs, m.id, m.scope) ==> jobs[j].id != m.id;
      }
    } else {
      StageContinues(jobs, m);
    }
  }

  lemma {:induction false} StagedChanges(jobs: seq<Job>, m: Mutation)
    requires DistinctIds(jobs) && !m.RecoverInterrupted? && Stage(jobs, m).Ok? && !Renames(jobs, m)
    requires DistinctIds(Stage(jobs, m).value.jobs)
    ensures |Changed(jobs, Stage(jobs, m).value.jobs)| <= 1
  {
    var next := Stage(jobs, m).value.jobs;
    TouchesOne(jobs, m);
    hide Stage;
    forall i | 0 <= i < |next| ensures next[i].id == Touched(m) || ById(jobs, next[i].id) == Some(next[i]) {
      if next[i].id != Touched(m) {
        var k :| 0 <= k < |jobs| && jobs[k] == next[i];
        ByIdAt(jobs, k);
      }
    }
    ChangedAfterReplace(jobs, next, Touched(m));
  }

  lemma {:induction false} TouchesOne(jobs: seq<Job>, m: Mutation)
    requires !m.RecoverInterrupted? && Stage(jobs, m).Ok? && !Renames(jobs, m)
    ensures forall x :: x in Stage(jobs, m).value.jobs && x.id != Touched(m) ==> x in jobs
  {
    var next := Stage(jobs, m).value.jobs;
    forall x | x in next && x.id != Touched(m) ensures x in jobs {
      var i :| 0 <= i < |next| && next[i] == x;
      hide Settle, DecideSoundly, UpdateJob, Sound;
      if m.Create? { assert i > 0 && jobs[i - 1] == x; } else { TouchedAt(jobs, m, i); }
    }
  }

  lemma {:induction false} TouchedAt(jobs: seq<Job>, m: Mutation, i: nat)
    requires !m.RecoverInterrupted? && !m.Create? && Stage(jobs, m).Ok? && !Renames(jobs, m)
    requires i < |Stage(jobs, m).value.jobs|
    ensures var next := Stage(jobs, m).value.jobs;
      |next| == |jobs| && (next[i].id != Touched(m) ==> next[i] == jobs[i])
  {
    match m
    case Update(id, scope, patch) =>
      var k := Find(jobs, id, scope);
      if k < |jobs| { UpdateNames(jobs[k], patch); }
    case DecideApproval(id, scope, request, decision, now) =>
      var k := Find(jobs, id, scope);
      if k < |jobs| { DecideKeepsIdentity(jobs[k], scope, request, decision, now); }
    case AppendProgress(id, scope, message) =>
  }

  /** Restart recovery is not so: two interrupted jobs and a store that takes one write leave the
    * first failed in the ledger, though the recovery as a whole failed. */
  lemma {:induction false} RecoveryCanBeHalfWritten(a: Job, b: Job, now: int)
    requires a.id != b.id && a.status == Running == b.status && a.approval.None? && b.approval.None?
    ensures var ledger, staged := map[a.id := a, b.id := b], Stage([a, b], RecoverInterrupted(now));
      && staged.Ok?
      && var w := Persist(ledger, [a, b], staged.value.jobs, 1, false);
      w.outcome == WriteRefused && w.ledger == ledger[a.id := Interrupted(a, now)]
  {
    var c, d := Interrupted(a, now), Interrupted(b, now);
    var previous, next := [a, b], [c, d];
    RecoveredPair(a, b, now);
    ByIdAt(previous, 0);
    ByIdAt(previous, 1);
    hide ById, Contains;
    assert next[1..] == [d] && [d][1..] == [] && Changed(previous, []) == [];
    assert Changed(previous, [d]) == [d];
    var ledger := map[a.id := a, b.id := b];
    assert WriteAll(ledger[a.id := c], previous, [d], 0, false) == Written(ledger[a.id := c], WriteRefused, 0);
    assert Contains(next, a.id) && Contains(next, b.id) by { PairContains(c, d); }
  }

  lemma {:induction false} PairContains(c: Job, d: Job)
    ensures Contains([c, d], c.id) && Contains([c, d], d.id)
  {
    assert [c, d][0] == c && [c, d][1] == d;
  }

  function Interrupted(job: Job, now: int): Job {
    job.(status := Failed, error := Some("restarted"), finishedAt := Some(now))
  }

  lemma {:induction false} RecoveredPair(a: Job, b: Job, now: int)
    requires a.status == Running == b.status && a.approval.None? && b.approval.None?
    ensures Stage([a, b], RecoverInterrupted(now)).Ok?
    ensures Stage([a, b], RecoverInterrupted(now)).value.jobs == [Interrupted(a, now), Interrupted(b, now)]
  {
    assert [a, b][1..] == [b] && [b][1..] == [] && RecoverAll([], now) == Ok([]);
    assert RecoverOne(a, now) == Ok(Interrupted(a, now)) && RecoverOne(b, now) == Ok(Interrupted(b, now));
    assert [Interrupted(b, now)] + [] == [Interrupted(b, now)];
    assert RecoverAll([b], now) == Ok([Interrupted(b, now)]);
  }

  /** Once a persist stopped half way, memory no longer matches what it wrote: the next
    * persist that touches such a job stops, whatever it wants to store. */
  lemma {:induction false} HalfWrittenIsRefused(ledger: Ledger, memory: seq<Job>, later: Job, writable: nat, landed: bool)
    requires ById(memory, later.id).Some? && Get(ledger, later.id) != ById(memory, later.id)
    ensures WriteAll(ledger, memory, [later], writable, landed) == Written(ledger, ChangedConcurrently, 0)
  {}

  /** What becomes of one changed job. One that memory knows is written exactly over the version it knows. A
    * new one is written where there is none, counts as written where it stands already, and replaces a
    * record that lacks nothing but the provider; any other record of its id stops the persist. */
  lemma {:induction false} OneJobDoes(ledger: Ledger, previous: seq<Job>, job: Job, writable: nat, landed: bool)
    ensures var w, stored, known := WriteAll(ledger, previous, [job], writable, landed), Get(ledger, job.id), ById(previous, job.id);
      var written := if writable > 0 then Written(ledger[job.id := job], Persisted, 1)
                     else if landed then Written(ledger[job.id := job], WriteRefused, 1) else Written(ledger, WriteRefused, 0);
      w == if known.Some? then (if stored == known then written else Written(ledger, ChangedConcurrently, 0))
           else if stored.None? then written
           else if stored.value == job then Written(ledger, Persisted, 0)
           else if stored.value.provider.None? && job.provider.Some? && stored.value.(provider := job.provider) == job then written
           else Written(ledger, IdTaken, 0)
  {
    assert [job][1..] == [];
    assert WriteAll(ledger, previous, [], writable, landed) == Written(ledger, Persisted, 0);
    if writable > 0 { assert WriteAll(ledger[job.id := job], previous, [], writable - 1, landed) == Written(ledger[job.id := job], Persisted, 0); }
  }

  /** And of several: the rest after the first, on what the first left. */
  lemma {:induction false} OneAfterAnother(ledger: Ledger, previous: seq<Job>, changed: seq<Job>, writable: nat, landed: bool)
    requires changed != []
    ensures var first := WriteAll(ledger, previous, [changed[0]], writable, landed);
      WriteAll(ledger, previous, changed, writable, landed) ==
        if first.outcome != Persisted then first
        else
          var rest := WriteAll(first.ledger, previous, changed[1..], writable - first.count, landed);
          Written(rest.ledger, rest.outcome, first.count + rest.count)
  {
    OneJobDoes(ledger, previous, changed[0], writable, landed);
  }

  // ---- the loop as the source writes it ----

  class RuntimeStoreAgentJobLedger {
    var ledger: Ledger

    constructor ()
      ensures ledger == map[]
    {
      ledger := map[];
    }

    /** persist(): writable says how many writes the store still takes, landed whether the next one is
      * carried out although it fails. */
    method PersistJobs(previous: seq<Job>, next: seq<Job>, writable: nat, landed: bool) returns (outcome: Outcome)
      modifies this
      ensures var w := Persist(old(ledger), previous, next, writable, landed); ledger == w.ledger && outcome == w.outcome
    {
      for i := 0 to |previous|
        invariant forall j :: 0 <= j < i ==> Contains(next, previous[j].id)
      {
        if !Contains(next, previous[i].id) { return DeletionRefused; }
      }
      var changed := Changed(previous, next);
      var i, left := 0, writable;
      while i < |changed|
        invariant i <= |changed|
        invariant var w, v := WriteAll(old(ledger), previous, changed, writable, landed), WriteAll(ledger, previous, changed[i..], left, landed);
          v.ledger == w.ledger && v.outcome == w.outcome
      {
        var job := changed[i];
        assert changed[i..][0] == job && changed[i..][1..] == changed[i + 1..];
        match Judge(previous, Get(ledger, job.id), job) {
          case Stop(reason) => return reason;
          case Skip =>
          case Write =>
            if left == 0 {
              if landed { ledger := ledger[job.id := job]; }
              return WriteRefused;
            }
            ledger := ledger[job.id := job];
            left := left - 1;
        }
        i := i + 1;
      }
      assert changed[|changed|..] == [];
      return Persisted;
    }
  }
}
