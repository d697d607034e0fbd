/** Starting a job store on its ledger: records from before tenants or providers are
  * brought up to date when loaded, and written back against what was loaded. */
module JobMigration {
  import opened Prelude
  import opened AgentJobs
  import opened JobLoading
  import opened JobLedger

  /** memory is what the store publishes. */
  datatype Start = Start(ledger: Ledger, memory: Option<seq<Job>>, writes: nat)

  /** initialize(): snapshot was loaded; ledger is what is stored when the write-back begins. */
  function Initialize(ledger: Ledger, snapshot: seq<Job>, legacyProvider: Option<string>, writable: nat, landed: bool): Start {
    var loaded := LoadAll(snapshot, legacyProvider);
    if loaded.None? then Start(ledger, None, 0)
    else if !AnyMigrated(snapshot, legacyProvider) then Start(ledger, loaded, 0)
    else
      var w := Persist(ledger, snapshot, loaded.value, writable, landed);
      Start(w.ledger, if w.outcome == Persisted then loaded else None, w.count)
  }

  lemma {:induction false} LoadedDistinct(snapshot: seq<Job>, legacyProvider: Option<string>)
    requires DistinctIds(snapshot) && LoadAll(snapshot, legacyProvider).Some?
    ensures var next := LoadAll(snapshot, legacyProvider).value;
      && DistinctIds(next) && !Deletes(snapshot, next)
      && LoadAll(next, legacyProvider) == Some(next)
  {
    var next := LoadAll(snapshot, legacyProvider).value;
    LoadedStays(snapshot, legacyProvider);
    forall i | 0 <= i < |snapshot| ensures Contains(next, snapshot[i].id) { assert SameIdentity(snapshot[i], next[i]); }
    hide LoadEach;
  }

  lemma {:induction false} SameIsUnchanged(jobs: seq<Job>, previous: seq<Job>)
    requires forall i :: 0 <= i < |jobs| ==> ById(previous, jobs[i].id) == Some(jobs[i])
    ensures Changed(previous, jobs) == []
  {
    if Changed(previous, jobs) != [] { assert Changed(previous, jobs)[0] in Changed(previous, jobs); }
  }

  lemma {:induction false} NothingChanged(ledger: Ledger, jobs: seq<Job>, writable: nat, landed: bool)
    requires Changed(jobs, jobs) == []
    ensures Persist(ledger, jobs, jobs, writable, landed) == Written(ledger, Persisted, 0)
  {
    forall i | 0 <= i < |jobs| ensures Contains(jobs, jobs[i].id) {}
  }

  /** Once brought up to date and published, the ledger is not written again by a restart. */
  lemma {:induction false} MigratesOnce(ledger: Ledger, snapshot: seq<Job>, legacyProvider: Option<string>,
                                        writable: nat, landed: bool, later: nat, laterLanded: bool)
    requires DistinctIds(snapshot) && Stores(ledger, snapshot)
    requires Initialize(ledger, snapshot, legacyProvider, writable, landed).memory.Some?
    ensures var start := Initialize(ledger, snapshot, legacyProvider, writable, landed);
      && Stores(start.ledger, start.memory.value)
      && Initialize(start.ledger, start.memory.value, legacyProvider, later, laterLanded) == Start(start.ledger, start.memory, 0)
  {
    hide LoadOne, LoadAll, Changed, ById, WriteAll, Contains;
    var next := LoadAll(snapshot, legacyProvider).value;
    LoadedDistinct(snapshot, legacyProvider);
    LoadedStays(snapshot, legacyProvider);
    hide AnyMigrated, SameIdentity;
    if AnyMigrated(snapshot, legacyProvider) { PersistStores(ledger, snapshot, next, writable, landed); }
    forall i | 0 <= i < |next| ensures ById(next, next[i].id) == Some(next[i]) { ByIdAt(next, i); }
    SameIsUnchanged(next, next);
    NothingChanged(Initialize(ledger, snapshot, legacyProvider, writable, landed).ledger, next, later, laterLanded);
  }

  /** A record changed by somebody else between the load and the write-back blocks the start if
    * the start had to change it, and is left as it is in any case. */
  lemma {:induction false} ConcurrentChangeBlocks(ledger: Ledger, snapshot: seq<Job>, legacyProvider: Option<string>, writable: nat, landed: bool, i: nat)
    requires DistinctIds(snapshot) && i < |snapshot| && Get(ledger, snapshot[i].id) != Some(snapshot[i])
    ensures var start := Initialize(ledger, snapshot, legacyProvider, writable, landed);
      && Get(start.ledger, snapshot[i].id) == Get(ledger, snapshot[i].id)
      && (LoadOne(snapshot[i], legacyProvider) != Some(snapshot[i]) ==> start.memory.None?)
  {
    hide LoadOne, LoadAll, Changed, ById, WriteAll, AnyMigrated, Contains, SameIdentity;
    if LoadAll(snapshot, legacyProvider).Some? {
      var next := LoadAll(snapshot, legacyProvider).value;
      LoadedStays(snapshot, legacyProvider);
      LoadedDistinct(snapshot, legacyProvider);
      ByIdAt(snapshot, i);
      ChangedDistinct(snapshot, next);
      NoLostUpdate(ledger, snapshot, Changed(snapshot, next), writable, landed, snapshot[i].id);
      LoadOneAgain(snapshot[i], legacyProvider);
      if next[i] != snapshot[i] { InChanged(snapshot, next, i); }
    }
  }

  lemma {:induction false} InChanged(previous: seq<Job>, next: seq<Job>, i: nat)
    requires i < |next| && ById(previous, next[i].id) != Some(next[i])
    ensures Contains(Changed(previous, next), next[i].id)
  {
    var changed := Changed(previous, next);
    assert next[i] in changed;
    var k :| 0 <= k < |changed| && changed[k] == next[i];
    assert changed[k].id == next[i].id;
  }

  /** The loop stops nowhere when the ledger is what was loaded. */
  lemma {:induction false} UndisturbedWrites(ledger: Ledger, previous: seq<Job>, changed: seq<Job>, writable: nat, landed: bool)
    requires DistinctIds(changed) && |changed| <= writable
    requires forall i :: 0 <= i < |changed| ==>
      ById(previous, changed[i].id).Some? && Get(ledger, changed[i].id) == ById(previous, changed[i].id)
    ensures WriteAll(ledger, previous, changed, writable, landed).outcome == Persisted
    decreases |changed|
  {
    if changed != [] {
      var tail := changed[1..];
      assert forall i :: 0 <= i < |tail| ==> tail[i] == changed[i + 1];
      UndisturbedWrites(ledger[changed[0].id := changed[0]], previous, tail, writable - 1, landed);
    }
  }

  /** However an earlier start ended, one that loads the ledger as it now is, undisturbed, gets
    * through: a start fails for good only on a record that no load accepts. */
  lemma {:induction false} StartResumes(ledger: Ledger, snapshot: seq<Job>, legacyProvider: Option<string>, writable: nat, landed: bool)
    requires DistinctIds(snapshot) && Stores(ledger, snapshot) && |snapshot| <= writable
    ensures Initialize(ledger, snapshot, legacyProvider, writable, landed).memory == LoadAll(snapshot, legacyProvider)
  {
    hide LoadOne, LoadAll, Changed, ById, WriteAll, AnyMigrated, Contains, SameIdentity;
    if LoadAll(snapshot, legacyProvider).Some? {
      var next := LoadAll(snapshot, legacyProvider).value;
      LoadedStays(snapshot, legacyProvider);
      var changed := Changed(snapshot, next);
      LoadedDistinct(snapshot, legacyProvider);
      ChangedDistinct(snapshot, next);
      ChangedNotLonger(snapshot, next);
      forall k | 0 <= k < |changed|
        ensures ById(snapshot, changed[k].id).Some? && Get(ledger, changed[k].id) == ById(snapshot, changed[k].id)
      {
        assert changed[k] in changed;
        var i :| 0 <= i < |next| && next[i] == changed[k];
        LoadOneAgain(snapshot[i], legacyProvider);
        ByIdAt(snapshot, i);
      }
      UndisturbedWrites(ledger, snapshot, changed, writable, landed);
    }
  }

  lemma {:induction false} ChangedNotLonger(previous: seq<Job>, next: seq<Job>)
    ensures |Changed(previous, next)| <= |next|
  {
    if next != [] { ChangedNotLonger(previous, next[1..]); }
  }
}
