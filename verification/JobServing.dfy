/** A service process over the ledger: its memory moves on only when a persist comes through, so a
  * write that was carried out and answered with an error leaves the two apart until a restart. */
module JobServing {
  import opened Prelude
  import opened AgentJobs
  import opened JobLoading
  import opened JobStore
  import opened JobLedger
  import opened JobMigration

  datatype Server = Server(memory: seq<Job>, ledger: Ledger)

  /** A mutation, and how the store takes its writes. */
  datatype Attempt = Attempt(m: Mutation, writable: nat, landed: bool)

  /** What the mutation asks to be stored, if it is not refused before that. */
  function Wanted(s: Server, a: Attempt): Option<seq<Job>> {
    match Stage(s.memory, a.m) case Ok(staged) => Some(staged.jobs) case Err(_) => None
  }

  function Attempted(s: Server, a: Attempt): Server {
    var next := Wanted(s, a);
    if next.None? then s
    else
      var w := Persist(s.ledger, s.memory, next.value, a.writable, a.landed);
      Server(if w.outcome == Persisted then next.value else s.memory, w.ledger)
  }

  function Served(s: Server, attempts: seq<Attempt>): Server
    decreases |attempts|
  {
    if attempts == [] then s else Served(Attempted(s, attempts[0]), attempts[1..])
  }

  /** Memory has a job that the ledger has otherwise. */
  predicate Apart(s: Server, id: string) { ById(s.memory, id).Some? && Get(s.ledger, id) != ById(s.memory, id) }

  lemma {:induction false} KeptById(previous: seq<Job>, next: seq<Job>, id: string)
    requires !Deletes(previous, next) && ById(previous, id).Some? && !Contains(Changed(previous, next), id)
    ensures ById(next, id) == ById(previous, id)
  {
    var i :| 0 <= i < |previous| && previous[i].id == id;
    assert Contains(next, previous[i].id);
    assert ById(next, id).value in Changed(previous, next) <==> ById(previous, id) != Some(ById(next, id).value);
  }

  lemma {:induction false} AttemptBlocked(s: Server, a: Attempt, id: string)
    requires Apart(s, id)
    ensures var t := Attempted(s, a); ById(t.memory, id) == ById(s.memory, id) && Get(t.ledger, id) == Get(s.ledger, id)
    ensures Wanted(s, a).Some? && ById(Wanted(s, a).value, id) != ById(s.memory, id) ==> Attempted(s, a).memory == s.memory
  {
    hide Stage, WriteAll;
    var next := Wanted(s, a);
    if next.Some? && !Deletes(s.memory, next.value) {
      var changed := Changed(s.memory, next.value);
      NoLostUpdate(s.ledger, s.memory, changed, a.writable, a.landed, id);
      if !Contains(changed, id) { KeptById(s.memory, next.value, id); }
    }
  }

  /** Until a restart nothing helps: whatever is attempted, memory and ledger keep their two versions of
    * the job, and every mutation that would change it fails. */
  lemma {:induction false} BlockedUntilRestart(s: Server, attempts: seq<Attempt>, a: Attempt, id: string)
    requires Apart(s, id)
    ensures var t := Served(s, attempts);
      && ById(t.memory, id) == ById(s.memory, id) && Get(t.ledger, id) == Get(s.ledger, id)
      && (Wanted(t, a).Some? && ById(Wanted(t, a).value, id) != ById(t.memory, id) ==> Attempted(t, a).memory == t.memory)
    decreases |attempts|
  {
    hide Attempted, Wanted, ById, Get;
    if attempts == [] {
      AttemptBlocked(s, a, id);
    } else {
      AttemptBlocked(s, attempts[0], id);
      BlockedUntilRestart(Attempted(s, attempts[0]), attempts[1..], a, id);
    }
  }

  /** A mutation of a stored job whose write lands unanswered sets the two apart. */
  lemma {:induction false} UnansweredSetsApart(s: Server, m: Mutation)
    requires DistinctIds(s.memory) && UniqueKeys(s.memory) && FreshId(s.memory, m) && !m.RecoverInterrupted? && Stage(s.memory, m).Ok?
    requires var next := Stage(s.memory, m).value.jobs;
      && LandsUnanswered(s.ledger, s.memory, next, 0, true)
      && Changed(s.memory, next) != [] && ById(s.memory, Changed(s.memory, next)[0].id).Some?
    ensures var t, c := Attempted(s, Attempt(m, 0, true)), Changed(s.memory, Stage(s.memory, m).value.jobs)[0];
      t == Server(s.memory, s.ledger[c.id := c]) && Apart(t, c.id)
  {
    var next := Stage(s.memory, m).value.jobs;
    var changed := Changed(s.memory, next);
    hide Stage, WriteAll, ById;
    FailsUnanswered(s.ledger, s.memory, next);
    MutationIsAtomic(s.ledger, s.memory, m, 0, true);
    assert changed[0] in changed;
  }

  lemma {:induction false} FailsUnanswered(ledger: Ledger, jobs: seq<Job>, next: seq<Job>)
    requires LandsUnanswered(ledger, jobs, next, 0, true)
    ensures Persist(ledger, jobs, next, 0, true).outcome == WriteRefused
  {
    FirstWriteFails(ledger, jobs, Changed(jobs, next));
  }

  lemma {:induction false} FirstWriteFails(ledger: Ledger, jobs: seq<Job>, changed: seq<Job>)
    requires FirstVerdict(ledger, jobs, changed) == Some(Write)
    ensures WriteAll(ledger, jobs, changed, 0, true).outcome == WriteRefused
    decreases |changed|
  {
    var verdict := Judge(jobs, Get(ledger, changed[0].id), changed[0]);
    if verdict.Skip? { FirstWriteFails(ledger, jobs, changed[1..]); }
  }

  /** A creation answered with an error and tried again under the same idempotency key: the ledger then
    * holds two jobs with one key, which no later start accepts. */
  lemma {:induction false} RetriedCreateBlocksStart(a: Job, b: Job, legacyProvider: Option<string>)
    requires a.id != b.id && SameKey(a, b)
    ensures var s := Served(Server([], map[]), [Attempt(Create(a), 0, true), Attempt(Create(b), 1, false)]);
      && s == Server([b], map[a.id := a, b.id := b])
      && forall loaded :: multiset(loaded) == multiset{a, b} ==> LoadAll(loaded, legacyProvider).None?
  {
    var s0, a1, a2 := Server([], map[]), Attempt(Create(a), 0, true), Attempt(Create(b), 1, false);
    assert [a1, a2][1..] == [a2] && [a2][1..] == [];
    assert Stage([], Create(a)).value.jobs == [a] && Stage([], Create(b)).value.jobs == [b];
    assert [a][1..] == [] && [b][1..] == [] && Changed([], []) == [];
    assert Changed([], [a]) == [a] && Changed([], [b]) == [b];
    var s1 := Server([], map[a.id := a]);
    assert Attempted(s0, a1) == s1;
    assert WriteAll(s1.ledger[b.id := b], [], [], 0, false) == Written(s1.ledger[b.id := b], Persisted, 0);
    var s2 := Server([b], map[a.id := a, b.id := b]);
    assert Attempted(s1, a2) == s2;
    assert Served(s2, []) == s2 && Served(s1, [a2]) == s2 && Served(s0, [a1, a2]) == s2;
    forall loaded | multiset(loaded) == multiset{a, b} ensures LoadAll(loaded, legacyProvider).None? {
      TwoWithOneKey(a, b, loaded, legacyProvider);
    }
  }

  lemma {:induction false} TwoWithOneKey(a: Job, b: Job, loaded: seq<Job>, legacyProvider: Option<string>)
    requires SameKey(a, b) && multiset(loaded) == multiset{a, b}
    ensures LoadAll(loaded, legacyProvider).None?
  {
    assert |loaded| == |multiset(loaded)| == 2;
    assert loaded == [loaded[0], loaded[1]];
    assert loaded[0] in multiset(loaded) && loaded[1] in multiset(loaded);
    assert SameKey(loaded[0], loaded[1]);
    var each := LoadEach(loaded, legacyProvider);
    if each.Some? {
      LoadOneAgain(loaded[0], legacyProvider);
      LoadOneAgain(loaded[1], legacyProvider);
      assert Clash(each.value[0], each.value[1]);
    }
  }
}
