/** CosmosRuntimeStore: idempotent writes over a container with If-Match replace, as a
  * step system. A read may show any committed version, or none yet; only the
  * container's own create and replace look at the newest one. */
module RuntimeStore {
  import opened Prelude

  datatype Scope = Scope(tenantId: string, requesterId: string, conversationId: string)

  /** SHA-256 over the JSON text of the three scope fields, taken to be injective. */
  datatype Partition = ScopeDigest(scope: Scope)

  datatype Key = Key(partition: Partition, id: string)

  /** content stands for the value and its canonical hash; base is the ETag the commit replaced. */
  datatype Doc<V> = Doc(
    id: string, scope: Scope, partition: Partition, idempotencyKey: string, content: V, etag: nat, base: Option<nat>,
    createdAt: int, updatedAt: int)

  datatype Input<V> = Input(scope: Scope, id: string, idempotencyKey: string, content: V, expectedEtag: Option<nat>)

  function PartitionOf(scope: Scope): Partition { ScopeDigest(scope) }
  function KeyOf<V>(i: Input<V>): Key { Key(PartitionOf(i.scope), i.id) }

  datatype Conflict = KeyReused | EtagRequired | EtagStale | RecordMissing | ChangedConcurrently | CreatedConcurrently

  datatype Pc<V> =
    | Reading(input: Input<V>)
    | Creating(input: Input<V>)
    | Replacing(input: Input<V>, createdAt: int)
    | ReadingBack(input: Input<V>, attempt: nat, created: bool)
    | Done(input: Input<V>, etag: nat)
    | Failed(input: Input<V>, why: Conflict)

  datatype State<V> = State(docs: map<Key, seq<Doc<V>>>, revision: nat, clock: int, procs: map<nat, Pc<V>>)

  datatype Event<V> =
    | Tick(delta: nat)
    | Begin(pid: nat, input: Input<V>)
    | Read(pid: nat, version: nat)   // 0: the record is not visible (yet)
    | Commit(pid: nat, answered: bool)   // not answered: the container took it, and a 409 or 412 came back
    | Reject(pid: nat)               // a 409 or 412 without a visible cause
    | Crash(pid: nat)

  function History<V>(docs: map<Key, seq<Doc<V>>>, key: Key): seq<Doc<V>> {
    if key in docs then docs[key] else []
  }

  function Init<V>(): State<V> { State(map[], 0, 0, map[]) }

  /** write(), from the first read to the port call. */
  function Decide<V(==)>(i: Input<V>, seen: Option<Doc<V>>): Pc<V> {
    match seen
    case Some(d) =>
      if d.idempotencyKey == i.idempotencyKey then
        if d.content != i.content then Failed(i, KeyReused) else Done(i, d.etag)
      else if i.expectedEtag.None? then Failed(i, EtagRequired)
      else if i.expectedEtag.value != d.etag then Failed(i, EtagStale)
      else Replacing(i, d.createdAt)
    case None =>
      if i.expectedEtag.Some? then Failed(i, RecordMissing) else Creating(i)
  }

  /** The only document that counts as this write already done. */
  predicate IsReplay<V(==)>(i: Input<V>, d: Doc<V>) {
    && d.id == i.id && d.partition == PartitionOf(i.scope) && d.scope == i.scope
    && d.idempotencyKey == i.idempotencyKey && d.content == i.content
  }

  const READ_BACKS: nat := 3

  /** After a refused port call: three read-backs, then the conflict. */
  function ReadBack<V(==)>(i: Input<V>, attempt: nat, created: bool, seen: Option<Doc<V>>): Pc<V> {
    if seen.Some? && IsReplay(i, seen.value) then Done(i, seen.value.etag)
    else if attempt + 1 < READ_BACKS then ReadingBack(i, attempt + 1, created)
    else Failed(i, if created then CreatedConcurrently else ChangedConcurrently)
  }

  function NewDoc<V>(i: Input<V>, etag: nat, createdAt: int, now: int): Doc<V> {
    Doc(i.id, i.scope, PartitionOf(i.scope), i.idempotencyKey, i.content, etag, i.expectedEtag, createdAt, now)
  }

  predicate Enabled<V>(s: State<V>, e: Event<V>) {
    match e
    case Tick(_) => true
    case Begin(pid, _) => pid !in s.procs
    case Read(pid, version) =>
      && pid in s.procs && (s.procs[pid].Reading? || s.procs[pid].ReadingBack?)
      && version <= |History(s.docs, KeyOf(s.procs[pid].input))|
    case Commit(pid, _) => pid in s.procs && (s.procs[pid].Creating? || s.procs[pid].Replacing?)
    case Reject(pid) => pid in s.procs && (s.procs[pid].Creating? || s.procs[pid].Replacing?)
    case Crash(pid) => pid in s.procs
  }

  /** The container takes a create only for a new key and a replace only for the newest ETag. */
  predicate Accepts<V>(docs: map<Key, seq<Doc<V>>>, pc: Pc<V>)
    requires pc.Creating? || pc.Replacing?
  {
    var h := History(docs, KeyOf(pc.input));
    if pc.Creating? then h == []
    else h != [] && pc.input.expectedEtag == Some(h[|h| - 1].etag)
  }

  function Step<V(==)>(s: State<V>, e: Event<V>): State<V>
    requires Enabled(s, e)
  {
    match e
    case Tick(delta) => s.(clock := s.clock + delta)
    case Begin(pid, input) => s.(procs := s.procs[pid := Reading(input)])
    case Read(pid, version) =>
      var pc := s.procs[pid];
      var h := History(s.docs, KeyOf(pc.input));
      var seen := if version == 0 then None else Some(h[version - 1]);
      s.(procs := s.procs[pid := if pc.Reading? then Decide(pc.input, seen) else ReadBack(pc.input, pc.attempt, pc.created, seen)])
    case Commit(pid, answered) =>
      var pc := s.procs[pid];
      if !Accepts(s.docs, pc) then s.(procs := s.procs[pid := ReadingBack(pc.input, 0, pc.Creating?)])
      else
        var key := KeyOf(pc.input);
        var doc := NewDoc(pc.input, s.revision + 1, if pc.Replacing? then pc.createdAt else s.clock, s.clock);
        s.(docs := s.docs[key := History(s.docs, key) + [doc]], revision := s.revision + 1,
           procs := s.procs[pid := if answered then Done(pc.input, doc.etag) else ReadingBack(pc.input, 0, pc.Creating?)])
    case Reject(pid) => s.(procs := s.procs[pid := ReadingBack(s.procs[pid].input, 0, s.procs[pid].Creating?)])
    case Crash(pid) => s.(procs := s.procs - {pid})
  }

  predicate IsRun<V(==)>(s: State<V>, es: seq<Event<V>>)
    decreases |es|
  {
    es == [] || (Enabled(s, es[0]) && IsRun(Step(s, es[0]), es[1..]))
  }

  function Run<V(==)>(s: State<V>, es: seq<Event<V>>): State<V>
    requires IsRun(s, es)
    decreases |es|
  {
    if es == [] then s else Run(Step(s, es[0]), es[1..])
  }

  // ---- what every step keeps ----

  predicate Based<V>(h: seq<Doc<V>>, j: nat)
    requires j < |h|
  {
    h[j].base == if j == 0 then None else Some(h[j - 1].etag)
  }

  /** Every version replaced the one before it, under a different idempotency key. */
  predicate Chained<V>(h: seq<Doc<V>>, revision: nat) {
    && (forall j :: 0 <= j < |h| ==> h[j].etag <= revision)
    && (forall j, k :: 0 <= j < k < |h| ==> h[j].etag < h[k].etag)
    && (forall j :: 0 <= j < |h| ==> Based(h, j))
    && (forall j :: 0 < j < |h| ==> h[j].idempotencyKey != h[j - 1].idempotencyKey)
  }

  predicate Holds<V(==)>(h: seq<Doc<V>>, i: Input<V>, etag: nat) {
    exists k :: 0 <= k < |h| && h[k].etag == etag && IsReplay(i, h[k])
  }

  predicate ReplacesOther<V>(h: seq<Doc<V>>, i: Input<V>) {
    exists k :: 0 <= k < |h| && Some(h[k].etag) == i.expectedEtag && h[k].idempotencyKey != i.idempotencyKey
  }

  predicate Placed<V>(key: Key, h: seq<Doc<V>>) {
    forall j :: 0 <= j < |h| ==> h[j].id == key.id && h[j].partition == key.partition && h[j].partition == PartitionOf(h[j].scope)
  }

  predicate ProcOk<V(==)>(docs: map<Key, seq<Doc<V>>>, pc: Pc<V>) {
    var h := History(docs, KeyOf(pc.input));
    match pc
    case Creating(i) => i.expectedEtag.None?
    case Replacing(i, _) => ReplacesOther(h, i)
    case Done(i, etag) => Holds(h, i, etag)
    case _ => true
  }

  ghost predicate Inv<V>(s: State<V>) {
    && (forall key :: key in s.docs ==> Chained(s.docs[key], s.revision) && Placed(key, s.docs[key]))
    && (forall pid :: pid in s.procs ==> ProcOk(s.docs, s.procs[pid]))
  }

  predicate Grows<V(==)>(docs: map<Key, seq<Doc<V>>>, later: map<Key, seq<Doc<V>>>) {
    forall key :: key in docs ==> key in later && docs[key] <= later[key]
  }

  lemma {:induction false} HistoryGrows<V>(docs: map<Key, seq<Doc<V>>>, later: map<Key, seq<Doc<V>>>, key: Key)
    requires Grows(docs, later)
    ensures History(docs, key) <= History(later, key)
  {}

  lemma {:induction false} ProcStable<V>(docs: map<Key, seq<Doc<V>>>, later: map<Key, seq<Doc<V>>>, pc: Pc<V>)
    requires Grows(docs, later) && ProcOk(docs, pc)
    ensures ProcOk(later, pc)
  {
    HistoryGrows(docs, later, KeyOf(pc.input));
    var h, g := History(docs, KeyOf(pc.input)), History(later, KeyOf(pc.input));
    match pc
    case Replacing(i, _) =>
      var k :| 0 <= k < |h| && Some(h[k].etag) == i.expectedEtag && h[k].idempotencyKey != i.idempotencyKey;
      assert g[k] == h[k];
    case Done(i, etag) =>
      var k :| 0 <= k < |h| && h[k].etag == etag && IsReplay(i, h[k]);
      assert g[k] == h[k];
    case _ =>
  }

  lemma {:induction false} ReadOk<V>(s: State<V>, pid: nat, version: nat)
    requires Inv(s) && Enabled(s, Read(pid, version))
    ensures ProcOk(s.docs, Step(s, Read(pid, version)).procs[pid])
  {
    var pc := s.procs[pid];
    var h := History(s.docs, KeyOf(pc.input));
    if version > 0 {
      assert Placed(KeyOf(pc.input), h);
      var d := h[version - 1];
      assert d.scope == pc.input.scope;
      if IsReplay(pc.input, d) { assert Holds(h, pc.input, d.etag); }
      if d.idempotencyKey != pc.input.idempotencyKey && pc.input.expectedEtag == Some(d.etag) { assert ReplacesOther(h, pc.input); }
    }
  }

  lemma {:induction false} AppendOk<V>(h: seq<Doc<V>>, doc: Doc<V>, revision: nat)
    requires Chained(h, revision) && doc.etag == revision + 1
    requires doc.base == if h == [] then None else Some(h[|h| - 1].etag)
    requires h != [] ==> doc.idempotencyKey != h[|h| - 1].idempotencyKey
    ensures Chained(h + [doc], revision + 1)
  {
    forall j | 0 <= j < |h| + 1 ensures Based(h + [doc], j) {
      if j < |h| { assert Based(h, j); }
    }
  }

  /** The newest version is the one a replacing writer saw. */
  lemma {:induction false} ReplacedIsNewest<V>(h: seq<Doc<V>>, i: Input<V>, revision: nat)
    requires Chained(h, revision) && ReplacesOther(h, i) && h != [] && i.expectedEtag == Some(h[|h| - 1].etag)
    ensures h[|h| - 1].idempotencyKey != i.idempotencyKey
  {
    var k :| 0 <= k < |h| && Some(h[k].etag) == i.expectedEtag && h[k].idempotencyKey != i.idempotencyKey;
    assert k == |h| - 1;
  }

  /** The document a commit stores. */
  function Committed<V>(s: State<V>, pc: Pc<V>): Doc<V>
    requires pc.Creating? || pc.Replacing?
  {
    NewDoc(pc.input, s.revision + 1, if pc.Replacing? then pc.createdAt else s.clock, s.clock)
  }

  /** An accepted commit extends its own history by one version, which is its writer's. */
  lemma {:induction false} CommitExtends<V>(s: State<V>, pid: nat, answered: bool)
    requires Inv(s) && Enabled(s, Commit(pid, answered)) && Accepts(s.docs, s.procs[pid])
    ensures var key, pc := KeyOf(s.procs[pid].input), s.procs[pid];
      var h, doc := History(s.docs, key), Committed(s, pc);
      && Chained(h + [doc], s.revision + 1) && Placed(key, h + [doc]) && IsReplay(pc.input, doc)
      && Step(s, Commit(pid, answered)) == State(s.docs[key := h + [doc]], s.revision + 1, s.clock,
           s.procs[pid := if answered then Done(pc.input, doc.etag) else ReadingBack(pc.input, 0, pc.Creating?)])
  {
    var pc := s.procs[pid];
    var key := KeyOf(pc.input);
    var h := History(s.docs, key);
    assert ProcOk(s.docs, pc) && Chained(h, s.revision) && Placed(key, h);
    if pc.Replacing? { ReplacedIsNewest(h, pc.input, s.revision); }
    hide Chained, ReplacesOther;
    AppendOk(h, Committed(s, pc), s.revision);
  }

  lemma {:induction false} ChainedLater<V>(h: seq<Doc<V>>, revision: nat)
    requires Chained(h, revision)
    ensures Chained(h, revision + 1)
  {}

  lemma {:induction false} CommitOk<V>(s: State<V>, pid: nat, answered: bool)
    requires Inv(s) && Enabled(s, Commit(pid, answered)) && Accepts(s.docs, s.procs[pid])
    ensures var t := Step(s, Commit(pid, answered));
      && Grows(s.docs, t.docs) && ProcOk(t.docs, t.procs[pid])
      && forall key :: key in t.docs ==> Chained(t.docs[key], t.revision) && Placed(key, t.docs[key])
  {
    CommitExtends(s, pid, answered);
    var t, pc := Step(s, Commit(pid, answered)), s.procs[pid];
    var key, h := KeyOf(pc.input), History(s.docs, KeyOf(pc.input));
    var doc := Committed(s, pc);
    assert (h + [doc])[|h|] == doc;
    assert Holds(h + [doc], pc.input, doc.etag);
    hide Chained, Placed, Holds, IsReplay, Accepts, Committed;
    forall other | other in t.docs ensures Chained(t.docs[other], t.revision) && Placed(other, t.docs[other]) {
      if other != key { ChainedLater(s.docs[other], s.revision); }
    }
  }

  lemma {:induction false} InvKept<V>(s: State<V>, e: Event<V>)
    requires Inv(s) && Enabled(s, e)
    ensures Inv(Step(s, e)) && Grows(s.docs, Step(s, e).docs)
  {
    var t := Step(s, e);
    if e.Commit? && Accepts(s.docs, s.procs[e.pid]) { CommitOk(s, e.pid, e.answered); }
    if e.Read? { ReadOk(s, e.pid, e.version); }
    forall pid | pid in t.procs ensures ProcOk(t.docs, t.procs[pid]) {
      if pid in s.procs && t.procs[pid] == s.procs[pid] { ProcStable(s.docs, t.docs, s.procs[pid]); }
    }
  }

  lemma {:induction false} InvAlways<V>(s: State<V>, es: seq<Event<V>>)
    requires Inv(s) && IsRun(s, es)
    ensures Inv(Run(s, es)) && Grows(s.docs, Run(s, es).docs)
    decreases |es|
  {
    if es != [] {
      InvKept(s, es[0]);
      InvAlways(Step(s, es[0]), es[1..]);
      var t, u := Step(s, es[0]), Run(s, es);
      forall key | key in s.docs ensures key in u.docs && s.docs[key] <= u.docs[key] {
        assert t.docs[key] <= u.docs[key];
      }
    }
  }

  // ---- at most once ----

  /** In every reachable history no two versions were committed against the same ETag
    * (the create counts as one), so a write retried as it is commits at most once. */
  lemma {:induction false} CommitsAtMostOnce<V>(es: seq<Event<V>>, key: Key, j: nat, k: nat)
    requires IsRun(Init<V>(), es)
    requires j < k < |History(Run(Init(), es).docs, key)|
    ensures var h := History(Run(Init(), es).docs, key); h[j].base != h[k].base
  {
    InvAlways(Init(), es);
    var h := History(Run(Init(), es).docs, key);
    assert Chained(h, Run(Init(), es).revision);
    assert Based(h, j) && Based(h, k);
  }

  /** A key commits twice only around somebody else's commit, and only by a retry
    * that was given a newer ETag than the first time. */
  lemma {:induction false} RepeatNeedsOtherCommit<V>(es: seq<Event<V>>, key: Key, j: nat, k: nat)
    requires IsRun(Init<V>(), es)
    requires j < k < |History(Run(Init(), es).docs, key)|
    requires var h := History(Run(Init(), es).docs, key); h[j].idempotencyKey == h[k].idempotencyKey
    ensures var h := History(Run(Init(), es).docs, key);
      && h[k - 1].idempotencyKey != h[j].idempotencyKey && j < k - 1
      && h[k].base == Some(h[k - 1].etag) && h[k - 1].etag > h[j].etag
  {
    InvAlways(Init(), es);
    var h := History(Run(Init(), es).docs, key);
    assert Chained(h, Run(Init(), es).revision);
    assert Based(h, j) && Based(h, k);
  }

  /** What a writer is told is true: its write, exactly, stands in the history under that ETag, for good. */
  lemma {:induction false} DoneIsDurable<V>(s: State<V>, es: seq<Event<V>>, pid: nat)
    requires Inv(s) && pid in s.procs && s.procs[pid].Done? && IsRun(s, es)
    ensures Holds(History(Run(s, es).docs, KeyOf(s.procs[pid].input)), s.procs[pid].input, s.procs[pid].etag)
  {
    InvAlways(s, es);
    ProcStable(s.docs, Run(s, es).docs, s.procs[pid]);
  }

  /** A commit replaces exactly the version its caller read: a value computed from the
    * version with the expected ETag is computed from the newest one. */
  lemma {:induction false} CommitReplacesWhatWasRead<V>(s: State<V>, pid: nat, answered: bool, read: Doc<V>, n: nat)
    requires Inv(s) && Enabled(s, Commit(pid, answered)) && Accepts(s.docs, s.procs[pid])
    requires var h := History(s.docs, KeyOf(s.procs[pid].input));
      n < |h| && h[n] == read && s.procs[pid].input.expectedEtag == Some(read.etag)
    ensures var h := History(Step(s, Commit(pid, answered)).docs, KeyOf(s.procs[pid].input));
      |h| >= 2 && h[|h| - 2] == read && h[|h| - 1].content == s.procs[pid].input.content
  {
    var h := History(s.docs, KeyOf(s.procs[pid].input));
    assert Chained(h, s.revision);
    assert ProcOk(s.docs, s.procs[pid]);
    assert n == |h| - 1;
  }

  /** A retry that sees its own write returns that ETag and writes nothing; a conflict writes nothing. */
  lemma {:induction false} OnlyCommitsWrite<V>(s: State<V>, e: Event<V>)
    requires Enabled(s, e)
    ensures Step(s, e).docs == s.docs <==> !(e.Commit? && Accepts(s.docs, s.procs[e.pid]))
    ensures e.Read? && s.procs[e.pid].Reading? && e.version > 0 ==>
      var d := History(s.docs, KeyOf(s.procs[e.pid].input))[e.version - 1];
      IsReplay(s.procs[e.pid].input, d) ==> Step(s, e).procs[e.pid] == Done(s.procs[e.pid].input, d.etag)
  {
    if e.Commit? && Accepts(s.docs, s.procs[e.pid]) {
      var key := KeyOf(s.procs[e.pid].input);
      assert |History(Step(s, e).docs, key)| == |History(s.docs, key)| + 1;
    }
  }

  /** Exactly when a retry commits again: whatever version it reads, only if its caller
    * gave it the newest ETag and the newest version is somebody else's. */
  lemma {:induction false} RetryCommitsExactly<V>(s: State<V>, pid: nat, i: Input<V>, version: nat)
    requires Inv(s) && pid !in s.procs && History(s.docs, KeyOf(i)) != [] && version <= |History(s.docs, KeyOf(i))|
    ensures var h := History(s.docs, KeyOf(i));
      var t := Step(Step(s, Begin(pid, i)), Read(pid, version));
      var newest := h[|h| - 1];
      (Enabled(t, Commit(pid, true)) && Accepts(t.docs, t.procs[pid]))
        <==> (version == |h| && i.expectedEtag == Some(newest.etag) && newest.idempotencyKey != i.idempotencyKey)
  {
    var h := History(s.docs, KeyOf(i));
    assert Chained(h, s.revision);
  }

  lemma {:induction false} One<V>(s: State<V>, e: Event<V>)
    requires Enabled(s, e)
    ensures IsRun(s, [e]) && Run(s, [e]) == Step(s, e)
  {
    assert [e][1..] == [];
  }

  lemma {:induction false} Two<V>(s: State<V>, e: Event<V>, es: seq<Event<V>>)
    requires Enabled(s, e) && IsRun(Step(s, e), es)
    ensures IsRun(s, [e] + es) && Run(s, [e] + es) == Run(Step(s, e), es)
  {
    assert ([e] + es)[1..] == es;
  }

  /** But the write can fail with its commit in place: if the three read-backs all still show what was
    * there before, unless that was the same write already. */
  lemma {:induction false} LandedWriteCanFail<V>(s: State<V>, pid: nat)
    requires Enabled(s, Commit(pid, false)) && Accepts(s.docs, s.procs[pid])
    requires var i := s.procs[pid].input;
      var h := History(s.docs, KeyOf(i)); h == [] || !IsReplay(i, h[|h| - 1])
    ensures var i := s.procs[pid].input;
      var n := |History(s.docs, KeyOf(i))|;
      var es := [Commit(pid, false), Read(pid, n), Read(pid, n), Read(pid, n)];
      && IsRun(s, es) && pid in Run(s, es).procs && Run(s, es).procs[pid].Failed?
      && History(Run(s, es).docs, KeyOf(i)) == History(s.docs, KeyOf(i)) + [Committed(s, s.procs[pid])]
  {
    var i, created := s.procs[pid].input, s.procs[pid].Creating?;
    var n, r := |History(s.docs, KeyOf(i))|, Read(pid, |History(s.docs, KeyOf(i))|);
    var s1 := Step(s, Commit(pid, false));
    var s2, s3 := Step(s1, r), Step(Step(s1, r), r);
    assert s2.procs[pid] == ReadingBack(i, 1, created) && s3.procs[pid] == ReadingBack(i, 2, created);
    One(s3, r);
    assert [r] + [r] == [r, r] && [r] + [r, r] == [r, r, r] && [Commit(pid, false)] + [r, r, r] == [Commit(pid, false), r, r, r];
    Two(s2, r, [r]);
    Two(s1, r, [r, r]);
    Two(s, Commit(pid, false), [r, r, r]);
  }

  /** A commit whose answer was lost is not lost: the next read-back that shows the newest version answers with
    * its ETag, and so does a retry of the whole write that reads it; neither writes again. */
  lemma {:induction false} LostAnswerIsFound<V>(s: State<V>, pid: nat, retry: nat)
    requires Inv(s) && Enabled(s, Commit(pid, false)) && Accepts(s.docs, s.procs[pid]) && retry !in s.procs
    ensures var i, t := s.procs[pid].input, Step(s, Commit(pid, false));
      var n := |History(t.docs, KeyOf(i))|;
      && Enabled(t, Read(pid, n)) && Step(t, Read(pid, n)).docs == t.docs
      && Step(t, Read(pid, n)).procs[pid] == Done(i, t.revision)
      && Step(Step(t, Begin(retry, i)), Read(retry, n)).procs[retry] == Done(i, t.revision)
  {
    CommitExtends(s, pid, false);
    var i, t := s.procs[pid].input, Step(s, Commit(pid, false));
    var h := History(t.docs, KeyOf(i));
    assert h[|h| - 1] == Committed(s, s.procs[pid]);
  }

  // ---- the run in which a key commits twice ----

  lemma {:induction false} Snoc<V>(s: State<V>, es: seq<Event<V>>, e: Event<V>)
    requires IsRun(s, es) && Enabled(Run(s, es), e)
    ensures IsRun(s, es + [e]) && Run(s, es + [e]) == Step(Run(s, es), e)
    decreases |es|
  {
    if es == [] {
      assert (es + [e])[1..] == [];
    } else {
      Snoc(Step(s, es[0]), es[1..], e);
      assert (es + [e])[1..] == es[1..] + [e];
    }
  }

  /** One undisturbed write, from the end of a run. */
  lemma {:induction false} Writes<V>(es: seq<Event<V>>, pid: nat, i: Input<V>) returns (longer: seq<Event<V>>)
    requires IsRun(Init<V>(), es)
    requires pid !in Run(Init(), es).procs
    requires var h := History(Run(Init(), es).docs, KeyOf(i));
      if h == [] then i.expectedEtag.None?
      else i.expectedEtag == Some(h[|h| - 1].etag) && h[|h| - 1].idempotencyKey != i.idempotencyKey
    ensures IsRun(Init(), longer)
    ensures var s, t := Run(Init(), es), Run(Init(), longer);
      var h, g := History(s.docs, KeyOf(i)), History(t.docs, KeyOf(i));
      && t.procs.Keys == s.procs.Keys + {pid} && t.revision == s.revision + 1
      && |g| == |h| + 1 && g[..|h|] == h && IsReplay(i, g[|h|]) && g[|h|].etag == t.revision
  {
    var h := History(Run(Init(), es).docs, KeyOf(i));
    Snoc(Init(), es, Begin(pid, i));
    longer := es + [Begin(pid, i)];
    Snoc(Init(), longer, Read(pid, |h|));
    longer := longer + [Read(pid, |h|)];
    Snoc(Init(), longer, Commit(pid, true));
    longer := longer + [Commit(pid, true)];
  }

  /** The same key and content, retried with a refreshed ETag after somebody else's
    * commit, commits a second revision. */
  lemma {:induction false} RefreshedRetryCommitsTwice<V>(scope: Scope, id: string, content: V, other: V) returns (es: seq<Event<V>>)
    ensures IsRun(Init<V>(), es)
    ensures var h := History(Run(Init(), es).docs, Key(PartitionOf(scope), id));
      |h| == 3 && IsReplay(Input(scope, id, "a", content, None), h[0]) && IsReplay(Input(scope, id, "a", content, None), h[2])
  {
    es := [];
    es := Writes(es, 1, Input(scope, id, "a", content, None));
    es := Writes(es, 2, Input(scope, id, "b", other, Some(1)));
    es := Writes(es, 3, Input(scope, id, "a", content, Some(2)));
  }
}
