/** The in-memory container, the conflicting container with its clock, and the write
  * and read-back loops of CosmosRuntimeStore over them. */
module RuntimeStorePorts {
  import opened Prelude
  import opened RuntimeStore

  /** Accepts a create for a new key and a replace for the newest ETag, as the source's test container does. */
  class MemoryCosmosPort<V> {
    var documents: map<Key, Doc<V>>
    var revision: nat

    constructor ()
      ensures documents == map[] && revision == 0
    {
      documents, revision := map[], 0;
    }

    function Read(key: Key): (r: Option<Doc<V>>)
      reads this
      ensures r == if key in documents then Some(documents[key]) else None
    {
      if key in documents then Some(documents[key]) else None
    }

    method Create(document: Doc<V>) returns (etag: Option<nat>)
      modifies this
      ensures etag.Some? <==> Key(document.partition, document.id) !in old(documents)
      ensures etag.Some? ==> etag.value == revision == old(revision) + 1
      ensures etag.Some? ==> documents == old(documents)[Key(document.partition, document.id) := document.(etag := revision)]
      ensures etag.None? ==> documents == old(documents) && revision == old(revision)
    {
      var key := Key(document.partition, document.id);
      if key in documents { return None; }
      revision := revision + 1;
      documents := documents[key := document.(etag := revision)];
      return Some(revision);
    }

    method Replace(key: Key, document: Doc<V>, ifMatch: nat) returns (etag: Option<nat>)
      modifies this
      ensures etag.Some? <==> key in old(documents) && old(documents)[key].etag == ifMatch
      ensures etag.Some? ==> etag.value == revision == old(revision) + 1
      ensures etag.Some? ==> documents == old(documents)[key := document.(etag := revision)]
      ensures etag.None? ==> documents == old(documents) && revision == old(revision)
    {
      if key !in documents || documents[key].etag != ifMatch { return None; }
      revision := revision + 1;
      documents := documents[key := document.(etag := revision)];
      return Some(revision);
    }
  }

  class FakeClock {
    var elapsedMs: nat
    var delays: seq<nat>

    constructor ()
      ensures elapsedMs == 0 && delays == []
    {
      elapsedMs, delays := 0, [];
    }

    method Delay(milliseconds: nat)
      modifies this
      ensures elapsedMs == old(elapsedMs) + milliseconds && delays == old(delays) + [milliseconds]
    {
      elapsedMs := elapsedMs + milliseconds;
      delays := delays + [milliseconds];
    }
  }

  /** What a read-back would show, once the clock has reached visibleAfterMs. */
  datatype ReadBackAnswer<V> = ReadBackAnswer(document: Option<Doc<V>>, visibleAfterMs: nat)

  /** A container whose port call was refused; each read-back consumes one answer. */
  class ConflictPort<V> {
    var answers: seq<ReadBackAnswer<V>>
    const clock: FakeClock

    constructor (answers: seq<ReadBackAnswer<V>>, clock: FakeClock)
      ensures this.answers == answers && this.clock == clock
    {
      this.answers, this.clock := answers, clock;
    }

    method Read() returns (seen: Option<Doc<V>>)
      modifies this
      ensures seen == Shown(old(answers), 0, clock.elapsedMs)
      ensures answers == if old(answers) == [] then [] else old(answers)[1..]
    {
      if answers == [] { return None; }
      seen := if clock.elapsedMs >= answers[0].visibleAfterMs then answers[0].document else None;
      answers := answers[1..];
    }
  }

  function Shown<V>(answers: seq<ReadBackAnswer<V>>, n: nat, elapsedMs: nat): Option<Doc<V>> {
    if n < |answers| && elapsedMs >= answers[n].visibleAfterMs then answers[n].document else None
  }

  const CONFLICT_READ_BACK_DELAYS_MS: seq<nat> := [10, 20]

  /** The clock at the n-th read-back. */
  function ElapsedAt(start: nat, n: nat): nat
    requires n < READ_BACKS
  {
    if n == 0 then start else if n == 1 then start + 10 else start + 30
  }

  /** The n-th read-back of a conflict that began at start shows this very write. */
  predicate ReplayAt<V(==)>(i: Input<V>, answers: seq<ReadBackAnswer<V>>, start: nat, n: nat)
    requires n < READ_BACKS
  {
    var seen := Shown(answers, n, ElapsedAt(start, n));
    seen.Some? && IsReplay(i, seen.value)
  }

  /** The first read-back that shows this very write, if one of the three does. */
  predicate IsFirstReplay<V(==)>(i: Input<V>, answers: seq<ReadBackAnswer<V>>, start: nat, n: nat)
    requires n < READ_BACKS
  {
    ReplayAt(i, answers, start, n) && forall m :: 0 <= m < n ==> !ReplayAt(i, answers, start, m)
  }

  class CosmosRuntimeStore<V(==)> {
    const container: MemoryCosmosPort<V>

    constructor (container: MemoryCosmosPort<V>)
      ensures this.container == container
    {
      this.container := container;
    }

    /** write() when nobody interferes: a replay or a conflict leaves the container alone,
      * anything else is one new revision of exactly this document. */
    method Write(i: Input<V>, now: int) returns (r: Pc<V>)
      modifies container
      ensures r.Done? || r.Failed?
      ensures var key, decision := Key(ScopeDigest(i.scope), i.id), Decide(i, old(container.Read(KeyOf(i))));
        if decision.Done? || decision.Failed? then
          r == decision && container.documents == old(container.documents) && container.revision == old(container.revision)
        else
          && r == Done(i, old(container.revision) + 1) && container.revision == old(container.revision) + 1
          && container.documents == old(container.documents)[key :=
               Doc(i.id, i.scope, ScopeDigest(i.scope), i.idempotencyKey, i.content, container.revision, i.expectedEtag,
                   if key in old(container.documents) then old(container.documents)[key].createdAt else now, now)]
      ensures var key := Key(ScopeDigest(i.scope), i.id);
        if key in old(container.documents) then
          var d := old(container.documents)[key];
          if d.idempotencyKey == i.idempotencyKey then r == (if d.content == i.content then Done(i, d.etag) else Failed(i, KeyReused))
          else if i.expectedEtag == None then r == Failed(i, EtagRequired)
          else if i.expectedEtag != Some(d.etag) then r == Failed(i, EtagStale)
          else r.Done? && r.etag == old(container.revision) + 1
        else if i.expectedEtag != None then r == Failed(i, RecordMissing) else r.Done? && r.etag == old(container.revision) + 1
      ensures r.Failed? || (KeyOf(i) in old(container.documents) && old(container.documents)[KeyOf(i)].idempotencyKey == i.idempotencyKey) ==>
        container.documents == old(container.documents) && container.revision == old(container.revision)
    {
      var key := KeyOf(i);
      var current := container.Read(key);
      if current.Some? {
        var d := current.value;
        if d.idempotencyKey == i.idempotencyKey {
          if d.content != i.content { return Failed(i, KeyReused); }
          return Done(i, d.etag);
        }
        if i.expectedEtag.None? { return Failed(i, EtagRequired); }
        if i.expectedEtag.value != d.etag { return Failed(i, EtagStale); }
        var etag := container.Replace(key, NewDoc(i, 0, d.createdAt, now), i.expectedEtag.value);
        return if etag.Some? then Done(i, etag.value) else Failed(i, ChangedConcurrently);
      }
      if i.expectedEtag.Some? { return Failed(i, RecordMissing); }
      var etag := container.Create(NewDoc(i, 0, now, now));
      return if etag.Some? then Done(i, etag.value) else Failed(i, CreatedConcurrently);
    }

    /** Three read-backs, waiting 10 and then 20 ms between them: the first exact match
      * is the answer, and nothing else ever is. */
    method ReadConflictReplay(port: ConflictPort<V>, i: Input<V>) returns (etag: Option<nat>, ghost at: nat)
      modifies port, port.clock
      ensures at <= READ_BACKS
      ensures etag.Some? <==> at < READ_BACKS
      ensures etag.Some? ==> IsFirstReplay(i, old(port.answers), old(port.clock.elapsedMs), at)
      ensures etag.Some? ==> etag.value == Shown(old(port.answers), at, ElapsedAt(old(port.clock.elapsedMs), at)).value.etag
      ensures etag.None? ==> forall n :: 0 <= n < READ_BACKS ==> !ReplayAt(i, old(port.answers), old(port.clock.elapsedMs), n)
      ensures port.clock.delays == old(port.clock.delays) + CONFLICT_READ_BACK_DELAYS_MS[..if at < 2 then at else 2]
      ensures old(port.clock.elapsedMs) <= port.clock.elapsedMs <= old(port.clock.elapsedMs) + 30
    {
      ghost var start, answers, waited := port.clock.elapsedMs, port.answers, port.clock.delays;
      var attempt := 0;
      at := READ_BACKS;
      while attempt <= |CONFLICT_READ_BACK_DELAYS_MS|
        invariant attempt <= READ_BACKS && at == READ_BACKS
        invariant attempt < READ_BACKS ==> port.clock.elapsedMs == ElapsedAt(start, attempt)
        invariant start <= port.clock.elapsedMs <= start + 30
        invariant port.clock.delays == waited + CONFLICT_READ_BACK_DELAYS_MS[..if attempt < 2 then attempt else 2]
        invariant port.answers == if attempt <= |answers| then answers[attempt..] else []
        invariant forall n :: 0 <= n < attempt ==> !ReplayAt(i, answers, start, n)
      {
        var result := port.Read();
        assert result == Shown(answers, attempt, ElapsedAt(start, attempt));
        if result.Some? && IsReplay(i, result.value) {
          at := attempt;
          return Some(result.value.etag), at;
        }
        if attempt < |CONFLICT_READ_BACK_DELAYS_MS| { port.clock.Delay(CONFLICT_READ_BACK_DELAYS_MS[attempt]); }
        attempt := attempt + 1;
      }
      etag := None;
    }
  }

  /** A winner that becomes visible after some time, asked for three times. */
  function Delayed<V>(winner: Doc<V>, visibleAfterMs: nat): seq<ReadBackAnswer<V>> {
    seq(READ_BACKS, n => ReadBackAnswer(Some(winner), visibleAfterMs))
  }

  /** The window is 30 ms: a winner is found exactly if it is this write and visible by then. */
  lemma {:induction false} WindowIsThirtyMs<V>(i: Input<V>, winner: Doc<V>, visibleAfterMs: nat)
    ensures (exists n :: 0 <= n < READ_BACKS && ReplayAt(i, Delayed(winner, visibleAfterMs), 0, n))
      <==> IsReplay(i, winner) && visibleAfterMs <= 30
  {
    assert ReplayAt(i, Delayed(winner, visibleAfterMs), 0, 2) <==> IsReplay(i, winner) && visibleAfterMs <= 30;
  }
}
