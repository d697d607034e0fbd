/** Where every version comes from: over every run each one is the input of one write, at the clock of its
  * commit, and carries the time its record was created. */
module RuntimeHistory {
  import opened Prelude
  import opened RuntimeStore

  /** All versions were created when the first was; nobody replaces with another creation time. */
  predicate Dated<V>(h: seq<Doc<V>>) {
    (h != [] ==> h[0].createdAt == h[0].updatedAt) && forall j :: 0 <= j < |h| ==> h[j].createdAt == h[0].createdAt
  }

  predicate ProcDated<V(==)>(docs: map<Key, seq<Doc<V>>>, pc: Pc<V>) {
    pc.Replacing? ==> History(docs, KeyOf(pc.input)) != [] && pc.createdAt == History(docs, KeyOf(pc.input))[0].createdAt
  }

  ghost predicate AllDated<V>(s: State<V>) {
    && (forall key :: key in s.docs ==> Dated(s.docs[key]))
    && (forall pid :: pid in s.procs ==> ProcDated(s.docs, s.procs[pid]))
  }

  lemma {:induction false} ReadDated<V>(s: State<V>, pid: nat, version: nat)
    requires AllDated(s) && Enabled(s, Read(pid, version))
    ensures ProcDated(s.docs, Step(s, Read(pid, version)).procs[pid])
  {
    if version > 0 { assert Dated(History(s.docs, KeyOf(s.procs[pid].input))); }
  }

  lemma {:induction false} CommitDated<V>(s: State<V>, pid: nat, answered: bool)
    requires AllDated(s) && Enabled(s, Commit(pid, answered)) && Accepts(s.docs, s.procs[pid])
    ensures var t := Step(s, Commit(pid, answered)); forall key :: key in t.docs ==> Dated(t.docs[key])
  {
    var key := KeyOf(s.procs[pid].input);
    assert ProcDated(s.docs, s.procs[pid]) && Dated(History(s.docs, key));
  }

  lemma {:induction false} ProcDatedKept<V>(docs: map<Key, seq<Doc<V>>>, later: map<Key, seq<Doc<V>>>, pc: Pc<V>)
    requires Grows(docs, later) && ProcDated(docs, pc)
    ensures ProcDated(later, pc)
  {
    if pc.Replacing? { HistoryGrows(docs, later, KeyOf(pc.input)); }
  }

  /** Only a read gives a process a creation time; others keep what they have or forget it. */
  lemma {:induction false} OthersKeepTime<V>(s: State<V>, e: Event<V>, pid: nat)
    requires Enabled(s, e) && pid in Step(s, e).procs && !(e.Read? && e.pid == pid)
    ensures var pc := Step(s, e).procs[pid]; pc.Replacing? ==> pid in s.procs && s.procs[pid] == pc
  {}

  lemma {:induction false} DatedKept<V>(s: State<V>, e: Event<V>)
    requires AllDated(s) && Inv(s) && Enabled(s, e)
    ensures AllDated(Step(s, e))
  {
    var t := Step(s, e);
    InvKept(s, e);
    DocsDated(s, e);
    forall pid | pid in t.procs ensures ProcDated(t.docs, t.procs[pid]) {
      if e.Read? && e.pid == pid {
        ReadDated(s, pid, e.version);
        ProcDatedKept(s.docs, t.docs, t.procs[pid]);
      } else {
        OthersKeepTime(s, e, pid);
        if pid in s.procs && t.procs[pid] == s.procs[pid] { ProcDatedKept(s.docs, t.docs, t.procs[pid]); }
      }
    }
    hide Step, Enabled, Inv, ProcDated, Dated;
  }

  lemma {:induction false} DocsDated<V>(s: State<V>, e: Event<V>)
    requires AllDated(s) && Enabled(s, e)
    ensures var t := Step(s, e); forall key :: key in t.docs ==> Dated(t.docs[key])
  {
    if e.Commit? && Accepts(s.docs, s.procs[e.pid]) { CommitDated(s, e.pid, e.answered); } else { OtherwiseStays(s, e); }
    hide Step, Enabled, Dated;
  }

  lemma {:induction false} DatedAlways<V>(s: State<V>, es: seq<Event<V>>)
    requires AllDated(s) && Inv(s) && IsRun(s, es)
    ensures AllDated(Run(s, es))
    decreases |es|
  {
    if es != [] {
      InvKept(s, es[0]);
      DatedKept(s, es[0]);
      hide AllDated, Inv, Step, Enabled;
      DatedAlways(Step(s, es[0]), es[1..]);
    }
  }

  /** The document of a write: its input, under the next ETag, at this clock. */
  predicate DocumentOf<V(==)>(d: Doc<V>, i: Input<V>, etag: nat, createdAt: int, now: int) {
    && d.id == i.id && d.scope == i.scope && d.partition == ScopeDigest(i.scope) && d.idempotencyKey == i.idempotencyKey && d.content == i.content
    && d.etag == etag && d.base == i.expectedEtag && d.createdAt == createdAt && d.updatedAt == now
  }

  /** Version j of the history was appended by this commit, of a writer of the key. */
  predicate CommittedBy<V(==)>(s: State<V>, e: Event<V>, key: Key, j: nat, d: Doc<V>, createdAt: int) {
    && e.Commit? && e.pid in s.procs && (s.procs[e.pid].Creating? || s.procs[e.pid].Replacing?)
    && Key(ScopeDigest(s.procs[e.pid].input.scope), s.procs[e.pid].input.id) == key
    && |History(s.docs, key)| == j && (s.procs[e.pid].Creating? <==> j == 0)
    && DocumentOf(d, s.procs[e.pid].input, s.revision + 1, createdAt, s.clock)
  }

  lemma {:induction false} Appended<V>(s: State<V>, e: Event<V>, key: Key)
    requires AllDated(s) && Inv(s) && Enabled(s, e)
    ensures var h, g := History(s.docs, key), History(Step(s, e).docs, key);
      && h <= g && |g| <= |h| + 1
      && (|g| == |h| + 1 ==> CommittedBy(s, e, key, |h|, g[|h|], if h == [] then s.clock else h[0].createdAt))
  {
    if e.Commit? && Accepts(s.docs, s.procs[e.pid]) {
      AppendedBy(s, e.pid, e.answered, key);
      hide Inv, AllDated, Step, Enabled, Accepts, CommittedBy;
    } else {
      OtherwiseStays(s, e);
    }
  }

  lemma {:induction false} OtherwiseStays<V>(s: State<V>, e: Event<V>)
    requires Enabled(s, e) && !(e.Commit? && Accepts(s.docs, s.procs[e.pid]))
    ensures Step(s, e).docs == s.docs
  {}

  lemma {:induction false} AppendedBy<V>(s: State<V>, pid: nat, answered: bool, key: Key)
    requires AllDated(s) && Inv(s) && Enabled(s, Commit(pid, answered)) && Accepts(s.docs, s.procs[pid])
    ensures var h, g := History(s.docs, key), History(Step(s, Commit(pid, answered)).docs, key);
      if key != KeyOf(s.procs[pid].input) then g == h
      else |g| == |h| + 1 && h <= g && CommittedBy(s, Commit(pid, answered), key, |h|, g[|h|], if h == [] then s.clock else h[0].createdAt)
  {
    hide Inv;
    assert ProcDated(s.docs, s.procs[pid]);
    var t := Step(s, Commit(pid, answered));
    if key == KeyOf(s.procs[pid].input) { assert t.docs[key] == History(s.docs, key) + [Committed(s, s.procs[pid])]; }
  }

  lemma {:induction false} RunPrefix<V>(s: State<V>, es: seq<Event<V>>, k: nat)
    requires IsRun(s, es) && k <= |es|
    ensures IsRun(s, es[..k]) && IsRun(Run(s, es[..k]), es[k..]) && Run(Run(s, es[..k]), es[k..]) == Run(s, es)
    ensures k < |es| ==> Enabled(Run(s, es[..k]), es[k]) && IsRun(s, es[..k + 1]) && Run(s, es[..k + 1]) == Step(Run(s, es[..k]), es[k])
    decreases k
  {
    if k > 0 {
      RunPrefix(Step(s, es[0]), es[1..], k - 1);
      assert es[..k][1..] == es[1..][..k - 1] && es[k..] == es[1..][k - 1..];
      if k < |es| { assert es[..k + 1][1..] == es[1..][..k]; }
    } else {
      assert es[..0] == [] && es[0..] == es;
      if 0 < |es| { assert es[..1][1..] == []; }
    }
  }

  lemma {:induction false} InitDated<V>()
    ensures AllDated(Init<V>()) && Inv(Init<V>())
  {}

  lemma {:induction false} PrefixOf<T>(s: seq<T>, n: nat, k: nat)
    requires k <= n <= |s|
    ensures s[..n][..k] == s[..k] && (k < n ==> s[..n][k] == s[k])
  {}

  /** The commit that appended version j. */
  lemma {:induction false} VersionFrom<V>(es: seq<Event<V>>, key: Key, j: nat) returns (k: nat)
    requires IsRun(Init<V>(), es) && j < |History(Run(Init(), es).docs, key)|
    ensures k < |es| && IsRun(Init(), es[..k])
    ensures var s, h := Run(Init<V>(), es[..k]), History(Run(Init(), es).docs, key);
      CommittedBy(s, es[k], key, j, h[j], if j == 0 then s.clock else h[0].createdAt)
    decreases |es|
  {
    InitDated<V>();
    assert es != [];
    var n := |es| - 1;
    RunPrefix(Init(), es, n);
    var s, t := Run(Init<V>(), es[..n]), Run(Init<V>(), es);
    assert es[..n + 1] == es;
    InvAlways(Init(), es[..n]);
    DatedAlways(Init(), es[..n]);
    Appended(s, es[n], key);
    var h := History(s.docs, key);
    hide Step, Enabled, CommittedBy, Inv, AllDated;
    if j < |h| {
      k := VersionFrom(es[..n], key, j);
      PrefixOf(es, n, k);
    } else {
      k := n;
    }
  }

  /** In every history all versions say when the record was created: at the clock of its first commit. */
  lemma {:induction false} CreationTimeStays<V>(es: seq<Event<V>>, key: Key, j: nat)
    requires IsRun(Init<V>(), es) && j < |History(Run(Init(), es).docs, key)|
    ensures var h := History(Run(Init(), es).docs, key); h[j].createdAt == h[0].createdAt == h[0].updatedAt
  {
    InitDated<V>();
    DatedAlways(Init(), es);
    assert Dated(History(Run(Init(), es).docs, key));
  }

  /** This very write, as stored. */
  predicate Exact<V(==)>(d: Doc<V>, i: Input<V>) {
    && d.id == i.id && d.scope == i.scope && d.partition == ScopeDigest(i.scope) && d.idempotencyKey == i.idempotencyKey && d.content == i.content
  }

  /** The version read shows it. */
  predicate ShowsIt<V(==)>(h: seq<Doc<V>>, i: Input<V>, version: nat) { 0 < version <= |h| && Exact(h[version - 1], i) }

  /** One step of a process among the read-backs. */
  lemma {:induction false} ReadsBack<V>(s: State<V>, pid: nat, version: nat)
    requires pid in s.procs && s.procs[pid].ReadingBack? && s.procs[pid].attempt < READ_BACKS && version <= |History(s.docs, KeyOf(s.procs[pid].input))|
    ensures var q := s.procs[pid];
      var h, t := History(s.docs, KeyOf(q.input)), Step(s, Read(pid, version));
      && t.docs == s.docs && t.revision == s.revision && t.clock == s.clock
      && t.procs == s.procs[pid :=
           if ShowsIt(h, q.input, version) then Done(q.input, h[version - 1].etag)
           else if q.attempt < 2 then ReadingBack(q.input, q.attempt + 1, q.created)
           else Failed(q.input, if q.created then CreatedConcurrently else ChangedConcurrently)]
  {}

  /** A refused port call that three read-backs do not explain ends as the conflict it was, and writes
    * nothing; one that shows this very write ends it as done. */
  lemma {:induction false} RefusedEnds<V>(s: State<V>, pid: nat, v0: nat, v1: nat, v2: nat)
    requires Enabled(s, Reject(pid))
    requires var h := History(s.docs, KeyOf(s.procs[pid].input)); v0 <= |h| && v1 <= |h| && v2 <= |h|
    ensures var i, h, es := s.procs[pid].input, History(s.docs, KeyOf(s.procs[pid].input)), [Reject(pid), Read(pid, v0)];
      && IsRun(s, es)
      && (ShowsIt(h, i, v0) ==> Run(s, es).docs == s.docs && Run(s, es).procs == s.procs[pid := Done(i, h[v0 - 1].etag)])
    ensures var i, h := s.procs[pid].input, History(s.docs, KeyOf(s.procs[pid].input));
      var created, es := s.procs[pid].Creating?, [Reject(pid), Read(pid, v0), Read(pid, v1), Read(pid, v2)];
      !ShowsIt(h, i, v0) && !ShowsIt(h, i, v1) && !ShowsIt(h, i, v2) ==>
        && IsRun(s, es) && Run(s, es).docs == s.docs
        && Run(s, es).procs == s.procs[pid := Failed(i, if created then CreatedConcurrently else ChangedConcurrently)]
  {
    var h := History(s.docs, KeyOf(s.procs[pid].input));
    var r: Event<V>, r0: Event<V>, r1: Event<V>, r2: Event<V> := Reject(pid), Read(pid, v0), Read(pid, v1), Read(pid, v2);
    var i, s1 := s.procs[pid].input, Step(s, r);
    assert s1 == s.(procs := s.procs[pid := ReadingBack(i, 0, s.procs[pid].Creating?)]);
    ReadsBack(s1, pid, v0);
    var s2 := Step(s1, r0);
    One(s1, r0);
    assert [r] + [r0] == [r, r0];
    Two(s, r, [r0]);
    if !ShowsIt(h, i, v0) && !ShowsIt(h, i, v1) && !ShowsIt(h, i, v2) {
      ReadsBack(s2, pid, v1);
      var s3 := Step(s2, r1);
      ReadsBack(s3, pid, v2);
      hide Step;
      One(s3, r2);
      assert [r1] + [r2] == [r1, r2] && [r0] + [r1, r2] == [r0, r1, r2] && [r] + [r0, r1, r2] == [r, r0, r1, r2];
      Two(s2, r1, [r2]);
      Two(s1, r0, [r1, r2]);
      Two(s, r, [r0, r1, r2]);
    }
  }

  /** A writer that dies leaves the documents as they are and does nothing more. */
  lemma {:induction false} CrashLeavesNothing<V>(s: State<V>, pid: nat, e: Event<V>)
    requires Enabled(s, Crash(pid))
    ensures var t := Step(s, Crash(pid));
      && t.docs == s.docs && t.clock == s.clock && t.procs.Keys == s.procs.Keys - {pid}
      && (Enabled(t, e) && !e.Tick? && e.pid == pid ==> e.Begin?)
  {}
}
