/** The plan and its fingerprint against the order in which roles, workers, and their
  * roles and capabilities are listed. */
module CollaborationOrder {
  import opened Prelude
  import opened JsonText
  import opened CanonicalJson
  import opened Collaboration

  // ---- order independence ----

  predicate SameIds(v: Worker, w: Worker) {
    && Ids(v) == Ids(w)
    && v.agentId == w.agentId && v.providerId == w.providerId && v.identity == w.identity && v.boundary == w.boundary
  }

  predicate NatsSorted(ns: seq<nat>) { forall i, j :: 0 <= i < j < |ns| ==> ns[i] <= ns[j] }

  lemma {:induction false} InsertNatHolds(n: nat, ns: seq<nat>)
    ensures multiset(InsertNat(n, ns)) == multiset(ns) + multiset{n}
  {
    if ns != [] {
      assert ns == [ns[0]] + ns[1..];
      InsertNatHolds(n, ns[1..]);
    }
  }

  lemma {:induction false} InsertNatSorted(n: nat, ns: seq<nat>)
    requires NatsSorted(ns)
    ensures NatsSorted(InsertNat(n, ns))
    ensures forall x :: x in InsertNat(n, ns) ==> x == n || x in ns
  {
    if ns != [] && n > ns[0] {
      InsertNatSorted(n, ns[1..]);
      var rest := InsertNat(n, ns[1..]);
      forall j | 0 <= j < |rest| ensures ns[0] <= rest[j] { assert rest[j] in rest; }
    }
  }

  lemma {:induction false} SortNatsHolds(ns: seq<nat>)
    ensures multiset(SortNats(ns)) == multiset(ns) && NatsSorted(SortNats(ns))
  {
    if ns != [] {
      SortNatsHolds(ns[1..]);
      InsertNatHolds(ns[0], SortNats(ns[1..]));
      InsertNatSorted(ns[0], SortNats(ns[1..]));
      assert ns == [ns[0]] + ns[1..];
    }
  }

  lemma {:induction false} SameFirst(a: seq<nat>, b: seq<nat>)
    requires NatsSorted(a) && NatsSorted(b) && a != [] && b != [] && multiset(a) == multiset(b)
    ensures a[0] == b[0]
  {
    assert a[0] in multiset(b) && b[0] in multiset(a);
    var i :| 0 <= i < |b| && b[i] == a[0];
    var j :| 0 <= j < |a| && a[j] == b[0];
  }

  lemma {:induction false} NatsUnique(a: seq<nat>, b: seq<nat>)
    requires NatsSorted(a) && NatsSorted(b) && multiset(a) == multiset(b)
    ensures a == b
  {
    assert |multiset(a)| == |a| && |multiset(b)| == |b|;
    if a != [] {
      SameFirst(a, b);
      assert a == [a[0]] + a[1..] && b == [b[0]] + b[1..];
      assert multiset(a[1..]) == multiset(a) - multiset{a[0]};
      assert multiset(b[1..]) == multiset(b) - multiset{b[0]};
      NatsUnique(a[1..], b[1..]);
    }
  }

  /** Roles, requested in any order, are the same plan roles. */
  lemma {:induction false} RolesOrderIndependent(a: seq<nat>, b: seq<nat>, defaults: seq<nat>)
    requires multiset(a) == multiset(b)
    ensures Effective(a, defaults) == Effective(b, defaults)
  {
    SortNatsHolds(a);
    SortNatsHolds(b);
    NatsUnique(SortNats(a), SortNats(b));
    assert |multiset(a)| == |a| && |multiset(b)| == |b|;
  }

  /** The same workers, listed in any order, with their roles and capabilities in any order. */
  predicate SameRoster(ws: seq<Worker>, vs: seq<Worker>) {
    multiset(CanonicalEach(ws)) == multiset(CanonicalEach(vs))
  }

  lemma {:induction false} CanonicalHolds(w: Worker)
    ensures SameIds(w, CanonicalWorker(w))
    ensures forall r :: r in w.roles <==> r in CanonicalWorker(w).roles
    ensures forall c :: c in w.capabilities <==> c in CanonicalWorker(w).capabilities
  {
    SortNatsHolds(w.roles);
    SortNatsHolds(w.capabilities);
    forall r ensures r in w.roles <==> r in SortNats(w.roles) {
      assert r in w.roles <==> r in multiset(w.roles);
      assert r in SortNats(w.roles) <==> r in multiset(SortNats(w.roles));
    }
    forall c ensures c in w.capabilities <==> c in SortNats(w.capabilities) {
      assert c in w.capabilities <==> c in multiset(w.capabilities);
      assert c in SortNats(w.capabilities) <==> c in multiset(SortNats(w.capabilities));
    }
  }

  lemma {:induction false} InsertCanonical(w: Worker, ws: seq<Worker>)
    ensures CanonicalEach(InsertWorker(w, ws)) == InsertWorker(CanonicalWorker(w), CanonicalEach(ws))
  {
    if ws != [] && WorkerBefore(ws[0], w) {
      InsertCanonical(w, ws[1..]);
      assert CanonicalEach(ws)[1..] == CanonicalEach(ws[1..]);
    }
  }

  lemma {:induction false} SortCanonical(ws: seq<Worker>)
    ensures CanonicalEach(SortWorkers(ws)) == SortWorkers(CanonicalEach(ws))
  {
    if ws != [] {
      SortCanonical(ws[1..]);
      InsertCanonical(ws[0], SortWorkers(ws[1..]));
      assert CanonicalEach(ws)[1..] == CanonicalEach(ws[1..]);
    }
  }

  // ---- a total preorder on the ids ----

  lemma {:induction false} IdsTotal(a: seq<Text>, b: seq<Text>)
    requires |a| == |b|
    ensures a == b || IdsBefore(a, b) || IdsBefore(b, a)
    ensures !(IdsBefore(a, b) && IdsBefore(b, a)) && !IdsBefore(a, a)
    decreases |a|
  {
    if a != [] {
      LexTotal(a[0], b[0]);
      LexTotal(a[0], a[0]);
      IdsTotal(a[1..], b[1..]);
      assert a == [a[0]] + a[1..] && b == [b[0]] + b[1..];
    }
  }

  lemma {:induction false} IdsTransitive(a: seq<Text>, b: seq<Text>, c: seq<Text>)
    requires |a| == |b| == |c| && IdsBefore(a, b) && IdsBefore(b, c)
    ensures IdsBefore(a, c)
    decreases |a|
  {
    LexTotal(a[0], c[0]);
    LexTotal(a[0], b[0]);
    LexTotal(b[0], c[0]);
    if a[0] == b[0] && b[0] == c[0] { IdsTransitive(a[1..], b[1..], c[1..]); }
    else if a[0] != b[0] && b[0] != c[0] { LexTransitive(a[0], b[0], c[0]); }
  }

  predicate NotAfter(v: Worker, w: Worker) { !WorkerBefore(w, v) }

  lemma {:induction false} NotAfterTransitive(u: Worker, v: Worker, w: Worker)
    requires NotAfter(u, v) && NotAfter(v, w)
    ensures NotAfter(u, w)
  {
    IdsTotal(Ids(u), Ids(v));
    IdsTotal(Ids(v), Ids(w));
    IdsTotal(Ids(u), Ids(w));
    if Ids(u) != Ids(v) && Ids(v) != Ids(w) { IdsTransitive(Ids(u), Ids(v), Ids(w)); }
  }

  predicate WorkersSorted(ws: seq<Worker>) { forall i, j :: 0 <= i < j < |ws| ==> NotAfter(ws[i], ws[j]) }

  lemma {:induction false} InsertWorkerHolds(w: Worker, ws: seq<Worker>)
    ensures multiset(InsertWorker(w, ws)) == multiset(ws) + multiset{w}
  {
    hide WorkerBefore;
    if ws != [] {
      InsertWorkerHolds(w, ws[1..]);
      assert ws == [ws[0]] + ws[1..];
    }
  }

  /** What comes before every worker of a list, and before w, comes before the list with w in it. */
  lemma {:induction false} BeforeInserted(v: Worker, w: Worker, ws: seq<Worker>)
    requires NotAfter(v, w) && forall k :: 0 <= k < |ws| ==> NotAfter(v, ws[k])
    ensures forall j :: 0 <= j < |InsertWorker(w, ws)| ==> NotAfter(v, InsertWorker(w, ws)[j])
  {
    hide NotAfter, InsertWorker;
    InsertWorkerHolds(w, ws);
    var rest := InsertWorker(w, ws);
    forall j | 0 <= j < |rest| ensures NotAfter(v, rest[j]) {
      assert rest[j] in multiset(rest);
      if rest[j] != w { var k :| 0 <= k < |ws| && ws[k] == rest[j]; }
    }
  }

  lemma {:induction false} InsertWorkerSorted(w: Worker, ws: seq<Worker>)
    requires WorkersSorted(ws)
    ensures WorkersSorted(InsertWorker(w, ws))
  {
    hide WorkerBefore, NotAfter;
    if ws == [] {
    } else if WorkerBefore(ws[0], w) {
      InsertWorkerSorted(w, ws[1..]);
      BeforeIsNotAfter(ws[0], w);
      BeforeInserted(ws[0], w, ws[1..]);
    } else {
      NotBeforeIsNotAfter(ws[0], w);
      forall j | 0 <= j < |ws| ensures NotAfter(w, ws[j]) {
        if j > 0 { NotAfterTransitive(w, ws[0], ws[j]); }
      }
    }
  }

  lemma {:induction false} NotBeforeIsNotAfter(v: Worker, w: Worker)
    requires !WorkerBefore(v, w)
    ensures NotAfter(w, v)
  {}

  lemma {:induction false} BeforeIsNotAfter(v: Worker, w: Worker)
    requires WorkerBefore(v, w)
    ensures NotAfter(v, w)
  {
    IdsTotal(Ids(v), Ids(w));
  }

  lemma {:induction false} SortWorkersSorted(ws: seq<Worker>)
    ensures WorkersSorted(SortWorkers(ws)) && multiset(SortWorkers(ws)) == multiset(ws)
  {
    if ws != [] {
      SortWorkersSorted(ws[1..]);
      InsertWorkerSorted(ws[0], SortWorkers(ws[1..]));
      InsertWorkerHolds(ws[0], SortWorkers(ws[1..]));
      assert ws == [ws[0]] + ws[1..];
    }
  }

  /** Workers with the same ids are the same, up to the order of their roles and capabilities. */
  predicate NoTies(ws: seq<Worker>) {
    forall i, j :: 0 <= i < j < |ws| && Ids(ws[i]) == Ids(ws[j]) ==> CanonicalWorker(ws[i]) == CanonicalWorker(ws[j])
  }

  /** The same for canonical workers, over what is in the list. */
  predicate Tieless(ws: multiset<Worker>) { forall v, w :: v in ws && w in ws && Ids(v) == Ids(w) ==> v == w }

  lemma {:induction false} HeadsAgree(a: seq<Worker>, b: seq<Worker>)
    requires WorkersSorted(a) && WorkersSorted(b) && a != [] && multiset(a) == multiset(b) && Tieless(multiset(a))
    ensures b != [] && a[0] == b[0]
  {
    assert a[0] in multiset(b);
    assert b[0] in multiset(a);
    var i :| 0 <= i < |b| && b[i] == a[0];
    var j :| 0 <= j < |a| && a[j] == b[0];
    IdsTotal(Ids(a[0]), Ids(b[0]));
  }

  lemma {:induction false} WorkersUnique(a: seq<Worker>, b: seq<Worker>)
    requires WorkersSorted(a) && WorkersSorted(b) && multiset(a) == multiset(b) && Tieless(multiset(a))
    ensures a == b
  {
    assert |multiset(a)| == |a| && |multiset(b)| == |b|;
    if a != [] {
      HeadsAgree(a, b);
      assert a == [a[0]] + a[1..] && b == [b[0]] + b[1..];
      assert multiset(a[1..]) == multiset(a) - multiset{a[0]};
      assert multiset(b[1..]) == multiset(b) - multiset{b[0]};
      WorkersUnique(a[1..], b[1..]);
    }
  }

  lemma {:induction false} TielessCanonical(ws: seq<Worker>)
    ensures NoTies(ws) <==> Tieless(multiset(CanonicalEach(ws)))
  {
    var cs := CanonicalEach(ws);
    forall i | 0 <= i < |ws| ensures Ids(cs[i]) == Ids(ws[i]) && cs[i] in multiset(cs) { CanonicalHolds(ws[i]); }
    if NoTies(ws) {
      forall v, w | v in multiset(cs) && w in multiset(cs) && Ids(v) == Ids(w) ensures v == w {
        var i :| 0 <= i < |cs| && cs[i] == v;
        var j :| 0 <= j < |cs| && cs[j] == w;
        assert Ids(ws[i]) == Ids(ws[j]);
        if i < j { assert CanonicalWorker(ws[i]) == CanonicalWorker(ws[j]); } else if j < i { assert CanonicalWorker(ws[j]) == CanonicalWorker(ws[i]); }
      }
    }
  }

  /** Reordered rosters without ties sort to the same canonical list. */
  lemma {:induction false} SameSorted(ws: seq<Worker>, vs: seq<Worker>)
    requires NoTies(ws) && SameRoster(ws, vs)
    ensures CanonicalEach(SortWorkers(ws)) == CanonicalEach(SortWorkers(vs))
  {
    TielessCanonical(ws);
    SortCanonical(ws);
    SortCanonical(vs);
    hide NoTies, Tieless;
    SortWorkersSorted(CanonicalEach(ws));
    SortWorkersSorted(CanonicalEach(vs));
    WorkersUnique(SortWorkers(CanonicalEach(ws)), SortWorkers(CanonicalEach(vs)));
  }

  // ---- ties keep the order they came in ----

  function WithIds(ws: seq<Worker>, ids: seq<Text>): seq<Worker> {
    if ws == [] then [] else (if Ids(ws[0]) == ids then [ws[0]] else []) + WithIds(ws[1..], ids)
  }

  lemma {:induction false} InsertStable(w: Worker, ws: seq<Worker>, ids: seq<Text>)
    ensures WithIds(InsertWorker(w, ws), ids) == WithIds([w] + ws, ids)
  {
    assert ([w] + ws)[1..] == ws;
    if ws != [] && WorkerBefore(ws[0], w) {
      IdsTotal(Ids(ws[0]), Ids(w));
      InsertStable(w, ws[1..], ids);
      assert ([w] + ws[1..])[1..] == ws[1..];
    }
  }

  lemma {:induction false} SortStable(ws: seq<Worker>, ids: seq<Text>)
    ensures WithIds(SortWorkers(ws), ids) == WithIds(ws, ids)
  {
    if ws != [] {
      SortStable(ws[1..], ids);
      InsertStable(ws[0], SortWorkers(ws[1..]), ids);
      assert ws == [ws[0]] + ws[1..] && ([ws[0]] + SortWorkers(ws[1..]))[1..] == SortWorkers(ws[1..]);
    }
  }

  lemma {:induction false} TiedFirst(v: Worker, w: Worker, rest: seq<Worker>)
    requires Ids(v) == Ids(w) && CanonicalWorker(v) != CanonicalWorker(w)
    ensures CanonicalEach(SortWorkers([v, w] + rest)) != CanonicalEach(SortWorkers([w, v] + rest))
  {
    var a, b := CanonicalEach([v, w] + rest), CanonicalEach([w, v] + rest);
    SortCanonical([v, w] + rest);
    SortCanonical([w, v] + rest);
    CanonicalHolds(v);
    CanonicalHolds(w);
    SortStable(a, Ids(v));
    SortStable(b, Ids(v));
    assert WithIds(a, Ids(v))[0] == CanonicalWorker(v) && WithIds(b, Ids(v))[0] == CanonicalWorker(w);
  }

  // ---- the fingerprint of a roster as it comes ----

  function CanonicalEntry(e: RosterEntry): RosterEntry { if e.Listed? then Listed(CanonicalWorker(e.worker)) else e }

  function CanonicalEntries(es: seq<RosterEntry>): (r: seq<RosterEntry>)
    ensures |r| == |es| && forall i :: 0 <= i < |es| ==> r[i] == CanonicalEntry(es[i])
  {
    if es == [] then [] else [CanonicalEntry(es[0])] + CanonicalEntries(es[1..])
  }

  /** The same entries in any order, their roles and capabilities in any order. */
  predicate SameEntries(a: seq<RosterEntry>, b: seq<RosterEntry>) { multiset(CanonicalEntries(a)) == multiset(CanonicalEntries(b)) }

  /** Too many entries, or none; or all readable and without ties; or none readable. */
  predicate OrderFree(bound: (nat, nat), es: seq<RosterEntry>) {
    || !(1 <= |es| <= MAX_TRUSTED_WORKERS)
    || (AllReadable(bound, es) && NoTies(Kept(bound, es)))
    || (forall i :: 0 <= i < |es| ==> !Readable(bound, es[i]))
  }

  lemma {:induction false} ReadableCanonical(bound: (nat, nat), e: RosterEntry)
    ensures Readable(bound, CanonicalEntry(e)) <==> Readable(bound, e)
  {
    if e.Listed? {
      SortNatsHolds(e.worker.roles);
      SortNatsHolds(e.worker.capabilities);
      assert |multiset(SortNats(e.worker.roles))| == |SortNats(e.worker.roles)| && |multiset(e.worker.roles)| == |e.worker.roles|;
      assert |multiset(SortNats(e.worker.capabilities))| == |SortNats(e.worker.capabilities)|
        && |multiset(e.worker.capabilities)| == |e.worker.capabilities|;
    }
  }

  /** Some entry of b is, up to order, that entry of a. */
  lemma {:induction false} Counterpart(a: seq<RosterEntry>, b: seq<RosterEntry>, j: nat) returns (i: nat)
    requires SameEntries(a, b) && j < |b|
    ensures |a| == |b| && i < |a| && CanonicalEntry(a[i]) == CanonicalEntry(b[j])
  {
    assert |multiset(CanonicalEntries(a))| == |a| && |multiset(CanonicalEntries(b))| == |b|;
    assert CanonicalEntries(b)[j] in multiset(CanonicalEntries(b));
    assert CanonicalEntries(b)[j] in multiset(CanonicalEntries(a));
    i :| 0 <= i < |a| && CanonicalEntries(a)[i] == CanonicalEntries(b)[j];
  }

  lemma {:induction false} SameReadable(bound: (nat, nat), a: seq<RosterEntry>, b: seq<RosterEntry>)
    requires SameEntries(a, b)
    ensures |a| == |b|
    ensures AllReadable(bound, a) ==> AllReadable(bound, b)
    ensures (forall i :: 0 <= i < |a| ==> !Readable(bound, a[i])) ==> forall j :: 0 <= j < |b| ==> !Readable(bound, b[j])
  {
    assert |multiset(CanonicalEntries(a))| == |a| && |multiset(CanonicalEntries(b))| == |b|;
    forall j | 0 <= j < |b| ensures exists i :: 0 <= i < |a| && (Readable(bound, b[j]) <==> Readable(bound, a[i])) {
      var i := Counterpart(a, b, j);
      ReadableCanonical(bound, a[i]);
      ReadableCanonical(bound, b[j]);
    }
  }

  function Listing(ws: seq<Worker>): (r: seq<RosterEntry>)
    ensures |r| == |ws| && forall i :: 0 <= i < |ws| ==> r[i] == Listed(ws[i])
  {
    if ws == [] then [] else [Listed(ws[0])] + Listing(ws[1..])
  }

  lemma {:induction false} ListingCounts(ws: seq<Worker>, w: Worker)
    ensures multiset(Listing(ws))[Listed(w)] == multiset(ws)[w]
  {
    if ws != [] {
      ListingCounts(ws[1..], w);
      assert ws == [ws[0]] + ws[1..] && Listing(ws) == [Listed(ws[0])] + Listing(ws[1..]);
    }
  }

  lemma {:induction false} KeptCanonical(bound: (nat, nat), es: seq<RosterEntry>)
    requires AllReadable(bound, es)
    ensures |Kept(bound, es)| == |es| && Listing(CanonicalEach(Kept(bound, es))) == CanonicalEntries(es)
  {
    hide CanonicalWorker;
  }

  lemma {:induction false} ListingInjective(a: seq<Worker>, b: seq<Worker>)
    requires multiset(Listing(a)) == multiset(Listing(b))
    ensures multiset(a) == multiset(b)
  {
    forall w ensures multiset(a)[w] == multiset(b)[w] {
      ListingCounts(a, w);
      ListingCounts(b, w);
    }
  }

  /** Readable rosters with the same entries have the same workers. */
  lemma {:induction false} SameKept(bound: (nat, nat), a: seq<RosterEntry>, b: seq<RosterEntry>)
    requires SameEntries(a, b) && AllReadable(bound, a) && AllReadable(bound, b)
    ensures SameRoster(Kept(bound, a), Kept(bound, b))
  {
    KeptCanonical(bound, a);
    KeptCanonical(bound, b);
    hide Kept, CanonicalEach, Listing, CanonicalEntries;
    ListingInjective(CanonicalEach(Kept(bound, a)), CanonicalEach(Kept(bound, b)));
  }

  lemma {:induction false} OrderFreeSuffices(bound: (nat, nat), prompt: string, roles: seq<nat>, es: seq<RosterEntry>, others: seq<RosterEntry>)
    requires OrderFree(bound, es) && SameEntries(es, others)
    ensures PlanFingerprint(prompt, roles, Normalized(bound, es)) == PlanFingerprint(prompt, roles, Normalized(bound, others))
  {
    SameReadable(bound, es, others);
    hide SameEntries, Readable;
    if 1 <= |es| <= MAX_TRUSTED_WORKERS {
      if AllReadable(bound, es) && NoTies(Kept(bound, es)) {
        SameKept(bound, es, others);
        SameSorted(Kept(bound, es), Kept(bound, others));
      } else {
        assert Kept(bound, es) == [] && Kept(bound, others) == [];
      }
    }
  }

  /** RosterEntry i moved to the front. */
  function Fronted(es: seq<RosterEntry>, i: nat): seq<RosterEntry>
    requires i < |es|
  {
    [es[i]] + (es[..i] + es[i + 1..])
  }

  lemma {:induction false} FrontedSame(es: seq<RosterEntry>, i: nat)
    requires i < |es|
    ensures SameEntries(es, Fronted(es, i))
  {
    var cs, fs := CanonicalEntries(es), CanonicalEntries(Fronted(es, i));
    assert es == es[..i] + [es[i]] + es[i + 1..];
    assert cs == cs[..i] + [cs[i]] + cs[i + 1..];
    assert fs == [cs[i]] + (cs[..i] + cs[i + 1..]);
  }

  lemma {:induction false} FrontedKept(bound: (nat, nat), es: seq<RosterEntry>, i: nat)
    requires i < |es|
    ensures Kept(bound, Fronted(es, i)) == [] <==> !Readable(bound, es[i])
  {}

  function Others(es: seq<RosterEntry>, i: nat, j: nat): seq<RosterEntry>
    requires i < j < |es|
  {
    es[..i] + es[i + 1..j] + es[j + 1..]
  }

  lemma {:induction false} OthersAt(es: seq<RosterEntry>, i: nat, j: nat, k: nat)
    requires i < j < |es| && k < |es| - 2
    ensures |Others(es, i, j)| == |es| - 2
    ensures Others(es, i, j)[k] == es[if k < i then k else if k + 1 < j then k + 1 else k + 2]
  {}

  lemma {:induction false} OthersCanonical(es: seq<RosterEntry>, i: nat, j: nat)
    requires i < j < |es|
    ensures CanonicalEntries(Others(es, i, j)) == Others(CanonicalEntries(es), i, j)
  {
    hide CanonicalEntry, CanonicalEntries;
    var a, b := CanonicalEntries(Others(es, i, j)), Others(CanonicalEntries(es), i, j);
    assert |a| == |b|;
    forall k | 0 <= k < |a| ensures a[k] == b[k] {
      hide Others;
      OthersAt(es, i, j, k);
      OthersAt(CanonicalEntries(es), i, j, k);
    }
  }

  lemma {:induction false} OthersHold(es: seq<RosterEntry>, i: nat, j: nat)
    requires i < j < |es|
    ensures multiset(es) == multiset{es[i], es[j]} + multiset(Others(es, i, j))
  {
    assert es == es[..i] + [es[i]] + es[i + 1..j] + [es[j]] + es[j + 1..];
  }

  /** Two entries moved to the front, in either order. */
  lemma {:induction false} BothFronted(es: seq<RosterEntry>, i: nat, j: nat)
    requires i < j < |es|
    ensures SameEntries(es, [es[i], es[j]] + Others(es, i, j)) && SameEntries(es, [es[j], es[i]] + Others(es, i, j))
  {
    hide Others, CanonicalEntry;
    var cs := CanonicalEntries(es);
    OthersCanonical(es, i, j);
    OthersHold(cs, i, j);
    PairCanonical(es[i], es[j], Others(es, i, j));
    PairCanonical(es[j], es[i], Others(es, i, j));
  }

  lemma {:induction false} PairCanonical(a: RosterEntry, b: RosterEntry, rest: seq<RosterEntry>)
    ensures CanonicalEntries([a, b] + rest) == [CanonicalEntry(a), CanonicalEntry(b)] + CanonicalEntries(rest)
  {
    hide CanonicalEntry;
  }

  lemma {:induction false} PairKept(bound: (nat, nat), a: RosterEntry, b: RosterEntry, rest: seq<RosterEntry>)
    requires Readable(bound, a) && Readable(bound, b)
    ensures Kept(bound, [a, b] + rest) == [a.worker, b.worker] + Kept(bound, rest)
  {
    assert ([a, b] + rest)[1..] == [b] + rest && ([b] + rest)[1..] == rest;
  }

  lemma {:induction false} TiesShow(bound: (nat, nat), prompt: string, roles: seq<nat>, es: seq<RosterEntry>, i: nat, j: nat)
    requires i < j < |es| <= MAX_TRUSTED_WORKERS && AllReadable(bound, es)
    requires Ids(es[i].worker) == Ids(es[j].worker) && CanonicalWorker(es[i].worker) != CanonicalWorker(es[j].worker)
    ensures var rest := Others(es, i, j);
      PlanFingerprint(prompt, roles, Normalized(bound, [es[i], es[j]] + rest)) != PlanFingerprint(prompt, roles, Normalized(bound, [es[j], es[i]] + rest))
  {
    var rest := Others(es, i, j);
    hide CanonicalWorker, Ids;
    PairKept(bound, es[i], es[j], rest);
    PairKept(bound, es[j], es[i], rest);
    hide Kept, SortWorkers, CanonicalEach, Readable;
    TiedFirst(es[i].worker, es[j].worker, Kept(bound, rest));
  }

  lemma {:induction false} SortedLength(ws: seq<Worker>)
    ensures |CanonicalEach(SortWorkers(ws))| == |ws|
  {
    SortWorkersSorted(ws);
    assert |multiset(SortWorkers(ws))| == |SortWorkers(ws)| && |multiset(ws)| == |ws|;
  }

  lemma {:induction false} UnreadableShows(bound: (nat, nat), prompt: string, roles: seq<nat>, es: seq<RosterEntry>, i: nat, k: nat)
    requires i < |es| && k < |es| <= MAX_TRUSTED_WORKERS && !Readable(bound, es[i]) && Readable(bound, es[k])
    ensures PlanFingerprint(prompt, roles, Normalized(bound, Fronted(es, i))) != PlanFingerprint(prompt, roles, Normalized(bound, Fronted(es, k)))
  {
    FrontedKept(bound, es, i);
    FrontedKept(bound, es, k);
    SortedLength(Kept(bound, Fronted(es, i)));
    SortedLength(Kept(bound, Fronted(es, k)));
    hide Kept, SortWorkers, CanonicalEach, Readable;
  }

  /** A roster whose order shows: two orders of it with different fingerprints. */
  lemma {:induction false} OrderShows(bound: (nat, nat), prompt: string, roles: seq<nat>, es: seq<RosterEntry>)
    returns (a: seq<RosterEntry>, b: seq<RosterEntry>)
    requires !OrderFree(bound, es)
    ensures SameEntries(es, a) && SameEntries(es, b)
    ensures PlanFingerprint(prompt, roles, Normalized(bound, a)) != PlanFingerprint(prompt, roles, Normalized(bound, b))
  {
    hide SameEntries, PlanFingerprint, Normalized, Fronted, Others, Ids, CanonicalWorker;
    if !AllReadable(bound, es) {
      var i :| 0 <= i < |es| && !Readable(bound, es[i]);
      var k :| 0 <= k < |es| && Readable(bound, es[k]);
      FrontedSame(es, i);
      FrontedSame(es, k);
      UnreadableShows(bound, prompt, roles, es, i, k);
      a, b := Fronted(es, i), Fronted(es, k);
    } else {
      var ws := Kept(bound, es);
      var i, j :| 0 <= i < j < |ws| && Ids(ws[i]) == Ids(ws[j]) && CanonicalWorker(ws[i]) != CanonicalWorker(ws[j]);
      BothFronted(es, i, j);
      TiesShow(bound, prompt, roles, es, i, j);
      a, b := [es[i], es[j]] + Others(es, i, j), [es[j], es[i]] + Others(es, i, j);
    }
  }

  /** The fingerprint does not depend on any order in the roster, exactly if the roster is order
    * free: as it comes, every entry can be read and no two workers with the same four ids differ
    * (or none can be read, or the roster has no or too many entries). */
  lemma {:induction false} FingerprintOrderIndependent(bound: (nat, nat), prompt: string, roles: seq<nat>, es: seq<RosterEntry>)
    ensures OrderFree(bound, es) <==>
      forall others :: SameEntries(es, others) ==>
        PlanFingerprint(prompt, roles, Normalized(bound, es)) == PlanFingerprint(prompt, roles, Normalized(bound, others))
  {
    hide OrderFree, SameEntries, PlanFingerprint, Normalized;
    if OrderFree(bound, es) {
      forall others | SameEntries(es, others)
        ensures PlanFingerprint(prompt, roles, Normalized(bound, es)) == PlanFingerprint(prompt, roles, Normalized(bound, others))
      {
        OrderFreeSuffices(bound, prompt, roles, es, others);
      }
    } else {
      var a, b := OrderShows(bound, prompt, roles, es);
    }
  }

  // ---- the search does not see the order of roles and capabilities ----

  lemma {:induction false} EligibleCanonical(catalog: Catalog, w: Worker, role: nat)
    ensures Eligible(catalog, CanonicalWorker(w), role) <==> Eligible(catalog, w, role)
  {
    CanonicalHolds(w);
  }

  lemma {:induction false} CandidatesCanonical(catalog: Catalog, ws: seq<Worker>, role: nat)
    ensures Candidates(catalog, CanonicalEach(ws), role) == CanonicalEach(Candidates(catalog, ws, role))
  {
    if ws != [] {
      EligibleCanonical(catalog, ws[0], role);
      CandidatesCanonical(catalog, ws[1..], role);
      assert CanonicalEach(ws)[1..] == CanonicalEach(ws[1..]);
      var rest := Candidates(catalog, ws[1..], role);
      assert CanonicalEach([ws[0]] + rest) == [CanonicalWorker(ws[0])] + CanonicalEach(rest) by {
        assert ([ws[0]] + rest)[1..] == rest;
      }
      assert [] + rest == rest;
    }
  }

  function CanonicalSlot(s: Slot): Slot { s.(workers := CanonicalEach(s.workers)) }

  function CanonicalSlots(slots: seq<Slot>): (r: seq<Slot>)
    ensures |r| == |slots| && forall i :: 0 <= i < |slots| ==> r[i] == CanonicalSlot(slots[i])
  {
    if slots == [] then [] else [CanonicalSlot(slots[0])] + CanonicalSlots(slots[1..])
  }

  lemma {:induction false} InsertSlotCanonical(a: Slot, slots: seq<Slot>)
    ensures CanonicalSlots(InsertSlot(a, slots)) == InsertSlot(CanonicalSlot(a), CanonicalSlots(slots))
  {
    if slots != [] && SlotBefore(slots[0], a) {
      InsertSlotCanonical(a, slots[1..]);
      assert CanonicalSlots(slots)[1..] == CanonicalSlots(slots[1..]);
    }
  }

  lemma {:induction false} SortSlotsCanonical(slots: seq<Slot>)
    ensures CanonicalSlots(SortSlots(slots)) == SortSlots(CanonicalSlots(slots))
  {
    if slots != [] {
      SortSlotsCanonical(slots[1..]);
      InsertSlotCanonical(slots[0], SortSlots(slots[1..]));
      assert CanonicalSlots(slots)[1..] == CanonicalSlots(slots[1..]);
    }
  }

  function CanonicalLists(order: seq<seq<Worker>>): (r: seq<seq<Worker>>)
    ensures |r| == |order| && forall i :: 0 <= i < |order| ==> r[i] == CanonicalEach(order[i])
  {
    if order == [] then [] else [CanonicalEach(order[0])] + CanonicalLists(order[1..])
  }

  function CanonicalChoice(r: Option<seq<Worker>>): Option<seq<Worker>> {
    if r.Some? then Some(CanonicalEach(r.value)) else None
  }

  lemma {:induction false} VisitCanonical(order: seq<seq<Worker>>, used: set<Text>)
    ensures Visit(CanonicalLists(order), used) == CanonicalChoice(Visit(order, used))
    decreases |order|, 1, 0
  {
    if order != [] {
      TryCanonical(order[0], order[1..], used);
      assert CanonicalLists(order)[1..] == CanonicalLists(order[1..]);
    }
  }

  lemma {:induction false} TryCanonical(candidates: seq<Worker>, rest: seq<seq<Worker>>, used: set<Text>)
    ensures TryEach(CanonicalEach(candidates), CanonicalLists(rest), used) == CanonicalChoice(TryEach(candidates, rest, used))
    decreases |rest| + 1, 0, |candidates|
  {
    if candidates != [] {
      TryCanonical(candidates[1..], rest, used);
      assert CanonicalEach(candidates)[1..] == CanonicalEach(candidates[1..]);
      if candidates[0].identity !in used {
        VisitCanonical(rest, used + {candidates[0].identity});
        var r := Visit(rest, used + {candidates[0].identity});
        if r.Some? { assert CanonicalEach([candidates[0]] + r.value) == [CanonicalWorker(candidates[0])] + CanonicalEach(r.value); }
      }
    }
  }

  lemma {:induction false} OrderCanonical(catalog: Catalog, sorted: seq<Worker>, roles: seq<nat>)
    ensures Slots(catalog, CanonicalEach(sorted), roles) == CanonicalSlots(Slots(catalog, sorted, roles))
  {
    forall i | 0 <= i < |roles| ensures Slots(catalog, CanonicalEach(sorted), roles)[i] == CanonicalSlots(Slots(catalog, sorted, roles))[i] {
      CandidatesCanonical(catalog, sorted, roles[i]);
    }
  }

  /** The search from a list already sorted. */
  function AssignSorted(catalog: Catalog, sorted: seq<Worker>, roles: seq<nat>): Option<map<nat, Worker>> {
    var order := SortSlots(Slots(catalog, sorted, roles));
    match Visit(Lists(order), {})
    case None => None
    case Some(chosen) => if |chosen| == |order| then Some(Assignment(order, chosen)) else None
  }

  function CanonicalMap(m: map<nat, Worker>): map<nat, Worker> { map r | r in m :: CanonicalWorker(m[r]) }

  lemma {:induction false} AssignmentCanonical(slots: seq<Slot>, chosen: seq<Worker>)
    requires |slots| == |chosen|
    ensures Assignment(CanonicalSlots(slots), CanonicalEach(chosen)) == CanonicalMap(Assignment(slots, chosen))
  {
    if slots != [] {
      AssignmentCanonical(slots[1..], chosen[1..]);
      assert CanonicalSlots(slots)[1..] == CanonicalSlots(slots[1..]) && CanonicalEach(chosen)[1..] == CanonicalEach(chosen[1..]);
    }
  }

  lemma {:induction false} AssignCanonical(catalog: Catalog, sorted: seq<Worker>, roles: seq<nat>)
    ensures var r := AssignSorted(catalog, sorted, roles);
      AssignSorted(catalog, CanonicalEach(sorted), roles) == if r.Some? then Some(CanonicalMap(r.value)) else None
  {
    var slots := Slots(catalog, sorted, roles);
    var order := SortSlots(slots);
    OrderCanonical(catalog, sorted, roles);
    SortSlotsCanonical(slots);
    assert Lists(CanonicalSlots(order)) == CanonicalLists(Lists(order));
    VisitCanonical(Lists(order), {});
    var r := Visit(Lists(order), {});
    if r.Some? && |r.value| == |order| { AssignmentCanonical(order, r.value); }
  }

  lemma {:induction false} RequestsCanonical(roles: seq<nat>, m: map<nat, Worker>)
    requires forall i :: 0 <= i < |roles| ==> roles[i] in m
    ensures Requests(roles, CanonicalMap(m)) == Requests(roles, m)
  {
    forall i | 0 <= i < |roles| ensures Requests(roles, CanonicalMap(m))[i] == Requests(roles, m)[i] { CanonicalHolds(m[roles[i]]); }
  }

  /** Assignments that agree up to the order of roles and capabilities give the same requests. */
  function PlanOf(roles: seq<nat>, r: Option<map<nat, Worker>>): Plan {
    match r
    case None => Blocked
    case Some(m) => if forall i :: 0 <= i < |roles| ==> roles[i] in m then Planned(Requests(roles, m)) else Blocked
  }

  lemma {:induction false} PlanOfCanonical(roles: seq<nat>, r: Option<map<nat, Worker>>)
    ensures PlanOf(roles, if r.Some? then Some(CanonicalMap(r.value)) else None) == PlanOf(roles, r)
  {
    if r.Some? && forall i :: 0 <= i < |roles| ==> roles[i] in r.value { RequestsCanonical(roles, r.value); }
  }

  // ---- a reordered roster is as valid ----

  lemma {:induction false} PairIn(ws: seq<Worker>, i: nat, j: nat)
    requires i < j < |ws|
    ensures multiset{ws[i], ws[j]} <= multiset(ws)
  {
    assert ws == ws[..i] + [ws[i]] + ws[i + 1..j] + [ws[j]] + ws[j + 1..];
  }

  lemma {:induction false} Without(ws: seq<Worker>, k: nat)
    requires k < |ws|
    ensures multiset(ws) == multiset(ws[..k] + ws[k + 1..]) + multiset{ws[k]}
  {
    assert ws == ws[..k] + [ws[k]] + ws[k + 1..];
  }

  lemma {:induction false} PairOf(ws: seq<Worker>, v: Worker, w: Worker) returns (k: nat, l: nat)
    requires multiset{v, w} <= multiset(ws)
    ensures k < |ws| && l < |ws| && k != l && ws[k] == v && ws[l] == w
  {
    assert v in multiset(ws);
    k :| 0 <= k < |ws| && ws[k] == v;
    Without(ws, k);
    var others := ws[..k] + ws[k + 1..];
    assert multiset{v, w}[w] <= multiset(ws)[w];
    assert w in multiset(others);
    var m :| 0 <= m < |others| && others[m] == w;
    l := if m < k then m else m + 1;
  }

  lemma {:induction false} SoundCanonical(catalog: Catalog, w: Worker)
    ensures SoundWorker(catalog, CanonicalWorker(w)) <==> SoundWorker(catalog, w)
  {
    var c := CanonicalWorker(w);
    CanonicalHolds(w);
    SortNatsHolds(w.roles);
    SortNatsHolds(w.capabilities);
    assert |multiset(c.roles)| == |c.roles| && |multiset(w.roles)| == |w.roles|;
    assert |multiset(c.capabilities)| == |c.capabilities| && |multiset(w.capabilities)| == |w.capabilities|;
    forall k ensures Covers(catalog, c.roles, k) <==> Covers(catalog, w.roles, k) {}
    hide Covers, OpaqueId, CanonicalWorker;
  }

  lemma {:induction false} ValidInAnyOrder(catalog: Catalog, ws: seq<Worker>, vs: seq<Worker>)
    requires ValidRoster(catalog, ws) && SameRoster(ws, vs)
    ensures ValidRoster(catalog, vs)
  {
    var cw, cv := CanonicalEach(ws), CanonicalEach(vs);
    hide SoundWorker;
    assert |multiset(cw)| == |ws| && |multiset(cv)| == |vs|;
    forall i | 0 <= i < |vs| ensures SoundWorker(catalog, vs[i]) {
      assert cv[i] in multiset(cw);
      var k :| 0 <= k < |cw| && cw[k] == cv[i];
      SoundCanonical(catalog, ws[k]);
      SoundCanonical(catalog, vs[i]);
    }
    forall i, j | 0 <= i < j < |vs| ensures Independent(vs[i], vs[j]) {
      PairIn(cv, i, j);
      var k, l := PairOf(cw, cv[i], cv[j]);
      CanonicalHolds(vs[i]);
      CanonicalHolds(vs[j]);
      CanonicalHolds(ws[k]);
      CanonicalHolds(ws[l]);
      if k < l { assert Independent(ws[k], ws[l]); } else { assert Independent(ws[l], ws[k]); }
    }
  }

  lemma {:induction false} ValidHasNoTies(catalog: Catalog, ws: seq<Worker>)
    requires ValidRoster(catalog, ws)
    ensures NoTies(ws)
  {
    hide SoundWorker, CanonicalWorker;
    forall i, j | 0 <= i < j < |ws| ensures Ids(ws[i]) != Ids(ws[j]) {
      assert Independent(ws[i], ws[j]);
      assert Ids(ws[i])[0] != Ids(ws[j])[0];
    }
  }

  /** Listing the same workers in another order, with their roles and capabilities in any
    * order, gives the same plan, request for request. */
  lemma {:induction false} SamePlan(catalog: Catalog, roles: seq<nat>, ws: seq<Worker>, vs: seq<Worker>)
    requires SameRoster(ws, vs)
    ensures CreatePlan(catalog, roles, ws) == CreatePlan(catalog, roles, vs)
  {
    if ValidRoster(catalog, ws) { ValidInAnyOrder(catalog, ws, vs); }
    if ValidRoster(catalog, vs) { ValidInAnyOrder(catalog, vs, ws); }
    PlanIs(catalog, roles, ws);
    PlanIs(catalog, roles, vs);
    if ValidRoster(catalog, ws) {
      ValidHasNoTies(catalog, ws);
      SameSorted(ws, vs);
      AssignCanonical(catalog, SortWorkers(ws), roles);
      AssignCanonical(catalog, SortWorkers(vs), roles);
      PlanOfCanonical(roles, AssignSorted(catalog, SortWorkers(ws), roles));
      PlanOfCanonical(roles, AssignSorted(catalog, SortWorkers(vs), roles));
      assert |multiset(CanonicalEach(ws))| == |ws| && |multiset(CanonicalEach(vs))| == |vs|;
    }
    hide CreatePlan, AssignSorted, PlanOf, ValidRoster, DistinctRoles, SameRoster;
  }

  /** The same, for every roster as it comes: whatever the entries, their order and the order within
    * them never show in the plan. */
  lemma {:induction false} PlanOrderIndependent(catalog: Catalog, bound: (nat, nat), roles: seq<nat>, es: seq<RosterEntry>, others: seq<RosterEntry>)
    requires SameEntries(es, others)
    ensures CreatePlanFrom(catalog, bound, roles, es) == CreatePlanFrom(catalog, bound, roles, others)
  {
    SameReadable(bound, es, others);
    SameReadable(bound, others, es);
    hide SameEntries, CreatePlan, Kept;
    if AllReadable(bound, es) {
      SameKept(bound, es, others);
      SamePlan(catalog, roles, Kept(bound, es), Kept(bound, others));
    }
  }

  lemma {:induction false} PlanIs(catalog: Catalog, roles: seq<nat>, ws: seq<Worker>)
    ensures CreatePlan(catalog, roles, ws) ==
      if !Answerable(catalog, roles, ws) || |roles| > |ws| then Blocked else PlanOf(roles, AssignSorted(catalog, SortWorkers(ws), roles))
  {}
}
