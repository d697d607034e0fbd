/** Principal-scoped keyset paging over the newest-first job list. */
module JobPaging {
  import opened Prelude
  import opened AgentJobs

  datatype Principal = Principal(tenantId: string, requesterId: string)

  /** search and prompts are compared as they are; case folding is done before. */
  datatype Query = Query(search: string, status: Option<Status>, ids: Option<set<string>>)

  predicate Owns(p: Principal, job: Job) { job.tenantId == Some(p.tenantId) && job.requesterId == p.requesterId }

  predicate Contains(text: string, part: string) {
    exists i, j :: 0 <= i <= j <= |text| && text[i..j] == part
  }

  predicate Asked(q: Query, job: Job) {
    && (q.search == "" || Contains(job.prompt, q.search))
    && (q.status.Some? ==> job.status == q.status.value)
    && (q.ids.Some? ==> job.id in q.ids.value)
  }

  function Owned(jobs: seq<Job>, p: Principal): seq<Job> {
    if jobs == [] then [] else (if Owns(p, jobs[0]) then [jobs[0]] else []) + Owned(jobs[1..], p)
  }

  lemma {:induction false} OwnedHolds(jobs: seq<Job>, p: Principal)
    ensures forall j :: j in Owned(jobs, p) <==> j in jobs && Owns(p, j)
  {
    if jobs != [] {
      OwnedHolds(jobs[1..], p);
      assert jobs == [jobs[0]] + jobs[1..];
    }
  }

  function Filter(jobs: seq<Job>, q: Query): (r: seq<Job>)
    ensures |r| <= |jobs|
  {
    if jobs == [] then [] else (if Asked(q, jobs[0]) then [jobs[0]] else []) + Filter(jobs[1..], q)
  }

  lemma {:induction false} FilterHolds(jobs: seq<Job>, q: Query)
    ensures forall j :: j in Filter(jobs, q) <==> j in jobs && Asked(q, j)
  {
    if jobs != [] {
      FilterHolds(jobs[1..], q);
      assert jobs == [jobs[0]] + jobs[1..];
    }
  }

  function IndexOf(jobs: seq<Job>, id: string): (i: nat)
    ensures i <= |jobs|
    ensures i < |jobs| ==> jobs[i].id == id
    ensures forall j :: 0 <= j < i ==> jobs[j].id != id
  {
    if jobs == [] || jobs[0].id == id then 0 else 1 + IndexOf(jobs[1..], id)
  }

  datatype Page = Page(jobs: seq<Job>, next: Option<string>) | InvalidCursor

  /** The owner's jobs from the cursor on. */
  function After(jobs: seq<Job>, p: Principal, cursor: Option<string>): Option<seq<Job>> {
    var owned := Owned(jobs, p);
    if cursor.None? then Some(owned)
    else
      var i := IndexOf(owned, cursor.value);
      if i == |owned| then None else Some(owned[i + 1..])
  }

  function ListPage(jobs: seq<Job>, p: Principal, q: Query, limit: nat, cursor: Option<string>): Page
    requires 1 <= limit <= 100
  {
    match After(jobs, p, cursor)
    case None => InvalidCursor
    case Some(rest) =>
      var candidates := Filter(rest, q);
      if |candidates| > limit then Page(candidates[..limit], Some(candidates[limit - 1].id)) else Page(candidates, None)
  }

  /** A page shows only the owner's matching jobs, and a cursor is accepted exactly if it
    * names one of the owner's jobs. */
  lemma {:induction false} PageIsScoped(jobs: seq<Job>, p: Principal, q: Query, limit: nat, cursor: Option<string>)
    requires 1 <= limit <= 100
    ensures ListPage(jobs, p, q, limit, cursor).InvalidCursor? <==>
      cursor.Some? && forall j :: j in jobs && Owns(p, j) ==> j.id != cursor.value
    ensures var page := ListPage(jobs, p, q, limit, cursor);
      page.Page? ==> |page.jobs| <= limit && forall j :: j in page.jobs ==> j in jobs && Owns(p, j) && Asked(q, j)
  {
    var owned := Owned(jobs, p);
    OwnedHolds(jobs, p);
    if After(jobs, p, cursor).Some? { FilterHolds(After(jobs, p, cursor).value, q); }
    if cursor.Some? {
      var i := IndexOf(owned, cursor.value);
      if i == |owned| {
        forall j | j in jobs && Owns(p, j) ensures j.id != cursor.value {
          assert j in owned;
          var k :| 0 <= k < |owned| && owned[k] == j;
        }
      } else {
        assert owned[i] in owned;
        assert forall j :: j in owned[i + 1..] ==> j in owned;
      }
    }
  }

  // ---- following cursors while new jobs arrive ----

  /** All pages, with inserts[k] new jobs put at the head after page k; None if inserts ends first. */
  function Follow(jobs: seq<Job>, p: Principal, q: Query, limit: nat, cursor: Option<string>, inserts: seq<seq<Job>>): Option<seq<Job>>
    requires 1 <= limit <= 100
    decreases |inserts|
  {
    var page := ListPage(jobs, p, q, limit, cursor);
    if page.InvalidCursor? then None
    else if page.next.None? then Some(page.jobs)
    else if inserts == [] then None
    else
      match Follow(inserts[0] + jobs, p, q, limit, page.next, inserts[1..])
      case None => None
      case Some(others) => Some(page.jobs + others)
  }

  /** No job is inserted twice, and none takes an existing id. */
  predicate FreshInserts(jobs: seq<Job>, inserts: seq<seq<Job>>)
    decreases |inserts|
  {
    DistinctIds(jobs) && (inserts != [] ==> FreshInserts(inserts[0] + jobs, inserts[1..]))
  }

  lemma {:induction false} OwnedConcat(a: seq<Job>, b: seq<Job>, p: Principal)
    ensures Owned(a + b, p) == Owned(a, p) + Owned(b, p)
  {
    if a == [] {
      assert a + b == b;
    } else {
      assert (a + b)[1..] == a[1..] + b;
      OwnedConcat(a[1..], b, p);
    }
  }

  lemma {:induction false} FilterConcat(a: seq<Job>, b: seq<Job>, q: Query)
    ensures Filter(a + b, q) == Filter(a, q) + Filter(b, q)
  {
    if a == [] {
      assert a + b == b;
    } else {
      assert (a + b)[1..] == a[1..] + b;
      FilterConcat(a[1..], b, q);
    }
  }

  lemma {:induction false} OwnedDistinct(jobs: seq<Job>, p: Principal)
    requires DistinctIds(jobs)
    ensures DistinctIds(Owned(jobs, p))
  {
    if jobs != [] {
      assert forall i :: 0 <= i < |jobs[1..]| ==> jobs[1..][i] == jobs[i + 1];
      OwnedDistinct(jobs[1..], p);
      var rest := Owned(jobs[1..], p);
      forall i | 0 <= i < |rest| ensures rest[i].id != jobs[0].id {
        OwnedHolds(jobs[1..], p);
        assert rest[i] in jobs[1..];
      }
    }
  }

  lemma {:induction false} IndexAt(jobs: seq<Job>, k: nat)
    requires DistinctIds(jobs) && k < |jobs|
    ensures IndexOf(jobs, jobs[k].id) == k
  {}

  /** New jobs at the head do not move what follows a cursor. */
  lemma {:induction false} AfterStable(added: seq<Job>, jobs: seq<Job>, p: Principal, id: string)
    requires DistinctIds(added + jobs) && After(jobs, p, Some(id)).Some?
    ensures After(added + jobs, p, Some(id)) == After(jobs, p, Some(id))
  {
    hide Owned, Owns, DistinctIds;
    var owned, all := Owned(jobs, p), Owned(added + jobs, p);
    OwnedConcat(added, jobs, p);
    OwnedDistinct(added + jobs, p);
    var i, n := IndexOf(owned, id), |Owned(added, p)|;
    assert all[n + i] == owned[i];
    IndexAt(all, n + i);
    assert all[n + i + 1..] == owned[i + 1..];
  }

  /** What a filter kept, found again in the list: the candidates after it are those of the
    * list after it. */
  lemma {:induction false} FilterSplit(rest: seq<Job>, q: Query, n: nat) returns (i: nat)
    requires n < |Filter(rest, q)|
    ensures i < |rest| && rest[i] == Filter(rest, q)[n]
    ensures Filter(rest[i + 1..], q) == Filter(rest, q)[n + 1..]
  {
    FilterHead(rest, q);
    hide Asked, Filter;
    var shown, tail := if Asked(q, rest[0]) then [rest[0]] else [], rest[1..];
    if n < |shown| {
      i := 0;
      assert (shown + Filter(tail, q))[1..] == Filter(tail, q);
    } else {
      var k := FilterSplit(tail, q, n - |shown|);
      i := k + 1;
      assert rest[i + 1..] == tail[k + 1..];
      assert (shown + Filter(tail, q))[n + 1..] == Filter(tail, q)[n - |shown| + 1..];
    }
  }

  lemma {:induction false} FilterHead(rest: seq<Job>, q: Query)
    requires |Filter(rest, q)| > 0
    ensures rest != [] && Filter(rest, q) == (if Asked(q, rest[0]) then [rest[0]] else []) + Filter(rest[1..], q)
  {
    hide Asked;
  }

  /** The id of the nth candidate leads back to the place after it. */
  lemma {:induction false} NextCandidates(owned: seq<Job>, skip: nat, q: Query, n: nat)
    requires DistinctIds(owned) && skip <= |owned| && n < |Filter(owned[skip..], q)|
    ensures var i := IndexOf(owned, Filter(owned[skip..], q)[n].id);
      i < |owned| && Filter(owned[i + 1..], q) == Filter(owned[skip..], q)[n + 1..]
  {
    hide Asked, Filter;
    var i := FilterSplit(owned[skip..], q, n);
    IndexAt(owned, skip + i);
    assert owned[skip + i + 1..] == owned[skip..][i + 1..];
  }

  /** The cursor of a page stands where the page ended. */
  lemma {:induction false} CursorPlace(jobs: seq<Job>, p: Principal, q: Query, limit: nat, cursor: Option<string>)
    requires 1 <= limit <= 100 && DistinctIds(jobs)
    requires ListPage(jobs, p, q, limit, cursor).Page? && ListPage(jobs, p, q, limit, cursor).next.Some?
    ensures var page := ListPage(jobs, p, q, limit, cursor);
      && After(jobs, p, page.next).Some?
      && Filter(After(jobs, p, page.next).value, q) == Filter(After(jobs, p, cursor).value, q)[limit..]
  {
    hide Asked, Owns, Owned, Filter, IndexOf, DistinctIds;
    var owned := Owned(jobs, p);
    OwnedDistinct(jobs, p);
    var skip := if cursor.None? then 0 else IndexOf(owned, cursor.value) + 1;
    assert After(jobs, p, cursor).value == owned[skip..];
    NextCandidates(owned, skip, q, limit - 1);
  }

  /** Following the cursors to the end, with any new jobs at the head between the pages,
    * gives exactly the jobs that matched when the first page was read, in order: none
    * twice, none skipped, none of the new ones. */
  lemma {:induction false} FollowExact(jobs: seq<Job>, p: Principal, q: Query, limit: nat, cursor: Option<string>, inserts: seq<seq<Job>>)
    requires 1 <= limit <= 100 && FreshInserts(jobs, inserts) && After(jobs, p, cursor).Some?
    ensures var r, expected := Follow(jobs, p, q, limit, cursor, inserts), Filter(After(jobs, p, cursor).value, q);
      && (r.Some? ==> r.value == expected)
      && (|inserts| * limit >= |expected| ==> r.Some?)
    decreases |inserts|
  {
    hide Asked, Owns, Owned, Filter, IndexOf, After;
    var page := ListPage(jobs, p, q, limit, cursor);
    var expected := Filter(After(jobs, p, cursor).value, q);
    if page.next.Some? && inserts != [] {
      CursorPlace(jobs, p, q, limit, cursor);
      AfterStable(inserts[0], jobs, p, page.next.value) by { assert FreshInserts(inserts[0] + jobs, inserts[1..]); }
      FollowExact(inserts[0] + jobs, p, q, limit, page.next, inserts[1..]);
      assert expected == expected[..limit] + expected[limit..];
      if |inserts| * limit >= |expected| { assert (|inserts| - 1) * limit >= |expected| - limit; }
    }
  }

  /** The first page's own matching set. */
  lemma {:induction false} PagingIsStable(jobs: seq<Job>, p: Principal, q: Query, limit: nat, inserts: seq<seq<Job>>)
    requires 1 <= limit <= 100 && FreshInserts(jobs, inserts) && |inserts| * limit >= |jobs|
    ensures Follow(jobs, p, q, limit, None, inserts) == Some(Filter(Owned(jobs, p), q))
  {
    FollowExact(jobs, p, q, limit, None, inserts);
    OwnedNotLonger(jobs, p);
  }

  lemma {:induction false} OwnedNotLonger(jobs: seq<Job>, p: Principal)
    ensures |Owned(jobs, p)| <= |jobs|
  {
    if jobs != [] { OwnedNotLonger(jobs[1..], p); }
  }

  // ---- a page, in the words of the list ----

  /** The principal's own, of the status and among the ids asked for, and the text is in its prompt. */
  predicate Wanted(job: Job, p: Principal, q: Query) {
    && job.tenantId == Some(p.tenantId) && job.requesterId == p.requesterId
    && (q.status.Some? ==> job.status == q.status.value) && (q.ids.Some? ==> job.id in q.ids.value)
    && exists i, j :: 0 <= i <= j <= |job.prompt| && job.prompt[i..j] == q.search
  }

  /** The first of the principal's jobs with the id. */
  predicate CursorAt(jobs: seq<Job>, p: Principal, id: string, c: nat) {
    && c < |jobs| && jobs[c].id == id && jobs[c].tenantId == Some(p.tenantId) && jobs[c].requesterId == p.requesterId
    && forall j :: 0 <= j < c ==> !(jobs[j].id == id && jobs[j].tenantId == Some(p.tenantId) && jobs[j].requesterId == p.requesterId)
  }

  /** The places of the wanted jobs from a place on, in order. */
  predicate Places(jobs: seq<Job>, p: Principal, q: Query, from: nat, ps: seq<nat>) {
    && (forall k :: 0 <= k < |ps| ==> from <= ps[k] < |jobs| && Wanted(jobs[ps[k]], p, q))
    && (forall k, l :: 0 <= k < l < |ps| ==> ps[k] < ps[l])
    && forall x :: from <= x < |jobs| && Wanted(jobs[x], p, q) ==> x in ps
  }

  lemma {:induction false} WantedAre(job: Job, p: Principal, q: Query)
    ensures Wanted(job, p, q) <==> Owns(p, job) && Asked(q, job)
  {
    assert job.prompt[0..0] == "";
  }

  lemma {:induction false} OwnedFirst(jobs: seq<Job>, p: Principal)
    requires jobs != []
    ensures Owned(jobs, p) == (if Owns(p, jobs[0]) then [jobs[0]] else []) + Owned(jobs[1..], p)
  {}

  lemma {:induction false} FoundFirst(jobs: seq<Job>, p: Principal, q: Query)
    requires jobs != []
    ensures Filter(Owned(jobs, p), q) == (if Wanted(jobs[0], p, q) then [jobs[0]] else []) + Filter(Owned(jobs[1..], p), q)
  {
    WantedAre(jobs[0], p, q);
    OwnedFirst(jobs, p);
    hide Wanted, Asked, Owns;
    var rest := Owned(jobs[1..], p);
    if Owns(p, jobs[0]) { assert ([jobs[0]] + rest)[1..] == rest; } else { assert [] + rest == rest; }
  }

  lemma {:induction false} PlacesNext(jobs: seq<Job>, p: Principal, q: Query, from: nat, rest: seq<nat>)
    requires from < |jobs| && Places(jobs, p, q, from + 1, rest)
    ensures Places(jobs, p, q, from, (if Wanted(jobs[from], p, q) then [from] else []) + rest)
  {
    hide Wanted;
    var ps := (if Wanted(jobs[from], p, q) then [from] else []) + rest;
    forall x | from <= x < |jobs| && Wanted(jobs[x], p, q) ensures x in ps { if x > from { assert x in rest; } }
  }

  lemma {:induction false} PlacesOf(jobs: seq<Job>, p: Principal, q: Query, from: nat) returns (ps: seq<nat>)
    requires from <= |jobs|
    ensures Places(jobs, p, q, from, ps)
    ensures var found := Filter(Owned(jobs[from..], p), q); |found| == |ps| && forall k :: 0 <= k < |ps| ==> found[k] == jobs[ps[k]]
    decreases |jobs| - from
  {
    hide *;
    if from == |jobs| {
      ps := [];
      NoneFound(jobs[from..], p, q);
      NoPlaces(jobs, p, q);
    } else {
      var rest := PlacesOf(jobs, p, q, from + 1);
      var shown := Wanted(jobs[from], p, q);
      var found := Filter(Owned(jobs[from + 1..], p), q);
      FoundFirst(jobs[from..], p, q);
      assert jobs[from..][1..] == jobs[from + 1..] && jobs[from..][0] == jobs[from];
      PlacesNext(jobs, p, q, from, rest);
      ps := (if shown then [from] else []) + rest;
      if shown {
        assert forall k :: 1 <= k < |ps| ==> ([jobs[from]] + found)[k] == found[k - 1] && ps[k] == rest[k - 1];
      } else {
        NoneBefore(found);
      }
    }
  }

  lemma {:induction false} NoPlaces(jobs: seq<Job>, p: Principal, q: Query)
    ensures Places(jobs, p, q, |jobs|, [])
  {}

  lemma {:induction false} NoneFound(jobs: seq<Job>, p: Principal, q: Query)
    requires jobs == []
    ensures Filter(Owned(jobs, p), q) == []
  {}

  lemma {:induction false} IndexFirst(job: Job, rest: seq<Job>, id: string)
    ensures IndexOf([job] + rest, id) == if job.id == id then 0 else 1 + IndexOf(rest, id)
  {
    assert ([job] + rest)[1..] == rest;
  }

  lemma {:induction false} AfterFirst(job: Job, rest: seq<Job>, i: nat)
    requires i <= |rest|
    ensures ([job] + rest)[i + 1..] == rest[i..]
  {}

  lemma {:induction false} SuffixOfTail(jobs: seq<Job>, c: nat)
    requires jobs != [] && c < |jobs[1..]|
    ensures jobs[1..][c + 1..] == jobs[c + 2..]
  {}

  /** Where the first of the principal's jobs with the id stands. */
  function Place(jobs: seq<Job>, p: Principal, id: string): (c: nat)
    ensures c <= |jobs|
  {
    if jobs == [] || (Owns(p, jobs[0]) && jobs[0].id == id) then 0 else 1 + Place(jobs[1..], p, id)
  }

  lemma {:induction false} PlaceIsCursor(jobs: seq<Job>, p: Principal, id: string)
    requires Place(jobs, p, id) < |jobs|
    ensures CursorAt(jobs, p, id, Place(jobs, p, id))
  {
    if !(Owns(p, jobs[0]) && jobs[0].id == id) {
      PlaceIsCursor(jobs[1..], p, id);
      CursorLater(jobs, p, id, Place(jobs[1..], p, id));
    }
  }

  lemma {:induction false} PlaceLater(jobs: seq<Job>, p: Principal, id: string)
    requires jobs != []
    ensures Place(jobs, p, id) == if Owns(p, jobs[0]) && jobs[0].id == id then 0 else 1 + Place(jobs[1..], p, id)
  {
    hide Owns;
  }

  lemma {:induction false} OwnedAfter(jobs: seq<Job>, p: Principal, id: string)
    requires IndexOf(Owned(jobs, p), id) < |Owned(jobs, p)|
    ensures var c := Place(jobs, p, id);
      c < |jobs| && Owned(jobs, p)[IndexOf(Owned(jobs, p), id) + 1..] == Owned(jobs[c + 1..], p)
    decreases |jobs|
  {
    hide *;
    if jobs == [] {
      NothingOwned(p);
    } else {
      var tail := Owned(jobs[1..], p);
      OwnedFirst(jobs, p);
      PlaceLater(jobs, p, id);
      IndexFirst(jobs[0], tail, id);
      if Owns(p, jobs[0]) && jobs[0].id == id {
        AfterFirst(jobs[0], tail, 0);
        AllAfter(tail);
      } else {
        if Owns(p, jobs[0]) { AfterFirst(jobs[0], tail, IndexOf(tail, id) + 1); } else { NoneBefore(tail); }
        OwnedAfter(jobs[1..], p, id);
        SuffixOfTail(jobs, Place(jobs[1..], p, id));
      }
    }
  }

  lemma {:induction false} AllAfter(s: seq<Job>)
    ensures s[0..] == s
  {}

  lemma {:induction false} NoneBefore(s: seq<Job>)
    ensures [] + s == s
  {}

  lemma {:induction false} CursorLater(jobs: seq<Job>, p: Principal, id: string, c: nat)
    requires jobs != [] && CursorAt(jobs[1..], p, id, c) && !(jobs[0].id == id && Owns(p, jobs[0]))
    ensures CursorAt(jobs, p, id, c + 1)
  {
    assert forall j :: 0 < j <= c + 1 ==> jobs[j] == jobs[1..][j - 1];
  }

  lemma {:induction false} NothingOwned(p: Principal)
    ensures Owned([], p) == []
  {}

  /** A page is the first wanted jobs after the cursor, in their order, as many as the limit allows; it names a
    * next cursor, the id of its last job, exactly if more are wanted. A cursor that is none of the principal's
    * jobs is refused. */
  lemma {:induction false} PageShows(jobs: seq<Job>, p: Principal, q: Query, limit: nat, cursor: Option<string>)
    returns (from: nat, ps: seq<nat>)
    requires 1 <= limit <= 100 && !ListPage(jobs, p, q, limit, cursor).InvalidCursor?
    ensures cursor == None ==> from == 0
    ensures cursor.Some? ==> from > 0 && CursorAt(jobs, p, cursor.value, from - 1)
    ensures from <= |jobs| && Places(jobs, p, q, from, ps)
    ensures var page, n := ListPage(jobs, p, q, limit, cursor), if |ps| > limit then limit else |ps|;
      && |page.jobs| == n && (forall k :: 0 <= k < n ==> page.jobs[k] == jobs[ps[k]])
      && page.next == if |ps| > limit then Some(jobs[ps[limit - 1]].id) else None
  {
    from := 0;
    if cursor.Some? {
      OwnedAfter(jobs, p, cursor.value);
      PlaceIsCursor(jobs, p, cursor.value);
      from := Place(jobs, p, cursor.value) + 1;
    }
    assert jobs[0..] == jobs;
    ps := PlacesOf(jobs, p, q, from);
    hide Places, CursorAt, Owned, Filter, IndexOf;
  }
}
