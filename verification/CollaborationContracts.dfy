/** The conditions of a plan in the words of the roster, and which of the possible plans it is. */
module CollaborationContracts {
  import opened Prelude
  import opened JsonText
  import opened Collaboration
  import CollaborationOrder

  predicate LetterOrDigit(c: Unit) { 48 <= c <= 57 || 65 <= c <= 90 || 97 <= c <= 122 }

  /** 1 to 200 letters, digits, dots, underscores, colons and hyphens, the first a letter or a digit. */
  predicate IdText(id: Text) {
    && 1 <= |id| <= 200 && LetterOrDigit(id[0])
    && forall i :: 0 <= i < |id| ==> LetterOrDigit(id[i]) || id[i] in {46, 95, 58, 45}
  }

  /** Exactly the capabilities of its roles, all of which are known. */
  ghost predicate Qualified(catalog: Catalog, w: Worker) {
    && IdText(w.agentId) && IdText(w.providerId) && IdText(w.identity) && IdText(w.boundary)
    && |w.roles| > 0 && |w.capabilities| > 0 && (forall r :: r in w.roles ==> r < |catalog|)
    && forall c :: c in w.capabilities <==> exists r :: r in w.roles && r < |catalog| && c in catalog[r]
  }

  ghost predicate GoodRoster(catalog: Catalog, workers: seq<Worker>) {
    && 1 <= |workers| <= 16 && (forall i :: 0 <= i < |workers| ==> Qualified(catalog, workers[i]))
    && forall i, j :: 0 <= i < |workers| && 0 <= j < |workers| && i != j ==>
         workers[i].agentId != workers[j].agentId && workers[i].identity != workers[j].identity && workers[i].boundary != workers[j].boundary
  }

  predicate GoodRoles(catalog: Catalog, roles: seq<nat>) {
    && (forall i :: 0 <= i < |roles| ==> roles[i] < |catalog|)
    && forall i, j :: 0 <= i < |roles| && 0 <= j < |roles| && i != j ==> roles[i] != roles[j]
  }

  /** Everybody gets one role, has it, and is somebody else. */
  predicate Fills(workers: seq<Worker>, roles: seq<nat>, m: map<nat, Worker>) {
    && (forall r :: r in roles ==> r in m && m[r] in workers && r in m[r].roles)
    && forall r, q :: r in roles && q in roles && r != q ==> m[r].identity != m[q].identity
  }

  lemma {:induction false} IdsAre(id: Text)
    ensures OpaqueId(id) <==> IdText(id)
  {}

  lemma {:induction false} CapabilitiesAre(catalog: Catalog, w: Worker)
    requires forall r :: r in w.roles ==> r < |catalog|
    ensures (forall r, c :: r in w.roles && c in catalog[r] ==> c in w.capabilities) && (forall c :: c in w.capabilities ==> Covers(catalog, w.roles, c))
      <==> forall c :: c in w.capabilities <==> exists r :: r in w.roles && r < |catalog| && c in catalog[r]
  {
    forall c ensures Covers(catalog, w.roles, c) <==> exists r :: r in w.roles && r < |catalog| && c in catalog[r] {}
  }

  lemma {:induction false} WorkersAre(catalog: Catalog, w: Worker)
    ensures SoundWorker(catalog, w) <==> Qualified(catalog, w)
  {
    IdsAre(w.agentId);
    IdsAre(w.providerId);
    IdsAre(w.identity);
    IdsAre(w.boundary);
    hide OpaqueId, IdText, Covers;
    if forall r :: r in w.roles ==> r < |catalog| { CapabilitiesAre(catalog, w); }
  }

  lemma {:induction false} AnswerableAre(catalog: Catalog, roles: seq<nat>, workers: seq<Worker>)
    ensures Answerable(catalog, roles, workers) <==> GoodRoles(catalog, roles) && GoodRoster(catalog, workers)
  {
    forall i | 0 <= i < |workers| ensures SoundWorker(catalog, workers[i]) <==> Qualified(catalog, workers[i]) { WorkersAre(catalog, workers[i]); }
    hide SoundWorker, Qualified;
    if GoodRoles(catalog, roles) && GoodRoster(catalog, workers) {
      assert ValidRoster(catalog, workers);
    }
    if Answerable(catalog, roles, workers) {
      forall i, j | 0 <= i < |workers| && 0 <= j < |workers| && i != j
        ensures workers[i].agentId != workers[j].agentId && workers[i].identity != workers[j].identity && workers[i].boundary != workers[j].boundary
      {
        assert Independent(workers[if i < j then i else j], workers[if i < j then j else i]);
      }
      forall i, j | 0 <= i < |roles| && 0 <= j < |roles| && i != j ensures roles[i] != roles[j] {}
    }
  }

  /** In a good roster whoever has a role can take it. */
  lemma {:induction false} FillsAre(catalog: Catalog, roles: seq<nat>, workers: seq<Worker>, m: map<nat, Worker>)
    requires GoodRoles(catalog, roles) && GoodRoster(catalog, workers)
    ensures Fills(workers, roles, m) <==> IsAssignment(catalog, workers, roles, m)
  {
    if Fills(workers, roles, m) {
      forall i | 0 <= i < |roles| ensures roles[i] in m && m[roles[i]] in workers && Eligible(catalog, m[roles[i]], roles[i]) {
        assert roles[i] in roles;
        var k :| 0 <= k < |workers| && workers[k] == m[roles[i]];
        assert Qualified(catalog, workers[k]);
        hide IdText;
      }
    }
    if IsAssignment(catalog, workers, roles, m) {
      forall r | r in roles ensures r in m && m[r] in workers && r in m[r].roles {
        var i :| 0 <= i < |roles| && roles[i] == r;
      }
      forall r, q | r in roles && q in roles && r != q ensures m[r].identity != m[q].identity {
        var i :| 0 <= i < |roles| && roles[i] == r;
        var j :| 0 <= j < |roles| && roles[j] == q;
        assert m[roles[if i < j then i else j]].identity != m[roles[if i < j then j else i]].identity;
      }
    }
  }

  /** A plan is made exactly for a good roster and good roles that the roster can fill, one person a role. */
  lemma {:induction false} PlansExactly(catalog: Catalog, roles: seq<nat>, workers: seq<Worker>)
    ensures CreatePlan(catalog, roles, workers).Planned? <==>
      GoodRoles(catalog, roles) && GoodRoster(catalog, workers) && exists m :: Fills(workers, roles, m)
  {
    PlanExact(catalog, roles, workers);
    AnswerableAre(catalog, roles, workers);
    hide CreatePlan, Answerable, GoodRoles, GoodRoster, Fills, IsAssignment;
    if GoodRoles(catalog, roles) && GoodRoster(catalog, workers) {
      if m :| Fills(workers, roles, m) { FillsAre(catalog, roles, workers, m); }
      if m :| IsAssignment(catalog, workers, roles, m) { FillsAre(catalog, roles, workers, m); }
    }
  }

  /** Without requested roles the plan is for the default ones; requested ones are taken in catalog order. */
  lemma {:induction false} RolesTaken(requested: seq<nat>, defaults: seq<nat>)
    ensures var roles := Effective(requested, defaults);
      if requested == [] then roles == defaults
      else multiset(roles) == multiset(requested) && forall i, j :: 0 <= i < j < |roles| ==> roles[i] <= roles[j]
  {
    CollaborationOrder.SortNatsHolds(requested);
  }

  /** From a roster as it was given: 1 to 16 entries, all of which can be read, and then as above. */
  lemma {:induction false} PlansFromExactly(catalog: Catalog, bound: (nat, nat), roles: seq<nat>, entries: seq<RosterEntry>, workers: seq<Worker>)
    requires |workers| == |entries| && forall i :: 0 <= i < |entries| ==> entries[i].Listed? ==> workers[i] == entries[i].worker
    ensures CreatePlanFrom(catalog, bound, roles, entries).Planned? <==>
      && 1 <= |entries| <= 16
      && (forall i :: 0 <= i < |entries| ==> entries[i].Listed? && |entries[i].worker.roles| <= bound.0 && |entries[i].worker.capabilities| <= bound.1)
      && GoodRoles(catalog, roles) && GoodRoster(catalog, workers) && exists m :: Fills(workers, roles, m)
  {
    if AllReadable(bound, entries) {
      assert Kept(bound, entries) == workers;
      PlansExactly(catalog, roles, workers);
    }
    hide GoodRoster, GoodRoles, Fills;
  }

  /** Two entries count as the same exactly if they have the same ids and list the same roles and capabilities,
    * in whatever order; what is printed lists them in order. */
  lemma {:induction false} CanonicalExactly(a: Worker, b: Worker)
    ensures CanonicalWorker(a) == CanonicalWorker(b) <==>
      && a.agentId == b.agentId && a.providerId == b.providerId && a.identity == b.identity && a.boundary == b.boundary
      && multiset(a.roles) == multiset(b.roles) && multiset(a.capabilities) == multiset(b.capabilities)
    ensures forall i, j :: 0 <= i < j < |CanonicalWorker(a).roles| ==> CanonicalWorker(a).roles[i] <= CanonicalWorker(a).roles[j]
  {
    SameSorted(a.roles, b.roles);
    SameSorted(a.capabilities, b.capabilities);
    CollaborationOrder.SortNatsHolds(a.roles);
  }

  lemma {:induction false} SameSorted(a: seq<nat>, b: seq<nat>)
    ensures SortNats(a) == SortNats(b) <==> multiset(a) == multiset(b)
  {
    CollaborationOrder.SortNatsHolds(a);
    CollaborationOrder.SortNatsHolds(b);
    if multiset(a) == multiset(b) { CollaborationOrder.NatsUnique(SortNats(a), SortNats(b)); }
  }

  /** The fingerprint is of the workers before the first entry that cannot be read, and of none if the roster is
    * empty or lists more than 16. */
  lemma {:induction false} RosterRead(bound: (nat, nat), entries: seq<RosterEntry>) returns (n: nat)
    ensures n <= |entries| && |Normalized(bound, entries)| == n && (|entries| > 16 ==> n == 0)
    ensures forall i :: 0 <= i < n ==>
      && entries[i] == Listed(Normalized(bound, entries)[i])
      && |entries[i].worker.roles| <= bound.0 && |entries[i].worker.capabilities| <= bound.1
    ensures n < |entries| <= 16 ==>
      entries[n].Malformed? || |entries[n].worker.roles| > bound.0 || |entries[n].worker.capabilities| > bound.1
  {
    n := |Normalized(bound, entries)|;
  }

  // ---- which plan ----

  /** The first place of a worker in its list. */
  function PlaceOf(list: seq<Worker>, w: Worker): nat
    requires w in list
  {
    if list[0] == w then 0 else 1 + PlaceOf(list[1..], w)
  }

  /** At the first list where the two choose differently, a takes the earlier candidate. */
  predicate Earlier(order: seq<seq<Worker>>, a: seq<Worker>, b: seq<Worker>)
    requires |a| == |b| == |order| && forall i :: 0 <= i < |order| ==> a[i] in order[i] && b[i] in order[i]
  {
    a == b || exists k :: 0 <= k < |order| && a[..k] == b[..k] && PlaceOf(order[k], a[k]) < PlaceOf(order[k], b[k])
  }

  lemma {:induction false} PlaceSkips(list: seq<Worker>, w: Worker)
    requires list != [] && w in list && list[0] != w
    ensures w in list[1..] && PlaceOf(list, w) == 1 + PlaceOf(list[1..], w)
  {
    assert list == [list[0]] + list[1..];
  }

  /** Of all assignments the search takes the first: the candidates of the first role are tried in order, those
    * of the next one for each, and so on. */
  lemma {:induction false} VisitIsFirst(order: seq<seq<Worker>>, used: set<Text>, other: seq<Worker>)
    requires Assigns(order, used, other)
    ensures Visit(order, used).Some? && Assigns(order, used, Visit(order, used).value) && Earlier(order, Visit(order, used).value, other)
    decreases |order|, 1, 0
  {
    VisitSound(order, used);
    VisitComplete(order, used, other);
    if order != [] { TryIsFirst(order[0], order[1..], used, other, order[0], 0); }
  }

  /** skipped: how many candidates of the first list were passed over. */
  lemma {:induction false} TryIsFirst(candidates: seq<Worker>, rest: seq<seq<Worker>>, used: set<Text>, other: seq<Worker>, all: seq<Worker>, skipped: nat)
    requires skipped <= |all| && candidates == all[skipped..] && Assigns([all] + rest, used, other)
    requires PlaceOf(all, other[0]) >= skipped
    ensures var r := TryEach(candidates, rest, used); r.Some? && Assigns([all] + rest, used, r.value) && Earlier([all] + rest, r.value, other)
    decreases |rest| + 1, 0, |candidates|
  {
    hide PlaceOf, Visit;
    var order := [all] + rest;
    PlaceAt(all, other[0]);
    var c := candidates[0];
    assert c == all[skipped];
    PlaceIs(all, skipped);
    TrySound(candidates, rest, used, all);
    if c.identity in used {
      PlaceLater(all, other[0], skipped);
      TryIsFirst(candidates[1..], rest, used, other, all, skipped + 1);
    } else if other[0] == c {
      assert Assigns(rest, used + {c.identity}, other[1..]) by {
        assert forall i :: 0 <= i < |rest| ==> order[i + 1] == rest[i];
      }
      VisitIsFirst(rest, used + {c.identity}, other[1..]);
      var r := [c] + Visit(rest, used + {c.identity}).value;
      EarlierOn(all, rest, c, Visit(rest, used + {c.identity}).value, other[1..]);
      assert other == [c] + other[1..];
    } else {
      PlaceLater(all, other[0], skipped);
      match Visit(rest, used + {c.identity})
      case Some(others) =>
        var r := [c] + others;
        assert r[..0] == other[..0];
        assert PlaceOf(order[0], r[0]) < PlaceOf(order[0], other[0]);
      case None =>
        TryIsFirst(candidates[1..], rest, used, other, all, skipped + 1);
    }
  }

  lemma {:induction false} PlaceAt(list: seq<Worker>, w: Worker)
    requires w in list
    ensures PlaceOf(list, w) < |list| && list[PlaceOf(list, w)] == w
    decreases |list|
  {
    if list[0] != w {
      PlaceSkips(list, w);
      PlaceAt(list[1..], w);
    }
  }

  lemma {:induction false} PlaceIs(list: seq<Worker>, k: nat)
    requires k < |list|
    ensures PlaceOf(list, list[k]) <= k
    decreases |list|
  {
    if list[0] != list[k] {
      PlaceSkips(list, list[k]);
      PlaceIs(list[1..], k - 1);
    }
  }

  lemma {:induction false} PlaceLater(list: seq<Worker>, w: Worker, k: nat)
    requires w in list && k < |list| && PlaceOf(list, w) >= k && list[k] != w
    ensures PlaceOf(list, w) >= k + 1
  {
    PlaceAt(list, w);
  }

  lemma {:induction false} EarlierOn(all: seq<Worker>, rest: seq<seq<Worker>>, c: Worker, a: seq<Worker>, b: seq<Worker>)
    requires c in all && |a| == |b| == |rest| && (forall i :: 0 <= i < |rest| ==> a[i] in rest[i] && b[i] in rest[i]) && Earlier(rest, a, b)
    requires forall i :: 0 <= i < |rest| + 1 ==> ([c] + a)[i] in ([all] + rest)[i] && ([c] + b)[i] in ([all] + rest)[i]
    ensures Earlier([all] + rest, [c] + a, [c] + b)
  {
    if a != b {
      var k :| 0 <= k < |rest| && a[..k] == b[..k] && PlaceOf(rest[k], a[k]) < PlaceOf(rest[k], b[k]);
      assert ([c] + a)[..k + 1] == [c] + a[..k] && ([c] + b)[..k + 1] == [c] + b[..k];
      assert ([all] + rest)[k + 1] == rest[k];
    }
  }

  /** Roles that fewer workers can take come first, and of those with equally many the one that stands first
    * in the catalog; the candidates of each stand in the order of their ids. */
  lemma {:induction false} ConstrainedFirst(catalog: Catalog, workers: seq<Worker>, roles: seq<nat>, i: nat, j: nat)
    requires var order := SortSlots(Slots(catalog, SortWorkers(workers), roles)); i < j < |order|
    ensures var order := SortSlots(Slots(catalog, SortWorkers(workers), roles));
      |order[i].workers| < |order[j].workers| || (|order[i].workers| == |order[j].workers| && order[i].role <= order[j].role)
  {
    SlotsSorted(Slots(catalog, SortWorkers(workers), roles));
  }

  predicate InPlace(slots: seq<Slot>) { forall i, j :: 0 <= i < j < |slots| ==> !SlotBefore(slots[j], slots[i]) }

  lemma {:induction false} SlotInserted(a: Slot, slots: seq<Slot>)
    requires InPlace(slots)
    ensures InPlace(InsertSlot(a, slots)) && forall x :: x in InsertSlot(a, slots) ==> x == a || x in slots
    decreases |slots|
  {
    if slots != [] && SlotBefore(slots[0], a) {
      SlotInserted(a, slots[1..]);
      var rest := InsertSlot(a, slots[1..]);
      forall j | 0 <= j < |rest| ensures !SlotBefore(rest[j], slots[0]) {
        assert rest[j] in rest;
        if rest[j] != a { var k :| 0 <= k < |slots[1..]| && slots[1..][k] == rest[j]; assert slots[k + 1] == rest[j]; }
      }
    }
  }

  lemma {:induction false} SlotsSorted(slots: seq<Slot>)
    ensures InPlace(SortSlots(slots))
    decreases |slots|
  {
    if slots != [] {
      SlotsSorted(slots[1..]);
      SlotInserted(slots[0], SortSlots(slots[1..]));
    }
  }
}
