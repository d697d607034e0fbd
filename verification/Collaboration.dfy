/** The collaboration plan: a one-to-one assignment of roles to independent workers, found
  * by backtracking, and a fingerprint. Roles and
  * capabilities stand for their place in the catalog; a role beyond it is unknown. */
module Collaboration {
  import opened Prelude
  import opened JsonText
  import opened CanonicalJson

  type Catalog = seq<seq<nat>>    // the capabilities of every Core role

  datatype Worker = Worker(
    agentId: Text, providerId: Text, identity: Text, boundary: Text, roles: seq<nat>, capabilities: seq<nat>)

  datatype Request = Request(role: nat, agentId: Text, providerId: Text, identity: Text, boundary: Text)

  /** SHA-256 over canonical JSON, taken to be injective. */
  datatype Fingerprint = Fingerprint(prompt: string, roles: seq<nat>, workers: seq<Worker>)

  datatype Plan = Blocked | Planned(requests: seq<Request>)

  // ---- the roster ----

  predicate Alphanumeric(c: Unit) { IsDigit(c) || 65 <= c <= 90 || 97 <= c <= 122 }

  predicate OpaqueId(id: Text) {
    && 1 <= |id| <= 200 && Alphanumeric(id[0])
    && forall i :: 0 < i < |id| ==> Alphanumeric(id[i]) || id[i] == 46 || id[i] == 95 || id[i] == 58 || id[i] == 45
  }

  predicate Covers(catalog: Catalog, roles: seq<nat>, capability: nat) {
    exists r :: r in roles && r < |catalog| && capability in catalog[r]
  }

  predicate SoundWorker(catalog: Catalog, w: Worker) {
    && OpaqueId(w.agentId) && OpaqueId(w.providerId) && OpaqueId(w.identity) && OpaqueId(w.boundary)
    && w.roles != [] && w.capabilities != []
    && (forall r :: r in w.roles ==> r < |catalog|)
    && (forall r, c :: r in w.roles && c in catalog[r] ==> c in w.capabilities)
    && (forall c :: c in w.capabilities ==> Covers(catalog, w.roles, c))
  }

  predicate Independent(v: Worker, w: Worker) {
    v.agentId != w.agentId && v.identity != w.identity && v.boundary != w.boundary
  }

  predicate ValidRoster(catalog: Catalog, workers: seq<Worker>) {
    && 1 <= |workers| <= MAX_TRUSTED_WORKERS
    && (forall i :: 0 <= i < |workers| ==> SoundWorker(catalog, workers[i]))
    && (forall i, j :: 0 <= i < j < |workers| ==> Independent(workers[i], workers[j]))
  }

  // ---- orders ----

  function Ids(w: Worker): seq<Text> { [w.agentId, w.providerId, w.identity, w.boundary] }

  /** compareStrings, in turn. */
  predicate IdsBefore(a: seq<Text>, b: seq<Text>)
    requires |a| == |b|
  {
    a != [] && if a[0] != b[0] then Lex(a[0], b[0]) else IdsBefore(a[1..], b[1..])
  }

  /** compareWorkers: the four ids in turn. */
  predicate WorkerBefore(v: Worker, w: Worker) { IdsBefore(Ids(v), Ids(w)) }

  function InsertWorker(w: Worker, ws: seq<Worker>): seq<Worker> {
    if ws == [] || !WorkerBefore(ws[0], w) then [w] + ws else [ws[0]] + InsertWorker(w, ws[1..])
  }

  function SortWorkers(ws: seq<Worker>): seq<Worker> {
    if ws == [] then [] else InsertWorker(ws[0], SortWorkers(ws[1..]))
  }

  function InsertNat(n: nat, ns: seq<nat>): seq<nat> {
    if ns == [] || n <= ns[0] then [n] + ns else [ns[0]] + InsertNat(n, ns[1..])
  }

  function SortNats(ns: seq<nat>): seq<nat> {
    if ns == [] then [] else InsertNat(ns[0], SortNats(ns[1..]))
  }

  function CanonicalWorker(w: Worker): Worker { w.(roles := SortNats(w.roles), capabilities := SortNats(w.capabilities)) }

  function CanonicalEach(ws: seq<Worker>): (r: seq<Worker>)
    ensures |r| == |ws| && forall i :: 0 <= i < |ws| ==> r[i] == CanonicalWorker(ws[i])
  {
    if ws == [] then [] else [CanonicalWorker(ws[0])] + CanonicalEach(ws[1..])
  }

  // ---- the search ----

  predicate Eligible(catalog: Catalog, w: Worker, role: nat) {
    role < |catalog| && role in w.roles && forall c :: c in catalog[role] ==> c in w.capabilities
  }

  function Candidates(catalog: Catalog, sorted: seq<Worker>, role: nat): (r: seq<Worker>)
    ensures forall w :: w in r <==> w in sorted && Eligible(catalog, w, role)
  {
    if sorted == [] then []
    else
      assert sorted == [sorted[0]] + sorted[1..];
      (if Eligible(catalog, sorted[0], role) then [sorted[0]] else []) + Candidates(catalog, sorted[1..], role)
  }

  /** Backtracking over the candidate lists, never using an identity twice. */
  function Visit(order: seq<seq<Worker>>, used: set<Text>): Option<seq<Worker>>
    decreases |order|, 1, 0
  {
    if order == [] then Some([]) else TryEach(order[0], order[1..], used)
  }

  function TryEach(candidates: seq<Worker>, rest: seq<seq<Worker>>, used: set<Text>): Option<seq<Worker>>
    decreases |rest| + 1, 0, |candidates|
  {
    if candidates == [] then None
    else if candidates[0].identity in used then TryEach(candidates[1..], rest, used)
    else
      match Visit(rest, used + {candidates[0].identity})
      case Some(others) => Some([candidates[0]] + others)
      case None => TryEach(candidates[1..], rest, used)
  }

  /** One worker from every list, with distinct identities outside used. */
  predicate Assigns(order: seq<seq<Worker>>, used: set<Text>, chosen: seq<Worker>) {
    && |chosen| == |order|
    && (forall i :: 0 <= i < |chosen| ==> chosen[i] in order[i] && chosen[i].identity !in used)
    && (forall i, j :: 0 <= i < j < |chosen| ==> chosen[i].identity != chosen[j].identity)
  }

  lemma {:induction false} VisitSound(order: seq<seq<Worker>>, used: set<Text>)
    ensures Visit(order, used).Some? ==> Assigns(order, used, Visit(order, used).value)
    decreases |order|, 1, 0
  {
    if order != [] { TrySound(order[0], order[1..], used, order[0]); }
  }

  lemma {:induction false} TrySound(candidates: seq<Worker>, rest: seq<seq<Worker>>, used: set<Text>, all: seq<Worker>)
    requires forall w :: w in candidates ==> w in all
    ensures TryEach(candidates, rest, used).Some? ==> Assigns([all] + rest, used, TryEach(candidates, rest, used).value)
    decreases |rest| + 1, 0, |candidates|
  {
    if candidates != [] {
      assert candidates[0] in candidates;
      if candidates[0].identity in used {
        TrySound(candidates[1..], rest, used, all);
      } else {
        VisitSound(rest, used + {candidates[0].identity});
        if Visit(rest, used + {candidates[0].identity}).None? { TrySound(candidates[1..], rest, used, all); }
      }
    }
  }

  /** If any assignment exists, the search finds one. */
  lemma {:induction false} VisitComplete(order: seq<seq<Worker>>, used: set<Text>, chosen: seq<Worker>)
    requires Assigns(order, used, chosen)
    ensures Visit(order, used).Some?
    decreases |order|, 1, 0
  {
    if order != [] { TryComplete(order[0], order[1..], used, chosen); }
  }

  lemma {:induction false} TryComplete(candidates: seq<Worker>, rest: seq<seq<Worker>>, used: set<Text>, chosen: seq<Worker>)
    requires Assigns([candidates] + rest, used, chosen)
    ensures TryEach(candidates, rest, used).Some?
    decreases |rest| + 1, 0, |candidates|
  {
    assert chosen[0] in candidates;
    if candidates[0] == chosen[0] {
      VisitComplete(rest, used + {chosen[0].identity}, chosen[1..]) by {
        assert forall i :: 0 <= i < |rest| ==> ([candidates] + rest)[i + 1] == rest[i];
      }
    } else {
      assert candidates == [candidates[0]] + candidates[1..];
      assert Assigns([candidates[1..]] + rest, used, chosen) by {
        assert forall i :: 0 < i < |chosen| ==> ([candidates[1..]] + rest)[i] == ([candidates] + rest)[i];
      }
      TryComplete(candidates[1..], rest, used, chosen);
    }
  }

  // ---- the plan ----

  /** A role and the workers that can take it. */
  datatype Slot = Slot(role: nat, workers: seq<Worker>)

  function Slots(catalog: Catalog, sorted: seq<Worker>, roles: seq<nat>): (r: seq<Slot>)
    ensures |r| == |roles| && forall i :: 0 <= i < |roles| ==> r[i] == Slot(roles[i], Candidates(catalog, sorted, roles[i]))
  {
    if roles == [] then [] else [Slot(roles[0], Candidates(catalog, sorted, roles[0]))] + Slots(catalog, sorted, roles[1..])
  }

  /** Constrained roles first. */
  predicate SlotBefore(a: Slot, b: Slot) {
    |a.workers| < |b.workers| || (|a.workers| == |b.workers| && a.role < b.role)
  }

  function InsertSlot(a: Slot, slots: seq<Slot>): seq<Slot> {
    if slots == [] || !SlotBefore(slots[0], a) then [a] + slots else [slots[0]] + InsertSlot(a, slots[1..])
  }

  function SortSlots(slots: seq<Slot>): seq<Slot> {
    if slots == [] then [] else InsertSlot(slots[0], SortSlots(slots[1..]))
  }

  function Lists(slots: seq<Slot>): (r: seq<seq<Worker>>)
    ensures |r| == |slots| && forall i :: 0 <= i < |slots| ==> r[i] == slots[i].workers
  {
    if slots == [] then [] else [slots[0].workers] + Lists(slots[1..])
  }

  /** The assignment map the search fills. */
  function Assignment(slots: seq<Slot>, chosen: seq<Worker>): map<nat, Worker>
    requires |slots| == |chosen|
  {
    if slots == [] then map[] else Assignment(slots[1..], chosen[1..])[slots[0].role := chosen[0]]
  }

  /** assignWorkersToRoles. */
  function Assign(catalog: Catalog, workers: seq<Worker>, roles: seq<nat>): Option<map<nat, Worker>> {
    var order := SortSlots(Slots(catalog, SortWorkers(workers), roles));
    match Visit(Lists(order), {})
    case None => None
    case Some(chosen) => if |chosen| == |order| then Some(Assignment(order, chosen)) else None
  }

  predicate DistinctRoles(roles: seq<nat>) { forall i, j :: 0 <= i < j < |roles| ==> roles[i] != roles[j] }

  function RequestOf(role: nat, w: Worker): Request { Request(role, w.agentId, w.providerId, w.identity, w.boundary) }

  function Requests(roles: seq<nat>, m: map<nat, Worker>): (r: seq<Request>)
    requires forall i :: 0 <= i < |roles| ==> roles[i] in m
    ensures |r| == |roles| && forall i :: 0 <= i < |roles| ==> r[i] == RequestOf(roles[i], m[roles[i]])
  {
    if roles == [] then [] else [RequestOf(roles[0], m[roles[0]])] + Requests(roles[1..], m)
  }

  function Effective(requested: seq<nat>, defaults: seq<nat>): seq<nat> {
    if requested == [] then defaults else SortNats(requested)
  }

  predicate Answerable(catalog: Catalog, roles: seq<nat>, workers: seq<Worker>) {
    && DistinctRoles(roles) && (forall i :: 0 <= i < |roles| ==> roles[i] < |catalog|)
    && ValidRoster(catalog, workers)
  }

  function CreatePlan(catalog: Catalog, roles: seq<nat>, workers: seq<Worker>): Plan {
    if !Answerable(catalog, roles, workers) || |roles| > |workers| then Blocked
    else
      match Assign(catalog, workers, roles)
      case None => Blocked
      case Some(m) => if forall i :: 0 <= i < |roles| ==> roles[i] in m then Planned(Requests(roles, m)) else Blocked
  }

  function PlanFingerprint(prompt: string, roles: seq<nat>, workers: seq<Worker>): Fingerprint {
    Fingerprint(prompt, roles, CanonicalEach(SortWorkers(workers)))
  }

  // ---- the roster as it comes ----

  const MAX_TRUSTED_WORKERS: nat := 16

  /** An entry of the trusted roster: one that is not an object or holds a list that is not one of
    * nonempty strings, or a worker. */
  datatype RosterEntry = Malformed | Listed(worker: Worker)

  /** bound: the sizes of the role and the capability catalog. */
  predicate Readable(bound: (nat, nat), e: RosterEntry) {
    e.Listed? && |e.worker.roles| <= bound.0 && |e.worker.capabilities| <= bound.1
  }

  /** normalizeWorkers: the workers before the first entry it refuses. */
  function Kept(bound: (nat, nat), entries: seq<RosterEntry>): (r: seq<Worker>)
    ensures |r| <= |entries| && forall i :: 0 <= i < |r| ==> Readable(bound, entries[i]) && r[i] == entries[i].worker
    ensures |r| < |entries| ==> !Readable(bound, entries[|r|])
  {
    if entries == [] || !Readable(bound, entries[0]) then [] else [entries[0].worker] + Kept(bound, entries[1..])
  }

  function Normalized(bound: (nat, nat), entries: seq<RosterEntry>): seq<Worker> {
    if 1 <= |entries| <= MAX_TRUSTED_WORKERS then Kept(bound, entries) else []
  }

  predicate AllReadable(bound: (nat, nat), entries: seq<RosterEntry>) { forall i :: 0 <= i < |entries| ==> Readable(bound, entries[i]) }

  /** createA2ACollaborationPlan on a roster as given. */
  function CreatePlanFrom(catalog: Catalog, bound: (nat, nat), roles: seq<nat>, entries: seq<RosterEntry>): Plan {
    if 1 <= |entries| <= MAX_TRUSTED_WORKERS && AllReadable(bound, entries)
    then CreatePlan(catalog, roles, Kept(bound, entries)) else Blocked
  }

  // ---- sound and complete ----

  /** Each role has its own capable worker, no two with one identity. */
  predicate IsAssignment(catalog: Catalog, workers: seq<Worker>, roles: seq<nat>, m: map<nat, Worker>) {
    && (forall i :: 0 <= i < |roles| ==> roles[i] in m && m[roles[i]] in workers && Eligible(catalog, m[roles[i]], roles[i]))
    && (forall i, j :: 0 <= i < j < |roles| ==> m[roles[i]].identity != m[roles[j]].identity)
  }

  lemma {:induction false} InsertWorkerHolds(w: Worker, ws: seq<Worker>)
    ensures forall x :: x in InsertWorker(w, ws) <==> x == w || x in ws
    ensures |InsertWorker(w, ws)| == |ws| + 1
  {
    if ws != [] {
      InsertWorkerHolds(w, ws[1..]);
      assert ws == [ws[0]] + ws[1..];
    }
  }

  lemma {:induction false} SortWorkersHolds(ws: seq<Worker>)
    ensures forall x :: x in SortWorkers(ws) <==> x in ws
  {
    if ws != [] {
      SortWorkersHolds(ws[1..]);
      InsertWorkerHolds(ws[0], SortWorkers(ws[1..]));
      assert ws == [ws[0]] + ws[1..];
    }
  }

  predicate DistinctSlots(slots: seq<Slot>) { forall i, j :: 0 <= i < j < |slots| ==> slots[i].role != slots[j].role }

  lemma {:induction false} InsertSlotHolds(a: Slot, slots: seq<Slot>)
    requires DistinctSlots(slots) && forall x :: x in slots ==> x.role != a.role
    ensures forall x :: x in InsertSlot(a, slots) <==> x == a || x in slots
    ensures DistinctSlots(InsertSlot(a, slots)) && |InsertSlot(a, slots)| == |slots| + 1
  {
    if slots != [] {
      assert slots == [slots[0]] + slots[1..];
      InsertSlotHolds(a, slots[1..]);
      var rest := InsertSlot(a, slots[1..]);
      forall i | 0 <= i < |rest| ensures rest[i].role != slots[0].role { assert rest[i] in rest; }
    }
  }

  lemma {:induction false} SortSlotsHolds(slots: seq<Slot>)
    requires DistinctSlots(slots)
    ensures forall x :: x in SortSlots(slots) <==> x in slots
    ensures DistinctSlots(SortSlots(slots)) && |SortSlots(slots)| == |slots|
  {
    if slots != [] {
      assert slots == [slots[0]] + slots[1..];
      assert forall i :: 0 <= i < |slots[1..]| ==> slots[1..][i] == slots[i + 1];
      SortSlotsHolds(slots[1..]);
      forall x | x in SortSlots(slots[1..]) ensures x.role != slots[0].role {
        var i :| 0 <= i < |slots[1..]| && slots[1..][i] == x;
      }
      InsertSlotHolds(slots[0], SortSlots(slots[1..]));
    }
  }

  lemma {:induction false} AssignmentAt(slots: seq<Slot>, chosen: seq<Worker>)
    requires |slots| == |chosen| && DistinctSlots(slots)
    ensures forall i :: 0 <= i < |slots| ==> slots[i].role in Assignment(slots, chosen) && Assignment(slots, chosen)[slots[i].role] == chosen[i]
  {
    if slots != [] {
      AssignmentAt(slots[1..], chosen[1..]);
      forall i | 0 < i < |slots| ensures slots[i].role in Assignment(slots, chosen) && Assignment(slots, chosen)[slots[i].role] == chosen[i] {
        assert slots[1..][i - 1] == slots[i] && chosen[1..][i - 1] == chosen[i];
      }
    }
  }

  /** The search order: the slots of the roles, each once. */
  function Order(catalog: Catalog, workers: seq<Worker>, roles: seq<nat>): seq<Slot> {
    SortSlots(Slots(catalog, SortWorkers(workers), roles))
  }

  lemma {:induction false} OrderHolds(catalog: Catalog, workers: seq<Worker>, roles: seq<nat>)
    requires DistinctRoles(roles)
    ensures var order := Order(catalog, workers, roles);
      && DistinctSlots(order) && |order| == |roles|
      && (forall i :: 0 <= i < |order| ==> order[i].role in roles)
      && (forall r :: r in roles ==> exists i :: 0 <= i < |order| && order[i].role == r)
      && (forall i, w :: 0 <= i < |order| ==> (w in order[i].workers <==> w in workers && Eligible(catalog, w, order[i].role)))
  {
    var slots := Slots(catalog, SortWorkers(workers), roles);
    var order := Order(catalog, workers, roles);
    SortSlotsHolds(slots);
    SortWorkersHolds(workers);
    forall i | 0 <= i < |order|
      ensures order[i].role in roles && order[i] == Slot(order[i].role, Candidates(catalog, SortWorkers(workers), order[i].role))
    {
      assert order[i] in slots;
      var k :| 0 <= k < |slots| && slots[k] == order[i];
    }
    forall r | r in roles ensures exists i :: 0 <= i < |order| && order[i].role == r {
      var k :| 0 <= k < |roles| && roles[k] == r;
      assert slots[k] in order;
      var i :| 0 <= i < |order| && order[i] == slots[k];
    }
  }

  predicate SlotOk(catalog: Catalog, workers: seq<Worker>, slot: Slot) {
    forall w :: w in slot.workers ==> w in workers && Eligible(catalog, w, slot.role)
  }

  predicate HasRole(order: seq<Slot>, role: nat) { exists i :: 0 <= i < |order| && order[i].role == role }

  /** The search's choice for slot i, read off the map. */
  lemma {:induction false} ChosenAt(catalog: Catalog, workers: seq<Worker>, order: seq<Slot>, chosen: seq<Worker>, m: map<nat, Worker>, i: nat)
    requires Assigns(Lists(order), {}, chosen) && i < |order| && SlotOk(catalog, workers, order[i])
    requires order[i].role in m && m[order[i].role] == chosen[i]
    ensures m[order[i].role] in workers && Eligible(catalog, m[order[i].role], order[i].role)
  {
    assert chosen[i] in Lists(order)[i];
  }

  predicate Reads(order: seq<Slot>, chosen: seq<Worker>, m: map<nat, Worker>) {
    |chosen| == |order| && forall i :: 0 <= i < |order| ==> order[i].role in m && m[order[i].role] == chosen[i]
  }

  lemma {:induction false} ChosenDiffer(order: seq<Slot>, chosen: seq<Worker>, m: map<nat, Worker>, a: nat, b: nat)
    requires Assigns(Lists(order), {}, chosen) && Reads(order, chosen, m) && HasRole(order, a) && HasRole(order, b) && a != b
    ensures a in m && b in m && m[a].identity != m[b].identity
  {
    var i :| 0 <= i < |order| && order[i].role == a;
    var j :| 0 <= j < |order| && order[j].role == b;
    if i < j { assert chosen[i].identity != chosen[j].identity; } else { assert chosen[j].identity != chosen[i].identity; }
  }

  /** Reading an assignment off the search's choices. */
  lemma {:induction false} ChosenAssigns(catalog: Catalog, workers: seq<Worker>, roles: seq<nat>, order: seq<Slot>, chosen: seq<Worker>, m: map<nat, Worker>)
    requires DistinctRoles(roles) && Assigns(Lists(order), {}, chosen) && Reads(order, chosen, m)
    requires forall r :: r in roles ==> HasRole(order, r)
    requires forall i :: 0 <= i < |order| ==> SlotOk(catalog, workers, order[i])
    ensures IsAssignment(catalog, workers, roles, m)
  {
    forall k | 0 <= k < |roles| ensures roles[k] in m && m[roles[k]] in workers && Eligible(catalog, m[roles[k]], roles[k]) {
      assert HasRole(order, roles[k]);
      var i :| 0 <= i < |order| && order[i].role == roles[k];
      hide Assigns, Lists, SlotOk, Eligible, DistinctRoles;
      ChosenAt(catalog, workers, order, chosen, m, i);
    }
    hide Assigns, Lists, SlotOk, Eligible, Reads, HasRole;
    forall k, l | 0 <= k < l < |roles| ensures m[roles[k]].identity != m[roles[l]].identity {
      ChosenDiffer(order, chosen, m, roles[k], roles[l]);
    }
  }

  lemma {:induction false} AssignSound(catalog: Catalog, workers: seq<Worker>, roles: seq<nat>)
    requires DistinctRoles(roles)
    ensures Assign(catalog, workers, roles).Some? ==> IsAssignment(catalog, workers, roles, Assign(catalog, workers, roles).value)
  {
    var order := Order(catalog, workers, roles);
    OrderHolds(catalog, workers, roles);
    VisitSound(Lists(order), {});
    if Visit(Lists(order), {}).Some? {
      var chosen := Visit(Lists(order), {}).value;
      AssignmentAt(order, chosen);
      var m := Assignment(order, chosen);
      forall i | 0 <= i < |order| ensures SlotOk(catalog, workers, order[i]) {}
      forall r | r in roles ensures HasRole(order, r) {}
      hide SortSlots, Slots, Visit, Assignment, IsAssignment, Assigns, Lists, SlotOk, Eligible, HasRole;
      ChosenAssigns(catalog, workers, roles, order, chosen, m);
    }
  }

  function ChoiceOf(order: seq<Slot>, m: map<nat, Worker>): (r: seq<Worker>)
    requires forall i :: 0 <= i < |order| ==> order[i].role in m
    ensures |r| == |order| && forall i :: 0 <= i < |order| ==> r[i] == m[order[i].role]
  {
    if order == [] then [] else [m[order[0].role]] + ChoiceOf(order[1..], m)
  }

  lemma {:induction false} AssignedDiffer(catalog: Catalog, workers: seq<Worker>, roles: seq<nat>, m: map<nat, Worker>, a: nat, b: nat)
    requires IsAssignment(catalog, workers, roles, m) && a in roles && b in roles && a != b
    ensures a in m && b in m && m[a].identity != m[b].identity
  {
    var k :| 0 <= k < |roles| && roles[k] == a;
    var l :| 0 <= l < |roles| && roles[l] == b;
    if k < l { assert m[roles[k]].identity != m[roles[l]].identity; } else { assert m[roles[l]].identity != m[roles[k]].identity; }
  }

  lemma {:induction false} AssignedAt(catalog: Catalog, workers: seq<Worker>, roles: seq<nat>, m: map<nat, Worker>, a: nat)
    requires IsAssignment(catalog, workers, roles, m) && a in roles
    ensures a in m && m[a] in workers && Eligible(catalog, m[a], a)
  {
    var k :| 0 <= k < |roles| && roles[k] == a;
  }

  lemma {:induction false} AssignComplete(catalog: Catalog, workers: seq<Worker>, roles: seq<nat>, m: map<nat, Worker>)
    requires DistinctRoles(roles) && IsAssignment(catalog, workers, roles, m)
    ensures Assign(catalog, workers, roles).Some?
  {
    var order := Order(catalog, workers, roles);
    OrderHolds(catalog, workers, roles);
    hide IsAssignment, Eligible;
    forall i | 0 <= i < |order| ensures order[i].role in m && m[order[i].role] in order[i].workers {
      AssignedAt(catalog, workers, roles, m, order[i].role);
    }
    var chosen := ChoiceOf(order, m);
    forall i, j | 0 <= i < j < |chosen| ensures chosen[i].identity != chosen[j].identity {
      AssignedDiffer(catalog, workers, roles, m, order[i].role, order[j].role);
    }
    assert Assigns(Lists(order), {}, chosen);
    VisitComplete(Lists(order), {}, chosen);
    VisitSound(Lists(order), {});
  }

  lemma {:induction false} NotMoreThan(roles: seq<nat>, m: map<nat, Worker>, ids: set<Text>)
    requires forall i :: 0 <= i < |roles| ==> roles[i] in m && m[roles[i]].identity in ids
    requires forall i, j :: 0 <= i < j < |roles| ==> m[roles[i]].identity != m[roles[j]].identity
    ensures |roles| <= |ids|
  {
    if roles != [] {
      var n := |roles| - 1;
      NotMoreThan(roles[..n], m, ids - {m[roles[n]].identity});
    }
  }

  function Identities(ws: seq<Worker>): (r: set<Text>)
    ensures |r| <= |ws| && forall w :: w in ws ==> w.identity in r
  {
    if ws == [] then {} else
      assert ws == [ws[0]] + ws[1..];
      {ws[0].identity} + Identities(ws[1..])
  }

  /** A plan is produced exactly when the roles are distinct Core roles, the whole roster is
    * sound and pairwise independent, and some assignment gives every role a capable worker
    * of its own; a search that fails proves there is none. */
  lemma {:induction false} PlanExact(catalog: Catalog, roles: seq<nat>, workers: seq<Worker>)
    ensures CreatePlan(catalog, roles, workers).Planned? <==>
      Answerable(catalog, roles, workers) && exists m :: IsAssignment(catalog, workers, roles, m)
  {
    if Answerable(catalog, roles, workers) {
      AssignSound(catalog, workers, roles);
      if m :| IsAssignment(catalog, workers, roles, m) {
        AssignComplete(catalog, workers, roles, m);
        NotMoreThan(roles, m, Identities(workers));
      }
    }
  }

  lemma {:induction false} Apart(catalog: Catalog, workers: seq<Worker>, v: Worker, w: Worker)
    requires ValidRoster(catalog, workers) && v in workers && w in workers && v.identity != w.identity
    ensures v.agentId != w.agentId && v.boundary != w.boundary
  {
    hide SoundWorker;
    var k :| 0 <= k < |workers| && workers[k] == v;
    var l :| 0 <= l < |workers| && workers[l] == w;
    if k < l { assert Independent(workers[k], workers[l]); } else { assert Independent(workers[l], workers[k]); }
  }

  /** The requests of a plan: one for every role in order, by capable workers of the roster
    * with pairwise distinct agents, identities and boundaries. */
  lemma {:induction false} PlanSound(catalog: Catalog, roles: seq<nat>, workers: seq<Worker>)
    requires CreatePlan(catalog, roles, workers).Planned?
    ensures var rs := CreatePlan(catalog, roles, workers).requests;
      && |rs| == |roles|
      && (forall i :: 0 <= i < |rs| ==> exists w :: w in workers && Eligible(catalog, w, roles[i]) && rs[i] == RequestOf(roles[i], w))
      && (forall i, j :: 0 <= i < j < |rs| ==> rs[i].agentId != rs[j].agentId && rs[i].identity != rs[j].identity && rs[i].boundary != rs[j].boundary)
  {
    AssignSound(catalog, workers, roles);
    var m := Assign(catalog, workers, roles).value;
    var rs := CreatePlan(catalog, roles, workers).requests;
    hide Assign, Eligible, ValidRoster;
    forall i | 0 <= i < |rs| ensures exists w :: w in workers && Eligible(catalog, w, roles[i]) && rs[i] == RequestOf(roles[i], w) {
      assert m[roles[i]] in workers;
    }
    forall i, j | 0 <= i < j < |rs|
      ensures rs[i].agentId != rs[j].agentId && rs[i].identity != rs[j].identity && rs[i].boundary != rs[j].boundary
    {
      Apart(catalog, workers, m[roles[i]], m[roles[j]]);
    }
  }

  /** More than an assignment is asked for: with a worker of its own for every role, one further
    * worker that shares its boundary blocks the plan. */
  lemma {:induction false} WholeRosterMatters(catalog: Catalog, w: Worker, other: Worker, role: nat)
    requires SoundWorker(catalog, w) && SoundWorker(catalog, other) && role in w.roles
    requires w.agentId != other.agentId && w.identity != other.identity && w.boundary == other.boundary
    ensures CreatePlan(catalog, [role], [w]).Planned?
    ensures IsAssignment(catalog, [w, other], [role], map[role := w]) && CreatePlan(catalog, [role], [w, other]) == Blocked
  {
    var k :| 0 <= k < |w.roles| && w.roles[k] == role;
    assert IsAssignment(catalog, [w], [role], map[role := w]);
    PlanExact(catalog, [role], [w]);
    assert [w, other][0] == w && [w, other][1] == other;
    assert !Independent([w, other][0], [w, other][1]);
  }
}
