/** What each admission operation does to the reservations, in the words of the data. */
module AdmissionContracts {
  import opened Prelude
  import opened Admission

  /** The reservations of a requester, and of a tenant. */
  function OfRequester(slots: seq<Slot>, scope: Scope): set<nat> { set i | 0 <= i < |slots| && slots[i].scope == scope }
  function OfTenant(slots: seq<Slot>, tenantId: string): set<nat> { set i | 0 <= i < |slots| && slots[i].scope.tenantId == tenantId }

  /** A reservation is asked for: the first limit that is reached answers, or the token is the last slot. */
  predicate AcquireDoes(l: Limits, s: State, scope: Scope, uuid: string, t: State, verdict: Verdict) {
    && verdict ==
       (if s.closing then Closed
        else if |OfRequester(s.slots, scope)| >= l.requester then RequesterFull
        else if |OfTenant(s.slots, scope.tenantId)| >= l.tenant then TenantFull
        else if |s.slots| >= l.global then GlobalFull
        else Admitted)
    && t == if verdict == Admitted then s.(slots := s.slots + [Slot("admission-" + uuid, scope, None, Reserved, 0, None)]) else s
  }

  /** The slot of the token, if it is held. */
  predicate HeldAt(slots: seq<Slot>, token: string, i: nat) {
    i < |slots| && slots[i].token == token && forall j :: 0 <= j < i ==> slots[j].token != token
  }

  predicate NotHeld(slots: seq<Slot>, token: string) { forall i :: 0 <= i < |slots| ==> slots[i].token != token }

  /** One slot changes to this, and the index of jobs. */
  predicate Changes(s: State, i: nat, slot: Slot, t: State) {
    i < |s.slots| && t.slots == s.slots[i := slot] && t.closing == s.closing
  }

  ghost predicate BindDoes(s: State, token: string, jobId: string, r: Result<State, Failure>) {
    && (NotHeld(s.slots, token) ==> r == Err(NotActive))
    && forall i: nat :: HeldAt(s.slots, token, i) ==>
         var was := s.slots[i];
         if was.jobId == Some(jobId) then r == Ok(s)
         else if was.jobId != None || jobId in s.jobTokens then r == Err(AlreadyBound)
         else r.Ok? && Changes(s, i, Slot(token, was.scope, Some(jobId), Bound, was.attempts, was.failureCode), r.value)
              && r.value.jobTokens == s.jobTokens[jobId := token]
  }

  ghost predicate MarkDoes(s: State, token: string, r: Result<State, Failure>) {
    && (NotHeld(s.slots, token) ==> r == Err(NotActive))
    && forall i: nat :: HeldAt(s.slots, token, i) ==>
         var was := s.slots[i];
         if was.phase == Unresolved then r == Ok(s)
         else r.Ok? && Changes(s, i, Slot(token, was.scope, was.jobId, TerminalPending, was.attempts, was.failureCode), r.value)
              && r.value.jobTokens == s.jobTokens
  }

  ghost predicate DoubtDoes(s: State, token: string, failureCode: string, r: Result<State, Failure>) {
    && (NotHeld(s.slots, token) ==> r == Err(NotActive))
    && forall i: nat :: HeldAt(s.slots, token, i) ==>
         var was := s.slots[i];
         r.Ok? && Changes(s, i, Slot(token, was.scope, was.jobId, Unresolved, was.attempts + 1, Some(failureCode)), r.value)
         && r.value.jobTokens == s.jobTokens
  }

  /** A release takes the slot out and, if the job still points to it, the job out of the index. */
  ghost predicate ReleaseDoes(s: State, token: string, t: State) {
    && t.closing == s.closing
    && (NotHeld(s.slots, token) ==> t == s)
    && forall i: nat :: HeldAt(s.slots, token, i) ==>
         && |t.slots| == |s.slots| - 1 && (forall k :: 0 <= k < |t.slots| ==> t.slots[k] == s.slots[if k < i then k else k + 1])
         && var job := s.slots[i].jobId;
            t.jobTokens == if job.Some? && job.value in s.jobTokens && s.jobTokens[job.value] == token then s.jobTokens - {job.value} else s.jobTokens
  }

  // ---- reconstruction ----

  predicate Admissible(r: JobRecord) { r.active && r.id != "" && r.scope.tenantId != "" && r.scope.requesterId != "" }

  /** The last admissible record of the job. */
  predicate Latest(records: seq<JobRecord>, id: string, i: nat) {
    && i < |records| && Admissible(records[i]) && records[i].id == id
    && forall j :: i < j < |records| ==> !(Admissible(records[j]) && records[j].id == id)
  }

  predicate Unlisted(records: seq<JobRecord>, id: string) { forall i :: 0 <= i < |records| ==> !(Admissible(records[i]) && records[i].id == id) }

  predicate ActiveSomewhere(records: seq<JobRecord>, id: string) { exists i :: 0 <= i < |records| && records[i].active && records[i].id == id }

  /** What becomes of a reservation: bound again under the scope of its active job, unresolved if its job is
    * not active any more, and otherwise left alone. */
  ghost predicate Reconstructed(was: Slot, records: seq<JobRecord>, slot: Slot) {
    if was.jobId == None then slot == was
    else
      var id := was.jobId.value;
      && (forall i: nat :: Latest(records, id, i) ==> slot == Slot(was.token, records[i].scope, was.jobId, Bound, was.attempts, was.failureCode))
      && (Unlisted(records, id) ==>
            slot == if was.phase == Bound && !ActiveSomewhere(records, id)
                    then Slot(was.token, was.scope, was.jobId, Unresolved, was.attempts + 1, Some("RESTART_RECONCILIATION_REQUIRED")) else was)
  }

  /** A reservation for an active job that had none. */
  ghost predicate Recovered(s: State, records: seq<JobRecord>, slot: Slot) {
    slot.jobId.Some? && slot.jobId.value !in s.jobTokens
    && exists i: nat :: Latest(records, slot.jobId.value, i)
         && slot == Slot("recovered:" + slot.jobId.value, records[i].scope, slot.jobId, Bound, 0, None)
  }

  ghost predicate ReconstructDoes(s: State, records: seq<JobRecord>, t: State) {
    && t.closing == s.closing && |s.slots| <= |t.slots|
    && (forall k :: 0 <= k < |s.slots| ==> Reconstructed(s.slots[k], records, t.slots[k]))
    && (forall k :: |s.slots| <= k < |t.slots| ==> Recovered(s, records, t.slots[k]))
    && (forall i :: 0 <= i < |records| && Admissible(records[i]) ==> exists k :: 0 <= k < |t.slots| && t.slots[k].jobId == Some(records[i].id))
  }

  // ---- the operations do that ----

  lemma {:induction false} RequestersAre(slots: seq<Slot>, scope: Scope)
    ensures CountRequester(slots, scope) == |OfRequester(slots, scope)|
    decreases |slots|
  {
    if slots != [] {
      var n := |slots| - 1;
      RequestersAre(slots[..n], scope);
      assert OfRequester(slots, scope) == OfRequester(slots[..n], scope) + if slots[n].scope == scope then {n} else {};
    }
  }

  lemma {:induction false} TenantsAre(slots: seq<Slot>, tenantId: string)
    ensures CountTenant(slots, tenantId) == |OfTenant(slots, tenantId)|
    decreases |slots|
  {
    if slots != [] {
      var n := |slots| - 1;
      TenantsAre(slots[..n], tenantId);
      assert OfTenant(slots, tenantId) == OfTenant(slots[..n], tenantId) + if slots[n].scope.tenantId == tenantId then {n} else {};
    }
  }

  lemma {:induction false} AcquiresSo(l: Limits, s: State, scope: Scope, uuid: string)
    ensures Apply(l, s, TryAcquire(scope, uuid)).Ok? && AcquireDoes(l, s, scope, uuid, Apply(l, s, TryAcquire(scope, uuid)).value, Admit(l, s, scope))
  {
    RequestersAre(s.slots, scope);
    TenantsAre(s.slots, scope.tenantId);
    hide CountRequester, CountTenant, OfRequester, OfTenant;
  }

  lemma {:induction false} HeldIndex(slots: seq<Slot>, token: string)
    ensures NotHeld(slots, token) <==> IndexOf(slots, token) == |slots|
    ensures forall i: nat :: HeldAt(slots, token, i) ==> i == IndexOf(slots, token)
  {}

  lemma {:induction false} BindsSo(l: Limits, s: State, token: string, jobId: string)
    ensures BindDoes(s, token, jobId, Apply(l, s, Bind(token, jobId)))
  {
    HeldIndex(s.slots, token);
  }

  lemma {:induction false} MarksSo(l: Limits, s: State, token: string, failureCode: string)
    ensures MarkDoes(s, token, Apply(l, s, MarkTerminalPending(token)))
    ensures DoubtDoes(s, token, failureCode, Apply(l, s, MarkUnresolved(token, failureCode)))
  {
    HeldIndex(s.slots, token);
  }

  lemma {:induction false} ReleasesSo(l: Limits, s: State, token: string)
    ensures Apply(l, s, Release(token)).Ok? && ReleaseDoes(s, token, Apply(l, s, Release(token)).value)
    ensures Apply(l, s, Close) == Ok(s.(closing := true))
  {
    HeldIndex(s.slots, token);
  }

  // ---- reconstruction does that ----

  /** Where the readmission of some of the records has brought a reservation that was there before. */
  ghost predicate Rebound(was: Slot, records: seq<JobRecord>, slot: Slot) {
    if was.jobId == None then slot == was
    else
      var id := was.jobId.value;
      && (forall i: nat :: Latest(records, id, i) ==> slot == was.(scope := records[i].scope, phase := Bound))
      && (Unlisted(records, id) ==> slot == was)
  }

  lemma {:induction false} LatestOf(records: seq<JobRecord>, r: JobRecord, id: string)
    ensures Admissible(r) && r.id == id ==> Latest(records + [r], id, |records|) && !Unlisted(records + [r], id)
    ensures forall i: nat :: Admissible(r) && r.id == id && Latest(records + [r], id, i) ==> i == |records|
    ensures !(Admissible(r) && r.id == id) ==>
      && (Unlisted(records + [r], id) <==> Unlisted(records, id))
      && forall i: nat :: Latest(records + [r], id, i) <==> Latest(records, id, i)
  {
    var all := records + [r];
    assert all[|records|] == r;
    assert forall i :: 0 <= i < |records| ==> all[i] == records[i];
  }

  /** One record, after the others. */
  lemma {:induction false} ReboundNext(was: Slot, records: seq<JobRecord>, slot: Slot, r: JobRecord, next: Slot)
    requires Rebound(was, records, slot)
    requires next == if Admissible(r) && was.jobId == Some(r.id) then slot.(scope := r.scope, phase := Bound) else slot
    requires slot == was.(scope := slot.scope, phase := slot.phase)
    ensures Rebound(was, records + [r], next)
  {
    if was.jobId.Some? { LatestOf(records, r, was.jobId.value); }
    assert (records + [r])[|records|] == r;
    assert forall i :: 0 <= i < |records| ==> (records + [r])[i] == records[i];
    hide Latest, Unlisted, Admissible;
  }

  lemma {:induction false} RecoveredNext(s: State, records: seq<JobRecord>, slot: Slot, r: JobRecord, next: Slot)
    requires Recovered(s, records, slot)
    requires next == if Admissible(r) && slot.jobId == Some(r.id) then slot.(scope := r.scope, phase := Bound) else slot
    ensures Recovered(s, records + [r], next)
  {
    LatestOf(records, r, slot.jobId.value);
    var i: nat :| Latest(records, slot.jobId.value, i)
         && slot == Slot("recovered:" + slot.jobId.value, records[i].scope, slot.jobId, Bound, 0, None);
    assert (records + [r])[|records|] == r && (records + [r])[i] == records[i];
    hide Latest, Unlisted;
    if Admissible(r) && slot.jobId == Some(r.id) { assert Latest(records + [r], slot.jobId.value, |records|); }
    else { assert Latest(records + [r], slot.jobId.value, i); }
  }

  lemma {:induction false} RecoveredLast(s: State, records: seq<JobRecord>, r: JobRecord, slot: Slot)
    requires Admissible(r) && r.id !in s.jobTokens && slot == Slot("recovered:" + r.id, r.scope, Some(r.id), Bound, 0, None)
    ensures Recovered(s, records + [r], slot)
  {
    LatestOf(records, r, r.id);
    assert Latest(records + [r], r.id, |records|) && (records + [r])[|records|] == r;
  }

  /** Readmission, for the records so far. */
  ghost predicate ReadmitDoes(d: State, records: seq<JobRecord>, t: State) {
    && t.closing == d.closing && |d.slots| <= |t.slots|
    && (forall k :: 0 <= k < |d.slots| ==> Rebound(d.slots[k], records, t.slots[k]) && SameSlot(d.slots[k], t.slots[k]))
    && (forall k :: |d.slots| <= k < |t.slots| ==> Recovered(d, records, t.slots[k]))
    && (forall i :: 0 <= i < |records| && Admissible(records[i]) ==> HasJob(t.slots, records[i].id))
  }

  predicate SameSlot(a: Slot, b: Slot) { b == a.(scope := b.scope, phase := b.phase) }

  predicate HasJob(slots: seq<Slot>, id: string) { exists k :: 0 <= k < |slots| && slots[k].jobId == Some(id) }

  /** What one record does to the reservations: rebinds the one of its job, or adds one at the end. */
  predicate OneDoes(s: State, r: JobRecord, t: State) {
    && t.closing == s.closing
    && |t.slots| == |s.slots| + (if Admissible(r) && r.id !in s.jobTokens then 1 else 0)
    && (forall k :: 0 <= k < |s.slots| ==>
          t.slots[k] == if Admissible(r) && s.slots[k].jobId == Some(r.id) then s.slots[k].(scope := r.scope, phase := Bound) else s.slots[k])
    && (Admissible(r) && r.id !in s.jobTokens ==> t.slots[|s.slots|] == Slot("recovered:" + r.id, r.scope, Some(r.id), Bound, 0, None))
    && (Admissible(r) ==> HasJob(t.slots, r.id))
  }

  lemma {:induction false} OneDoesSo(s: State, r: JobRecord)
    requires InOrder(s)
    ensures OneDoes(s, r, ReadmitOne(s, r))
  {
    var t := ReadmitOne(s, r);
    if Admissible(r) {
      if r.id in s.jobTokens {
        var k :| 0 <= k < |s.slots| && s.slots[k].jobId == Some(r.id) && s.slots[k].token == s.jobTokens[r.id];
        IndexIs(s.slots, k);
        assert t.slots[k].jobId == Some(r.id);
      } else {
        RecoveredIsNew(s, r.id);
        assert t.slots == s.slots + [Slot(RecoveredToken(r.id), r.scope, Some(r.id), Bound, 0, None)];
        assert t.slots[|s.slots|].jobId == Some(r.id);
      }
    }
  }

  lemma {:induction false} NoneDoes(d: State)
    ensures ReadmitDoes(d, [], d)
  {
    forall k | 0 <= k < |d.slots| ensures Rebound(d.slots[k], [], d.slots[k]) {}
  }

  lemma {:induction false} ReadmitsSo(d: State, records: seq<JobRecord>)
    requires InOrder(d)
    ensures ReadmitDoes(d, records, Readmit(d, records)) && InOrder(Readmit(d, records))
    ensures forall id :: id in d.jobTokens ==> id in Readmit(d, records).jobTokens
    decreases |records|
  {
    if records == [] {
      NoneDoes(d);
    } else {
      hide ReadmitDoes, OneDoes, InOrder;
      var n := |records| - 1;
      var before, r := Readmit(d, records[..n]), records[n];
      ReadmitsSo(d, records[..n]);
      ReadmitOneInOrder(before, r);
      OneDoesSo(before, r);
      assert records == records[..n] + [r];
      ReadmitDoesNext(d, records[..n], before, r, ReadmitOne(before, r));
    }
  }

  lemma {:induction false} ReadmitDoesNext(d: State, records: seq<JobRecord>, before: State, r: JobRecord, t: State)
    requires ReadmitDoes(d, records, before) && OneDoes(before, r, t) && forall id :: id in d.jobTokens ==> id in before.jobTokens
    ensures ReadmitDoes(d, records + [r], t)
  {
    hide Rebound, Recovered, Latest, Unlisted;
    var all := records + [r];
    forall k | 0 <= k < |d.slots| ensures Rebound(d.slots[k], all, t.slots[k]) && SameSlot(d.slots[k], t.slots[k]) {
      ReboundNext(d.slots[k], records, before.slots[k], r, t.slots[k]);
    }
    forall k | |d.slots| <= k < |t.slots| ensures Recovered(d, all, t.slots[k]) {
      if k < |before.slots| { RecoveredNext(d, records, before.slots[k], r, t.slots[k]); }
      else { RecoveredLast(d, records, r, t.slots[k]); }
    }
    forall i | 0 <= i < |all| && Admissible(all[i]) ensures HasJob(t.slots, all[i].id) {
      if i < |records| {
        var k :| 0 <= k < |before.slots| && before.slots[k].jobId == Some(records[i].id);
        assert t.slots[k].jobId == Some(records[i].id);
      }
    }
  }

  lemma {:induction false} DoubtThenRebound(was: Slot, records: seq<JobRecord>, slot: Slot)
    requires Rebound(Doubted(was, records), records, slot)
    ensures Reconstructed(was, records, slot)
  {
    if was.jobId.Some? {
      var id := was.jobId.value;
      forall i: nat | Latest(records, id, i) ensures ActiveSomewhere(records, id) { assert records[i].active && records[i].id == id; }
      assert ActiveSomewhere(records, id) <==> ActiveIn(records, id);
    }
    hide Latest, Unlisted, ActiveSomewhere, ActiveIn;
  }

  lemma {:induction false} ReconstructsSo(l: Limits, s: State, records: seq<JobRecord>)
    requires InOrder(s)
    ensures Apply(l, s, Reconstruct(records)).Ok? && ReconstructDoes(s, records, Apply(l, s, Reconstruct(records)).value)
  {
    var d := s.(slots := Doubt(s.slots, records));
    DoubtKeepsKeys(s.slots, records);
    RewriteInOrder(s, d.slots);
    ReadmitsSo(d, records);
    var t := Readmit(d, records);
    forall k | 0 <= k < |s.slots| ensures Reconstructed(s.slots[k], records, t.slots[k]) { DoubtThenRebound(s.slots[k], records, t.slots[k]); }
    forall k | |s.slots| <= k < |t.slots| ensures Recovered(s, records, t.slots[k]) { assert Recovered(d, records, t.slots[k]); }
    forall i | 0 <= i < |records| && Admissible(records[i]) ensures exists k :: 0 <= k < |t.slots| && t.slots[k].jobId == Some(records[i].id) {
      assert HasJob(t.slots, records[i].id);
    }
    hide Readmit, Doubt, Rebound, Reconstructed, InOrder;
  }
}
