/** Admission reservations under three nested limits, and the journal they survive in. */
module Admission {
  import opened Prelude

  datatype Scope = Scope(tenantId: string, requesterId: string)

  datatype Phase = Reserved | Bound | TerminalPending | Unresolved

  /** One reservation; the controller keeps them in insertion order. */
  datatype Slot = Slot(
    token: string, scope: Scope, jobId: Option<string>, phase: Phase, attempts: nat, failureCode: Option<string>)

  datatype State = State(slots: seq<Slot>, jobTokens: map<string, string>, closing: bool)

  datatype Limits = Limits(global: nat, tenant: nat, requester: nat)

  predicate ValidLimits(l: Limits) {
    0 < l.requester <= l.tenant <= l.global && l.global <= 64 && l.tenant <= 32 && l.requester <= 16
  }

  datatype JobRecord = JobRecord(id: string, scope: Scope, active: bool)

  datatype Op =
    | TryAcquire(scope: Scope, uuid: string)
    | Bind(token: string, jobId: string)
    | MarkTerminalPending(token: string)
    | MarkUnresolved(token: string, failureCode: string)
    | Release(token: string)
    | Close
    | Reconstruct(records: seq<JobRecord>)

  datatype Failure = NotActive | AlreadyBound | JournalUnavailable

  function Init(): State { State([], map[], false) }

  // ---- lookups and counts ----

  predicate Has(slots: seq<Slot>, token: string) { exists i :: 0 <= i < |slots| && slots[i].token == token }

  function IndexOf(slots: seq<Slot>, token: string): (i: nat)
    ensures i <= |slots|
    ensures i < |slots| ==> slots[i].token == token
    ensures i == |slots| <==> !Has(slots, token)
    ensures forall j :: 0 <= j < i ==> slots[j].token != token
  {
    if slots == [] then 0
    else if slots[0].token == token then 0
    else
      assert Has(slots[1..], token) ==> Has(slots, token);
      assert Has(slots, token) ==> Has(slots[1..], token) by {
        if i :| 0 <= i < |slots| && slots[i].token == token { assert slots[1..][i - 1].token == token; }
      }
      1 + IndexOf(slots[1..], token)
  }

  function CountTenant(slots: seq<Slot>, tenantId: string): nat {
    if slots == [] then 0
    else CountTenant(slots[..|slots| - 1], tenantId) + if slots[|slots| - 1].scope.tenantId == tenantId then 1 else 0
  }

  function CountRequester(slots: seq<Slot>, scope: Scope): nat {
    if slots == [] then 0
    else CountRequester(slots[..|slots| - 1], scope) + if slots[|slots| - 1].scope == scope then 1 else 0
  }

  /** All three limits. */
  ghost predicate WithinLimits(l: Limits, slots: seq<Slot>) {
    && |slots| <= l.global
    && (forall tenantId :: CountTenant(slots, tenantId) <= l.tenant)
    && (forall scope :: CountRequester(slots, scope) <= l.requester)
  }

  datatype Verdict = Admitted | Closed | RequesterFull | TenantFull | GlobalFull

  /** The order of the checks: gate, requester, tenant, global. */
  function Admit(l: Limits, s: State, scope: Scope): Verdict {
    if s.closing then Closed
    else if CountRequester(s.slots, scope) >= l.requester then RequesterFull
    else if CountTenant(s.slots, scope.tenantId) >= l.tenant then TenantFull
    else if |s.slots| >= l.global then GlobalFull
    else Admitted
  }

  function Without(slots: seq<Slot>, i: nat): seq<Slot>
    requires i < |slots|
  {
    slots[..i] + slots[i + 1..]
  }

  // ---- the operations ----

  function AdmissionToken(uuid: string): string { "admission-" + uuid }

  function NewSlot(uuid: string, scope: Scope): Slot { Slot(AdmissionToken(uuid), scope, None, Reserved, 0, None) }

  function Apply(l: Limits, s: State, op: Op): Result<State, Failure> {
    match op
    case TryAcquire(scope, uuid) =>
      Ok(if Admit(l, s, scope).Admitted? then s.(slots := s.slots + [NewSlot(uuid, scope)]) else s)
    case Bind(token, jobId) =>
      var i := IndexOf(s.slots, token);
      if i == |s.slots| then Err(NotActive)
      else if s.slots[i].jobId == Some(jobId) then Ok(s)
      else if s.slots[i].jobId.Some? || jobId in s.jobTokens then Err(AlreadyBound)
      else Ok(s.(slots := s.slots[i := s.slots[i].(jobId := Some(jobId), phase := Bound)], jobTokens := s.jobTokens[jobId := token]))
    case MarkTerminalPending(token) =>
      var i := IndexOf(s.slots, token);
      if i == |s.slots| then Err(NotActive)
      else if s.slots[i].phase == Unresolved then Ok(s)
      else Ok(s.(slots := s.slots[i := s.slots[i].(phase := TerminalPending)]))
    case MarkUnresolved(token, failureCode) =>
      var i := IndexOf(s.slots, token);
      if i == |s.slots| then Err(NotActive)
      else Ok(s.(slots := s.slots[i := s.slots[i].(phase := Unresolved, failureCode := Some(failureCode), attempts := s.slots[i].attempts + 1)]))
    case Release(token) => Ok(Released(s, token))
    case Close => Ok(s.(closing := true))
    case Reconstruct(records) =>
      Ok(Readmit(s.(slots := Doubt(s.slots, records)), records))
  }

  function Released(s: State, token: string): State {
    var i := IndexOf(s.slots, token);
    if i == |s.slots| then s
    else
      var job := s.slots[i].jobId;
      s.(slots := Without(s.slots, i),
         jobTokens := if job.Some? && job.value in s.jobTokens && s.jobTokens[job.value] == token
                      then s.jobTokens - {job.value} else s.jobTokens)
  }

  predicate ActiveIn(records: seq<JobRecord>, id: string) {
    exists i :: 0 <= i < |records| && records[i].active && records[i].id == id
  }

  /** An active record that names its job and its scope. */
  predicate Readmitted(r: JobRecord) { r.active && r.scope.tenantId != "" && r.scope.requesterId != "" && r.id != "" }

  predicate ReadmittedIn(records: seq<JobRecord>, id: string) {
    exists i :: 0 <= i < |records| && Readmitted(records[i]) && records[i].id == id
  }

  /** A bound reservation whose job is no longer active becomes unresolved. */
  function Doubted(slot: Slot, records: seq<JobRecord>): Slot {
    if slot.jobId.Some? && !ActiveIn(records, slot.jobId.value) && slot.phase == Bound
    then slot.(phase := Unresolved, failureCode := Some("RESTART_RECONCILIATION_REQUIRED"), attempts := slot.attempts + 1)
    else slot
  }

  function Doubt(slots: seq<Slot>, records: seq<JobRecord>): (r: seq<Slot>)
    ensures |r| == |slots| && forall i :: 0 <= i < |r| ==> r[i] == Doubted(slots[i], records)
  {
    if slots == [] then [] else [Doubted(slots[0], records)] + Doubt(slots[1..], records)
  }

  function RecoveredToken(id: string): string { "recovered:" + id }

  function PutSlot(slots: seq<Slot>, slot: Slot): seq<Slot> {
    var i := IndexOf(slots, slot.token);
    if i < |slots| then slots[i := slot] else slots + [slot]
  }

  /** One active job gets its reservation back, rescoped, without asking the limits. */
  function ReadmitOne(s: State, r: JobRecord): State {
    if !Readmitted(r) then s
    else if r.id in s.jobTokens && Has(s.slots, s.jobTokens[r.id]) then
      var i := IndexOf(s.slots, s.jobTokens[r.id]);
      s.(slots := s.slots[i := s.slots[i].(scope := r.scope, phase := Bound)])
    else
      s.(slots := PutSlot(s.slots, Slot(RecoveredToken(r.id), r.scope, Some(r.id), Bound, 0, None)),
         jobTokens := s.jobTokens[r.id := RecoveredToken(r.id)])
  }

  function Readmit(s: State, records: seq<JobRecord>): State
    decreases |records|
  {
    if records == [] then s else ReadmitOne(Readmit(s, records[..|records| - 1]), records[|records| - 1])
  }

  // ---- the journal ----

  datatype Entry = Active(slot: Slot) | Gone(token: string)
  datatype Document = Document(closing: bool, entries: seq<Entry>)

  const JOURNAL_BOUND: nat := 2000

  function ActiveEntries(slots: seq<Slot>): (r: seq<Entry>)
    ensures |r| == |slots| && forall i :: 0 <= i < |r| ==> r[i] == Active(slots[i])
  {
    if slots == [] then [] else [Active(slots[0])] + ActiveEntries(slots[1..])
  }

  function LastEntries(entries: seq<Entry>, n: nat): seq<Entry> {
    if |entries| <= n then entries else entries[|entries| - n..]
  }

  /** persistJournal: active entries first, the release last, and of these the last 2000. */
  function Journal(s: State, released: Option<string>): Document {
    Document(s.closing, LastEntries(ActiveEntries(s.slots) + (if released.Some? then [Gone(released.value)] else []), JOURNAL_BOUND))
  }

  function ReleaseMark(op: Op): Option<string> { if op.Release? then Some(op.token) else None }

  /** loadJournal: released entries are skipped, job tokens rebuilt, and the gate reopened. */
  function LoadedSlots(entries: seq<Entry>): seq<Slot> {
    if entries == [] then []
    else
      var before := LoadedSlots(entries[..|entries| - 1]);
      if entries[|entries| - 1].Active? then PutSlot(before, entries[|entries| - 1].slot) else before
  }

  function TokensOf(slots: seq<Slot>): map<string, string> {
    if slots == [] then map[]
    else
      var before, last := TokensOf(slots[..|slots| - 1]), slots[|slots| - 1];
      if last.jobId.Some? then before[last.jobId.value := last.token] else before
  }

  function Load(d: Document): State {
    State(LoadedSlots(d.entries), TokensOf(LoadedSlots(d.entries)), false)
  }

  // ---- what the operations keep ----

  predicate DistinctTokens(slots: seq<Slot>) { forall i, j :: 0 <= i < j < |slots| ==> slots[i].token != slots[j].token }

  /** jobTokens is exactly the index of the reservations by job. */
  predicate Indexed(s: State) {
    && (forall i :: 0 <= i < |s.slots| && s.slots[i].jobId.Some? ==>
          s.slots[i].jobId.value in s.jobTokens && s.jobTokens[s.slots[i].jobId.value] == s.slots[i].token)
    && (forall id :: id in s.jobTokens ==> exists i :: 0 <= i < |s.slots| && s.slots[i].jobId == Some(id) && s.slots[i].token == s.jobTokens[id])
  }

  /** A recovered token belongs to the job in its name. */
  ghost predicate Named(slots: seq<Slot>) {
    forall i, id :: 0 <= i < |slots| && slots[i].token == RecoveredToken(id) ==> slots[i].jobId == Some(id)
  }

  ghost predicate InOrder(s: State) { DistinctTokens(s.slots) && Indexed(s) && Named(s.slots) }

  /** A random UUID has not been drawn before. */
  predicate Fresh(s: State, op: Op) { op.TryAcquire? ==> !Has(s.slots, AdmissionToken(op.uuid)) }

  lemma {:induction false} TokensDiffer(uuid: string, id: string)
    ensures AdmissionToken(uuid) != RecoveredToken(id)
  {
    assert AdmissionToken(uuid)[0] != RecoveredToken(id)[0];
  }

  lemma {:induction false} RecoveredInjective(a: string, b: string)
    requires RecoveredToken(a) == RecoveredToken(b)
    ensures a == b
  {
    assert RecoveredToken(a)[10..] == a && RecoveredToken(b)[10..] == b;
  }

  predicate SameKeys(a: seq<Slot>, b: seq<Slot>) {
    |a| == |b| && forall i :: 0 <= i < |a| ==> a[i].token == b[i].token && a[i].jobId == b[i].jobId
  }

  /** Rewriting slots without touching their tokens or jobs. */
  lemma {:induction false} RewriteInOrder(s: State, slots: seq<Slot>)
    requires InOrder(s) && SameKeys(s.slots, slots)
    ensures InOrder(s.(slots := slots))
  {
    forall id | id in s.jobTokens ensures exists k :: 0 <= k < |slots| && slots[k].jobId == Some(id) && slots[k].token == s.jobTokens[id] {
      var k :| 0 <= k < |s.slots| && s.slots[k].jobId == Some(id) && s.slots[k].token == s.jobTokens[id];
      assert slots[k].jobId == Some(id) && slots[k].token == s.jobTokens[id];
    }
  }

  lemma {:induction false} AppendInOrder(s: State, slot: Slot)
    requires InOrder(s) && !Has(s.slots, slot.token)
    requires slot.jobId.Some? ==> slot.jobId.value !in s.jobTokens
    requires forall id :: slot.token == RecoveredToken(id) ==> slot.jobId == Some(id)
    ensures InOrder(State(s.slots + [slot], if slot.jobId.Some? then s.jobTokens[slot.jobId.value := slot.token] else s.jobTokens, s.closing))
  {
    var t := State(s.slots + [slot], if slot.jobId.Some? then s.jobTokens[slot.jobId.value := slot.token] else s.jobTokens, s.closing);
    forall i, j | 0 <= i < j < |t.slots| ensures t.slots[i].token != t.slots[j].token {}
    forall id | id in t.jobTokens ensures exists k :: 0 <= k < |t.slots| && t.slots[k].jobId == Some(id) && t.slots[k].token == t.jobTokens[id] {
      if id in s.jobTokens {
        var k :| 0 <= k < |s.slots| && s.slots[k].jobId == Some(id) && s.slots[k].token == s.jobTokens[id];
        assert t.slots[k] == s.slots[k];
      } else {
        assert t.slots[|s.slots|] == slot;
      }
    }
  }

  lemma {:induction false} BindInOrder(s: State, i: nat, jobId: string)
    requires InOrder(s) && i < |s.slots| && s.slots[i].jobId.None? && jobId !in s.jobTokens
    ensures InOrder(s.(slots := s.slots[i := s.slots[i].(jobId := Some(jobId), phase := Bound)], jobTokens := s.jobTokens[jobId := s.slots[i].token]))
  {
    var t := s.(slots := s.slots[i := s.slots[i].(jobId := Some(jobId), phase := Bound)], jobTokens := s.jobTokens[jobId := s.slots[i].token]);
    forall id | id in t.jobTokens ensures exists k :: 0 <= k < |t.slots| && t.slots[k].jobId == Some(id) && t.slots[k].token == t.jobTokens[id] {
      if id in s.jobTokens {
        var k :| 0 <= k < |s.slots| && s.slots[k].jobId == Some(id) && s.slots[k].token == s.jobTokens[id];
        assert k != i && t.slots[k] == s.slots[k];
      } else {
        assert t.slots[i].jobId == Some(id);
      }
    }
  }

  lemma {:induction false} ReleaseInOrder(s: State, token: string)
    requires InOrder(s)
    ensures InOrder(Released(s, token))
  {
    var t := Released(s, token);
    var i := IndexOf(s.slots, token);
    if i < |s.slots| {
      assert forall k :: 0 <= k < |t.slots| ==> t.slots[k] == s.slots[if k < i then k else k + 1];
      forall id | id in t.jobTokens ensures exists k :: 0 <= k < |t.slots| && t.slots[k].jobId == Some(id) && t.slots[k].token == t.jobTokens[id] {
        var k :| 0 <= k < |s.slots| && s.slots[k].jobId == Some(id) && s.slots[k].token == s.jobTokens[id];
        assert k != i;
        assert t.slots[if k < i then k else k - 1] == s.slots[k];
      }
      forall k | 0 <= k < |t.slots| && t.slots[k].jobId.Some?
        ensures t.slots[k].jobId.value in t.jobTokens && t.jobTokens[t.slots[k].jobId.value] == t.slots[k].token {}
    }
  }

  lemma {:induction false} DoubtKeepsKeys(slots: seq<Slot>, records: seq<JobRecord>)
    ensures SameKeys(slots, Doubt(slots, records))
  {}

  /** A job with no token has no reservation, recovered or other. */
  lemma {:induction false} RecoveredIsNew(s: State, id: string)
    requires InOrder(s) && !(id in s.jobTokens && Has(s.slots, s.jobTokens[id]))
    ensures id !in s.jobTokens && !Has(s.slots, RecoveredToken(id))
  {
    forall x | x in s.jobTokens ensures Has(s.slots, s.jobTokens[x]) {}
  }

  lemma {:induction false} ReadmitOneInOrder(s: State, r: JobRecord)
    requires InOrder(s)
    ensures InOrder(ReadmitOne(s, r))
  {
    if Readmitted(r) {
      if r.id in s.jobTokens && Has(s.slots, s.jobTokens[r.id]) {
        var i := IndexOf(s.slots, s.jobTokens[r.id]);
        RewriteInOrder(s, s.slots[i := s.slots[i].(scope := r.scope, phase := Bound)]);
      } else {
        RecoveredIsNew(s, r.id);
        var slot := Slot(RecoveredToken(r.id), r.scope, Some(r.id), Bound, 0, None);
        forall id | slot.token == RecoveredToken(id) ensures slot.jobId == Some(id) { RecoveredInjective(r.id, id); }
        AppendInOrder(s, slot);
      }
    }
  }

  lemma {:induction false} ReadmitInOrder(s: State, records: seq<JobRecord>)
    requires InOrder(s)
    ensures InOrder(Readmit(s, records))
    decreases |records|
  {
    if records != [] {
      ReadmitInOrder(s, records[..|records| - 1]);
      ReadmitOneInOrder(Readmit(s, records[..|records| - 1]), records[|records| - 1]);
    }
  }

  lemma {:induction false} GateInOrder(s: State, closing: bool)
    requires InOrder(s)
    ensures InOrder(s.(closing := closing))
  {}

  /** Every operation keeps the index of reservations by job exact. */
  lemma {:induction false} ApplyInOrder(l: Limits, s: State, op: Op)
    requires InOrder(s) && Fresh(s, op) && Apply(l, s, op).Ok?
    ensures InOrder(Apply(l, s, op).value)
  {
    hide InOrder, Admit, Readmit, Doubt, Released;
    match op
    case TryAcquire(scope, uuid) =>
      if Admit(l, s, scope).Admitted? {
        forall id ensures AdmissionToken(uuid) != RecoveredToken(id) { TokensDiffer(uuid, id); }
        AppendInOrder(s, NewSlot(uuid, scope));
      }
    case Bind(token, jobId) =>
      var i := IndexOf(s.slots, token);
      if s.slots[i].jobId.None? { BindInOrder(s, i, jobId); }
    case MarkTerminalPending(token) =>
      var i := IndexOf(s.slots, token);
      RewriteInOrder(s, s.slots[i := s.slots[i].(phase := TerminalPending)]);
    case MarkUnresolved(token, failureCode) =>
      var i := IndexOf(s.slots, token);
      RewriteInOrder(s, s.slots[i := s.slots[i].(phase := Unresolved, failureCode := Some(failureCode), attempts := s.slots[i].attempts + 1)]);
    case Release(token) => ReleaseInOrder(s, token);
    case Close => GateInOrder(s, true);
    case Reconstruct(records) =>
      DoubtKeepsKeys(s.slots, records);
      RewriteInOrder(s, Doubt(s.slots, records));
      ReadmitInOrder(s.(slots := Doubt(s.slots, records)), records);
  }

  // ---- limits ----

  lemma {:induction false} CountsAppend(slots: seq<Slot>, slot: Slot)
    ensures forall t :: CountTenant(slots + [slot], t) == CountTenant(slots, t) + if slot.scope.tenantId == t then 1 else 0
    ensures forall c :: CountRequester(slots + [slot], c) == CountRequester(slots, c) + if slot.scope == c then 1 else 0
  {
    assert (slots + [slot])[..|slots|] == slots;
  }

  predicate SameScopes(a: seq<Slot>, b: seq<Slot>) {
    |a| == |b| && forall i :: 0 <= i < |a| ==> a[i].scope == b[i].scope
  }

  lemma {:induction false} CountsSame(a: seq<Slot>, b: seq<Slot>, t: string, c: Scope)
    requires SameScopes(a, b)
    ensures CountTenant(a, t) == CountTenant(b, t) && CountRequester(a, c) == CountRequester(b, c)
  {
    if a != [] { CountsSame(a[..|a| - 1], b[..|b| - 1], t, c); }
  }

  lemma {:induction false} CountsConcat(a: seq<Slot>, b: seq<Slot>, t: string, c: Scope)
    ensures CountTenant(a + b, t) == CountTenant(a, t) + CountTenant(b, t)
    ensures CountRequester(a + b, c) == CountRequester(a, c) + CountRequester(b, c)
    decreases |b|
  {
    if b == [] {
      assert a + b == a;
    } else {
      var n := |b| - 1;
      CountsConcat(a, b[..n], t, c);
      assert (a + b)[..|a| + n] == a + b[..n];
    }
  }

  lemma {:induction false} CountsWithout(slots: seq<Slot>, i: nat, t: string, c: Scope)
    requires i < |slots|
    ensures CountTenant(Without(slots, i), t) == CountTenant(slots, t) - if slots[i].scope.tenantId == t then 1 else 0
    ensures CountRequester(Without(slots, i), c) == CountRequester(slots, c) - if slots[i].scope == c then 1 else 0
  {
    var a, b := slots[..i], slots[i + 1..];
    assert slots == (a + [slots[i]]) + b;
    CountsConcat(a, b, t, c);
    CountsConcat(a + [slots[i]], b, t, c);
    CountsAppend(a, slots[i]);
  }

  /** No operation but reconstruction can break a limit. */
  lemma {:induction false} LimitsKept(l: Limits, s: State, op: Op)
    requires WithinLimits(l, s.slots) && !op.Reconstruct? && Apply(l, s, op).Ok?
    ensures WithinLimits(l, Apply(l, s, op).value.slots)
  {
    var t := Apply(l, s, op).value;
    if op.TryAcquire? && Admit(l, s, op.scope).Admitted? {
      CountsAppend(s.slots, NewSlot(op.uuid, op.scope));
    } else if op.Release? && IndexOf(s.slots, op.token) < |s.slots| {
      forall tenantId ensures CountTenant(t.slots, tenantId) <= l.tenant { CountsWithout(s.slots, IndexOf(s.slots, op.token), tenantId, Scope("", "")); }
      forall scope ensures CountRequester(t.slots, scope) <= l.requester { CountsWithout(s.slots, IndexOf(s.slots, op.token), "", scope); }
    } else {
      forall tenantId ensures CountTenant(t.slots, tenantId) <= l.tenant { CountsSame(s.slots, t.slots, tenantId, Scope("", "")); }
      forall scope ensures CountRequester(t.slots, scope) <= l.requester { CountsSame(s.slots, t.slots, "", scope); }
    }
  }

  // ---- capacity is freed by a release and by nothing else ----

  lemma {:induction false} ReadmitKeepsTokens(s: State, records: seq<JobRecord>, token: string)
    requires Has(s.slots, token)
    ensures Has(Readmit(s, records).slots, token)
    decreases |records|
  {
    if records != [] {
      ReadmitKeepsTokens(s, records[..|records| - 1], token);
      ReadmitOneKeepsTokens(Readmit(s, records[..|records| - 1]), records[|records| - 1], token);
    }
  }

  lemma {:induction false} ReadmitOneKeepsTokens(s: State, r: JobRecord, token: string)
    requires Has(s.slots, token)
    ensures Has(ReadmitOne(s, r).slots, token)
  {
    var i :| 0 <= i < |s.slots| && s.slots[i].token == token;
    assert ReadmitOne(s, r).slots[i].token == token;
  }

  lemma {:induction false} HasAt(slots: seq<Slot>, i: nat)
    requires i < |slots|
    ensures Has(slots, slots[i].token)
  {}

  lemma {:induction false} ReleaseFrees(s: State, released: string, token: string)
    requires DistinctTokens(s.slots) && Has(s.slots, token)
    ensures Has(Released(s, released).slots, token) <==> released != token
  {
    var t, i, k := Released(s, released), IndexOf(s.slots, token), IndexOf(s.slots, released);
    if k < |s.slots| {
      assert forall j :: 0 <= j < |t.slots| ==> t.slots[j] == s.slots[if j < k then j else j + 1];
      if released != token { HasAt(t.slots, if i < k then i else i - 1); }
    }
  }

  lemma {:induction false} OnlyReleaseFrees(l: Limits, s: State, op: Op, token: string)
    requires InOrder(s) && Has(s.slots, token) && Apply(l, s, op).Ok?
    ensures Has(Apply(l, s, op).value.slots, token) <==> op != Release(token)
  {
    if op.Release? {
      ReleaseFrees(s, op.token, token);
    } else if op.Reconstruct? {
      var i := IndexOf(s.slots, token);
      HasAt(Doubt(s.slots, op.records), i);
      ReadmitKeepsTokens(s.(slots := Doubt(s.slots, op.records)), op.records, token);
    } else {
      HasAt(Apply(l, s, op).value.slots, IndexOf(s.slots, token));
    }
  }

  // ---- what ends an unresolved reservation ----

  predicate HasUnresolved(slots: seq<Slot>, token: string) {
    exists i :: 0 <= i < |slots| && slots[i].token == token && slots[i].phase == Unresolved
  }

  function JobOf(slots: seq<Slot>, token: string): Option<string> {
    var i := IndexOf(slots, token);
    if i < |slots| then slots[i].jobId else None
  }

  /** Its release, which explicit recovery is; a first binding to a job; or a reconstruction that is
    * told its job is active. */
  predicate Resolves(s: State, op: Op, token: string) {
    || op == Release(token)
    || (op.Bind? && op.token == token && JobOf(s.slots, token).None?)
    || (op.Reconstruct? && JobOf(s.slots, token).Some? && ReadmittedIn(op.records, JobOf(s.slots, token).value))
  }

  lemma {:induction false} IndexIs(slots: seq<Slot>, i: nat)
    requires DistinctTokens(slots) && i < |slots|
    ensures IndexOf(slots, slots[i].token) == i
  {}

  lemma {:induction false} ReleaseResolves(s: State, released: string, token: string)
    requires InOrder(s) && HasUnresolved(s.slots, token)
    ensures HasUnresolved(Released(s, released).slots, token) <==> released != token
  {
    var t, k := Released(s, released), IndexOf(s.slots, released);
    var i :| 0 <= i < |s.slots| && s.slots[i].token == token && s.slots[i].phase == Unresolved;
    ReleaseFrees(s, released, token);
    if k < |s.slots| && released != token { assert t.slots[if i < k then i else i - 1] == s.slots[i]; }
    forall k | 0 <= k < |t.slots| ensures Has(t.slots, t.slots[k].token) { HasAt(t.slots, k); }
  }

  /** Record by record: the reservation of a job told active is bound, every other one is as it was. */
  lemma {:induction false} ReadmitOneAt(s: State, r: JobRecord, i: nat)
    requires InOrder(s) && i < |s.slots|
    ensures var t := ReadmitOne(s, r);
      && i < |t.slots| && t.slots[i].token == s.slots[i].token && t.slots[i].jobId == s.slots[i].jobId
      && t.slots[i].phase == if Readmitted(r) && s.slots[i].jobId == Some(r.id) then Bound else s.slots[i].phase
  {
    if Readmitted(r) {
      if r.id in s.jobTokens && Has(s.slots, s.jobTokens[r.id]) {
        IndexIs(s.slots, i);
        var k :| 0 <= k < |s.slots| && s.slots[k].jobId == Some(r.id) && s.slots[k].token == s.jobTokens[r.id];
        IndexIs(s.slots, k);
      } else {
        RecoveredIsNew(s, r.id);
      }
    }
  }

  lemma {:induction false} ReadmitAt(s: State, records: seq<JobRecord>, i: nat)
    requires InOrder(s) && i < |s.slots|
    ensures var t := Readmit(s, records);
      && i < |t.slots| && t.slots[i].token == s.slots[i].token && t.slots[i].jobId == s.slots[i].jobId
      && t.slots[i].phase == if s.slots[i].jobId.Some? && ReadmittedIn(records, s.slots[i].jobId.value) then Bound else s.slots[i].phase
    decreases |records|
  {
    if records != [] {
      var before, r := records[..|records| - 1], records[|records| - 1];
      ReadmitAt(s, before, i);
      ReadmitInOrder(s, before);
      ReadmitOneAt(Readmit(s, before), r, i);
      ReadmittedLast(records, s.slots[i].jobId.UnwrapOr(""));
    }
  }

  lemma {:induction false} ReadmittedLast(records: seq<JobRecord>, id: string)
    requires records != []
    ensures var n := |records| - 1;
      ReadmittedIn(records, id) <==> ReadmittedIn(records[..n], id) || (Readmitted(records[n]) && records[n].id == id)
  {
    var before := records[..|records| - 1];
    if ReadmittedIn(before, id) {
      var i :| 0 <= i < |before| && Readmitted(before[i]) && before[i].id == id;
      assert records[i] == before[i];
    }
    if ReadmittedIn(records, id) {
      var i :| 0 <= i < |records| && Readmitted(records[i]) && records[i].id == id;
      assert i < |before| ==> before[i] == records[i];
    }
  }

  lemma {:induction false} UnresolvedPlace(s: State, token: string) returns (i: nat)
    requires InOrder(s) && HasUnresolved(s.slots, token)
    ensures i < |s.slots| && s.slots[i].token == token && s.slots[i].phase == Unresolved && IndexOf(s.slots, token) == i
  {
    i :| 0 <= i < |s.slots| && s.slots[i].token == token && s.slots[i].phase == Unresolved;
    IndexIs(s.slots, i);
  }

  /** An unresolved reservation stays unresolved under every operation, exactly but those that resolve it. */
  lemma {:induction false} UnresolvedNeedsRecovery(l: Limits, s: State, op: Op, token: string)
    requires InOrder(s) && Fresh(s, op) && HasUnresolved(s.slots, token) && Apply(l, s, op).Ok?
    ensures HasUnresolved(Apply(l, s, op).value.slots, token) <==> !Resolves(s, op, token)
  {
    hide InOrder, HasUnresolved, Readmitted, ReadmittedIn, DistinctTokens, IndexOf, Has;
    var i := UnresolvedPlace(s, token);
    if op.Release? {
      ReleaseResolves(s, op.token, token);
    } else {
      ApplyInOrder(l, s, op);
      if op.Reconstruct? { ReconstructAt(s, op.records, i); } else { PhaseAt(l, s, op, i); }
      hide Apply;
      UnresolvedAt(Apply(l, s, op).value, token, i);
    }
  }

  lemma {:induction false} ReconstructAt(s: State, records: seq<JobRecord>, i: nat)
    requires InOrder(s) && i < |s.slots| && s.slots[i].phase == Unresolved
    ensures var t := Readmit(s.(slots := Doubt(s.slots, records)), records);
      && i < |t.slots| && t.slots[i].token == s.slots[i].token
      && (t.slots[i].phase == Unresolved <==> !(s.slots[i].jobId.Some? && ReadmittedIn(records, s.slots[i].jobId.value)))
  {
    DoubtKeepsKeys(s.slots, records);
    var d := s.(slots := Doubt(s.slots, records));
    RewriteInOrder(s, d.slots);
    ReadmitAt(d, records, i);
  }

  lemma {:induction false} PhaseAt(l: Limits, s: State, op: Op, i: nat)
    requires i < |s.slots| && s.slots[i].phase == Unresolved && IndexOf(s.slots, s.slots[i].token) == i
    requires !op.Release? && !op.Reconstruct? && Apply(l, s, op).Ok?
    ensures var t := Apply(l, s, op).value;
      && i < |t.slots| && t.slots[i].token == s.slots[i].token
      && (t.slots[i].phase == Unresolved <==> !(op.Bind? && op.token == s.slots[i].token && s.slots[i].jobId.None?))
  {
    hide Admit;
  }

  lemma {:induction false} UnresolvedAt(t: State, token: string, i: nat)
    requires InOrder(t) && i < |t.slots| && t.slots[i].token == token
    ensures HasUnresolved(t.slots, token) <==> t.slots[i].phase == Unresolved
  {}

  /** An explicit recovery is not always needed: told that the job is active, reconstruction alone
    * binds the reservation again. */
  lemma {:induction false} ReconstructionResolves(scope: Scope)
    requires scope.tenantId != "" && scope.requesterId != ""
    ensures var slot := Slot("admission-1", scope, Some("job"), Unresolved, 1, Some("LOST"));
      var s := State([slot], map["job" := "admission-1"], false);
      var t := Apply(Limits(1, 1, 1), s, Reconstruct([JobRecord("job", scope, true)])).value;
      InOrder(s) && HasUnresolved(s.slots, "admission-1") && t.slots == [slot.(phase := Bound)]
  {
    var slot := Slot("admission-1", scope, Some("job"), Unresolved, 1, Some("LOST"));
    var s := State([slot], map["job" := "admission-1"], false);
    var records := [JobRecord("job", scope, true)];
    assert s.slots[0] == slot;
    forall id ensures slot.token != RecoveredToken(id) { TokensDiffer("1", id); }
    assert records[..0] == [] && Doubt(s.slots, records) == s.slots by { assert records[0].active && records[0].id == "job"; }
    assert Readmit(s, []) == s && IndexOf(s.slots, "admission-1") == 0;
  }

  /** Releasing twice is releasing once. */
  lemma {:induction false} ReleaseIdempotent(s: State, token: string)
    requires InOrder(s)
    ensures !Has(Released(s, token).slots, token)
    ensures Released(Released(s, token), token) == Released(s, token)
  {
    var i := IndexOf(s.slots, token);
    if i < |s.slots| {
      var t := Released(s, token);
      assert forall k :: 0 <= k < |t.slots| ==> t.slots[k] == s.slots[if k < i then k else k + 1];
    }
  }

  // ---- the journal gives back what was stored ----

  lemma {:induction false} LoadedLast(entries: seq<Entry>, slots: seq<Slot>, slot: Slot)
    requires LoadedSlots(entries) == slots && !Has(slots, slot.token)
    ensures LoadedSlots(entries + [Active(slot)]) == slots + [slot]
  {
    assert (entries + [Active(slot)])[..|entries|] == entries;
  }

  lemma {:induction false} LastIsNew(slots: seq<Slot>)
    requires DistinctTokens(slots) && slots != []
    ensures DistinctTokens(slots[..|slots| - 1]) && !Has(slots[..|slots| - 1], slots[|slots| - 1].token)
  {}

  lemma {:induction false} NoneLoaded()
    ensures LoadedSlots([]) == []
  {}

  lemma {:induction false} LoadedActive(slots: seq<Slot>)
    requires DistinctTokens(slots)
    ensures LoadedSlots(ActiveEntries(slots)) == slots
  {
    hide DistinctTokens, Has, LoadedSlots, PutSlot;
    if slots == [] {
      NoneLoaded();
    } else {
      var n := |slots| - 1;
      LastIsNew(slots);
      LoadedActive(slots[..n]);
      LoadedLast(ActiveEntries(slots[..n]), slots[..n], slots[n]);
      assert ActiveEntries(slots) == ActiveEntries(slots[..n]) + [Active(slots[n])];
      assert slots == slots[..n] + [slots[n]];
    }
  }

  lemma {:induction false} TokensExact(slots: seq<Slot>)
    ensures forall id :: id in TokensOf(slots) ==> exists i :: 0 <= i < |slots| && slots[i].jobId == Some(id) && slots[i].token == TokensOf(slots)[id]
    ensures forall i :: 0 <= i < |slots| && slots[i].jobId.Some? ==> slots[i].jobId.value in TokensOf(slots)
  {
    if slots != [] {
      var n := |slots| - 1;
      TokensExact(slots[..n]);
      var before := TokensOf(slots[..n]);
      forall id | id in TokensOf(slots) ensures exists i :: 0 <= i < |slots| && slots[i].jobId == Some(id) && slots[i].token == TokensOf(slots)[id] {
        if slots[n].jobId == Some(id) {
          assert slots[n].token == TokensOf(slots)[id];
        } else {
          var i :| 0 <= i < n && slots[..n][i].jobId == Some(id) && slots[..n][i].token == before[id];
          assert slots[i].jobId == Some(id);
        }
      }
      forall i | 0 <= i < |slots| && slots[i].jobId.Some? ensures slots[i].jobId.value in TokensOf(slots) {
        if i < n { assert slots[..n][i] == slots[i]; }
      }
    }
  }

  lemma {:induction false} TokensRebuilt(s: State)
    requires InOrder(s)
    ensures TokensOf(s.slots) == s.jobTokens
  {
    TokensExact(s.slots);
    forall id ensures id in TokensOf(s.slots) <==> id in s.jobTokens {}
    forall id | id in s.jobTokens ensures TokensOf(s.slots)[id] == s.jobTokens[id] {}
  }

  function Count(released: Option<string>): nat { if released.Some? then 1 else 0 }

  function AllEntries(s: State, released: Option<string>): seq<Entry> {
    ActiveEntries(s.slots) + (if released.Some? then [Gone(released.value)] else [])
  }

  lemma {:induction false} AllLoaded(s: State, released: Option<string>)
    requires DistinctTokens(s.slots)
    ensures LoadedSlots(AllEntries(s, released)) == s.slots
  {
    var all := AllEntries(s, released);
    LoadedActive(s.slots);
    if released.Some? { assert all[..|all| - 1] == ActiveEntries(s.slots); } else { assert all == ActiveEntries(s.slots); }
  }

  lemma {:induction false} JournalTruncated(s: State, released: Option<string>)
    requires |s.slots| + Count(released) > JOURNAL_BOUND
    ensures |LoadedSlots(Journal(s, released).entries)| < |s.slots|
  {
    var all := AllEntries(s, released);
    var entries := Journal(s, released).entries;
    assert entries == LastEntries(all, JOURNAL_BOUND) && |entries| == JOURNAL_BOUND;
    LoadedBounded(entries);
    if released.Some? {
      assert entries[|entries| - 1] == all[|all| - 1];
      MarkTakesRoom(entries);
    }
  }

  /** Reloading the journal gives back the same reservations, with the gate reopened,
    * exactly as long as they fit the journal's 2000 entries. */
  lemma {:induction false} JournalExact(s: State, released: Option<string>)
    requires InOrder(s)
    ensures Load(Journal(s, released)) == s.(closing := false) <==> |s.slots| + Count(released) <= JOURNAL_BOUND
  {
    if |s.slots| + Count(released) <= JOURNAL_BOUND {
      AllLoaded(s, released);
      TokensRebuilt(s);
      hide LoadedSlots, TokensOf;
      assert Journal(s, released).entries == AllEntries(s, released);
    } else {
      JournalTruncated(s, released);
    }
  }

  lemma {:induction false} LoadedBounded(entries: seq<Entry>)
    ensures |LoadedSlots(entries)| <= |entries|
  {
    if entries != [] { LoadedBounded(entries[..|entries| - 1]); }
  }

  lemma {:induction false} MarkTakesRoom(entries: seq<Entry>)
    requires entries != [] && entries[|entries| - 1].Gone?
    ensures |LoadedSlots(entries)| < |entries|
  {
    LoadedBounded(entries[..|entries| - 1]);
  }
}
