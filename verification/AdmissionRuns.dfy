/** Whole histories of the admission controller: failed journal writes, processes killed
  * between two writes, and restarts. */
module AdmissionRuns {
  import opened Prelude
  import opened Admission

  datatype System = System(memory: State, journal: Document)

  datatype Event =
    | Do(op: Op, stored: bool)            // one operation; its journal write succeeds or fails
    | Kill(during: Option<Op>, stored: bool)  // the process dies, perhaps inside an operation, before or after its write

  function OpOf(e: Event): Option<Op> { if e.Do? then Some(e.op) else e.during }

  predicate Allowed(sys: System, e: Event) {
    match e
    case Do(op, _) => Fresh(sys.memory, op)
    case Kill(op, _) => op.Some? ==> Fresh(sys.memory, op.value)
  }

  /** The journal after an operation whose write landed, or the journal as it was. */
  function Landed(l: Limits, sys: System, op: Op, stored: bool): Document {
    var r := Apply(l, sys.memory, op);
    if stored && r.Ok? then Journal(r.value, ReleaseMark(op)) else sys.journal
  }

  /** A new process: it loads the journal, and writes it back if it had to reopen the gate. */
  function Restarted(journal: Document): System {
    System(Load(journal), if journal.closing then Journal(Load(journal), None) else journal)
  }

  function Step(l: Limits, sys: System, e: Event): System {
    match e
    case Do(op, stored) =>
      var r := Apply(l, sys.memory, op);
      if r.Ok? && stored then System(r.value, Landed(l, sys, op, stored)) else sys
    case Kill(op, stored) => Restarted(if op.Some? then Landed(l, sys, op.value, stored) else sys.journal)
  }

  function Start(): System { System(Init(), Document(false, [])) }

  predicate IsRun(l: Limits, sys: System, es: seq<Event>)
    decreases |es|
  {
    es == [] || (Allowed(sys, es[0]) && IsRun(l, Step(l, sys, es[0]), es[1..]))
  }

  function Run(l: Limits, sys: System, es: seq<Event>): System
    requires IsRun(l, sys, es)
    decreases |es|
  {
    if es == [] then sys else Run(l, Step(l, sys, es[0]), es[1..])
  }

  // ---- the sequential meaning of a history ----

  datatype Act = Did(op: Op) | Reopened

  /** The operations whose write landed, and the restarts, in order. */
  function Effective(l: Limits, sys: System, es: seq<Event>): seq<Act>
    requires IsRun(l, sys, es)
    decreases |es|
  {
    if es == [] then []
    else Acts(l, sys, es[0]) + Effective(l, Step(l, sys, es[0]), es[1..])
  }

  function Acts(l: Limits, sys: System, e: Event): seq<Act> {
    match e
    case Do(op, stored) => if stored && Apply(l, sys.memory, op).Ok? then [Did(op)] else []
    case Kill(op, stored) =>
      (if op.Some? && stored && Apply(l, sys.memory, op.value).Ok? then [Did(op.value)] else []) + [Reopened]
  }

  function Fold(l: Limits, s: State, acts: seq<Act>): State
    decreases |acts|
  {
    if acts == [] then s
    else Fold(l, match acts[0]
                 case Reopened => s.(closing := false)
                 case Did(op) => if Apply(l, s, op).Ok? then Apply(l, s, op).value else s, acts[1..])
  }

  lemma {:induction false} FoldConcat(l: Limits, s: State, a: seq<Act>, b: seq<Act>)
    ensures Fold(l, s, a + b) == Fold(l, Fold(l, s, a), b)
    decreases |a|
  {
    if a == [] {
      assert a + b == b;
    } else {
      assert (a + b)[1..] == a[1..] + b;
      FoldConcat(l, match a[0]
                    case Reopened => s.(closing := false)
                    case Did(op) => if Apply(l, s, op).Ok? then Apply(l, s, op).value else s, a[1..], b);
    }
  }

  /** The event carries out an operation and its write lands. */
  predicate Writes(l: Limits, sys: System, e: Event) {
    OpOf(e).Some? && Stored(e) && Apply(l, sys.memory, OpOf(e).value).Ok?
  }

  predicate Stored(e: Event) {
    match e
    case Do(_, stored) => stored
    case Kill(_, stored) => stored
  }

  /** What is written always fits the journal. */
  predicate Fits(l: Limits, sys: System, e: Event) {
    Writes(l, sys, e) ==>
      |Apply(l, sys.memory, OpOf(e).value).value.slots| + Count(ReleaseMark(OpOf(e).value)) <= JOURNAL_BOUND
  }

  predicate AllFit(l: Limits, sys: System, es: seq<Event>)
    requires IsRun(l, sys, es)
    decreases |es|
  {
    es != [] ==> Fits(l, sys, es[0]) && AllFit(l, Step(l, sys, es[0]), es[1..])
  }

  /** The journal holds what the process holds. */
  ghost predicate Durable(sys: System) {
    && InOrder(sys.memory)
    && |sys.memory.slots| <= JOURNAL_BOUND
    && Load(sys.journal) == sys.memory.(closing := false)
  }


  lemma {:induction false} LandedDurable(l: Limits, sys: System, op: Op, stored: bool)
    requires Durable(sys) && Fresh(sys.memory, op) && Fits(l, sys, Do(op, stored))
    ensures var r := Apply(l, sys.memory, op);
      var t := if stored && r.Ok? then r.value else sys.memory;
      InOrder(t) && |t.slots| <= JOURNAL_BOUND && Load(Landed(l, sys, op, stored)) == t.(closing := false)
  {
    var r := Apply(l, sys.memory, op);
    if stored && r.Ok? {
      ApplyInOrder(l, sys.memory, op);
      JournalExact(r.value, ReleaseMark(op));
    }
  }

  lemma {:induction false} RestartDurable(journal: Document, t: State)
    requires InOrder(t) && |t.slots| <= JOURNAL_BOUND && Load(journal) == t.(closing := false)
    ensures Durable(Restarted(journal)) && Restarted(journal).memory == t.(closing := false)
  {
    JournalExact(Load(journal), None);
  }

  /** A new process holds what the journal lists, with the gate open, and a journal that was closed then says
    * so too; any other stays as it was written. */
  lemma {:induction false} RestartReopens(journal: Document)
    ensures var sys := Restarted(journal);
      && sys.memory.slots == LoadedSlots(journal.entries) && !sys.memory.closing
      && !sys.journal.closing && (!journal.closing ==> sys.journal == journal)
      && (journal.closing && |sys.memory.slots| <= JOURNAL_BOUND ==>
            |sys.journal.entries| == |sys.memory.slots| && forall i :: 0 <= i < |sys.memory.slots| ==> sys.journal.entries[i] == Active(sys.memory.slots[i]))
  {}

  lemma {:induction false} StepDurable(l: Limits, sys: System, e: Event)
    requires Durable(sys) && Allowed(sys, e) && Fits(l, sys, e)
    ensures Durable(Step(l, sys, e)) && Step(l, sys, e).memory == Fold(l, sys.memory, Acts(l, sys, e))
    ensures Step(l, sys, e).memory.slots == (if Writes(l, sys, e) then Apply(l, sys.memory, OpOf(e).value).value.slots else sys.memory.slots)
  {
    match e
    case Do(op, stored) =>
      LandedDurable(l, sys, op, stored);
      assert Acts(l, sys, e) != [] ==> Acts(l, sys, e)[1..] == [];
    case Kill(op, stored) =>
      if op.Some? {
        LandedDurable(l, sys, op.value, stored);
        var r := Apply(l, sys.memory, op.value);
        RestartDurable(Landed(l, sys, op.value, stored), if stored && r.Ok? then r.value else sys.memory);
        if stored && r.Ok? {
          assert Acts(l, sys, e)[1..] == [Reopened] && Acts(l, sys, e)[1..][1..] == [];
        } else {
          assert Acts(l, sys, e) == [Reopened] && [Reopened][1..] == [];
        }
      } else {
        RestartDurable(sys.journal, sys.memory);
        assert Acts(l, sys, e) == [Reopened] && [Reopened][1..] == [];
      }
  }

  /** Whatever fails and whenever processes die, the controller holds exactly what the
    * operations whose write landed leave, applied one after the other; a restart only
    * reopens the gate. So a crash neither leaks nor frees capacity. */
  lemma {:induction false} CrashesNeitherLeakNorFree(l: Limits, sys: System, es: seq<Event>)
    requires Durable(sys) && IsRun(l, sys, es) && AllFit(l, sys, es)
    ensures Run(l, sys, es).memory == Fold(l, sys.memory, Effective(l, sys, es))
    ensures Durable(Run(l, sys, es))
    decreases |es|
  {
    if es != [] {
      StepDurable(l, sys, es[0]);
      CrashesNeitherLeakNorFree(l, Step(l, sys, es[0]), es[1..]);
      FoldConcat(l, sys.memory, Acts(l, sys, es[0]), Effective(l, Step(l, sys, es[0]), es[1..]));
    }
  }

  // ---- unresolved reservations over whole histories ----

  /** The event carries out an operation that resolves the reservation. */
  predicate ResolvedBy(l: Limits, sys: System, e: Event, token: string) {
    Writes(l, sys, e) && Resolves(sys.memory, OpOf(e).value, token)
  }

  predicate NeverResolved(l: Limits, sys: System, es: seq<Event>, token: string)
    requires IsRun(l, sys, es)
    decreases |es|
  {
    es != [] ==> !ResolvedBy(l, sys, es[0], token) && NeverResolved(l, Step(l, sys, es[0]), es[1..], token)
  }

  lemma {:induction false} StepUnresolved(l: Limits, sys: System, e: Event, token: string)
    requires Durable(sys) && Allowed(sys, e) && Fits(l, sys, e) && HasUnresolved(sys.memory.slots, token)
    ensures HasUnresolved(Step(l, sys, e).memory.slots, token) <==> !ResolvedBy(l, sys, e, token)
  {
    StepDurable(l, sys, e);
    hide Apply, Step, Resolves, HasUnresolved, Durable;
    if Writes(l, sys, e) { UnresolvedNeedsRecovery(l, sys.memory, OpOf(e).value, token); }
  }

  /** No crash, restart or failed write resolves a reservation: over any history it stays unresolved until an
    * operation that resolves it is carried out and stored. */
  lemma {:induction false} UnresolvedSurvives(l: Limits, sys: System, es: seq<Event>, token: string)
    requires Durable(sys) && IsRun(l, sys, es) && AllFit(l, sys, es) && HasUnresolved(sys.memory.slots, token)
    requires NeverResolved(l, sys, es, token)
    ensures HasUnresolved(Run(l, sys, es).memory.slots, token)
    decreases |es|
  {
    if es != [] {
      StepDurable(l, sys, es[0]);
      StepUnresolved(l, sys, es[0], token);
      hide Step, Durable, HasUnresolved, ResolvedBy;
      UnresolvedSurvives(l, Step(l, sys, es[0]), es[1..], token);
    }
  }

  // ---- limits in every reachable state ----

  predicate NoReconstruct(es: seq<Event>) {
    forall i :: 0 <= i < |es| ==>
      (OpOf(es[i]).Some? ==> !OpOf(es[i]).value.Reconstruct?)
  }

  lemma {:induction false} StartDurable()
    ensures Durable(Start())
  {}

  lemma {:induction false} StepWithin(l: Limits, sys: System, e: Event)
    requires ValidLimits(l) && Durable(sys) && WithinLimits(l, sys.memory.slots) && Allowed(sys, e) && NoReconstruct([e])
    ensures Fits(l, sys, e) && WithinLimits(l, Step(l, sys, e).memory.slots)
  {
    assert [e][0] == e;
    var op := OpOf(e);
    if op.Some? && Apply(l, sys.memory, op.value).Ok? { LimitsKept(l, sys.memory, op.value); }
    StepDurable(l, sys, e);
  }

  /** With nested limits and no reconstruction, every reachable state respects all three. */
  lemma {:induction false} LimitsAlways(l: Limits, sys: System, es: seq<Event>)
    requires ValidLimits(l) && Durable(sys) && WithinLimits(l, sys.memory.slots) && IsRun(l, sys, es) && NoReconstruct(es)
    ensures WithinLimits(l, Run(l, sys, es).memory.slots) && AllFit(l, sys, es)
    decreases |es|
  {
    if es != [] {
      assert NoReconstruct([es[0]]) by { assert [es[0]][0] == es[0]; }
      StepWithin(l, sys, es[0]);
      StepDurable(l, sys, es[0]);
      forall i | 0 <= i < |es[1..]| ensures es[1..][i] == es[i + 1] {}
      LimitsAlways(l, Step(l, sys, es[0]), es[1..]);
    }
  }

  /** From the empty controller, whatever fails and whenever processes die: as long as nothing is
    * reconstructed, it holds exactly what landed, and the limits. */
  lemma {:induction false} LimitsFromTheStart(l: Limits, es: seq<Event>)
    requires ValidLimits(l) && IsRun(l, Start(), es) && NoReconstruct(es)
    ensures var t := Run(l, Start(), es); WithinLimits(l, t.memory.slots) && t.memory == Fold(l, Init(), Effective(l, Start(), es))
  {
    StartDurable();
    LimitsAlways(l, Start(), es);
    CrashesNeitherLeakNorFree(l, Start(), es);
  }

  // ---- reconstruction asks no limit ----

  predicate DistinctIds(records: seq<JobRecord>) {
    forall i, j :: 0 <= i < j < |records| && Readmitted(records[i]) && Readmitted(records[j]) ==> records[i].id != records[j].id
  }

  /** Jobs that still hold a reservation hold it under their own scope. */
  predicate Faithful(s: State, records: seq<JobRecord>) {
    forall i, k :: 0 <= i < |records| && 0 <= k < |s.slots| && Readmitted(records[i]) && s.slots[k].jobId == Some(records[i].id)
      ==> s.slots[k].scope == records[i].scope
  }

  function RecoveredSlot(r: JobRecord): Slot { Slot(RecoveredToken(r.id), r.scope, Some(r.id), Bound, 0, None) }

  /** The reservations reconstruction adds: one for every active job without one. */
  function Missing(s: State, records: seq<JobRecord>): seq<Slot> {
    if records == [] then []
    else
      var before, r := Missing(s, records[..|records| - 1]), records[|records| - 1];
      if Readmitted(r) && r.id !in s.jobTokens then before + [RecoveredSlot(r)] else before
  }

  predicate KnownBy(s: State, records: seq<JobRecord>, id: string) { id in s.jobTokens || ReadmittedIn(records, id) }

  lemma {:induction false} ReadmitScopes(s: State, records: seq<JobRecord>)
    requires InOrder(s) && DistinctIds(records) && Faithful(s, records)
    ensures var t := Readmit(s, records);
      && SameScopes(t.slots, s.slots + Missing(s, records))
      && (forall id :: id in t.jobTokens <==> KnownBy(s, records, id))
      && Extends(s, t)
    decreases |records|
  {
    if records != [] {
      var n := |records| - 1;
      var before, r := Readmit(s, records[..n]), records[n];
      ReadmitScopes(s, records[..n]);
      ReadmitInOrder(s, records[..n]);
      ReadmitOneScopes(s, before, records[..n], r);
      assert records == records[..n] + [r];
      KnownAppend(s, records[..n], r);
    }
  }

  lemma {:induction false} KnownAppend(s: State, records: seq<JobRecord>, r: JobRecord)
    ensures forall id :: KnownBy(s, records + [r], id) <==> KnownBy(s, records, id) || (Readmitted(r) && r.id == id)
  {
    forall id ensures ReadmittedIn(records + [r], id) <==> ReadmittedIn(records, id) || (Readmitted(r) && r.id == id) {
      if ReadmittedIn(records, id) {
        var i :| 0 <= i < |records| && Readmitted(records[i]) && records[i].id == id;
        assert (records + [r])[i] == records[i];
      }
      if Readmitted(r) && r.id == id { assert (records + [r])[|records|] == r; }
    }
  }

  /** The first slots of t are those of s, whatever became of their phases. */
  predicate Extends(s: State, t: State) {
    |t.slots| >= |s.slots| && forall k :: 0 <= k < |s.slots| ==> t.slots[k].jobId == s.slots[k].jobId && t.slots[k].token == s.slots[k].token
  }

  lemma {:induction false} HeldKeepsScope(s: State, t: State, added: seq<Slot>, r: JobRecord)
    requires InOrder(s) && InOrder(t) && SameScopes(t.slots, s.slots + added) && Extends(s, t)
    requires Readmitted(r) && r.id in s.jobTokens
    requires forall k :: 0 <= k < |s.slots| && s.slots[k].jobId == Some(r.id) ==> s.slots[k].scope == r.scope
    ensures var u := ReadmitOne(t, r); SameScopes(u.slots, s.slots + added) && Extends(s, u) && u.jobTokens == t.jobTokens
  {
    var k :| 0 <= k < |s.slots| && s.slots[k].jobId == Some(r.id) && s.slots[k].token == s.jobTokens[r.id];
    assert t.slots[k].jobId == Some(r.id) && t.jobTokens[r.id] == t.slots[k].token;
    var i := IndexOf(t.slots, t.jobTokens[r.id]);
    assert i == k;
    assert (s.slots + added)[k] == s.slots[k];
  }

  lemma {:induction false} LostIsAdded(s: State, t: State, added: seq<Slot>, r: JobRecord)
    requires InOrder(t) && SameScopes(t.slots, s.slots + added) && Extends(s, t)
    requires Readmitted(r) && r.id !in t.jobTokens
    ensures var u := ReadmitOne(t, r);
      && SameScopes(u.slots, s.slots + (added + [RecoveredSlot(r)])) && Extends(s, u)
      && u.jobTokens == t.jobTokens[r.id := RecoveredToken(r.id)]
  {
    RecoveredIsNew(t, r.id);
  }

  lemma {:induction false} ReadmitOneScopes(s: State, t: State, records: seq<JobRecord>, r: JobRecord)
    requires InOrder(s) && InOrder(t) && SameScopes(t.slots, s.slots + Missing(s, records)) && Extends(s, t)
    requires forall id :: id in t.jobTokens <==> KnownBy(s, records, id)
    requires Readmitted(r) ==> !ReadmittedIn(records, r.id)
    requires forall k :: 0 <= k < |s.slots| && Readmitted(r) && s.slots[k].jobId == Some(r.id) ==> s.slots[k].scope == r.scope
    ensures var u := ReadmitOne(t, r);
      && SameScopes(u.slots, s.slots + (Missing(s, records) + if Readmitted(r) && r.id !in s.jobTokens then [RecoveredSlot(r)] else []))
      && (forall id :: id in u.jobTokens <==> KnownBy(s, records, id) || (Readmitted(r) && r.id == id))
      && Extends(s, u)
  {
    var added := Missing(s, records);
    if Readmitted(r) && r.id in s.jobTokens { HeldKeepsScope(s, t, added, r); }
    else if Readmitted(r) { LostIsAdded(s, t, added, r); }
    assert added + [] == added;
  }

  /** Reconstruction leaves the limits respected exactly when the reservations already held
    * and those it adds for jobs that lost theirs respect them together. */
  lemma {:induction false} ReconstructionExact(l: Limits, s: State, records: seq<JobRecord>)
    requires InOrder(s) && DistinctIds(records) && Faithful(s, records)
    ensures WithinLimits(l, Apply(l, s, Reconstruct(records)).value.slots) <==> WithinLimits(l, s.slots + Missing(s, records))
  {
    var d := s.(slots := Doubt(s.slots, records));
    DoubtKeepsKeys(s.slots, records);
    RewriteInOrder(s, d.slots);
    ReadmitScopes(d, records);
    MissingSame(s, d, records);
    var t := Readmit(d, records);
    assert SameScopes(t.slots, s.slots + Missing(s, records));
    forall tenantId ensures CountTenant(t.slots, tenantId) == CountTenant(s.slots + Missing(s, records), tenantId) {
      CountsSame(t.slots, s.slots + Missing(s, records), tenantId, Scope("", ""));
    }
    forall scope ensures CountRequester(t.slots, scope) == CountRequester(s.slots + Missing(s, records), scope) {
      CountsSame(t.slots, s.slots + Missing(s, records), "", scope);
    }
  }

  lemma {:induction false} MissingSame(s: State, t: State, records: seq<JobRecord>)
    requires s.jobTokens == t.jobTokens
    ensures Missing(s, records) == Missing(t, records)
  {
    if records != [] { MissingSame(s, t, records[..|records| - 1]); }
  }

  /** A lost journal and two active jobs: limits of one, two reservations. */
  lemma {:induction false} ReconstructionCanExceed(scope: Scope)
    requires scope.tenantId != "" && scope.requesterId != ""
    ensures var l, records := Limits(1, 1, 1), [JobRecord("a", scope, true), JobRecord("b", scope, true)];
      && ValidLimits(l) && WithinLimits(l, Init().slots)
      && !WithinLimits(l, Apply(l, Init(), Reconstruct(records)).value.slots)
  {
    var l, records := Limits(1, 1, 1), [JobRecord("a", scope, true), JobRecord("b", scope, true)];
    ReconstructionExact(l, Init(), records);
    var first := [JobRecord("a", scope, true)];
    assert records[..1] == first && first[..0] == [];
    assert Missing(Init(), first) == Missing(Init(), []) + [RecoveredSlot(first[0])];
    assert Missing(Init(), records) == Missing(Init(), first) + [RecoveredSlot(records[1])];
  }
}
