/** Checkpoints across workers: each worker numbers its heartbeats and gathers its tools
  * from what it read after its claim, so the record's progress never goes back, whoever
  * takes over and however late an overtaken worker still reports. */
module DispatchCheckpoints {
  import opened Prelude
  import opened DispatchRecords
  import opened DispatchProtocol
  import opened DispatchInvariant
  import opened DispatchFencing
  import opened ToolMerge

  /** What runOnce keeps of its own: the last number it used and the tools seen so far. */
  datatype Notes = Notes(sequence: nat, tools: seq<Usage>)

  function NotesOf(checkpoint: Option<Checkpoint>): Notes {
    if checkpoint.None? then Notes(0, []) else Notes(checkpoint.value.sequence, Merge([], checkpoint.value.tools))
  }

  function CheckpointAt(s: State, ref: Reference): Option<Checkpoint> {
    if ref in s.world.records then s.world.records[ref].checkpoint else Option.None
  }

  /** A worker reports the next number and its tools merged with the news. */
  ghost predicate Disciplined(notes: map<nat, Notes>, e: Event) {
    e.Beat? ==>
      && e.pid in notes
      && e.checkpoint.sequence == notes[e.pid].sequence + 1
      && exists news: seq<Usage> :: e.checkpoint.tools == Merge(notes[e.pid].tools, news)
  }

  /** Notes start from the record as read after the claim; a heartbeat is noted whether or not it
    * gets through. */
  function NotesAfter(s: State, notes: map<nat, Notes>, e: Event): map<nat, Notes>
    requires Enabled(s, e)
  {
    if e.Beat? then notes[e.pid := Notes(e.checkpoint.sequence, e.checkpoint.tools)]
    else if e.Next? && s.procs[e.pid].Observing? then
      notes[e.pid := NotesOf(CheckpointAt(s, RefOf(s.procs[e.pid].lease.task)))]
    else notes
  }

  ghost predicate IsDisciplinedRun(s: State, notes: map<nat, Notes>, es: seq<Event>)
    requires IsRun(s, es)
    decreases |es|
  {
    es == [] || (Disciplined(notes, es[0]) && IsDisciplinedRun(Step(s, es[0]), NotesAfter(s, notes, es[0]), es[1..]))
  }

  // ---- progress ----

  /** No entry dropped, moved or restarted, no terminal replaced. */
  predicate EntriesFollow(a: seq<Usage>, b: seq<Usage>) {
    |a| <= |b| && forall i :: 0 <= i < |a| ==> Continues(a[i], b[i])
  }

  predicate Behind(checkpoint: Option<Checkpoint>, n: Notes) {
    checkpoint.Some? ==> checkpoint.value.sequence <= n.sequence && EntriesFollow(checkpoint.value.tools, n.tools)
  }

  predicate Before(checkpoint: Option<Checkpoint>, next: Checkpoint) {
    checkpoint.Some? ==> checkpoint.value.sequence < next.sequence && EntriesFollow(checkpoint.value.tools, next.tools)
  }

  predicate Advanced(before: Option<Checkpoint>, after: Option<Checkpoint>) {
    before.Some? ==>
      && after.Some?
      && (after == before || before.value.sequence < after.value.sequence)
      && EntriesFollow(before.value.tools, after.value.tools)
  }

  lemma {:induction false} FollowsTransitive(a: seq<Usage>, b: seq<Usage>, c: seq<Usage>)
    requires EntriesFollow(a, b) && EntriesFollow(b, c)
    ensures EntriesFollow(a, c)
  {
    forall i | 0 <= i < |a| ensures Continues(a[i], c[i]) {
      assert Continues(a[i], b[i]) && Continues(b[i], c[i]);
    }
  }

  /** A list merged with news follows itself, and is accepted. */
  lemma {:induction false} MergeFollows(tools: seq<Usage>, news: seq<Usage>)
    requires Normal(tools)
    ensures EntriesFollow(tools, Merge(tools, news)) && Normal(Merge(tools, news))
  {
    FoldConcat([], tools, news);
    assert tools[..|tools|] == tools;
    FoldSelf(tools, |tools|);
    EntriesContinue(tools, news);
    FoldNormal(tools, news);
  }

  // ---- what a disciplined run keeps ----

  /** What the newest worker has noted covers what is on record. */
  predicate NotesOk(w: World, pc: Pc, n: Notes) {
    match pc
    case Holding(l, _) =>
      Normal(n.tools) && (Newest(w, l) ==> Behind(w.records[RefOf(l.task)].checkpoint, n))
    case Renewing(l, _, c, _) =>
      && n == Notes(c.sequence, c.tools) && Normal(n.tools)
      && (Newest(w, l) ==> Before(w.records[RefOf(l.task)].checkpoint, c))
    case _ => true
  }

  predicate Works(pc: Pc) { pc.Holding? || pc.Renewing? }

  ghost predicate Noted(s: State, notes: map<nat, Notes>) {
    && Inv(s)
    && (forall ref :: ref in s.world.records && s.world.records[ref].checkpoint.Some? ==>
          Normal(s.world.records[ref].checkpoint.value.tools))
    && (forall pid :: pid in s.procs && Works(s.procs[pid]) ==> pid in notes && NotesOk(s.world, s.procs[pid], notes[pid]))
  }

  predicate NotesAre(c: Checkpoint, n: Notes) { c.sequence == n.sequence && c.tools == n.tools }

  /** Only the heartbeat's swap writes a checkpoint. */
  lemma {:induction false} OnlyRenewWrites(r: Record, m: Mutation)
    requires Guarded(m, r).Ok? && !m.Foreign?
    ensures var next := Guarded(m, r).value;
      if m.Renew? then next.checkpoint.Some? && NotesAre(next.checkpoint.value, Notes(m.checkpoint.sequence, m.checkpoint.tools))
      else next.checkpoint == r.checkpoint
  {}

  /** The record the event's heartbeat writes, if it does. */
  function Beaten(s: State, e: Event): Option<Reference>
    requires Enabled(s, e)
  {
    var write := WriteOf(s, e);
    if write.By? && write.m.Renew? && Took(s.world.records, write.ref, write) then Some(write.ref) else None
  }

  /** A heartbeat that gets through is the newest worker's. */
  lemma {:induction false} BeatenByNewest(s: State, notes: map<nat, Notes>, e: Event)
    requires Noted(s, notes) && Enabled(s, e) && Beaten(s, e).Some?
    ensures e.Next? && s.procs[e.pid].Renewing?
    ensures var l := s.procs[e.pid].lease;
      Beaten(s, e) == Some(RefOf(l.task)) && Newest(s.world, l) && DispatchInvariant.Matches(s.world.records[RefOf(l.task)], l)
  {
    assert ProcOk(s.world, s.procs[e.pid]);
  }

  /** What one event does to one record. */
  lemma {:induction false} RecordWritten(s: State, e: Event, ref: Reference)
    requires Enabled(s, e)
    ensures var records, after, write := s.world.records, Step(s, e).world.records, WriteOf(s, e);
      if Took(records, ref, write) then
        ref in records && Guarded(write.m, records[ref]).Ok? && !write.m.Foreign?
        && ref in after && after[ref] == Guarded(write.m, records[ref]).value
      else CheckpointAt(Step(s, e), ref) == CheckpointAt(s, ref) && (ref in records ==> ref in after && after[ref] == records[ref])
  {
    StepWrites(s, e);
    hide Step, Guarded;
  }

  /** A checkpoint changes only by the newest worker's heartbeat, to what that worker has noted. */
  lemma {:induction false} CheckpointStep(s: State, notes: map<nat, Notes>, e: Event, ref: Reference)
    requires Noted(s, notes) && Enabled(s, e)
    ensures Beaten(s, e) != Some(ref) ==> CheckpointAt(Step(s, e), ref) == CheckpointAt(s, ref)
    ensures Beaten(s, e) == Some(ref) ==>
      && e.Next? && s.procs[e.pid].Renewing? && ref == RefOf(s.procs[e.pid].lease.task)
      && Newest(s.world, s.procs[e.pid].lease)
      && var c, after := s.procs[e.pid].checkpoint, CheckpointAt(Step(s, e), ref);
      Before(CheckpointAt(s, ref), c) && Normal(c.tools) && after.Some? && NotesAre(after.value, Notes(c.sequence, c.tools))
  {
    RecordWritten(s, e, ref);
    var write := WriteOf(s, e);
    if Beaten(s, e).Some? {
      BeatenByNewest(s, notes, e);
      assert NotesOk(s.world, s.procs[e.pid], notes[e.pid]);
      assert write.m.checkpoint == s.procs[e.pid].checkpoint;
    }
    hide Step, Guarded, Mutate, WriteOf, Swap, Inv, Before;
    if Took(s.world.records, ref, write) { OnlyRenewWrites(s.world.records[ref], write.m); }
  }

  lemma {:induction false} FollowsItself(a: seq<Usage>)
    ensures EntriesFollow(a, a)
  {}

  /** The step leaves its own worker's notes in order. */
  lemma {:induction false} AuthorNoted(s: State, notes: map<nat, Notes>, e: Event, pid: nat)
    requires Noted(s, notes) && Enabled(s, e) && Disciplined(notes, e) && Actor(e) == Some(pid)
    requires pid in Step(s, e).procs && Works(Step(s, e).procs[pid])
    ensures pid in NotesAfter(s, notes, e)
    ensures NotesOk(Step(s, e).world, Step(s, e).procs[pid], NotesAfter(s, notes, e)[pid])
  {
    BecomesWorker(s, e, pid);
    hide Step, Noted, NotesOk, Disciplined;
    if e.Beat? {
      BeatNoted(s, notes, e, pid);
    } else {
      if s.procs[pid].Observing? { ObservedNoted(s, notes, pid); } else { RenewedNoted(s, notes, pid); }
    }
  }

  lemma {:induction false} BecomesWorker(s: State, e: Event, pid: nat)
    requires Enabled(s, e) && Actor(e) == Some(pid) && pid in Step(s, e).procs && Works(Step(s, e).procs[pid])
    ensures e.Beat? || (e.Next? && (s.procs[pid].Observing? || s.procs[pid].Renewing?))
  {}

  lemma {:induction false} BeatNoted(s: State, notes: map<nat, Notes>, e: Event, pid: nat)
    requires Noted(s, notes) && Enabled(s, e) && Disciplined(notes, e) && e.Beat? && e.pid == pid
    ensures pid in Step(s, e).procs
    ensures NotesOk(Step(s, e).world, Step(s, e).procs[pid], Notes(e.checkpoint.sequence, e.checkpoint.tools))
  {
    var l, was := s.procs[pid].lease, notes[pid];
    var news: seq<Usage> :| e.checkpoint.tools == Merge(was.tools, news);
    assert NotesOk(s.world, s.procs[pid], was);
    MergeFollows(was.tools, news);
    var checkpoint := CheckpointAt(s, RefOf(l.task));
    if Newest(s.world, l) && checkpoint.Some? {
      FollowsTransitive(checkpoint.value.tools, was.tools, e.checkpoint.tools);
    }
  }

  lemma {:induction false} ObservedNoted(s: State, notes: map<nat, Notes>, pid: nat)
    requires Noted(s, notes) && Enabled(s, Next(pid)) && s.procs[pid].Observing? && pid in Step(s, Next(pid)).procs
    ensures NotesOk(Step(s, Next(pid)).world, Step(s, Next(pid)).procs[pid], NotesOf(CheckpointAt(s, RefOf(s.procs[pid].lease.task))))
  {
    hide Inv, Normal, Swap;
    var checkpoint := CheckpointAt(s, RefOf(s.procs[pid].lease.task));
    AcceptedExact([]);
    if checkpoint.Some? {
      AcceptedExact(checkpoint.value.tools);
      FollowsItself(checkpoint.value.tools);
    }
  }

  lemma {:induction false} RenewedNoted(s: State, notes: map<nat, Notes>, pid: nat)
    requires Noted(s, notes) && Enabled(s, Next(pid)) && s.procs[pid].Renewing?
    ensures pid in Step(s, Next(pid)).procs && NotesOk(Step(s, Next(pid)).world, Step(s, Next(pid)).procs[pid], notes[pid])
  {
    assert NotesOk(s.world, s.procs[pid], notes[pid]);
    FollowsItself(notes[pid].tools);
  }

  /** A worker that did not take the step is still covered by its notes. */
  lemma {:induction false} OtherNoted(s: State, notes: map<nat, Notes>, e: Event, pid: nat)
    requires Noted(s, notes) && Enabled(s, e) && Actor(e) != Some(pid) && pid in s.procs && Works(s.procs[pid])
    ensures NotesOk(Step(s, e).world, s.procs[pid], notes[pid])
  {
    var l := s.procs[pid].lease;
    var ref := RefOf(l.task);
    assert NotesOk(s.world, s.procs[pid], notes[pid]) && ProcOk(s.world, s.procs[pid]);
    StepGeneration(s, e, ref);
    CheckpointStep(s, notes, e, ref);
    assert ref in s.world.records && l.generation <= s.world.records[ref].leaseGeneration;
    if Beaten(s, e) == Some(ref) {
      BeatenByNewest(s, notes, e);
      if Newest(s.world, l) { OneNewest(s, pid, e.pid); }
    }
    hide Step, Inv, WriteOf, Swap, ProcOk;
  }

  /** Only one process works under the newest lease of a record. */
  lemma {:induction false} OneNewest(s: State, p: nat, q: nat)
    requires Inv(s) && p in s.procs && q in s.procs && Works(s.procs[p]) && Works(s.procs[q])
    requires RefOf(s.procs[p].lease.task) == RefOf(s.procs[q].lease.task)
    requires Newest(s.world, s.procs[p].lease) && Newest(s.world, s.procs[q].lease)
    ensures p == q
  {
    assert ProcOk(s.world, s.procs[p]) && ProcOk(s.world, s.procs[q]);
    assert HopOf(s.procs[p]) == HopOf(s.procs[q]);
  }

  lemma {:induction false} OthersStay(s: State, notes: map<nat, Notes>, e: Event)
    requires Enabled(s, e)
    ensures forall pid :: pid in Step(s, e).procs && Actor(e) != Some(pid) ==> pid in s.procs && Step(s, e).procs[pid] == s.procs[pid]
    ensures forall pid :: Actor(e) != Some(pid) && pid in notes ==> pid in NotesAfter(s, notes, e) && NotesAfter(s, notes, e)[pid] == notes[pid]
  {}

  lemma {:induction false} NotedKept(s: State, notes: map<nat, Notes>, e: Event)
    requires Noted(s, notes) && Enabled(s, e) && Disciplined(notes, e)
    ensures Noted(Step(s, e), NotesAfter(s, notes, e))
  {
    var t, after := Step(s, e), NotesAfter(s, notes, e);
    InvKept(s, e);
    OthersStay(s, notes, e);
    hide Step, Inv, NotesAfter, NotesOk, Normal, Swap, WriteOf, Beaten, Before, Newest;
    forall ref | ref in t.world.records && t.world.records[ref].checkpoint.Some?
      ensures Normal(t.world.records[ref].checkpoint.value.tools)
    {
      CheckpointStep(s, notes, e, ref);
      assert CheckpointAt(t, ref) == t.world.records[ref].checkpoint;
    }
    forall pid | pid in t.procs && Works(t.procs[pid]) ensures pid in after && NotesOk(t.world, t.procs[pid], after[pid]) {
      if Actor(e) == Some(pid) { AuthorNoted(s, notes, e, pid); } else { OtherNoted(s, notes, e, pid); }
    }
  }

  /** In every run of disciplined workers a record's checkpoint only advances: it is the same,
    * or its number is higher; and its tool entries keep their places, first starts and first terminals. */
  lemma {:induction false} CheckpointsOnlyAdvance(s: State, notes: map<nat, Notes>, es: seq<Event>, ref: Reference)
    requires Noted(s, notes) && IsRun(s, es) && IsDisciplinedRun(s, notes, es)
    ensures Advanced(CheckpointAt(s, ref), CheckpointAt(Run(s, es), ref))
    decreases |es|
  {
    var checkpoint := CheckpointAt(s, ref);
    if checkpoint.Some? { FollowsItself(checkpoint.value.tools); }
    if es != [] {
      var t := Step(s, es[0]);
      CheckpointStep(s, notes, es[0], ref);
      NotedKept(s, notes, es[0]);
      CheckpointsOnlyAdvance(t, NotesAfter(s, notes, es[0]), es[1..], ref);
      if checkpoint.Some? {
        FollowsTransitive(checkpoint.value.tools, CheckpointAt(t, ref).value.tools, CheckpointAt(Run(s, es), ref).value.tools);
      }
    }
  }

  /** The start of the system is such a state. */
  lemma {:induction false} InitNoted(notes: map<nat, Notes>)
    ensures Noted(Init(), notes)
  {}
}
