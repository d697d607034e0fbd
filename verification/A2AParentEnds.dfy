/** Whether a cancelled parent ends: exactly if its run was active when it was cancelled, or every
  * child could end. */
module A2AParentEnds {
  import opened Prelude
  import opened A2ADispatch
  import opened A2ACancellation
  import opened A2ACancellationRuns

  /** What happens from one cancellation on while the process and the store stay up: providers
    * answer as the registry says, no outcome of a child is refused by the store, and passes,
    * bindings, settlements and the run interleave in any way. */
  predicate Admitted(mode: Mode, s: State, e: Event) {
    && Enabled(s, e)
    && match e
       case Request(_, agents, stored) => stored && mode == Live(agents)
       case Recover(_, handler) => mode == Restart(handler)
       case Answer(pid, confirmed) => Choice(s.procs[pid]) == Call(confirmed)
       case Settle(_, n, ending, stored) => Lands(s.parent, OutcomeAt(s, n, ending), stored)
       case Ack(_, stored) => stored
       case Finish(_, stored) => stored
       case RecordNext(stored) => stored
       case ReadIntent(stored) => stored
       case ConfirmNext(stored) => stored
       case Close(stored) => stored
       case Other(op, _) => op.MarkStarted? && !s.run.NoRun?
       case Crash => false
       case _ => true
  }

  const BY_ABORT := Ending(ChildCanceled, None)

  predicate IsEpisode(mode: Mode, s: State, es: seq<Event>) {
    forall k :: 0 <= k < |es| ==> Admitted(mode, At(s, es, k), es[k])
  }

  predicate Quiet(s: State) { s.procs == map[] && (s.run.NoRun? || s.run.Ended? || s.run.Broken?) }

  /** The parent's children are still to be ended, by a run of this process or by none. */
  predicate Ready(s: State) {
    && Inv(s) && s.parent.dispatch.Some?
    && !TaskTerminal(s.parent.status) && !DispatchTerminal(s.parent.dispatch.value.status)
    && (if s.run.NoRun? then s.procs == map[]
        else s.run.Executing? && !s.run.aborted && AllFit(s.parent.dispatch.value.children, Collected(s)))
  }

  /** The store takes this outcome for the child, now and later. */
  predicate Fits(c: Child, ending: Ending) {
    if ChildTerminal(c.status) then c.status == ending.status && (ending.job.Some? ==> c.job == ending.job)
    else ending == BY_ABORT
  }

  predicate AllFit(children: seq<Child>, endings: map<nat, Ending>) {
    forall n :: 0 <= n < |children| ==> n in endings && Fits(children[n], endings[n])
  }

  /** A change of a child that no awaited outcome can trip over. */
  predicate Mild(c: Child, d: Child) {
    && d.plan == c.plan
    && if ChildTerminal(c.status) then d.status == c.status && d.job == c.job
       else ChildTerminal(d.status) ==> d.status == ChildCanceled
  }

  predicate AllMild(cs: seq<Child>, ds: seq<Child>) {
    |ds| == |cs| && forall n :: 0 <= n < |cs| ==> Mild(cs[n], ds[n])
  }

  lemma {:induction false} MildFits(cs: seq<Child>, ds: seq<Child>, endings: map<nat, Ending>)
    requires AllMild(cs, ds) && AllFit(cs, endings)
    ensures AllFit(ds, endings)
  {
    forall n | 0 <= n < |ds| ensures n in endings && Fits(ds[n], endings[n]) { assert Mild(cs[n], ds[n]) && Fits(cs[n], endings[n]); }
  }

  predicate MildOp(p: Parent, op: Op) {
    match op
    case RequestCancel => true
    case Acknowledge(_) => true
    case Bind(_, _) => true
    case MarkStarted(_) => true
    case Record(o) => o.status == ChildCanceled && o.job.None?
    case _ => false
  }

  lemma {:induction false} MildOne(cs: seq<Child>, n: nat, c: Child)
    requires n < |cs| && Mild(cs[n], c)
    ensures AllMild(cs, cs[n := c])
  {}

  lemma {:induction false} MildSelf(cs: seq<Child>)
    ensures AllMild(cs, cs)
  {}

  lemma {:induction false} MildAfter(p: Parent, op: Op, stored: bool)
    requires p.dispatch.Some? && MildOp(p, op)
    ensures var q := After(p, op, stored);
      q.dispatch.Some? && q.status == p.status && AllMild(p.dispatch.value.children, q.dispatch.value.children)
  {
    hide AllMild;
    var d := p.dispatch.value;
    MildSelf(d.children);
    if Lands(p, op, stored) {
      match op
      case Acknowledge(key) =>
        var i := Find(d.children, key);
        var c := d.children[i].(acked := true);
        MildOne(d.children, i, if ChildTerminal(c.status) then c else c.(status := ChildCanceled));
      case Bind(key, job) =>
        var i := Find(d.children, key);
        var c := BindChild(d.children[i], job).value;
        MildOne(d.children, i, if ChildTerminal(c.status) then c else c.(status := ChildWorking));
      case MarkStarted(key) =>
        var i := Find(d.children, key);
        if !ChildTerminal(d.children[i].status) { MildOne(d.children, i, d.children[i].(status := ChildWorking)); }
      case Record(o) =>
        var i := Find(d.children, o.key);
        MildOne(d.children, i, SettleChild(d.children[i], o).value);
      case _ =>
    }
  }

  // ---- ending a dispatch with outcomes the store has ----

  lemma {:induction false} RecordKnown(d: Dispatch, seen: seq<Child>, n: nat)
    requires ValidChildren(d.children) && LaterChildren(seen, d.children) && n <= |seen|
    requires forall i :: 0 <= i < |seen| ==> ChildTerminal(seen[i].status)
    ensures RecordEach(d, Outcomes(seen)[n..]) == Ok(d)
    decreases |seen| - n
  {
    var os := Outcomes(seen)[n..];
    if n < |seen| {
      assert LaterChild(seen[n], d.children[n]);
      FindKey(d.children, n);
      assert os[0] == Outcomes(seen)[n] && os[1..] == Outcomes(seen)[n + 1..];
      assert d.children[n := d.children[n]] == d.children;
      assert RecordOne(d, os[0]) == Ok(d);
      RecordKnown(d, seen, n + 1);
    }
  }

  lemma {:induction false} FinalizeKnown(p: Parent, seen: Dispatch)
    requires Sound(p) && p.dispatch.Some? && LaterDispatch(seen, p.dispatch.value) && AllTerminal(seen)
    requires !TaskTerminal(p.status) || p.status == Canceled
    ensures Apply(p, Finalize(AllCanceled, Outcomes(seen.children))) == Ok(Parent(Canceled, Some(p.dispatch.value.(status := AllCanceled))))
  {
    var d := p.dispatch.value;
    RecordKnown(d, seen.children, 0);
    assert Outcomes(seen.children)[0..] == Outcomes(seen.children);
    forall i | 0 <= i < |d.children| ensures ChildTerminal(d.children[i].status) { assert LaterChild(seen.children[i], d.children[i]); }
    hide RecordEach, Outcomes, LaterChildren, ValidChildren;
  }

  // ---- with an active run ----

  predicate Cancelling(p: Parent) {
    && Sound(p) && Requested(p) && (!TaskTerminal(p.status) || p.status == Canceled)
    && p.dispatch.value.status != AllCompleted && p.dispatch.value.status != SomeFailed
  }

  predicate RunOk(s: State)
    requires s.parent.dispatch.Some?
  {
    var d := s.parent.dispatch.value;
    match s.run
    case NoRun => false
    case Executing(_, _, _) => AllFit(d.children, Collected(s))
    case Recording(results, recorded) =>
      && AllFit(d.children, results) && recorded <= |d.children|
      && forall n :: 0 <= n < recorded ==> ChildTerminal(d.children[n].status)
    case Confirming(seen, confirmed, status) =>
      status == AllCanceled && AllTerminal(d) && LaterDispatch(seen, d) && confirmed <= |d.children|
    case Ended => s.parent.status == Canceled
    case Broken => false
  }

  predicate ActiveInv(s: State) { Inv(s) && Cancelling(s.parent) && RunOk(s) }

  lemma {:induction false} CancellingAfter(p: Parent, op: Op, stored: bool)
    requires Cancelling(p) && MildOp(p, op)
    ensures Cancelling(After(p, op, stored))
  {
    AfterKeeps(p, op, stored);
    MildAfter(p, op, stored);
    hide Sound;
  }

  /** The run does not notice what the others write. */
  lemma {:induction false} RunStays(s: State, p: Parent)
    requires s.parent.dispatch.Some? && p.dispatch.Some? && RunOk(s) && Later(s.parent, p)
    requires AllMild(s.parent.dispatch.value.children, p.dispatch.value.children)
    requires s.parent.status == Canceled ==> p.status == Canceled
    ensures RunOk(s.(parent := p))
  {
    var cs, ds := s.parent.dispatch.value.children, p.dispatch.value.children;
    match s.run
    case Executing(_, _, _) => MildFits(cs, ds, Collected(s)); assert Collected(s.(parent := p)) == Collected(s);
    case Recording(results, recorded) =>
      MildFits(cs, ds, results);
      forall n | 0 <= n < recorded ensures ChildTerminal(ds[n].status) { assert Mild(cs[n], ds[n]); }
    case Confirming(seen, _, _) =>
      DispatchLaterTransitive(seen, s.parent.dispatch.value, p.dispatch.value);
      forall n | 0 <= n < |ds| ensures ChildTerminal(ds[n].status) { assert Mild(cs[n], ds[n]); }
    case _ =>
  }

  lemma {:induction false} WriteStays(s: State, op: Op, stored: bool)
    requires ActiveInv(s) && MildOp(s.parent, op)
    ensures var p := After(s.parent, op, stored); Cancelling(p) && RunOk(s.(parent := p))
  {
    hide Apply, Sound, RunOk, AllMild, Later;
    CancellingAfter(s.parent, op, stored);
    MildAfter(s.parent, op, stored);
    AfterKeeps(s.parent, op, stored);
    RunStays(s, After(s.parent, op, stored));
  }

  /** What passes, bindings and new starts do. */
  lemma {:induction false} OthersKeepActive(mode: Mode, s: State, e: Event)
    requires ActiveInv(s) && Admitted(mode, s, e)
    requires e.Request? || e.Recover? || e.Abort? || e.Choose? || e.Answer? || e.Ack? || e.Bound? || e.Other? || e.Start?
    ensures Cancelling(Next(s, e).parent) && RunOk(Next(s, e))
  {
    hide Inv, Sound, AllFit, AllTerminal, LaterDispatch;
    match e
    case Request(_, _, stored) => hide Apply, RunOk; WriteStays(s, RequestCancel, stored);
    case Bound(_, n, job, _, stored) => hide Apply, RunOk; WriteStays(s, Bind(s.parent.dispatch.value.children[n].plan.key, job), stored);
    case Other(op, stored) => hide Apply, RunOk; WriteStays(s, op, stored);
    case Ack(pid, stored) => AckKeepsActive(s, pid);
    case Recover(_, _) => hide Apply; assert Next(s, e).run == s.run && Next(s, e).parent == s.parent;
    case Abort(_) =>
      hide Apply;
      if s.run.Executing? { assert Collected(Next(s, e)) == Collected(s); }
    case Choose(_) => hide Apply; assert Next(s, e).run == s.run && Next(s, e).parent == s.parent;
    case Answer(_, _) => hide Apply; assert Next(s, e).run == s.run && Next(s, e).parent == s.parent;
    case Start(_) => hide Apply; assert Collected(Next(s, e)) == Collected(s);
  }

  lemma {:induction false} AckTakes(p: Parent, q: Proc)
    requires Requested(p) && ProcOk(p, q) && q.at < |q.seen.children|
    ensures Apply(p, Acknowledge(q.seen.children[q.at].plan.key)).Ok?
    ensures After(p, Acknowledge(q.seen.children[q.at].plan.key), true).dispatch.Some?
  {
    assert LaterChild(q.seen.children[q.at], p.dispatch.value.children[q.at]);
    assert Find(p.dispatch.value.children, q.seen.children[q.at].plan.key) <= q.at;
  }

  lemma {:induction false} AckKeepsActive(s: State, pid: nat)
    requires ActiveInv(s) && InPhase(s, pid, Acking) && AtChild(s, pid)
    ensures Cancelling(AckNext(s, pid, true).parent) && RunOk(AckNext(s, pid, true))
  {
    var q := s.procs[pid];
    AckTakes(s.parent, q);
    hide Apply, RunOk, Sound, ProcOk;
    WriteStays(s, Acknowledge(q.seen.children[q.at].plan.key), true);
  }

  lemma {:induction false} FinishIs(s: State, pid: nat)
    requires Inv(s) && Cancelling(s.parent) && Enabled(s, Finish(pid, true))
    ensures var q, d := s.procs[pid], s.parent.dispatch.value;
      var last := if q.mode.Live? then q.seen else d;
      && LaterDispatch(last, d)
      && Next(s, Finish(pid, true)) == State(if AllTerminal(last) then Parent(Canceled, Some(d.(status := AllCanceled))) else s.parent, s.procs - {pid}, s.run)
  {
    var q, d := s.procs[pid], s.parent.dispatch.value;
    var last := if q.mode.Live? then q.seen else d;
    assert ProcOk(s.parent, q);
    FreshSeen(s.parent);
    if AllTerminal(last) { FinalizeKnown(s.parent, last); }
    hide Inv, Sound, LaterDispatch, AllTerminal, Apply, Outcomes;
  }

  lemma {:induction false} FinishKeepsActive(s: State, pid: nat)
    requires ActiveInv(s) && Enabled(s, Finish(pid, true))
    ensures Cancelling(Next(s, Finish(pid, true)).parent) && RunOk(Next(s, Finish(pid, true)))
  {
    hide Apply, Next, AllTerminal, LaterDispatch, SoundDispatch, RunOk;
    FinishIs(s, pid);
    NextKeeps(s, Finish(pid, true));
    var d := s.parent.dispatch.value;
    StillOpen(d);
    var ended := Parent(Canceled, Some(d.(status := AllCanceled)));
    EndStays(s, ended);
    RunIgnoresProcs(s.(parent := ended), s.procs - {pid});
    RunIgnoresProcs(s, s.procs - {pid});
  }

  lemma {:induction false} RunIgnoresProcs(s: State, procs: map<nat, Proc>)
    requires s.parent.dispatch.Some?
    ensures RunOk(s.(procs := procs)) == RunOk(s)
  {
    if s.run.Executing? { assert Collected(s.(procs := procs)) == Collected(s); }
  }

  lemma {:induction false} StillOpen(d: Dispatch)
    requires d.status != AllCompleted && d.status != SomeFailed
    ensures d.status == AllCanceled || !DispatchTerminal(d.status)
  {}

  lemma {:induction false} EndStays(s: State, p: Parent)
    requires s.parent.dispatch.Some? && RunOk(s) && p == Parent(Canceled, Some(s.parent.dispatch.value.(status := AllCanceled)))
    requires s.parent.dispatch.value.status == AllCanceled || !DispatchTerminal(s.parent.dispatch.value.status)
    ensures RunOk(s.(parent := p))
  {
    if s.run.Executing? { assert Collected(s.(parent := p)) == Collected(s); }
  }

  lemma {:induction false} RecordFits(p: Parent, n: nat, ending: Ending)
    requires Sound(p) && Requested(p) && n < |p.dispatch.value.children|
    requires Fits(p.dispatch.value.children[n], ending) && ChildTerminal(ending.status)
    ensures var d := p.dispatch.value;
      var q := Apply(p, Record(Outcome(d.children[n].plan.key, ending.status, ending.job)));
      && q.Ok? && q.value.dispatch.Some? && q.value.status == p.status
      && q.value.dispatch.value.status == d.status && q.value.dispatch.value.cancelRequested
      && q.value.dispatch.value.children == d.children[n := d.children[n].(status := ending.status)]
  {
    FindKey(p.dispatch.value.children, n);
  }

  lemma {:induction false} SettledFits(cs: seq<Child>, endings: map<nat, Ending>, n: nat)
    requires AllFit(cs, endings) && n < |cs|
    ensures AllFit(cs[n := cs[n].(status := endings[n].status)], endings)
  {
    var ds := cs[n := cs[n].(status := endings[n].status)];
    forall i | 0 <= i < |ds| ensures i in endings && Fits(ds[i], endings[i]) { assert Fits(cs[i], endings[i]); }
  }

  lemma {:induction false} KeyFound(s: State, j: nat)
    requires Inv(s) && s.parent.dispatch.Some? && j < Width(s)
    ensures Find(s.parent.dispatch.value.children, s.parent.dispatch.value.children[j].plan.key) == j
  {
    FindKey(s.parent.dispatch.value.children, j);
  }

  lemma {:induction false} LandedRecord(s: State, n: nat, ending: Ending)
    requires Inv(s) && s.parent.dispatch.Some? && n < Width(s) && Lands(s.parent, OutcomeAt(s, n, ending), true)
    ensures var d, p := s.parent.dispatch.value, After(s.parent, OutcomeAt(s, n, ending), true);
      && p.status == s.parent.status && p.dispatch.Some? && p.dispatch.value.cancelRequested == d.cancelRequested
      && (p.dispatch.value.status == d.status || (d.status == Pending && p.dispatch.value.status == Running))
      && exists c :: p.dispatch.value.children == d.children[n := c] && Fits(c, ending)
  {
    var d, p := s.parent.dispatch.value, After(s.parent, OutcomeAt(s, n, ending), true);
    KeyFound(s, n);
    var c := SettleChild(d.children[n], Outcome(d.children[n].plan.key, ending.status, ending.job)).value;
    hide Inv;
    assert p.dispatch.value.children == d.children[n := c] && Fits(c, ending);
  }

  /** A settlement that lands fits; the other children are as they were. */
  lemma {:induction false} SettleFits(s: State, e: Event)
    requires Inv(s) && s.parent.dispatch.Some? && Enabled(s, e) && e.Settle? && Lands(s.parent, OutcomeAt(s, e.n, e.ending), e.stored)
    requires AllFit(s.parent.dispatch.value.children, Collected(s))
    ensures var d, t := s.parent.dispatch.value, Next(s, e);
      && t.run.Executing? && t.parent.dispatch.Some? && AllFit(t.parent.dispatch.value.children, Collected(t))
      && t.parent.status == s.parent.status && t.parent.dispatch.value.cancelRequested == d.cancelRequested
      && (t.parent.dispatch.value.status == d.status || (d.status == Pending && t.parent.dispatch.value.status == Running))
  {
    hide Inv, Apply, Fits, RecordOne, After;
    LandedRecord(s, e.n, e.ending);
    var d, t := s.parent.dispatch.value, Next(s, e);
    var ds := t.parent.dispatch.value.children;
    forall i | 0 <= i < |ds| ensures i in Collected(t) && Fits(ds[i], Collected(t)[i]) {
      assert Fits(d.children[i], Collected(s)[i]);
    }
  }

  /** What the abort makes of a child that has not settled is never refused. */
  lemma {:induction false} AbortLands(s: State, n: nat)
    requires ActiveInv(s) && s.run.Executing? && n < Width(s) && n !in s.run.settled
    ensures Lands(s.parent, OutcomeAt(s, n, BY_ABORT), true)
  {
    assert Collected(s)[n] == BY_ABORT && Fits(s.parent.dispatch.value.children[n], BY_ABORT);
    RecordFits(s.parent, n, BY_ABORT);
  }

  lemma {:induction false} SettleKeepsActive(mode: Mode, s: State, e: Event)
    requires ActiveInv(s) && Admitted(mode, s, e) && e.Settle?
    ensures Cancelling(Next(s, e).parent) && RunOk(Next(s, e))
  {
    hide Apply, AllFit, After, Lands, SoundDispatch, LaterDispatch;
    SettleFits(s, e);
    NextKeeps(s, e);
    hide Next;
  }

  lemma {:induction false} CollectKeepsActive(s: State)
    requires ActiveInv(s) && Enabled(s, Collect)
    ensures Cancelling(Next(s, Collect).parent) && RunOk(Next(s, Collect))
  {
    hide Sound, AllFit, Inv;
  }

  lemma {:induction false} RecordKeepsActive(s: State)
    requires ActiveInv(s) && Enabled(s, RecordNext(true))
    ensures Cancelling(Next(s, RecordNext(true)).parent) && RunOk(Next(s, RecordNext(true)))
  {
    var d, n, results := s.parent.dispatch.value, s.run.recorded, s.run.results;
    assert Fits(d.children[n], results[n]);
    RecordFits(s.parent, n, results[n]);
    AfterKeeps(s.parent, OutcomeAt(s, n, results[n]), true);
    SettledFits(d.children, results, n);
    hide Apply, Sound, AllFit, Later;
  }

  lemma {:induction false} ReadKeepsActive(s: State)
    requires ActiveInv(s) && Enabled(s, ReadIntent(true))
    ensures Cancelling(Next(s, ReadIntent(true)).parent) && RunOk(Next(s, ReadIntent(true)))
  {
    FreshSeen(s.parent);
    hide Apply, Sound, LaterChildren, AllFit, Inv;
  }

  lemma {:induction false} ConfirmKeepsActive(s: State)
    requires ActiveInv(s) && Enabled(s, ConfirmNext(true))
    ensures Cancelling(Next(s, ConfirmNext(true)).parent) && RunOk(Next(s, ConfirmNext(true)))
  {
    var seen, i := s.run.seen, s.run.confirmed;
    assert LaterChild(seen.children[i], s.parent.dispatch.value.children[i]);
    var c := seen.children[i];
    if !c.acked && ChildTerminal(c.status) {
      var q := Proc(Whole, Restart(None), seen, i, Acking);
      assert Find(s.parent.dispatch.value.children, c.plan.key) <= i;
      assert Apply(s.parent, Acknowledge(c.plan.key)).Ok?;
      WriteStays(s, Acknowledge(c.plan.key), true);
    }
    hide Apply, Sound, LaterDispatch, Inv, AllTerminal;
  }

  lemma {:induction false} CloseKeepsActive(s: State)
    requires ActiveInv(s) && Enabled(s, Close(true))
    ensures Cancelling(Next(s, Close(true)).parent) && RunOk(Next(s, Close(true)))
  {
    FreshSeen(s.parent);
    FinalizeKnown(s.parent, s.parent.dispatch.value);
    AfterKeeps(s.parent, Finalize(AllCanceled, Outcomes(s.parent.dispatch.value.children)), true);
    hide Apply, Outcomes, Sound, Later, Inv, LaterDispatch;
  }

  /** A cancelled run of this process goes to its end, and is never refused by the store. */
  lemma {:induction false} ActiveKept(mode: Mode, s: State, e: Event)
    requires ActiveInv(s) && Admitted(mode, s, e)
    ensures ActiveInv(Next(s, e))
  {
    NextKeeps(s, e);
    hide Next, Inv, Cancelling, RunOk;
    match e
    case Settle(_, _, _, _) => SettleKeepsActive(mode, s, e);
    case Collect => CollectKeepsActive(s);
    case RecordNext(_) => RecordKeepsActive(s);
    case ReadIntent(_) => ReadKeepsActive(s);
    case ConfirmNext(_) => ConfirmKeepsActive(s);
    case Close(_) => CloseKeepsActive(s);
    case Finish(pid, _) => FinishKeepsActive(s, pid);
    case _ => OthersKeepActive(mode, s, e);
  }

  // ---- with no run: passes alone ----

  /** A child as it was, or as a pass leaves it. */
  predicate AsLeft(mode: Mode, orig: Child, c: Child) { c == orig || c == Passed(mode, orig) }

  predicate AllAsLeft(mode: Mode, orig: seq<Child>, cs: seq<Child>) {
    |cs| == |orig| && forall i :: 0 <= i < |cs| ==> AsLeft(mode, orig[i], cs[i])
  }

  predicate AllCanEnd(mode: Mode, orig: seq<Child>) { forall i :: 0 <= i < |orig| ==> CanEnd(mode, orig[i]) }

  predicate PassOk(mode: Mode, orig: seq<Child>, q: Proc) {
    && q.kind.Whole? && q.mode == mode && q.seen.cancelRequested && q.at <= |orig|
    && AllAsLeft(mode, orig, q.seen.children)
    && (forall i :: 0 <= i < q.at ==> q.seen.children[i] == Passed(mode, orig[i]))
    && (q.phase.Calling? ==> q.at < |orig| && q.seen.children[q.at] == orig[q.at] && Decide(mode, orig[q.at]).Call?)
    && (q.phase.Acking? ==> q.at < |orig| && Acks(Decide(mode, orig[q.at])))
  }

  predicate PassesOk(mode: Mode, orig: seq<Child>, procs: map<nat, Proc>) {
    forall pid :: pid in procs ==> PassOk(mode, orig, procs[pid])
  }

  predicate AloneInv(mode: Mode, orig: seq<Child>, s: State) {
    && Inv(s) && s.run.NoRun? && Cancelling(s.parent) && AllAsLeft(mode, orig, s.parent.dispatch.value.children)
    && (s.parent.status == Canceled ==> AllTerminal(s.parent.dispatch.value))
    && PassesOk(mode, orig, s.procs)
    && (s.procs == map[] && AllCanEnd(mode, orig) ==> s.parent.status == Canceled)
  }

  lemma {:induction false} BeginAlone(mode: Mode, orig: seq<Child>, s: State, e: Event)
    requires AloneInv(mode, orig, s) && Admitted(mode, s, e) && (e.Request? || e.Recover? || e.Abort?)
    ensures AloneInv(mode, orig, Next(s, e))
  {
    NextKeeps(s, e);
    if e.Request? { CancellingAfter(s.parent, RequestCancel, true); }
    hide Inv, Sound, AllAsLeft, AllTerminal, AllCanEnd, LaterDispatch, Decide;
  }

  /** The next child, decided on a snapshot: its own decision, or none if a pass has been by. */
  lemma {:induction false} ChooseAlone(mode: Mode, orig: seq<Child>, q: Proc)
    requires PassOk(mode, orig, q) && q.at < |q.seen.children| && q.phase.Deciding?
    ensures var step := Choice(q);
      && (step.Call? ==> PassOk(mode, orig, q.(phase := Calling)))
      && (step.AckOnly? ==> PassOk(mode, orig, q.(phase := Acking)))
      && (!step.Call? && !step.AckOnly? ==> PassOk(mode, orig, q.(at := q.at + 1, phase := Deciding)))
  {
    assert AsLeft(mode, orig[q.at], q.seen.children[q.at]);
  }

  lemma {:induction false} AnswerAlone(mode: Mode, orig: seq<Child>, q: Proc, confirmed: bool)
    requires PassOk(mode, orig, q) && q.at < |q.seen.children| && q.phase.Calling? && Choice(q) == Call(confirmed)
    ensures confirmed ==> PassOk(mode, orig, q.(phase := Acking))
    ensures !confirmed ==> PassOk(mode, orig, q.(at := q.at + 1, phase := Deciding))
  {}

  lemma {:induction false} DecideAlone(mode: Mode, orig: seq<Child>, s: State, e: Event)
    requires AloneInv(mode, orig, s) && Admitted(mode, s, e) && (e.Choose? || e.Answer?)
    ensures AloneInv(mode, orig, Next(s, e))
  {
    NextKeeps(s, e);
    assert PassOk(mode, orig, s.procs[e.pid]);
    if e.Choose? {
      ChooseAlone(mode, orig, s.procs[e.pid]);
    } else {
      AnswerAlone(mode, orig, s.procs[e.pid], e.confirmed);
    }
    hide Inv, Sound, PassOk, AllAsLeft, AllTerminal, AllCanEnd, LaterDispatch, Choice;
  }

  /** The children once one of them is acknowledged. */
  lemma {:induction false} AckLeaves(mode: Mode, orig: seq<Child>, p: Parent, q: Proc)
    requires Sound(p) && Requested(p) && ProcOk(p, q) && PassOk(mode, orig, q) && q.phase.Acking?
    requires AllAsLeft(mode, orig, p.dispatch.value.children)
    ensures var d, r := p.dispatch.value, Apply(p, Acknowledge(q.seen.children[q.at].plan.key));
      && q.at < |d.children| && r == Ok(WithChildren(p, d.children[q.at := Passed(mode, orig[q.at])]))
  {
    var d, n := p.dispatch.value, q.at;
    assert LaterChild(q.seen.children[n], d.children[n]);
    assert AsLeft(mode, orig[n], d.children[n]);
    FindKey(d.children, n);
    if d.children[n].acked {
      assert d.children[n := d.children[n]] == d.children;
    } else {
      AckExact(p, n);
    }
  }

  lemma {:induction false} AckedSeen(mode: Mode, orig: seq<Child>, p: Parent, q: Proc)
    requires ProcOk(p, q) && PassOk(mode, orig, q) && q.phase.Acking? && Requested(p)
    requires AllAsLeft(mode, orig, p.dispatch.value.children)
    ensures var d := p.dispatch.value;
      var cs := d.children[q.at := Passed(mode, orig[q.at])];
      AllAsLeft(mode, orig, cs) && PassOk(mode, orig, Proc(Whole, mode, d.(children := cs), q.at + 1, Deciding))
  {
    var d := p.dispatch.value;
    forall i | 0 <= i < q.at ensures d.children[i] == Passed(mode, orig[i]) {
      assert LaterChild(q.seen.children[i], d.children[i]) && AsLeft(mode, orig[i], d.children[i]);
    }
    forall i | 0 <= i < |d.children| ensures AsLeft(mode, orig[i], d.children[q.at := Passed(mode, orig[q.at])][i]) {
      assert AsLeft(mode, orig[i], d.children[i]);
    }
    hide Decide;
  }

  lemma {:induction false} AckAlone(mode: Mode, orig: seq<Child>, s: State, pid: nat)
    requires AloneInv(mode, orig, s) && Enabled(s, Ack(pid, true))
    ensures AloneInv(mode, orig, Next(s, Ack(pid, true)))
  {
    var q := s.procs[pid];
    NextKeeps(s, Ack(pid, true));
    assert ProcOk(s.parent, q) && PassOk(mode, orig, q);
    hide Apply;
    AckLeaves(mode, orig, s.parent, q);
    AckedSeen(mode, orig, s.parent, q);
    CancellingAfter(s.parent, Acknowledge(q.seen.children[q.at].plan.key), true);
    var d := s.parent.dispatch.value;
    var p := WithChildren(s.parent, d.children[q.at := Passed(mode, orig[q.at])]);
    assert p.status == Canceled ==> AllTerminal(p.dispatch.value) by { hide PassOk, AllAsLeft, Sound, Inv, LaterDispatch; }
    hide Apply, Inv, Sound, PassOk, AllAsLeft, AllTerminal, AllCanEnd, ProcOk, Decide, Passed;
  }

  lemma {:induction false} FinishAlone(mode: Mode, orig: seq<Child>, s: State, pid: nat)
    requires AloneInv(mode, orig, s) && Enabled(s, Finish(pid, true))
    ensures AloneInv(mode, orig, Next(s, Finish(pid, true)))
  {
    hide Next, Apply, Sound, AllAsLeft, LaterDispatch, AllTerminal, AllCanEnd, Choice;
    var q, d := s.procs[pid], s.parent.dispatch.value;
    NextKeeps(s, Finish(pid, true));
    FinishIs(s, pid);
    assert ProcOk(s.parent, q) && PassOk(mode, orig, q);
    var last := if q.mode.Live? then q.seen else d;
    if AllCanEnd(mode, orig) { SeenEnds(mode, orig, s.parent, q); }
    if AllTerminal(last) {
      StillTerminal(last, d);
      StillTerminalEnded(d);
      hide PassOk;
    }
    hide Inv, PassOk, ProcOk;
  }

  lemma {:induction false} StillTerminalEnded(d: Dispatch)
    requires AllTerminal(d)
    ensures AllTerminal(d.(status := AllCanceled))
  {}

  lemma {:induction false} StillTerminal(a: Dispatch, b: Dispatch)
    requires LaterDispatch(a, b) && AllTerminal(a)
    ensures AllTerminal(b)
  {
    forall i | 0 <= i < |b.children| ensures ChildTerminal(b.children[i].status) { assert LaterChild(a.children[i], b.children[i]); }
  }

  /** A pass that is through has seen every child end that can. */
  lemma {:induction false} SeenEnds(mode: Mode, orig: seq<Child>, p: Parent, q: Proc)
    requires ProcOk(p, q) && PassOk(mode, orig, q) && q.at >= |q.seen.children| && AllCanEnd(mode, orig)
    ensures AllTerminal(q.seen) && AllTerminal(p.dispatch.value)
  {
    forall i | 0 <= i < |orig| ensures ChildTerminal(q.seen.children[i].status) { assert CanEnd(mode, orig[i]); }
    StillTerminal(q.seen, p.dispatch.value);
  }

  lemma {:induction false} AloneKept(mode: Mode, orig: seq<Child>, s: State, e: Event)
    requires AloneInv(mode, orig, s) && Admitted(mode, s, e)
    ensures AloneInv(mode, orig, Next(s, e))
  {
    match e
    case Request(_, _, _) => hide Next, AloneInv; BeginAlone(mode, orig, s, e);
    case Recover(_, _) => hide Next, AloneInv; BeginAlone(mode, orig, s, e);
    case Abort(_) => hide Next, AloneInv; BeginAlone(mode, orig, s, e);
    case Choose(_) => hide Next, AloneInv; DecideAlone(mode, orig, s, e);
    case Answer(_, _) => hide Next, AloneInv; DecideAlone(mode, orig, s, e);
    case Ack(pid, _) => hide Next, AloneInv; AckAlone(mode, orig, s, pid);
    case Finish(pid, _) => hide Next, AloneInv; FinishAlone(mode, orig, s, pid);
    case _ => hide Next, Inv, Cancelling; assert false;
  }

  lemma {:induction false} LeftEnds(mode: Mode, orig: seq<Child>, cs: seq<Child>)
    requires AllAsLeft(mode, orig, cs) && forall i :: 0 <= i < |cs| ==> ChildTerminal(cs[i].status)
    ensures AllCanEnd(mode, orig)
  {
    forall i | 0 <= i < |orig| ensures CanEnd(mode, orig[i]) { assert AsLeft(mode, orig[i], cs[i]); }
  }

  // ---- from the cancellation on ----

  lemma {:induction false} BeginsActive(mode: Mode, s: State, e: Event)
    requires Ready(s) && Admitted(mode, s, e) && e.Request? && s.run.Executing?
    ensures ActiveInv(Next(s, e))
  {
    NextKeeps(s, e);
    MildAfter(s.parent, RequestCancel, true);
    var d := s.parent.dispatch.value;
    assert Next(s, e).parent.dispatch.value.children == d.children;
    assert Collected(Next(s, e)) == Collected(s);
    hide Inv, AllFit, SoundDispatch;
  }

  lemma {:induction false} BeginsAlone(mode: Mode, s: State, e: Event)
    requires Ready(s) && Admitted(mode, s, e) && (e.Request? || e.Recover?) && s.run.NoRun?
    ensures AloneInv(mode, s.parent.dispatch.value.children, Next(s, e))
  {
    NextKeeps(s, e);
    var d := s.parent.dispatch.value;
    var t := Next(s, e);
    assert t.parent.dispatch.value.children == d.children && t.parent.status == s.parent.status;
    assert AllAsLeft(mode, d.children, d.children);
    hide Inv, AllAsLeft, SoundDispatch, Decide, Passed;
  }

  lemma {:induction false} EpisodeStep(mode: Mode, s: State, es: seq<Event>, k: nat)
    requires IsEpisode(mode, s, es) && 1 <= k <= |es|
    ensures Admitted(mode, At(s, es, k - 1), es[k - 1]) && At(s, es, k) == Next(At(s, es, k - 1), es[k - 1])
    ensures k == 1 ==> At(s, es, k - 1) == s
  {
    hide Next, Enabled;
  }

  lemma {:induction false} ActiveThrough(mode: Mode, s: State, es: seq<Event>, k: nat)
    requires 0 < |es| && Ready(s) && s.run.Executing? && es[0].Request? && IsEpisode(mode, s, es) && 1 <= k <= |es|
    ensures ActiveInv(At(s, es, k))
  {
    hide *;
    var e, t := es[k - 1], At(s, es, k - 1);
    EpisodeStep(mode, s, es, k);
    if k == 1 {
      BeginsActive(mode, s, es[0]);
    } else {
      ActiveThrough(mode, s, es, k - 1);
      ActiveKept(mode, t, e);
    }
  }

  lemma {:induction false} AloneThrough(mode: Mode, s: State, es: seq<Event>, k: nat)
    requires 0 < |es| && Ready(s) && s.parent.dispatch.Some? && s.run.NoRun? && (es[0].Request? || es[0].Recover?) && IsEpisode(mode, s, es) && 1 <= k <= |es|
    ensures AloneInv(mode, s.parent.dispatch.value.children, At(s, es, k))
  {
    hide *;
    var e, t := es[k - 1], At(s, es, k - 1);
    EpisodeStep(mode, s, es, k);
    if k == 1 {
      BeginsAlone(mode, s, es[0]);
    } else {
      AloneThrough(mode, s, es, k - 1);
      AloneKept(mode, s.parent.dispatch.value.children, t, e);
    }
  }

  /** However passes, bindings, settlements and the aborted run interleave after a cancellation,
    * live or on restart, if no outcome of a child is refused: once all is quiet the parent is
    * canceled exactly if its run was active when it was cancelled, or every child had ended or could
    * be acknowledged. A failed, unbound or mismatched child leaves it pending only where no run is
    * active to be aborted. */
  lemma {:induction false} ParentEndsExactly(mode: Mode, s: State, es: seq<Event>)
    requires Ready(s) && 0 < |es| && IsEpisode(mode, s, es) && Quiet(At(s, es, |es|))
    requires es[0].Request? || (es[0].Recover? && s.run.NoRun?)
    ensures At(s, es, |es|).parent.status == Canceled <==> s.run.Executing? || AllCanEnd(mode, s.parent.dispatch.value.children)
  {
    var t := At(s, es, |es|);
    if s.run.Executing? {
      ActiveThrough(mode, s, es, |es|);
      hide At, Inv;
    } else {
      var orig := s.parent.dispatch.value.children;
      AloneThrough(mode, s, es, |es|);
      hide At, Inv, AllCanEnd, AllAsLeft, PassesOk;
      if t.parent.status == Canceled { LeftEnds(mode, orig, t.parent.dispatch.value.children); }
    }
  }

  // ---- every run is ready until it is cancelled ----

  /** What a run does before it is cancelled: children start, bind and settle. */
  predicate AtWork(s: State, e: Event) {
    && Enabled(s, e)
    && match e
       case Start(_) => true
       case Bound(_, _, _, _, _) => true
       case Choose(_) => true
       case Settle(_, n, ending, stored) => Lands(s.parent, OutcomeAt(s, n, ending), stored)
       case Other(op, _) => op.MarkStarted?
       case _ => false
  }

  lemma {:induction false} FirstIsReady(p: Parent)
    requires Sound(p) && p.dispatch.Some? && !TaskTerminal(p.status) && !DispatchTerminal(p.dispatch.value.status)
    requires forall n :: 0 <= n < |p.dispatch.value.children| ==> p.dispatch.value.children[n].status == ChildPending
    ensures Ready(State(p, map[], Executing(false, {}, map[])))
  {
    var s := State(p, map[], Executing(false, {}, map[]));
    forall n | 0 <= n < Width(s) ensures n in Collected(s) && Fits(p.dispatch.value.children[n], Collected(s)[n]) {}
    hide SoundDispatch;
  }

  /** So the parent's end is decided for every run, whenever it is cancelled. */
  lemma {:induction false} StaysReady(s: State, e: Event)
    requires Ready(s) && s.run.Executing? && AtWork(s, e)
    ensures Ready(Next(s, e))
  {
    NextKeeps(s, e);
    var d := s.parent.dispatch.value;
    match e
    case Settle(_, _, _, _) => SettleFits(s, e); hide Inv, AllFit, RecordOne, Next;
    case Bound(_, n, job, _, stored) =>
      MildAfter(s.parent, Bind(d.children[n].plan.key, job), stored);
      MildFits(d.children, Next(s, e).parent.dispatch.value.children, Collected(s));
      assert Collected(Next(s, e)) == Collected(s);
      hide Inv, AllFit, AllMild;
    case Other(op, stored) =>
      MildAfter(s.parent, op, stored);
      MildFits(d.children, Next(s, e).parent.dispatch.value.children, Collected(s));
      assert Collected(Next(s, e)) == Collected(s);
      hide Inv, AllFit, AllMild;
    case Start(_) => assert Collected(Next(s, e)) == Collected(s); hide Inv, AllFit;
    case Choose(_) => assert Collected(Next(s, e)) == Collected(s); hide Inv, AllFit;
  }

  // ---- a pass that nothing disturbs ----

  predicate Undisturbed(mode: Mode, s: State, es: seq<Event>) {
    && Ready(s) && s.run.NoRun? && 0 < |es| && (es[0].Request? || es[0].Recover?) && IsEpisode(mode, s, es)
    && forall k :: 0 < k < |es| ==> !es[k].Request? && !es[k].Recover?
  }

  predicate InPass(mode: Mode, p: Parent, q: Proc) {
    && p.dispatch.Some? && q.kind.Whole? && q.mode == mode && q.at <= |p.dispatch.value.children|
    && (q.phase.Aborting? ==> q.at == 0)
    && (q.phase.Calling? || q.phase.Acking? ==> q.at < |p.dispatch.value.children|)
    && (q.phase.Calling? ==> Decide(mode, p.dispatch.value.children[q.at]).Call?)
    && (q.phase.Acking? ==> Acks(Decide(mode, p.dispatch.value.children[q.at])))
  }

  /** The children the pass has called for, the one it is at included. */
  function Through(q: Proc): nat { if q.phase.Calling? || q.phase.Acking? then q.at + 1 else q.at }

  /** One pass under way: the store and its snapshot are those of the atomic pass so far. */
  predicate PassUnderWay(mode: Mode, p: Parent, t: State, calls: seq<string>, pid: nat) {
    && Sound(p) && Requested(p) && !TaskTerminal(p.status) && t.run.NoRun? && t.procs.Keys == {pid}
    && var q := t.procs[pid];
       && InPass(mode, p, q)
       && t.parent == WithChildren(p, PassedUpTo(mode, p.dispatch.value.children, q.at))
       && t.parent.dispatch == Some(q.seen)
       && calls == Called(mode, p.dispatch.value.children, Through(q))
  }

  predicate PassDone(mode: Mode, p: Parent, t: State, calls: seq<string>) {
    && p.dispatch.Some? && t.run.NoRun? && t.procs == map[]
    && t.parent == Cancelled(p, mode) && calls == Called(mode, p.dispatch.value.children, |p.dispatch.value.children|)
  }

  lemma {:induction false} UnchangedNext(mode: Mode, cs: seq<Child>, n: nat)
    requires n < |cs| && !Acks(Decide(mode, cs[n]))
    ensures PassedUpTo(mode, cs, n + 1) == PassedUpTo(mode, cs, n)
  {
    PassedNext(mode, cs, n);
    assert PassedUpTo(mode, cs, n)[n := cs[n]] == PassedUpTo(mode, cs, n);
  }

  lemma {:induction false} AbortUnderWay(mode: Mode, p: Parent, t: State, calls: seq<string>, pid: nat)
    requires PassUnderWay(mode, p, t, calls, pid) && Enabled(t, Abort(pid))
    ensures PassUnderWay(mode, p, Next(t, Abort(pid)), calls, pid)
  {
    hide Sound, Decide, PassedUpTo, Called;
  }

  /** Where a pass is once it has decided, and what it calls. */
  function Chosen(q: Proc): (Proc, bool)
    requires q.at < |q.seen.children|
  {
    var step := Choice(q);
    if step.Call? then (q.(phase := Calling), true)
    else if step.AckOnly? then (q.(phase := Acking), false)
    else (q.(at := q.at + 1, phase := Deciding), false)
  }

  lemma {:induction false} ChooseIs(t: State, pid: nat)
    requires Enabled(t, Choose(pid)) && t.procs[pid].kind.Whole?
    ensures var (q, call) := Chosen(t.procs[pid]);
      && Next(t, Choose(pid)) == t.(procs := t.procs[pid := q])
      && (CallOf(t, Choose(pid)).Some? <==> call)
      && (call ==> CallOf(t, Choose(pid)).value.key == t.procs[pid].seen.children[t.procs[pid].at].plan.key)
  {
    hide Choice;
  }

  lemma {:induction false} ChosenInPass(mode: Mode, p: Parent, q: Proc)
    requires InPass(mode, p, q) && q.phase.Deciding? && q.at < |p.dispatch.value.children|
    requires q.seen.children == PassedUpTo(mode, p.dispatch.value.children, q.at)
    ensures var (r, call) := Chosen(q);
      && InPass(mode, p, r) && r.seen == q.seen
      && PassedUpTo(mode, p.dispatch.value.children, r.at) == q.seen.children
      && Called(mode, p.dispatch.value.children, Through(r))
           == Called(mode, p.dispatch.value.children, q.at) + if call then [q.seen.children[q.at].plan.key] else []
  {
    var cs, n := p.dispatch.value.children, q.at;
    PassedNext(mode, cs, n);
    if !Acks(Decide(mode, cs[n])) { UnchangedNext(mode, cs, n); }
    hide Decide, PassedUpTo;
  }

  lemma {:induction false} ChooseUnderWay(mode: Mode, p: Parent, t: State, calls: seq<string>, pid: nat)
    requires PassUnderWay(mode, p, t, calls, pid) && Enabled(t, Choose(pid))
    ensures var call := CallOf(t, Choose(pid));
      PassUnderWay(mode, p, Next(t, Choose(pid)), calls + if call.Some? then [call.value.key] else [], pid)
  {
    ChooseIs(t, pid);
    ChosenInPass(mode, p, t.procs[pid]);
    hide Sound, InPass, PassedUpTo, Called, Chosen, Next, CallOf;
  }

  lemma {:induction false} AnsweredInPass(mode: Mode, p: Parent, q: Proc, confirmed: bool)
    requires InPass(mode, p, q) && q.phase.Calling? && q.seen.children == PassedUpTo(mode, p.dispatch.value.children, q.at)
    requires Choice(q) == Call(confirmed)
    ensures var r := if confirmed then q.(phase := Acking) else q.(at := q.at + 1, phase := Deciding);
      && InPass(mode, p, r) && r.seen == q.seen && Through(r) == Through(q)
      && PassedUpTo(mode, p.dispatch.value.children, r.at) == q.seen.children
  {
    var cs, n := p.dispatch.value.children, q.at;
    PassedNext(mode, cs, n);
    assert Decide(mode, cs[n]) == Call(confirmed);
    if !confirmed { UnchangedNext(mode, cs, n); }
    hide Decide, PassedUpTo;
  }

  lemma {:induction false} AnswerUnderWay(mode: Mode, p: Parent, t: State, calls: seq<string>, pid: nat, confirmed: bool)
    requires PassUnderWay(mode, p, t, calls, pid) && Admitted(mode, t, Answer(pid, confirmed))
    ensures PassUnderWay(mode, p, Next(t, Answer(pid, confirmed)), calls, pid)
  {
    hide Sound, InPass, PassedUpTo, Called, Through, Choice;
    IsCalling(mode, p, t.procs[pid]);
    AnsweredInPass(mode, p, t.procs[pid], confirmed);
  }

  lemma {:induction false} IsCalling(mode: Mode, p: Parent, q: Proc)
    requires InPass(mode, p, q)
    ensures p.dispatch.Some? && q.kind.Whole? && q.at <= |p.dispatch.value.children|
  {}

  lemma {:induction false} AckedUpTo(mode: Mode, p: Parent, n: nat)
    requires Sound(p) && Requested(p) && n < |p.dispatch.value.children| && Acks(Decide(mode, p.dispatch.value.children[n]))
    ensures var cs := p.dispatch.value.children;
      After(WithChildren(p, PassedUpTo(mode, cs, n)), Acknowledge(cs[n].plan.key), true) == WithChildren(p, PassedUpTo(mode, cs, n + 1))
    ensures Apply(WithChildren(p, PassedUpTo(mode, p.dispatch.value.children, n)), Acknowledge(p.dispatch.value.children[n].plan.key)).Ok?
  {
    var cs := p.dispatch.value.children;
    PassedNext(mode, cs, n);
    PassedValid(mode, cs, n);
    assert !cs[n].acked;
    AckExact(WithChildren(p, PassedUpTo(mode, cs, n)), n);
    hide Apply, PassedUpTo, ValidChildren;
  }

  lemma {:induction false} AckUnderWay(mode: Mode, p: Parent, t: State, calls: seq<string>, pid: nat)
    requires PassUnderWay(mode, p, t, calls, pid) && Enabled(t, Ack(pid, true))
    ensures PassUnderWay(mode, p, Next(t, Ack(pid, true)), calls, pid)
  {
    hide Sound, Decide, PassedUpTo, Apply, After, Called;
    var q, cs := t.procs[pid], p.dispatch.value.children;
    PassedNext(mode, cs, q.at);
    AckedUpTo(mode, p, q.at);
  }

  lemma {:induction false} SettledIs(p: Parent)
    requires p.dispatch.Some? && AllTerminal(p.dispatch.value) && !TaskTerminal(p.status)
    ensures Settled(p) == Parent(Canceled, Some(p.dispatch.value.(status := AllCanceled)))
  {}

  lemma {:induction false} FinishUnderWay(mode: Mode, p: Parent, t: State, calls: seq<string>, pid: nat)
    requires PassUnderWay(mode, p, t, calls, pid) && Enabled(t, Finish(pid, true)) && Inv(t)
    ensures PassDone(mode, p, Next(t, Finish(pid, true)), calls)
  {
    hide Sound, Decide, PassedUpTo, Pass, Keys, Outcomes, Inv, LaterDispatch, AllTerminal, Apply, After, Called, Settled;
    var q, d := t.procs[pid], t.parent.dispatch.value;
    PassResult(mode, p);
    FreshSeen(t.parent);
    assert t.procs - {pid} == map[];
    if AllTerminal(d) {
      SoundState(t);
      FinalizeKnown(t.parent, d);
      SettledIs(t.parent);
      AfterIs(t.parent, Finalize(AllCanceled, Outcomes(d.children)));
    } else {
      SettledNot(t.parent);
    }
  }

  lemma {:induction false} SoundState(s: State)
    requires Inv(s)
    ensures Sound(s.parent)
  {}

  lemma {:induction false} AfterIs(p: Parent, op: Op)
    requires Apply(p, op).Ok?
    ensures After(p, op, true) == Apply(p, op).value
  {}

  lemma {:induction false} SettledNot(p: Parent)
    requires p.dispatch.Some? && !AllTerminal(p.dispatch.value)
    ensures Settled(p) == p
  {}

  lemma {:induction false} BeginsUndisturbed(mode: Mode, s: State, e: Event)
    requires Ready(s) && s.run.NoRun? && Admitted(mode, s, e) && (e.Request? || e.Recover?)
    ensures var p := Next(s, e).parent; p.dispatch.Some? && PassUnderWay(mode, p, Next(s, e), [], e.pid)
  {
    NextKeeps(s, e);
    var t := Next(s, e);
    var cs := t.parent.dispatch.value.children;
    assert t.parent.dispatch.value.children == s.parent.dispatch.value.children && t.parent.status == s.parent.status;
    assert PassedUpTo(mode, cs, 0) == cs;
    assert t.procs.Keys == {e.pid};
    hide SoundDispatch, Decide, PassedUpTo;
  }

  lemma {:induction false} StepUnderWay(mode: Mode, p: Parent, t: State, calls: seq<string>, pid: nat, e: Event)
    requires PassUnderWay(mode, p, t, calls, pid) && Admitted(mode, t, e) && !e.Request? && !e.Recover? && Inv(t)
    ensures var c := calls + if CallOf(t, e).Some? then [CallOf(t, e).value.key] else [];
      PassUnderWay(mode, p, Next(t, e), c, pid) || PassDone(mode, p, Next(t, e), c)
  {
    assert e.Abort? || e.Choose? || e.Answer? || e.Ack? || e.Finish? by { hide PassedUpTo, Decide, Called, Sound, InPass; }
    assert e.pid == pid by { hide PassedUpTo, Decide, Called, Sound, InPass; }
    assert CallOf(t, e).Some? ==> e.Choose?;
    assert calls + [] == calls;
    assert StoredOf(e) && (e.Answer? ==> Admitted(mode, t, Answer(pid, e.confirmed))) && Enabled(t, e);
    hide *;
    match e
    case Abort(_) => AbortUnderWay(mode, p, t, calls, pid);
    case Choose(_) => ChooseUnderWay(mode, p, t, calls, pid);
    case Answer(_, confirmed) => AnswerUnderWay(mode, p, t, calls, pid, confirmed);
    case Ack(_, stored) => StoredIs(e); AckUnderWay(mode, p, t, calls, pid);
    case Finish(_, stored) => StoredIs(e); FinishUnderWay(mode, p, t, calls, pid);
  }

  predicate StoredOf(e: Event) { match e case Ack(_, stored) => stored case Finish(_, stored) => stored case _ => true }

  lemma {:induction false} StoredIs(e: Event)
    requires StoredOf(e)
    ensures e.Ack? || e.Finish? ==> e.stored
  {}

  lemma {:induction false} NothingAfter(mode: Mode, t: State, e: Event)
    requires t.run.NoRun? && t.procs == map[] && Admitted(mode, t, e)
    ensures e.Request? || e.Recover?
  {}

  /** A pass that nothing disturbs, live or on restart, does what it does in one piece: the same
    * calls in the same order, and the parent as the atomic pass leaves it. */
  lemma {:induction false} UndisturbedIsAtomic(mode: Mode, s: State, es: seq<Event>, k: nat)
    requires Undisturbed(mode, s, es) && 1 <= k <= |es|
    ensures var p := Next(s, es[0]).parent;
      PassUnderWay(mode, p, At(s, es, k), Calls(s, es, k), es[0].pid) || PassDone(mode, p, At(s, es, k), Calls(s, es, k))
  {
    hide *;
    UndisturbedStep(mode, s, es, k);
    var e, t, p := es[k - 1], At(s, es, k - 1), Next(s, es[0]).parent;
    var before := Calls(s, es, k - 1);
    if k == 1 {
      BeginsUndisturbed(mode, s, e);
    } else {
      UndisturbedIsAtomic(mode, s, es, k - 1);
      if PassDone(mode, p, t, before) { DoneIsQuiet(mode, p, t, before, e); }
      StepUnderWay(mode, p, t, before, es[0].pid, e);
    }
  }

  lemma {:induction false} DoneIsQuiet(mode: Mode, p: Parent, t: State, calls: seq<string>, e: Event)
    requires PassDone(mode, p, t, calls) && Admitted(mode, t, e)
    ensures e.Request? || e.Recover?
  {
    NothingAfter(mode, t, e);
    hide Cancelled, Called, Next;
  }

  lemma {:induction false} UndisturbedStep(mode: Mode, s: State, es: seq<Event>, k: nat)
    requires Undisturbed(mode, s, es) && 1 <= k <= |es|
    ensures var e, t := es[k - 1], At(s, es, k - 1);
      && Inv(t) && Enabled(t, e) && Admitted(mode, t, e) && At(s, es, k) == Next(t, e)
      && Calls(s, es, k) == Calls(s, es, k - 1) + (if CallOf(t, e).Some? then [CallOf(t, e).value.key] else [])
    ensures Ready(s) && s.run.NoRun? && (es[0].Request? || es[0].Recover?) && Enabled(s, es[0])
    ensures k > 1 ==> !es[k - 1].Request? && !es[k - 1].Recover?
    ensures k == 1 ==> At(s, es, k - 1) == s && Calls(s, es, 1) == []
  {
    hide Next, Enabled, At, Inv, IsEpisode, Admitted, Ready, CallOf, Requested;
    EpisodeStep(mode, s, es, k);
    EpisodeStep(mode, s, es, 1);
    AdmittedIs(mode, s, es[0]);
    AdmittedIs(mode, At(s, es, k - 1), es[k - 1]);
    ReadyInv(s);
    InvAt(s, es, k - 1);
  }

  lemma {:induction false} AdmittedIs(mode: Mode, t: State, e: Event)
    requires Admitted(mode, t, e)
    ensures Enabled(t, e) && (CallOf(t, e).Some? ==> e.Choose?)
  {
    hide Choice, Enabled;
  }

  lemma {:induction false} ReadyInv(s: State)
    requires Ready(s)
    ensures Inv(s)
  {}

  /** The whole of it. */
  lemma {:induction false} UndisturbedPass(mode: Mode, s: State, es: seq<Event>)
    requires Undisturbed(mode, s, es) && Quiet(At(s, es, |es|))
    ensures var p := Next(s, es[0]).parent;
      && p.dispatch.Some? && At(s, es, |es|).parent == Cancelled(p, mode)
      && Calls(s, es, |es|) == Called(mode, p.dispatch.value.children, |p.dispatch.value.children|)
  {
    UndisturbedIsAtomic(mode, s, es, |es|);
    hide At, Next, Calls, Called, Cancelled, Undisturbed, InPass, Sound;
    assert es[0].pid !in At(s, es, |es|).procs;
  }

  // ---- the aborted run, as it goes ----

  /** A parent with one running child that no provider can cancel: its job is not bound yet. */
  function Stuck(plan: Plan): State {
    State(Parent(Working, Some(Dispatch("f", Running, false, [Child(plan, ChildWorking, None, false)]))), map[], Executing(false, {0}, map[]))
  }

  /** The pass can only report the child; the abort settles it, and the run ends the parent. */
  function AbortedRun(): (r: seq<Event>)
    ensures |r| == 11
  {
    [Request(0, map[], true), Abort(0), Choose(0), Finish(0, true), Settle(1, 0, BY_ABORT, true), Ack(1, true),
     Collect, RecordNext(true), ReadIntent(true), ConfirmNext(true), Close(true)]
  }

  /** The states on the way. */
  function OnTheWay(plan: Plan, k: nat): State {
    var d := Dispatch("f", if k < 11 then Canceling else AllCanceled, true,
                      [Child(plan, if k < 5 then ChildWorking else ChildCanceled, None, k >= 6)]);
    var q := Proc(Whole, Live(map[]), d, if k < 3 then 0 else 1, if k == 1 then Aborting else Deciding);
    var run := if k < 2 then Executing(false, {0}, map[])
               else if k < 5 then Executing(true, {0}, map[])
               else if k < 7 then Executing(true, {0}, map[0 := BY_ABORT])
               else if k < 9 then Recording(map[0 := BY_ABORT], k - 7)
               else if k < 11 then Confirming(d, k - 9, AllCanceled)
               else Ended;
    if k == 0 then Stuck(plan)
    else State(Parent(if k < 11 then Working else Canceled, Some(d)),
               if k < 4 then map[0 := q] else if k == 5 then map[1 := Proc(Settler, Live(map[]), d, 0, Acking)] else map[], run)
  }

  lemma {:induction false} StuckBegins(plan: Plan, k: nat)
    requires k < 4
    ensures Admitted(Live(map[]), OnTheWay(plan, k), AbortedRun()[k]) && Next(OnTheWay(plan, k), AbortedRun()[k]) == OnTheWay(plan, k + 1)
  {
    if k == 3 { assert OnTheWay(plan, 3).procs - {0} == map[]; }
  }

  lemma {:induction false} StuckSettles(plan: Plan, k: nat)
    requires 4 <= k < 6
    ensures Admitted(Live(map[]), OnTheWay(plan, k), AbortedRun()[k]) && Next(OnTheWay(plan, k), AbortedRun()[k]) == OnTheWay(plan, k + 1)
  {
    var s, t := OnTheWay(plan, k), OnTheWay(plan, k + 1);
    var cs := s.parent.dispatch.value.children;
    assert Find(cs, plan.key) == 0;
    assert cs[0 := t.parent.dispatch.value.children[0]] == t.parent.dispatch.value.children;
    if k == 4 {
      assert After(s.parent, OutcomeAt(s, 0, BY_ABORT), true) == t.parent;
    } else {
      assert After(s.parent, Acknowledge(plan.key), true) == t.parent;
      assert s.procs - {1} == map[];
    }
  }

  lemma {:induction false} StuckRecords(plan: Plan, k: nat)
    requires 6 <= k < 8
    ensures Admitted(Live(map[]), OnTheWay(plan, k), AbortedRun()[k]) && Next(OnTheWay(plan, k), AbortedRun()[k]) == OnTheWay(plan, k + 1)
  {
    var s, t := OnTheWay(plan, k), OnTheWay(plan, k + 1);
    if k == 6 {
      assert Collected(s) == map[0 := BY_ABORT];
    } else {
      var cs := s.parent.dispatch.value.children;
      assert Find(cs, plan.key) == 0 && cs[0 := cs[0]] == cs;
      assert After(s.parent, OutcomeAt(s, 0, BY_ABORT), true) == t.parent;
    }
  }

  lemma {:induction false} StuckEnds(plan: Plan, k: nat)
    requires 8 <= k < 11
    ensures Admitted(Live(map[]), OnTheWay(plan, k), AbortedRun()[k]) && Next(OnTheWay(plan, k), AbortedRun()[k]) == OnTheWay(plan, k + 1)
  {
    var s := OnTheWay(plan, k);
    if k == 10 {
      var cs := s.parent.dispatch.value.children;
      assert Find(cs, plan.key) == 0 && cs[0 := cs[0]] == cs;
      assert Outcomes(cs) == [Outcome(plan.key, ChildCanceled, None)] && Outcomes(cs)[1..] == [];
      assert RecordOne(s.parent.dispatch.value, Outcomes(cs)[0]) == Ok(s.parent.dispatch.value);
      assert RecordEach(s.parent.dispatch.value, Outcomes(cs)) == Ok(s.parent.dispatch.value);
    }
  }

  lemma {:induction false} OnTheWayIs(plan: Plan, k: nat)
    requires k <= 11
    ensures At(Stuck(plan), AbortedRun(), k) == OnTheWay(plan, k)
    ensures k < 11 ==> Admitted(Live(map[]), OnTheWay(plan, k), AbortedRun()[k]) && Next(OnTheWay(plan, k), AbortedRun()[k]) == OnTheWay(plan, k + 1)
  {
    if k > 0 { OnTheWayIs(plan, k - 1); }
    if k < 4 {
      StuckBegins(plan, k);
    } else if k < 6 {
      StuckSettles(plan, k);
    } else if k < 8 {
      StuckRecords(plan, k);
    } else if k < 11 {
      StuckEnds(plan, k);
    }
    hide Next, Enabled, AbortedRun;
  }

  lemma {:induction false} StuckReady(plan: Plan)
    requires ValidPlans([plan])
    ensures Ready(Stuck(plan)) && !AllCanEnd(Live(map[]), Stuck(plan).parent.dispatch.value.children)
  {
    var s := Stuck(plan);
    assert [plan][0].identity.Some? <==> [plan][0].boundary.Some?;
    assert !CanEnd(Live(map[]), s.parent.dispatch.value.children[0]);
    assert Collected(s) == map[0 := BY_ABORT];
  }

  lemma {:induction false} StuckEpisode(plan: Plan)
    ensures IsEpisode(Live(map[]), Stuck(plan), AbortedRun())
  {
    hide At, Next, Enabled, Admitted, Stuck, OnTheWay;
    forall k | 0 <= k < |AbortedRun()| ensures Admitted(Live(map[]), At(Stuck(plan), AbortedRun(), k), AbortedRun()[k]) { OnTheWayIs(plan, k); }
  }

  /** The only child can neither end nor be acknowledged by a pass, and yet the parent is canceled
    * at the end. */
  lemma {:induction false} AbortedRunEndsParent(plan: Plan)
    requires ValidPlans([plan])
    ensures var s, es := Stuck(plan), AbortedRun();
      && Ready(s) && IsEpisode(Live(map[]), s, es) && Quiet(At(s, es, |es|))
      && !AllCanEnd(Live(map[]), s.parent.dispatch.value.children) && At(s, es, |es|).parent.status == Canceled
  {
    hide At, Next, Enabled, Ready, IsEpisode, AbortedRun, Stuck, AllCanEnd;
    StuckReady(plan);
    StuckEpisode(plan);
    OnTheWayIs(plan, 11);
  }

  // ---- refused outcomes included ----

  /** As Admitted, but the store may refuse the outcome of a child, which breaks the run off. */
  predicate AdmittedAnyway(mode: Mode, s: State, e: Event) {
    if e.Settle? then Enabled(s, e) && e.stored else Admitted(mode, s, e)
  }

  predicate IsCourse(mode: Mode, s: State, es: seq<Event>) {
    forall k :: 0 <= k < |es| ==> AdmittedAnyway(mode, At(s, es, k), es[k])
  }

  /** A pass goes through having seen every child ended, or the run comes to its close. */
  predicate EndsParent(s: State, e: Event) {
    match e
    case Finish(pid, _) => pid in s.procs && s.parent.dispatch.Some?
      && AllTerminal(if s.procs[pid].mode.Live? then s.procs[pid].seen else s.parent.dispatch.value)
    case Close(_) => true
    case _ => false
  }

  predicate LooseInv(s: State) { Inv(s) && Cancelling(s.parent) && (s.run.NoRun? || s.run.Broken? || RunOk(s)) }

  lemma {:induction false} IdleRunKeeps(mode: Mode, s: State, e: Event)
    requires LooseInv(s) && (s.run.NoRun? || s.run.Broken?) && AdmittedAnyway(mode, s, e)
    ensures Cancelling(Next(s, e).parent) && Next(s, e).run == s.run
  {
    match e
    case Request(_, _, stored) => CancellingAfter(s.parent, RequestCancel, stored); hide Apply, Inv, Cancelling;
    case Bound(_, n, job, _, stored) =>
      CancellingAfter(s.parent, Bind(s.parent.dispatch.value.children[n].plan.key, job), stored);
      hide Apply, Inv, Cancelling;
    case Other(op, stored) => CancellingAfter(s.parent, op, stored); hide Apply, Inv, Cancelling;
    case Ack(pid, _) =>
      var q := s.procs[pid];
      AckTakes(s.parent, q);
      CancellingAfter(s.parent, Acknowledge(q.seen.children[q.at].plan.key), true);
      hide Apply, Inv, Cancelling;
    case Finish(pid, _) =>
      NextKeeps(s, e);
      FinishIs(s, pid);
      hide Apply, SoundDispatch, LaterDispatch;
    case _ => hide Apply, Inv, Cancelling;
  }

  lemma {:induction false} LooseKept(mode: Mode, s: State, e: Event)
    requires LooseInv(s) && AdmittedAnyway(mode, s, e)
    ensures LooseInv(Next(s, e))
  {
    NextKeeps(s, e);
    if s.run.NoRun? || s.run.Broken? {
      IdleRunKeeps(mode, s, e);
      hide Next, Inv, Cancelling;
    } else if Admitted(mode, s, e) {
      ActiveKept(mode, s, e);
      hide Next, Inv, Cancelling, RunOk;
    } else {
      hide Apply, Inv, Cancelling;
    }
  }

  lemma {:induction false} RecordKeepsStatus(p: Parent, o: Outcome, stored: bool)
    requires p.dispatch.Some?
    ensures After(p, Record(o), stored).status == p.status
  {
    hide RecordOne;
  }

  lemma {:induction false} RunMovesStatus(mode: Mode, s: State, e: Event)
    requires LooseInv(s) && AdmittedAnyway(mode, s, e) && (e.Settle? || e.RecordNext? || e.ReadIntent? || e.ConfirmNext? || e.Close?)
    ensures Next(s, e).parent.status == if e.Close? then Canceled else s.parent.status
  {
    match e
    case Settle(_, n, ending, stored) =>
      RecordKeepsStatus(s.parent, OutcomeAt(s, n, ending).outcome, stored);
      hide Apply, Inv, Cancelling, RunOk;
    case RecordNext(stored) =>
      RecordKeepsStatus(s.parent, OutcomeAt(s, s.run.recorded, s.run.results[s.run.recorded]).outcome, stored);
      hide Apply, Inv, Cancelling, RunOk;
    case ReadIntent(stored) => MildAfter(s.parent, RequestCancel, stored); hide Apply, Inv, Cancelling, RunOk;
    case ConfirmNext(stored) =>
      MildAfter(s.parent, Acknowledge(s.run.seen.children[s.run.confirmed].plan.key), stored);
      hide Apply, Inv, Cancelling, RunOk;
    case Close(_) =>
      FreshSeen(s.parent);
      FinalizeKnown(s.parent, s.parent.dispatch.value);
      hide Apply, Outcomes, Inv, LaterDispatch;
  }

  /** The status of the parent moves exactly there. */
  lemma {:induction false} StatusMoves(mode: Mode, s: State, e: Event)
    requires LooseInv(s) && AdmittedAnyway(mode, s, e)
    ensures Next(s, e).parent.status == if EndsParent(s, e) then Canceled else s.parent.status
  {
    if e.Settle? || e.RecordNext? || e.ReadIntent? || e.ConfirmNext? || e.Close? {
      RunMovesStatus(mode, s, e);
      hide Next, LooseInv, AdmittedAnyway;
    } else {
      hide Apply, Inv, Cancelling, RunOk;
      match e
      case Request(_, _, stored) => MildAfter(s.parent, RequestCancel, stored);
      case Bound(_, n, job, _, stored) => MildAfter(s.parent, Bind(s.parent.dispatch.value.children[n].plan.key, job), stored);
      case Other(op, stored) => MildAfter(s.parent, op, stored);
      case Ack(pid, _) => MildAfter(s.parent, Acknowledge(s.procs[pid].seen.children[s.procs[pid].at].plan.key), true);
      case Finish(pid, _) => FinishIs(s, pid); hide Outcomes, Next;
      case _ =>
    }
  }

  lemma {:induction false} CourseStep(mode: Mode, s: State, es: seq<Event>, k: nat)
    requires IsCourse(mode, s, es) && 1 <= k <= |es|
    ensures AdmittedAnyway(mode, At(s, es, k - 1), es[k - 1]) && Enabled(At(s, es, k - 1), es[k - 1])
    ensures At(s, es, k) == Next(At(s, es, k - 1), es[k - 1]) && (k == 1 ==> At(s, es, 0) == s)
  {
    hide Next, Enabled;
  }

  lemma {:induction false} BeginsLoose(mode: Mode, s: State, e: Event)
    requires Ready(s) && Admitted(mode, s, e) && (e.Request? || (e.Recover? && s.run.NoRun?))
    ensures LooseInv(Next(s, e)) && Next(s, e).parent.status == s.parent.status
  {
    if s.run.Executing? {
      BeginsActive(mode, s, e);
      MildAfter(s.parent, RequestCancel, true);
      hide Apply, Inv, Cancelling, RunOk, Ready;
    } else {
      BeginsAlone(mode, s, e);
      MildAfter(s.parent, RequestCancel, true);
      hide Apply, Inv, Cancelling, AllAsLeft, PassesOk;
    }
  }

  /** Some event of the course so far ended the parent. */
  predicate EndedWithin(s: State, es: seq<Event>, k: nat)
    requires k <= |es|
  {
    exists j :: 0 <= j < k && EndsParent(At(s, es, j), es[j])
  }

  lemma {:induction false} EndedNext(s: State, es: seq<Event>, k: nat)
    requires 0 < k <= |es|
    ensures EndedWithin(s, es, k) <==> EndedWithin(s, es, k - 1) || EndsParent(At(s, es, k - 1), es[k - 1])
  {
    hide At, EndsParent;
  }

  /** In every course from a cancellation on, refused outcomes included: the parent is canceled exactly
    * if a pass has gone through having seen every child ended, or the run has come to its close, from
    * which a refused outcome can keep it. */
  lemma {:induction false} ParentEndedExactly(mode: Mode, s: State, es: seq<Event>, k: nat)
    requires Ready(s) && IsCourse(mode, s, es) && 1 <= k <= |es| && (es[0].Request? || (es[0].Recover? && s.run.NoRun?))
    ensures At(s, es, k).parent.status == Canceled <==> EndedWithin(s, es, k)
    ensures LooseInv(At(s, es, k)) && (At(s, es, k).run.Ended? ==> EndedWithin(s, es, k))
  {
    hide *;
    var e, t := es[k - 1], At(s, es, k - 1);
    CourseStep(mode, s, es, k);
    EndedNext(s, es, k);
    FirstEvent(mode, s, es);
    if k == 1 {
      BeginsLoose(mode, s, e);
      NoneEnded(s, es);
      ReadyOpen(s);
      NotEnding(s, e);
    } else {
      ParentEndedExactly(mode, s, es, k - 1);
      LooseKept(mode, t, e);
      StatusMoves(mode, t, e);
    }
    EndedIsCanceled(At(s, es, k));
  }

  lemma {:induction false} FirstEvent(mode: Mode, s: State, es: seq<Event>)
    requires IsCourse(mode, s, es) && 0 < |es| && !es[0].Settle?
    ensures Admitted(mode, s, es[0])
  {
    assert AdmittedAnyway(mode, At(s, es, 0), es[0]);
    hide Next, Enabled;
  }

  lemma {:induction false} NoneEnded(s: State, es: seq<Event>)
    ensures !EndedWithin(s, es, 0)
  {}

  lemma {:induction false} ReadyOpen(s: State)
    requires Ready(s)
    ensures s.parent.status != Canceled
  {}

  lemma {:induction false} NotEnding(s: State, e: Event)
    requires e.Request? || e.Recover?
    ensures !EndsParent(s, e)
  {}

  lemma {:induction false} EndedIsCanceled(s: State)
    requires LooseInv(s)
    ensures s.run.Ended? ==> s.parent.status == Canceled
  {}

  // ---- a result that comes too late ----

  /** The first child's provider confirms and the pass acknowledges it, the second child's is not
    * there; the abort settles the second child, and then the first one's own result arrives. */
  function LateResult(agents: Registry): (r: seq<Event>)
    ensures |r| == 10
  {
    [Request(0, agents, true), Abort(0), Choose(0), Answer(0, true), Ack(0, true), Choose(0), Finish(0, true),
     Settle(1, 1, BY_ABORT, true), Ack(1, true), Settle(2, 0, Ending(ChildCompleted, Some("j0")), true)]
  }

  /** The states on the way. */
  function Late(a: Plan, b: Plan, agents: Registry, k: nat): State {
    var c0, c1 := Child(a, ChildWorking, Some("j0"), false), Child(b, ChildWorking, Some("j1"), false);
    var d0 := if k < 5 then c0 else c0.(status := ChildCanceled, acked := true);
    var d1 := if k < 8 then c1 else c1.(status := ChildCanceled, acked := k >= 9);
    var d := Dispatch("f", Canceling, true, [d0, d1]);
    var phase := if k == 1 then Aborting else if k == 3 then Calling else if k == 4 then Acking else Deciding;
    var q := Proc(Whole, Live(agents), d, if k < 5 then 0 else if k == 5 then 1 else 2, phase);
    var run := if k == 1 then Executing(false, {0, 1}, map[])
               else if k < 8 then Executing(true, {0, 1}, map[])
               else if k < 10 then Executing(true, {0, 1}, map[1 := BY_ABORT])
               else Broken;
    if k == 0 then TwoAtWork(a, b)
    else State(Parent(Working, Some(d)),
               if k < 7 then map[0 := q] else if k == 8 then map[1 := Proc(Settler, Live(map[]), d, 1, Acking)] else map[], run)
  }

  /** The first agent is trusted and confirms; the second one is not there. */
  predicate OneConfirms(a: Plan, b: Plan, agents: Registry) {
    Trusted(agents, a) && "j0" in agents[a.agentId].confirms && b.agentId !in agents
  }

  lemma {:induction false} LateWrites(a: Plan, b: Plan, agents: Registry, k: nat)
    requires a.key != b.key && OneConfirms(a, b, agents) && (k == 4 || k == 7 || k == 8)
    ensures Enabled(Late(a, b, agents, k), LateResult(agents)[k]) && Next(Late(a, b, agents, k), LateResult(agents)[k]) == Late(a, b, agents, k + 1)
  {
    var s, t := Late(a, b, agents, k), Late(a, b, agents, k + 1);
    var cs, ds := s.parent.dispatch.value.children, t.parent.dispatch.value.children;
    SecondFound(cs[0], cs[1]);
    if k == 4 {
      assert cs[0 := cs[0].(acked := true, status := ChildCanceled)] == ds;
      assert After(s.parent, Acknowledge(a.key), true) == t.parent;
    } else if k == 7 {
      assert cs[1 := cs[1].(status := ChildCanceled)] == ds;
      assert After(s.parent, OutcomeAt(s, 1, BY_ABORT), true) == t.parent;
    } else {
      assert cs[1 := cs[1].(acked := true)] == ds;
      assert After(s.parent, Acknowledge(b.key), true) == t.parent;
      assert s.procs - {1} == map[];
    }
  }

  lemma {:induction false} LateMoves(a: Plan, b: Plan, agents: Registry, k: nat)
    requires a.key != b.key && OneConfirms(a, b, agents) && k < 10
    ensures Enabled(Late(a, b, agents, k), LateResult(agents)[k]) && Next(Late(a, b, agents, k), LateResult(agents)[k]) == Late(a, b, agents, k + 1)
  {
    if k == 4 || k == 7 || k == 8 {
      LateWrites(a, b, agents, k);
    } else if k == 6 {
      assert Late(a, b, agents, 6).procs - {0} == map[];
      assert !ChildTerminal(Late(a, b, agents, 6).procs[0].seen.children[1].status);
    } else if k == 9 {
      var s := Late(a, b, agents, 9);
      SecondFound(s.parent.dispatch.value.children[0], s.parent.dispatch.value.children[1]);
    }
  }

  lemma {:induction false} LateIs(a: Plan, b: Plan, agents: Registry, k: nat)
    requires a.key != b.key && OneConfirms(a, b, agents) && k <= 10
    ensures At(TwoAtWork(a, b), LateResult(agents), k) == Late(a, b, agents, k)
    ensures k < 10 ==> Enabled(At(TwoAtWork(a, b), LateResult(agents), k), LateResult(agents)[k])
  {
    if k > 0 {
      LateIs(a, b, agents, k - 1);
      LateMoves(a, b, agents, k - 1);
    }
    if k < 10 { LateMoves(a, b, agents, k); }
    hide Next, Enabled, TwoAtWork, LateResult;
  }

  predicate ChildrenEnded(p: Parent) { p.dispatch.Some? && AllTerminal(p.dispatch.value) }

  /** It is refused, the run breaks off, and the parent stays pending although its run was active
    * and all its children have ended. */
  lemma {:induction false} LateResultLeavesPending(a: Plan, b: Plan, agents: Registry)
    requires ValidPlans([a, b]) && OneConfirms(a, b, agents)
    ensures var s, es := TwoAtWork(a, b), LateResult(agents);
      && IsRun(s, es) && s.run.Executing? && Quiet(At(s, es, |es|))
      && !TaskTerminal(At(s, es, |es|).parent.status) && ChildrenEnded(At(s, es, |es|).parent)
  {
    assert [a, b][0].key != [a, b][1].key;
    LateIs(a, b, agents, 10);
    assert ChildrenEnded(Late(a, b, agents, 10).parent) && Quiet(Late(a, b, agents, 10));
    hide At, Next, Enabled, LateResult, Late;
    forall k | 0 <= k < 10 ensures Enabled(At(TwoAtWork(a, b), LateResult(agents), k), LateResult(agents)[k]) { LateIs(a, b, agents, k); }
  }
}
