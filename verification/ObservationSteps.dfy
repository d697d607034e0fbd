/** What a single step of an observer can change, who can change it, and that no observer gets stuck. */
module ObservationSteps {
  import opened Prelude
  import opened AgentJobs
  import opened DurableObservation

  /** What the worker's report means for the job. */
  predicate Means(w: Worker, status: Status) {
    match w
    case WQueued => status == Queued
    case WLeased => status == Running
    case WCompleted => status == Completed
    case WFailed => status == Failed
    case WCancelled => status == Cancelled
    case WQuarantined => status == Failed
  }

  predicate Over(status: Status) { status == Completed || status == Failed || status == Cancelled }

  /** The process has the newest record, and the store takes writes. */
  predicate Writes(s: State, pid: nat, writable: bool) { writable && pid in s.procs && s.procs[pid].memory == s.ledger }

  /** A status the job store refuses: of a finished job reported unfinished, or beside another settled one. */
  predicate Unwelcome(r: Rec, status: Status) { (Over(r.status) && !Over(status)) || (r.seal.Settled? && r.seal.status != status) }

  /** A notice is owed for the record. */
  predicate Owed(r: Rec) {
    && r.enabled == Some(true) && r.status !in r.delivered
    && (r.status == Running || r.status == Completed || r.status == Failed || (r.status == Cancelled && r.cancelRequested))
  }

  /** The stored record changes exactly by the status a process observed, by an ack, and by a recorded
    * cancellation, of a process that has the newest record. */
  lemma {:induction false} RecordMovesExactly(s: State, e: Event, status: Status)
    requires Enabled(s, e) && (e.Apply? && s.procs[e.pid].pc.worker.Some? ==> Means(s.procs[e.pid].pc.worker.value, status))
    ensures Step(s, e).ledger ==
      if e.Apply? && s.procs[e.pid].pc.worker.Some? && Writes(s, e.pid, e.writable) && !Unwelcome(s.ledger, status) then
        s.ledger.(status := status, seal := if s.ledger.seal == Unsettled && Over(status) then Settled(status) else s.ledger.seal)
      else if e.Ack? && Writes(s, e.pid, e.writable) then s.ledger.(delivered := s.ledger.delivered + {s.procs[e.pid].pc.status})
      else if e.RecordCancel? && Writes(s, e.pid, e.writable) then s.ledger.(cancelRequested := true)
      else s.ledger
  {}

  /** Notices, asks and the job's capacity move exactly so. */
  lemma {:induction false} CountsMoveExactly(s: State, e: Event)
    requires Enabled(s, e)
    ensures var t := Step(s, e);
      && t.sends == (if e.Notify? && e.accepted then s.sends + multiset{s.procs[e.pid].pc.status} else s.sends)
      && t.gaps == (if (e.Ack? && !Writes(s, e.pid, e.writable)) || (e.Crash? && s.procs[e.pid].pc.Sent?)
                    then s.gaps + multiset{s.procs[e.pid].pc.status} else s.gaps)
      && t.asks == (if e.AskCancel? then s.asks + 1 else s.asks)
      && t.askGaps == (if (e.RecordCancel? && !Writes(s, e.pid, e.writable)) || (e.Crash? && s.procs[e.pid].pc.Asked?) then s.askGaps + 1 else s.askGaps)
      && t.held == (s.held && !(e.Finalize? && e.released))
      && t.worker == (if e.WorkerMoves? then Some(e.to) else if e.WorkerGone? then None else s.worker)
  {}

  /** Where a step takes the process that makes it. */
  predicate Goes(s: State, e: Event, q: Proc, status: Status)
    requires Enabled(s, e) && !e.WorkerMoves? && !e.WorkerGone? && !e.Crash?
  {
    match e
    case Start(_) => q == Proc(s.ledger, Idle)
    case Observe(pid) => q == Proc(s.procs[pid].memory, Observed(s.worker))
    case Apply(pid, writable) =>
      var p := s.procs[pid];
      if p.pc.worker.None? then q == Proc(p.memory, if Owed(p.memory) then Notifying(p.memory.status, false) else Idle)
      else if Unwelcome(p.memory, status) || !Writes(s, pid, writable) then q == Proc(p.memory, Idle)
      else
        && q.memory == p.memory.(status := status, seal := q.memory.seal)
        && var ends := !Over(p.memory.status) && Over(status);
           q.pc == if Owed(q.memory) then Notifying(status, ends) else if ends then Finalizing else Idle
    case Notify(pid, accepted) =>
      var p := s.procs[pid];
      q == Proc(p.memory, if accepted then Sent(p.pc.status, p.pc.first) else if p.pc.first then Finalizing else Idle)
    case Ack(pid, writable) =>
      var p := s.procs[pid];
      if Writes(s, pid, writable)
      then q == Proc(p.memory.(delivered := p.memory.delivered + {p.pc.status}), if p.pc.first then Finalizing else Idle)
      else q == Proc(p.memory, Idle)
    case Finalize(pid, _) => q == Proc(s.procs[pid].memory, Idle)
    case AskCancel(pid) => q == Proc(s.procs[pid].memory, Asked)
    case RecordCancel(pid, writable) =>
      q == Proc(if Writes(s, pid, writable) then s.procs[pid].memory.(cancelRequested := true) else s.procs[pid].memory, Idle)
  }

  lemma {:induction false} ApplyGoes(s: State, pid: nat, writable: bool, status: Status)
    requires Enabled(s, Apply(pid, writable)) && (s.procs[pid].pc.worker.Some? ==> Means(s.procs[pid].pc.worker.value, status))
    ensures var t := Step(s, Apply(pid, writable));
      pid in t.procs && t.procs == s.procs[pid := t.procs[pid]] && Goes(s, Apply(pid, writable), t.procs[pid], status)
  {}

  lemma {:induction false} WriteGoes(s: State, e: Event, status: Status)
    requires Enabled(s, e) && (e.Ack? || e.RecordCancel?)
    ensures var t := Step(s, e); e.pid in t.procs && t.procs == s.procs[e.pid := t.procs[e.pid]] && Goes(s, e, t.procs[e.pid], status)
  {
    hide AfterUpdate, Updated, Updatable, Owed, Unwelcome, Means;
  }

  lemma {:induction false} QuietGoes(s: State, e: Event, status: Status)
    requires Enabled(s, e) && (e.Start? || e.Observe? || e.Notify? || e.Finalize? || e.AskCancel?)
    ensures var t := Step(s, e); e.pid in t.procs && t.procs == s.procs[e.pid := t.procs[e.pid]] && Goes(s, e, t.procs[e.pid], status)
  {
    hide AfterUpdate, Updated, Updatable, Owed, Unwelcome, Means, Writes, Takes;
  }

  lemma {:induction false} OthersGo(s: State, e: Event)
    requires Enabled(s, e)
    ensures e.WorkerMoves? || e.WorkerGone? ==> Step(s, e).procs == s.procs
    ensures e.Crash? ==> Step(s, e).procs == s.procs - {e.pid}
  {
    hide AfterUpdate, Updated, Updatable, Takes;
  }

  /** Every step moves one process, and moves it so. */
  lemma {:induction false} ProcessGoes(s: State, e: Event, status: Status)
    requires Enabled(s, e) && (e.Apply? && s.procs[e.pid].pc.worker.Some? ==> Means(s.procs[e.pid].pc.worker.value, status))
    ensures var t := Step(s, e);
      if e.WorkerMoves? || e.WorkerGone? then t.procs == s.procs
      else if e.Crash? then t.procs == s.procs - {e.pid}
      else e.pid in t.procs && t.procs == s.procs[e.pid := t.procs[e.pid]] && Goes(s, e, t.procs[e.pid], status)
  {
    hide Step, Goes, Means;
    OthersGo(s, e);
    if e.Apply? { ApplyGoes(s, e.pid, e.writable, status); }
    else if e.Ack? || e.RecordCancel? { WriteGoes(s, e, status); }
    else if !e.WorkerMoves? && !e.WorkerGone? && !e.Crash? { QuietGoes(s, e, status); }
  }

  /** How far a process is from resting. */
  function Left(pc: Pc): nat {
    match pc
    case Idle => 0
    case Finalizing => 1
    case Asked => 1
    case Sent(_, _) => 2
    case Notifying(_, _) => 3
    case Observed(_) => 4
  }

  /** The step a process takes next, with these answers. */
  function Onward(pid: nat, pc: Pc, answer: bool): Event
    requires !pc.Idle?
  {
    match pc
    case Observed(_) => Apply(pid, answer)
    case Notifying(_, _) => Notify(pid, answer)
    case Sent(_, _) => Ack(pid, answer)
    case Finalizing => Finalize(pid, answer)
    case Asked => RecordCancel(pid, answer)
  }

  /** Whatever it is answered, a process that is left to itself rests after at most four steps. */
  lemma {:induction false} ComesToRest(s: State, pid: nat, answers: seq<bool>) returns (es: seq<Event>)
    requires pid in s.procs && |answers| >= 4
    ensures IsRun(s, es) && |es| <= 4 && forall e :: e in es ==> ActorOf(e) == Some(pid) && !e.Crash? && !e.Observe? && !e.AskCancel?
    ensures var t := Run(s, es); pid in t.procs && t.procs[pid].pc.Idle? && t.worker == s.worker
  {
    es := RestsWithin(s, pid, answers, 4);
  }

  lemma {:induction false} RestsWithin(s: State, pid: nat, answers: seq<bool>, n: nat) returns (es: seq<Event>)
    requires pid in s.procs && |answers| >= n >= Left(s.procs[pid].pc)
    ensures IsRun(s, es) && |es| <= n && forall e :: e in es ==> ActorOf(e) == Some(pid) && !e.Crash? && !e.Observe? && !e.AskCancel?
    ensures var t := Run(s, es); pid in t.procs && t.procs[pid].pc.Idle? && t.worker == s.worker
    decreases n
  {
    es := [];
    if !s.procs[pid].pc.Idle? {
      var e := Onward(pid, s.procs[pid].pc, answers[0]);
      OneLess(s, pid, answers[0]);
      var t := Step(s, e);
      var rest := RestsWithin(t, pid, answers[1..], n - 1);
      es := [e] + rest;
      assert es[1..] == rest;
      hide Step;
    }
  }

  lemma {:induction false} OneLess(s: State, pid: nat, answer: bool)
    requires pid in s.procs && !s.procs[pid].pc.Idle?
    ensures var e := Onward(pid, s.procs[pid].pc, answer);
      && Enabled(s, e) && pid in Step(s, e).procs && Left(Step(s, e).procs[pid].pc) < Left(s.procs[pid].pc) && Step(s, e).worker == s.worker
  {
    var pc := s.procs[pid].pc;
    var e := Onward(pid, pc, answer);
    ProcessGoes(s, e, if pc.Observed? && pc.worker.Some? then JobStatus(pc.worker.value) else Queued);
    CountsMoveExactly(s, e);
    hide Step, Owed, Writes, Unwelcome;
  }
}
