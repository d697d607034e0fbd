/** One dispatched job watched by any number of service processes: status follows the
  * worker, a notice is sent and then acknowledged durably, a cancellation is asked for and
  * then recorded. Every process works from its own snapshot and writes by comparing it.
  * What the worker reports may change at any time, a terminal report included, and its record
  * may be gone again. */
module DurableObservation {
  import opened Prelude
  import opened AgentJobs

  datatype Worker = WQueued | WLeased | WCompleted | WFailed | WCancelled | WQuarantined

  function JobStatus(w: Worker): Status {
    match w
    case WQueued => Queued
    case WLeased => Running
    case WCompleted => Completed
    case WFailed => Failed
    case WCancelled => Cancelled
    case WQuarantined => Failed
  }

  /** What became of the approval of a job: it never had one, it has no settled status yet, or it has. */
  datatype Seal = NoApproval | Unsettled | Settled(status: Status)

  /** The part of the durable job that observers read and write; enabled is the stored notify intent. */
  datatype Rec = Rec(status: Status, enabled: Option<bool>, delivered: set<Status>, cancelRequested: bool, seal: Seal)

  /** What a dispatched job begins with: its notify intent, and whether it had to be approved. */
  datatype Terms = Terms(intent: Option<bool>, approved: bool)

  /** update() with another status: the first terminal status settles the approval. */
  function Updated(r: Rec, status: Status): Rec {
    r.(status := status, seal := if r.seal.Unsettled? && Terminal(status) then Settled(status) else r.seal)
  }

  /** A settled approval is not read back beside another status, so update() refuses it. */
  predicate Updatable(r: Rec, status: Status) { r.seal.Settled? ==> r.seal.status == status }

  function SealOf(job: Job): Seal {
    if job.approval.None? then NoApproval
    else if job.approval.value.settled.None? then Unsettled else Settled(job.approval.value.settled.value.status)
  }

  function RecOf(job: Job): Rec {
    Rec(job.status, if job.notices.None? then None else Some(job.notices.value.enabled),
        if job.notices.None? then {} else (set x | x in job.notices.value.delivered), job.cancellationRequestedAt.Some?, SealOf(job))
  }

  /** What the record is of the job. */
  lemma {:induction false} RecReads(job: Job)
    ensures var r := RecOf(job);
      && r.status == job.status && (r.cancelRequested <==> job.cancellationRequestedAt != None)
      && r.enabled == (if job.notices == None then None else Some(job.notices.value.enabled))
      && (forall x :: x in r.delivered <==> (job.notices != None && x in job.notices.value.delivered))
      && r.seal == if job.approval == None then NoApproval
                   else if job.approval.value.settled == None then Unsettled else Settled(job.approval.value.settled.value.status)
  {}

  /** What the job store accepts of an update with a status is this, and nothing beside a settled approval. */
  lemma {:induction false} UpdateRefines(job: Job, p: Patch)
    requires p.status.Some? && p.notices.None? && p.cancellationRequestedAt.None? && UpdateJob(job, p).Ok?
    ensures Updatable(RecOf(job), p.status.value) && RecOf(UpdateJob(job, p).value) == Updated(RecOf(job), p.status.value)
  {}

  datatype Pc =
    | Idle
    | Observed(worker: Option<Worker>)
    | Notifying(status: Status, first: bool)   // first: this process saw the job become terminal
    | Sent(status: Status, first: bool)
    | Finalizing
    | Asked

  datatype Proc = Proc(memory: Rec, pc: Pc)

  /** written: every record ever stored; seen: every status the worker ever had. */
  datatype State = State(
    ledger: Rec, written: set<Rec>, worker: Option<Worker>, seen: set<Status>, held: bool, procs: map<nat, Proc>,
    sends: multiset<Status>, gaps: multiset<Status>, asks: nat, askGaps: nat)

  datatype Event =
    | WorkerMoves(to: Worker)
    | WorkerGone                   // the dispatch record is no longer there
    | Start(pid: nat)
    | Observe(pid: nat)
    | Apply(pid: nat, writable: bool)
    | Notify(pid: nat, accepted: bool)
    | Ack(pid: nat, writable: bool)
    | Finalize(pid: nat, released: bool)
    | AskCancel(pid: nat)
    | RecordCancel(pid: nat, writable: bool)
    | Crash(pid: nat)

  /** A notice is due: the intent is on, the status is one to tell, and no ack for it is stored. */
  predicate Due(r: Rec) {
    && (r.status == Cancelled ==> r.cancelRequested)
    && r.enabled == Some(true)
    && (r.status == Running || Terminal(r.status))
    && r.status !in r.delivered
  }

  predicate WorkerDone(w: Option<Worker>) { w.Some? && Terminal(JobStatus(w.value)) }

  predicate At(s: State, pid: nat) { pid in s.procs }

  predicate Enabled(s: State, e: Event) {
    match e
    case WorkerMoves(_) => true
    case WorkerGone => true
    case Start(pid) => pid !in s.procs
    case Observe(pid) => pid in s.procs && s.procs[pid].pc.Idle?
    case Apply(pid, _) => pid in s.procs && s.procs[pid].pc.Observed?
    case Notify(pid, _) => pid in s.procs && s.procs[pid].pc.Notifying?
    case Ack(pid, _) => pid in s.procs && s.procs[pid].pc.Sent?
    case Finalize(pid, _) => pid in s.procs && s.procs[pid].pc.Finalizing?
    case AskCancel(pid) =>
      && pid in s.procs && s.procs[pid].pc.Idle? && !s.procs[pid].memory.cancelRequested
      && (s.procs[pid].memory.status == Queued || s.procs[pid].memory.status == Running)
    case RecordCancel(pid, _) => pid in s.procs && s.procs[pid].pc.Asked?
    case Crash(pid) => pid in s.procs
  }

  function Put(s: State, pid: nat, p: Proc): State { s.(procs := s.procs[pid := p]) }

  /** The write takes when the store is up and still holds what this process read. */
  predicate Takes(s: State, pid: nat, writable: bool)
    requires pid in s.procs
  {
    writable && s.ledger == s.procs[pid].memory
  }

  function Store(s: State, pid: nat, r: Rec, pc: Pc): State {
    s.(ledger := r, written := s.written + {r}, procs := s.procs[pid := Proc(r, pc)])
  }

  /** After the status is stored: tell it if due, then clean up if it just became terminal. */
  function AfterUpdate(r: Rec, first: bool): Pc {
    if Due(r) then Notifying(r.status, first) else if first then Finalizing else Idle
  }

  function Step(s: State, e: Event): State
    requires Enabled(s, e)
  {
    match e
    case WorkerMoves(to) => s.(worker := Some(to), seen := s.seen + {JobStatus(to)})
    case WorkerGone => s.(worker := None)
    case Start(pid) => Put(s, pid, Proc(s.ledger, Idle))
    case Observe(pid) => Put(s, pid, s.procs[pid].(pc := Observed(s.worker)))
    case Apply(pid, writable) =>
      var p := s.procs[pid];
      if p.pc.worker.None? then Put(s, pid, p.(pc := AfterUpdate(p.memory, false)))
      else
        var status := JobStatus(p.pc.worker.value);
        if Terminal(p.memory.status) && !Terminal(status) then Put(s, pid, p.(pc := Idle))
        else if !Updatable(p.memory, status) || !Takes(s, pid, writable) then Put(s, pid, p.(pc := Idle))
        else
          var r := Updated(p.memory, status);
          Store(s, pid, r, AfterUpdate(r, !Terminal(p.memory.status) && Terminal(status)))
    case Notify(pid, accepted) =>
      var p := s.procs[pid];
      if accepted then Put(s, pid, p.(pc := Sent(p.pc.status, p.pc.first))).(sends := s.sends + multiset{p.pc.status})
      else Put(s, pid, p.(pc := if p.pc.first then Finalizing else Idle))
    case Ack(pid, writable) =>
      var p := s.procs[pid];
      if Takes(s, pid, writable)
      then Store(s, pid, p.memory.(delivered := p.memory.delivered + {p.pc.status}), if p.pc.first then Finalizing else Idle)
      else Put(s, pid, p.(pc := Idle)).(gaps := s.gaps + multiset{p.pc.status})
    case Finalize(pid, released) =>
      Put(s, pid, s.procs[pid].(pc := Idle)).(held := s.held && !released)
    case AskCancel(pid) => Put(s, pid, s.procs[pid].(pc := Asked)).(asks := s.asks + 1)
    case RecordCancel(pid, writable) =>
      var p := s.procs[pid];
      if Takes(s, pid, writable) then Store(s, pid, p.memory.(cancelRequested := true), Idle)
      else Put(s, pid, p.(pc := Idle)).(askGaps := s.askGaps + 1)
    case Crash(pid) =>
      var pc := s.procs[pid].pc;
      var t := s.(procs := s.procs - {pid});
      if pc.Sent? then t.(gaps := s.gaps + multiset{pc.status})
      else if pc.Asked? then t.(askGaps := s.askGaps + 1)
      else t
  }

  function Fresh(terms: Terms): Rec {
    Rec(Queued, terms.intent, {}, false, if terms.approved then Unsettled else NoApproval)
  }

  function Init(terms: Terms): State {
    var r := Fresh(terms);
    State(r, {r}, None, {}, true, map[], multiset{}, multiset{}, 0, 0)
  }

  predicate IsRun(s: State, es: seq<Event>)
    decreases |es|
  {
    es == [] || (Enabled(s, es[0]) && IsRun(Step(s, es[0]), es[1..]))
  }

  function Run(s: State, es: seq<Event>): State
    requires IsRun(s, es)
    decreases |es|
  {
    if es == [] then s else Run(Step(s, es[0]), es[1..])
  }

  // ---- the invariant ----

  function Senders(procs: map<nat, Proc>, status: Status): set<nat> {
    set p | p in procs && procs[p].pc.Sent? && procs[p].pc.status == status
  }

  function Askers(procs: map<nat, Proc>): set<nat> { set p | p in procs && procs[p].pc.Asked? }

  predicate ProcOk(s: State, p: Proc) {
    && p.memory in s.written
    && match p.pc
       case Observed(w) => w.Some? ==> JobStatus(w.value) in s.seen
       case Notifying(status, first) => status == p.memory.status && Due(p.memory) && (first ==> Terminal(status))
       case Sent(status, first) => status == p.memory.status && Due(p.memory) && (first ==> Terminal(status))
       case Finalizing => Terminal(p.memory.status)
       case Asked => !p.memory.cancelRequested
       case Idle => true
  }

  /** An approval is settled with the first terminal status, which then is the status for good. */
  predicate SealOk(terms: Terms, r: Rec) {
    && (r.seal.NoApproval? <==> !terms.approved)
    && (r.seal.Settled? ==> Terminal(r.status) && r.seal.status == r.status)
    && (Terminal(r.status) ==> !r.seal.Unsettled?)
  }

  /** Records are only ever added to, and never leave the terminal statuses. */
  predicate Older(terms: Terms, r: Rec, ledger: Rec) {
    && r.enabled == terms.intent && ledger.enabled == terms.intent
    && SealOk(terms, r) && SealOk(terms, ledger) && (r.seal.Settled? ==> ledger.seal == r.seal)
    && r.delivered <= ledger.delivered && (r.cancelRequested ==> ledger.cancelRequested)
    && (Terminal(r.status) ==> Terminal(ledger.status))
  }

  /** Every stored terminal status was the worker's once. */
  predicate WasSeen(seen: set<Status>, r: Rec) { Terminal(r.status) ==> r.status in seen }

  predicate ProcsOk(s: State) { forall p :: p in s.procs ==> ProcOk(s, s.procs[p]) }

  predicate WrittenOk(s: State, terms: Terms) {
    s.ledger in s.written && forall r :: r in s.written ==> WasSeen(s.seen, r) && Older(terms, r, s.ledger)
  }

  ghost predicate Inv(s: State, terms: Terms) {
    && WrittenOk(s, terms) && ProcsOk(s)
    && (s.worker.Some? ==> JobStatus(s.worker.value) in s.seen)
    && (!s.held ==> Terminal(s.ledger.status))
  }

  /** The author of a write: the newest record continues all the others. */
  lemma {:induction false} StoreOk(s: State, pid: nat, r: Rec, pc: Pc, terms: Terms)
    requires Inv(s, terms) && Older(terms, s.ledger, r) && WasSeen(s.seen, r)
    requires ProcOk(s.(written := s.written + {r}), Proc(r, pc))
    ensures Inv(Store(s, pid, r, pc), terms)
  {
    var t := Store(s, pid, r, pc);
    forall x | x in t.written ensures WasSeen(t.seen, x) && Older(terms, x, r) {}
    forall p | p in t.procs ensures ProcOk(t, t.procs[p]) {
      if p != pid { assert ProcOk(s, s.procs[p]); }
    }
  }

  lemma {:induction false} PutOk(s: State, pid: nat, p: Proc, terms: Terms)
    requires Inv(s, terms) && ProcOk(s, p)
    ensures Inv(Put(s, pid, p), terms)
  {
    forall q | q in Put(s, pid, p).procs ensures ProcOk(Put(s, pid, p), Put(s, pid, p).procs[q]) {
      if q != pid { assert ProcOk(s, s.procs[q]); }
    }
  }

  /** A write that adds to what this process read, if it takes; else nothing but its place. */
  lemma {:induction false} WriteOk(s: State, pid: nat, writable: bool, r: Rec, pc: Pc, terms: Terms)
    requires Inv(s, terms) && pid in s.procs && Older(terms, s.procs[pid].memory, r) && WasSeen(s.seen, r)
    requires ProcOk(s.(written := s.written + {r}), Proc(r, pc))
    ensures Inv(if Takes(s, pid, writable) then Store(s, pid, r, pc) else Put(s, pid, s.procs[pid].(pc := Idle)), terms)
  {
    assert ProcOk(s, s.procs[pid]);
    if Takes(s, pid, writable) { StoreOk(s, pid, r, pc, terms); } else { PutOk(s, pid, s.procs[pid].(pc := Idle), terms); }
  }

  lemma {:induction false} MemoryOld(s: State, pid: nat, terms: Terms)
    requires Inv(s, terms) && pid in s.procs
    ensures ProcOk(s, s.procs[pid]) && WasSeen(s.seen, s.procs[pid].memory)
    ensures Older(terms, s.procs[pid].memory, s.procs[pid].memory) && Older(terms, s.procs[pid].memory, s.ledger)
  {
    assert ProcOk(s, s.procs[pid]);
  }

  lemma {:induction false} ApplyOk(s: State, pid: nat, writable: bool, terms: Terms)
    requires Inv(s, terms) && Enabled(s, Apply(pid, writable))
    ensures Inv(Step(s, Apply(pid, writable)), terms)
  {
    var p := s.procs[pid];
    MemoryOld(s, pid, terms);
    hide Inv, Takes;
    if p.pc.worker.None? {
      PutOk(s, pid, p.(pc := AfterUpdate(p.memory, false)), terms);
    } else {
      var status := JobStatus(p.pc.worker.value);
      if Terminal(p.memory.status) && !Terminal(status) {
        PutOk(s, pid, p.(pc := Idle), terms);
      } else {
        var r := Updated(p.memory, status);
        if !Updatable(p.memory, status) {
          PutOk(s, pid, p.(pc := Idle), terms);
          return;
        }
        WriteOk(s, pid, writable, r, AfterUpdate(r, !Terminal(p.memory.status) && Terminal(status)), terms);
      }
    }
  }

  lemma {:induction false} AckOk(s: State, pid: nat, writable: bool, terms: Terms)
    requires Inv(s, terms) && Enabled(s, Ack(pid, writable))
    ensures Inv(Step(s, Ack(pid, writable)), terms)
  {
    var p := s.procs[pid];
    MemoryOld(s, pid, terms);
    WriteOk(s, pid, writable, p.memory.(delivered := p.memory.delivered + {p.pc.status}), if p.pc.first then Finalizing else Idle, terms);
  }

  lemma {:induction false} RecordCancelOk(s: State, pid: nat, writable: bool, terms: Terms)
    requires Inv(s, terms) && Enabled(s, RecordCancel(pid, writable))
    ensures Inv(Step(s, RecordCancel(pid, writable)), terms)
  {
    MemoryOld(s, pid, terms);
    WriteOk(s, pid, writable, s.procs[pid].memory.(cancelRequested := true), Idle, terms);
  }

  lemma {:induction false} InvKept(s: State, e: Event, terms: Terms)
    requires Inv(s, terms) && Enabled(s, e)
    ensures Inv(Step(s, e), terms)
  {
    if e.Apply? { ApplyOk(s, e.pid, e.writable, terms); }
    else if e.Ack? { AckOk(s, e.pid, e.writable, terms); }
    else if e.RecordCancel? { RecordCancelOk(s, e.pid, e.writable, terms); }
    else { QuietOk(s, e, terms); }
  }

  /** The steps that store nothing. */
  lemma {:induction false} QuietOk(s: State, e: Event, terms: Terms)
    requires Inv(s, terms) && Enabled(s, e) && !e.Apply? && !e.Ack? && !e.RecordCancel?
    ensures Inv(Step(s, e), terms)
  {
    if e.WorkerMoves? || e.WorkerGone? || e.Crash? {
      ShrinkOk(s, e, terms);
    } else {
      var pid := ActorOf(e).value;
      if pid in s.procs { MemoryOld(s, pid, terms); }
      PlacedOk(s, e);
      PutOk(s, pid, Step(s, e).procs[pid], terms);
      hide Inv, ProcOk, Due;
      CountersApart(Put(s, pid, Step(s, e).procs[pid]), Step(s, e), terms);
    }
  }

  lemma {:induction false} PlacedOk(s: State, e: Event)
    requires Enabled(s, e) && !e.Apply? && !e.Ack? && !e.RecordCancel? && !e.WorkerMoves? && !e.WorkerGone? && !e.Crash?
    requires ActorOf(e).value in s.procs ==> ProcOk(s, s.procs[ActorOf(e).value])
    requires s.ledger in s.written && (s.worker.Some? ==> JobStatus(s.worker.value) in s.seen)
    ensures ActorOf(e).value in Step(s, e).procs && ProcOk(s, Step(s, e).procs[ActorOf(e).value])
  {}

  /** The counters play no part, and freeing the capacity of a terminal job is in order. */
  lemma {:induction false} CountersApart(s: State, t: State, terms: Terms)
    requires Inv(s, terms) && t == s.(held := t.held, sends := t.sends, gaps := t.gaps, asks := t.asks, askGaps := t.askGaps)
    requires t.held || Terminal(t.ledger.status)
    ensures Inv(t, terms)
  {
    forall p | p in t.procs ensures ProcOk(t, t.procs[p]) { assert ProcOk(s, s.procs[p]); }
  }

  lemma {:induction false} ShrinkOk(s: State, e: Event, terms: Terms)
    requires Inv(s, terms) && Enabled(s, e) && (e.WorkerMoves? || e.WorkerGone? || e.Crash?)
    ensures Inv(Step(s, e), terms)
  {
    var t := Step(s, e);
    forall p | p in t.procs ensures ProcOk(t, t.procs[p]) { assert ProcOk(s, s.procs[p]); }
  }

  /** For every status: notices sent are the acknowledged one, if any, those whose ack was
    * lost, and those whose ack is on its way. */
  predicate Conserved(s: State, status: Status) {
    s.sends[status] == (if status in s.ledger.delivered then 1 else 0) + s.gaps[status] + |Senders(s.procs, status)|
  }

  predicate AsksConserved(s: State) {
    s.asks == (if s.ledger.cancelRequested then 1 else 0) + s.askGaps + |Askers(s.procs)|
  }

  function Sending(pc: Pc, status: Status): nat { if pc.Sent? && pc.status == status then 1 else 0 }

  function Asking(pc: Pc): nat { if pc.Asked? then 1 else 0 }

  function Before(procs: map<nat, Proc>, pid: nat): Pc { if pid in procs then procs[pid].pc else Idle }

  lemma {:induction false} CountWithout(a: set<nat>, b: set<nat>, x: nat)
    requires b == a - {x}
    ensures |a| == |b| + if x in a then 1 else 0
  {
    if x in a { assert a == b + {x}; } else { assert a == b; }
  }

  lemma {:induction false} CountsApart(procs: map<nat, Proc>, pid: nat, status: Status)
    ensures Senders(procs - {pid}, status) == Senders(procs, status) - {pid}
    ensures pid in Senders(procs, status) <==> Sending(Before(procs, pid), status) == 1
    ensures Askers(procs - {pid}) == Askers(procs) - {pid}
    ensures pid in Askers(procs) <==> Asking(Before(procs, pid)) == 1
  {}

  /** How the counts change when one process moves, comes or goes. */
  lemma {:induction false} OneCounts(procs: map<nat, Proc>, after: map<nat, Proc>, pid: nat, status: Status)
    requires after - {pid} == procs - {pid}
    ensures |Senders(after, status)| == |Senders(procs, status)| - Sending(Before(procs, pid), status) + Sending(Before(after, pid), status)
    ensures |Askers(after)| == |Askers(procs)| - Asking(Before(procs, pid)) + Asking(Before(after, pid))
  {
    CountsApart(procs, pid, status);
    CountsApart(after, pid, status);
    hide Senders, Askers;
    CountWithout(Senders(procs, status), Senders(procs - {pid}, status), pid);
    CountWithout(Senders(after, status), Senders(after - {pid}, status), pid);
    CountWithout(Askers(procs), Askers(procs - {pid}), pid);
    CountWithout(Askers(after), Askers(after - {pid}), pid);
  }

  function ActorOf(e: Event): Option<nat> {
    match e
    case WorkerMoves(_) => None
    case WorkerGone => None
    case Start(pid) => Some(pid)
    case Observe(pid) => Some(pid)
    case Apply(pid, _) => Some(pid)
    case Notify(pid, _) => Some(pid)
    case Ack(pid, _) => Some(pid)
    case Finalize(pid, _) => Some(pid)
    case AskCancel(pid) => Some(pid)
    case RecordCancel(pid, _) => Some(pid)
    case Crash(pid) => Some(pid)
  }

  function PcAfter(s: State, e: Event): Pc
    requires Enabled(s, e) && ActorOf(e).Some?
  {
    Before(Step(s, e).procs, ActorOf(e).value)
  }

  /** Only the author of a step moves. */
  lemma {:induction false} OneMoves(s: State, e: Event)
    requires Enabled(s, e) && ActorOf(e).Some?
    ensures Step(s, e).procs - {ActorOf(e).value} == s.procs - {ActorOf(e).value}
  {
    var pid, t := ActorOf(e).value, Step(s, e);
    forall q | q != pid ensures (q in t.procs <==> q in s.procs) && (q in s.procs ==> t.procs[q] == s.procs[q]) { OtherStays(s, e, q); }
    hide Step;
  }

  lemma {:induction false} OtherStays(s: State, e: Event, q: nat)
    requires Enabled(s, e) && ActorOf(e).Some? && ActorOf(e).value != q
    ensures (q in Step(s, e).procs <==> q in s.procs) && (q in s.procs ==> Step(s, e).procs[q] == s.procs[q])
  {
    hide Takes, AfterUpdate, Due, JobStatus;
  }

  lemma {:induction false} CountsMove(s: State, e: Event, status: Status)
    requires Enabled(s, e) && ActorOf(e).Some?
    ensures var t, was, after := Step(s, e), Before(s.procs, ActorOf(e).value), PcAfter(s, e);
      && |Senders(t.procs, status)| == |Senders(s.procs, status)| - Sending(was, status) + Sending(after, status)
      && |Askers(t.procs)| == |Askers(s.procs)| - Asking(was) + Asking(after)
  {
    OneMoves(s, e);
    hide Step, Enabled, Senders, Askers;
    OneCounts(s.procs, Step(s, e).procs, ActorOf(e).value, status);
  }

  function Acked(r: Rec, status: Status): nat { if status in r.delivered then 1 else 0 }

  lemma {:induction false} QuietBalances(s: State, e: Event, status: Status)
    requires Enabled(s, e) && ActorOf(e).Some? && !e.Notify? && !e.Ack? && !e.Crash?
    ensures var t := Step(s, e); t.sends == s.sends && t.gaps == s.gaps && t.ledger.delivered == s.ledger.delivered
    ensures Sending(PcAfter(s, e), status) == 0 == Sending(Before(s.procs, ActorOf(e).value), status)
  {}

  lemma {:induction false} AckBalances(s: State, e: Event, status: Status)
    requires Enabled(s, e) && e.Ack? && ProcOk(s, s.procs[e.pid])
    ensures var t := Step(s, e);
      && t.sends == s.sends && Sending(PcAfter(s, e), status) == 0
      && Acked(t.ledger, status) + t.gaps[status] == Acked(s.ledger, status) + s.gaps[status] + Sending(s.procs[e.pid].pc, status)
  {}

  lemma {:induction false} CrashBalances(s: State, e: Event, status: Status)
    requires Enabled(s, e) && e.Crash?
    ensures var t := Step(s, e);
      && t.sends == s.sends && t.ledger == s.ledger && Sending(PcAfter(s, e), status) == 0
      && t.gaps[status] == s.gaps[status] + Sending(s.procs[e.pid].pc, status)
  {}

  lemma {:induction false} NotifyBalances(s: State, e: Event, status: Status)
    requires Enabled(s, e) && e.Notify?
    ensures var t := Step(s, e);
      && t.gaps == s.gaps && t.ledger == s.ledger && Sending(s.procs[e.pid].pc, status) == 0
      && t.sends[status] == s.sends[status] + Sending(PcAfter(s, e), status)
  {}

  /** What the step adds to the sends, the acks and the lost acks balances its move. */
  lemma {:induction false} Balances(s: State, e: Event, status: Status)
    requires Enabled(s, e) && ActorOf(e).Some?
    requires ActorOf(e).value in s.procs ==> ProcOk(s, s.procs[ActorOf(e).value])
    ensures var t := Step(s, e);
      t.sends[status] - s.sends[status] == Acked(t.ledger, status) - Acked(s.ledger, status) + t.gaps[status] - s.gaps[status]
        + Sending(PcAfter(s, e), status) - Sending(Before(s.procs, ActorOf(e).value), status)
  {
    match e
    case Notify(_, _) => NotifyBalances(s, e, status);
    case Ack(_, _) => AckBalances(s, e, status);
    case Crash(_) => CrashBalances(s, e, status);
    case _ => QuietBalances(s, e, status);
  }

  lemma {:induction false} AsksBalance(s: State, e: Event)
    requires Enabled(s, e) && ActorOf(e).Some?
    requires ActorOf(e).value in s.procs ==> ProcOk(s, s.procs[ActorOf(e).value])
    ensures var t, pid, after := Step(s, e), ActorOf(e).value, PcAfter(s, e);
      t.asks - s.asks == (if t.ledger.cancelRequested then 1 else 0) - (if s.ledger.cancelRequested then 1 else 0)
        + t.askGaps - s.askGaps + Asking(after) - Asking(Before(s.procs, pid))
  {}

  lemma {:induction false} ConservedKept(s: State, e: Event, terms: Terms, status: Status)
    requires Inv(s, terms) && Enabled(s, e) && Conserved(s, status) && AsksConserved(s)
    ensures Conserved(Step(s, e), status) && AsksConserved(Step(s, e))
  {
    if ActorOf(e).Some? {
      CountsMove(s, e, status);
      Balances(s, e, status);
      AsksBalance(s, e);
      hide Senders, Askers, ProcOk, Inv, Step, PcAfter, Sending, Asking, Enabled;
    }
  }

  lemma {:induction false} Always(s: State, es: seq<Event>, terms: Terms, status: Status)
    requires Inv(s, terms) && IsRun(s, es) && Conserved(s, status) && AsksConserved(s)
    ensures var t := Run(s, es);
      && Inv(t, terms) && Conserved(t, status) && AsksConserved(t)
      && s.written <= t.written && Older(terms, s.ledger, t.ledger)
    decreases |es|
  {
    assert Older(terms, s.ledger, s.ledger);
    if es != [] {
      var u := Step(s, es[0]);
      InvKept(s, es[0], terms);
      ConservedKept(s, es[0], terms, status);
      Always(u, es[1..], terms, status);
      WrittenGrows(s, es[0]);
      assert Older(terms, s.ledger, u.ledger) && Older(terms, u.ledger, Run(u, es[1..]).ledger);
    }
  }

  lemma {:induction false} WrittenGrows(s: State, e: Event)
    requires Enabled(s, e)
    ensures s.written <= Step(s, e).written
  {}

  lemma {:induction false} InitOk(terms: Terms, status: Status)
    ensures Inv(Init(terms), terms) && Conserved(Init(terms), status) && AsksConserved(Init(terms))
  {}

  // ---- notices ----

  /** In every run of any number of observers, with crashes, lost acks and stale snapshots:
    * a status is told as often as it is acknowledged, at most once, plus once for every
    * send whose ack was lost or is still to come. */
  lemma {:induction false} NoticesAreConserved(es: seq<Event>, terms: Terms, status: Status)
    requires IsRun(Init(terms), es)
    ensures var t := Run(Init(terms), es);
      && t.sends[status] == (if status in t.ledger.delivered then 1 else 0) + t.gaps[status] + |Senders(t.procs, status)|
  {
    InitOk(terms, status);
    Always(Init(terms), es, terms, status);
  }

  /** A notice is sent only after the record it tells was stored, with the intent on, for a status the
    * worker had; the job is then terminal if the notice is, and its cancellation on record if it says so. */
  lemma {:induction false} NoticeIsWarranted(es: seq<Event>, terms: Terms, pid: nat)
    requires IsRun(Init(terms), es) && Enabled(Run(Init(terms), es), Notify(pid, true))
    ensures var t := Run(Init(terms), es);
      var status := t.procs[pid].pc.status;
      && terms.intent == Some(true)
      && (exists r :: r in t.written && r.status == status && status !in r.delivered)
      && (Terminal(status) ==> status in t.seen && Terminal(t.ledger.status))
      && (status == Cancelled ==> t.ledger.cancelRequested)
  {
    InitOk(terms, Running);
    Always(Init(terms), es, terms, Running);
    var t := Run(Init(terms), es);
    MemoryOld(t, pid, terms);
    assert t.procs[pid].memory in t.written;
  }

  /** With the intent off, or absent as in old jobs, nothing is ever told. */
  lemma {:induction false} SilentWithoutIntent(es: seq<Event>, terms: Terms, status: Status)
    requires IsRun(Init(terms), es) && terms.intent != Some(true)
    ensures Run(Init(terms), es).sends[status] == 0
  {
    InitOk(terms, status);
    SilentFrom(Init(terms), es, terms, status);
  }

  lemma {:induction false} SilentFrom(s: State, es: seq<Event>, terms: Terms, status: Status)
    requires Inv(s, terms) && IsRun(s, es) && terms.intent != Some(true)
    ensures Run(s, es).sends == s.sends
    decreases |es|
  {
    if es != [] {
      NobodyNotifies(s, terms);
      SendsOnlyOnNotify(s, es[0]);
      InvKept(s, es[0], terms);
      SilentFrom(Step(s, es[0]), es[1..], terms, status);
    }
  }

  lemma {:induction false} NobodyNotifies(s: State, terms: Terms)
    requires Inv(s, terms) && terms.intent != Some(true)
    ensures forall pid :: pid in s.procs ==> !s.procs[pid].pc.Notifying?
  {
    forall pid | pid in s.procs ensures !s.procs[pid].pc.Notifying? {
      assert ProcOk(s, s.procs[pid]) && Older(terms, s.procs[pid].memory, s.ledger);
    }
  }

  lemma {:induction false} SendsOnlyOnNotify(s: State, e: Event)
    requires Enabled(s, e) && !e.Notify?
    ensures Step(s, e).sends == s.sends
  {}

  // ---- once acknowledged ----

  /** A process that is new since the ack knows of it. */
  predicate Knows(s: State, veterans: set<nat>, status: Status) {
    forall pid :: pid in s.procs && pid !in veterans ==> status in s.procs[pid].memory.delivered
  }

  lemma {:induction false} KnowsKept(s: State, e: Event, veterans: set<nat>, status: Status)
    requires Enabled(s, e) && Knows(s, veterans, status) && status in s.ledger.delivered
    ensures Knows(Step(s, e), if e.Crash? then veterans - {e.pid} else veterans, status)
  {}

  /** Never again once its ack is durable: whatever happens afterwards, a process that was not yet at
    * work when the ack was stored never comes to tell that status. */
  lemma {:induction false} AckSilencesLater(s: State, es: seq<Event>, terms: Terms, pid: nat, status: Status)
    requires Inv(s, terms) && status in s.ledger.delivered && pid !in s.procs && IsRun(s, es)
    ensures var t := Run(s, es);
      forall accepted :: Enabled(t, Notify(pid, accepted)) ==> t.procs[pid].pc.status != status
  {
    NewcomersKnow(s, es, terms, s.procs.Keys, status, pid);
    KeepsOn(s, es, terms);
    var t := Run(s, es);
    if pid in t.procs { MemoryOld(t, pid, terms); }
  }

  lemma {:induction false} NewcomersKnow(s: State, es: seq<Event>, terms: Terms, veterans: set<nat>, status: Status, pid: nat)
    requires Inv(s, terms) && status in s.ledger.delivered && IsRun(s, es) && Knows(s, veterans, status) && pid !in veterans
    ensures pid in Run(s, es).procs ==> status in Run(s, es).procs[pid].memory.delivered
    decreases |es|
  {
    if es != [] {
      KnowsKept(s, es[0], veterans, status);
      InvKept(s, es[0], terms);
      OneStepOlder(s, es[0], terms);
      NewcomersKnow(Step(s, es[0]), es[1..], terms, if es[0].Crash? then veterans - {es[0].pid} else veterans, status, pid);
    }
  }

  lemma {:induction false} OneStepOlder(s: State, e: Event, terms: Terms)
    requires Inv(s, terms) && Enabled(s, e)
    ensures Inv(Step(s, e), terms) && Older(terms, s.ledger, Step(s, e).ledger)
  {
    InvKept(s, e, terms);
    WrittenGrows(s, e);
  }

  lemma {:induction false} KeepsOn(s: State, es: seq<Event>, terms: Terms)
    requires Inv(s, terms) && IsRun(s, es)
    ensures Inv(Run(s, es), terms) && Older(terms, s.ledger, Run(s, es).ledger)
    decreases |es|
  {
    assert Older(terms, s.ledger, s.ledger);
    if es != [] {
      OneStepOlder(s, es[0], terms);
      KeepsOn(Step(s, es[0]), es[1..], terms);
    }
  }

  /** Acks and a recorded cancellation never disappear, and a terminal job never becomes open again,
    * whatever a stale observer tries. */
  lemma {:induction false} StoredIsKept(s: State, es: seq<Event>, terms: Terms)
    requires Inv(s, terms) && IsRun(s, es)
    ensures var t := Run(s, es);
      && s.ledger.delivered <= t.ledger.delivered
      && (s.ledger.cancelRequested ==> t.ledger.cancelRequested)
      && (Terminal(s.ledger.status) ==> Terminal(t.ledger.status))
  {
    KeepsOn(s, es, terms);
  }

  // ---- told again although acknowledged ----

  predicate Telling(s: State, pid: nat, status: Status) { pid in s.procs && s.procs[pid].pc.Notifying? && s.procs[pid].pc.status == status }

  /** The status is due by what this process holds. */
  predicate DueFor(s: State, pid: nat, status: Status) { pid in s.procs && s.procs[pid].memory.status == status && Due(s.procs[pid].memory) }

  /** The process has looked for the dispatch record and found none. */
  predicate SeesNothing(s: State, pid: nat) { pid in s.procs && s.procs[pid].pc == Observed(None) }

  /** How many events there are up to the last one of this process, itself included. */
  function LastMove(es: seq<Event>, pid: nat): (j: nat)
    ensures j <= |es|
    ensures j > 0 ==> ActorOf(es[j - 1]) == Some(pid)
    ensures forall k :: j <= k < |es| ==> ActorOf(es[k]) != Some(pid)
  {
    if es == [] then 0
    else if ActorOf(es[|es| - 1]) == Some(pid) then |es|
    else LastMove(es[..|es| - 1], pid)
  }

  /** Its own step leaves a process with what it held, or with a record that has the ack. */
  lemma {:induction false} OwnMemory(s: State, e: Event, pid: nat, status: Status)
    requires Enabled(s, e) && status in s.ledger.delivered && ActorOf(e) == Some(pid)
    ensures pid in Step(s, e).procs <==> e != Crash(pid)
    ensures e != Crash(pid) ==> var m := Step(s, e).procs[pid].memory;
      if pid in s.procs then m == s.procs[pid].memory || (status in m.delivered && status in s.procs[pid].memory.delivered)
      else status in m.delivered
  {
    hide AfterUpdate, JobStatus, Due, Updatable;
  }

  lemma {:induction false} OwnFrozenStep(s: State, e: Event, pid: nat, status: Status)
    requires Enabled(s, e) && status in s.ledger.delivered && ActorOf(e) == Some(pid)
    ensures DueFor(Step(s, e), pid, status) <==> DueFor(s, pid, status) && e != Crash(pid)
    ensures DueFor(Step(s, e), pid, status) ==> Step(s, e).procs[pid].memory == s.procs[pid].memory
  {
    hide Step, Enabled;
    OwnMemory(s, e, pid, status);
  }

  /** A process that missed the ack never gets hold of it: its writes are refused, and its memory stays. */
  lemma {:induction false} FrozenStep(s: State, e: Event, pid: nat, status: Status)
    requires Enabled(s, e) && status in s.ledger.delivered
    ensures DueFor(Step(s, e), pid, status) <==> DueFor(s, pid, status) && e != Crash(pid)
    ensures DueFor(Step(s, e), pid, status) ==> Step(s, e).procs[pid].memory == s.procs[pid].memory
  {
    if ActorOf(e) == Some(pid) {
      OwnFrozenStep(s, e, pid, status);
    } else if ActorOf(e).Some? {
      OtherStays(s, e, pid);
      hide Step, Enabled;
    }
  }

  lemma {:induction false} TellStep(s: State, e: Event, pid: nat, status: Status)
    requires Enabled(s, e) && status in s.ledger.delivered && DueFor(s, pid, status) && e != Crash(pid)
    ensures pid in Step(s, e).procs
    ensures ActorOf(e) == Some(pid) ==> (Step(s, e).procs[pid].pc.Notifying? <==> e.Apply? && SeesNothing(s, pid))
    ensures ActorOf(e) != Some(pid) ==> Step(s, e).procs[pid] == s.procs[pid]
  {
    if ActorOf(e).Some? && ActorOf(e).value != pid { OtherStays(s, e, pid); }
    hide JobStatus, Updatable, Updated;
  }

  /** A run taken apart at its last event. */
  lemma {:induction false} LastStep(s: State, es: seq<Event>)
    requires es != [] && IsRun(s, es)
    ensures var n := |es| - 1;
      IsRun(s, es[..n]) && Enabled(Run(s, es[..n]), es[n]) && Run(s, es) == Step(Run(s, es[..n]), es[n])
    decreases |es|
  {
    var n := |es| - 1;
    if n == 0 {
      assert es[..0] == [] && es[1..] == [];
    } else {
      hide Step, Enabled;
      LastStep(Step(s, es[0]), es[1..]);
      assert es[1..][..n - 1] == es[..n][1..];
    }
  }

  lemma {:induction false} Frozen(s: State, es: seq<Event>, terms: Terms, pid: nat, status: Status)
    requires Inv(s, terms) && status in s.ledger.delivered && IsRun(s, es)
    ensures Inv(Run(s, es), terms) && status in Run(s, es).ledger.delivered
    ensures DueFor(Run(s, es), pid, status) <==> DueFor(s, pid, status) && Crash(pid) !in es
    decreases |es|
  {
    KeepsOn(s, es, terms);
    if es != [] {
      var n := |es| - 1;
      LastStep(s, es);
      hide Step, Enabled, Inv, DueFor, Run, IsRun;
      Frozen(s, es[..n], terms, pid, status);
      FrozenStep(Run(s, es[..n]), es[n], pid, status);
      assert es == es[..n] + [es[n]];
    }
  }

  lemma {:induction false} TellingIsDue(s: State, terms: Terms, pid: nat, status: Status)
    requires Inv(s, terms) && Telling(s, pid, status)
    ensures DueFor(s, pid, status)
  {
    MemoryOld(s, pid, terms);
  }

  lemma {:induction false} DueTells(s: State, terms: Terms, pid: nat, status: Status)
    requires Inv(s, terms) && DueFor(s, pid, status)
    ensures Telling(s, pid, status) <==> s.procs[pid].pc.Notifying?
  {
    MemoryOld(s, pid, terms);
  }

  lemma {:induction false} LastMoveNext(es: seq<Event>, pid: nat)
    requires es != []
    ensures var n := |es| - 1;
      if ActorOf(es[n]) == Some(pid) then LastMove(es, pid) == n + 1
      else LastMove(es, pid) == LastMove(es[..n], pid) <= n
    ensures var j := LastMove(es, pid); 0 < j < |es| ==> es[..|es| - 1][..j - 1] == es[..j - 1]
  {}

  lemma {:induction false} TellsNext(s: State, e: Event, terms: Terms, pid: nat, status: Status)
    requires Inv(s, terms) && Enabled(s, e) && status in s.ledger.delivered && DueFor(s, pid, status) && e != Crash(pid)
    ensures Telling(Step(s, e), pid, status) <==>
      if ActorOf(e) == Some(pid) then e.Apply? && SeesNothing(s, pid) else Telling(s, pid, status)
  {
    InvKept(s, e, terms);
    FrozenStep(s, e, pid, status);
    TellStep(s, e, pid, status);
    hide Step, Enabled, Inv, DueFor;
    DueTells(Step(s, e), terms, pid, status);
    DueTells(s, terms, pid, status);
  }

  /** Never again once its ack is stored is not so. Exactly: however a run goes on, a process is about
    * to tell the status again if and only if the status is due by what it holds, it has not died
    * since, and it either was about to tell when the ack was stored and has not moved, or has last
    * gone on from finding no dispatch record. */
  lemma {:induction false} ToldAgainExactly(s: State, es: seq<Event>, terms: Terms, pid: nat, status: Status)
    requires Inv(s, terms) && status in s.ledger.delivered && IsRun(s, es)
    ensures var j := LastMove(es, pid);
      Telling(Run(s, es), pid, status) <==>
        && DueFor(s, pid, status) && Crash(pid) !in es
        && if j == 0 then s.procs[pid].pc.Notifying?
           else es[j - 1].Apply? && IsRun(s, es[..j - 1]) && SeesNothing(Run(s, es[..j - 1]), pid)
    decreases |es|
  {
    Frozen(s, es, terms, pid, status);
    if es == [] {
      hide Inv;
      if DueFor(s, pid, status) { DueTells(s, terms, pid, status); }
      if Telling(s, pid, status) { TellingIsDue(s, terms, pid, status); }
    } else {
      hide Step, Enabled, Inv, DueFor, Run, IsRun, Telling, SeesNothing, LastMove;
      var n := |es| - 1;
      if Telling(Run(s, es), pid, status) { TellingIsDue(Run(s, es), terms, pid, status); }
      if DueFor(s, pid, status) && Crash(pid) !in es {
        assert es[n] in es && es == es[..n] + [es[n]];
        LastStep(s, es);
        Frozen(s, es[..n], terms, pid, status);
        TellsNext(Run(s, es[..n]), es[n], terms, pid, status);
        ToldAgainExactly(s, es[..n], terms, pid, status);
        LastMoveNext(es, pid);
      }
    }
  }

  /** The dispatch record is there, stays there, and nobody has missed it. */
  predicate Recorded(s: State) { s.worker.Some? && forall p :: p in s.procs ==> s.procs[p].pc != Observed(None) }

  lemma {:induction false} StaysRecorded(s: State, es: seq<Event>)
    requires IsRun(s, es) && Recorded(s) && WorkerGone !in es
    ensures Recorded(Run(s, es))
    decreases |es|
  {
    if es != [] {
      RecordedStep(s, es[0]);
      hide Recorded, Step, Enabled;
      StaysRecorded(Step(s, es[0]), es[1..]);
    }
  }

  lemma {:induction false} OwnRecordedStep(s: State, e: Event, pid: nat)
    requires Enabled(s, e) && s.worker.Some? && ActorOf(e) == Some(pid)
    ensures pid in Step(s, e).procs ==> Step(s, e).procs[pid].pc != Observed(None)
    ensures Step(s, e).worker == s.worker
  {
    hide JobStatus, Updatable, Updated, Takes, Due;
  }

  lemma {:induction false} RecordedStep(s: State, e: Event)
    requires Enabled(s, e) && Recorded(s) && e != WorkerGone
    ensures Recorded(Step(s, e))
  {
    if ActorOf(e).Some? {
      OwnRecordedStep(s, e, ActorOf(e).value);
      forall p | p in Step(s, e).procs ensures Step(s, e).procs[p].pc != Observed(None) {
        if p != ActorOf(e).value { OtherStays(s, e, p); }
      }
    }
    hide Step, Enabled;
  }

  /** While the dispatch record stays, only a process that was about to tell when the ack was stored
    * tells again, and only once. */
  lemma {:induction false} ToldAgainWhileRecorded(s: State, es: seq<Event>, terms: Terms, pid: nat, status: Status)
    requires Inv(s, terms) && status in s.ledger.delivered && IsRun(s, es) && Recorded(s) && WorkerGone !in es
    ensures Telling(Run(s, es), pid, status) <==> Telling(s, pid, status) && LastMove(es, pid) == 0
  {
    hide Run, Step, Enabled, Inv;
    ToldAgainExactly(s, es, terms, pid, status);
    var j := LastMove(es, pid);
    if j == 0 {
      if Crash(pid) in es { assert exists k :: 0 <= k < |es| && es[k] == Crash(pid); }
      if DueFor(s, pid, status) { DueTells(s, terms, pid, status); }
      if Telling(s, pid, status) { TellingIsDue(s, terms, pid, status); }
    } else if IsRun(s, es[..j - 1]) {
      StaysRecorded(s, es[..j - 1]);
    }
  }

  lemma {:induction false} LooksInVain(s: State, pid: nat, status: Status) returns (es: seq<Event>)
    requires DueFor(s, pid, status) && s.procs[pid].pc.Idle?
    ensures IsRun(s, es) && Run(s, es) == Put(s.(worker := None), pid, s.procs[pid].(pc := Notifying(status, false)))
    ensures es == [WorkerGone, Observe(pid), Apply(pid, true)]
  {
    var p, s1 := s.procs[pid], s.(worker := None);
    var s2 := Put(s1, pid, p.(pc := Observed(None)));
    es := Extend(s, [], s, WorkerGone, s1);
    es := Extend(s, es, s1, Observe(pid), s2);
    es := Extend(s, es, s2, Apply(pid, true), Put(s1, pid, p.(pc := Notifying(status, false))));
  }

  /** A process that missed the ack tells, and its own ack is refused. */
  lemma {:induction false} TellsInVain(s: State, pid: nat, status: Status, first: bool) returns (es: seq<Event>)
    requires status in s.ledger.delivered && DueFor(s, pid, status) && s.procs[pid].pc == Notifying(status, first)
    ensures IsRun(s, es) && es == [Notify(pid, true), Ack(pid, true)]
    ensures Run(s, es) == Put(s, pid, s.procs[pid].(pc := Idle)).(sends := s.sends + multiset{status}, gaps := s.gaps + multiset{status})
  {
    var p := s.procs[pid];
    var s1 := Put(s, pid, p.(pc := Sent(status, first))).(sends := s.sends + multiset{status});
    es := Extend(s, [], s, Notify(pid, true), s1);
    assert !Takes(s1, pid, true);
    es := Extend(s, es, s1, Ack(pid, true),
      Put(s, pid, p.(pc := Idle)).(sends := s.sends + multiset{status}, gaps := s.gaps + multiset{status}));
  }

  /** One round of a process that missed the ack, once the dispatch record is gone: told, and not
    * acknowledged. */
  lemma {:induction false} ToldOnceMore(s: State, terms: Terms, pid: nat, status: Status) returns (es: seq<Event>)
    requires Inv(s, terms) && status in s.ledger.delivered && DueFor(s, pid, status) && s.procs[pid].pc.Idle?
    ensures IsRun(s, es) && Run(s, es).sends[status] == s.sends[status] + 1
    ensures forall e :: e in es ==> !e.Crash? && (e.WorkerGone? || ActorOf(e) == Some(pid))
    ensures var t := Run(s, es); status in t.ledger.delivered && DueFor(t, pid, status) && t.procs[pid].pc.Idle? && Inv(t, terms)
  {
    hide Step, Enabled, Inv, Run, IsRun;
    var es1 := LooksInVain(s, pid, status);
    var es2 := TellsInVain(Run(s, es1), pid, status, false);
    RunOn(s, es1, es2);
    es := es1 + es2;
    KeepsOn(s, es, terms);
  }

  /** And then there is no end to it: any number of times more, without a crash. */
  lemma {:induction false} ToldWithoutEnd(s: State, terms: Terms, pid: nat, status: Status, n: nat) returns (es: seq<Event>)
    requires Inv(s, terms) && status in s.ledger.delivered && DueFor(s, pid, status) && s.procs[pid].pc.Idle?
    ensures IsRun(s, es) && Run(s, es).sends[status] == s.sends[status] + n
    ensures forall e :: e in es ==> !e.Crash? && (e.WorkerGone? || ActorOf(e) == Some(pid))
    decreases n
  {
    es := [];
    if n > 0 {
      var first := ToldOnceMore(s, terms, pid, status);
      var rest := ToldWithoutEnd(Run(s, first), terms, pid, status, n - 1);
      RunOn(s, first, rest);
      es := first + rest;
    }
  }

  lemma {:induction false} RunOn(s: State, es: seq<Event>, fs: seq<Event>)
    requires IsRun(s, es) && IsRun(Run(s, es), fs)
    ensures IsRun(s, es + fs) && Run(s, es + fs) == Run(Run(s, es), fs)
    decreases |es|
  {
    if es == [] {
      assert es + fs == fs;
    } else {
      hide Step, Enabled;
      RunOn(Step(s, es[0]), es[1..], fs);
      assert (es + fs)[1..] == es[1..] + fs;
    }
  }

  // ---- the outcome ----

  /** Asking ends nothing: the job is terminal, and its capacity freed, only once the worker was, and with
    * an outcome the worker had. */
  lemma {:induction false} OutcomeWasTheWorkers(es: seq<Event>, terms: Terms)
    requires IsRun(Init(terms), es)
    ensures var t := Run(Init(terms), es);
      && (Terminal(t.ledger.status) ==> t.ledger.status in t.seen)
      && (!t.held ==> Terminal(t.ledger.status))
  {
    InitOk(terms, Running);
    KeepsOn(Init(terms), es, terms);
  }

  /** A stored terminal status is replaced only by another outcome of the worker, which then had both,
    * and only in a job without an approval. */
  lemma {:induction false} OutcomeReplacedByTheWorker(es: seq<Event>, fs: seq<Event>, terms: Terms)
    requires IsRun(Init(terms), es) && IsRun(Run(Init(terms), es), fs)
    requires var t, u := Run(Init(terms), es), Run(Run(Init(terms), es), fs);
      Terminal(t.ledger.status) && u.ledger.status != t.ledger.status
    ensures var t, u := Run(Init(terms), es), Run(Run(Init(terms), es), fs);
      Terminal(u.ledger.status) && t.ledger.status in u.seen && u.ledger.status in u.seen && !terms.approved
  {
    var t := Run(Init(terms), es);
    InitOk(terms, Running);
    KeepsOn(Init(terms), es, terms);
    KeepsOn(t, fs, terms);
    SeenGrows(t, fs);
  }

  /** A new observer stores whatever the worker reports in place of the stored status, unless a
    * settled approval refuses it. */
  lemma {:induction false} OutcomeCanChange(s: State, pid: nat, worker: Worker) returns (es: seq<Event>)
    requires pid !in s.procs && WorkerDone(Some(worker)) && !s.ledger.seal.Settled?
    ensures IsRun(s, es) && Run(s, es).ledger.status == JobStatus(worker)
  {
    var w1 := s.(worker := Some(worker), seen := s.seen + {JobStatus(worker)});
    var w2 := Put(w1, pid, Proc(s.ledger, Idle));
    var w3 := Put(w2, pid, Proc(s.ledger, Observed(Some(worker))));
    hide AfterUpdate;
    es := Extend(s, [], s, WorkerMoves(worker), w1);
    es := Extend(s, es, w1, Start(pid), w2);
    es := Extend(s, es, w2, Observe(pid), w3);
    es := Extend(s, es, w3, Apply(pid, true), Step(w3, Apply(pid, true)));
  }

  /** Some continuation stores another outcome. */
  ghost predicate Replaceable(s: State) { exists es :: IsRun(s, es) && Run(s, es).ledger.status != s.ledger.status }

  /** A stored terminal status can still be replaced, in some continuation, exactly if no approval is
    * settled; and one is settled exactly if the job had to be approved. */
  lemma {:induction false} OutcomeReplaceableExactly(s: State, terms: Terms, pid: nat)
    requires Inv(s, terms) && Terminal(s.ledger.status) && pid !in s.procs
    ensures Replaceable(s) <==> !s.ledger.seal.Settled?
    ensures s.ledger.seal.Settled? <==> terms.approved
  {
    if s.ledger.seal.Settled? {
      forall es | IsRun(s, es) ensures Run(s, es).ledger.status == s.ledger.status { KeepsOn(s, es, terms); }
    } else {
      var es := OutcomeCanChange(s, pid, if s.ledger.status == Completed then WFailed else WCompleted);
      hide Run;
    }
    assert Older(terms, s.ledger, s.ledger);
  }

  /** One more step of a run. */
  lemma {:induction false} Extend(s: State, es: seq<Event>, t: State, e: Event, u: State) returns (longer: seq<Event>)
    requires IsRun(s, es) && Run(s, es) == t && Enabled(t, e) && Step(t, e) == u
    ensures longer == es + [e] && IsRun(s, longer) && Run(s, longer) == u
    decreases |es|
  {
    longer := es + [e];
    if es == [] {
      assert longer[1..] == [];
    } else {
      hide Step, Enabled;
      var rest := Extend(Step(s, es[0]), es[1..], t, e, u);
      assert longer[1..] == rest;
    }
  }

  // ---- two observers, from the start ----

  function BothObserve(): (r: seq<Event>)
    ensures |r| == 9
  {
    [WorkerMoves(WCompleted), Start(1), Observe(1), Apply(1, true),
     Start(2), Observe(2), Apply(2, true), Notify(2, true), Ack(2, true)]
  }

  /** The states on the way: the first stores the outcome and is about to tell it; the second, which
    * holds the same record by then, tells it and stores its ack. */
  function Towards(terms: Terms, k: nat): State {
    var r, done := Fresh(terms), Updated(Fresh(terms), Completed);
    var told := done.(delivered := {Completed});
    var s := if k == 0 then Init(terms) else Init(terms).(worker := Some(WCompleted), seen := {Completed});
    var first := Proc(if k < 4 then r else done, if k == 3 then Observed(Some(WCompleted)) else if k < 4 then Idle else Notifying(Completed, true));
    var second := if k == 6 then Observed(Some(WCompleted)) else if k == 7 then Notifying(Completed, false)
                  else if k == 8 then Sent(Completed, false) else Idle;
    s.(ledger := if k < 4 then r else if k < 9 then done else told,
       written := if k < 4 then {r} else if k < 9 then {r, done} else {r, done, told},
       procs := if k < 2 then map[] else if k < 5 then map[1 := first] else map[1 := first, 2 := Proc(if k < 9 then done else told, second)],
       sends := if k < 8 then multiset{} else multiset{Completed})
  }

  lemma {:induction false} FirstMoves(terms: Terms, k: nat)
    requires terms.intent == Some(true) && k < 4
    ensures Enabled(Towards(terms, k), BothObserve()[k]) && Step(Towards(terms, k), BothObserve()[k]) == Towards(terms, k + 1)
  {
    if k == 0 { assert {} + {Completed} == {Completed}; }
  }

  lemma {:induction false} SecondMoves(terms: Terms, k: nat)
    requires terms.intent == Some(true) && 4 <= k < 7
    ensures Enabled(Towards(terms, k), BothObserve()[k]) && Step(Towards(terms, k), BothObserve()[k]) == Towards(terms, k + 1)
  {
    var s, done := Towards(terms, k), Updated(Fresh(terms), Completed);
    assert Updated(done, Completed) == done && s.written + {done} == s.written;
  }

  lemma {:induction false} SecondTells(terms: Terms, k: nat)
    requires terms.intent == Some(true) && 7 <= k < 9
    ensures Enabled(Towards(terms, k), BothObserve()[k]) && Step(Towards(terms, k), BothObserve()[k]) == Towards(terms, k + 1)
  {
    var s, done := Towards(terms, k), Updated(Fresh(terms), Completed);
    assert done.delivered + {Completed} == {Completed};
    assert s.written + {done.(delivered := {Completed})} == {Fresh(terms), done, done.(delivered := {Completed})};
  }

  lemma {:induction false} TowardsReached(terms: Terms, k: nat)
    requires terms.intent == Some(true) && k <= 9
    ensures IsRun(Init(terms), BothObserve()[..k]) && Run(Init(terms), BothObserve()[..k]) == Towards(terms, k)
  {
    if k > 0 {
      TowardsReached(terms, k - 1);
      if k <= 4 { FirstMoves(terms, k - 1); } else if k <= 7 { SecondMoves(terms, k - 1); } else { SecondTells(terms, k - 1); }
      hide Step, Enabled, Towards, Init;
      var es := Extend(Init(terms), BothObserve()[..k - 1], Towards(terms, k - 1), BothObserve()[k - 1], Towards(terms, k));
      assert BothObserve()[..k] == BothObserve()[..k - 1] + [BothObserve()[k - 1]];
    }
  }

  lemma {:induction false} OneBehind(terms: Terms)
    requires terms.intent == Some(true)
    ensures var s, es := Init(terms), BothObserve();
      && IsRun(s, es) && Inv(Run(s, es), terms)
      && var h := Run(s, es);
         && Completed in h.ledger.delivered && h.sends == multiset{Completed}
         && DueFor(h, 1, Completed) && h.procs[1].pc == Notifying(Completed, true)
  {
    TowardsReached(terms, 9);
    assert BothObserve()[..9] == BothObserve();
    InitOk(terms, Completed);
    KeepsOn(Init(terms), BothObserve(), terms);
    hide Run, IsRun, Inv;
  }

  /** From the start and without a crash: after the ack of the one, the other tells the same status; and
    * once the dispatch record is gone, it tells it as often as one likes. */
  lemma {:induction false} ToldManyTimes(terms: Terms, n: nat) returns (es: seq<Event>, fs: seq<Event>)
    requires terms.intent == Some(true)
    ensures var s := Init(terms);
      && IsRun(s, es) && IsRun(Run(s, es), fs) && (forall e :: e in es + fs ==> !e.Crash?)
      && Completed in Run(s, es).ledger.delivered && Run(s, es).sends[Completed] == 1
      && Run(Run(s, es), fs).sends[Completed] == 2 + n
      && (n == 0 ==> WorkerGone !in es + fs)
  {
    hide Step, Enabled, Run, IsRun, Inv, Due, Init;
    es := BothObserve();
    OneBehind(terms);
    var h := Run(Init(terms), es);
    fs := TellsInVain(h, 1, Completed, true);
    KeepsOn(h, fs, terms);
    if n > 0 {
      var more := ToldWithoutEnd(Run(h, fs), terms, 1, Completed, n);
      RunOn(h, fs, more);
      fs := fs + more;
    }
  }

  // ---- when the worker's outcome is final ----

  /** A terminal report is followed by no other one. */
  predicate FinalWorker(s: State, es: seq<Event>)
    requires IsRun(s, es)
    decreases |es|
  {
    es == [] || ((es[0].WorkerMoves? ==> Ended(s.seen) <= {JobStatus(es[0].to)}) && FinalWorker(Step(s, es[0]), es[1..]))
  }

  /** The terminal statuses among those the worker had. */
  function Ended(seen: set<Status>): set<Status> { set w | w in seen && Terminal(w) }

  /** It had at most one. */
  predicate SeenLast(s: State) { forall v, w :: v in Ended(s.seen) && w in Ended(s.seen) ==> v == w }

  lemma {:induction false} SeenLastKept(s: State, e: Event)
    requires Enabled(s, e) && SeenLast(s) && (e.WorkerMoves? ==> Ended(s.seen) <= {JobStatus(e.to)})
    ensures SeenLast(Step(s, e))
  {
    if e.WorkerMoves? {
      assert Ended(Step(s, e).seen) <= {JobStatus(e.to)};
    } else {
      assert Step(s, e).seen == s.seen;
    }
  }

  lemma {:induction false} FinalOutcome(s: State, es: seq<Event>, terms: Terms)
    requires Inv(s, terms) && SeenLast(s) && IsRun(s, es) && FinalWorker(s, es)
    ensures SeenLast(Run(s, es)) && Inv(Run(s, es), terms)
    decreases |es|
  {
    hide Step, Enabled, Inv, SeenLast, Older, Ended;
    if es != [] {
      OneStepOlder(s, es[0], terms);
      SeenLastKept(s, es[0]);
      FinalOutcome(Step(s, es[0]), es[1..], terms);
    }
  }

  /** If the worker's outcome is final, a stored terminal status is that outcome and stays; and capacity is
    * freed only once the worker is done. */
  lemma {:induction false} FinalOutcomeIsKept(es: seq<Event>, fs: seq<Event>, terms: Terms)
    requires IsRun(Init(terms), es) && FinalWorker(Init(terms), es)
    requires IsRun(Run(Init(terms), es), fs) && FinalWorker(Run(Init(terms), es), fs)
    ensures var t, u := Run(Init(terms), es), Run(Run(Init(terms), es), fs);
      && (Terminal(t.ledger.status) ==> Ended(t.seen) == Ended(u.seen) == {t.ledger.status} && u.ledger.status == t.ledger.status)
      && (!t.held ==> Ended(t.seen) != {})
  {
    var t := Run(Init(terms), es);
    InitOk(terms, Running);
    FinalOutcome(Init(terms), es, terms);
    FinalOutcome(t, fs, terms);
    KeepsOn(t, fs, terms);
    SeenGrows(t, fs);
    if !t.held { assert t.ledger.status in Ended(t.seen); }
    if Terminal(t.ledger.status) {
      var u := Run(t, fs);
      assert t.ledger.status in Ended(t.seen) && t.ledger.status in Ended(u.seen) && u.ledger.status in Ended(u.seen);
      assert Ended(t.seen) == {t.ledger.status} && Ended(u.seen) == {t.ledger.status};
    }
  }

  lemma {:induction false} SeenGrows(s: State, es: seq<Event>)
    requires IsRun(s, es)
    ensures s.seen <= Run(s, es).seen
    decreases |es|
  {
    if es != [] { SeenGrows(Step(s, es[0]), es[1..]); }
  }

  // ---- cancellation ----

  /** The worker is asked exactly as often as the request is recorded, at most once, plus once
    * for every ask whose record was lost or is still to come. */
  lemma {:induction false} AsksAreConserved(es: seq<Event>, terms: Terms)
    requires IsRun(Init(terms), es)
    ensures var t := Run(Init(terms), es);
      t.asks == (if t.ledger.cancelRequested then 1 else 0) + t.askGaps + |Askers(t.procs)|
  {
    InitOk(terms, Running);
    Always(Init(terms), es, terms, Running);
  }

  lemma {:induction false} AskedAndCrashed(terms: Terms) returns (es: seq<Event>)
    ensures IsRun(Init(terms), es)
    ensures Run(Init(terms), es) == Init(terms).(asks := 1, askGaps := 1)
  {
    var s0, r := Init(terms), Fresh(terms);
    var s2 := s0.(procs := map[1 := Proc(r, Asked)], asks := 1);
    es := Extend(s0, [], s0, Start(1), s0.(procs := map[1 := Proc(r, Idle)]));
    es := Extend(s0, es, s0.(procs := map[1 := Proc(r, Idle)]), AskCancel(1), s2);
    es := Extend(s0, es, s2, Crash(1), s0.(asks := 1, askGaps := 1));
  }

  /** Asked at most once is not so: a process that dies between asking and recording leaves nothing behind,
    * and its successor asks again. */
  lemma {:induction false} AskedAgainAfterCrash(terms: Terms) returns (es: seq<Event>)
    ensures IsRun(Init(terms), es) && Run(Init(terms), es).asks == 2 && !Run(Init(terms), es).ledger.cancelRequested
  {
    var s0, r := Init(terms), Fresh(terms);
    es := AskedAndCrashed(terms);
    var s3 := s0.(asks := 1, askGaps := 1);
    var s4 := s3.(procs := map[2 := Proc(r, Idle)]);
    es := Extend(s0, es, s3, Start(2), s4);
    es := Extend(s0, es, s4, AskCancel(2), s4.(procs := map[2 := Proc(r, Asked)], asks := 2));
  }

  /** A cancelled notice goes out only with the cancellation on record and after the worker was cancelled;
    * if the worker's outcome is final, only if that outcome is cancelled. */
  lemma {:induction false} CancelledNoticeMeansCancelled(es: seq<Event>, terms: Terms)
    requires IsRun(Init(terms), es) && Run(Init(terms), es).sends[Cancelled] > 0
    ensures var t := Run(Init(terms), es); t.ledger.cancelRequested && Cancelled in t.seen
    ensures FinalWorker(Init(terms), es) ==> Ended(Run(Init(terms), es).seen) == {Cancelled}
  {
    InitOk(terms, Cancelled);
    CancelledFrom(Init(terms), es, terms);
    if FinalWorker(Init(terms), es) {
      FinalOutcome(Init(terms), es, terms);
      assert Cancelled in Ended(Run(Init(terms), es).seen);
    }
  }

  lemma {:induction false} CancelledFrom(s: State, es: seq<Event>, terms: Terms)
    requires Inv(s, terms) && IsRun(s, es)
    requires s.sends[Cancelled] > 0 ==> s.ledger.cancelRequested && Cancelled in s.seen
    ensures var t := Run(s, es); t.sends[Cancelled] > 0 ==> t.ledger.cancelRequested && Cancelled in t.seen
    decreases |es|
  {
    if es != [] {
      OneStepOlder(s, es[0], terms);
      if es[0].Notify? { MemoryOld(s, es[0].pid, terms); } else { SendsOnlyOnNotify(s, es[0]); }
      CancelledFrom(Step(s, es[0]), es[1..], terms);
    }
  }

  // ---- one observer, undisturbed ----

  /** The only process is pid; it never crashes, every write takes and every notice is accepted. */
  predicate Smooth(e: Event, pid: nat) {
    && !e.Crash?
    && (ActorOf(e).Some? ==> ActorOf(e).value == pid)
    && (e.Apply? ==> e.writable) && (e.Ack? ==> e.writable) && (e.RecordCancel? ==> e.writable) && (e.Notify? ==> e.accepted)
  }

  predicate SmoothRun(es: seq<Event>, pid: nat) { forall i :: 0 <= i < |es| ==> Smooth(es[i], pid) }

  predicate UpToDate(s: State, pid: nat) {
    && s.procs.Keys <= {pid}
    && s.gaps == multiset{}
    && (pid !in s.procs ==> !Due(s.ledger))
    && (pid in s.procs ==>
          var p := s.procs[pid];
          && p.memory == s.ledger
          && (p.pc.Idle? || p.pc.Finalizing? || p.pc.Observed? || p.pc.Asked? ==> !Due(p.memory))
          && (p.pc.Asked? ==> p.memory.status == Queued || p.memory.status == Running))
  }

  lemma {:induction false} UpToDateKept(s: State, e: Event, pid: nat, terms: Terms)
    requires Inv(s, terms) && Enabled(s, e) && UpToDate(s, pid) && Smooth(e, pid)
    ensures UpToDate(Step(s, e), pid)
  {
    if ActorOf(e).Some? && pid in s.procs {
      MemoryOld(s, pid, terms);
      hide Inv, Older, WasSeen;
      if e.Apply? { UpToDateApplied(s, pid); }
    }
    hide Inv, Older, WasSeen, JobStatus;
  }

  lemma {:induction false} UpToDateApplied(s: State, pid: nat)
    requires Enabled(s, Apply(pid, true)) && UpToDate(s, pid)
    ensures UpToDate(Step(s, Apply(pid, true)), pid)
  {
    hide JobStatus;
  }

  lemma {:induction false} UpToDateAlways(s: State, es: seq<Event>, pid: nat, terms: Terms, status: Status)
    requires Inv(s, terms) && IsRun(s, es) && UpToDate(s, pid) && SmoothRun(es, pid) && Conserved(s, status) && AsksConserved(s)
    ensures var t := Run(s, es); UpToDate(t, pid) && Inv(t, terms) && Conserved(t, status)
    decreases |es|
  {
    if es != [] {
      assert Smooth(es[0], pid);
      UpToDateKept(s, es[0], pid, terms);
      InvKept(s, es[0], terms);
      ConservedKept(s, es[0], terms, status);
      hide Step, Inv, UpToDate, Conserved, AsksConserved, Enabled;
      forall i | 0 <= i < |es[1..]| ensures Smooth(es[1..][i], pid) { assert es[1..][i] == es[i + 1]; }
      UpToDateAlways(Step(s, es[0]), es[1..], pid, terms, status);
    }
  }

  /** What is to be told of a record. */
  predicate Tellable(r: Rec) {
    r.enabled == Some(true) && (r.status == Running || Terminal(r.status)) && (r.status == Cancelled ==> r.cancelRequested)
  }

  /** In every run of one observer that nothing disturbs, each status is told at most once; and
    * whenever the observer rests, the stored status was told exactly once if it is one to tell, and
    * else not at all or earlier. */
  lemma {:induction false} ToldExactlyOnce(es: seq<Event>, pid: nat, terms: Terms, status: Status)
    requires IsRun(Init(terms), es) && SmoothRun(es, pid)
    ensures var t := Run(Init(terms), es);
      && t.sends[status] <= 1
      && (pid in t.procs && t.procs[pid].pc.Idle? ==> (t.sends[status] == 1 <==> status in t.ledger.delivered))
      && (pid in t.procs && t.procs[pid].pc.Idle? && Tellable(t.ledger) ==> t.ledger.status in t.ledger.delivered)
  {
    InitOk(terms, status);
    UpToDateAlways(Init(terms), es, pid, terms, status);
    var t := Run(Init(terms), es);
    OnlyObserver(t, pid, status);
    if pid in t.procs { MemoryOld(t, pid, terms); }
  }

  lemma {:induction false} OnlyObserver(s: State, pid: nat, status: Status)
    requires s.procs.Keys <= {pid}
    ensures |Senders(s.procs, status)| == if pid in s.procs then Sending(s.procs[pid].pc, status) else 0
  {
    assert Senders(s.procs, status) == if pid in s.procs && Sending(s.procs[pid].pc, status) == 1 then {pid} else {};
  }

  /** One cancelled notice, exactly when that is the outcome: in every undisturbed run with a final worker
    * outcome, once the observer has caught up with it and rests. */
  lemma {:induction false} CancelledToldExactly(es: seq<Event>, pid: nat, approved: bool)
    requires var terms := Terms(Some(true), approved);
      && IsRun(Init(terms), es) && SmoothRun(es, pid) && FinalWorker(Init(terms), es)
      && var t := Run(Init(terms), es);
         && pid in t.procs && t.procs[pid].pc.Idle?
         && Ended(t.seen) <= {t.ledger.status}
    ensures var t := Run(Init(Terms(Some(true), approved)), es);
      t.sends[Cancelled] == (if Cancelled in t.seen && t.ledger.cancelRequested then 1 else 0)
  {
    var terms := Terms(Some(true), approved);
    var t := Run(Init(terms), es);
    InitOk(terms, Cancelled);
    KeepsOn(Init(terms), es, terms);
    ToldExactlyOnce(es, pid, terms, Cancelled);
    if Cancelled in t.seen { assert Cancelled in Ended(t.seen); }
    if t.sends[Cancelled] > 0 { CancelledNoticeMeansCancelled(es, terms); }
  }
}
