/** Several services over one job store: here the store does not compare what a service read before. An
  * update is merged into the record as it is now, and an ack stores the list of acks that was read
  * before the notice was sent, with the new one added. */
module SharedObservation {
  import opened Prelude
  import opened AgentJobs
  import opened DurableObservation
  import ObservationSteps

  /** Where a service is with the job: seen is the record its last read or update gave it. */
  datatype Stage = Looked(seen: Rec, worker: Option<Worker>) | Telling(seen: Rec) | Told(seen: Rec)

  datatype Shared = Shared(rec: Rec, worker: Option<Worker>, busy: map<nat, Stage>, sends: multiset<Status>)

  datatype Move =
    | Reports(worker: Option<Worker>)
    | Look(pid: nat)
    | Merge(pid: nat)
    | Tell(pid: nat, accepted: bool)
    | Acknowledge(pid: nat)

  predicate CanMove(s: Shared, m: Move) {
    match m
    case Reports(_) => true
    case Look(pid) => pid !in s.busy
    case Merge(pid) => pid in s.busy && s.busy[pid].Looked?
    case Tell(pid, _) => pid in s.busy && s.busy[pid].Telling?
    case Acknowledge(pid) => pid in s.busy && s.busy[pid].Told?
  }

  function Rest(s: Shared, pid: nat): Shared { s.(busy := s.busy - {pid}) }

  /** Tell the record this service has, if it is due. */
  function Delivers(s: Shared, pid: nat, seen: Rec): Shared {
    if Due(seen) then s.(busy := s.busy[pid := Telling(seen)]) else Rest(s, pid)
  }

  function Moved(s: Shared, m: Move): Shared
    requires CanMove(s, m)
  {
    match m
    case Reports(worker) => s.(worker := worker)
    case Look(pid) => s.(busy := s.busy[pid := Looked(s.rec, s.worker)])
    case Merge(pid) =>
      var seen, worker := s.busy[pid].seen, s.busy[pid].worker;
      if worker.None? then Delivers(s, pid, seen)
      else
        var status := JobStatus(worker.value);
        if (Terminal(seen.status) && !Terminal(status)) || !Updatable(s.rec, status) then Rest(s, pid)
        else Delivers(s.(rec := Updated(s.rec, status)), pid, Updated(s.rec, status))
    case Tell(pid, accepted) =>
      var seen := s.busy[pid].seen;
      if accepted then s.(busy := s.busy[pid := Told(seen)], sends := s.sends + multiset{seen.status}) else Rest(s, pid)
    case Acknowledge(pid) =>
      var seen := s.busy[pid].seen;
      Rest(s, pid).(rec := s.rec.(delivered := seen.delivered + {seen.status}))
  }

  /** The service goes on with the record it was given: it tells it if a notice is owed, or is done. */
  predicate GoesOn(busy: map<nat, Stage>, pid: nat, seen: Rec, after: map<nat, Stage>) {
    after == if ObservationSteps.Owed(seen) then busy[pid := Telling(seen)] else busy - {pid}
  }

  /** Every move: the report of a worker is merged into the record as it stands, and an ack replaces its list
    * by the one that was read, with the new ack added. */
  predicate Does(s: Shared, m: Move, status: Status, t: Shared)
    requires CanMove(s, m)
  {
    match m
    case Reports(worker) => t == s.(worker := worker)
    case Look(pid) => t == s.(busy := s.busy[pid := Looked(s.rec, s.worker)])
    case Merge(pid) =>
      var seen := s.busy[pid].seen;
      t.worker == s.worker && t.sends == s.sends
      && if s.busy[pid].worker.None? then t.rec == s.rec && GoesOn(s.busy, pid, seen, t.busy)
         else if (ObservationSteps.Over(seen.status) && !ObservationSteps.Over(status)) || (s.rec.seal.Settled? && s.rec.seal.status != status)
         then t.rec == s.rec && t.busy == s.busy - {pid}
         else
           && t.rec == s.rec.(status := status, seal := if s.rec.seal == Unsettled && ObservationSteps.Over(status) then Settled(status) else s.rec.seal)
           && GoesOn(s.busy, pid, t.rec, t.busy)
    case Tell(pid, accepted) =>
      var seen := s.busy[pid].seen;
      t.rec == s.rec && t.worker == s.worker
      && t.busy == (if accepted then s.busy[pid := Told(seen)] else s.busy - {pid})
      && t.sends == (if accepted then s.sends + multiset{seen.status} else s.sends)
    case Acknowledge(pid) =>
      var seen := s.busy[pid].seen;
      t == Shared(s.rec.(delivered := seen.delivered + {seen.status}), s.worker, s.busy - {pid}, s.sends)
  }

  lemma {:induction false} MoveDoes(s: Shared, m: Move, status: Status)
    requires CanMove(s, m) && (m.Merge? && s.busy[m.pid].worker.Some? ==> ObservationSteps.Means(s.busy[m.pid].worker.value, status))
    ensures Does(s, m, status, Moved(s, m))
  {}

  predicate IsCourse(s: Shared, ms: seq<Move>)
    decreases |ms|
  {
    ms == [] || (CanMove(s, ms[0]) && IsCourse(Moved(s, ms[0]), ms[1..]))
  }

  function Course(s: Shared, ms: seq<Move>): Shared
    requires IsCourse(s, ms)
    decreases |ms|
  {
    if ms == [] then s else Course(Moved(s, ms[0]), ms[1..])
  }

  // ---- one at a time ----

  /** No service looks while another is at it. */
  predicate InTurn(s: Shared, ms: seq<Move>)
    requires IsCourse(s, ms)
    decreases |ms|
  {
    ms == [] || ((ms[0].Look? ==> s.busy == map[]) && InTurn(Moved(s, ms[0]), ms[1..]))
  }

  predicate Current(s: Shared) { |s.busy| <= 1 && forall pid :: pid in s.busy ==> s.busy[pid].seen == s.rec }

  lemma {:induction false} OnlyOne(busy: map<nat, Stage>, p: nat, q: nat)
    requires |busy| <= 1 && p in busy && q in busy
    ensures p == q
  {
    assert |busy.Keys - {p}| == |busy.Keys| - 1;
    assert busy.Keys - {p} == {};
    assert q in busy.Keys;
  }

  lemma {:induction false} CurrentKept(s: Shared, m: Move)
    requires CanMove(s, m) && Current(s) && (m.Look? ==> s.busy == map[])
    ensures Current(Moved(s, m))
    ensures s.rec.delivered <= Moved(s, m).rec.delivered && (Terminal(s.rec.status) ==> Terminal(Moved(s, m).rec.status))
  {
    if m.Merge? || m.Tell? || m.Acknowledge? {
      forall q | q in s.busy ensures q == m.pid { OnlyOne(s.busy, q, m.pid); }
      assert s.busy == map[m.pid := s.busy[m.pid]];
      MovedAlone(s, m);
      hide Moved, CanMove;
      AtMostOne(Moved(s, m).busy, m.pid);
    }
  }

  lemma {:induction false} AtMostOne(busy: map<nat, Stage>, pid: nat)
    requires forall q :: q in busy ==> q == pid
    ensures |busy| <= 1
  {
    assert busy.Keys <= {pid};
    if busy.Keys == {pid} { assert |busy.Keys| == 1; } else { assert busy.Keys == {}; }
  }

  /** The one service at it goes on with the record it has, or is done. */
  lemma {:induction false} MovedAlone(s: Shared, m: Move)
    requires CanMove(s, m) && (m.Merge? || m.Tell? || m.Acknowledge?)
    requires s.busy == map[m.pid := s.busy[m.pid]] && s.busy[m.pid].seen == s.rec
    ensures var t := Moved(s, m);
      && (forall q :: q in t.busy ==> q == m.pid && t.busy[q].seen == t.rec)
      && s.rec.delivered <= t.rec.delivered && (Terminal(s.rec.status) ==> Terminal(t.rec.status))
  {
    hide JobStatus, Due;
  }

  /** In turn, services over one store lose no ack and reopen no job. */
  lemma {:induction false} InTurnKeeps(s: Shared, ms: seq<Move>)
    requires IsCourse(s, ms) && Current(s) && InTurn(s, ms)
    ensures var t := Course(s, ms);
      s.rec.delivered <= t.rec.delivered && (Terminal(s.rec.status) ==> Terminal(t.rec.status))
    decreases |ms|
  {
    if ms != [] {
      CurrentKept(s, ms[0]);
      hide Moved, CanMove, Current;
      InTurnKeeps(Moved(s, ms[0]), ms[1..]);
    }
  }

  /** A move loses an ack exactly if it is an ack whose list was read before the other one was stored. */
  lemma {:induction false} AckLostExactly(s: Shared, m: Move, status: Status)
    requires CanMove(s, m) && status in s.rec.delivered
    ensures status !in Moved(s, m).rec.delivered <==>
      m.Acknowledge? && status !in s.busy[m.pid].seen.delivered && status != s.busy[m.pid].seen.status
  {
    hide JobStatus, Due;
  }

  // ---- out of turn ----

  /** The first service is slow to acknowledge the start of the job; meanwhile the second tells its end. */
  function LateAck(): (r: seq<Move>)
    ensures |r| == 14
  {
    [Reports(Some(WLeased)), Look(1), Merge(1), Tell(1, true),
     Reports(Some(WCompleted)), Look(2), Merge(2), Tell(2, true), Acknowledge(2),
     Acknowledge(1), Look(2), Merge(2), Tell(2, true), Acknowledge(2)]
  }

  const READ_ONLY := Terms(Some(true), false)

  function Queue(): Shared { Shared(Fresh(READ_ONLY), None, map[], multiset{}) }

  /** The states on the way. */
  function Between(k: nat): Shared {
    var r := Fresh(READ_ONLY);
    var running, done := r.(status := Running), r.(status := Completed);
    var told, late := done.(delivered := {Completed}), done.(delivered := {Running});
    var rec := if k < 3 then r else if k < 7 then running else if k < 9 then done else if k < 10 then told
               else if k < 14 then late else late.(delivered := {Running, Completed});
    var first := if k == 2 then Looked(r, Some(WLeased)) else if k == 3 then Telling(running) else Told(running);
    var second := if k == 6 then Looked(running, Some(WCompleted)) else if k == 7 then Telling(done) else if k == 8 then Told(done)
                  else if k == 11 then Looked(late, Some(WCompleted)) else if k == 12 then Telling(late) else Told(late);
    Shared(rec, if k == 0 then None else if k < 5 then Some(WLeased) else Some(WCompleted),
           if k < 2 then map[] else if k < 6 then map[1 := first] else if k < 9 then map[1 := first, 2 := second]
           else if k == 9 then map[1 := first] else if k == 10 || k == 14 then map[] else map[2 := second],
           if k < 4 then multiset{} else if k < 8 then multiset{Running} else if k < 13 then multiset{Running, Completed}
           else multiset{Running, Completed, Completed})
  }

  lemma {:induction false} Runs(k: nat)
    requires 0 <= k < 3
    ensures CanMove(Between(k), LateAck()[k]) && Moved(Between(k), LateAck()[k]) == Between(k + 1)
  {}

  lemma {:induction false} TellsStart(k: nat)
    requires 3 <= k < 5
    ensures CanMove(Between(k), LateAck()[k]) && Moved(Between(k), LateAck()[k]) == Between(k + 1)
  {}

  lemma {:induction false} Ends(k: nat)
    requires 5 <= k < 7
    ensures CanMove(Between(k), LateAck()[k]) && Moved(Between(k), LateAck()[k]) == Between(k + 1)
  {}

  lemma {:induction false} TellsEnd(k: nat)
    requires 7 <= k < 9
    ensures CanMove(Between(k), LateAck()[k]) && Moved(Between(k), LateAck()[k]) == Between(k + 1)
  {
    if k == 8 {
      assert Between(8).busy - {2} == Between(9).busy;
      assert Between(8).rec.delivered + {Completed} == {Completed};
    }
  }

  lemma {:induction false} Drops(k: nat)
    requires 9 <= k < 11
    ensures CanMove(Between(k), LateAck()[k]) && Moved(Between(k), LateAck()[k]) == Between(k + 1)
  {
    if k == 9 {
      assert Between(9).busy - {1} == Between(10).busy;
      assert Between(9).busy[1].seen.delivered + {Running} == {Running};
    }
  }

  lemma {:induction false} TellsAgain(k: nat)
    requires 11 <= k < 14
    ensures CanMove(Between(k), LateAck()[k]) && Moved(Between(k), LateAck()[k]) == Between(k + 1)
  {
    if k == 13 {
      assert Between(13).busy - {2} == Between(14).busy;
      assert {Running} + {Completed} == {Running, Completed};
    }
  }

  lemma {:induction false} BetweenMoves(k: nat)
    requires k < 14
    ensures CanMove(Between(k), LateAck()[k]) && Moved(Between(k), LateAck()[k]) == Between(k + 1)
  {
    hide *;
    if k < 3 { Runs(k); } else if k < 5 { TellsStart(k); } else if k < 7 { Ends(k); }
    else if k < 9 { TellsEnd(k); } else if k < 11 { Drops(k); } else { TellsAgain(k); }
  }

  /** The late ack drops the ack of the outcome from the store, and the outcome is told a second time. */
  lemma {:induction false} LateAckDropsAnother()
    ensures var s, ms := Queue(), LateAck();
      && IsCourse(s, ms) && Course(s, ms).sends[Completed] == 2
      && IsCourse(s, ms[..9]) && Completed in Course(s, ms[..9]).rec.delivered
      && IsCourse(s, ms[..10]) && Completed !in Course(s, ms[..10]).rec.delivered
  {
    PartIs(14);
    assert LateAck()[..14] == LateAck();
    PartIs(9);
    PartIs(10);
    hide IsCourse, Course, LateAck;
  }

  lemma {:induction false} PartIs(k: nat)
    requires k <= 14
    ensures IsCourse(Queue(), LateAck()[..k]) && Course(Queue(), LateAck()[..k]) == Between(k)
  {
    if k > 0 {
      PartIs(k - 1);
      hide Between, LateAck, Moved, CanMove, Queue, IsCourse, Course;
      BetweenMoves(k - 1);
      OneMore(Queue(), LateAck()[..k - 1], LateAck()[k - 1]);
      assert LateAck()[..k] == LateAck()[..k - 1] + [LateAck()[k - 1]];
    }
  }

  lemma {:induction false} OneMore(s: Shared, ms: seq<Move>, m: Move)
    requires IsCourse(s, ms) && CanMove(Course(s, ms), m)
    ensures IsCourse(s, ms + [m]) && Course(s, ms + [m]) == Moved(Course(s, ms), m)
    decreases |ms|
  {
    var longer := ms + [m];
    if ms == [] {
      assert longer[1..] == [];
    } else {
      hide Moved, CanMove;
      OneMore(Moved(s, ms[0]), ms[1..], m);
      assert longer[1..] == ms[1..] + [m];
    }
  }
}
