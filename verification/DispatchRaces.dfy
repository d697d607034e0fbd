/** Two runs, from the empty system, that no test of the queue covers: one executes
  * finished work again, the other loses accepted work. */
module DispatchRaces {
  import opened Prelude
  import opened DispatchRecords
  import opened DispatchProtocol
  import opened DispatchInvariant
  import opened DispatchFencing
  import opened DispatchTerminal
  import opened DispatchLoss

  lemma {:induction false} Snoc(s: State, es: seq<Event>, e: Event)
    requires IsRun(s, es) && Enabled(Run(s, es), e)
    ensures IsRun(s, es + [e]) && Run(s, es + [e]) == Step(Run(s, es), e)
    decreases |es|
  {
    if es == [] {
      assert (es + [e])[1..] == [];
    } else {
      Snoc(Step(s, es[0]), es[1..], e);
      assert (es + [e])[1..] == es[1..] + [e];
    }
  }

  /** One more step of a run from the empty system. */
  lemma {:induction false} Extend(es: seq<Event>, s: State, e: Event, t: State) returns (longer: seq<Event>)
    requires IsRun(Init(), es) && Run(Init(), es) == s && Enabled(s, e) && Step(s, e) == t
    ensures IsRun(Init(), longer) && Run(Init(), longer) == t
  {
    Snoc(Init(), es, e);
    longer := es + [e];
  }

  function Accepted(task: Task): Record { NewRecord(task).(enqueued := true) }

  function Delivered(task: Task, count: nat): Delivery { Delivery(0, count, TaskText(task)) }

  /** One record, at most one message, received count times. */
  function Stored(r: Record, count: nat, visible: bool): World {
    World(map[RefOf(r.task) := r], map[0 := Item(TaskText(r.task), PopReceipt(count, 0), visible)], 1, [])
  }

  function At(w: World, procs: map<nat, Pc>): State { State(w, 0, procs) }

  lemma {:induction false} Sends(task: Task) returns (es: seq<Event>)
    requires CanonicalTask(task)
    ensures IsRun(Init(), es) && Run(Init(), es) == At(Stored(NewRecord(task), 0, true), map[1 := Rereading(task)])
  {
    var e, r := StartEnqueue(1, task), NewRecord(task);
    var s1 := At(World(map[RefOf(task) := r], map[], 0, []), map[1 := Sending(task)]);
    es := Extend([], Init(), e, s1);
    es := Extend(es, s1, Next(1), At(Stored(r, 0, true), map[1 := Rereading(task)]));
  }

  /** enqueue() runs to its end. */
  lemma {:induction false} Enqueues(task: Task) returns (es: seq<Event>)
    requires CanonicalTask(task)
    ensures IsRun(Init(), es) && Run(Init(), es) == At(Stored(Accepted(task), 0, true), map[])
  {
    var w := Stored(NewRecord(task), 0, true);
    var s3 := At(w, map[1 := Marking(task, Identity(Option.None, 0))]);
    es := Sends(task);
    es := Extend(es, At(w, map[1 := Rereading(task)]), Next(1), s3);
    MarkTakes(task);
    es := Extend(es, s3, Next(1), At(Stored(Accepted(task), 0, true), map[]));
  }

  lemma {:induction false} MarkTakes(task: Task)
    requires CanonicalTask(task)
    ensures Swap(map[RefOf(task) := NewRecord(task)], RefOf(task), Identity(Option.None, 0), MarkEnqueued) == Swapped(Accepted(task))
  {}

  // ---- the lost task ----

  /** One delivery read, and its message visible again. */
  lemma {:induction false} OneDelivery(task: Task) returns (es: seq<Event>)
    requires CanonicalTask(task)
    ensures IsRun(Init(), es)
    ensures Run(Init(), es) == At(Stored(Accepted(task), 1, true), map[1 := Loaded(Delivered(task, 1), Accepted(task), 0)])
  {
    var r, d1 := Accepted(task), Delivered(task, 1);
    var s0, s1 := At(Stored(r, 0, true), map[]), At(Stored(r, 1, false), map[1 := Received(d1)]);
    es := Enqueues(task);
    es := Extend(es, s0, Receive(1, 0), s1);
    var s2 := At(Stored(r, 1, false), map[1 := Loaded(d1, r, 0)]);
    es := Extend(es, s1, Load(1, 5), s2);
    es := Extend(es, s2, Expire(0), At(Stored(r, 1, true), map[1 := Loaded(d1, r, 0)]));
  }

  /** Two deliveries of the one message, both read before either claims. */
  lemma {:induction false} TwoDeliveries(task: Task) returns (es: seq<Event>)
    requires CanonicalTask(task)
    ensures IsRun(Init(), es)
    ensures Run(Init(), es) == At(Stored(Accepted(task), 2, false),
      map[1 := Loaded(Delivered(task, 1), Accepted(task), 0), 2 := Loaded(Delivered(task, 2), Accepted(task), 0)])
  {
    var r, d1, d2 := Accepted(task), Delivered(task, 1), Delivered(task, 2);
    var s3 := At(Stored(r, 1, true), map[1 := Loaded(d1, r, 0)]);
    var s4 := At(Stored(r, 2, false), map[1 := Loaded(d1, r, 0), 2 := Received(d2)]);
    es := OneDelivery(task);
    es := Extend(es, s3, Receive(2, 0), s4);
    es := Extend(es, s4, Load(2, 5), At(Stored(r, 2, false), map[1 := Loaded(d1, r, 0), 2 := Loaded(d2, r, 0)]));
  }

  /** The record after a first claim by delivery count 1. */
  function FirstClaim(task: Task): Record {
    Accepted(task).(status := Leased, dequeueCount := 1, leaseOwner := Some("a"), leaseGeneration := 1,
                    leaseMessageId := Some(0), leaseExpiresAt := Some(30000))
  }

  function FirstLease(task: Task): Lease { Lease(task, 0, PopReceipt(1, 0), 1, "a", 1) }

  lemma {:induction false} OlderWins(task: Task) returns (es: seq<Event>)
    requires CanonicalTask(task)
    ensures IsRun(Init(), es)
    ensures Run(Init(), es) == At(Stored(FirstClaim(task), 2, false),
      map[1 := Observing(FirstLease(task), false), 2 := Loaded(Delivered(task, 2), Accepted(task), 0)])
  {
    var d2 := Delivered(task, 2);
    var s0 := At(Stored(Accepted(task), 2, false),
      map[1 := Loaded(Delivered(task, 1), Accepted(task), 0), 2 := Loaded(d2, Accepted(task), 0)]);
    es := TwoDeliveries(task);
    es := Extend(es, s0, TryClaim(1, "a", 30), At(Stored(FirstClaim(task), 2, false),
      map[1 := Observing(FirstLease(task), false), 2 := Loaded(d2, Accepted(task), 0)]));
  }

  /** The older delivery wins the claim, the newer one is refused and deletes the
    * only message, and the winner crashes: the accepted task is leased to nobody. */
  lemma {:induction false} AcceptedTaskCanBeLost(task: Task) returns (es: seq<Event>)
    requires CanonicalTask(task)
    ensures IsRun(Init(), es)
    ensures var s := Run(Init(), es); s.world.queue == map[] && s.procs == map[] && !NothingLost(s.world)
  {
    var r, l, d2 := FirstClaim(task), FirstLease(task), Delivered(task, 2);
    var s1 := At(Stored(r, 2, false), map[1 := Observing(l, false), 2 := Loaded(d2, Accepted(task), 0)]);
    var s2 := At(Stored(r, 2, false), map[1 := Observing(l, false), 2 := Discarding(d2)]);
    var w3 := World(map[RefOf(task) := r], map[], 1, []);
    es := OlderWins(task);
    es := Extend(es, s1, TryClaim(2, "b", 30), s2);
    es := Extend(es, s2, Next(2), At(w3, map[1 := Observing(l, false)]));
    es := Extend(es, At(w3, map[1 := Observing(l, false)]), Crash(1), At(w3, map[]));
    assert RefOf(task) in w3.records && !HasMessage(w3, r);
  }

  // ---- finished work executed again ----

  lemma {:induction false} Claimed(task: Task) returns (es: seq<Event>)
    requires CanonicalTask(task)
    ensures IsRun(Init(), es)
    ensures Run(Init(), es) == At(Stored(FirstClaim(task), 1, false), map[1 := Observing(FirstLease(task), false)])
  {
    var r0, d1 := Accepted(task), Delivered(task, 1);
    var s1 := At(Stored(r0, 1, false), map[1 := Received(d1)]);
    var s2 := At(Stored(r0, 1, false), map[1 := Loaded(d1, r0, 0)]);
    es := Enqueues(task);
    es := Extend(es, At(Stored(r0, 0, true), map[]), Receive(1, 0), s1);
    es := Extend(es, s1, Load(1, 5), s2);
    es := Extend(es, s2, TryClaim(1, "a", 30), At(Stored(FirstClaim(task), 1, false), map[1 := Observing(FirstLease(task), false)]));
  }

  /** A worker holds the task while a redelivery of its message has been read. */
  lemma {:induction false} HeldAndRedelivered(task: Task) returns (es: seq<Event>)
    requires CanonicalTask(task)
    ensures IsRun(Init(), es)
    ensures Run(Init(), es) == At(Stored(FirstClaim(task), 2, false),
      map[1 := Holding(FirstLease(task), false), 2 := Loaded(Delivered(task, 2), FirstClaim(task), 0)])
  {
    var r, l, d2 := FirstClaim(task), FirstLease(task), Delivered(task, 2);
    var s4 := At(Stored(r, 1, false), map[1 := Holding(l, false)]);
    var s5 := At(Stored(r, 1, true), map[1 := Holding(l, false)]);
    var s6 := At(Stored(r, 2, false), map[1 := Holding(l, false), 2 := Received(d2)]);
    es := Claimed(task);
    es := Extend(es, At(Stored(r, 1, false), map[1 := Observing(l, false)]), Next(1), s4);
    es := Extend(es, s4, Expire(0), s5);
    es := Extend(es, s5, Receive(2, 0), s6);
    es := Extend(es, s6, Load(2, 5), At(Stored(r, 2, false), map[1 := Holding(l, false), 2 := Loaded(d2, r, 0)]));
  }

  function Done(task: Task, receipt: Receipt): Record {
    FirstClaim(task).(status := Completed, receipt := Some(receipt), leaseExpiresAt := Option.None)
  }

  lemma {:induction false} CompletedUnderRead(task: Task, receipt: Receipt) returns (es: seq<Event>)
    requires CanonicalTask(task)
    ensures IsRun(Init(), es)
    ensures Run(Init(), es) == At(Stored(Done(task, receipt), 2, false),
      map[1 := Acking(FirstLease(task)), 2 := Loaded(Delivered(task, 2), FirstClaim(task), 0)])
  {
    var r, l, d2 := FirstClaim(task), FirstLease(task), Delivered(task, 2);
    var s0 := At(Stored(r, 2, false), map[1 := Holding(l, false), 2 := Loaded(d2, r, 0)]);
    es := HeldAndRedelivered(task);
    es := Extend(es, s0, Finish(1, Succeed(receipt)),
      At(Stored(Done(task, receipt), 2, false), map[1 := Acking(l), 2 := Loaded(d2, r, 0)]));
  }

  /** The first worker completes between the second's read and claim: the completed
    * record is leased again, with its receipt still on it, and its work starts anew. */
  lemma {:induction false} CompletedTaskCanRunAgain(task: Task, receipt: Receipt) returns (es: seq<Event>, e: Event)
    requires CanonicalTask(task)
    ensures IsRun(Init(), es) && Enabled(Run(Init(), es), e)
    ensures var s, ref := Run(Init(), es), RefOf(task);
      && ref in s.world.records && s.world.records[ref].receipt == Some(receipt)
      && s.world.records[ref].status == Leased && Starts(s, e, ref)
  {
    var d2 := Delivered(task, 2);
    var again := Done(task, receipt).(status := Leased, dequeueCount := 2, leaseOwner := Some("b"), leaseGeneration := 2,
                                      leaseExpiresAt := Some(30000));
    var s1 := At(Stored(Done(task, receipt), 2, false), map[1 := Acking(FirstLease(task)), 2 := Loaded(d2, FirstClaim(task), 0)]);
    var s2 := At(Stored(again, 2, false),
      map[1 := Acking(FirstLease(task)), 2 := Observing(Lease(task, 0, PopReceipt(2, 0), 2, "b", 2), false)]);
    es := CompletedUnderRead(task, receipt);
    es := Extend(es, s1, TryClaim(2, "b", 30), s2);
    e := Next(2);
  }
}
