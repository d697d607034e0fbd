/** A pending approval over its whole life: decided once, dispatched at most once, its
  * deadline fixed, and expired by a chain of bounded timers that ends. */
module Approval {
  import opened Prelude
  import opened AgentJobs
  import opened JobLoading
  import JobStore

  /** Everything that can be done to the job: decisions, other durable updates, and a restart, which
    * reads it back and fails what was interrupted. */
  datatype Act =
    | Decided(scope: Scope, request: Identity, decision: Decision, now: int)
    | Updated(patch: Patch)
    | Reloaded(legacyProvider: Option<string>)
    | Recovered(now: int)

  function After(job: Job, act: Act): Job {
    match act
    case Decided(scope, request, decision, now) =>
      var r := DecideSoundly(job, scope, request, decision, now);
      if r.Ok? then r.value.job else job
    case Updated(patch) => if UpdateJob(job, patch).Ok? then UpdateJob(job, patch).value else job
    case Reloaded(legacyProvider) => LoadOne(job, legacyProvider).UnwrapOr(job)
    case Recovered(now) => if JobStore.RecoverOne(job, now).Ok? then JobStore.RecoverOne(job, now).value else job
  }

  predicate Dispatches(job: Job, act: Act) {
    act.Decided? && DecideSoundly(job, act.scope, act.request, act.decision, act.now).Ok?
    && DecideSoundly(job, act.scope, act.request, act.decision, act.now).value.dispatch
  }

  function Life(job: Job, acts: seq<Act>): Job
    decreases |acts|
  {
    if acts == [] then job else Life(After(job, acts[0]), acts[1..])
  }

  function DispatchCount(job: Job, acts: seq<Act>): nat
    decreases |acts|
  {
    if acts == [] then 0 else (if Dispatches(job, acts[0]) then 1 else 0) + DispatchCount(After(job, acts[0]), acts[1..])
  }

  /** Work is dispatched exactly by accepting a pending approval, with its identity, in time. */
  lemma {:induction false} DispatchExact(job: Job, act: Act)
    ensures Dispatches(job, act) <==>
      && act.Decided? && act.decision == Accept
      && job.approval.Some? && Sound(job.approval.value, job) && job.approval.value.state == Pending && job.approval.value.settled.None?
      && job.status == AwaitingApproval && Matches(job, act.scope)
      && act.request == Identity(job.approval.value.approvalId, job.approval.value.revision)
      && job.createdAt <= act.now < job.approval.value.deadline
  {}

  lemma {:induction false} ActKeepsRecord(job: Job, act: Act)
    ensures SameRecord(job, After(job, act))
  {
    match act
    case Decided(scope, request, decision, now) =>
      if DecideSoundly(job, scope, request, decision, now).Ok? { DecideKeepsIdentity(job, scope, request, decision, now); }
    case Updated(patch) => if UpdateJob(job, patch).Ok? { UpdateKeepsIdentity(job, patch); }
    case Reloaded(legacyProvider) => if LoadOne(job, legacyProvider).Some? { LoadOneAgain(job, legacyProvider); }
    case Recovered(now) => if JobStore.RecoverOne(job, now).Ok? { JobStore.RecoverKeepsIdentity(job, now); }
  }

  /** Over any life, whatever is patched meanwhile: the deadline and the identity of the approval
    * never move, and a decision and a settlement are made at most once. */
  lemma {:induction false} AuthorityIsFixed(job: Job, acts: seq<Act>)
    ensures job.approval.Some? <==> Life(job, acts).approval.Some?
    ensures job.approval.Some? ==> SameAuthority(job.approval.value, Life(job, acts).approval.value)
    decreases |acts|
  {
    RecordIsFixed(job, acts);
  }

  lemma {:induction false} RecordIsFixed(job: Job, acts: seq<Act>)
    ensures SameRecord(job, Life(job, acts))
    decreases |acts|
  {
    if acts != [] {
      ActKeepsRecord(job, acts[0]);
      RecordIsFixed(After(job, acts[0]), acts[1..]);
      SameRecordTransitive(job, After(job, acts[0]), Life(job, acts));
    }
  }

  predicate SoundJob(job: Job) { job.approval.Some? ==> Sound(job.approval.value, job) }

  lemma {:induction false} ActKeepsSound(job: Job, act: Act)
    requires SoundJob(job)
    ensures SoundJob(After(job, act))
  {
    match act
    case Decided(scope, request, decision, now) =>
      hide Sound;
      DecideKeepsApproval(job, scope, request, decision, now);
    case Updated(patch) => if UpdateJob(job, patch).Ok? { SettleKeepsRecord(Patched(job, patch)); hide Sound, Settle; }
    case Reloaded(legacyProvider) => hide Sound, Upgraded;
    case Recovered(now) =>
      if JobStore.RecoverOne(job, now).Ok? && (job.status == Queued || job.status == Running) {
        SettleKeepsRecord(job.(status := Failed, error := Some("restarted"), finishedAt := Some(now)));
        hide Sound, Settle;
      }
  }

  lemma {:induction false} DecideKeepsApproval(job: Job, scope: Scope, request: Identity, decision: Decision, now: int)
    ensures DecideSoundly(job, scope, request, decision, now).Ok? ==> job.approval.Some?
  {}

  lemma {:induction false} SoundForever(job: Job, acts: seq<Act>)
    requires SoundJob(job)
    ensures SoundJob(Life(job, acts))
    decreases |acts|
  {
    if acts != [] {
      ActKeepsSound(job, acts[0]);
      hide SoundJob, After;
      SoundForever(After(job, acts[0]), acts[1..]);
    }
  }

  /** Wherever a pending approval ends up: accepted or denied only before the deadline it began
    * with, expired only at or after it; denied and expired work is cancelled and settled so, and
    * accepted work waits no more. */
  lemma {:induction false} DecidedInTime(job: Job, acts: seq<Act>)
    requires SoundJob(job) && job.approval.Some?
    ensures var t, deadline := Life(job, acts), job.approval.value.deadline;
      && t.approval.Some? && var a := t.approval.value;
      && (a.state == Accepted || a.state == Denied ==> a.decidedAt.Some? && a.decidedAt.value < deadline)
      && (a.state == Expired ==> a.decidedAt.Some? && a.decidedAt.value >= deadline)
      && (a.state == Denied || a.state == Expired ==> t.status == Cancelled && a.settled.Some? && a.settled.value.status == Cancelled)
      && (a.state == Accepted ==> t.status != AwaitingApproval)
      && (a.state == Pending ==> t.status == AwaitingApproval || Terminal(t.status))
  {
    SoundForever(job, acts);
    AuthorityIsFixed(job, acts);
    hide SameAuthority;
    assert Life(job, acts).approval.value.deadline == job.approval.value.deadline by { SameDeadline(job.approval.value, Life(job, acts).approval.value); }
    hide Life;
  }

  lemma {:induction false} SameDeadline(a: Approval, b: Approval)
    requires SameAuthority(a, b)
    ensures a.deadline == b.deadline
  {}

  /** A decided approval dispatches nothing any more. */
  lemma {:induction false} DecidedIsFinal(job: Job, acts: seq<Act>)
    requires job.approval.Some? ==> job.approval.value.state != Pending
    ensures DispatchCount(job, acts) == 0
    decreases |acts|
  {
    if acts != [] {
      ActKeepsRecord(job, acts[0]);
      DispatchExact(job, acts[0]);
      DecidedIsFinal(After(job, acts[0]), acts[1..]);
    }
  }

  /** Work waiting for approval is dispatched at most once, and only if its approval ends accepted. */
  lemma {:induction false} DispatchedOnceIfAccepted(job: Job, acts: seq<Act>)
    ensures DispatchCount(job, acts) <= 1
    ensures DispatchCount(job, acts) == 1 ==>
      Life(job, acts).approval.Some? && Life(job, acts).approval.value.state == Accepted
    decreases |acts|
  {
    if acts != [] {
      var next := After(job, acts[0]);
      if Dispatches(job, acts[0]) {
        DecidedIsFinal(next, acts[1..]);
        AuthorityIsFixed(next, acts[1..]);
      } else {
        DispatchedOnceIfAccepted(next, acts[1..]);
      }
    }
  }

  // ---- the expiry timers ----

  const MAX_APPROVAL_EXPIRY_TIMER_MS: int := 60_000
  const APPROVAL_EXPIRY_RETRY_DELAY_MS: int := 1_000

  /** The earliest deadline among the pending approvals. */
  ghost predicate IsEarliest(pending: map<string, int>, deadline: int) {
    && (exists id :: id in pending && pending[id] == deadline)
    && (forall id :: id in pending ==> deadline <= pending[id])
  }

  method Earliest(pending: map<string, int>) returns (deadline: int)
    requires pending != map[]
    ensures IsEarliest(pending, deadline)
  {
    var first :| first in pending;
    deadline := pending[first];
    var left := pending.Keys - {first};
    ghost var seen := {first};
    while left != {}
      invariant left + seen == pending.Keys
      invariant exists id :: id in pending && pending[id] == deadline
      invariant forall id :: id in seen ==> deadline <= pending[id]
      decreases |left|
    {
      var id :| id in left;
      if pending[id] < deadline { deadline := pending[id]; }
      left := left - {id};
      seen := seen + {id};
    }
  }

  function Delay(minimum: int, deadline: int, now: int): int {
    var wait := if deadline - now > minimum then deadline - now else minimum;
    if wait < MAX_APPROVAL_EXPIRY_TIMER_MS then wait else MAX_APPROVAL_EXPIRY_TIMER_MS
  }

  /** The timer waits for the deadline, at least the minimum and at most a minute. */
  lemma {:induction false} DelayIs(minimum: int, deadline: int, now: int)
    requires 1 <= minimum <= 60000
    ensures var wait := deadline - now;
      && (wait <= minimum ==> Delay(minimum, deadline, now) == minimum)
      && (minimum <= wait <= 60000 ==> Delay(minimum, deadline, now) == wait)
      && (wait >= 60000 ==> Delay(minimum, deadline, now) == 60000)
  {}

  function StillPending(pending: map<string, int>, now: int): map<string, int> {
    map id | id in pending && pending[id] > now :: pending[id]
  }

  /** Nothing expired early, and nothing was dropped without expiring. */
  ghost predicate ExpiredInTime(start: int, pending0: map<string, int>, pending: map<string, int>, expiredAt: map<string, int>) {
    && expiredAt.Keys + pending.Keys == pending0.Keys && expiredAt.Keys !! pending.Keys
    && (forall id :: id in pending ==> pending[id] == pending0[id])
    && (forall id :: id in expiredAt ==> pending0[id] <= expiredAt[id] && start < expiredAt[id])
  }

  /** One timer: it fires late by any amount, and the pass over the due approvals is stored or not. */
  method Fire(now: int, minimum: int, pending: map<string, int>, late: nat, stored: bool)
    returns (fired: int, delay: int, left: map<string, int>)
    requires pending != map[] && 1 <= minimum <= APPROVAL_EXPIRY_RETRY_DELAY_MS
    ensures 1 <= delay <= MAX_APPROVAL_EXPIRY_TIMER_MS && fired == now + delay + late
    ensures forall deadline :: IsEarliest(pending, deadline) ==>
      if deadline - now <= minimum then delay == minimum else if deadline - now >= 60000 then delay == 60000 else fired == deadline + late
    ensures forall id :: id in pending ==> delay == minimum || delay <= pending[id] - now
    ensures forall id :: id in left <==> id in pending && (stored ==> fired < pending[id])
    ensures left == if stored then StillPending(pending, fired) else pending
    ensures stored ==> |left| < |pending| || (left == pending && Gap(pending, fired) < Gap(pending, now))
  {
    var deadline := Earliest(pending);
    delay := Delay(minimum, deadline, now);
    DelayIs(minimum, deadline, now);
    forall other | IsEarliest(pending, other) ensures other == deadline { EarliestUnique(pending, other, deadline); }
    fired := now + delay + late;
    left := pending;
    if stored {
      left := StillPending(pending, fired);
      if fired >= deadline { FewerPending(pending, fired); }
      else {
        assert left == pending;
        GapShrinks(pending, now, fired, deadline);
      }
    }
  }

  lemma {:induction false} ExpireDue(start: int, pending0: map<string, int>, pending: map<string, int>, expiredAt: map<string, int>, now: int)
    requires ExpiredInTime(start, pending0, pending, expiredAt) && start < now
    ensures ExpiredInTime(start, pending0, StillPending(pending, now), expiredAt + Due(pending, now))
  {}

  function Due(pending: map<string, int>, now: int): map<string, int> {
    map id | id in pending && pending[id] <= now :: now
  }

  function Later(a: int, b: int): int { if a < b then b else a }

  /** Every approval that is due at this firing is due no longer than this. */
  ghost predicate NotLaterThan(start: int, pending: map<string, int>, fired: int, slack: int) {
    forall id :: id in pending && pending[id] <= fired ==> fired <= Later(pending[id], start + 1) + slack
  }

  /** What expired did so no longer than this after its deadline. */
  ghost predicate NotLater(start: int, pending0: map<string, int>, expiredAt: map<string, int>, slack: int) {
    forall id :: id in expiredAt && id in pending0 ==> expiredAt[id] <= Later(pending0[id], start + 1) + slack
  }

  /** A firing is late by no more than the timer was, and by the retry delay if the pass before was
    * not stored. */
  lemma {:induction false} FiresInTime(start: int, pending: map<string, int>, now: int, minimum: int, delay: int, late: int, slack: int)
    requires start <= now && 1 <= minimum && 0 <= late && 0 <= slack
    requires forall id :: id in pending ==> delay == minimum || delay <= pending[id] - now
    requires NotLaterThan(start, pending, now, slack)
    requires minimum == 1 ==> slack == 0 && (now == start || forall id :: id in pending ==> now < pending[id])
    ensures NotLaterThan(start, pending, now + delay + late, slack + (if minimum == 1 then 0 else minimum) + late)
  {
    var fired := now + delay + late;
    forall id | id in pending && pending[id] <= fired
      ensures fired <= Later(pending[id], start + 1) + slack + (if minimum == 1 then 0 else minimum) + late
    {}
  }

  /** A stored pass. */
  lemma {:induction false} ExpiresInTime(start: int, pending0: map<string, int>, pending: map<string, int>,
                                         expiredAt: map<string, int>, fired: int, allowed: int, slack: int)
    requires ExpiredInTime(start, pending0, pending, expiredAt) && start < fired
    requires NotLaterThan(start, pending, fired, allowed)
    ensures ExpiredInTime(start, pending0, StillPending(pending, fired), expiredAt + Due(pending, fired))
    ensures NotLater(start, pending0, expiredAt, slack) && allowed <= slack ==> NotLater(start, pending0, expiredAt + Due(pending, fired), slack)
    ensures NotLaterThan(start, StillPending(pending, fired), fired, 0) && forall id :: id in StillPending(pending, fired) ==> fired < pending[id]
  {
    ExpireDue(start, pending0, pending, expiredAt, fired);
  }

  /** What failed passes may cost together: the retry delay and the lateness of each. */
  function Cost(failures: nat, bound: nat): nat {
    if failures == 0 then 0 else Cost(failures - 1, bound) + APPROVAL_EXPIRY_RETRY_DELAY_MS + bound
  }

  lemma {:induction false} CostIs(failures: nat, bound: nat)
    ensures Cost(failures, bound) == failures * (1000 + bound)
  {
    if failures > 0 {
      CostIs(failures - 1, bound);
      assert (failures - 1) * (1000 + bound) + (1000 + bound) == failures * (1000 + bound);
    }
  }

  lemma {:induction false} CostOfOne(failures: nat, bound: nat)
    requires failures > 0
    ensures Cost(failures, bound) == Cost(failures - 1, bound) + APPROVAL_EXPIRY_RETRY_DELAY_MS + bound
  {}

  /** What the chain keeps: what is done and what is left, and by how much it may be late by now. */
  ghost predicate OnItsWay(start: int, pending0: map<string, int>, pending: map<string, int>, expiredAt: map<string, int>, now: int,
                           minimum: int, failures: nat, slack: int, most: int, bound: nat, timely: bool) {
    && ExpiredInTime(start, pending0, pending, expiredAt) && start <= now && 0 <= slack
    && (minimum == 1 || minimum == APPROVAL_EXPIRY_RETRY_DELAY_MS)
    && (minimum == 1 ==> slack == 0 && (now == start || forall id :: id in pending ==> now < pending[id]))
    && NotLaterThan(start, pending, now, slack)
    && (timely ==> (if minimum == 1 then 0 else slack + minimum) + Cost(failures, bound) <= most && NotLater(start, pending0, expiredAt, most + bound))
  }

  /** One timer of the chain, and its pass. */
  predicate Fires(pending: map<string, int>, now: int, minimum: int, delay: int, late: int, fired: int, bound: nat, timely: bool) {
    && (forall id :: id in pending ==> delay == minimum || delay <= pending[id] - now)
    && 1 <= delay && 0 <= late && fired == now + delay + late && (timely ==> late <= bound)
  }

  lemma {:induction false} PassStored(start: int, pending0: map<string, int>, pending: map<string, int>, expiredAt: map<string, int>, now: int,
                                      minimum: int, failures: nat, slack: int, most: int, bound: nat, timely: bool, delay: int, late: int, fired: int)
    requires OnItsWay(start, pending0, pending, expiredAt, now, minimum, failures, slack, most, bound, timely)
    requires Fires(pending, now, minimum, delay, late, fired, bound, timely)
    ensures OnItsWay(start, pending0, StillPending(pending, fired), expiredAt + Due(pending, fired), fired, 1, failures, 0, most, bound, timely)
  {
    FiresInTime(start, pending, now, minimum, delay, late, slack);
    ExpiresInTime(start, pending0, pending, expiredAt, fired, slack + (if minimum == 1 then 0 else minimum) + late, most + bound);
    hide ExpiredInTime, NotLater, NotLaterThan, StillPending, Due, Cost;
    CostIs(failures, bound);
  }

  lemma {:induction false} PassFailed(start: int, pending0: map<string, int>, pending: map<string, int>, expiredAt: map<string, int>, now: int,
                                      minimum: int, failures: nat, slack: int, most: int, bound: nat, timely: bool, delay: int, late: int, fired: int)
    requires OnItsWay(start, pending0, pending, expiredAt, now, minimum, failures, slack, most, bound, timely) && failures > 0
    requires Fires(pending, now, minimum, delay, late, fired, bound, timely)
    ensures OnItsWay(start, pending0, pending, expiredAt, fired, APPROVAL_EXPIRY_RETRY_DELAY_MS, failures - 1,
                     slack + (if minimum == 1 then 0 else minimum) + late, most, bound, timely)
  {
    FiresInTime(start, pending, now, minimum, delay, late, slack);
    CostOfOne(failures, bound);
    hide ExpiredInTime, NotLater, NotLaterThan, Cost;
  }

  lemma {:induction false} Begins(start: int, pending0: map<string, int>, failures: nat, bound: nat, timely: bool)
    ensures OnItsWay(start, pending0, pending0, map[], start, 1, failures, 0, Cost(failures, bound), bound, timely)
  {}

  lemma {:induction false} Ends(start: int, pending0: map<string, int>, expiredAt: map<string, int>, now: int, minimum: int, failures: nat, slack: int,
                                failures0: nat, bound: nat, timely: bool)
    requires OnItsWay(start, pending0, map[], expiredAt, now, minimum, failures, slack, Cost(failures0, bound), bound, timely)
    ensures ExpiredInTime(start, pending0, map[], expiredAt) && (timely ==> NotLater(start, pending0, expiredAt, failures0 * (1000 + bound) + bound))
  {
    CostIs(failures0, bound);
    hide ExpiredInTime, NotLater, Cost, NotLaterThan;
  }

  ghost predicate Timely(late: int -> nat, bound: nat) { forall t :: late(t) <= bound }

  lemma {:induction false} FiringIs(pending: map<string, int>, now: int, minimum: int, delay: int, late: int -> nat, fired: int, bound: nat)
    requires (forall id :: id in pending ==> delay == minimum || delay <= pending[id] - now) && 1 <= delay && fired == now + delay + late(now)
    ensures Fires(pending, now, minimum, delay, late(now), fired, bound, Timely(late, bound))
  {}

  /** The timer chain of one process until nothing is pending; any passes, up to failures0, are not
    * stored and wait at least the retry delay. The chain ends: this loop terminates. With timers
    * late by at most bound, an approval expires by then after its deadline, and one retry delay
    * more for each pass that was not stored. */
  method RunExpiryChain(start: int, pending0: map<string, int>, late: int -> nat, failures0: nat, ghost bound: nat)
    returns (expiredAt: map<string, int>, delays: seq<int>)
    ensures ExpiredInTime(start, pending0, map[], expiredAt)
    ensures forall i :: 0 <= i < |delays| ==> 1 <= delays[i] <= MAX_APPROVAL_EXPIRY_TIMER_MS
    ensures Timely(late, bound) ==> NotLater(start, pending0, expiredAt, failures0 * (1000 + bound) + bound)
  {
    hide IsEarliest, Delay, Due, StillPending, NotLater, NotLaterThan, ExpiredInTime, Gap, Cost, Timely, OnItsWay, Fires;
    var now, pending, failures, minimum := start, pending0, failures0, 1;
    ghost var timely, slack, most := Timely(late, bound), 0, Cost(failures0, bound);
    expiredAt, delays := map[], [];
    Begins(start, pending0, failures0, bound, timely);
    while pending != map[]
      invariant OnItsWay(start, pending0, pending, expiredAt, now, minimum, failures, slack, most, bound, timely)
      invariant minimum == 1 || minimum == APPROVAL_EXPIRY_RETRY_DELAY_MS
      invariant forall i :: 0 <= i < |delays| ==> 1 <= delays[i] <= MAX_APPROVAL_EXPIRY_TIMER_MS
      decreases failures, |pending|, Gap(pending, now)
    {
      var stored: bool := *;
      if failures == 0 { stored := true; }
      var fired, delay, left := Fire(now, minimum, pending, late(now), stored);
      FiringIs(pending, now, minimum, delay, late, fired, bound);
      delays := delays + [delay];
      if stored {
        PassStored(start, pending0, pending, expiredAt, now, minimum, failures, slack, most, bound, timely, delay, late(now), fired);
        expiredAt, minimum, slack := expiredAt + Due(pending, fired), 1, 0;
      } else {
        PassFailed(start, pending0, pending, expiredAt, now, minimum, failures, slack, most, bound, timely, delay, late(now), fired);
        slack := slack + (if minimum == 1 then 0 else minimum) + late(now);
        failures, minimum := failures - 1, APPROVAL_EXPIRY_RETRY_DELAY_MS;
      }
      pending, now := left, fired;
    }
    Ends(start, pending0, expiredAt, now, minimum, failures, slack, failures0, bound, timely);
  }

  /** How far the earliest deadline is. */
  ghost function Gap(pending: map<string, int>, now: int): nat {
    if exists d :: IsEarliest(pending, d) && d > now then
      var d :| IsEarliest(pending, d) && d > now; d - now
    else 0
  }

  lemma {:induction false} EarliestUnique(pending: map<string, int>, a: int, b: int)
    requires IsEarliest(pending, a) && IsEarliest(pending, b)
    ensures a == b
  {
    var x :| x in pending && pending[x] == a;
    var y :| y in pending && pending[y] == b;
  }

  lemma {:induction false} GapShrinks(pending: map<string, int>, was: int, now: int, deadline: int)
    requires IsEarliest(pending, deadline) && was < now < deadline
    ensures Gap(pending, now) < Gap(pending, was)
  {
    forall d | IsEarliest(pending, d) ensures d == deadline { EarliestUnique(pending, d, deadline); }
  }

  lemma {:induction false} FewerPending(pending: map<string, int>, now: int)
    requires exists id :: id in pending && pending[id] <= now
    ensures |StillPending(pending, now)| < |pending|
  {
    var after := StillPending(pending, now);
    var id :| id in pending && pending[id] <= now;
    assert after.Keys <= pending.Keys - {id};
    Subset(after.Keys, pending.Keys - {id});
  }

  lemma {:induction false} Subset(a: set<string>, b: set<string>)
    requires a <= b
    ensures |a| <= |b|
    decreases b
  {
    if a != {} {
      var x :| x in a;
      Subset(a - {x}, b - {x});
    }
  }
}
