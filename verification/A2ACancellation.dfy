/** Cancelling a parent: durable intent first, then one bounded pass over the children, live or after a
  * restart, then the end of the parent once every child has ended. The pass here runs on its own;
  * A2ACancellationRuns lets it take turns with everything else. */
module A2ACancellation {
  import opened Prelude
  import opened A2ADispatch
  import A2AContracts
  import A2AResuming

  /** A trusted agent, and the jobs whose cancellation it confirms in time. */
  datatype Agent = Agent(providerId: string, identity: Option<string>, boundary: Option<string>, cancels: bool, confirms: set<string>)

  type Registry = map<string, Agent>

  /** Live uses the registry; a restart uses the store's handler, if one is set. */
  datatype Mode = Live(agents: Registry) | Restart(handler: Option<Registry>)

  datatype Reason = MissingJob | MissingProvider | CancellationFailed

  /** What a pass does with one child; Call says whether the provider confirmed. */
  datatype Step = Skip | AckOnly | Report(reason: Reason) | Call(confirmed: bool)

  /** cancelTrustedChild: the provider is called only with exactly matching identity and boundary. */
  function TrustedCancel(agents: Registry, c: Child): Step
    requires c.job.Some?
  {
    if c.plan.agentId !in agents then Report(CancellationFailed)
    else
      var a := agents[c.plan.agentId];
      if a.providerId != c.plan.providerId || !a.cancels || a.identity != c.plan.identity || a.boundary != c.plan.boundary
      then Report(CancellationFailed)
      else Call(c.job.value in a.confirms)
  }

  function Decide(mode: Mode, c: Child): Step {
    if c.acked then Skip
    else if c.status == ChildCanceled then AckOnly
    else if mode.Live? then
      if ChildTerminal(c.status) then AckOnly
      else if c.job.None? then Report(MissingJob)
      else if c.plan.agentId !in mode.agents || mode.agents[c.plan.agentId].providerId != c.plan.providerId
              || !mode.agents[c.plan.agentId].cancels
      then Report(MissingProvider)
      else TrustedCancel(mode.agents, c)
    else
      if c.job.None? then Report(MissingJob)
      else if mode.handler.None? then Report(MissingProvider)
      else TrustedCancel(mode.handler.value, c)
  }

  /** Provider calls and reported failures, by child key. */
  datatype Trace = Trace(parent: Parent, calls: seq<string>, reports: seq<(string, Reason)>)

  predicate Acks(step: Step) { step.AckOnly? || step == Call(true) }

  /** What a pass does at one key. */
  datatype Move = Move(parent: Parent, call: bool, report: Option<Reason>)

  function MoveOne(p: Parent, key: string, mode: Mode): Move {
    if p.dispatch.None? then Move(p, false, None)
    else
      var i := Find(p.dispatch.value.children, key);
      if i == |p.dispatch.value.children| then Move(p, false, None)
      else
        var step := Decide(mode, p.dispatch.value.children[i]);
        Move(if Acks(step) then After(p, Acknowledge(key), true) else p,
             step.Call?,
             if step.Report? then Some(step.reason) else if step == Call(false) then Some(CancellationFailed) else None)
  }

  function PassOne(t: Trace, key: string, mode: Mode): Trace {
    var m := MoveOne(t.parent, key, mode);
    Trace(m.parent, if m.call then t.calls + [key] else t.calls, if m.report.Some? then t.reports + [(key, m.report.value)] else t.reports)
  }

  /** An operation whose write may fail; then nothing changes. */
  function After(p: Parent, op: Op, stored: bool): Parent {
    if stored && Apply(p, op).Ok? then Apply(p, op).value else p
  }

  /** The pass, over the keys of the dispatch it began with; a failing child is passed over. */
  function Pass(t: Trace, keys: seq<string>, mode: Mode): Trace
    decreases |keys|
  {
    if keys == [] then t else PassOne(Pass(t, keys[..|keys| - 1], mode), keys[|keys| - 1], mode)
  }


  lemma {:induction false} PassStep(t: Trace, keys: seq<string>, n: nat, mode: Mode)
    requires n < |keys|
    ensures Pass(t, keys[..n + 1], mode) == PassOne(Pass(t, keys[..n], mode), keys[n], mode)
  {
    assert keys[..n + 1][..n] == keys[..n];
  }

  function Keys(children: seq<Child>): (r: seq<string>)
    ensures |r| == |children| && forall i :: 0 <= i < |children| ==> r[i] == children[i].plan.key
  {
    if children == [] then [] else [children[0].plan.key] + Keys(children[1..])
  }

  // ---- what a pass does, child by child ----

  /** A child after the pass has been by. */
  function Passed(mode: Mode, c: Child): Child {
    if !Acks(Decide(mode, c)) then c
    else c.(acked := true, status := if ChildTerminal(c.status) then c.status else ChildCanceled)
  }

  function PassedUpTo(mode: Mode, children: seq<Child>, n: nat): (r: seq<Child>)
    requires n <= |children|
    ensures |r| == |children|
    ensures forall i :: 0 <= i < |children| ==> r[i] == if i < n then Passed(mode, children[i]) else children[i]
  {
    seq(|children|, i requires 0 <= i < |children| => if i < n then Passed(mode, children[i]) else children[i])
  }

  /** The keys a pass calls providers for, in order. */
  function Called(mode: Mode, children: seq<Child>, n: nat): seq<string>
    requires n <= |children|
  {
    if n == 0 then []
    else Called(mode, children, n - 1) + if Decide(mode, children[n - 1]).Call? then [children[n - 1].plan.key] else []
  }

  lemma {:induction false} FindKey(children: seq<Child>, i: nat)
    requires ValidChildren(children) && i < |children|
    ensures Find(children, children[i].plan.key) == i
  {}

  function WithChildren(p: Parent, children: seq<Child>): Parent
    requires p.dispatch.Some?
  {
    p.(dispatch := Some(p.dispatch.value.(children := children)))
  }

  lemma {:induction false} AckExact(p: Parent, n: nat)
    requires p.dispatch.Some? && p.dispatch.value.cancelRequested && n < |p.dispatch.value.children|
    requires ValidChildren(p.dispatch.value.children) && !p.dispatch.value.children[n].acked
    ensures var c := p.dispatch.value.children[n];
      Apply(p, Acknowledge(c.plan.key))
        == Ok(WithChildren(p, p.dispatch.value.children[n := c.(acked := true, status := if ChildTerminal(c.status) then c.status else ChildCanceled)]))
  {
    FindKey(p.dispatch.value.children, n);
  }

  lemma {:induction false} PassedNext(mode: Mode, children: seq<Child>, n: nat)
    requires n < |children|
    ensures PassedUpTo(mode, children, n + 1) == PassedUpTo(mode, children, n)[n := Passed(mode, children[n])]
    ensures PassedUpTo(mode, children, n)[n] == children[n]
  {}

  lemma {:induction false} PassOneExact(mode: Mode, p: Parent, children: seq<Child>, calls: seq<string>, reports: seq<(string, Reason)>, n: nat)
    requires p.dispatch.Some? && p.dispatch.value.cancelRequested && n < |children|
    requires p.dispatch.value.children == PassedUpTo(mode, children, n) && ValidChildren(p.dispatch.value.children)
    ensures var t := PassOne(Trace(p, calls, reports), children[n].plan.key, mode);
      && t.parent == WithChildren(p, PassedUpTo(mode, children, n + 1))
      && t.calls == calls + if Decide(mode, children[n]).Call? then [children[n].plan.key] else []
  {
    var d := p.dispatch.value;
    PassedNext(mode, children, n);
    FindKey(d.children, n);
    hide PassedUpTo, Decide, ValidChildren;
    if Acks(Decide(mode, children[n])) {
      AckExact(p, n);
    } else {
      assert d.children[n := children[n]] == d.children;
    }
  }


  lemma {:induction false} PassedValid(mode: Mode, children: seq<Child>, n: nat)
    requires ValidChildren(children) && n <= |children|
    ensures ValidChildren(PassedUpTo(mode, children, n))
  {
    var after := PassedUpTo(mode, children, n);
    hide Decide, Acks;
    assert forall i :: 0 <= i < |children| ==> after[i].plan == children[i].plan;
  }

  /** Undisturbed, a pass handles every child on its own: it acknowledges exactly the children it decides
    * to, calls exactly the providers it decides to, each once and in order, and no child's
    * failure changes what happens to another. */
  lemma {:induction false} PassExact(mode: Mode, p: Parent, n: nat)
    requires p.dispatch.Some? && p.dispatch.value.cancelRequested && ValidChildren(p.dispatch.value.children)
    requires n <= |p.dispatch.value.children|
    ensures var d := p.dispatch.value;
      var t := Pass(Trace(p, [], []), Keys(d.children)[..n], mode);
      t.parent == WithChildren(p, PassedUpTo(mode, d.children, n)) && t.calls == Called(mode, d.children, n)
    decreases n
  {
    var d := p.dispatch.value;
    if n > 0 {
      PassExact(mode, p, n - 1);
      PassedValid(mode, d.children, n - 1);
      var keys := Keys(d.children)[..n];
      assert keys[..n - 1] == Keys(d.children)[..n - 1];
      var t := Pass(Trace(p, [], []), keys[..n - 1], mode);
      PassOneExact(mode, t.parent, d.children, t.calls, t.reports, n - 1);
      hide PassOne, PassedUpTo, Decide, ValidChildren;
    } else {
      assert PassedUpTo(mode, d.children, 0) == d.children;
    }
  }

  /** The whole pass. */
  lemma {:induction false} PassResult(mode: Mode, p: Parent)
    requires Sound(p) && p.dispatch.Some? && p.dispatch.value.cancelRequested
    ensures var d := p.dispatch.value;
      var t := Pass(Trace(p, [], []), Keys(d.children), mode);
      && t.parent == WithChildren(p, PassedUpTo(mode, d.children, |d.children|))
      && t.calls == Called(mode, d.children, |d.children|)
  {
    var d := p.dispatch.value;
    PassExact(mode, p, |d.children|);
    assert Keys(d.children)[..|d.children|] == Keys(d.children);
  }

  /** The same child, live and after a restart. */
  lemma {:induction false} RestartDiffersFromLive(agents: Registry, c: Child)
    requires c.status == ChildCompleted && !c.acked && c.job.Some? && TrustedCancel(agents, c).Call?
    ensures Decide(Live(agents), c) == AckOnly && Decide(Restart(Some(agents)), c).Call?
  {}

  // ---- the parent ends only when its children have ----

  /** Runs of operations on one parent; an operation whose write fails changes nothing. */
  function Life(p: Parent, ops: seq<(Op, bool)>): Parent
    decreases |ops|
  {
    if ops == [] then p else Life(After(p, ops[0].0, ops[0].1), ops[1..])
  }

  /** Everything settled stays settled over any life. */
  lemma {:induction false} LifeKeeps(p: Parent, ops: seq<(Op, bool)>)
    requires Sound(p)
    ensures Sound(Life(p, ops)) && Later(p, Life(p, ops))
    decreases |ops|
  {
    if p.dispatch.Some? { LaterSelf(p.dispatch.value.children); }
    if ops != [] {
      var q := After(p, ops[0].0, ops[0].1);
      if ops[0].1 && Apply(p, ops[0].0).Ok? { ApplyKeeps(p, ops[0].0); }
      LifeKeeps(q, ops[1..]);
      if p.dispatch.Some? {
        LaterTransitive(p.dispatch.value.children, q.dispatch.value.children, Life(q, ops[1..]).dispatch.value.children);
      }
    }
  }

  /** A parent with a dispatch is canceled only through it. */
  predicate CanceledThroughDispatch(p: Parent) {
    p.status == Canceled && p.dispatch.Some? ==> p.dispatch.value.status == AllCanceled
  }

  predicate RawCancel(p: Parent, op: Op) { op == Transition(Canceled) && p.dispatch.Some? && !TaskTerminal(p.status) }

  /** The store lets a raw cancelTask end a dispatched parent; an operation breaks the rule
    * exactly if it is one that takes. */
  lemma {:induction false} CancelRuleExact(p: Parent, op: Op)
    requires Sound(p) && CanceledThroughDispatch(p) && Apply(p, op).Ok?
    ensures CanceledThroughDispatch(Apply(p, op).value) <==> !RawCancel(p, op)
  {
    ApplyKeeps(p, op);
  }

  predicate NoRawCancel(p: Parent, ops: seq<(Op, bool)>)
    decreases |ops|
  {
    ops != [] ==> !(ops[0].1 && RawCancel(p, ops[0].0)) && NoRawCancel(After(p, ops[0].0, ops[0].1), ops[1..])
  }

  /** In every life without a raw cancel of a dispatched parent, with any failed writes and
    * restarts between the operations, a parent with children is canceled only when every
    * child is terminal. */
  lemma {:induction false} CanceledOnlyWhenSettled(p: Parent, ops: seq<(Op, bool)>)
    requires Sound(p) && CanceledThroughDispatch(p) && NoRawCancel(p, ops)
    ensures var q := Life(p, ops); q.status == Canceled && q.dispatch.Some? ==> AllTerminal(q.dispatch.value)
    decreases |ops|
  {
    if ops != [] {
      if ops[0].1 && Apply(p, ops[0].0).Ok? {
        ApplyKeeps(p, ops[0].0);
        CancelRuleExact(p, ops[0].0);
      }
      CanceledOnlyWhenSettled(After(p, ops[0].0, ops[0].1), ops[1..]);
    }
  }

  /** A canceled parent with a child still working: one raw cancel is enough. */
  lemma {:induction false} RawCancelLeavesChildrenRunning(plan: Plan)
    requires ValidPlans([plan])
    ensures var p := Life(Parent(Submitted, None), [(CreateDispatch("f", [plan]), true), (Transition(Canceled), true)]);
      p.status == Canceled && p.dispatch.Some? && !AllTerminal(p.dispatch.value)
  {
    var ops := [(CreateDispatch("f", [plan]), true), (Transition(Canceled), true)];
    assert ops[1..] == [(Transition(Canceled), true)] && ops[1..][1..] == [];
    var p1 := After(Parent(Submitted, None), ops[0].0, true);
    assert p1.status == Working && p1.dispatch.value.children[0].status == ChildPending;
    assert Life(p1, ops[1..]) == p1.(status := Canceled);
  }

  // ---- the store and the cancellations as the source runs them ----

  class A2AStore {
    var parents: map<string, Parent>
    var file: map<string, Parent>

    ghost predicate Valid()
      reads this
    {
      file == parents && forall id :: id in parents ==> Sound(parents[id])
    }

    constructor ()
      ensures Valid() && parents == map[]
    {
      parents, file := map[], map[];
    }

    /** enqueueMutation: applied, validated, written; taken back if any of it fails. */
    method Mutate(id: string, op: Op, writable: bool) returns (r: Result<Parent, Fault>)
      requires Valid() && id in parents
      modifies this
      ensures Valid() && parents.Keys == old(parents).Keys
      ensures parents == old(parents)[id := After(old(parents)[id], op, writable)]
      ensures r == match Apply(old(parents)[id], op)
                   case Err(e) => Err(e)
                   case Ok(p) => if writable then Ok(p) else Err(WriteFailed)
      ensures writable ==> A2AContracts.OpDoes(old(parents)[id], op, r)
      ensures r.Ok? ==> parents[id] == r.value && file == parents
      ensures r.Err? ==> parents == old(parents) && file == old(file)
      ensures Later(old(parents)[id], parents[id])
    {
      A2AContracts.AppliesSo(parents[id], op);
      hide A2AContracts.OpDoes;
      LaterParent(parents[id]);
      var previous := parents;
      match Apply(parents[id], op) {
        case Err(e) =>
          assert parents[id := parents[id]] == parents;
          return Err(e);
        case Ok(p) =>
          ApplyKeeps(parents[id], op);
          parents := parents[id := p];
          if !writable {
            parents := previous;
            assert parents[id := parents[id]] == parents;
            return Err(WriteFailed);
          }
          file := parents;
          return Ok(p);
      }
    }

    /** One child of a pass. */
    method CancelPersistedChild(id: string, key: string, mode: Mode) returns (call: bool, report: Option<Reason>)
      requires Valid() && id in parents
      modifies this
      ensures Valid() && parents.Keys == old(parents).Keys
      ensures MoveOne(old(parents)[id], key, mode) == Move(parents[id], call, report)
      ensures parents == old(parents)[id := parents[id]]
      ensures Later(old(parents)[id], parents[id])
    {
      LaterParent(parents[id]);
      call, report := false, None;
      assert parents[id := parents[id]] == parents;
      if parents[id].dispatch.None? { return; }
      var d := parents[id].dispatch.value;
      var i := Find(d.children, key);
      if i == |d.children| { return; }
      var step := Decide(mode, d.children[i]);
      call := step.Call?;
      report := if step.Report? then Some(step.reason) else if step == Call(false) then Some(CancellationFailed) else None;
      hide Apply, Decide, Later, Sound;
      if Acks(step) { var acked := Mutate(id, Acknowledge(key), true); }
    }

    /** One pass over the children of a dispatch whose cancellation is on file; every write succeeds. */
    method CancelPersistedChildren(id: string, mode: Mode) returns (calls: seq<string>, reports: seq<(string, Reason)>)
      requires Valid() && id in parents && parents[id].dispatch.Some?
      modifies this
      ensures Valid() && parents.Keys == old(parents).Keys
      ensures var t := Pass(Trace(old(parents)[id], [], []), Keys(old(parents)[id].dispatch.value.children), mode);
        parents == old(parents)[id := t.parent] && calls == t.calls && reports == t.reports
    {
      ghost var start, before := parents[id], parents;
      var keys := Keys(parents[id].dispatch.value.children);
      calls, reports := [], [];
      assert parents[id := parents[id]] == parents;
      hide MoveOne, A2AStore.Valid, Later, Pass, Keys;
      ghost var p := start;
      hide PassOne;
      for n := 0 to |keys|
        invariant Valid() && id in parents && parents == before[id := p]
        invariant Trace(p, calls, reports) == Pass(Trace(start, [], []), keys[..n], mode)
      {
        PassStep(Trace(start, [], []), keys, n, mode);
        var call, report := CancelPersistedChild(id, keys[n], mode);
        PutTwice(before, id, p, parents[id]);
        p := parents[id];
        calls := if call then calls + [keys[n]] else calls;
        reports := if report.Some? then reports + [(keys[n], report.value)] else reports;
      }
      assert keys[..|keys|] == keys;
    }

    /** After a pass: the parent ends canceled exactly if every child has ended. */
    method FinalizeIfSettled(id: string) returns (r: Result<Parent, Fault>)
      requires Valid() && id in parents && parents[id].dispatch.Some?
      modifies this
      ensures Valid() && parents.Keys == old(parents).Keys
      ensures parents == old(parents)[id := Settled(old(parents)[id])]
      ensures r.Ok? && !DispatchTerminal(old(parents)[id].dispatch.value.status) && !TaskTerminal(old(parents)[id].status) ==>
        (parents[id].status == Canceled <==> AllTerminal(old(parents)[id].dispatch.value))
    {
      assert parents[id := parents[id]] == parents;
      if !AllTerminal(parents[id].dispatch.value) { return Ok(parents[id]); }
      r := Mutate(id, Finalize(AllCanceled, []), true);
    }

    /** cancelDispatch, undisturbed and with no run to abort: nothing at all if the children are
      * cancelled already or the intent cannot be put on file; otherwise the calls and the end are
      * those of one pass. */
    method CancelDispatch(id: string, agents: Registry, writable: bool) returns (r: Result<Parent, Fault>, calls: seq<string>)
      requires Valid() && id in parents && parents[id].dispatch.Some?
      modifies this
      ensures Valid() && parents.Keys == old(parents).Keys
      ensures var p := old(parents)[id];
        var q := Apply(p, RequestCancel);
        if p.dispatch.value.status == AllCanceled || q.Err? || !writable then parents == old(parents) && calls == []
        else
          && q.value.dispatch.Some? && Requested(file[id]) && parents == old(parents)[id := Cancelled(q.value, Live(agents))]
          && calls == Called(Live(agents), q.value.dispatch.value.children, |q.value.dispatch.value.children|)
    {
      calls := [];
      assert parents[id := parents[id]] == parents;
      if parents[id].dispatch.value.status == AllCanceled { return Ok(parents[id]), calls; }
      ghost var start, before := parents[id], parents;
      var requested := Mutate(id, RequestCancel, writable);
      if requested.Err? { return Err(requested.error), calls; }
      RequestKept(start);
      hide Apply, Sound, Later, Cancelled;
      PutTwice(before, id, parents[id], Cancelled(parents[id], Live(agents)));
      r, calls := CancelRequested(id, Live(agents));
    }

    /** The pass and the end of the parent, once the intent is on file. */
    method CancelRequested(id: string, mode: Mode) returns (r: Result<Parent, Fault>, calls: seq<string>)
      requires Valid() && id in parents && Requested(parents[id])
      modifies this
      ensures Valid() && parents.Keys == old(parents).Keys
      ensures parents == old(parents)[id := Cancelled(old(parents)[id], mode)] && Requested(parents[id])
      ensures var d := old(parents)[id].dispatch.value; calls == Called(mode, d.children, |d.children|)
    {
      ghost var start, before := parents[id], parents;
      var reports;
      PassResult(mode, start);
      calls, reports := CancelPersistedChildren(id, mode);
      PassKeepsIntent(start, mode);
      hide Pass, Settled, Cancelled, A2AStore.Valid, Keys, Called, PassedUpTo, Sound;
      ghost var passed := parents[id];
      SettledKeepsIntent(passed);
      r := FinalizeIfSettled(id);
      PutTwice(before, id, passed, Settled(passed));
    }

    /** One child of a resumption: its recovered job, recorded. */
    method ResumeChild(id: string, key: string, rs: A2AResuming.Recoveries, results: set<string>) returns (found: set<string>, thrown: bool)
      requires Valid() && id in parents
      modifies this
      ensures Valid() && parents.Keys == old(parents).Keys && parents == old(parents)[id := parents[id]]
      ensures A2AResuming.Resumption(parents[id], found, thrown)
           == A2AResuming.ResumeChild(A2AResuming.Resumption(old(parents)[id], results, false), key, rs)
    {
      found, thrown := results, false;
      assert parents[id := parents[id]] == parents;
      if parents[id].dispatch.None? { return; }
      var d := parents[id].dispatch.value;
      var i := Find(d.children, key);
      if i == |d.children| { return; }
      hide Apply, Sound, Later;
      match A2AResuming.Wanted(d.children[i], rs) {
        case Lost =>
        case Thrown => thrown := true;
        case Ended(status, readable) =>
          if status == ChildCompleted && !readable {
            thrown := true;
          } else {
            var r := Mutate(id, Record(Outcome(key, status, d.children[i].job)), true);
            thrown := r.Err?;
            if r.Ok? && status == ChildCompleted { found := results + {key}; }
          }
      }
    }

    /** resumeDispatch and the end it leads to. */
    method Resume(id: string, rs: A2AResuming.Recoveries)
      requires Valid() && id in parents && parents[id].dispatch.Some?
      modifies this
      ensures Valid() && parents.Keys == old(parents).Keys
      ensures parents == old(parents)[id := A2AResuming.Resumed(old(parents)[id], rs)]
    {
      ghost var start, before := parents[id], parents;
      ghost var from := A2AResuming.Resumption(start, {}, false);
      assert parents[id := parents[id]] == parents;
      hide Apply, Sound, Later, A2AStore.Valid, A2AResuming.ResumeChild, A2AResuming.EndOf;
      var keys := A2AResuming.KeysOf(parents[id].dispatch.value.children);
      var results, thrown := {}, false;
      for n := 0 to |keys|
        invariant Valid() && id in parents && parents == before[id := parents[id]]
        invariant A2AResuming.Resumption(parents[id], results, thrown) == A2AResuming.ResumeAll(from, keys[..n], rs)
      {
        A2AResuming.ResumeNext(from, keys, n, rs);
        A2AResuming.StaysThrown(A2AResuming.ResumeAll(from, keys[..n], rs), keys[n], rs);
        if !thrown {
          ghost var p := parents[id];
          results, thrown := ResumeChild(id, keys[n], rs, results);
          PutTwice(before, id, p, parents[id]);
        }
      }
      assert keys[..|keys|] == keys;
      if !thrown && parents[id].dispatch.Some? {
        var end := A2AResuming.EndOf(parents[id].dispatch.value, results);
        if end.Some? {
          ghost var p := parents[id];
          var r := Mutate(id, Finalize(end.value, []), true);
          PutTwice(before, id, p, parents[id]);
        }
      }
    }
  }

  /** An accepted request leaves a dispatch with the intent on it, unless its children are cancelled already. */
  lemma {:induction false} RequestKept(p: Parent)
    requires p.dispatch.Some? && p.dispatch.value.status != AllCanceled && Apply(p, RequestCancel).Ok?
    ensures Requested(Apply(p, RequestCancel).value)
  {}

  lemma {:induction false} PutTwice(m: map<string, Parent>, id: string, p: Parent, q: Parent)
    ensures m[id := p][id := q] == m[id := q]
  {}


  // ---- restart ----

  class Reconciler {
    const store: A2AStore

    constructor (store: A2AStore)
      ensures this.store == store
    {
      this.store := store;
    }

    /** Every recoverable dispatch gets its turn, whatever happens to the others: a canceling one its pass, any
      * other one is resumed with its recovered jobs; and only then are the ones that did not end reported. */
    method ReconcileRecoverableDispatches(ids: seq<string>, handler: Option<Registry>, recovered: map<string, A2AResuming.Recoveries>)
      returns (unreconciled: set<string>)
      requires store.Valid()
      requires forall i :: 0 <= i < |ids| ==> ids[i] in store.parents && store.parents[ids[i]].dispatch.Some?
      requires forall i, j :: 0 <= i < j < |ids| ==> ids[i] != ids[j]
      modifies store
      ensures store.Valid() && store.parents.Keys == old(store.parents).Keys
      ensures forall k :: k in store.parents ==>
        store.parents[k] == if k in ids then Reconciled(old(store.parents)[k], handler, RecoveredFor(recovered, k)) else old(store.parents)[k]
      ensures forall k :: k in unreconciled <==> k in ids && !HasEnded(store.parents[k])
    {
      unreconciled := {};
      hide Cancelled, A2AStore.Valid, HasEnded, A2AResuming.Resumed;
      for n := 0 to |ids|
        invariant store.Valid() && store.parents.Keys == old(store.parents).Keys
        invariant forall k :: k in store.parents ==>
          store.parents[k] == if k in ids[..n] then Reconciled(old(store.parents)[k], handler, RecoveredFor(recovered, k)) else old(store.parents)[k]
        invariant forall k :: k in unreconciled <==> k in ids[..n] && !HasEnded(store.parents[k])
      {
        var id := ids[n];
        assert id !in ids[..n];
        if Requested(store.parents[id]) {
          var r, calls := store.CancelRequested(id, Restart(handler));
        } else {
          store.Resume(id, RecoveredFor(recovered, id));
        }
        if !HasEnded(store.parents[id]) { unreconciled := unreconciled + {id}; }
        assert ids[..n + 1] == ids[..n] + [id];
      }
      assert ids[..|ids|] == ids;
    }
  }

  function RecoveredFor(recovered: map<string, A2AResuming.Recoveries>, id: string): A2AResuming.Recoveries {
    if id in recovered then recovered[id] else map[]
  }

  /** What a restart does to one dispatched parent. */
  function Reconciled(p: Parent, handler: Option<Registry>, rs: A2AResuming.Recoveries): Parent
    requires p.dispatch.Some?
  {
    if Requested(p) then Cancelled(p, Restart(handler)) else A2AResuming.Resumed(p, rs)
  }

  predicate HasEnded(p: Parent) { p.dispatch.Some? && DispatchTerminal(p.dispatch.value.status) }

  predicate Requested(p: Parent) { p.dispatch.Some? && p.dispatch.value.cancelRequested }

  function Settled(p: Parent): Parent
    requires p.dispatch.Some?
  {
    if AllTerminal(p.dispatch.value) then After(p, Finalize(AllCanceled, []), true) else p
  }

  /** One pass and the end of the parent, from a dispatch whose cancellation is on file. */
  function Cancelled(p: Parent, mode: Mode): Parent
    requires p.dispatch.Some?
  {
    var t := Pass(Trace(p, [], []), Keys(p.dispatch.value.children), mode);
    if t.parent.dispatch.Some? then Settled(t.parent) else t.parent
  }



  lemma {:induction false} SettledKeepsIntent(p: Parent)
    requires Requested(p)
    ensures Requested(Settled(p))
  {}


  lemma {:induction false} PassKeeps(t: Trace, keys: seq<string>, mode: Mode)
    requires t.parent.dispatch.Some?
    ensures var u := Pass(t, keys, mode);
      && u.parent.dispatch.Some? && u.parent.dispatch.value.cancelRequested == t.parent.dispatch.value.cancelRequested
      && u.parent.status == t.parent.status && u.parent.dispatch.value.status == t.parent.dispatch.value.status
    decreases |keys|
  {
    if keys != [] {
      PassKeeps(t, keys[..|keys| - 1], mode);
    }
  }

  lemma {:induction false} PassKeepsIntent(p: Parent, mode: Mode)
    requires p.dispatch.Some?
    ensures var t := Pass(Trace(p, [], []), Keys(p.dispatch.value.children), mode);
      && t.parent.dispatch.Some? && t.parent.dispatch.value.cancelRequested == p.dispatch.value.cancelRequested
  {
    PassKeeps(Trace(p, [], []), Keys(p.dispatch.value.children), mode);
  }

  lemma {:induction false} LaterParent(p: Parent)
    ensures Later(p, p)
  {
    if p.dispatch.Some? { LaterSelf(p.dispatch.value.children); }
  }

  /** Finished, or acknowledged by a pass of its own. */
  predicate CanEnd(mode: Mode, c: Child) { ChildTerminal(c.status) || Acks(Decide(mode, c)) }
}
