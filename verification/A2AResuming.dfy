/** Resuming after a restart a dispatch that nobody cancelled: what each child's recovered job does to
  * it, and whether the parent ends. */
module A2AResuming {
  import opened Prelude
  import opened A2ADispatch
  import opened A2AContracts

  /** What recovering a child's job gives: nothing, an exception, or how it ended and whether a
    * result can be read. */
  datatype Recovered = Lost | Thrown | Ended(status: ChildStatus, readable: bool)

  type Recoveries = map<string, Recovered>

  function Recovery(rs: Recoveries, key: string): Recovered { if key in rs then rs[key] else Lost }

  /** The children's results recovered so far, and whether the resumption has broken off. */
  datatype Resumption = Resumption(parent: Parent, results: set<string>, thrown: bool)

  /** A failed or canceled child, and one without a job, is passed over. */
  function Wanted(c: Child, rs: Recoveries): Recovered {
    if c.status == ChildFailed || c.status == ChildCanceled || c.job.None? then Lost else Recovery(rs, c.plan.key)
  }

  function ResumeChild(r: Resumption, key: string, rs: Recoveries): Resumption {
    if r.thrown || r.parent.dispatch.None? then r
    else
      var d := r.parent.dispatch.value;
      var i := Find(d.children, key);
      if i == |d.children| then r
      else
        match Wanted(d.children[i], rs)
        case Lost => r
        case Thrown => r.(thrown := true)
        case Ended(status, readable) =>
          if status == ChildCompleted && !readable then r.(thrown := true)
          else
            match Apply(r.parent, Record(Outcome(key, status, d.children[i].job)))
            case Err(_) => r.(thrown := true)
            case Ok(p) => Resumption(p, if status == ChildCompleted then r.results + {key} else r.results, false)
  }

  function ResumeAll(r: Resumption, keys: seq<string>, rs: Recoveries): Resumption
    decreases |keys|
  {
    if keys == [] then r else ResumeChild(ResumeAll(r, keys[..|keys| - 1], rs), keys[|keys| - 1], rs)
  }

  lemma {:induction false} ResumeNext(r: Resumption, keys: seq<string>, n: nat, rs: Recoveries)
    requires n < |keys|
    ensures ResumeAll(r, keys[..n + 1], rs) == ResumeChild(ResumeAll(r, keys[..n], rs), keys[n], rs)
  {
    assert keys[..n + 1][..n] == keys[..n];
  }

  function KeysOf(children: seq<Child>): (r: seq<string>)
    ensures |r| == |children| && forall i :: 0 <= i < |children| ==> r[i] == children[i].plan.key
  {
    seq(|children|, i requires 0 <= i < |children| => children[i].plan.key)
  }

  /** The end a dispatch with these children comes to, if it does: a completed one needs every result. */
  function EndOf(d: Dispatch, results: set<string>): (r: Option<DispatchStatus>)
    ensures r.Some? ==> DispatchTerminal(r.value)
  {
    if !AllTerminal(d) then None
    else if !AllSucceeded(d) then Some(SomeFailed)
    else if forall i :: 0 <= i < |d.children| ==> d.children[i].job.Some? && d.children[i].plan.key in results then Some(AllCompleted)
    else None
  }

  function Concluded(r: Resumption): Parent {
    if r.thrown || r.parent.dispatch.None? then r.parent
    else
      var end := EndOf(r.parent.dispatch.value, r.results);
      if end.None? then r.parent
      else match Apply(r.parent, Finalize(end.value, [])) case Ok(p) => p case Err(_) => r.parent
  }

  function Resumed(p: Parent, rs: Recoveries): Parent {
    if p.dispatch.None? then p
    else Concluded(ResumeAll(Resumption(p, {}, false), KeysOf(p.dispatch.value.children), rs))
  }

  // ---- child by child ----

  /** The recovered job breaks the resumption off: it throws, completed without a result, or
    * contradicts a completed child. */
  predicate Breaks(c: Child, rs: Recoveries) {
    match Wanted(c, rs)
    case Lost => false
    case Thrown => true
    case Ended(status, readable) =>
      (status == ChildCompleted && !readable) || !ChildTerminal(status) || (c.status == ChildCompleted && status != ChildCompleted)
  }

  function AfterResume(c: Child, rs: Recoveries): Child {
    var w := Wanted(c, rs);
    if w.Ended? && !ChildTerminal(c.status) then c.(status := w.status) else c
  }

  predicate ResultIn(c: Child, rs: Recoveries) { Wanted(c, rs).Ended? && Wanted(c, rs).status == ChildCompleted }

  function UpTo(children: seq<Child>, rs: Recoveries, n: nat): (r: seq<Child>)
    requires n <= |children|
    ensures |r| == |children|
    ensures forall i :: 0 <= i < |children| ==> r[i] == if i < n then AfterResume(children[i], rs) else children[i]
  {
    seq(|children|, i requires 0 <= i < |children| => if i < n then AfterResume(children[i], rs) else children[i])
  }

  function ResultsUpTo(children: seq<Child>, rs: Recoveries, n: nat): set<string>
    requires n <= |children|
  {
    set i | 0 <= i < n && ResultIn(children[i], rs) :: children[i].plan.key
  }

  lemma {:induction false} FoundAt(children: seq<Child>, i: nat)
    requires ValidChildren(children) && i < |children|
    ensures Find(children, children[i].plan.key) == i
  {}

  /** What a resumption has done after n children, if none broke it off. */
  predicate Reached(p: Parent, rs: Recoveries, n: nat, r: Resumption)
    requires p.dispatch.Some? && n <= |p.dispatch.value.children|
  {
    var d := p.dispatch.value;
    && !r.thrown && r.parent.dispatch.Some? && r.parent.status == p.status
    && r.results == ResultsUpTo(d.children, rs, n)
    && r.parent.dispatch.value.children == UpTo(d.children, rs, n)
    && r.parent.dispatch.value.cancelRequested == d.cancelRequested
    && (DispatchTerminal(r.parent.dispatch.value.status) <==> DispatchTerminal(d.status))
  }

  lemma {:induction false} UpToValid(children: seq<Child>, rs: Recoveries, n: nat)
    requires ValidChildren(children) && n <= |children|
    ensures ValidChildren(UpTo(children, rs, n))
  {
    var after := UpTo(children, rs, n);
    hide AfterResume;
    assert forall i :: 0 <= i < |children| ==> after[i].plan == children[i].plan by { PlansStay(children, rs, n); }
  }

  lemma {:induction false} PlansStay(children: seq<Child>, rs: Recoveries, n: nat)
    requires n <= |children|
    ensures forall i :: 0 <= i < |children| ==> UpTo(children, rs, n)[i].plan == children[i].plan
  {}

  lemma {:induction false} UpToNext(children: seq<Child>, rs: Recoveries, n: nat)
    requires n < |children|
    ensures UpTo(children, rs, n)[n] == children[n]
    ensures UpTo(children, rs, n + 1) == UpTo(children, rs, n)[n := AfterResume(children[n], rs)]
    ensures ResultsUpTo(children, rs, n + 1)
         == if ResultIn(children[n], rs) then ResultsUpTo(children, rs, n) + {children[n].plan.key} else ResultsUpTo(children, rs, n)
  {
    hide AfterResume, ResultIn;
  }

  lemma {:induction false} RecordChild(p: Parent, n: nat, status: ChildStatus)
    requires p.dispatch.Some? && ValidChildren(p.dispatch.value.children) && n < |p.dispatch.value.children|
    requires p.dispatch.value.children[n].job.Some?
    ensures var d, c := p.dispatch.value, p.dispatch.value.children[n];
      var q := Apply(p, Record(Outcome(c.plan.key, status, c.job)));
      && (q.Ok? <==> ChildTerminal(status) && (ChildTerminal(c.status) ==> status == c.status))
      && (q.Ok? ==>
            && q.value.dispatch.Some? && q.value.status == p.status
            && q.value.dispatch.value.children == d.children[n := if ChildTerminal(c.status) then c else c.(status := status)]
            && q.value.dispatch.value.cancelRequested == d.cancelRequested
            && (DispatchTerminal(q.value.dispatch.value.status) <==> DispatchTerminal(d.status)))
  {
    FoundAt(p.dispatch.value.children, n);
  }

  lemma {:induction false} ChildResumed(p: Parent, rs: Recoveries, n: nat, r: Resumption)
    requires p.dispatch.Some? && ValidChildren(p.dispatch.value.children) && n < |p.dispatch.value.children| && Reached(p, rs, n, r)
    ensures var c, t := p.dispatch.value.children[n], ResumeChild(r, p.dispatch.value.children[n].plan.key, rs);
      if Breaks(c, rs) then t == r.(thrown := true) else Reached(p, rs, n + 1, t)
  {
    var children := p.dispatch.value.children;
    UpToNext(children, rs, n);
    UpToValid(children, rs, n);
    FoundAt(UpTo(children, rs, n), n);
    var c := children[n];
    var w := Wanted(c, rs);
    if w.Ended? { RecordChild(r.parent, n, w.status); }
    hide Apply, UpTo, ResultsUpTo, ValidChildren;
    if !w.Ended? || ChildTerminal(c.status) { assert UpTo(children, rs, n)[n := c] == UpTo(children, rs, n); }
  }

  /** No child breaks it off. */
  predicate Unbroken(children: seq<Child>, rs: Recoveries) { forall i :: 0 <= i < |children| ==> !Breaks(children[i], rs) }

  lemma {:induction false} ReachedNone(p: Parent, rs: Recoveries)
    requires p.dispatch.Some?
    ensures Reached(p, rs, 0, Resumption(p, {}, false))
  {
    assert UpTo(p.dispatch.value.children, rs, 0) == p.dispatch.value.children;
  }

  lemma {:induction false} KeysPrefix(children: seq<Child>, n: nat)
    requires 0 < n <= |children|
    ensures KeysOf(children)[..n][..n - 1] == KeysOf(children)[..n - 1] && KeysOf(children)[..n][n - 1] == children[n - 1].plan.key
  {}

  lemma {:induction false} ResumeReaches(p: Parent, rs: Recoveries, n: nat)
    requires p.dispatch.Some? && ValidChildren(p.dispatch.value.children) && n <= |p.dispatch.value.children|
    ensures var r := ResumeAll(Resumption(p, {}, false), KeysOf(p.dispatch.value.children)[..n], rs);
      if forall i :: 0 <= i < n ==> !Breaks(p.dispatch.value.children[i], rs) then Reached(p, rs, n, r) else r.thrown
    decreases n
  {
    hide Breaks, Reached, ResumeChild, UpTo, KeysOf, ValidChildren;
    var children := p.dispatch.value.children;
    var keys := KeysOf(children)[..n];
    if n == 0 {
      ReachedNone(p, rs);
    } else {
      KeysPrefix(children, n);
      ResumeReaches(p, rs, n - 1);
      var r := ResumeAll(Resumption(p, {}, false), keys[..n - 1], rs);
      assert ResumeAll(Resumption(p, {}, false), keys, rs) == ResumeChild(r, children[n - 1].plan.key, rs);
      if forall i :: 0 <= i < n - 1 ==> !Breaks(children[i], rs) {
        ChildResumed(p, rs, n - 1, r);
      } else {
        StaysThrown(r, children[n - 1].plan.key, rs);
      }
    }
  }

  lemma {:induction false} StaysThrown(r: Resumption, key: string, rs: Recoveries)
    ensures r.thrown ==> ResumeChild(r, key, rs) == r
  {}

  // ---- whether the parent ends ----

  /** Every child has ended once its recovered job is recorded. */
  predicate AllEnd(children: seq<Child>, rs: Recoveries) { forall i :: 0 <= i < |children| ==> ChildTerminal(AfterResume(children[i], rs).status) }

  predicate AllComplete(children: seq<Child>, rs: Recoveries) { forall i :: 0 <= i < |children| ==> AfterResume(children[i], rs).status == ChildCompleted }

  predicate AllResults(children: seq<Child>, rs: Recoveries) { forall i :: 0 <= i < |children| ==> ResultIn(children[i], rs) }

  lemma {:induction false} ResultsExact(children: seq<Child>, rs: Recoveries, i: nat)
    requires ValidChildren(children) && i < |children|
    ensures children[i].plan.key in ResultsUpTo(children, rs, |children|) <==> ResultIn(children[i], rs)
  {
    hide ResultIn;
    if children[i].plan.key in ResultsUpTo(children, rs, |children|) {
      var j :| 0 <= j < |children| && ResultIn(children[j], rs) && children[j].plan.key == children[i].plan.key;
    }
  }

  lemma {:induction false} EndExact(p: Parent, rs: Recoveries, r: Resumption)
    requires p.dispatch.Some? && ValidChildren(p.dispatch.value.children) && Reached(p, rs, |p.dispatch.value.children|, r)
    ensures var cs := p.dispatch.value.children;
      EndOf(r.parent.dispatch.value, r.results) ==
        if !AllEnd(cs, rs) then None else if !AllComplete(cs, rs) then Some(SomeFailed) else if AllResults(cs, rs) then Some(AllCompleted) else None
  {
    var cs, d := p.dispatch.value.children, r.parent.dispatch.value;
    forall i | 0 <= i < |cs|
      ensures d.children[i] == AfterResume(cs[i], rs) && d.children[i].plan == cs[i].plan && d.children[i].job == cs[i].job
      ensures cs[i].plan.key in r.results <==> ResultIn(cs[i], rs)
      ensures ResultIn(cs[i], rs) ==> cs[i].job.Some?
    {
      ResultsExact(cs, rs, i);
    }
    assert |d.children| == |cs|;
    hide AfterResume, ResultIn, Reached, ValidChildren;
    if AllEnd(cs, rs) && AllComplete(cs, rs) {
      assert AllTerminal(d) && AllSucceeded(d);
      if AllResults(cs, rs) {
        assert forall i :: 0 <= i < |d.children| ==> d.children[i].job.Some? && d.children[i].plan.key in r.results;
      } else {
        var i :| 0 <= i < |cs| && !ResultIn(cs[i], rs);
        assert d.children[i].plan.key !in r.results;
      }
    } else if AllEnd(cs, rs) {
      var i :| 0 <= i < |cs| && AfterResume(cs[i], rs).status != ChildCompleted;
      assert d.children[i].status != ChildCompleted;
    } else {
      var i :| 0 <= i < |cs| && !ChildTerminal(AfterResume(cs[i], rs).status);
      assert !ChildTerminal(d.children[i].status);
    }
  }

  lemma {:induction false} FinalizeExact(p: Parent, status: DispatchStatus)
    requires p.dispatch.Some? && DispatchTerminal(status) && AllTerminal(p.dispatch.value)
    requires status == AllCompleted ==> AllSucceeded(p.dispatch.value)
    ensures Apply(p, Finalize(status, [])) ==
      if Allowed(p.status, TaskStatusOf(status)) then Ok(Parent(TaskStatusOf(status), Some(p.dispatch.value.(status := status)))) else Err(TerminalImmutable)
  {}

  lemma {:induction false} ReachedStatus(p: Parent, rs: Recoveries, r: Resumption)
    requires p.dispatch.Some? && Reached(p, rs, |p.dispatch.value.children|, r)
    ensures !r.thrown && r.parent.dispatch.Some? && r.parent.status == p.status
  {}

  lemma {:induction false} ConcludesExactly(r: Resumption)
    requires !r.thrown && r.parent.dispatch.Some?
    ensures var end := EndOf(r.parent.dispatch.value, r.results);
      Concluded(r) ==
        if end.Some? && Allowed(r.parent.status, TaskStatusOf(end.value))
        then Parent(TaskStatusOf(end.value), Some(r.parent.dispatch.value.(status := end.value))) else r.parent
  {
    var end := EndOf(r.parent.dispatch.value, r.results);
    if end.Some? { FinalizeExact(r.parent, end.value); }
    hide Apply;
  }

  /** The end that a resumption comes to, by what can be recovered. */
  function EndWith(p: Parent, rs: Recoveries): Option<DispatchStatus>
    requires p.dispatch.Some?
  {
    var cs := p.dispatch.value.children;
    if !Unbroken(cs, rs) || !AllEnd(cs, rs) then None
    else if !AllComplete(cs, rs) then (if Allowed(p.status, Failed) then Some(SomeFailed) else None)
    else if AllResults(cs, rs) && Allowed(p.status, Completed) then Some(AllCompleted)
    else None
  }

  /** A resumed dispatch ends exactly if no recovered job breaks it off, every child ends, and either
    * one of them did not complete or every result was recovered: failed in the one case, completed in
    * the other, and its parent with it. Else it is left for the next start. */
  lemma {:induction false} ResumedExactly(p: Parent, rs: Recoveries)
    requires Sound(p) && p.dispatch.Some? && !DispatchTerminal(p.dispatch.value.status)
    ensures var t, end := Resumed(p, rs), EndWith(p, rs);
      && t.dispatch.Some?
      && (DispatchTerminal(t.dispatch.value.status) <==> end.Some?)
      && (end.Some? ==> t.dispatch.value.status == end.value && t.status == TaskStatusOf(end.value))
  {
    var cs := p.dispatch.value.children;
    var r := ResumeAll(Resumption(p, {}, false), KeysOf(cs), rs);
    ResumeReaches(p, rs, |cs|);
    assert KeysOf(cs)[..|cs|] == KeysOf(cs);
    ResumeOpen(p, rs, KeysOf(cs));
    if Unbroken(cs, rs) {
      EndExact(p, rs, r);
      ReachedStatus(p, rs, r);
      ConcludesExactly(r);
    }
    hide Breaks, ResumeAll, Apply, UpTo, ResultsUpTo, AllEnd, AllComplete, AllResults, ValidChildren, LaterChildren, EndOf, Reached, SoundDispatch;
  }

  /** Resuming children ends no dispatch. */
  lemma {:induction false} ResumeOpen(p: Parent, rs: Recoveries, keys: seq<string>)
    requires p.dispatch.Some? && !DispatchTerminal(p.dispatch.value.status)
    ensures var r := ResumeAll(Resumption(p, {}, false), keys, rs);
      r.parent.dispatch.Some? && !DispatchTerminal(r.parent.dispatch.value.status)
    decreases |keys|
  {
    if keys != [] {
      ResumeOpen(p, rs, keys[..|keys| - 1]);
      var r := ResumeAll(Resumption(p, {}, false), keys[..|keys| - 1], rs);
      hide ResumeAll;
      ChildOpen(r, keys[|keys| - 1], rs);
    }
  }

  lemma {:induction false} ChildOpen(r: Resumption, key: string, rs: Recoveries)
    requires r.parent.dispatch.Some? && !DispatchTerminal(r.parent.dispatch.value.status)
    ensures var t := ResumeChild(r, key, rs); t.parent.dispatch.Some? && !DispatchTerminal(t.parent.dispatch.value.status)
  {}

  // ---- the same, in the words of the data ----

  /** The job of a child that did not fail could be recovered, and has ended. */
  predicate Heard(c: Child, rs: Recoveries) {
    c.job.Some? && c.status != ChildFailed && c.status != ChildCanceled && c.plan.key in rs && rs[c.plan.key].Ended?
  }

  function EndsAs(c: Child, rs: Recoveries): ChildStatus {
    if !ChildEnded(c.status) && Heard(c, rs) then rs[c.plan.key].status else c.status
  }

  /** Its recovery throws, has no result to it, or says something else than is on file. */
  predicate BreaksOff(c: Child, rs: Recoveries) {
    || (c.job.Some? && c.status != ChildFailed && c.status != ChildCanceled && c.plan.key in rs && rs[c.plan.key].Thrown?)
    || (Heard(c, rs) && (!ChildEnded(rs[c.plan.key].status) || (rs[c.plan.key].status == ChildCompleted && !rs[c.plan.key].readable)
                         || (c.status == ChildCompleted && rs[c.plan.key].status != ChildCompleted)))
  }

  predicate Everyone(children: seq<Child>, rs: Recoveries, s: ChildStatus) { forall i :: 0 <= i < |children| ==> EndsAs(children[i], rs) == s }

  lemma {:induction false} ChildSo(c: Child, rs: Recoveries)
    ensures AfterResume(c, rs).status == EndsAs(c, rs) && (Breaks(c, rs) <==> BreaksOff(c, rs))
    ensures ResultIn(c, rs) <==> Heard(c, rs) && rs[c.plan.key].status == ChildCompleted
  {}

  /** A dispatch nobody cancelled, resumed: broken off, nothing ends. Else it fails with its parent
    * if every child has ended and not all completed, and completes with its parent if all did and
    * every job was heard. */
  lemma {:induction false} ResumedSo(p: Parent, rs: Recoveries)
    requires Sound(p) && p.dispatch.Some? && !DispatchEnded(p.dispatch.value.status)
    ensures var t, cs := Resumed(p, rs), p.dispatch.value.children;
      var broken := exists i :: 0 <= i < |cs| && BreaksOff(cs[i], rs);
      var over := forall i :: 0 <= i < |cs| ==> ChildEnded(EndsAs(cs[i], rs));
      && t.dispatch.Some?
      && (if !broken && over && !Everyone(cs, rs, ChildCompleted) && MayBecome(p.status, Failed)
          then t.dispatch.value.status == SomeFailed && t.status == Failed
          else if !broken && Everyone(cs, rs, ChildCompleted) && (forall i :: 0 <= i < |cs| ==> Heard(cs[i], rs)) && MayBecome(p.status, Completed)
          then t.dispatch.value.status == AllCompleted && t.status == Completed
          else !DispatchEnded(t.dispatch.value.status))
  {
    ResumedExactly(p, rs);
    EndSo(p, rs);
    hide Resumed, EndWith, Sound, Everyone, BreaksOff, EndsAs, Heard;
  }

  lemma {:induction false} EndSo(p: Parent, rs: Recoveries)
    requires p.dispatch.Some?
    ensures var cs := p.dispatch.value.children;
      var broken := exists i :: 0 <= i < |cs| && BreaksOff(cs[i], rs);
      var over := forall i :: 0 <= i < |cs| ==> ChildEnded(EndsAs(cs[i], rs));
      EndWith(p, rs) ==
        if !broken && over && !Everyone(cs, rs, ChildCompleted) && MayBecome(p.status, Failed) then Some(SomeFailed)
        else if !broken && Everyone(cs, rs, ChildCompleted) && (forall i :: 0 <= i < |cs| ==> Heard(cs[i], rs)) && MayBecome(p.status, Completed)
        then Some(AllCompleted)
        else None
  {
    var cs := p.dispatch.value.children;
    forall i | 0 <= i < |cs|
      ensures AfterResume(cs[i], rs).status == EndsAs(cs[i], rs) && (Breaks(cs[i], rs) <==> BreaksOff(cs[i], rs))
      ensures ResultIn(cs[i], rs) <==> Heard(cs[i], rs) && rs[cs[i].plan.key].status == ChildCompleted
      ensures EndsAs(cs[i], rs) == ChildCompleted && !BreaksOff(cs[i], rs) && Heard(cs[i], rs) ==> rs[cs[i].plan.key].status == ChildCompleted
    {
      ChildSo(cs[i], rs);
    }
    hide AfterResume, Breaks, BreaksOff, EndsAs, ResultIn, Heard;
  }
}
