/** Bounded merging of observed tool usage: the first terminal of an invocation wins. */
module ToolMerge {
  import opened Prelude

  const MAX_OBSERVED_AGENT_TOOLS: nat := 32

  datatype Category = Skill | Plugin | Mcp | Cli | Builtin

  datatype Status = InProgress | Completed | Failed | Declined

  datatype Execution = Execution(itemId: string, status: Status, detail: string)

  /** safe: category, name parts, timestamp and execution are all acceptable. */
  datatype Usage = Usage(category: Category, name: string, observedAt: int, execution: Option<Execution>, safe: bool)

  predicate Acceptable(u: Usage) { u.safe && (u.execution.Some? ==> u.category == Cli) }

  /** The entry an observation is about. */
  predicate Matches(entry: Usage, u: Usage) {
    && entry.category == u.category
    && (if u.execution.Some? then entry.execution.Some? && entry.execution.value.itemId == u.execution.value.itemId
        else entry.execution.None? && entry.name == u.name)
  }

  function IndexOf(merged: seq<Usage>, u: Usage): (i: nat)
    ensures i <= |merged|
    ensures i < |merged| ==> Matches(merged[i], u)
    ensures forall j :: 0 <= j < i ==> !Matches(merged[j], u)
  {
    if merged == [] || Matches(merged[0], u) then 0 else 1 + IndexOf(merged[1..], u)
  }

  lemma {:induction false} IndexIs(merged: seq<Usage>, u: Usage, i: nat)
    requires i <= |merged| && (forall j :: 0 <= j < i ==> !Matches(merged[j], u))
    requires i < |merged| ==> Matches(merged[i], u)
    ensures IndexOf(merged, u) == i
  {}

  predicate Open(u: Usage) { u.execution.Some? && u.execution.value.status == InProgress }

  function Add(merged: seq<Usage>, u: Usage): seq<Usage> {
    if !Acceptable(u) then merged
    else
      var i := IndexOf(merged, u);
      if i < |merged| then
        if Open(merged[i]) && !Open(u) then merged[i := u.(name := merged[i].name, observedAt := merged[i].observedAt)] else merged
      else if |merged| < MAX_OBSERVED_AGENT_TOOLS then merged + [u]
      else merged
  }

  function Fold(merged: seq<Usage>, us: seq<Usage>): seq<Usage>
    decreases |us|
  {
    if us == [] then merged else Add(Fold(merged, us[..|us| - 1]), us[|us| - 1])
  }

  function Merge(existing: seq<Usage>, incoming: seq<Usage>): seq<Usage> { Fold([], existing + incoming) }

  /** A checkpoint's tool list is accepted if merging loses none of it. */
  predicate Accepted(us: seq<Usage>) { |Merge([], us)| == |us| }

  /** The source's loop. */
  method MergeObservedToolUsage(existing: seq<Usage>, incoming: seq<Usage>) returns (merged: seq<Usage>)
    ensures merged == Merge(existing, incoming)
    ensures |merged| <= MAX_OBSERVED_AGENT_TOOLS
  {
    merged := [];
    var all := existing + incoming;
    for n := 0 to |all|
      invariant merged == Fold([], all[..n]) && |merged| <= MAX_OBSERVED_AGENT_TOOLS
    {
      assert all[..n + 1][..n] == all[..n];
      var u := all[n];
      if Acceptable(u) {
        var i := IndexOf(merged, u);
        if i < |merged| {
          var current := merged[i];
          if Open(current) && !Open(u) { merged := merged[i := u.(name := current.name, observedAt := current.observedAt)]; }
        } else if |merged| < MAX_OBSERVED_AGENT_TOOLS {
          merged := merged + [u];
        }
      }
    }
    assert all[..|all|] == all;
  }

  // ---- the shape of a merged list ----

  /** Bounded, acceptable, and no entry about another. */
  predicate Normal(merged: seq<Usage>) {
    && |merged| <= MAX_OBSERVED_AGENT_TOOLS
    && (forall i :: 0 <= i < |merged| ==> Acceptable(merged[i]))
    && (forall i, j :: 0 <= i < j < |merged| ==> !Matches(merged[i], merged[j]))
  }

  lemma {:induction false} AddNormal(merged: seq<Usage>, u: Usage)
    requires Normal(merged)
    ensures Normal(Add(merged, u))
  {}

  lemma {:induction false} FoldNormal(merged: seq<Usage>, us: seq<Usage>)
    requires Normal(merged)
    ensures Normal(Fold(merged, us))
    decreases |us|
  {
    if us != [] {
      FoldNormal(merged, us[..|us| - 1]);
      AddNormal(Fold(merged, us[..|us| - 1]), us[|us| - 1]);
    }
  }

  lemma {:induction false} FoldConcat(merged: seq<Usage>, a: seq<Usage>, b: seq<Usage>)
    ensures Fold(merged, a + b) == Fold(Fold(merged, a), b)
    decreases |b|
  {
    if b == [] {
      assert a + b == a;
    } else {
      var n := |b| - 1;
      FoldConcat(merged, a, b[..n]);
      assert (a + b)[..|a| + n] == a + b[..n];
    }
  }

  /** A merged list merges to itself. */
  lemma {:induction false} FoldSelf(merged: seq<Usage>, n: nat)
    requires Normal(merged) && n <= |merged|
    ensures Fold([], merged[..n]) == merged[..n]
    decreases n
  {
    if n > 0 {
      FoldSelf(merged, n - 1);
      assert merged[..n][..n - 1] == merged[..n - 1];
      assert forall j :: 0 <= j < n - 1 ==> !Matches(merged[j], merged[n - 1]);
      IndexIs(merged[..n - 1], merged[n - 1], n - 1);
      assert merged[..n] == merged[..n - 1] + [merged[n - 1]];
    }
  }

  lemma {:induction false} FoldGrows(us: seq<Usage>)
    ensures |Fold([], us)| <= |us|
    ensures |Fold([], us)| == |us| ==> Fold([], us) == us
    decreases |us|
  {
    if us != [] {
      var n := |us| - 1;
      FoldGrows(us[..n]);
      assert us == us[..n] + [us[n]];
    }
  }

  /** The lists a checkpoint accepts are exactly those a merge can have made, and it stores them as they are. */
  lemma {:induction false} AcceptedExact(us: seq<Usage>)
    ensures Accepted(us) <==> Normal(us)
    ensures Accepted(us) <==> Merge([], us) == us
  {
    assert [] + us == us && us[..|us|] == us;
    FoldGrows(us);
    FoldNormal([], us);
    if Normal(us) { FoldSelf(us, |us|); }
  }

  /** Merging in two steps is merging at once. */
  lemma {:induction false} NothingNormal()
    ensures Normal([])
  {}

  lemma {:induction false} MergeAssociative(a: seq<Usage>, b: seq<Usage>, c: seq<Usage>)
    ensures Merge(Merge(a, b), c) == Merge(a, b + c)
  {
    hide Fold, Normal, Add;
    NothingNormal();
    FoldNormal([], a + b);
    var m := Merge(a, b);
    FoldSelf(m, |m|);
    assert m[..|m|] == m;
    FoldConcat([], m, c);
    FoldConcat([], a + b, c);
    assert a + b + c == a + (b + c);
  }

  // ---- repeating an observation changes nothing ----

  predicate Absorbs(merged: seq<Usage>, u: Usage) { Add(merged, u) == merged }

  lemma {:induction false} AddAbsorbs(merged: seq<Usage>, u: Usage)
    requires Normal(merged)
    ensures Absorbs(Add(merged, u), u)
  {
    AddNormal(merged, u);
    var i := IndexOf(merged, u);
    var after := Add(merged, u);
    if Acceptable(u) && i < |after| { IndexIs(after, u, i); }
  }

  /** What is absorbed stays absorbed. */
  lemma {:induction false} AbsorbsStays(merged: seq<Usage>, u: Usage, v: Usage)
    requires Normal(merged) && Absorbs(merged, u)
    ensures Absorbs(Add(merged, v), u)
  {
    if Acceptable(u) && Acceptable(v) {
      var after := Add(merged, v);
      var i := IndexOf(merged, u);
      if i < |merged| {
        assert forall k :: 0 <= k < |merged| ==> (Matches(after[k], u) <==> Matches(merged[k], u));
        assert IndexOf(after, u) == i;
        StaysClosed(merged, u, i);
      } else {
        assert |merged| >= MAX_OBSERVED_AGENT_TOOLS by { AppendChanges(merged, u); }
        assert forall k :: 0 <= k < |merged| ==> (Matches(after[k], u) <==> Matches(merged[k], u));
      }
    }
  }

  lemma {:induction false} AppendChanges(merged: seq<Usage>, u: Usage)
    ensures merged + [u] != merged
  {
    assert |merged + [u]| == |merged| + 1;
  }

  /** An entry that takes no more news of u is closed, or u brings none. */
  lemma {:induction false} StaysClosed(merged: seq<Usage>, u: Usage, i: nat)
    requires Acceptable(u) && i == IndexOf(merged, u) && i < |merged| && Absorbs(merged, u)
    ensures !Open(merged[i]) || Open(u)
  {
    var v := u.(name := merged[i].name, observedAt := merged[i].observedAt);
    assert merged[i := v][i] == v;
  }

  lemma {:induction false} FoldAbsorbs(merged: seq<Usage>, us: seq<Usage>, k: nat)
    requires Normal(merged) && k < |us|
    ensures Absorbs(Fold(merged, us), us[k])
    decreases |us|
  {
    var n := |us| - 1;
    FoldNormal(merged, us[..n]);
    if k == n { AddAbsorbs(Fold(merged, us[..n]), us[n]); }
    else {
      FoldAbsorbs(merged, us[..n], k);
      AbsorbsStays(Fold(merged, us[..n]), us[k], us[n]);
    }
  }

  lemma {:induction false} FoldAbsorbed(merged: seq<Usage>, us: seq<Usage>, n: nat)
    requires n <= |us| && forall k :: 0 <= k < n ==> Absorbs(merged, us[k])
    ensures Fold(merged, us[..n]) == merged
    decreases n
  {
    if n > 0 {
      FoldAbsorbed(merged, us, n - 1);
      assert us[..n][..n - 1] == us[..n - 1];
      assert Absorbs(merged, us[n - 1]);
    }
  }

  /** Merging the same observations again changes nothing. */
  lemma {:induction false} MergeIdempotent(a: seq<Usage>, b: seq<Usage>)
    ensures Merge(Merge(a, b), b) == Merge(a, b)
    ensures Merge(Merge(a, b), Merge(a, b)) == Merge(a, b)
  {
    var m := Merge(a, b);
    FoldNormal([], a + b);
    FoldSelf(m, |m|);
    assert m[..|m|] == m && b[..|b|] == b;
    forall k | 0 <= k < |b| ensures Absorbs(m, b[k]) {
      FoldAbsorbs([], a + b, |a| + k);
      assert (a + b)[|a| + k] == b[k];
    }
    FoldAbsorbed(m, b, |b|);
    FoldConcat([], m, b);
    forall k | 0 <= k < |m| ensures Absorbs(m, m[k]) { FoldAbsorbs([], m, k); }
    FoldAbsorbed(m, m, |m|);
    FoldConcat([], m, m);
  }

  // ---- first start, first terminal ----

  /** The same invocation, with its first name and start time, and its first terminal if it had one. */
  predicate Continues(before: Usage, after: Usage) {
    && after.category == before.category && after.name == before.name && after.observedAt == before.observedAt
    && (before.execution.Some? <==> after.execution.Some?)
    && (before.execution.Some? ==> after.execution.value.itemId == before.execution.value.itemId)
    && (!Open(before) ==> after == before)
  }

  /** Later observations never reorder, drop or restart an entry, nor replace a terminal one:
    * late starts and conflicting terminals are ignored. */
  lemma {:induction false} EntriesContinue(merged: seq<Usage>, us: seq<Usage>)
    requires Normal(merged)
    ensures var after := Fold(merged, us);
      |merged| <= |after| <= MAX_OBSERVED_AGENT_TOOLS && forall i :: 0 <= i < |merged| ==> Continues(merged[i], after[i])
    decreases |us|
  {
    if us != [] {
      EntriesContinue(merged, us[..|us| - 1]);
      FoldNormal(merged, us[..|us| - 1]);
      AddContinues(Fold(merged, us[..|us| - 1]), us[|us| - 1]);
    }
  }

  lemma {:induction false} AddContinues(merged: seq<Usage>, u: Usage)
    requires Normal(merged)
    ensures var after := Add(merged, u);
      |merged| <= |after| <= MAX_OBSERVED_AGENT_TOOLS && forall i :: 0 <= i < |merged| ==> Continues(merged[i], after[i])
  {}

  /** A terminal is applied to its open entry even when the list is full. */
  lemma {:induction false} TerminalAppliesAtTheCap(merged: seq<Usage>, i: nat, u: Usage)
    requires Normal(merged) && i < |merged| && Open(merged[i]) && Acceptable(u) && Matches(merged[i], u) && !Open(u)
    ensures Add(merged, u) == merged[i := u.(name := merged[i].name, observedAt := merged[i].observedAt)]
  {
    forall k | 0 <= k < i ensures !Matches(merged[k], u) { assert !Matches(merged[k], merged[i]); }
    IndexIs(merged, u, i);
  }

  // ---- a merge, in the words of the lists ----

  /** The entry is about what u was observed of: the same command, or the same name of a tool that runs none. */
  predicate About(entry: Usage, u: Usage) {
    && entry.category == u.category
    && (u.execution.None? ==> entry.execution.None? && entry.name == u.name)
    && (u.execution.Some? ==> entry.execution.Some? && entry.execution.value.itemId == u.execution.value.itemId)
  }

  predicate FirstAbout(list: seq<Usage>, u: Usage, i: nat) {
    i < |list| && About(list[i], u) && forall j :: 0 <= j < i ==> !About(list[j], u)
  }

  predicate Running(u: Usage) { u.execution.Some? && u.execution.value.status == InProgress }

  /** One observation: dropped if it is not safe or a command of no command line; it ends an entry that is
    * still running, is the next entry if none is about it and there is room, and else says nothing new. */
  ghost predicate AddDoes(list: seq<Usage>, u: Usage, after: seq<Usage>) {
    if !u.safe || (u.execution.Some? && u.category != Cli) then after == list
    else
      && (forall i: nat :: FirstAbout(list, u, i) ==>
            after == if Running(list[i]) && !Running(u) then list[i := Usage(u.category, list[i].name, list[i].observedAt, u.execution, true)] else list)
      && ((forall j :: 0 <= j < |list| ==> !About(list[j], u)) ==> after == if |list| < 32 then list + [u] else list)
  }

  lemma {:induction false} AddsSo(list: seq<Usage>, u: Usage)
    ensures AddDoes(list, u, Add(list, u))
  {
    assert forall e: Usage :: About(e, u) <==> Matches(e, u);
    forall i: nat | FirstAbout(list, u, i) ensures i == IndexOf(list, u) { IndexIs(list, u, i); }
  }

  /** A merge takes the observations one by one, the existing ones first. */
  lemma {:induction false} MergesSo(existing: seq<Usage>, incoming: seq<Usage>, u: Usage)
    ensures Merge([], []) == [] && Merge(existing, incoming) == Merge([], existing + incoming)
    ensures AddDoes(Merge(existing, incoming), u, Merge(existing, incoming + [u]))
  {
    assert [] + (existing + incoming) == existing + incoming;
    var all := existing + (incoming + [u]);
    assert all == (existing + incoming) + [u] && all[..|all| - 1] == existing + incoming;
    AddsSo(Merge(existing, incoming), u);
    hide AddDoes, Add;
  }
}
