/** What a run makes of its requests before it starts, and of its children's results after. */
module OrchestratorResults {
  import opened Prelude

  datatype Request = Request(childKey: string, fingerprint: string)
  datatype Prepared = Prepared(childKey: string, fingerprint: string, duplicated: bool)

  /** Requests that share a key must be the same request. */
  predicate Consistent(requests: seq<Request>) {
    forall i, j :: 0 <= i < j < |requests| && requests[i].childKey == requests[j].childKey
      ==> requests[i].fingerprint == requests[j].fingerprint
  }

  predicate Repeats(requests: seq<Request>, i: nat)
    requires i < |requests|
  {
    exists j :: 0 <= j < i && requests[j].childKey == requests[i].childKey
  }

  /** prepareChildren: refused exactly for inconsistent duplicates; otherwise every request in
    * order, marked a duplicate exactly if its key came before. */
  method PrepareChildren(requests: seq<Request>) returns (r: Option<seq<Prepared>>)
    ensures r.Some? <==> Consistent(requests)
    ensures r.None? <==> exists i, j ::
      0 <= i < j < |requests| && requests[i].childKey == requests[j].childKey && requests[i].fingerprint != requests[j].fingerprint
    ensures r.Some? ==> |r.value| == |requests| && forall i :: 0 <= i < |requests| ==>
      r.value[i] == Prepared(requests[i].childKey, requests[i].fingerprint, Repeats(requests, i))
  {
    var seen: map<string, string> := map[];
    var prepared: seq<Prepared> := [];
    for n := 0 to |requests|
      invariant |prepared| == n
      invariant forall i :: 0 <= i < n ==> prepared[i] == Prepared(requests[i].childKey, requests[i].fingerprint, Repeats(requests, i))
      invariant forall k :: k in seen <==> exists i :: 0 <= i < n && requests[i].childKey == k
      invariant forall i :: 0 <= i < n ==> requests[i].childKey in seen && seen[requests[i].childKey] == requests[i].fingerprint
    {
      var request := requests[n];
      if request.childKey in seen && seen[request.childKey] != request.fingerprint {
        var j :| 0 <= j < n && requests[j].childKey == request.childKey;
        assert requests[j].fingerprint != request.fingerprint;
        return None;
      }
      prepared := prepared + [Prepared(request.childKey, request.fingerprint, request.childKey in seen)];
      seen := seen[request.childKey := request.fingerprint];
    }
    return Some(prepared);
  }

  datatype ChildStatus = Completed | Failed | Canceled

  datatype Summary = Summary(
    total: nat, unique: nat, duplicate: nat, completed: nat, failed: nat, canceled: nat, results: seq<ChildStatus>)

  /** A child whose execution never started is canceled. */
  function ResultOf(results: map<string, ChildStatus>, key: string): ChildStatus {
    if key in results then results[key] else Canceled
  }

  /** The results, one per request and in request order, and counts that add up. */
  method Summarize(prepared: seq<Prepared>, uniqueResults: map<string, ChildStatus>) returns (s: Summary)
    ensures |s.results| == |prepared| == s.total
    ensures forall i :: 0 <= i < |prepared| ==> s.results[i] == ResultOf(uniqueResults, prepared[i].childKey)
    ensures s.total == s.unique + s.duplicate && s.total == s.completed + s.failed + s.canceled
    ensures s.duplicate == |Marked(prepared)|
    ensures s.completed == |Having(s.results, Completed)| && s.failed == |Having(s.results, Failed)|
    ensures s.canceled == |Having(s.results, Canceled)|
  {
    var results: seq<ChildStatus> := [];
    var duplicate, completed, failed, canceled := 0, 0, 0, 0;
    for n := 0 to |prepared|
      invariant |results| == n
      invariant forall i :: 0 <= i < n ==> results[i] == ResultOf(uniqueResults, prepared[i].childKey)
      invariant duplicate == |Marked(prepared[..n])| && duplicate <= n && n == completed + failed + canceled
      invariant completed == |Having(results, Completed)| && failed == |Having(results, Failed)| && canceled == |Having(results, Canceled)|
    {
      var result := ResultOf(uniqueResults, prepared[n].childKey);
      MarkedNext(prepared, n);
      HavingNext(results, result);
      results := results + [result];
      if prepared[n].duplicated { duplicate := duplicate + 1; }
      match result {
        case Completed => completed := completed + 1;
        case Failed => failed := failed + 1;
        case Canceled => canceled := canceled + 1;
      }
    }
    assert prepared[..|prepared|] == prepared;
    s := Summary(|results|, |prepared| - duplicate, duplicate, completed, failed, canceled, results);
  }

  function Marked(prepared: seq<Prepared>): set<nat> { set i | 0 <= i < |prepared| && prepared[i].duplicated }

  function Having(results: seq<ChildStatus>, status: ChildStatus): set<nat> { set i | 0 <= i < |results| && results[i] == status }

  lemma {:induction false} MarkedNext(prepared: seq<Prepared>, n: nat)
    requires n < |prepared|
    ensures |Marked(prepared[..n + 1])| == |Marked(prepared[..n])| + if prepared[n].duplicated then 1 else 0
  {
    assert Marked(prepared[..n + 1]) == Marked(prepared[..n]) + if prepared[n].duplicated then {n} else {};
  }

  lemma {:induction false} HavingNext(results: seq<ChildStatus>, result: ChildStatus)
    ensures forall s :: |Having(results + [result], s)| == |Having(results, s)| + if result == s then 1 else 0
  {
    forall s ensures |Having(results + [result], s)| == |Having(results, s)| + if result == s then 1 else 0 {
      assert Having(results + [result], s) == Having(results, s) + if result == s then {|results|} else {};
    }
  }
}
