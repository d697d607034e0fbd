/** AgentAdmissionController: reservations updated in place, every change journalled,
  * and taken back when the journal cannot be written. */
module AdmissionController {
  import opened Prelude
  import opened Admission
  import opened AdmissionRuns
  import opened AdmissionContracts

  class AgentAdmissionController {
    const limits: Limits
    var slots: seq<Slot>
    var jobTokens: map<string, string>
    var closing: bool
    var journal: Document    // the file

    ghost function Memory(): State
      reads this
    {
      State(slots, jobTokens, closing)
    }

    ghost function Sys(): System
      reads this
    {
      System(Memory(), journal)
    }

    /** A new process over the journal its predecessor left. */
    constructor (limits: Limits, left: Document)
      ensures this.limits == limits && Sys() == Restarted(left)
    {
      this.limits := limits;
      slots, jobTokens, closing, journal := [], map[], left.closing, left;
      new;
      LoadDocument(left.entries);
      if closing {
        closing := false;
        var ok := Persist(None, true);
      }
    }

    method LoadDocument(entries: seq<Entry>)
      modifies this`slots, this`jobTokens
      ensures slots == LoadedSlots(entries) && jobTokens == TokensOf(slots)
    {
      slots := [];
      for n := 0 to |entries|
        invariant slots == LoadedSlots(entries[..n])
      {
        assert entries[..n + 1][..n] == entries[..n];
        if entries[n].Active? { slots := PutSlot(slots, entries[n].slot); }
      }
      assert entries[..|entries|] == entries;
      jobTokens := map[];
      for n := 0 to |slots|
        invariant slots == LoadedSlots(entries) && jobTokens == TokensOf(slots[..n])
      {
        assert slots[..n + 1][..n] == slots[..n];
        if slots[n].jobId.Some? { jobTokens := jobTokens[slots[n].jobId.value := slots[n].token]; }
      }
      assert slots[..|slots|] == slots;
    }

    /** Writes the journal, if the file can be written. */
    method Persist(released: Option<string>, writable: bool) returns (ok: bool)
      modifies this`journal
      ensures ok == writable
      ensures journal == if ok then Journal(Memory(), released) else old(journal)
    {
      ok := writable;
      if ok { journal := Journal(State(slots, jobTokens, closing), released); }
    }

    /** Takes the change back if its journal write fails. */
    method Commit(previous: State, released: Option<string>, writable: bool) returns (ok: bool)
      modifies this
      ensures ok == writable
      ensures Sys() == if ok then System(old(Memory()), Journal(old(Memory()), released)) else System(previous, old(journal))
    {
      ok := Persist(released, writable);
      if !ok { slots, jobTokens, closing := previous.slots, previous.jobTokens, previous.closing; }
    }

    method CountWhere(tenantId: string, requesterId: Option<string>) returns (count: nat)
      ensures requesterId.None? ==> count == CountTenant(slots, tenantId)
      ensures requesterId.Some? ==> count == CountRequester(slots, Scope(tenantId, requesterId.value))
    {
      count := 0;
      for n := 0 to |slots|
        invariant requesterId.None? ==> count == CountTenant(slots[..n], tenantId)
        invariant requesterId.Some? ==> count == CountRequester(slots[..n], Scope(tenantId, requesterId.value))
      {
        assert slots[..n + 1][..n] == slots[..n];
        if slots[n].scope.tenantId == tenantId && (requesterId.None? || slots[n].scope.requesterId == requesterId.value) {
          count := count + 1;
        }
      }
      assert slots[..|slots|] == slots;
    }

    /** The verdict, and the new reservation if it is Admitted; or nothing at all if the journal is
      * unavailable. */
    method TryAcquire(scope: Scope, uuid: string, writable: bool) returns (r: Result<Verdict, Failure>)
      modifies this
      ensures Sys() == Step(limits, old(Sys()), Do(Op.TryAcquire(scope, uuid), writable))
      ensures r == if writable then Ok(Admit(limits, old(Memory()), scope)) else Err(JournalUnavailable)
      ensures if writable then r.Ok? && AcquireDoes(limits, old(Memory()), scope, uuid, Memory(), r.value) else r.Err? && Sys() == old(Sys())
    {
      AcquiresSo(limits, Memory(), scope, uuid);
      hide AcquireDoes;
      hide CountTenant, CountRequester, Journal, NewSlot;
      var previous := State(slots, jobTokens, closing);
      var verdict := Admitted;
      var requesters := CountWhere(scope.tenantId, Some(scope.requesterId));
      var tenants := CountWhere(scope.tenantId, None);
      if closing { verdict := Closed; }
      else if requesters >= limits.requester { verdict := RequesterFull; }
      else if tenants >= limits.tenant { verdict := TenantFull; }
      else if |slots| >= limits.global { verdict := GlobalFull; }
      else { slots := slots + [NewSlot(uuid, scope)]; }
      var ok := Commit(previous, None, writable);
      return if ok then Ok(verdict) else Err(JournalUnavailable);
    }

    method BindJob(token: string, jobId: string, writable: bool) returns (r: Result<bool, Failure>)
      modifies this
      ensures Sys() == Step(limits, old(Sys()), Do(Bind(token, jobId), writable))
      ensures Answers(Apply(limits, old(Memory()), Bind(token, jobId)), writable, r)
      ensures writable ==> BindDoes(old(Memory()), token, jobId, if r.Ok? then Ok(Memory()) else Err(r.error))
    {
      BindsSo(limits, Memory(), token, jobId);
      hide BindDoes;
      var previous := State(slots, jobTokens, closing);
      var i := IndexOf(slots, token);
      if i == |slots| { return Err(NotActive); }
      if slots[i].jobId != Some(jobId) {
        if slots[i].jobId.Some? || jobId in jobTokens { return Err(AlreadyBound); }
        slots := slots[i := slots[i].(jobId := Some(jobId), phase := Bound)];
        jobTokens := jobTokens[jobId := token];
      }
      var ok := Commit(previous, None, writable);
      return if ok then Ok(true) else Err(JournalUnavailable);
    }

    method MarkTerminalPendingToken(token: string, writable: bool) returns (r: Result<bool, Failure>)
      modifies this
      ensures Sys() == Step(limits, old(Sys()), Do(MarkTerminalPending(token), writable))
      ensures Answers(Apply(limits, old(Memory()), MarkTerminalPending(token)), writable, r)
      ensures writable ==> MarkDoes(old(Memory()), token, if r.Ok? then Ok(Memory()) else Err(r.error))
    {
      MarksSo(limits, Memory(), token, "");
      hide MarkDoes;
      var previous := State(slots, jobTokens, closing);
      var i := IndexOf(slots, token);
      if i == |slots| { return Err(NotActive); }
      if slots[i].phase != Unresolved { slots := slots[i := slots[i].(phase := TerminalPending)]; }
      var ok := Commit(previous, None, writable);
      return if ok then Ok(true) else Err(JournalUnavailable);
    }

    method MarkUnresolvedToken(token: string, failureCode: string, writable: bool) returns (r: Result<bool, Failure>)
      modifies this
      ensures Sys() == Step(limits, old(Sys()), Do(MarkUnresolved(token, failureCode), writable))
      ensures Answers(Apply(limits, old(Memory()), MarkUnresolved(token, failureCode)), writable, r)
      ensures writable ==> DoubtDoes(old(Memory()), token, failureCode, if r.Ok? then Ok(Memory()) else Err(r.error))
    {
      MarksSo(limits, Memory(), token, failureCode);
      hide DoubtDoes;
      var previous := State(slots, jobTokens, closing);
      var i := IndexOf(slots, token);
      if i == |slots| { return Err(NotActive); }
      slots := slots[i := slots[i].(phase := Unresolved, failureCode := Some(failureCode), attempts := slots[i].attempts + 1)];
      var ok := Commit(previous, None, writable);
      return if ok then Ok(true) else Err(JournalUnavailable);
    }

    /** Releasing an unknown token is no error. */
    method ReleaseToken(token: string, writable: bool) returns (r: Result<bool, Failure>)
      modifies this
      ensures Sys() == Step(limits, old(Sys()), Do(Release(token), writable))
      ensures Answers(Apply(limits, old(Memory()), Release(token)), writable, r)
      ensures writable ==> r == Ok(true) && ReleaseDoes(old(Memory()), token, Memory())
    {
      ReleasesSo(limits, Memory(), token);
      hide ReleaseDoes;
      var previous := State(slots, jobTokens, closing);
      var i := IndexOf(slots, token);
      if i < |slots| {
        var job := slots[i].jobId;
        slots := slots[..i] + slots[i + 1..];
        if job.Some? && job.value in jobTokens && jobTokens[job.value] == token { jobTokens := jobTokens - {job.value}; }
      }
      var ok := Commit(previous, Some(token), writable);
      return if ok then Ok(true) else Err(JournalUnavailable);
    }

    /** releaseJob and recoverUnresolved: the second demands that the job holds a reservation. */
    method RecoverUnresolved(jobId: string, writable: bool) returns (r: Result<bool, Failure>)
      modifies this
      ensures jobId !in old(jobTokens) ==> r == Err(NotActive) && Sys() == old(Sys())
      ensures jobId in old(jobTokens) ==>
        Sys() == Step(limits, old(Sys()), Do(Release(old(jobTokens)[jobId]), writable))
    {
      if jobId !in jobTokens { return Err(NotActive); }
      r := ReleaseToken(jobTokens[jobId], writable);
    }

    method CloseGate(writable: bool) returns (r: Result<bool, Failure>)
      modifies this
      ensures Sys() == Step(limits, old(Sys()), Do(Close, writable))
      ensures Answers(Apply(limits, old(Memory()), Close), writable, r)
      ensures writable ==> r == Ok(true) && Memory() == old(Memory()).(closing := true)
    {
      ReleasesSo(limits, Memory(), "");
      var previous := State(slots, jobTokens, closing);
      closing := true;
      var ok := Commit(previous, None, writable);
      return if ok then Ok(true) else Err(JournalUnavailable);
    }

    method ReconstructFrom(records: seq<JobRecord>, writable: bool) returns (r: Result<bool, Failure>)
      modifies this
      ensures Sys() == Step(limits, old(Sys()), Do(Reconstruct(records), writable))
      ensures Answers(Apply(limits, old(Memory()), Reconstruct(records)), writable, r)
      ensures writable && InOrder(old(Memory())) ==> r == Ok(true) && ReconstructDoes(old(Memory()), records, Memory())
    {
      if InOrder(Memory()) { ReconstructsSo(limits, Memory(), records); }
      hide ReconstructDoes, InOrder, Doubted, ReadmitOne, Journal;
      var previous := State(slots, jobTokens, closing);
      for n := 0 to |slots|
        invariant |slots| == |previous.slots| && jobTokens == previous.jobTokens && closing == previous.closing
        invariant journal == old(journal)
        invariant forall k :: 0 <= k < |slots| ==> slots[k] == if k < n then Doubted(previous.slots[k], records) else previous.slots[k]
      {
        slots := slots[n := Doubted(slots[n], records)];
      }
      assert slots == Doubt(previous.slots, records);
      ghost var doubted := State(slots, jobTokens, closing);
      for n := 0 to |records|
        invariant State(slots, jobTokens, closing) == Readmit(doubted, records[..n])
        invariant journal == old(journal)
      {
        assert records[..n + 1][..n] == records[..n];
        var next := ReadmitOne(State(slots, jobTokens, closing), records[n]);
        slots, jobTokens, closing := next.slots, next.jobTokens, next.closing;
      }
      assert records[..|records|] == records;
      var ok := Commit(previous, None, writable);
      return if ok then Ok(true) else Err(JournalUnavailable);
    }
  }

  /** What a mutation answers, given what its operation answered. */
  predicate Answers(outcome: Result<State, Failure>, writable: bool, r: Result<bool, Failure>) {
    match outcome
    case Err(e) => r == Err(e)
    case Ok(_) => r == if writable then Ok(true) else Err(JournalUnavailable)
  }
}
