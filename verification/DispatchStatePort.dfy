/** The dispatch state port over the runtime store: its read-check-replace loop, under
  * any interference, does to the newest record what one atomic swap would do. */
module DispatchStatePort {
  import opened Prelude
  import D = DispatchRecords
  import opened RuntimeStore

  /** The write the port makes from the version it read, if it makes one. */
  function SwapWrite(scope: Scope, id: string, read: Doc<D.Record>, expected: D.Identity, m: D.Mutation,
                     idempotencyKey: string): Option<Input<D.Record>> {
    if D.LeaseIdentity(read.content) != expected then None
    else
      match D.Guarded(m, read.content)
      case Err(_) => None
      case Ok(next) => Some(Input(scope, id, idempotencyKey, next, Some(read.etag)))
  }

  /** When such a write commits, the record it replaced is the newest one, that record
    * had the expected owner and generation, and what is stored is the callback's result on it. */
  lemma {:induction false} CommittedSwapIsAtomic(s: State<D.Record>, pid: nat, answered: bool, read: Doc<D.Record>, n: nat, ref: D.Reference,
                              expected: D.Identity, m: D.Mutation)
    requires Inv(s) && Enabled(s, Commit(pid, answered)) && Accepts(s.docs, s.procs[pid])
    requires var i := s.procs[pid].input;
      SwapWrite(i.scope, i.id, read, expected, m, i.idempotencyKey) == Some(i)
      && n < |History(s.docs, KeyOf(i))| && History(s.docs, KeyOf(i))[n] == read
    ensures var h, g := History(s.docs, KeyOf(s.procs[pid].input)), History(Step(s, Commit(pid, answered)).docs, KeyOf(s.procs[pid].input));
      && h != [] && |g| == |h| + 1
      && D.Swap(map[ref := h[|h| - 1].content], ref, expected, m) == D.Swapped(g[|h|].content)
  {
    CommitReplacesWhatWasRead(s, pid, answered, read, n);
  }
}
