/** The dispatch queue built with a server-owned migration: v1 text is migrated in
  * place before it is leased. The v1 store is only ever read. */
module DispatchMigratingQueue {
  import opened Prelude
  import opened DispatchRecords
  import opened DispatchProtocol
  import opened DispatchPorts
  import opened DispatchQueue
  import opened DispatchMigration
  import opened DispatchMigrationRuns
  import opened DispatchContracts
  import opened DispatchMigrationContracts

  lemma {:induction false} MigratingIs(w: World, legacy: Legacy, modes: map<Request, Mode>, id: nat, now: int, maxDequeue: nat, owner: string,
                                       visibility: int)
    requires id in w.queue
    ensures var got := ReceiveEffect(w, id);
      var f, reply := DecidedWith(got.world, legacy, modes, now, got.pc.value.d, maxDequeue, owner, visibility),
                      Migrating(w, legacy, modes, LeaseOf(id, now, maxDequeue, owner, visibility));
      && reply.world == f.world && reply.given == GivenLease(f.pc)
      && (!w.queue[id].payload.LegacyText? ==> LeaseDoes(w, id, w.queue[id].payload, now, maxDequeue, owner, visibility, f.world, GivenLease(f.pc)))
  {
    DeleteReceived(w, id);
    DecidedDoes(w, now, id, w.queue[id].payload, maxDequeue, owner, visibility);
    hide Decided, LeaseDoes, ReceiveEffect;
  }

  class MigratingDispatchQueue {
    const queue: AzureAgentDispatchQueue
    const legacy: Legacy
    const modes: map<Request, Mode>

    constructor (queue: AzureAgentDispatchQueue, legacy: Legacy, modes: map<Request, Mode>)
      ensures this.queue == queue && this.legacy == legacy && this.modes == modes
    {
      this.queue, this.legacy, this.modes := queue, legacy, modes;
    }

    method MigrateLegacyTask(request: Request) returns (m: Migration)
      modifies queue.state
      ensures m == Migrate(request, PortsOf(legacy, modes, request), old(queue.state.records), old(queue.state.records)).migration
      ensures request.ref !in old(queue.state.records) && request.ref in queue.state.records ==>
        && request.ref in legacy && OfRequest(legacy[request.ref], request) && request in modes
        && Carries(queue.state.records[request.ref], legacy[request.ref], Task(V2, request, modes[request], Option.None))
      ensures queue.state.records
           == Migrate(request, PortsOf(legacy, modes, request), old(queue.state.records), old(queue.state.records)).records
    {
      var found := if request.ref in legacy then Some(legacy[request.ref]) else Option.None;
      if found.Some? && !Matching(found.value, request) { return Mismatch; }
      if request !in modes { return Unavailable; }
      var task := MigratedTask(request, modes[request]);
      var current := queue.state.Get(request.ref);
      if current.None? {
        if found.None? { return Unavailable; }
        var created := queue.state.Create(Upgrade(found.value, task));
        current := queue.state.Get(request.ref);
      }
      return Bound(current.value, task);
    }

    method Lease(now: int, visibility: int, maxDequeue: nat, owner: string) returns (r: Result<Option<DispatchProtocol.Lease>, Error>)
      requires queue.Valid()
      modifies queue.client, queue.state
      ensures queue.Valid()
      ensures !(1 <= visibility <= 604_800) ==> r == Result.Err(InvalidArgument) && queue.World() == old(queue.World())
      ensures 1 <= visibility <= 604_800 && FirstVisible(old(queue.client.messages)).None? ==>
        r == Ok(Option.None) && queue.World() == old(queue.World())
      ensures 1 <= visibility <= 604_800 && FirstVisible(old(queue.client.messages)).Some? ==>
        var id := FirstVisible(old(queue.client.messages)).value;
        && id in old(queue.World()).queue
        && var reply := Migrating(old(queue.World()), legacy, modes, LeaseOf(id, now, maxDequeue, owner, visibility));
        && queue.World() == reply.world && Given(r) == reply.given
        && if old(queue.World()).queue[id].payload.LegacyText?
           then MigratingDoes(old(queue.World()), legacy, modes, id, now, maxDequeue, owner, visibility, queue.World(), Given(r))
           else LeaseDoes(old(queue.World()), id, old(queue.World()).queue[id].payload, now, maxDequeue, owner, visibility, queue.World(), Given(r))
    {
      hide Decided, ReceiveEffect, FirstVisible, Migrate, MigratingDoes, LeaseDoes, Migrating;
      ghost var before := queue.World();
      if !ValidVisibility(visibility) { return Result.Err(InvalidArgument); }
      var received := queue.Take();
      if received.None? { return Ok(Option.None); }
      ghost var id := received.value.id;
      MigratingIs(before, legacy, modes, id, now, maxDequeue, owner, visibility);
      r := Settle(received.value, now, visibility, maxDequeue, owner);
      if before.queue[id].payload.LegacyText? { MigratingLeaseDoes(before, legacy, modes, id, now, maxDequeue, owner, visibility); }
    }

    method Settle(d: Delivery, now: int, visibility: int, maxDequeue: nat, owner: string)
      returns (r: Result<Option<DispatchProtocol.Lease>, Error>)
      requires queue.Valid()
      modifies queue.client, queue.state
      ensures queue.Valid()
      ensures var f := DecidedWith(old(queue.World()), legacy, modes, now, d, maxDequeue, owner, visibility);
        queue.World() == f.world && Given(r) == GivenLease(f.pc)
    {
      hide Decided, Migrate, Poisoned, Renewed;
      if !d.payload.LegacyText? {
        r := queue.Settle(d, now, visibility, maxDequeue, owner);
        return;
      }
      ghost var records := queue.state.records;
      UnavailableWritesNothing(d.payload.request, PortsOf(legacy, modes, d.payload.request), records, records);
      var m := MigrateLegacyTask(d.payload.request);
      match m {
        case Unavailable => r := queue.Defer(d);
        case Mismatch => r := queue.Reject(d, Option.None, "unreadable");
        case Migrated(task) => r := queue.Settle(d.(payload := TaskText(task)), now, visibility, maxDequeue, owner);
      }
    }
  }
}
