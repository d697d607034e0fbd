/** The migration of v1 messages one step per awaited call, between the steps of everybody else: other
  * migrators, enqueuers, workers and cancellers, with crashes anywhere. */
module DispatchMigrationSteps {
  import opened Prelude
  import opened DispatchRecords
  import opened DispatchProtocol
  import opened DispatchFencing
  import opened DispatchMigration

  /** Where migrateLegacyTask stands between two awaited calls; was is the v1 record it read. */
  datatype Stage =
    | Taken(d: Delivery)
    | Looked(d: Delivery, was: Option<LegacyRecord>)
    | Resolved(d: Delivery, was: Option<LegacyRecord>, task: Task)
    | Absent(d: Delivery, was: Option<LegacyRecord>, task: Task)
    | Lost(d: Delivery, was: Option<LegacyRecord>, task: Task)

  /** The protocol's state, and the processes that are migrating. */
  datatype Mixed = Mixed(s: State, at: map<nat, Stage>)

  /** How the create is answered; a failing one may have been carried out. */
  datatype Reply = Answered | Fails(landed: bool)

  datatype Move =
    | Other(e: Event)
    | Begin(pid: nat)
    | Look(pid: nat, legacy: Answer<LegacyRecord>)
    | Resolve(pid: nat, mode: Answer<Mode>)
    | ReadCurrent(pid: nat, readable: bool)
    | CreateRecord(pid: nat, reply: Reply)
    | ReadAgain(pid: nat, readable: bool)
    | Dies(pid: nat)

  predicate CanMove(m: Mixed, move: Move) {
    match move
    case Other(e) => Enabled(m.s, e) && (Actor(e).Some? ==> Actor(e).value !in m.at)
    case Begin(pid) => pid in m.s.procs && m.s.procs[pid].Received? && m.s.procs[pid].d.payload.LegacyText?
    case Look(pid, _) => pid in m.at && m.at[pid].Taken?
    case Resolve(pid, _) => pid in m.at && m.at[pid].Looked?
    case ReadCurrent(pid, _) => pid in m.at && m.at[pid].Resolved?
    case CreateRecord(pid, _) => pid in m.at && m.at[pid].Absent?
    case ReadAgain(pid, _) => pid in m.at && m.at[pid].Lost?
    case Dies(pid) => pid in m.at
  }

  function Goes(m: Mixed, pid: nat, stage: Stage): Mixed { m.(at := m.at[pid := stage]) }

  /** Where lease() goes on after the migration. */
  function Onward(d: Delivery, migration: Migration): Pc {
    match migration
    case Unavailable => Deferring(d)
    case Mismatch => Poisoning(d, "unreadable", None)
    case Migrated(task) => Received(d.(payload := TaskText(task)))
  }

  function Leaves(m: Mixed, pid: nat, d: Delivery, migration: Migration): Mixed {
    Mixed(m.s.(procs := m.s.procs[pid := Onward(d, migration)]), m.at - {pid})
  }

  function StoreUpgrade(m: Mixed, task: Task, was: LegacyRecord): Mixed {
    m.(s := m.s.(world := m.s.world.(records := m.s.world.records[RefOf(task) := Upgrade(was, task)])))
  }

  function Moved(m: Mixed, move: Move): Mixed
    requires CanMove(m, move)
  {
    match move
    case Other(e) => m.(s := Step(m.s, e))
    case Begin(pid) => Mixed(m.s.(procs := m.s.procs - {pid}), m.at[pid := Taken(m.s.procs[pid].d)])
    case Look(pid, legacy) =>
      var d := m.at[pid].d;
      if legacy.Throws? then Leaves(m, pid, d, Unavailable)
      else if legacy.value.Some? && d.payload.LegacyText? && !Matching(legacy.value.value, d.payload.request) then Leaves(m, pid, d, Mismatch)
      else Goes(m, pid, Looked(d, legacy.value))
    case Resolve(pid, mode) =>
      var d := m.at[pid].d;
      if mode.Throws? || mode.value.None? || !d.payload.LegacyText? then Leaves(m, pid, d, Unavailable)
      else Goes(m, pid, Resolved(d, m.at[pid].was, MigratedTask(d.payload.request, mode.value.value)))
    case ReadCurrent(pid, readable) =>
      var q := m.at[pid];
      if !readable then Leaves(m, pid, q.d, Unavailable)
      else if RefOf(q.task) in m.s.world.records then Leaves(m, pid, q.d, Bound(m.s.world.records[RefOf(q.task)], q.task))
      else if q.was.None? then Leaves(m, pid, q.d, Unavailable)
      else Goes(m, pid, Absent(q.d, q.was, q.task))
    case CreateRecord(pid, reply) =>
      var q := m.at[pid];
      var free := RefOf(q.task) !in m.s.world.records && q.was.Some?;
      match reply {
        case Answered =>
          if free then Leaves(StoreUpgrade(m, q.task, q.was.value), pid, q.d, Bound(Upgrade(q.was.value, q.task), q.task))
          else Goes(m, pid, Lost(q.d, q.was, q.task))
        case Fails(landed) =>
          Leaves(if landed && free then StoreUpgrade(m, q.task, q.was.value) else m, pid, q.d, Unavailable)
      }
    case ReadAgain(pid, readable) =>
      var q := m.at[pid];
      if !readable || RefOf(q.task) !in m.s.world.records then Leaves(m, pid, q.d, Unavailable)
      else Leaves(m, pid, q.d, Bound(m.s.world.records[RefOf(q.task)], q.task))
    case Dies(pid) => m.(at := m.at - {pid})
  }

  predicate IsCourse(m: Mixed, moves: seq<Move>)
    decreases |moves|
  {
    moves == [] || (CanMove(m, moves[0]) && IsCourse(Moved(m, moves[0]), moves[1..]))
  }

  function Course(m: Mixed, moves: seq<Move>): Mixed
    requires IsCourse(m, moves)
    decreases |moves|
  {
    if moves == [] then m else Course(Moved(m, moves[0]), moves[1..])
  }

  // ---- the same system with the migration in one piece ----

  /** answered: the create did not fail after it had been carried out. */
  datatype Act = Ordinary(e: Event) | Migrates(pid: nat, ports: Ports, answered: bool)

  predicate Can(s: State, a: Act) {
    match a
    case Ordinary(e) => Enabled(s, e)
    case Migrates(pid, _, _) => pid in s.procs && s.procs[pid].Received? && s.procs[pid].d.payload.LegacyText?
  }

  function InOnePiece(s: State, a: Act): Parsed
    requires Can(s, a) && a.Migrates?
  {
    Migrate(s.procs[a.pid].d.payload.request, a.ports, s.world.records, s.world.records)
  }

  function Do(s: State, a: Act): State
    requires Can(s, a)
  {
    match a
    case Ordinary(e) => Step(s, e)
    case Migrates(pid, ports, answered) =>
      var d, parsed := s.procs[pid].d, InOnePiece(s, a);
      State(s.world.(records := parsed.records), s.clock,
            s.procs[pid := Onward(d, if answered then parsed.migration else Unavailable)])
  }

  predicate IsHistory(s: State, acts: seq<Act>)
    decreases |acts|
  {
    acts == [] || (Can(s, acts[0]) && IsHistory(Do(s, acts[0]), acts[1..]))
  }

  function History(s: State, acts: seq<Act>): State
    requires IsHistory(s, acts)
    decreases |acts|
  {
    if acts == [] then s else History(Do(s, acts[0]), acts[1..])
  }

  function Joined(procs: map<nat, Pc>, at: map<nat, Stage>): map<nat, Pc> {
    map pid | pid in procs.Keys + at.Keys :: if pid in at then Received(at[pid].d) else procs[pid]
  }

  /** A migrating process, seen from outside, has only received its message. */
  function View(m: Mixed): State { m.s.(procs := Joined(m.s.procs, m.at)) }

  predicate StageOk(w: World, q: Stage) {
    && q.d.payload.LegacyText?
    && (!q.Taken? && q.was.Some? ==> Matching(q.was.value, q.d.payload.request))
    && (q.Resolved? || q.Absent? || q.Lost? ==> q.task == MigratedTask(q.d.payload.request, q.task.mode))
    && (q.Absent? || q.Lost? ==> q.was.Some?)
    && (q.Lost? ==> RefOf(q.task) in w.records)
  }

  predicate WellFormed(m: Mixed) {
    m.at.Keys !! m.s.procs.Keys && forall pid :: pid in m.at ==> StageOk(m.s.world, m.at[pid])
  }

  /** What a step of a migration is in the system that migrates in one piece: nothing, or, if it is the
    * migration's last step, all of it. */
  function ActOf(m: Mixed, move: Move): Option<Act>
    requires CanMove(m, move)
  {
    match move
    case Other(e) => Some(Ordinary(e))
    case Begin(_) => None
    case Look(pid, legacy) => if pid in Moved(m, move).at then None else Some(Migrates(pid, Ports(true, legacy, Throws, false, false), true))
    case Resolve(pid, mode) =>
      if pid in Moved(m, move).at then None else Some(Migrates(pid, Ports(true, Gives(m.at[pid].was), mode, false, false), true))
    case ReadCurrent(pid, readable) =>
      if pid in Moved(m, move).at then None else Some(Migrates(pid, AllOf(m.at[pid], readable), true))
    case CreateRecord(pid, reply) =>
      if pid in Moved(m, move).at then None
      else if reply == Fails(true) && RefOf(m.at[pid].task) !in m.s.world.records then Some(Migrates(pid, AllOf(m.at[pid], true), false))
      else Some(Migrates(pid, AllOf(m.at[pid], reply.Answered?), true))
    case ReadAgain(pid, readable) => Some(Migrates(pid, AllOf(m.at[pid], readable), true))
    case Dies(pid) => Some(Ordinary(Crash(pid)))
  }

  /** The answers a migration has had: all of them, unless the last call threw. */
  function AllOf(q: Stage, works: bool): Ports
    requires !q.Taken? && !q.Looked?
  {
    Ports(true, Gives(q.was), Gives(Some(q.task.mode)), works, true)
  }

  function Acts(m: Mixed, moves: seq<Move>): seq<Act>
    requires IsCourse(m, moves)
    decreases |moves|
  {
    if moves == [] then []
    else
      var first, rest := ActOf(m, moves[0]), Acts(Moved(m, moves[0]), moves[1..]);
      if first.Some? then [first.value] + rest else rest
  }

  lemma {:induction false} SameEffect(s: State, t: State, e: Event)
    requires s.world == t.world && s.clock == t.clock && Enabled(s, e) && Enabled(t, e)
    requires Actor(e).Some? && Actor(e).value in s.procs ==> Actor(e).value in t.procs && t.procs[Actor(e).value] == s.procs[Actor(e).value]
    ensures EffectOf(t, e) == EffectOf(s, e)
  {
    hide NextEffect, Decide, ClaimEffect, BeatEffect, FinishEffect, CreateEffect;
  }

  lemma {:induction false} ViewEnabled(m: Mixed, e: Event)
    requires WellFormed(m) && CanMove(m, Other(e))
    ensures Enabled(View(m), e)
  {}

  lemma {:induction false} OtherWellFormed(m: Mixed, e: Event)
    requires WellFormed(m) && CanMove(m, Other(e))
    ensures WellFormed(Moved(m, Other(e)))
  {
    forall ref | ref in m.s.world.records ensures ref in Step(m.s, e).world.records { StepGeneration(m.s, e, ref); }
    hide EffectOf, Enabled, Matching;
  }

  lemma {:induction false} PlacedJoined(procs: map<nat, Pc>, at: map<nat, Stage>, actor: Option<nat>, pc: Option<Pc>)
    requires actor.Some? ==> actor.value !in at
    ensures Joined(Placed(procs, actor, pc), at) == Placed(Joined(procs, at), actor, pc)
  {}

  lemma {:induction false} OtherViewed(m: Mixed, e: Event)
    requires WellFormed(m) && CanMove(m, Other(e))
    ensures Enabled(View(m), e) && View(Moved(m, Other(e))) == Step(View(m), e)
  {
    ViewEnabled(m, e);
    PlacedJoined(m.s.procs, m.at, Actor(e), EffectOf(m.s, e).pc);
    SameEffectViewed(m, e);
    hide EffectOf, Enabled, WellFormed, Joined, Placed;
  }

  lemma {:induction false} SameEffectViewed(m: Mixed, e: Event)
    requires WellFormed(m) && CanMove(m, Other(e)) && Enabled(View(m), e)
    ensures EffectOf(View(m), e) == EffectOf(m.s, e)
  {
    SameEffect(m.s, View(m), e);
    hide EffectOf, Enabled, StageOk;
  }

  lemma {:induction false} Stays(m: Mixed, pid: nat, q: Stage)
    requires WellFormed(m) && pid in m.at && m.at[pid].d == q.d && StageOk(m.s.world, q)
    ensures WellFormed(Goes(m, pid, q)) && View(Goes(m, pid, q)) == View(m)
  {
    hide StageOk;
    assert View(Goes(m, pid, q)).procs == View(m).procs;
  }

  lemma {:induction false} LeavesViewed(m: Mixed, pid: nat, migration: Migration)
    requires WellFormed(m) && pid in m.at
    ensures var t := Leaves(m, pid, m.at[pid].d, migration);
      && WellFormed(t)
      && View(t) == View(m).(procs := View(m).procs[pid := Onward(m.at[pid].d, migration)])
  {
    hide StageOk, Onward;
    var t := Leaves(m, pid, m.at[pid].d, migration);
    assert View(t).procs == View(m).procs[pid := Onward(m.at[pid].d, migration)];
  }

  lemma {:induction false} BeginViewed(m: Mixed, pid: nat)
    requires WellFormed(m) && CanMove(m, Begin(pid))
    ensures WellFormed(Moved(m, Begin(pid))) && View(Moved(m, Begin(pid))) == View(m)
  {
    assert View(Moved(m, Begin(pid))).procs == View(m).procs;
  }

  lemma {:induction false} DropJoined(procs: map<nat, Pc>, at: map<nat, Stage>, pid: nat)
    requires pid in at && pid !in procs
    ensures pid in Joined(procs, at) && Joined(procs, at - {pid}) == Joined(procs, at) - {pid}
  {}

  lemma {:induction false} DiesViewed(m: Mixed, pid: nat)
    requires WellFormed(m) && CanMove(m, Dies(pid))
    ensures Can(View(m), Ordinary(Crash(pid))) && View(Moved(m, Dies(pid))) == Do(View(m), Ordinary(Crash(pid)))
    ensures WellFormed(Moved(m, Dies(pid)))
  {
    DropJoined(m.s.procs, m.at, pid);
    hide Joined, StageOk;
  }

  lemma {:induction false} StoreViewed(m: Mixed, task: Task, was: LegacyRecord)
    requires WellFormed(m)
    ensures var t := StoreUpgrade(m, task, was);
      && WellFormed(t)
      && View(t) == View(m).(world := m.s.world.(records := m.s.world.records[RefOf(task) := Upgrade(was, task)]))
  {
    hide Upgrade, Matching;
    assert View(StoreUpgrade(m, task, was)).procs == View(m).procs;
  }

  lemma {:induction false} ViewAt(m: Mixed, pid: nat)
    requires WellFormed(m) && pid in m.at
    ensures pid in View(m).procs && View(m).procs[pid] == Received(m.at[pid].d) && View(m).world == m.s.world && View(m).clock == m.s.clock
    ensures StageOk(m.s.world, m.at[pid])
  {}

  /** Leaving as the migration in one piece does. */
  lemma {:induction false} LeavesAs(m: Mixed, pid: nat, ports: Ports, migration: Migration)
    requires WellFormed(m) && pid in m.at
    requires Migrate(m.at[pid].d.payload.request, ports, m.s.world.records, m.s.world.records) == Parsed(migration, m.s.world.records)
    ensures var a, t := Migrates(pid, ports, true), Leaves(m, pid, m.at[pid].d, migration);
      Can(View(m), a) && WellFormed(t) && View(t) == Do(View(m), a)
  {
    ViewAt(m, pid);
    LeavesViewed(m, pid, migration);
    hide Migrate, View, WellFormed, Onward, Leaves;
  }

  predicate Viewed(m: Mixed, move: Move)
    requires CanMove(m, move)
  {
    && WellFormed(Moved(m, move))
    && var a := ActOf(m, move);
       if a.Some? then Can(View(m), a.value) && View(Moved(m, move)) == Do(View(m), a.value) else View(Moved(m, move)) == View(m)
  }

  lemma {:induction false} LookViewed(m: Mixed, pid: nat, legacy: Answer<LegacyRecord>)
    requires WellFormed(m) && CanMove(m, Look(pid, legacy))
    ensures Viewed(m, Look(pid, legacy))
  {
    var q := m.at[pid];
    ViewAt(m, pid);
    hide WellFormed, View, Do, Can, Onward, Matching;
    if legacy.Throws? {
      LeavesAs(m, pid, Ports(true, legacy, Throws, false, false), Unavailable);
    } else if legacy.value.Some? && !Matching(legacy.value.value, q.d.payload.request) {
      LeavesAs(m, pid, Ports(true, legacy, Throws, false, false), Mismatch);
    } else {
      Stays(m, pid, Looked(q.d, legacy.value));
    }
  }

  lemma {:induction false} ResolveViewed(m: Mixed, pid: nat, mode: Answer<Mode>)
    requires WellFormed(m) && CanMove(m, Resolve(pid, mode))
    ensures Viewed(m, Resolve(pid, mode))
  {
    var q := m.at[pid];
    ViewAt(m, pid);
    hide WellFormed, View, Do, Can, Onward, Matching;
    if mode.Throws? || mode.value.None? {
      LeavesAs(m, pid, Ports(true, Gives(q.was), mode, false, false), Unavailable);
    } else {
      Stays(m, pid, Resolved(q.d, q.was, MigratedTask(q.d.payload.request, mode.value.value)));
    }
  }

  lemma {:induction false} ReadCurrentViewed(m: Mixed, pid: nat, readable: bool)
    requires WellFormed(m) && CanMove(m, ReadCurrent(pid, readable))
    ensures Viewed(m, ReadCurrent(pid, readable))
  {
    var q := m.at[pid];
    var ref := RefOf(q.task);
    ViewAt(m, pid);
    hide WellFormed, View, Do, Can, Onward, Matching, Bound;
    if readable && ref !in m.s.world.records && q.was.Some? {
      Stays(m, pid, Absent(q.d, q.was, q.task));
    } else {
      LeavesAs(m, pid, AllOf(q, readable),
        if readable && ref in m.s.world.records then Bound(m.s.world.records[ref], q.task) else Unavailable);
    }
  }

  lemma {:induction false} ReadAgainViewed(m: Mixed, pid: nat, readable: bool)
    requires WellFormed(m) && CanMove(m, ReadAgain(pid, readable))
    ensures Viewed(m, ReadAgain(pid, readable))
  {
    var q := m.at[pid];
    ViewAt(m, pid);
    hide WellFormed, View, Do, Can, Onward, Matching, Bound, Leaves;
    LeavesAs(m, pid, AllOf(q, readable), if readable then Bound(m.s.world.records[RefOf(q.task)], q.task) else Unavailable);
  }

  lemma {:induction false} MigrateStores(q: Stage, records: map<Reference, Record>)
    requires q.Absent? && q.d.payload.LegacyText? && RefOf(q.task) !in records && q.was.Some? && Matching(q.was.value, q.d.payload.request)
    requires q.task == MigratedTask(q.d.payload.request, q.task.mode)
    ensures var created := Upgrade(q.was.value, q.task);
      Migrate(q.d.payload.request, AllOf(q, true), records, records) == Parsed(Bound(created, q.task), records[RefOf(q.task) := created])
  {
    hide Matching, Upgrade, Bound;
  }

  /** The create that finds the place free writes what the migration in one piece writes. */
  lemma {:induction false} CreatesAs(m: Mixed, pid: nat, answered: bool)
    requires WellFormed(m) && pid in m.at && m.at[pid].Absent? && RefOf(m.at[pid].task) !in m.s.world.records && m.at[pid].was.Some?
    ensures var q, u := m.at[pid], StoreUpgrade(m, m.at[pid].task, m.at[pid].was.value);
      var a, t := Migrates(pid, AllOf(q, true), answered), Leaves(u, pid, q.d, if answered then Bound(Upgrade(q.was.value, q.task), q.task) else Unavailable);
      Can(View(m), a) && WellFormed(t) && View(t) == Do(View(m), a)
  {
    var q := m.at[pid];
    var u := StoreUpgrade(m, q.task, q.was.value);
    var migration := if answered then Bound(Upgrade(q.was.value, q.task), q.task) else Unavailable;
    hide Matching, Bound, Upgrade, Migrate, AllOf, Onward;
    ViewAt(m, pid);
    MigrateStores(q, m.s.world.records);
    StoreViewed(m, q.task, q.was.value);
    LeavesViewed(u, pid, migration);
    hide WellFormed, View, Leaves, StageOk;
  }

  lemma {:induction false} CreateViewed(m: Mixed, pid: nat, reply: Reply)
    requires WellFormed(m) && CanMove(m, CreateRecord(pid, reply))
    ensures Viewed(m, CreateRecord(pid, reply))
  {
    var q := m.at[pid];
    ViewAt(m, pid);
    hide WellFormed, View, Do, Can, Onward, Matching, Bound, Upgrade;
    if RefOf(q.task) !in m.s.world.records && reply != Fails(false) {
      CreatesAs(m, pid, reply.Answered?);
    } else if reply.Answered? {
      Stays(m, pid, Lost(q.d, q.was, q.task));
    } else {
      LeavesAs(m, pid, AllOf(q, false), Unavailable);
    }
  }

  lemma {:induction false} MoveViewed(m: Mixed, move: Move)
    requires WellFormed(m) && CanMove(m, move)
    ensures Viewed(m, move)
  {
    hide *;
    match move
    case Other(e) => OtherIs(m, e);
    case Begin(pid) => BeginIs(m, pid);
    case Look(pid, legacy) => LookViewed(m, pid, legacy);
    case Resolve(pid, mode) => ResolveViewed(m, pid, mode);
    case ReadCurrent(pid, readable) => ReadCurrentViewed(m, pid, readable);
    case CreateRecord(pid, reply) => CreateViewed(m, pid, reply);
    case ReadAgain(pid, readable) => ReadAgainViewed(m, pid, readable);
    case Dies(pid) => DiesIs(m, pid);
  }

  lemma {:induction false} OtherIs(m: Mixed, e: Event)
    requires WellFormed(m) && CanMove(m, Other(e))
    ensures Viewed(m, Other(e))
  {
    OtherWellFormed(m, e);
    OtherViewed(m, e);
    hide WellFormed, View, Step, Enabled;
  }

  lemma {:induction false} BeginIs(m: Mixed, pid: nat)
    requires WellFormed(m) && CanMove(m, Begin(pid))
    ensures Viewed(m, Begin(pid))
  {
    BeginViewed(m, pid);
  }

  lemma {:induction false} DiesIs(m: Mixed, pid: nat)
    requires WellFormed(m) && CanMove(m, Dies(pid))
    ensures Viewed(m, Dies(pid))
  {
    DiesViewed(m, pid);
  }

  /** However the steps of migrations and of everybody else interleave, the run is one of the system in
    * which each migration happens in one piece, at its own last step. */
  lemma {:induction false} MigrationIsAtomic(m: Mixed, moves: seq<Move>)
    requires WellFormed(m) && IsCourse(m, moves)
    ensures IsHistory(View(m), Acts(m, moves)) && History(View(m), Acts(m, moves)) == View(Course(m, moves))
    ensures WellFormed(Course(m, moves))
    decreases |moves|
  {
    if moves != [] {
      MoveViewed(m, moves[0]);
      var rest := Acts(Moved(m, moves[0]), moves[1..]);
      hide Moved, CanMove, View, WellFormed, ActOf, Do, Can;
      MigrationIsAtomic(Moved(m, moves[0]), moves[1..]);
      var first := ActOf(m, moves[0]);
      if first.Some? { assert ([first.value] + rest)[1..] == rest; }
    }
  }

  // ---- what holds over every such run ----

  /** The v2 record of this very task is on file. */
  predicate OnFile(s: State, task: Task) {
    RefOf(task) in s.world.records && InScope(s.world.records[RefOf(task)], RefOf(task)) && s.world.records[RefOf(task)].task == task
  }

  lemma {:induction false} StepOnFile(s: State, e: Event, task: Task)
    requires Enabled(s, e) && OnFile(s, task)
    ensures OnFile(Step(s, e), task)
  {
    StepWrites(s, e);
    hide Step, Enabled, Mutate;
  }

  lemma {:induction false} MigrateOnFile(request: Request, ports: Ports, records: map<Reference, Record>, ref: Reference)
    requires ref in records
    ensures var after := Migrate(request, ports, records, records).records; ref in after && after[ref] == records[ref]
  {}

  lemma {:induction false} DoOnFile(s: State, a: Act, task: Task)
    requires Can(s, a) && OnFile(s, task)
    ensures OnFile(Do(s, a), task)
  {
    if a.Ordinary? { StepOnFile(s, a.e, task); }
    else { MigrateOnFile(s.procs[a.pid].d.payload.request, a.ports, s.world.records, RefOf(task)); }
    hide Step, Enabled, Migrate;
  }

  /** Whoever creates a v2 record, migrator or enqueuer, it keeps its task for good. */
  lemma {:induction false} FirstCreatedStays(s: State, acts: seq<Act>, task: Task)
    requires IsHistory(s, acts) && OnFile(s, task)
    ensures OnFile(History(s, acts), task)
    decreases |acts|
  {
    if acts != [] {
      DoOnFile(s, acts[0], task);
      hide Do, Can, OnFile;
      FirstCreatedStays(Do(s, acts[0]), acts[1..], task);
    }
  }

  function ClaimsIn(s: State, acts: seq<Act>, ref: Reference): nat
    requires IsHistory(s, acts)
    decreases |acts|
  {
    if acts == [] then 0
    else (if acts[0].Ordinary? && Claims(s, acts[0].e, ref) then 1 else 0) + ClaimsIn(Do(s, acts[0]), acts[1..], ref)
  }

  /** Migrations going on beside it never touch the fencing: the generation of a record counts its claims. */
  lemma {:induction false} GenerationStillCounts(s: State, acts: seq<Act>, ref: Reference)
    requires IsHistory(s, acts) && ref in s.world.records
    ensures ref in History(s, acts).world.records
    ensures Generation(History(s, acts), ref) == Generation(s, ref) + ClaimsIn(s, acts, ref)
    decreases |acts|
  {
    if acts != [] {
      var a := acts[0];
      if a.Ordinary? { StepGeneration(s, a.e, ref); }
      else { MigrateOnFile(s.procs[a.pid].d.payload.request, a.ports, s.world.records, ref); }
      hide Step, Enabled, Migrate, Claims;
      GenerationStillCounts(Do(s, a), acts[1..], ref);
    }
  }

  /** So a lease that is not the newest writes nothing in any later state. */
  lemma {:induction false} StaleStays(s: State, acts: seq<Act>, l: Lease, mutation: Mutation)
    requires IsHistory(s, acts) && RefOf(l.task) in s.world.records && l.generation < Generation(s, RefOf(l.task))
    ensures Swap(History(s, acts).world.records, RefOf(l.task), IdentityOf(l), mutation) == Refused
  {
    GenerationStillCounts(s, acts, RefOf(l.task));
    hide History, Guarded;
  }

  // ---- migrators against each other, and against an enqueue ----

  /** Whatever this act creates for the work of the task is the task: an enqueue sends it, a v1 record is
    * of its request, and the resolver gives its mode. */
  predicate Agrees(s: State, a: Act, task: Task)
    requires Can(s, a)
  {
    match a
    case Ordinary(e) => e.StartEnqueue? && RefOf(e.task) == RefOf(task) ==> e.task == task
    case Migrates(pid, ports, _) =>
      var request := s.procs[pid].d.payload.request;
      request.ref == RefOf(task) ==>
        && (ports.legacy.Gives? && ports.legacy.value.Some? ==> ports.legacy.value.value.request == task.request)
        && (request == task.request && ports.mode.Gives? && ports.mode.value.Some? ==> ports.mode.value.value == task.mode)
  }

  predicate AllAgree(s: State, acts: seq<Act>, task: Task)
    requires IsHistory(s, acts)
    decreases |acts|
  {
    acts == [] || (Agrees(s, acts[0], task) && AllAgree(Do(s, acts[0]), acts[1..], task))
  }

  /** No other task has taken its place. */
  predicate NoOther(s: State, task: Task) { RefOf(task) in s.world.records ==> OnFile(s, task) }

  lemma {:induction false} MigrateCreates(request: Request, ports: Ports, records: map<Reference, Record>, ref: Reference)
    requires ref !in records && ref in Migrate(request, ports, records, records).records
    ensures request.ref == ref && ports.legacy.Gives? && ports.legacy.value.Some? && Matching(ports.legacy.value.value, request)
    ensures ports.mode.Gives? && ports.mode.value.Some?
    ensures Migrate(request, ports, records, records).records[ref] == Upgrade(ports.legacy.value.value, MigratedTask(request, ports.mode.value.value))
  {}

  lemma {:induction false} StepCreates(s: State, e: Event, ref: Reference)
    requires Enabled(s, e) && ref !in s.world.records && ref in Step(s, e).world.records
    ensures e.StartEnqueue? && RefOf(e.task) == ref && Step(s, e).world.records[ref] == NewRecord(e.task) && CanonicalTask(e.task)
  {
    StepWrites(s, e);
    hide Step;
  }

  lemma {:induction false} NoOtherKept(s: State, a: Act, task: Task)
    requires Can(s, a) && NoOther(s, task) && Agrees(s, a, task) && task == MigratedTask(task.request, task.mode)
    ensures NoOther(Do(s, a), task)
  {
    var ref := RefOf(task);
    if ref in s.world.records {
      DoOnFile(s, a, task);
    } else if ref in Do(s, a).world.records {
      if a.Ordinary? { StepCreates(s, a.e, ref); }
      else { MigrateCreates(s.procs[a.pid].d.payload.request, a.ports, s.world.records, ref); }
    }
    hide Step, Enabled, Migrate;
  }

  lemma {:induction false} NoOtherThroughout(s: State, acts: seq<Act>, task: Task)
    requires IsHistory(s, acts) && NoOther(s, task) && AllAgree(s, acts, task) && task == MigratedTask(task.request, task.mode)
    ensures NoOther(History(s, acts), task)
    decreases |acts|
  {
    if acts != [] {
      NoOtherKept(s, acts[0], task);
      hide Do, Can, NoOther, Agrees;
      NoOtherThroughout(Do(s, acts[0]), acts[1..], task);
    }
  }

  /** Any number of migrators of one work, crashing and starting over, never stand in each other's way:
    * as long as all agree on the task, a v1 message of it is refused exactly for a v1 record of other work,
    * and a migration that goes on does so with the task that is on file. */
  lemma {:induction false} MigratorsAgree(s: State, acts: seq<Act>, a: Act, task: Task)
    requires task == MigratedTask(task.request, task.mode) && NoOther(s, task) && IsHistory(s, acts) && AllAgree(s, acts, task)
    requires var t := History(s, acts);
      Can(t, a) && Agrees(t, a, task) && a.Migrates? && t.procs[a.pid].d.payload == LegacyText(task.request)
    ensures var t := History(s, acts);
      && (InOnePiece(t, a).migration.Mismatch? <==>
            a.ports.capable && a.ports.legacy.Gives? && a.ports.legacy.value.Some? && !Matching(a.ports.legacy.value.value, task.request))
      && (InOnePiece(t, a).migration.Migrated? ==> InOnePiece(t, a).migration.task == task && OnFile(Do(t, a), task))
  {
    NoOtherThroughout(s, acts, task);
    hide History, AllAgree, IsHistory;
  }

  /** The states of such a race. */
  function Race(k: nat, w: World, clock: int, d: Delivery, was: LegacyRecord, task: Task, other: Task): Mixed {
    var g := w.(records := w.records[RefOf(other) := NewRecord(other)]);
    if k == 0 then Mixed(State(w, clock, map[0 := Received(d)]), map[])
    else if k == 1 then Mixed(State(w, clock, map[]), map[0 := Taken(d)])
    else if k == 2 then Mixed(State(w, clock, map[]), map[0 := Looked(d, Some(was))])
    else if k == 3 then Mixed(State(w, clock, map[]), map[0 := Resolved(d, Some(was), task)])
    else if k == 4 then Mixed(State(w, clock, map[]), map[0 := Absent(d, Some(was), task)])
    else if k == 5 then Mixed(State(g, clock, map[1 := Sending(other)]), map[0 := Absent(d, Some(was), task)])
    else if k == 6 then Mixed(State(g, clock, map[1 := Sending(other)]), map[0 := Lost(d, Some(was), task)])
    else Mixed(State(g, clock, map[0 := Poisoning(d, "unreadable", None), 1 := Sending(other)]), map[])
  }

  function RaceMoves(was: LegacyRecord, mode: Mode, other: Task): (r: seq<Move>)
    ensures |r| == 7
  {
    [Begin(0), Look(0, Gives(Some(was))), Resolve(0, Gives(Some(mode))), ReadCurrent(0, true),
     Other(StartEnqueue(1, other)), CreateRecord(0, Answered), ReadAgain(0, true)]
  }

  predicate Racing(w: World, d: Delivery, was: LegacyRecord, task: Task, other: Task) {
    && d.payload.LegacyText? && Matching(was, d.payload.request) && d.payload.request.ref !in w.records
    && task == MigratedTask(d.payload.request, task.mode)
    && CanonicalTask(other) && RefOf(other) == RefOf(task) && other != task
  }

  predicate OneMove(m: Mixed, move: Move, n: Mixed) { CanMove(m, move) && Moved(m, move) == n }

  lemma {:induction false} RaceReads(k: nat, w: World, clock: int, d: Delivery, was: LegacyRecord, task: Task, other: Task)
    requires Racing(w, d, was, task, other) && k < 4
    ensures OneMove(Race(k, w, clock, d, was, task, other), RaceMoves(was, task.mode, other)[k], Race(k + 1, w, clock, d, was, task, other))
  {
    hide Matching, CanonicalTask, Step, Enabled, Bound;
  }

  lemma {:induction false} RaceLoses(k: nat, w: World, clock: int, d: Delivery, was: LegacyRecord, task: Task, other: Task)
    requires Racing(w, d, was, task, other) && 4 <= k < 7
    ensures OneMove(Race(k, w, clock, d, was, task, other), RaceMoves(was, task.mode, other)[k], Race(k + 1, w, clock, d, was, task, other))
  {
    hide Matching, NextEffect;
    if k == 4 { hide Bound; } else { hide EffectOf, Step, Enabled; }
  }

  lemma {:induction false} RaceRuns(k: nat, w: World, clock: int, d: Delivery, was: LegacyRecord, task: Task, other: Task)
    requires Racing(w, d, was, task, other) && k <= 7
    ensures var m, moves := Race(k, w, clock, d, was, task, other), RaceMoves(was, task.mode, other)[k..];
      IsCourse(m, moves) && Course(m, moves) == Race(7, w, clock, d, was, task, other)
    decreases 7 - k
  {
    hide Race, Racing, CanMove, Moved, RaceMoves;
    if k < 7 {
      if k < 4 { RaceReads(k, w, clock, d, was, task, other); } else { RaceLoses(k, w, clock, d, was, task, other); }
      RaceRuns(k + 1, w, clock, d, was, task, other);
      assert RaceMoves(was, task.mode, other)[k..][1..] == RaceMoves(was, task.mode, other)[k + 1..];
    }
  }

  /** An enqueue of other v2 work under the reference, between a migrator's read and its create, wins: the
    * accepted v1 message is poisoned. */
  lemma {:induction false} EnqueueWinsRace(w: World, clock: int, d: Delivery, was: LegacyRecord, mode: Mode, other: Task)
    requires d.payload.LegacyText? && Racing(w, d, was, MigratedTask(d.payload.request, mode), other)
    ensures var m, moves := Mixed(State(w, clock, map[0 := Received(d)]), map[]), RaceMoves(was, mode, other);
      && WellFormed(m) && IsCourse(m, moves)
      && var t := Course(m, moves).s;
         && t.procs == map[0 := Poisoning(d, "unreadable", None), 1 := Sending(other)]
         && t.world == w.(records := w.records[RefOf(other) := NewRecord(other)])
  {
    RaceRuns(0, w, clock, d, was, MigratedTask(d.payload.request, mode), other);
    assert RaceMoves(was, mode, other)[0..] == RaceMoves(was, mode, other);
    hide IsCourse, Course, RaceMoves, Racing, NewRecord;
  }
}
