// The DEV release protocol as a transition system.
//
// Any number of prepared plans share one bucket holding the lock object and the
// CURRENT record.  Each plan has its own directory with a journal file and at most
// one operator process at a time.  A step touches one shared object or writes the
// journal once, so every interleaving of plans and every crash between two writes
// is a run of `Apply`.
module ReleaseProtocol {
  import opened Options

  /******* Records, plans and journals *******/

  type PlanId = string

  // The "planId" text of a record: a plan's own id, or "rollback-" followed by it.
  datatype Label = Release(id: PlanId) | Rollback(id: PlanId)

  datatype Manifest = Manifest(application: nat, database: nat)

  // status "SUCCEEDED" with its artifacts, or status "BASELINE_RESTORED".
  datatype Content =
    | Succeeded(manifest: Manifest, configurationHash: nat)
    | BaselineRestored(forwardDatabase: nat)

  // One version of CURRENT.  Its ETag is a digest of exactly these contents, and
  // digests are injective, so an ETag is represented by the record itself.
  datatype Record = Record(tag: Label, content: Content, verifiedAt: nat)

  datatype Stage = Database | Cloud(noChanges: bool) | Frontend

  // `base` is previousEtag; `restores` counts the rollback stages (root, worker).
  datatype Plan = Plan(
    base: Option<Record>, manifest: Manifest, configurationHash: nat,
    blocked: bool, stages: seq<Stage>, restores: nat)

  datatype Status = Available | InProgress | Complete | Failed

  // A CloudFormation change set, with the number of execute calls made for it.
  datatype ChangeSet = ChangeSet(requests: nat, status: Status)

  datatype RestoreSet = RestoreSet(stage: nat, changeSet: ChangeSet)

  datatype Saved = Saved(restoreSet: nat, noChanges: bool, requested: bool, completed: bool)

  // execution.json
  datatype Journal = Journal(
    lock: nat, completedStages: seq<Stage>,
    recordPublished: bool, lockReleased: bool,
    rollbackRequested: bool, rollbackBase: Option<Record>, rollbackStages: map<nat, Saved>,
    rollbackRecordPublished: bool, rollbackComplete: bool)

  // Where the operator process stands, with the values it keeps in memory.
  // `back` tells the publishing and unlocking tail of rollback from that of verify.
  datatype Pc =
    | Idle
    | ExecuteChecked
    | ExecuteLocked(version: nat)
    | ExecuteStage(stage: nat)
    | ExecuteWaiting(stage: nat)
    | ExecuteDone(stage: nat)
    | RollbackLocking(seen: Option<Record>)
    | RollbackRequesting(seen: Option<Record>, version: nat)
    | RestoreStage(stage: nat)
    | RestoreCreated(stage: nat, restoreSet: nat, noChanges: bool)
    | RestoreExecuting(stage: nat)
    | RestoreWaiting(stage: nat)
    | RestoreDone(stage: nat)
    | Reading(back: bool)
    | Putting(back: bool)
    | Published(back: bool)
    | Unlocking(back: bool)
    | Deleting(back: bool)
    | Unlocked(back: bool)

  // One plan: its immutable content, its change sets in AWS, its journal on disk
  // and its operator process.
  datatype Operation = Operation(
    plan: Plan, prepared: seq<ChangeSet>, restored: seq<RestoreSet>,
    journal: Option<Journal>, pc: Pc)

  /******* Shared storage *******/

  // `at` is a history variable: the number of CURRENT versions when the lock was taken.
  datatype Lock = Lock(owner: PlanId, version: nat, at: nat)

  datatype Shared = Shared(lock: Option<Lock>, nextVersion: nat, history: seq<Record>)

  function Current(s: Shared): Option<Record> {
    if s.history == [] then None else Some(s.history[|s.history| - 1])
  }

  // Put with IfNoneMatch "*": the lock object with a fresh version.
  function PutLock(s: Shared, id: PlanId): Option<Shared> {
    if s.lock.Some? then None
    else Some(s.(lock := Some(Lock(id, s.nextVersion, |s.history|)), nextVersion := s.nextVersion + 1))
  }

  // Put with IfMatch on an ETag, or IfNoneMatch "*" when there is none.
  function PutCurrent(s: Shared, record: Record, condition: Option<Record>): Option<Shared> {
    if Current(s) != condition then None
    else Some(s.(history := s.history + [record]))
  }

  // Delete of one named version; deleting an absent version does nothing.
  function DeleteLock(s: Shared, version: nat): Shared {
    if s.lock.Some? && s.lock.value.version == version then s.(lock := None) else s
  }

  function Execute(c: ChangeSet): ChangeSet {
    ChangeSet(c.requests + 1, if c.status == Available then InProgress else c.status)
  }

  /******* Steps of one operator *******/

  function LabelOf(id: PlanId, back: bool): Label {
    if back then Rollback(id) else Release(id)
  }

  // previous-record.json: a restored baseline counts as no previous release.
  function Previous(plan: Plan): Option<Content> {
    if plan.base.Some? && plan.base.value.content.Succeeded? then Some(plan.base.value.content) else None
  }

  function ReleasedContent(plan: Plan): Content {
    Succeeded(plan.manifest, plan.configurationHash)
  }

  function RestoredContent(plan: Plan, completedStages: seq<Stage>): Content {
    match Previous(plan)
    case Some(previous) =>
      var database :=
        if Database in completedStages then plan.manifest.database else previous.manifest.database;
      Succeeded(Manifest(previous.manifest.application, database), previous.configurationHash)
    case None =>
      BaselineRestored(plan.manifest.database)
  }

  function ContentOf(op: Operation, back: bool): Content
    requires op.journal.Some?
  {
    if back then RestoredContent(op.plan, op.journal.value.completedStages) else ReleasedContent(op.plan)
  }

  // What an existing record with our label must agree on before it is adopted.
  predicate Adoptable(mine: Content, found: Content, back: bool) {
    if back then mine.Succeeded? == found.Succeeded? else mine == found
  }

  function BaseOf(op: Operation, back: bool): Option<Record>
    requires op.journal.Some?
  {
    if back then op.journal.value.rollbackBase else op.plan.base
  }

  predicate CloudIn(op: Operation, status: Status) {
    && |op.prepared| == |op.plan.stages|
    && forall k | 0 <= k < |op.plan.stages| ::
         op.plan.stages[k] == Cloud(false) ==> op.prepared[k].status == status
  }

  type Move = Option<(Shared, Operation)>

  function Stay(s: Shared, op: Operation, pc: Pc): Move {
    Some((s, op.(pc := pc)))
  }

  function Write(s: Shared, op: Operation, journal: Journal, pc: Pc): Move {
    Some((s, op.(journal := Some(journal), pc := pc)))
  }

  // `execute` up to the lock.
  function StartExecute(s: Shared, op: Operation): Move {
    if op.pc != Idle || op.plan.blocked || op.journal.Some? then None
    else if Current(s) != op.plan.base || !CloudIn(op, Available) then None
    else Stay(s, op, ExecuteChecked)
  }

  // `verify` up to its publication: every requested change set has completed.
  function StartVerify(s: Shared, op: Operation): Move {
    if op.journal.None? || op.journal.value.rollbackRequested || !CloudIn(op, Complete) then None
    else Stay(s, op, if op.journal.value.recordPublished then Unlocking(false) else Reading(false))
  }

  // `rollback` up to its lock or its first journal write.
  function StartRollback(s: Shared, id: PlanId, op: Operation): Move {
    if op.pc != Idle || op.journal.None? || op.journal.value.rollbackComplete then None
    else
      var current := Current(s);
      if op.journal.value.rollbackRequested then Stay(s, op, RestoreStage(0))
      else if op.journal.value.recordPublished then
        if current.Some? && current.value.tag == Release(id) then Stay(s, op, RollbackLocking(current)) else None
      else
        if current == op.plan.base then Stay(s, op, RollbackRequesting(current, op.journal.value.lock)) else None
  }

  function AdvanceLock(s: Shared, id: PlanId, op: Operation): Move
    requires op.pc.ExecuteChecked? || op.pc.RollbackLocking?
  {
    match PutLock(s, id)
    case None => None
    case Some(s') =>
      Stay(s', op, if op.pc.ExecuteChecked? then ExecuteLocked(s.nextVersion)
                   else RollbackRequesting(op.pc.seen, s.nextVersion))
  }

  function AdvanceRequest(s: Shared, op: Operation): Move
    requires op.pc.ExecuteLocked? || op.pc.RollbackRequesting?
  {
    if op.pc.ExecuteLocked? then
      Write(s, op, Journal(op.pc.version, [], false, false, false, None, map[], false, false), ExecuteStage(0))
    else if op.journal.None? then None
    else
      Write(s, op, op.journal.value.(lock := op.pc.version, rollbackRequested := true,
                                     rollbackBase := op.pc.seen, rollbackStages := map[]), RestoreStage(0))
  }

  function AdvanceExecute(s: Shared, op: Operation): Move
    requires op.pc.ExecuteStage? || op.pc.ExecuteWaiting? || op.pc.ExecuteDone?
  {
    var i := op.pc.stage;
    if op.journal.None? || |op.prepared| != |op.plan.stages| then None
    else if i >= |op.plan.stages| then
      if op.pc.ExecuteStage? then StartVerify(s, op) else None
    else match op.pc
      case ExecuteStage(_) =>
        if op.plan.stages[i] == Cloud(false) then
          Some((s, op.(prepared := op.prepared[i := Execute(op.prepared[i])], pc := ExecuteWaiting(i))))
        else Stay(s, op, ExecuteDone(i))
      case ExecuteWaiting(_) =>
        if op.prepared[i].status == Complete then Stay(s, op, ExecuteDone(i)) else None
      case ExecuteDone(_) =>
        var journal := op.journal.value;
        Write(s, op, journal.(completedStages := journal.completedStages + [op.plan.stages[i]]), ExecuteStage(i + 1))
  }

  // `restore_stage` for one stage; `noChanges` is what CloudFormation answers on creation.
  function AdvanceRestore(s: Shared, op: Operation, noChanges: bool): Move
    requires op.pc.RestoreStage?
  {
    if op.journal.None? then None
    else
      var journal, i := op.journal.value, op.pc.stage;
      if i >= op.plan.restores then
        Stay(s, op, if journal.rollbackRecordPublished then Unlocking(true) else Reading(true))
      else if i !in journal.rollbackStages then
        Some((s, op.(restored := op.restored + [RestoreSet(i, ChangeSet(0, Available))],
                     pc := RestoreCreated(i, |op.restored|, noChanges))))
      else
        var saved := journal.rollbackStages[i];
        if saved.completed then Stay(s, op, RestoreStage(i + 1))
        else if saved.noChanges then Stay(s, op, RestoreDone(i))
        else if !saved.requested then
          Write(s, op, journal.(rollbackStages := journal.rollbackStages[i := saved.(requested := true)]),
                RestoreExecuting(i))
        else if saved.restoreSet < |op.restored|
             && op.restored[saved.restoreSet].changeSet.status in {InProgress, Complete} then
          Stay(s, op, RestoreWaiting(i))
        else None
  }

  function AdvanceCreated(s: Shared, op: Operation): Move
    requires op.pc.RestoreCreated?
  {
    if op.journal.None? then None
    else
      var journal, i := op.journal.value, op.pc.stage;
      var saved := Saved(op.pc.restoreSet, op.pc.noChanges, false, false);
      Write(s, op, journal.(rollbackStages := journal.rollbackStages[i := saved]), RestoreStage(i))
  }

  function AdvanceRestoring(s: Shared, op: Operation): Move
    requires op.pc.RestoreExecuting? || op.pc.RestoreWaiting? || op.pc.RestoreDone?
  {
    if op.journal.None? || op.pc.stage !in op.journal.value.rollbackStages then None
    else
      var journal, i := op.journal.value, op.pc.stage;
      var saved := journal.rollbackStages[i];
      if saved.restoreSet >= |op.restored| then None
      else
        var target := op.restored[saved.restoreSet];
        if op.pc.RestoreExecuting? then
          var restored := op.restored[saved.restoreSet := target.(changeSet := Execute(target.changeSet))];
          Some((s, op.(restored := restored, pc := RestoreWaiting(i))))
        else if op.pc.RestoreWaiting? then
          if target.changeSet.status == Complete then Stay(s, op, RestoreDone(i)) else None
        else
          Write(s, op, journal.(rollbackStages := journal.rollbackStages[i := saved.(completed := true)]),
                RestoreStage(i + 1))
  }

  // Publication of the record: read CURRENT, adopt or put, then journal it.
  function AdvancePublish(s: Shared, id: PlanId, op: Operation, now: nat): Move
    requires op.pc.Reading? || op.pc.Putting? || op.pc.Published?
  {
    var back := op.pc.back;
    if op.journal.None? then None
    else match op.pc
      case Reading(_) =>
        var current := Current(s);
        if current.Some? && current.value.tag == LabelOf(id, back) then
          if Adoptable(ContentOf(op, back), current.value.content, back) then Stay(s, op, Published(back)) else None
        else Stay(s, op, Putting(back))
      case Putting(_) =>
        (match PutCurrent(s, Record(LabelOf(id, back), ContentOf(op, back), now), BaseOf(op, back))
         case None => None
         case Some(s') => Stay(s', op, Published(back)))
      case Published(_) =>
        var journal := op.journal.value;
        Write(s, op, if back then journal.(rollbackRecordPublished := true) else journal.(recordPublished := true),
              Unlocking(back))
  }

  // `unlock`: read the journaled lock version, delete it, then journal the release.
  function AdvanceUnlock(s: Shared, id: PlanId, op: Operation): Move
    requires op.pc.Unlocking? || op.pc.Deleting? || op.pc.Unlocked?
  {
    var back := op.pc.back;
    if op.journal.None? then None
    else
      var journal := op.journal.value;
      match op.pc
      case Unlocking(_) =>
        if !back && journal.lockReleased then Stay(s, op, Idle)
        else if s.lock.None? || s.lock.value.version != journal.lock then Stay(s, op, Unlocked(back))
        else if s.lock.value.owner == id then Stay(s, op, Deleting(back))
        else None
      case Deleting(_) => Stay(DeleteLock(s, journal.lock), op, Unlocked(back))
      case Unlocked(_) =>
        Write(s, op, journal.(lockReleased := true, rollbackComplete := journal.rollbackComplete || back), Idle)
  }

  function Advance(s: Shared, id: PlanId, op: Operation, now: nat, noChanges: bool): Move {
    match op.pc
    case Idle => None
    case ExecuteChecked => AdvanceLock(s, id, op)
    case RollbackLocking(_) => AdvanceLock(s, id, op)
    case ExecuteLocked(_) => AdvanceRequest(s, op)
    case RollbackRequesting(_, _) => AdvanceRequest(s, op)
    case ExecuteStage(_) => AdvanceExecute(s, op)
    case ExecuteWaiting(_) => AdvanceExecute(s, op)
    case ExecuteDone(_) => AdvanceExecute(s, op)
    case Reading(_) => AdvancePublish(s, id, op, now)
    case Putting(_) => AdvancePublish(s, id, op, now)
    case Published(_) => AdvancePublish(s, id, op, now)
    case Unlocking(_) => AdvanceUnlock(s, id, op)
    case Deleting(_) => AdvanceUnlock(s, id, op)
    case Unlocked(_) => AdvanceUnlock(s, id, op)
    case RestoreStage(_) => AdvanceRestore(s, op, noChanges)
    case RestoreCreated(_, _, _) => AdvanceCreated(s, op)
    case RestoreExecuting(_) => AdvanceRestoring(s, op)
    case RestoreWaiting(_) => AdvanceRestoring(s, op)
    case RestoreDone(_) => AdvanceRestoring(s, op)
  }

  /******* The whole system *******/

  datatype World = World(shared: Shared, ops: map<PlanId, Operation>)

  datatype Command = ExecuteCommand | VerifyCommand | RollbackCommand

  // `Crash` is a crash or any raised error: memory is lost, the journal stays.
  // `Settle` is CloudFormation moving a requested change set on.
  datatype Event =
    | Prepare(id: PlanId, seen: nat, plan: Plan)
    | Start(id: PlanId, command: Command)
    | Step(id: PlanId, now: nat, noChanges: bool)
    | Crash(id: PlanId)
    | SettlePrepared(id: PlanId, index: nat, status: Status)
    | SettleRestored(id: PlanId, index: nat, status: Status)

  const INITIAL := World(Shared(None, 0, []), map[])

  function Settled(c: ChangeSet, status: Status): ChangeSet {
    if c.status == InProgress && status in {Complete, Failed} then c.(status := status) else c
  }

  function OperatorMove(s: Shared, op: Operation, e: Event): Move
    requires !e.Prepare?
  {
    match e
    case Start(_, ExecuteCommand) => StartExecute(s, op)
    case Start(_, VerifyCommand) => if op.pc == Idle then StartVerify(s, op) else None
    case Start(id, RollbackCommand) => StartRollback(s, id, op)
    case Step(id, now, noChanges) => Advance(s, id, op, now, noChanges)
    case Crash(_) => Stay(s, op, Idle)
    case SettlePrepared(_, k, status) =>
      if k < |op.prepared| then Some((s, op.(prepared := op.prepared[k := Settled(op.prepared[k], status)]))) else None
    case SettleRestored(_, k, status) =>
      if k < |op.restored| then
        var settled := op.restored[k].(changeSet := Settled(op.restored[k].changeSet, status));
        Some((s, op.(restored := op.restored[k := settled])))
      else None
  }

  // `prepare` reads CURRENT first and publishes its plan later, so `seen` may be any
  // number of versions that CURRENT has had.  Plan ids are fresh.
  function Prepared(w: World, e: Event): Option<World>
    requires e.Prepare?
  {
    if e.id in w.ops || e.seen > |w.shared.history| then None
    else
      var base := if e.seen == 0 then None else Some(w.shared.history[e.seen - 1]);
      var unexecuted := seq(|e.plan.stages|, _ => ChangeSet(0, Available));
      Some(w.(ops := w.ops[e.id := Operation(e.plan.(base := base), unexecuted, [], None, Idle)]))
  }

  function Apply(w: World, e: Event): Option<World> {
    if e.Prepare? then Prepared(w, e)
    else if e.id !in w.ops then None
    else
      match OperatorMove(w.shared, w.ops[e.id], e)
      case None => None
      case Some((s, op)) => Some(World(s, w.ops[e.id := op]))
  }

  // The world after a run, if every event of it was possible.
  function Run(events: seq<Event>): Option<World> {
    if events == [] then Some(INITIAL)
    else
      var before := Run(events[..|events| - 1]);
      if before.None? then None else Apply(before.value, events[|events| - 1])
  }
}
