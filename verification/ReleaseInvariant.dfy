// The invariant of the release protocol and its preservation by every step.
module ReleaseInvariant {
  import opened Options
  import opened ReleaseProtocol

  /******* What holds of one plan *******/

  predicate HasTag(s: Shared, tag: Label) {
    exists i | 0 <= i < |s.history| :: s.history[i].tag == tag
  }

  // The lock version the plan relies on: from taking it until the record it was
  // taken for has been journaled as published.
  function Holding(op: Operation): Option<nat> {
    match op.pc
    case ExecuteLocked(v) => Some(v)
    case RollbackRequesting(_, v) => Some(v)
    case _ =>
      if op.journal.None? then None
      else
        var journal := op.journal.value;
        var published := if journal.rollbackRequested then journal.rollbackRecordPublished else journal.recordPublished;
        if published then None else Some(journal.lock)
  }

  predicate Publishing(pc: Pc) { pc.Reading? || pc.Putting? || pc.Published? }

  predicate Releasing(pc: Pc) { pc.Unlocking? || pc.Deleting? || pc.Unlocked? }

  predicate Executing(pc: Pc) { pc.ExecuteStage? || pc.ExecuteWaiting? || pc.ExecuteDone? }

  predicate Restoring(pc: Pc) {
    pc.RestoreStage? || pc.RestoreCreated? || pc.RestoreExecuting? || pc.RestoreWaiting? || pc.RestoreDone?
  }

  // The journal agrees with where the operator stands.
  predicate PcOk(s: Shared, id: PlanId, op: Operation) {
    match op.journal
    case None => op.pc == Idle || op.pc.ExecuteChecked? || op.pc.ExecuteLocked?
    case Some(journal) =>
      && !op.pc.ExecuteChecked? && !op.pc.ExecuteLocked?
      && (Executing(op.pc) ==> !journal.recordPublished && !journal.rollbackRequested)
      && (Restoring(op.pc) ==> journal.rollbackRequested)
      && (Publishing(op.pc) ==>
            journal.rollbackRequested == op.pc.back
            && !(if op.pc.back then journal.rollbackRecordPublished else journal.recordPublished))
      && (Releasing(op.pc) ==>
            journal.rollbackRequested == op.pc.back
            && (if op.pc.back then journal.rollbackRecordPublished else journal.recordPublished))
      && (op.pc.RollbackLocking? ==>
            !journal.rollbackRequested && journal.recordPublished
            && op.pc.seen.Some? && op.pc.seen.value.tag == Release(id))
      && (op.pc.RollbackRequesting? ==>
            !journal.rollbackRequested
            && (if journal.recordPublished then op.pc.seen.Some? && op.pc.seen.value.tag == Release(id)
                else op.pc.version == journal.lock && op.pc.seen == op.plan.base == Current(s)))
  }

  // A version this plan created: no other plan's lock can carry it.
  predicate Owned(s: Shared, id: PlanId, version: nat) {
    && version < s.nextVersion
    && (s.lock.Some? && s.lock.value.version == version ==> s.lock.value.owner == id)
  }

  // Whether the plan's lock was taken, or is now kept, for its rollback record.
  predicate ForRollback(op: Operation) {
    && op.journal.Some?
    && (op.journal.value.rollbackRequested || (op.pc.RollbackRequesting? && op.journal.value.recordPublished))
  }

  // The lock is the plan's own, and since it was taken CURRENT has changed at most
  // once: by the record the lock is kept for.
  predicate Held(s: Shared, id: PlanId, version: nat, back: bool) {
    && s.lock.Some? && s.lock.value.owner == id && s.lock.value.version == version
    && (if HasTag(s, LabelOf(id, back)) then
          |s.history| == s.lock.value.at + 1 && s.history[|s.history| - 1].tag == LabelOf(id, back)
        else |s.history| == s.lock.value.at)
  }

  predicate LockOk(s: Shared, id: PlanId, op: Operation) {
    && (op.journal.Some? ==> Owned(s, id, op.journal.value.lock))
    && (Holding(op).Some? ==> Owned(s, id, Holding(op).value) && Held(s, id, Holding(op).value, ForRollback(op)))
  }

  // What the journal says of published records.
  predicate PublishedOk(s: Shared, id: PlanId, op: Operation) {
    && (Publishing(op.pc) && op.pc.Published? ==> HasTag(s, LabelOf(id, op.pc.back)))
    && (op.journal.None? || Executing(op.pc) ==> !HasTag(s, Release(id)) && !HasTag(s, Rollback(id)))
    && (op.journal.Some? ==>
          var journal := op.journal.value;
          && (journal.recordPublished ==> HasTag(s, Release(id)))
          && (journal.rollbackRecordPublished ==> journal.rollbackRequested && HasTag(s, Rollback(id)))
          && (journal.rollbackComplete ==> journal.rollbackRecordPublished)
          && (HasTag(s, Rollback(id)) ==> journal.rollbackRequested)
          && (journal.rollbackRequested ==>
                if journal.recordPublished then
                  journal.rollbackBase.Some? && journal.rollbackBase.value.tag == Release(id)
                else journal.rollbackBase == op.plan.base && !HasTag(s, Release(id))))
  }

  // Prepared change sets: none was called for more than once, and none from the
  // stage the executor stands at onwards.
  predicate RequestsOk(op: Operation) {
    && |op.prepared| == |op.plan.stages|
    && (forall k | 0 <= k < |op.prepared| ::
          && op.prepared[k].requests <= 1
          && (op.prepared[k].requests == 0 <==> op.prepared[k].status == Available)
          && (op.plan.stages[k] != Cloud(false) ==> op.prepared[k].requests == 0)
          && (Untouched(op, k) ==> op.prepared[k].requests == 0))
  }

  predicate Untouched(op: Operation, k: nat) {
    op.journal.None?
    || (op.pc.ExecuteStage? && op.pc.stage <= k)
    || ((op.pc.ExecuteWaiting? || op.pc.ExecuteDone?) && op.pc.stage < k)
  }

  // A release record stands only on completed change sets.
  predicate CompletedOk(s: Shared, id: PlanId, op: Operation) {
    (HasTag(s, Release(id)) || (Publishing(op.pc) && !op.pc.back)) ==> CloudIn(op, Complete)
  }

  // Restore change sets: a call was made only for the one the journal names, after
  // it was journaled as requested.
  predicate RestoresOk(op: Operation) {
    && (op.journal.Some? && op.journal.value.rollbackRequested ==>
          forall i | i in op.journal.value.rollbackStages :: SavedOk(op, op.journal.value.rollbackStages[i], i))
    && (forall c | 0 <= c < |op.restored| ::
          op.restored[c].changeSet.requests > 0 ==>
            && op.restored[c].changeSet.requests == 1
            && op.journal.Some? && op.journal.value.rollbackRequested
            && var stages := op.journal.value.rollbackStages;
               op.restored[c].stage in stages
               && stages[op.restored[c].stage].restoreSet == c && stages[op.restored[c].stage].requested)
    && (op.pc.RestoreCreated? ==>
          && op.pc.restoreSet < |op.restored|
          && op.restored[op.pc.restoreSet] == RestoreSet(op.pc.stage, ChangeSet(0, Available))
          && op.journal.Some? && op.pc.stage !in op.journal.value.rollbackStages)
    && (op.pc.RestoreExecuting? && op.journal.Some? && op.pc.stage in op.journal.value.rollbackStages ==>
          var saved := op.journal.value.rollbackStages[op.pc.stage];
          saved.requested
          && (saved.restoreSet < |op.restored| ==> op.restored[saved.restoreSet].changeSet.requests == 0))
  }

  predicate SavedOk(op: Operation, saved: Saved, i: nat) {
    && saved.restoreSet < |op.restored|
    && op.restored[saved.restoreSet].stage == i
    && (!saved.requested ==> op.restored[saved.restoreSet].changeSet.requests == 0)
  }

  predicate OpInv(s: Shared, id: PlanId, op: Operation) {
    && PcOk(s, id, op) && LockOk(s, id, op) && PublishedOk(s, id, op)
    && CompletedOk(s, id, op) && RequestsOk(op) && RestoresOk(op)
  }

  /******* What holds of the history of CURRENT *******/

  function Before(s: Shared, i: nat): Option<Record>
    requires i < |s.history|
  {
    if i == 0 then None else Some(s.history[i - 1])
  }

  // Each record sits on the version its plan named and carries the content its plan fixed.
  predicate Linked(s: Shared, ops: map<PlanId, Operation>, i: nat)
    requires i < |s.history|
  {
    var record := s.history[i];
    var back := record.tag.Rollback?;
    && record.tag.id in ops
    && ops[record.tag.id].journal.Some?
    && (back ==> ops[record.tag.id].journal.value.rollbackRequested)
    && Before(s, i) == BaseOf(ops[record.tag.id], back)
    && record.content == ContentOf(ops[record.tag.id], back)
  }

  predicate ChainInv(s: Shared, ops: map<PlanId, Operation>) {
    && (forall i | 0 <= i < |s.history| :: Linked(s, ops, i))
    && (forall i, j | 0 <= i < j < |s.history| :: s.history[i].tag != s.history[j].tag)
  }

  predicate Inv(w: World) {
    && (w.shared.lock.Some? ==> w.shared.lock.value.version < w.shared.nextVersion)
    && ChainInv(w.shared, w.ops)
    && (forall id | id in w.ops :: OpInv(w.shared, id, w.ops[id]))
  }

  /******* What a step of plan `id` may change *******/

  predicate Unchanged(s: Shared, s': Shared) { s' == s }

  predicate Acquires(id: PlanId, s: Shared, s': Shared) {
    s.lock.None? && s' == s.(lock := Some(Lock(id, s.nextVersion, |s.history|)), nextVersion := s.nextVersion + 1)
  }

  predicate Frees(id: PlanId, s: Shared, s': Shared) {
    s.lock.Some? && s.lock.value.owner == id && s' == s.(lock := None)
  }

  // A put happens only while the lock is the plan's own.
  ghost predicate Publishes(id: PlanId, op: Operation, s: Shared, s': Shared) {
    && Holding(op).Some? && Held(s, id, Holding(op).value, ForRollback(op))
    && op.journal.Some? && op.pc.Putting?
    && Current(s) == BaseOf(op, op.pc.back)
    && exists now: nat ::
         s' == s.(history := s.history + [Record(LabelOf(id, op.pc.back), ContentOf(op, op.pc.back), now)])
  }

  ghost predicate SharedStep(id: PlanId, op: Operation, s: Shared, s': Shared) {
    Unchanged(s, s') || Acquires(id, s, s') || Frees(id, s, s') || Publishes(id, op, s, s')
  }

  // The plan's own facts that others rely on never change back.
  predicate Keeps(op: Operation, op': Operation) {
    && op'.plan == op.plan
    && (op.journal.Some? ==>
          && op'.journal.Some?
          && (op.journal.value.rollbackRequested ==>
                && op'.journal.value.rollbackRequested
                && op'.journal.value.rollbackBase == op.journal.value.rollbackBase
                && op'.journal.value.completedStages == op.journal.value.completedStages))
  }

  /******* Each move of the operator *******/

  // What one move of plan `id` guarantees.
  ghost predicate Good(id: PlanId, s: Shared, op: Operation, s': Shared, op': Operation) {
    && OpInv(s', id, op') && SharedStep(id, op, s, s') && Keeps(op, op')
    && (s'.history != s.history ==> op'.journal == op.journal)
  }

  // While CURRENT still is the version a record is to sit on, that record is not there yet.
  lemma NotYetPublished(w: World, id: PlanId, back: bool)
    requires ChainInv(w.shared, w.ops) && id in w.ops && w.ops[id].journal.Some?
    requires Current(w.shared) == BaseOf(w.ops[id], back)
    ensures !HasTag(w.shared, LabelOf(id, back))
  {
    var s := w.shared;
    if i :| 0 <= i < |s.history| && s.history[i].tag == LabelOf(id, back) {
      assert Linked(s, w.ops, i);
    }
  }

  lemma StartExecuteKeeps(s: Shared, id: PlanId, op: Operation)
    requires OpInv(s, id, op) && StartExecute(s, op).Some?
    ensures Good(id, s, op, StartExecute(s, op).value.0, StartExecute(s, op).value.1)
  {
  }

  lemma StartVerifyKeeps(s: Shared, id: PlanId, op: Operation)
    requires OpInv(s, id, op) && StartVerify(s, op).Some? && op.pc == Idle
    ensures Good(id, s, op, StartVerify(s, op).value.0, StartVerify(s, op).value.1)
  {
  }

  lemma StartRollbackFacts(s: Shared, id: PlanId, op: Operation)
    requires PcOk(s, id, op) && PublishedOk(s, id, op) && StartRollback(s, id, op).Some?
    ensures var (s', op') := StartRollback(s, id, op).value;
            && s' == s && op' == op.(pc := op'.pc) && !Publishing(op'.pc) && !Executing(op'.pc)
            && PcOk(s, id, op') && PublishedOk(s, id, op')
  {
  }

  lemma StartRollbackLock(s: Shared, id: PlanId, op: Operation)
    requires PcOk(s, id, op) && LockOk(s, id, op) && StartRollback(s, id, op).Some?
    ensures LockOk(s, id, StartRollback(s, id, op).value.1)
  {
  }

  lemma StartRollbackSets(s: Shared, id: PlanId, op: Operation)
    requires CompletedOk(s, id, op) && RequestsOk(op) && RestoresOk(op) && StartRollback(s, id, op).Some?
    ensures var op' := StartRollback(s, id, op).value.1;
            CompletedOk(s, id, op') && RequestsOk(op') && RestoresOk(op')
  {
  }

  lemma StartRollbackKeeps(s: Shared, id: PlanId, op: Operation)
    requires OpInv(s, id, op) && StartRollback(s, id, op).Some?
    ensures Good(id, s, op, StartRollback(s, id, op).value.0, StartRollback(s, id, op).value.1)
  {
    StartRollbackFacts(s, id, op);
    StartRollbackLock(s, id, op);
    StartRollbackSets(s, id, op);
  }

  lemma StartKeeps(s: Shared, id: PlanId, op: Operation, command: Command)
    requires OpInv(s, id, op) && OperatorMove(s, op, Start(id, command)).Some?
    ensures var move := OperatorMove(s, op, Start(id, command));
            Good(id, s, op, move.value.0, move.value.1)
  {
    match command
    case ExecuteCommand => StartExecuteKeeps(s, id, op);
    case VerifyCommand => StartVerifyKeeps(s, id, op);
    case RollbackCommand => StartRollbackKeeps(s, id, op);
  }

  lemma LockKeeps(s: Shared, id: PlanId, op: Operation)
    requires OpInv(s, id, op) && (op.pc.ExecuteChecked? || op.pc.RollbackLocking?)
    requires s.lock.Some? ==> s.lock.value.version < s.nextVersion
    ensures var move := AdvanceLock(s, id, op);
            move.Some? ==> Good(id, s, op, move.value.0, move.value.1)
  {
  }

  lemma ExecuteRequestKeeps(s: Shared, id: PlanId, op: Operation)
    requires OpInv(s, id, op) && op.pc.ExecuteLocked? && AdvanceRequest(s, op).Some?
    ensures Good(id, s, op, AdvanceRequest(s, op).value.0, AdvanceRequest(s, op).value.1)
  {
  }

  lemma RollbackRequestKeeps(s: Shared, id: PlanId, op: Operation)
    requires OpInv(s, id, op) && op.pc.RollbackRequesting? && AdvanceRequest(s, op).Some?
    requires op.journal.Some? && !op.journal.value.recordPublished ==> !HasTag(s, Release(id))
    ensures Good(id, s, op, AdvanceRequest(s, op).value.0, AdvanceRequest(s, op).value.1)
  {
  }

  lemma RequestKeeps(w: World, id: PlanId)
    requires Inv(w) && id in w.ops && (w.ops[id].pc.ExecuteLocked? || w.ops[id].pc.RollbackRequesting?)
    ensures var move := AdvanceRequest(w.shared, w.ops[id]);
            move.Some? ==> Good(id, w.shared, w.ops[id], move.value.0, move.value.1)
  {
    var op := w.ops[id];
    assert OpInv(w.shared, id, op);
    if AdvanceRequest(w.shared, op).Some? {
      if op.pc.ExecuteLocked? {
        ExecuteRequestKeeps(w.shared, id, op);
      } else {
        if !op.journal.value.recordPublished {
          NotYetPublished(w, id, false);
        }
        RollbackRequestKeeps(w.shared, id, op);
      }
    }
  }

  lemma ExecuteKeepsFacts(s: Shared, id: PlanId, op: Operation)
    requires PcOk(s, id, op) && LockOk(s, id, op) && PublishedOk(s, id, op)
    requires Executing(op.pc) && AdvanceExecute(s, op).Some?
    ensures var (s', op') := AdvanceExecute(s, op).value;
            && s' == s && Keeps(op, op') && PcOk(s, id, op') && LockOk(s, id, op') && PublishedOk(s, id, op')
  {
  }

  lemma ExecuteKeepsSets(s: Shared, id: PlanId, op: Operation)
    requires PcOk(s, id, op) && PublishedOk(s, id, op) && CompletedOk(s, id, op) && RequestsOk(op)
    requires Executing(op.pc) && AdvanceExecute(s, op).Some?
    ensures var op' := AdvanceExecute(s, op).value.1;
            CompletedOk(s, id, op') && RequestsOk(op')
  {
  }

  lemma ExecuteKeepsRestores(s: Shared, op: Operation)
    requires RestoresOk(op) && Executing(op.pc) && AdvanceExecute(s, op).Some?
    requires op.journal.Some? && !op.journal.value.rollbackRequested
    ensures RestoresOk(AdvanceExecute(s, op).value.1)
  {
  }

  lemma ExecuteKeeps(s: Shared, id: PlanId, op: Operation)
    requires OpInv(s, id, op) && Executing(op.pc) && AdvanceExecute(s, op).Some?
    ensures Good(id, s, op, AdvanceExecute(s, op).value.0, AdvanceExecute(s, op).value.1)
  {
    ExecuteKeepsFacts(s, id, op);
    ExecuteKeepsSets(s, id, op);
    ExecuteKeepsRestores(s, op);
  }

  lemma RestoreKeeps(s: Shared, id: PlanId, op: Operation, noChanges: bool)
    requires OpInv(s, id, op) && op.pc.RestoreStage?
    ensures var move := AdvanceRestore(s, op, noChanges);
            move.Some? ==> Good(id, s, op, move.value.0, move.value.1)
  {
    if AdvanceRestore(s, op, noChanges).Some? {
      RestoreKeepsRestores(s, op, noChanges);
      RestoreKeepsFacts(s, id, op, noChanges);
      RestoreKeepsOthers(s, id, op, noChanges);
    }
  }

  // A step of a restore stage leaves the shared objects and all but the stage's own facts.
  // Only the journaled stages, the restore sets and the point of the operator differ.
  predicate StagesOnly(op: Operation, op': Operation) {
    && op'.plan == op.plan && op'.prepared == op.prepared
    && op.journal.Some? && op'.journal.Some?
    && op'.journal.value == op.journal.value.(rollbackStages := op'.journal.value.rollbackStages)
    && (Restoring(op'.pc)
        || op'.pc == if op.journal.value.rollbackRecordPublished then Unlocking(true) else Reading(true))
  }

  lemma RestoreShape(s: Shared, op: Operation, noChanges: bool)
    requires op.pc.RestoreStage? && AdvanceRestore(s, op, noChanges).Some?
    ensures AdvanceRestore(s, op, noChanges).value.0 == s
    ensures StagesOnly(op, AdvanceRestore(s, op, noChanges).value.1)
  {
  }

  lemma StagesKeepFacts(s: Shared, id: PlanId, op: Operation, op': Operation)
    requires PcOk(s, id, op) && LockOk(s, id, op) && Restoring(op.pc) && StagesOnly(op, op')
    ensures Keeps(op, op') && PcOk(s, id, op') && LockOk(s, id, op')
  {
  }

  lemma StagesKeepOthers(s: Shared, id: PlanId, op: Operation, op': Operation)
    requires PcOk(s, id, op) && PublishedOk(s, id, op) && CompletedOk(s, id, op) && RequestsOk(op)
    requires Restoring(op.pc) && StagesOnly(op, op')
    ensures PublishedOk(s, id, op') && CompletedOk(s, id, op') && RequestsOk(op')
  {
  }

  lemma RestoreKeepsFacts(s: Shared, id: PlanId, op: Operation, noChanges: bool)
    requires PcOk(s, id, op) && LockOk(s, id, op)
    requires op.pc.RestoreStage? && AdvanceRestore(s, op, noChanges).Some?
    ensures var (s', op') := AdvanceRestore(s, op, noChanges).value;
            s' == s && Keeps(op, op') && PcOk(s, id, op') && LockOk(s, id, op')
  {
    RestoreShape(s, op, noChanges);
    StagesKeepFacts(s, id, op, AdvanceRestore(s, op, noChanges).value.1);
  }

  lemma RestoreKeepsOthers(s: Shared, id: PlanId, op: Operation, noChanges: bool)
    requires PcOk(s, id, op) && PublishedOk(s, id, op) && CompletedOk(s, id, op) && RequestsOk(op)
    requires op.pc.RestoreStage? && AdvanceRestore(s, op, noChanges).Some?
    ensures var op' := AdvanceRestore(s, op, noChanges).value.1;
            PublishedOk(s, id, op') && CompletedOk(s, id, op') && RequestsOk(op')
  {
    RestoreShape(s, op, noChanges);
    StagesKeepOthers(s, id, op, AdvanceRestore(s, op, noChanges).value.1);
  }

  lemma CreatingKeepsRestores(op: Operation, noChanges: bool)
    requires op.pc.RestoreStage? && RestoresOk(op)
    requires op.journal.Some? && op.journal.value.rollbackRequested && op.pc.stage !in op.journal.value.rollbackStages
    ensures RestoresOk(op.(restored := op.restored + [RestoreSet(op.pc.stage, ChangeSet(0, Available))],
                           pc := RestoreCreated(op.pc.stage, |op.restored|, noChanges)))
  {
    var restored := op.restored + [RestoreSet(op.pc.stage, ChangeSet(0, Available))];
    assert forall c | 0 <= c < |op.restored| :: restored[c] == op.restored[c];
  }

  lemma RequestingKeepsRestores(op: Operation)
    requires op.pc.RestoreStage? && RestoresOk(op) && op.journal.Some? && op.journal.value.rollbackRequested
    requires op.pc.stage in op.journal.value.rollbackStages && !op.journal.value.rollbackStages[op.pc.stage].requested
    ensures var journal, i := op.journal.value, op.pc.stage;
            var stages := journal.rollbackStages[i := journal.rollbackStages[i].(requested := true)];
            RestoresOk(op.(journal := Some(journal.(rollbackStages := stages)), pc := RestoreExecuting(i)))
  {
    assert SavedOk(op, op.journal.value.rollbackStages[op.pc.stage], op.pc.stage);
  }

  lemma MovingKeepsRestores(op: Operation, pc: Pc)
    requires RestoresOk(op) && !pc.RestoreCreated? && !pc.RestoreExecuting?
    ensures RestoresOk(op.(pc := pc))
  {
    var op' := op.(pc := pc);
    if op.journal.Some? && op.journal.value.rollbackRequested {
      forall i | i in op.journal.value.rollbackStages ensures SavedOk(op', op'.journal.value.rollbackStages[i], i) {
        assert SavedOk(op, op.journal.value.rollbackStages[i], i);
      }
    }
  }

  lemma RestoreKeepsRestores(s: Shared, op: Operation, noChanges: bool)
    requires op.pc.RestoreStage? && RestoresOk(op)
    requires AdvanceRestore(s, op, noChanges).Some?
    requires op.journal.Some? && op.journal.value.rollbackRequested
    ensures RestoresOk(AdvanceRestore(s, op, noChanges).value.1)
  {
    var op' := AdvanceRestore(s, op, noChanges).value.1;
    var i, stages := op.pc.stage, op.journal.value.rollbackStages;
    if i < op.plan.restores && i !in stages {
      CreatingKeepsRestores(op, noChanges);
    } else if i < op.plan.restores && !stages[i].completed && !stages[i].noChanges && !stages[i].requested {
      RequestingKeepsRestores(op);
    } else {
      MovingKeepsRestores(op, op'.pc);
    }
  }

  lemma CreatedKeeps(s: Shared, id: PlanId, op: Operation)
    requires OpInv(s, id, op) && op.pc.RestoreCreated?
    ensures var move := AdvanceCreated(s, op);
            move.Some? ==> Good(id, s, op, move.value.0, move.value.1)
  {
  }

  lemma RestoringKeepsRestores(s: Shared, op: Operation)
    requires op.pc.RestoreExecuting? || op.pc.RestoreWaiting? || op.pc.RestoreDone?
    requires RestoresOk(op) && AdvanceRestoring(s, op).Some?
    requires op.journal.Some? && op.journal.value.rollbackRequested
    ensures RestoresOk(AdvanceRestoring(s, op).value.1)
  {
    assert SavedOk(op, op.journal.value.rollbackStages[op.pc.stage], op.pc.stage);
  }

  lemma RestoringKeepsOthers(s: Shared, id: PlanId, op: Operation)
    requires PcOk(s, id, op) && LockOk(s, id, op) && PublishedOk(s, id, op) && CompletedOk(s, id, op) && RequestsOk(op)
    requires op.pc.RestoreExecuting? || op.pc.RestoreWaiting? || op.pc.RestoreDone?
    requires AdvanceRestoring(s, op).Some?
    ensures var (s', op') := AdvanceRestoring(s, op).value;
            && s' == s && Keeps(op, op')
            && PcOk(s', id, op') && LockOk(s', id, op') && PublishedOk(s', id, op')
            && CompletedOk(s', id, op') && RequestsOk(op')
  {
    StagesKeepFacts(s, id, op, AdvanceRestoring(s, op).value.1);
    StagesKeepOthers(s, id, op, AdvanceRestoring(s, op).value.1);
  }

  lemma RestoringKeeps(s: Shared, id: PlanId, op: Operation)
    requires OpInv(s, id, op) && (op.pc.RestoreExecuting? || op.pc.RestoreWaiting? || op.pc.RestoreDone?)
    ensures var move := AdvanceRestoring(s, op);
            move.Some? ==> Good(id, s, op, move.value.0, move.value.1)
  {
    if AdvanceRestoring(s, op).Some? {
      RestoringKeepsRestores(s, op);
      RestoringKeepsOthers(s, id, op);
    }
  }

  lemma PublishKeeps(w: World, id: PlanId, now: nat)
    requires Inv(w) && id in w.ops && Publishing(w.ops[id].pc)
    ensures var move := AdvancePublish(w.shared, id, w.ops[id], now);
            move.Some? ==> Good(id, w.shared, w.ops[id], move.value.0, move.value.1)
  {
    var s, op := w.shared, w.ops[id];
    if op.pc.Putting? && AdvancePublish(s, id, op, now).Some? {
      NotYetPublished(w, id, op.pc.back);
      PutKeeps(s, id, op, now);
    } else if !op.pc.Putting? {
      ReadKeeps(s, id, op, now);
    }
  }

  lemma ReadKeeps(s: Shared, id: PlanId, op: Operation, now: nat)
    requires OpInv(s, id, op) && (op.pc.Reading? || op.pc.Published?)
    ensures var move := AdvancePublish(s, id, op, now);
            move.Some? ==> Good(id, s, op, move.value.0, move.value.1)
  {
    if AdvancePublish(s, id, op, now).Some? {
      var op' := AdvancePublish(s, id, op, now).value.1;
      if op.pc.Reading? {
        ReadFacts(s, id, op, now);
        ReadSets(s, id, op, op'.pc);
      } else {
        JournaledFacts(s, id, op);
        JournaledSets(s, id, op);
      }
    }
  }

  lemma ReadFacts(s: Shared, id: PlanId, op: Operation, now: nat)
    requires PcOk(s, id, op) && LockOk(s, id, op) && PublishedOk(s, id, op)
    requires op.pc.Reading? && AdvancePublish(s, id, op, now).Some?
    ensures var (s', op') := AdvancePublish(s, id, op, now).value;
            && s' == s && op' == op.(pc := op'.pc) && op'.pc in {Published(op.pc.back), Putting(op.pc.back)}
            && PcOk(s, id, op') && LockOk(s, id, op') && PublishedOk(s, id, op')
  {
  }

  lemma ReadSets(s: Shared, id: PlanId, op: Operation, pc: Pc)
    requires CompletedOk(s, id, op) && RequestsOk(op) && RestoresOk(op)
    requires op.pc.Reading? && pc in {Published(op.pc.back), Putting(op.pc.back)}
    ensures var op' := op.(pc := pc);
            CompletedOk(s, id, op') && RequestsOk(op') && RestoresOk(op')
  {
    MovingKeepsRestores(op, pc);
  }

  // The plan once its publication is journaled.
  function Journaled(op: Operation): Operation
    requires op.pc.Published? && op.journal.Some?
  {
    var journal := op.journal.value;
    op.(journal := Some(if op.pc.back then journal.(rollbackRecordPublished := true)
                        else journal.(recordPublished := true)),
        pc := Unlocking(op.pc.back))
  }

  lemma JournaledFacts(s: Shared, id: PlanId, op: Operation)
    requires PcOk(s, id, op) && LockOk(s, id, op) && PublishedOk(s, id, op) && op.pc.Published?
    ensures op.journal.Some? && Keeps(op, Journaled(op))
    ensures PcOk(s, id, Journaled(op)) && LockOk(s, id, Journaled(op)) && PublishedOk(s, id, Journaled(op))
  {
  }

  lemma JournaledSets(s: Shared, id: PlanId, op: Operation)
    requires CompletedOk(s, id, op) && RequestsOk(op) && RestoresOk(op) && op.pc.Published? && op.journal.Some?
    ensures CompletedOk(s, id, Journaled(op)) && RequestsOk(Journaled(op)) && RestoresOk(Journaled(op))
  {
  }

  lemma PutKeeps(s: Shared, id: PlanId, op: Operation, now: nat)
    requires OpInv(s, id, op) && op.pc.Putting? && !HasTag(s, LabelOf(id, op.pc.back))
    requires AdvancePublish(s, id, op, now).Some?
    ensures var move := AdvancePublish(s, id, op, now);
            Good(id, s, op, move.value.0, move.value.1)
  {
    var record := Record(LabelOf(id, op.pc.back), ContentOf(op, op.pc.back), now);
    TagsGrow(s, record);
    var (s', op') := AdvancePublish(s, id, op, now).value;
    assert s' == s.(history := s.history + [record]);
    assert LockOk(s', id, op') && SharedStep(id, op, s, s');
    assert PublishedOk(s', id, op') && CompletedOk(s', id, op');
  }

  lemma TagsGrow(s: Shared, record: Record)
    ensures var s' := s.(history := s.history + [record]);
            forall tag :: HasTag(s', tag) <==> HasTag(s, tag) || tag == record.tag
  {
    var s' := s.(history := s.history + [record]);
    forall tag ensures HasTag(s', tag) <==> HasTag(s, tag) || tag == record.tag {
      assert s'.history[|s.history|] == record;
      assert forall i | 0 <= i < |s.history| :: s'.history[i] == s.history[i];
    }
  }

  lemma UnlockKeeps(s: Shared, id: PlanId, op: Operation)
    requires OpInv(s, id, op) && Releasing(op.pc)
    ensures var move := AdvanceUnlock(s, id, op);
            move.Some? ==> Good(id, s, op, move.value.0, move.value.1)
  {
    if AdvanceUnlock(s, id, op).Some? {
      UnlockShared(s, id, op);
      UnlockFacts(s, id, op);
      UnlockPublished(s, id, op);
      UnlockSets(s, id, op);
    }
  }

  lemma UnlockShared(s: Shared, id: PlanId, op: Operation)
    requires LockOk(s, id, op) && Releasing(op.pc) && AdvanceUnlock(s, id, op).Some?
    ensures var s' := AdvanceUnlock(s, id, op).value.0;
            Unchanged(s, s') || Frees(id, s, s')
  {
  }

  lemma UnlockFacts(s: Shared, id: PlanId, op: Operation)
    requires PcOk(s, id, op) && LockOk(s, id, op) && Releasing(op.pc) && AdvanceUnlock(s, id, op).Some?
    ensures var (s', op') := AdvanceUnlock(s, id, op).value;
            Keeps(op, op') && PcOk(s', id, op') && LockOk(s', id, op')
  {
  }

  lemma UnlockPublished(s: Shared, id: PlanId, op: Operation)
    requires PcOk(s, id, op) && PublishedOk(s, id, op) && Releasing(op.pc) && AdvanceUnlock(s, id, op).Some?
    ensures var (s', op') := AdvanceUnlock(s, id, op).value;
            s'.history == s.history && PublishedOk(s', id, op')
  {
    SameTags(s, AdvanceUnlock(s, id, op).value.0);
  }

  lemma UnlockRequests(s: Shared, id: PlanId, op: Operation)
    requires CompletedOk(s, id, op) && RequestsOk(op)
    requires Releasing(op.pc) && AdvanceUnlock(s, id, op).Some?
    ensures var (s', op') := AdvanceUnlock(s, id, op).value;
            CompletedOk(s', id, op') && RequestsOk(op')
  {
    SameTags(s, AdvanceUnlock(s, id, op).value.0);
  }

  lemma UnlockSets(s: Shared, id: PlanId, op: Operation)
    requires CompletedOk(s, id, op) && RequestsOk(op) && RestoresOk(op)
    requires Releasing(op.pc) && AdvanceUnlock(s, id, op).Some?
    ensures var (s', op') := AdvanceUnlock(s, id, op).value;
            CompletedOk(s', id, op') && RequestsOk(op') && RestoresOk(op')
  {
    UnlockRequests(s, id, op);
    var op' := AdvanceUnlock(s, id, op).value.1;
    if op.pc.Unlocked? {
      ClosingKeepsSets(op, op'.journal.value);
    } else {
      MovingKeepsRestores(op, op'.pc);
    }
  }

  lemma ClosingKeepsSets(op: Operation, journal: Journal)
    requires RequestsOk(op) && RestoresOk(op) && op.journal.Some?
    requires journal == op.journal.value.(lockReleased := journal.lockReleased,
                                          rollbackComplete := journal.rollbackComplete)
    ensures var op' := op.(journal := Some(journal), pc := Idle);
            RequestsOk(op') && RestoresOk(op')
  {
    var op' := op.(journal := Some(journal), pc := Idle);
    if journal.rollbackRequested {
      forall i | i in journal.rollbackStages ensures SavedOk(op', journal.rollbackStages[i], i) {
        assert SavedOk(op, op.journal.value.rollbackStages[i], i);
      }
    }
  }

  lemma SameTags(s: Shared, s': Shared)
    ensures s'.history == s.history ==> forall tag :: HasTag(s', tag) <==> HasTag(s, tag)
  {
  }

  lemma CrashKeeps(s: Shared, id: PlanId, op: Operation)
    requires OpInv(s, id, op)
    ensures Good(id, s, op, s, op.(pc := Idle))
  {
  }

  lemma PreparedSets(s: Shared, id: PlanId, op: Operation, k: nat, status: Status)
    requires CompletedOk(s, id, op) && RequestsOk(op) && k < |op.prepared|
    ensures var op' := op.(prepared := op.prepared[k := Settled(op.prepared[k], status)]);
            CompletedOk(s, id, op') && RequestsOk(op')
  {
  }

  lemma PreparedSettles(s: Shared, id: PlanId, op: Operation, k: nat, status: Status)
    requires OpInv(s, id, op) && k < |op.prepared|
    ensures Good(id, s, op, s, op.(prepared := op.prepared[k := Settled(op.prepared[k], status)]))
  {
    PreparedSets(s, id, op, k, status);
    var op' := op.(prepared := op.prepared[k := Settled(op.prepared[k], status)]);
    SameSavedSets(op, op');
    assert Holding(op') == Holding(op);
  }

  lemma SameSavedSets(op: Operation, op': Operation)
    requires RestoresOk(op) && op'.journal == op.journal && op'.restored == op.restored && op'.pc == op.pc
    ensures RestoresOk(op')
  {
    if op.journal.Some? && op.journal.value.rollbackRequested {
      forall i | i in op.journal.value.rollbackStages ensures SavedOk(op', op.journal.value.rollbackStages[i], i) {
        assert SavedOk(op, op.journal.value.rollbackStages[i], i);
      }
    }
  }

  function WithRestored(op: Operation, k: nat, status: Status): Operation
    requires k < |op.restored|
  {
    op.(restored := op.restored[k := op.restored[k].(changeSet := Settled(op.restored[k].changeSet, status))])
  }

  lemma RestoredSets(op: Operation, k: nat, status: Status)
    requires RestoresOk(op) && k < |op.restored|
    ensures RestoresOk(WithRestored(op, k, status))
  {
    var op' := WithRestored(op, k, status);
    if op.journal.Some? && op.journal.value.rollbackRequested {
      forall i | i in op.journal.value.rollbackStages ensures SavedOk(op', op.journal.value.rollbackStages[i], i) {
        assert SavedOk(op, op.journal.value.rollbackStages[i], i);
      }
    }
  }

  lemma RestoredSettles(s: Shared, id: PlanId, op: Operation, k: nat, status: Status)
    requires OpInv(s, id, op) && k < |op.restored|
    ensures Good(id, s, op, s, WithRestored(op, k, status))
  {
    RestoredSets(op, k, status);
    var op' := WithRestored(op, k, status);
    assert Holding(op') == Holding(op);
  }

  lemma SettleKeeps(s: Shared, id: PlanId, op: Operation, e: Event)
    requires OpInv(s, id, op) && (e.SettlePrepared? || e.SettleRestored? || e.Crash?)
    requires OperatorMove(s, op, e).Some?
    ensures Good(id, s, op, OperatorMove(s, op, e).value.0, OperatorMove(s, op, e).value.1)
  {
    if e.SettlePrepared? {
      PreparedSettles(s, id, op, e.index, e.status);
    } else if e.SettleRestored? {
      RestoredSettles(s, id, op, e.index, e.status);
    } else {
      CrashKeeps(s, id, op);
    }
  }

  /******* Every step of the system *******/

  lemma MoveKeeps(w: World, e: Event)
    requires Inv(w) && !e.Prepare? && e.id in w.ops
    requires OperatorMove(w.shared, w.ops[e.id], e).Some?
    ensures var (s', op') := OperatorMove(w.shared, w.ops[e.id], e).value;
            Good(e.id, w.shared, w.ops[e.id], s', op')
  {
    var s, op := w.shared, w.ops[e.id];
    assert OpInv(s, e.id, op);
    match e
    case Start(id, command) => StartKeeps(s, id, op, command);
    case Step(id, now, noChanges) => AdvanceKeeps(w, id, now, noChanges);
    case _ => SettleKeeps(s, e.id, op, e);
  }

  lemma ForwardKeeps(w: World, id: PlanId, now: nat, noChanges: bool)
    requires Inv(w) && id in w.ops && OpInv(w.shared, id, w.ops[id]) && !Restoring(w.ops[id].pc)
    requires Advance(w.shared, id, w.ops[id], now, noChanges).Some?
    ensures var (s', op') := Advance(w.shared, id, w.ops[id], now, noChanges).value;
            Good(id, w.shared, w.ops[id], s', op')
  {
    var s, op := w.shared, w.ops[id];
    if op.pc.ExecuteChecked? || op.pc.RollbackLocking? {
      LockKeeps(s, id, op);
    } else if op.pc.ExecuteLocked? || op.pc.RollbackRequesting? {
      RequestKeeps(w, id);
    } else if Executing(op.pc) {
      ExecuteKeeps(s, id, op);
    } else if Publishing(op.pc) {
      PublishKeeps(w, id, now);
    } else {
      UnlockKeeps(s, id, op);
    }
  }

  lemma BackwardKeeps(s: Shared, id: PlanId, op: Operation, now: nat, noChanges: bool)
    requires OpInv(s, id, op) && Restoring(op.pc) && Advance(s, id, op, now, noChanges).Some?
    ensures var (s', op') := Advance(s, id, op, now, noChanges).value;
            Good(id, s, op, s', op')
  {
    if op.pc.RestoreStage? {
      RestoreKeeps(s, id, op, noChanges);
    } else if op.pc.RestoreCreated? {
      CreatedKeeps(s, id, op);
    } else {
      RestoringKeeps(s, id, op);
    }
  }

  lemma AdvanceKeeps(w: World, id: PlanId, now: nat, noChanges: bool)
    requires Inv(w) && id in w.ops && OpInv(w.shared, id, w.ops[id])
    requires Advance(w.shared, id, w.ops[id], now, noChanges).Some?
    ensures var (s', op') := Advance(w.shared, id, w.ops[id], now, noChanges).value;
            Good(id, w.shared, w.ops[id], s', op')
  {
    if Restoring(w.ops[id].pc) {
      BackwardKeeps(w.shared, id, w.ops[id], now, noChanges);
    } else {
      ForwardKeeps(w, id, now, noChanges);
    }
  }

  // A step of one plan leaves the facts of every other plan alone.
  lemma OthersKept(id: PlanId, op: Operation, s: Shared, s': Shared, other: PlanId, theirs: Operation)
    requires SharedStep(id, op, s, s') && other != id && OpInv(s, other, theirs)
    requires s.lock.Some? ==> s.lock.value.version < s.nextVersion
    ensures OpInv(s', other, theirs)
  {
    if Publishes(id, op, s, s') {
      TagsGrow(s, s'.history[|s.history|]);
      assert s' == s.(history := s.history + [s'.history[|s.history|]]);
    } else {
      assert s'.history == s.history;
      assert forall tag :: HasTag(s', tag) <==> HasTag(s, tag);
    }
  }

  lemma ChainKept(w: World, id: PlanId, s': Shared, op': Operation)
    requires ChainInv(w.shared, w.ops) && id in w.ops && PcOk(w.shared, id, w.ops[id])
    requires SharedStep(id, w.ops[id], w.shared, s') && Keeps(w.ops[id], op')
    requires s'.history != w.shared.history ==> op'.journal == w.ops[id].journal
    ensures ChainInv(s', w.ops[id := op'])
  {
    var s, ops' := w.shared, w.ops[id := op'];
    forall i | 0 <= i < |s.history| ensures Linked(s', ops', i) {
      assert s'.history[i] == s.history[i];
      assert Before(s', i) == Before(s, i);
      assert Linked(s, w.ops, i);
    }
    if Publishes(id, w.ops[id], s, s') {
      NotYetPublished(w, id, w.ops[id].pc.back);
      assert Linked(s', ops', |s.history|);
    }
  }

  lemma InvInitial()
    ensures Inv(INITIAL)
  {
  }

  lemma PrepareKeeps(w: World, e: Event)
    requires Inv(w) && e.Prepare? && Apply(w, e).Some?
    ensures Inv(Apply(w, e).value)
  {
    var w' := Apply(w, e).value;
    forall i | 0 <= i < |w.shared.history| ensures Linked(w'.shared, w'.ops, i) {
      assert Linked(w.shared, w.ops, i);
    }
    forall i | 0 <= i < |w.shared.history| ensures w.shared.history[i].tag.id != e.id {
      assert Linked(w.shared, w.ops, i);
    }
    assert OpInv(w'.shared, e.id, w'.ops[e.id]);
  }

  lemma StepKeeps(w: World, e: Event)
    requires Inv(w) && Apply(w, e).Some?
    ensures Inv(Apply(w, e).value)
  {
    if e.Prepare? {
      PrepareKeeps(w, e);
    } else {
      var (s', op') := OperatorMove(w.shared, w.ops[e.id], e).value;
      MoveKeeps(w, e);
      GoodKeeps(w, e.id, s', op');
    }
  }

  lemma GoodKeeps(w: World, id: PlanId, s': Shared, op': Operation)
    requires Inv(w) && id in w.ops && Good(id, w.shared, w.ops[id], s', op')
    ensures Inv(World(s', w.ops[id := op']))
  {
    var ops' := w.ops[id := op'];
    assert OpInv(w.shared, id, w.ops[id]);
    ChainKept(w, id, s', op');
    forall other | other in ops' ensures OpInv(s', other, ops'[other]) {
      if other != id {
        assert OpInv(w.shared, other, w.ops[other]);
        OthersKept(id, w.ops[id], w.shared, s', other, w.ops[other]);
      }
    }
  }

  lemma {:induction false} ReachableInv(events: seq<Event>)
    requires Run(events).Some?
    ensures Inv(Run(events).value)
  {
    if events == [] {
      InvInitial();
    } else {
      ReachableInv(events[..|events| - 1]);
      StepKeeps(Run(events[..|events| - 1]).value, events[|events| - 1]);
    }
  }
}
