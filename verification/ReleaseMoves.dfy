// Each step of the release protocol by itself, for the operator that takes it.
module ReleaseMoves {
  import opened Options
  import opened ReleaseProtocol
  import opened ReleaseInvariant
  import opened ReleaseSafety
  import opened ReleaseRestores

  /******* Journals *******/

  function Requested(version: nat): Journal {
    Journal(version, [], false, false, false, None, map[], false, false)
  }

  function StageDone(journal: Journal, stage: Stage): Journal {
    journal.(completedStages := journal.completedStages + [stage])
  }

  function Recorded(journal: Journal, back: bool): Journal {
    if back then journal.(rollbackRecordPublished := true) else journal.(recordPublished := true)
  }

  // The journal when a command has given the lock back.
  function Closed(journal: Journal, back: bool): Journal {
    journal.(lockReleased := true, rollbackComplete := journal.rollbackComplete || back)
  }

  function RollbackAsked(journal: Journal, current: Option<Record>, version: nat): Journal {
    journal.(lock := version, rollbackRequested := true, rollbackBase := current, rollbackStages := map[])
  }

  function Entered(journal: Journal, i: nat, saved: Saved): Journal {
    journal.(rollbackStages := journal.rollbackStages[i := saved])
  }

  // Where taking the lock leads.
  function LockedPc(pc: Pc, version: nat): Pc
    requires pc.ExecuteChecked? || pc.RollbackLocking?
  {
    if pc.ExecuteChecked? then ExecuteLocked(version) else RollbackRequesting(pc.seen, version)
  }

  /******* Execution *******/

  lemma BeginMove(s: Shared, op: Operation, id: PlanId)
    requires op.pc == Idle && op.journal.None? && !op.plan.blocked
    requires Current(s) == op.plan.base && CloudIn(op, Available)
    ensures OperatorMove(s, op, Start(id, ExecuteCommand)) == Some((s, op.(pc := ExecuteChecked)))
  {
  }

  lemma LockMove(s: Shared, op: Operation, id: PlanId)
    requires (op.pc.ExecuteChecked? || op.pc.RollbackLocking?) && PutLock(s, id).Some?
    ensures OperatorMove(s, op, Step(id, 0, false)) ==
            Some((PutLock(s, id).value, op.(pc := LockedPc(op.pc, s.nextVersion))))
  {
  }

  lemma RequestMove(s: Shared, op: Operation, id: PlanId, version: nat)
    requires op.pc == ExecuteLocked(version)
    ensures OperatorMove(s, op, Step(id, 0, false)) ==
            Some((s, op.(journal := Some(Requested(version)), pc := ExecuteStage(0))))
  {
  }

  lemma StageMove(s: Shared, op: Operation, id: PlanId, i: nat)
    requires op.pc == ExecuteStage(i) && op.journal.Some? && i < |op.plan.stages| == |op.prepared|
    ensures OperatorMove(s, op, Step(id, 0, false)) ==
            if op.plan.stages[i] == Cloud(false) then
              Some((s, op.(prepared := op.prepared[i := ReleaseProtocol.Execute(op.prepared[i])],
                           pc := ExecuteWaiting(i))))
            else Some((s, op.(pc := ExecuteDone(i))))
  {
  }

  lemma WaitedMove(s: Shared, op: Operation, id: PlanId, i: nat)
    requires op.pc == ExecuteWaiting(i) && op.journal.Some? && i < |op.plan.stages| == |op.prepared|
    requires op.prepared[i].status == Complete
    ensures OperatorMove(s, op, Step(id, 0, false)) == Some((s, op.(pc := ExecuteDone(i))))
  {
  }

  lemma StageJournaled(s: Shared, op: Operation, id: PlanId, i: nat)
    requires op.pc == ExecuteDone(i) && op.journal.Some? && i < |op.plan.stages| == |op.prepared|
    ensures OperatorMove(s, op, Step(id, 0, false)) ==
            Some((s, op.(journal := Some(StageDone(op.journal.value, op.plan.stages[i])), pc := ExecuteStage(i + 1))))
  {
  }

  lemma VerifyMove(s: Shared, op: Operation, id: PlanId, e: Event)
    requires op.journal.Some? && !op.journal.value.rollbackRequested && CloudIn(op, Complete)
    requires (op.pc == Idle && e == Start(id, VerifyCommand))
             || (op.pc == ExecuteStage(|op.plan.stages|) && e == Step(id, 0, false))
    ensures OperatorMove(s, op, e) ==
            Some((s, op.(pc := if op.journal.value.recordPublished then Unlocking(false) else Reading(false))))
  {
  }

  /******* Publication and unlock *******/

  predicate Own(s: Shared, id: PlanId, back: bool) {
    Current(s).Some? && Current(s).value.tag == LabelOf(id, back)
  }

  lemma ReadMove(s: Shared, op: Operation, id: PlanId, back: bool)
    requires op.pc == Reading(back) && op.journal.Some?
    requires Own(s, id, back) ==> Adoptable(ContentOf(op, back), Current(s).value.content, back)
    ensures OperatorMove(s, op, Step(id, 0, false)) ==
            Some((s, op.(pc := if Own(s, id, back) then Published(back) else Putting(back))))
  {
  }

  lemma PutMove(s: Shared, op: Operation, id: PlanId, back: bool, now: nat)
    requires op.pc == Putting(back) && op.journal.Some? && Current(s) == BaseOf(op, back)
    ensures var record := ReleaseProtocol.Record(LabelOf(id, back), ContentOf(op, back), now);
            OperatorMove(s, op, Step(id, now, false)) ==
            Some((s.(history := s.history + [record]), op.(pc := Published(back))))
  {
  }

  lemma RecordedMove(s: Shared, op: Operation, id: PlanId, back: bool)
    requires op.pc == Published(back) && op.journal.Some?
    ensures OperatorMove(s, op, Step(id, 0, false)) ==
            Some((s, op.(journal := Some(Recorded(op.journal.value, back)), pc := Unlocking(back))))
  {
  }

  // The lock object is the journaled version.
  predicate Present(s: Shared, op: Operation) {
    op.journal.Some? && s.lock.Some? && s.lock.value.version == op.journal.value.lock
  }

  lemma FindLockMove(s: Shared, op: Operation, id: PlanId, back: bool)
    requires op.pc == Unlocking(back) && op.journal.Some? && (back || !op.journal.value.lockReleased)
    requires Present(s, op) ==> s.lock.value.owner == id
    ensures OperatorMove(s, op, Step(id, 0, false)) ==
            Some((s, op.(pc := if Present(s, op) then Deleting(back) else Unlocked(back))))
  {
  }

  lemma SkipMove(s: Shared, op: Operation, id: PlanId)
    requires op.pc == Unlocking(false) && op.journal.Some? && op.journal.value.lockReleased
    ensures OperatorMove(s, op, Step(id, 0, false)) == Some((s, op.(pc := Idle)))
  {
  }

  lemma DeleteMove(s: Shared, op: Operation, id: PlanId, back: bool)
    requires op.pc == Deleting(back) && op.journal.Some?
    ensures OperatorMove(s, op, Step(id, 0, false)) ==
            Some((DeleteLock(s, op.journal.value.lock), op.(pc := Unlocked(back))))
  {
  }

  lemma ClosedMove(s: Shared, op: Operation, id: PlanId, back: bool)
    requires op.pc == Unlocked(back) && op.journal.Some?
    ensures OperatorMove(s, op, Step(id, 0, false)) ==
            Some((s, op.(journal := Some(Closed(op.journal.value, back)), pc := Idle)))
  {
  }

  /******* Rollback *******/

  // What rollback asks of CURRENT before its request is journaled.
  predicate Undoable(s: Shared, id: PlanId, plan: Plan, journal: Journal) {
    journal.rollbackRequested || (if journal.recordPublished then Own(s, id, false) else Current(s) == plan.base)
  }

  // The rollback record is journaled, or current, or can be written on CURRENT.
  predicate Restorable(s: Shared, id: PlanId, journal: Journal) {
    journal.rollbackRecordPublished || Own(s, id, true) || Current(s) == journal.rollbackBase
  }

  // A rollback just asked for has everything before it.
  lemma AskedAnew(s: Shared, id: PlanId, journal: Journal, version: nat, restored: seq<RestoreSet>, n: nat)
    ensures Restorable(s, id, RollbackAsked(journal, Current(s), version))
    ensures AllResumable(RollbackAsked(journal, Current(s), version).rollbackStages, restored, 0, n)
  {
  }

  // Where rollback begins.
  function RollbackPc(journal: Journal, current: Option<Record>): Pc {
    if journal.rollbackRequested then RestoreStage(0)
    else if journal.recordPublished then RollbackLocking(current)
    else RollbackRequesting(current, journal.lock)
  }

  lemma UndoMove(s: Shared, op: Operation, id: PlanId)
    requires op.pc == Idle && op.journal.Some? && !op.journal.value.rollbackComplete
    requires Undoable(s, id, op.plan, op.journal.value)
    ensures OperatorMove(s, op, Start(id, RollbackCommand)) ==
            Some((s, op.(pc := RollbackPc(op.journal.value, Current(s)))))
  {
  }

  lemma AskMove(s: Shared, op: Operation, id: PlanId, current: Option<Record>, version: nat)
    requires op.pc == RollbackRequesting(current, version) && op.journal.Some?
    ensures OperatorMove(s, op, Step(id, 0, false)) ==
            Some((s, op.(journal := Some(RollbackAsked(op.journal.value, current, version)), pc := RestoreStage(0))))
  {
  }

  lemma EndMove(s: Shared, op: Operation, id: PlanId)
    requires op.pc == RestoreStage(op.plan.restores) && op.journal.Some?
    ensures OperatorMove(s, op, Step(id, 0, false)) ==
            Some((s, op.(pc := if op.journal.value.rollbackRecordPublished then Unlocking(true) else Reading(true))))
  {
  }

  lemma CreateMove(s: Shared, op: Operation, id: PlanId, i: nat, noChanges: bool)
    requires op.pc == RestoreStage(i) && i < op.plan.restores
    requires op.journal.Some? && i !in op.journal.value.rollbackStages
    ensures OperatorMove(s, op, Step(id, 0, noChanges)) ==
            Some((s, op.(restored := op.restored + [RestoreSet(i, ChangeSet(0, Available))],
                         pc := RestoreCreated(i, |op.restored|, noChanges))))
  {
  }

  lemma CreatedMove(s: Shared, op: Operation, id: PlanId, i: nat, created: nat, noChanges: bool)
    requires op.pc == RestoreCreated(i, created, noChanges) && op.journal.Some?
    ensures var saved := Saved(created, noChanges, false, false);
            OperatorMove(s, op, Step(id, 0, false)) ==
            Some((s, op.(journal := Some(Entered(op.journal.value, i, saved)), pc := RestoreStage(i))))
  {
  }

  // A stage that was journaled: skipped, without changes, to be requested, or under way.
  lemma SavedMove(s: Shared, op: Operation, id: PlanId, i: nat)
    requires op.pc == RestoreStage(i) && i < op.plan.restores
    requires op.journal.Some? && i in op.journal.value.rollbackStages
    ensures var saved := op.journal.value.rollbackStages[i];
            OperatorMove(s, op, Step(id, 0, false)) ==
            if saved.completed then Some((s, op.(pc := RestoreStage(i + 1))))
            else if saved.noChanges then Some((s, op.(pc := RestoreDone(i))))
            else if !saved.requested then
              Some((s, op.(journal := Some(Entered(op.journal.value, i, saved.(requested := true))),
                           pc := RestoreExecuting(i))))
            else if Moving(op.restored, saved.restoreSet) then Some((s, op.(pc := RestoreWaiting(i))))
            else None
  {
  }

  // A restore set that is under way or done.
  predicate Moving(restored: seq<RestoreSet>, k: nat) {
    k < |restored| && restored[k].changeSet.status in {InProgress, Complete}
  }

  // What was journaled as requested is under way or done.
  predicate Resumable(stages: map<nat, Saved>, restored: seq<RestoreSet>, i: nat) {
    i in stages ==>
      stages[i].completed || stages[i].noChanges || !stages[i].requested || Moving(restored, stages[i].restoreSet)
  }

  predicate AllResumable(stages: map<nat, Saved>, restored: seq<RestoreSet>, i: nat, n: nat) {
    forall k | i <= k < n :: Resumable(stages, restored, k)
  }

  // No restore set under way has stopped.
  predicate KeepMoving(restored: seq<RestoreSet>, restored': seq<RestoreSet>) {
    forall k | 0 <= k < |restored| && Moving(restored, k) :: Moving(restored', k)
  }

  // The journals agree but for the entry of one stage.
  predicate OthersSaved(journal: Journal, journal': Journal, i: nat) {
    && journal' == journal.(rollbackStages := journal'.rollbackStages)
    && journal'.rollbackStages - {i} == journal.rollbackStages - {i}
  }

  lemma EnteredOthers(journal: Journal, i: nat, saved: Saved)
    ensures OthersSaved(journal, Entered(journal, i, saved), i)
    ensures i in Entered(journal, i, saved).rollbackStages && Entered(journal, i, saved).rollbackStages[i] == saved
  {
  }

  lemma ResumableOn(journal: Journal, restored: seq<RestoreSet>,
                    journal': Journal, restored': seq<RestoreSet>, i: nat, n: nat)
    requires AllResumable(journal.rollbackStages, restored, i, n)
    requires OthersSaved(journal, journal', i) && KeepMoving(restored, restored')
    ensures AllResumable(journal'.rollbackStages, restored', i + 1, n)
  {
    forall k | i + 1 <= k < n ensures Resumable(journal'.rollbackStages, restored', k) {
      assert Resumable(journal.rollbackStages, restored, k);
      if k in journal'.rollbackStages {
        assert (journal'.rollbackStages - {i})[k] == journal'.rollbackStages[k];
        assert k in journal.rollbackStages - {i};
      }
    }
  }

  function Execution(restored: seq<RestoreSet>, k: nat): seq<RestoreSet>
    requires k < |restored|
  {
    restored[k := restored[k].(changeSet := ReleaseProtocol.Execute(restored[k].changeSet))]
  }

  predicate SavedAt(op: Operation, i: nat) {
    op.journal.Some? && i in op.journal.value.rollbackStages
    && op.journal.value.rollbackStages[i].restoreSet < |op.restored|
  }

  lemma ExecutionMoves(restored: seq<RestoreSet>, k: nat)
    requires k < |restored|
    ensures KeepMoving(restored, Execution(restored, k))
    ensures restored[k].changeSet.status == Available ==> Moving(Execution(restored, k), k)
  {
  }

  function Completion(restored: seq<RestoreSet>, k: nat): seq<RestoreSet>
    requires k < |restored|
  {
    restored[k := restored[k].(changeSet := Settled(restored[k].changeSet, Complete))]
  }

  lemma CompletionMoves(restored: seq<RestoreSet>, k: nat)
    requires k < |restored|
    ensures KeepMoving(restored, Completion(restored, k))
    ensures Moving(restored, k) ==> Completion(restored, k)[k].changeSet.status == Complete
  {
  }

  lemma ExecutingMove(s: Shared, op: Operation, id: PlanId, i: nat)
    requires op.pc == RestoreExecuting(i) && SavedAt(op, i)
    ensures var k := op.journal.value.rollbackStages[i].restoreSet;
            OperatorMove(s, op, Step(id, 0, false)) ==
            Some((s, op.(restored := Execution(op.restored, k), pc := RestoreWaiting(i))))
  {
  }

  lemma AwaitedMove(s: Shared, op: Operation, id: PlanId, i: nat)
    requires op.pc == RestoreWaiting(i) && SavedAt(op, i)
    requires op.restored[op.journal.value.rollbackStages[i].restoreSet].changeSet.status == Complete
    ensures OperatorMove(s, op, Step(id, 0, false)) == Some((s, op.(pc := RestoreDone(i))))
  {
  }

  lemma FinishedMove(s: Shared, op: Operation, id: PlanId, i: nat)
    requires op.pc == RestoreDone(i) && SavedAt(op, i)
    ensures var saved := op.journal.value.rollbackStages[i].(completed := true);
            OperatorMove(s, op, Step(id, 0, false)) ==
            Some((s, op.(journal := Some(Entered(op.journal.value, i, saved)), pc := RestoreStage(i + 1))))
  {
  }

  /******* What the runs of the system say of one operator *******/

  // The release record of a plan sits on the version the plan was prepared from and
  // carries its artifacts, and every change set it needed was requested once and completed.
  ghost predicate ReleaseStands(s: Shared, op: Operation, id: PlanId) {
    && (exists i | 0 <= i < |s.history| ::
          s.history[i].tag == Release(id) && s.history[i].content.Succeeded?
          && s.history[i].content.manifest == op.plan.manifest
          && s.history[i].content.configurationHash == op.plan.configurationHash
          && Before(s, i) == op.plan.base)
    && |op.prepared| == |op.plan.stages|
    && forall k | 0 <= k < |op.plan.stages| && op.plan.stages[k] == Cloud(false) ::
         op.prepared[k] == ChangeSet(1, Complete)
  }

  // The rollback record sits where it belongs and carries what is to be restored, and
  // every rollback stage is complete.
  ghost predicate RollbackStands(s: Shared, op: Operation, id: PlanId) {
    && (exists i | 0 <= i < |s.history| ::
          s.history[i].tag == Rollback(id) && op.journal.Some?
          && s.history[i].content == RestoredContent(op.plan, op.journal.value.completedStages)
          && (if HasTag(s, Release(id)) then Before(s, i).Some? && Before(s, i).value.tag == Release(id)
              else Before(s, i) == op.plan.base))
    && forall k | 0 <= k < op.plan.restores :: StageComplete(op, k)
  }

  lemma {:induction false} RecordedStands(events: seq<Event>, id: PlanId)
    requires Run(events).Some? && id in Run(events).value.ops
    requires var op := Run(events).value.ops[id]; op.journal.Some? && op.journal.value.recordPublished
    ensures ReleaseStands(Run(events).value.shared, Run(events).value.ops[id], id)
  {
    var w := Run(events).value;
    var op := w.ops[id];
    ReleaseJournaled(events, id);
    var i :| 0 <= i < |w.shared.history| && w.shared.history[i].tag == Release(id);
    ReleaseSitsOnItsBase(events, i);
    forall k | 0 <= k < |op.plan.stages| && op.plan.stages[k] == Cloud(false)
      ensures |op.prepared| == |op.plan.stages| && op.prepared[k] == ChangeSet(1, Complete)
    {
      ReleaseIsComplete(events, i, k);
    }
  }

  lemma {:induction false} ReleaseJournaled(events: seq<Event>, id: PlanId)
    requires Run(events).Some? && id in Run(events).value.ops
    requires var op := Run(events).value.ops[id]; op.journal.Some? && op.journal.value.recordPublished
    ensures HasTag(Run(events).value.shared, Release(id))
    ensures |Run(events).value.ops[id].prepared| == |Run(events).value.ops[id].plan.stages|
  {
    ReachableInv(events);
    assert OpInv(Run(events).value.shared, id, Run(events).value.ops[id]);
  }

  lemma {:induction false} CompleteStands(events: seq<Event>, id: PlanId)
    requires Run(events).Some? && id in Run(events).value.ops
    requires var op := Run(events).value.ops[id]; op.journal.Some? && op.journal.value.rollbackComplete
    ensures RollbackStands(Run(events).value.shared, Run(events).value.ops[id], id)
  {
    var w := Run(events).value;
    var i := RollbackJournaled(events, id);
    RollbackPlacement(events, i);
    forall k | 0 <= k < w.ops[id].plan.restores ensures StageComplete(w.ops[id], k) {
      RollbackIsComplete(events, i, k);
    }
  }

  lemma {:induction false} RollbackJournaled(events: seq<Event>, id: PlanId) returns (i: nat)
    requires Run(events).Some? && id in Run(events).value.ops
    requires var op := Run(events).value.ops[id]; op.journal.Some? && op.journal.value.rollbackComplete
    ensures var (s, op) := (Run(events).value.shared, Run(events).value.ops[id]);
            && i < |s.history| && s.history[i].tag == Rollback(id)
            && s.history[i].content == RestoredContent(op.plan, op.journal.value.completedStages)
  {
    ReachableInv(events);
    var w := Run(events).value;
    assert OpInv(w.shared, id, w.ops[id]);
    assert HasTag(w.shared, Rollback(id));
    i :| 0 <= i < |w.shared.history| && w.shared.history[i].tag == Rollback(id);
    assert Linked(w.shared, w.ops, i);
  }

  // A record found under the plan's own label is always adopted.
  lemma {:induction false} OwnIsAdopted(events: seq<Event>, id: PlanId, back: bool)
    requires Run(events).Some? && id in Run(events).value.ops
    requires var op := Run(events).value.ops[id]; op.journal.Some? && op.pc == Reading(back)
    ensures var (s, op) := (Run(events).value.shared, Run(events).value.ops[id]);
            Own(s, id, back) ==> Adoptable(ContentOf(op, back), Current(s).value.content, back)
  {
    ReachableInv(events);
    var w := Run(events).value;
    if Own(w.shared, id, back) {
      OwnRecordIsAdoptable(w, id);
    }
  }

  // A rollback that was not asked for is not complete.
  lemma {:induction false} CompleteWasAsked(events: seq<Event>, id: PlanId)
    requires Run(events).Some? && id in Run(events).value.ops
    ensures var op := Run(events).value.ops[id];
            op.journal.Some? && op.journal.value.rollbackComplete ==> op.journal.value.rollbackRequested
  {
    ReachableInv(events);
    var w := Run(events).value;
    assert OpInv(w.shared, id, w.ops[id]);
  }

  // The journaled lock version is never another plan's.
  lemma {:induction false} OwnLock(events: seq<Event>, id: PlanId)
    requires Run(events).Some? && id in Run(events).value.ops
    ensures var (s, op) := (Run(events).value.shared, Run(events).value.ops[id]);
            Present(s, op) ==> s.lock.value.owner == id
  {
    ReachableInv(events);
    var w := Run(events).value;
    assert OpInv(w.shared, id, w.ops[id]);
  }

  // A journaled restore set exists, and is fresh as long as no request was journaled.
  lemma {:induction false} SavedExists(events: seq<Event>, id: PlanId, i: nat)
    requires Run(events).Some? && id in Run(events).value.ops
    requires Restoring(Run(events).value.ops[id].pc) && i in Stages(Run(events).value.ops[id])
    ensures var op := Run(events).value.ops[id];
            && SavedAt(op, i)
            && (!Stages(op)[i].requested ==> op.restored[Stages(op)[i].restoreSet].changeSet.status == Available)
  {
    ReachableInv(events);
    ReachableRestored(events);
    var w := Run(events).value;
    assert OpInv(w.shared, id, w.ops[id]) && Restored(w.shared, id, w.ops[id]);
    assert SavedOk(w.ops[id], Stages(w.ops[id])[i], i);
  }
}
