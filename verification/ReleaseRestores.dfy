// What a rollback record stands on: every rollback stage journaled as completed, and
// each restore set that had changes requested once and completed.
module ReleaseRestores {
  import opened Options
  import opened ReleaseProtocol
  import opened ReleaseInvariant
  import opened ReleaseSafety

  /******* What holds of one plan *******/

  function Stages(op: Operation): map<nat, Saved> {
    if op.journal.None? then map[] else op.journal.value.rollbackStages
  }

  predicate SetDone(restored: seq<RestoreSet>, c: nat) {
    c < |restored| && restored[c].changeSet.status == Complete
  }

  // What completing a stage stands on.
  predicate Ended(restored: seq<RestoreSet>, saved: Saved) {
    saved.noChanges || SetDone(restored, saved.restoreSet)
  }

  predicate EndedOk(restored: seq<RestoreSet>, stages: map<nat, Saved>) {
    forall i | i in stages && stages[i].completed :: Ended(restored, stages[i])
  }

  // A restore set moves on only after it was requested.
  predicate SetsOk(restored: seq<RestoreSet>) {
    forall c | 0 <= c < |restored| ::
      restored[c].changeSet.requests == 0 <==> restored[c].changeSet.status == Available
  }

  predicate CompletedBefore(stages: map<nat, Saved>, n: nat) {
    forall i | 0 <= i < n :: i in stages && stages[i].completed
  }

  // How many rollback stages are behind the operator where it stands.
  function Behind(plan: Plan, pc: Pc): nat {
    if Restoring(pc) then pc.stage
    else if (Publishing(pc) || Releasing(pc)) && pc.back then plan.restores
    else 0
  }

  // A restore set without changes is never requested.
  predicate EmptyKept(stages: map<nat, Saved>) {
    forall i | i in stages && stages[i].noChanges :: !stages[i].requested
  }

  predicate Standing(op: Operation) {
    && EmptyKept(Stages(op))
    && (op.journal.Some? && !op.journal.value.rollbackRequested ==> Stages(op) == map[])
    && CompletedBefore(Stages(op), Behind(op.plan, op.pc))
    && (op.pc.RestoreDone? && op.pc.stage in Stages(op) ==> Ended(op.restored, Stages(op)[op.pc.stage]))
  }

  predicate RecordOk(s: Shared, id: PlanId, op: Operation) {
    HasTag(s, Rollback(id)) ==> CompletedBefore(Stages(op), op.plan.restores)
  }

  predicate Restored(s: Shared, id: PlanId, op: Operation) {
    SetsOk(op.restored) && EndedOk(op.restored, Stages(op)) && Standing(op) && RecordOk(s, id, op)
  }

  /******* What a move may change *******/

  // Restore sets are only added, and what has completed stays.
  predicate SetsGrow(restored: seq<RestoreSet>, restored': seq<RestoreSet>) {
    forall c | 0 <= c < |restored| && SetDone(restored, c) :: SetDone(restored', c)
  }

  // A completed stage keeps its entry.
  predicate StagesGrow(stages: map<nat, Saved>, stages': map<nat, Saved>) {
    forall i | i in stages && stages[i].completed :: i in stages' && stages'[i] == stages[i]
  }

  // Whatever completes now has ended.
  predicate NewEnded(restored': seq<RestoreSet>, stages: map<nat, Saved>, stages': map<nat, Saved>) {
    forall i | i in stages' && stages'[i].completed && !(i in stages && stages[i].completed) ::
      Ended(restored', stages'[i])
  }

  lemma GrowKeeps(restored: seq<RestoreSet>, stages: map<nat, Saved>,
                  restored': seq<RestoreSet>, stages': map<nat, Saved>)
    requires EndedOk(restored, stages)
    requires SetsGrow(restored, restored') && StagesGrow(stages, stages') && NewEnded(restored', stages, stages')
    ensures EndedOk(restored', stages')
    ensures forall n: nat :: CompletedBefore(stages, n) ==> CompletedBefore(stages', n)
  {
    forall i | i in stages' && stages'[i].completed ensures Ended(restored', stages'[i]) {
      if i in stages && stages[i].completed {
        assert Ended(restored, stages[i]);
      }
    }
  }

  // What a move must give for the facts above to stay.
  predicate Grows(s: Shared, id: PlanId, op: Operation, s': Shared, op': Operation) {
    && op'.plan == op.plan && SetsOk(op'.restored)
    && SetsGrow(op.restored, op'.restored)
    && StagesGrow(Stages(op), Stages(op')) && NewEnded(op'.restored, Stages(op), Stages(op'))
    && Standing(op')
    && (HasTag(s', Rollback(id)) ==> HasTag(s, Rollback(id)) || (op.pc.Putting? && op.pc.back))
  }

  lemma GrowsKeeps(s: Shared, id: PlanId, op: Operation, s': Shared, op': Operation)
    requires Restored(s, id, op) && Grows(s, id, op, s', op')
    ensures Restored(s', id, op')
  {
    GrowKeeps(op.restored, Stages(op), op'.restored, Stages(op'));
  }

  /******* Each move *******/

  // A move that leaves the restore sets and the journaled stages alone, and goes to a
  // point with no more stages behind it.
  predicate SameStages(op: Operation, op': Operation) {
    && op'.plan == op.plan && op'.restored == op.restored && Stages(op') == Stages(op)
    && (op'.journal.Some? && !op'.journal.value.rollbackRequested ==>
          op.journal.None? || !op.journal.value.rollbackRequested)
    && Behind(op'.plan, op'.pc) <= Behind(op.plan, op.pc)
    && (op'.pc == op.pc || !op'.pc.RestoreDone?)
  }

  lemma SameGrows(s: Shared, id: PlanId, op: Operation, s': Shared, op': Operation)
    requires SetsOk(op.restored) && Standing(op) && SameStages(op, op')
    requires HasTag(s', Rollback(id)) ==> HasTag(s, Rollback(id)) || (op.pc.Putting? && op.pc.back)
    ensures Grows(s, id, op, s', op')
  {
  }

  lemma StartStages(s: Shared, op: Operation, e: Event)
    requires e.Start? && OperatorMove(s, op, e).Some?
    ensures OperatorMove(s, op, e).value.0 == s && SameStages(op, OperatorMove(s, op, e).value.1)
  {
  }

  lemma LockStages(s: Shared, id: PlanId, op: Operation)
    requires (op.pc.ExecuteChecked? || op.pc.RollbackLocking?) && AdvanceLock(s, id, op).Some?
    ensures AdvanceLock(s, id, op).value.0.history == s.history && SameStages(op, AdvanceLock(s, id, op).value.1)
  {
  }

  lemma RequestStages(s: Shared, id: PlanId, op: Operation)
    requires (op.pc.ExecuteLocked? || op.pc.RollbackRequesting?) && AdvanceRequest(s, op).Some?
    requires PcOk(s, id, op) && Standing(op)
    ensures AdvanceRequest(s, op).value.0 == s && SameStages(op, AdvanceRequest(s, op).value.1)
  {
  }

  lemma ExecuteStages(s: Shared, op: Operation)
    requires Executing(op.pc) && AdvanceExecute(s, op).Some?
    ensures AdvanceExecute(s, op).value.0 == s && SameStages(op, AdvanceExecute(s, op).value.1)
  {
  }

  lemma PublishStages(s: Shared, id: PlanId, op: Operation, now: nat)
    requires Publishing(op.pc) && AdvancePublish(s, id, op, now).Some?
    ensures var (s', op') := AdvancePublish(s, id, op, now).value;
            && SameStages(op, op')
            && (HasTag(s', Rollback(id)) ==> HasTag(s, Rollback(id)) || (op.pc.Putting? && op.pc.back))
  {
    var s' := AdvancePublish(s, id, op, now).value.0;
    if j :| 0 <= j < |s'.history| && s'.history[j].tag == Rollback(id) {
      assert s' == s || op.pc.Putting?;
      if j < |s.history| {
        assert s.history[j] == s'.history[j];
      }
    }
  }

  lemma UnlockStages(s: Shared, id: PlanId, op: Operation)
    requires Releasing(op.pc) && AdvanceUnlock(s, id, op).Some?
    ensures AdvanceUnlock(s, id, op).value.0.history == s.history && SameStages(op, AdvanceUnlock(s, id, op).value.1)
  {
  }

  // A stage that goes on without a write, or was the last.
  lemma StageGoesOn(s: Shared, id: PlanId, op: Operation, noChanges: bool)
    requires op.pc.RestoreStage? && AdvanceRestore(s, op, noChanges).Some?
    requires AdvanceRestore(s, op, noChanges).value.1 == op.(pc := AdvanceRestore(s, op, noChanges).value.1.pc)
    requires SetsOk(op.restored) && Standing(op)
    ensures Grows(s, id, op, s, AdvanceRestore(s, op, noChanges).value.1)
  {
  }

  // A stage that is created, or journaled as requested.
  lemma StageBegins(s: Shared, id: PlanId, op: Operation, noChanges: bool)
    requires op.pc.RestoreStage? && op.pc.stage < op.plan.restores && AdvanceRestore(s, op, noChanges).Some?
    requires var i := op.pc.stage;
             i !in Stages(op) || !(Stages(op)[i].completed || Stages(op)[i].noChanges || Stages(op)[i].requested)
    requires PcOk(s, id, op) && SetsOk(op.restored) && Standing(op)
    ensures Grows(s, id, op, s, AdvanceRestore(s, op, noChanges).value.1)
  {
  }

  lemma RestoreGrows(s: Shared, id: PlanId, op: Operation, noChanges: bool)
    requires op.pc.RestoreStage? && AdvanceRestore(s, op, noChanges).Some?
    requires PcOk(s, id, op) && SetsOk(op.restored) && Standing(op)
    ensures Grows(s, id, op, s, AdvanceRestore(s, op, noChanges).value.1)
    ensures AdvanceRestore(s, op, noChanges).value.0 == s
  {
    var i := op.pc.stage;
    if i < op.plan.restores
       && (i !in Stages(op) || !(Stages(op)[i].completed || Stages(op)[i].noChanges || Stages(op)[i].requested)) {
      StageBegins(s, id, op, noChanges);
    } else {
      StageGoesOn(s, id, op, noChanges);
    }
  }

  lemma CreatedGrows(s: Shared, id: PlanId, op: Operation)
    requires op.pc.RestoreCreated? && AdvanceCreated(s, op).Some?
    requires PcOk(s, id, op) && RestoresOk(op) && SetsOk(op.restored) && Standing(op)
    ensures Grows(s, id, op, s, AdvanceCreated(s, op).value.1)
    ensures AdvanceCreated(s, op).value.0 == s
  {
  }

  lemma RestoringGrows(s: Shared, id: PlanId, op: Operation)
    requires (op.pc.RestoreExecuting? || op.pc.RestoreWaiting? || op.pc.RestoreDone?) && AdvanceRestoring(s, op).Some?
    requires PcOk(s, id, op) && RestoresOk(op) && SetsOk(op.restored) && Standing(op)
    ensures Grows(s, id, op, s, AdvanceRestoring(s, op).value.1)
    ensures AdvanceRestoring(s, op).value.0 == s
  {
  }

  lemma SettleGrows(s: Shared, id: PlanId, op: Operation, e: Event)
    requires (e.Crash? || e.SettlePrepared? || e.SettleRestored?) && OperatorMove(s, op, e).Some?
    requires SetsOk(op.restored) && Standing(op)
    ensures Grows(s, id, op, s, OperatorMove(s, op, e).value.1)
    ensures OperatorMove(s, op, e).value.0 == s
  {
  }

  lemma ForwardGrows(s: Shared, id: PlanId, op: Operation, now: nat)
    requires !Restoring(op.pc) && Advance(s, id, op, now, false).Some?
    requires PcOk(s, id, op) && SetsOk(op.restored) && Standing(op)
    ensures var (s', op') := Advance(s, id, op, now, false).value;
            Grows(s, id, op, s', op')
  {
    var (s', op') := Advance(s, id, op, now, false).value;
    if Publishing(op.pc) {
      PublishStages(s, id, op, now);
    } else if Releasing(op.pc) {
      UnlockStages(s, id, op);
    } else if Executing(op.pc) {
      ExecuteStages(s, op);
    } else if op.pc.ExecuteLocked? || op.pc.RollbackRequesting? {
      RequestStages(s, id, op);
    } else {
      LockStages(s, id, op);
    }
    SameGrows(s, id, op, s', op');
  }

  lemma StepGrows(s: Shared, id: PlanId, op: Operation, now: nat, noChanges: bool)
    requires Advance(s, id, op, now, noChanges).Some?
    requires PcOk(s, id, op) && RestoresOk(op) && SetsOk(op.restored) && Standing(op)
    ensures var (s', op') := Advance(s, id, op, now, noChanges).value;
            Grows(s, id, op, s', op')
  {
    if op.pc.RestoreStage? {
      RestoreGrows(s, id, op, noChanges);
    } else if op.pc.RestoreCreated? {
      CreatedGrows(s, id, op);
    } else if Restoring(op.pc) {
      RestoringGrows(s, id, op);
    } else {
      ForwardGrows(s, id, op, now);
    }
  }

  lemma MoveGrows(s: Shared, id: PlanId, op: Operation, e: Event)
    requires !e.Prepare? && e.id == id && OperatorMove(s, op, e).Some?
    requires PcOk(s, id, op) && RestoresOk(op) && SetsOk(op.restored) && Standing(op)
    ensures var (s', op') := OperatorMove(s, op, e).value;
            Grows(s, id, op, s', op')
  {
    match e
    case Start(_, _) =>
      StartStages(s, op, e);
      SameGrows(s, id, op, s, OperatorMove(s, op, e).value.1);
    case Step(_, now, noChanges) => StepGrows(s, id, op, now, noChanges);
    case _ => SettleGrows(s, id, op, e);
  }

  /******* Every run *******/

  predicate AllRestored(w: World) {
    forall id | id in w.ops :: Restored(w.shared, id, w.ops[id])
  }

  // The records of one plan are not touched by another.
  lemma OtherRecord(id: PlanId, op: Operation, s: Shared, s': Shared, other: PlanId)
    requires SharedStep(id, op, s, s') && other != id
    ensures HasTag(s', Rollback(other)) ==> HasTag(s, Rollback(other))
  {
    if j :| 0 <= j < |s'.history| && s'.history[j].tag == Rollback(other) {
      assert j < |s.history| && s.history[j] == s'.history[j];
    }
  }

  lemma StepRestores(w: World, e: Event)
    requires Inv(w) && AllRestored(w) && Apply(w, e).Some?
    ensures AllRestored(Apply(w, e).value)
  {
    var w' := Apply(w, e).value;
    forall id | id in w'.ops ensures Restored(w'.shared, id, w'.ops[id]) {
      if e.Prepare? && id == e.id {
        NewPlanRestores(w, e);
      } else {
        assert OpInv(w.shared, id, w.ops[id]) && Restored(w.shared, id, w.ops[id]);
        if id == e.id {
          MoveGrows(w.shared, id, w.ops[id], e);
          GrowsKeeps(w.shared, id, w.ops[id], w'.shared, w'.ops[id]);
        } else if !e.Prepare? {
          MoveKeeps(w, e);
          OtherRecord(e.id, w.ops[e.id], w.shared, w'.shared, id);
        }
      }
    }
  }

  lemma NewPlanRestores(w: World, e: Event)
    requires Inv(w) && e.Prepare? && Apply(w, e).Some?
    ensures Restored(Apply(w, e).value.shared, e.id, Apply(w, e).value.ops[e.id])
  {
    PrepareKeeps(w, e);
    var w' := Apply(w, e).value;
    assert OpInv(w'.shared, e.id, w'.ops[e.id]);
  }

  lemma {:induction false} ReachableRestored(events: seq<Event>)
    requires Run(events).Some?
    ensures AllRestored(Run(events).value)
  {
    if events != [] {
      ReachableRestored(events[..|events| - 1]);
      ReachableInv(events[..|events| - 1]);
      StepRestores(Run(events[..|events| - 1]).value, events[|events| - 1]);
    }
  }

  // What a stage stands on once it is journaled as completed.
  predicate StageComplete(op: Operation, k: nat) {
    && k in Stages(op) && Stages(op)[k].completed && Stages(op)[k].restoreSet < |op.restored|
    && op.restored[Stages(op)[k].restoreSet]
       == RestoreSet(k, if Stages(op)[k].noChanges then ChangeSet(0, Available) else ChangeSet(1, Complete))
  }

  lemma StageIsComplete(s: Shared, id: PlanId, op: Operation, k: nat)
    requires Restored(s, id, op) && RestoresOk(op)
    requires op.journal.Some? && op.journal.value.rollbackRequested && k in Stages(op) && Stages(op)[k].completed
    ensures StageComplete(op, k)
  {
    assert SavedOk(op, Stages(op)[k], k) && Ended(op.restored, Stages(op)[k]);
  }

  // A rollback record stands on all rollback stages: each was journaled as completed, and
  // its restore set was requested once and completed, or had no changes and was never requested.
  lemma {:induction false} RollbackIsComplete(events: seq<Event>, i: nat, k: nat)
    requires Run(events).Some? && i < |Run(events).value.shared.history|
    requires Run(events).value.shared.history[i].tag.Rollback?
    requires Run(events).value.shared.history[i].tag.id in Run(events).value.ops
    requires k < Run(events).value.ops[Run(events).value.shared.history[i].tag.id].plan.restores
    ensures StageComplete(Run(events).value.ops[Run(events).value.shared.history[i].tag.id], k)
  {
    ReachableInv(events);
    ReachableRestored(events);
    var w := Run(events).value;
    var id := w.shared.history[i].tag.id;
    assert HasTag(w.shared, Rollback(id));
    assert OpInv(w.shared, id, w.ops[id]) && Restored(w.shared, id, w.ops[id]);
    StageIsComplete(w.shared, id, w.ops[id], k);
  }
}
