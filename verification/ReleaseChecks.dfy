// What was checked before a plan touched anything, and when it may start.
module ReleaseChecks {
  import opened Options
  import opened ReleaseProtocol
  import opened ReleaseInvariant
  import opened ReleaseSafety

  /******* Before an execution *******/

  // A plan that has begun: it passed its checks, or has gone on from there.
  predicate Begun(op: Operation) {
    op.journal.Some? || op.pc.ExecuteChecked? || op.pc.ExecuteLocked?
  }

  // A plan found fit to execute: not blocked, CURRENT is the version it was prepared from,
  // and each of its change sets with changes is there and was not executed.
  predicate Fit(s: Shared, op: Operation) {
    && !op.plan.blocked && Current(s) == op.plan.base && |op.prepared| == |op.plan.stages|
    && forall k | 0 <= k < |op.plan.stages| && op.plan.stages[k] == Cloud(false) :: op.prepared[k].status == Available
  }

  // At some earlier moment of the run the plan was found fit.
  ghost predicate WasFit(events: seq<Event>, id: PlanId) {
    exists n | 0 <= n <= |events| ::
      && Run(events[..n]).Some? && id in Run(events[..n]).value.ops
      && Fit(Run(events[..n]).value.shared, Run(events[..n]).value.ops[id])
  }

  lemma BegunLater(s: Shared, op: Operation, e: Event)
    requires !e.Prepare? && OperatorMove(s, op, e).Some?
    ensures var op' := OperatorMove(s, op, e).value.1;
            Begun(op') && !Begun(op) ==> Fit(s, op)
  {
    match e
    case Step(id, now, noChanges) => StepBegins(s, id, op, now, noChanges);
    case _ =>
  }

  lemma StepBegins(s: Shared, id: PlanId, op: Operation, now: nat, noChanges: bool)
    requires Advance(s, id, op, now, noChanges).Some?
    ensures Begun(Advance(s, id, op, now, noChanges).value.1) ==> Begun(op)
  {
  }

  lemma {:induction false} PrefixRuns(events: seq<Event>, n: nat)
    requires Run(events).Some? && n <= |events|
    ensures Run(events[..n]).Some?
    decreases |events| - n
  {
    if n == |events| {
      assert events[..n] == events;
    } else {
      PrefixRuns(events, n + 1);
      assert events[..n + 1][..n] == events[..n];
    }
  }

  lemma {:induction false} FitEarlier(events: seq<Event>, id: PlanId)
    requires events != [] && WasFit(events[..|events| - 1], id)
    ensures WasFit(events, id)
  {
    var front := events[..|events| - 1];
    var n :| 0 <= n <= |front| && Run(front[..n]).Some? && id in Run(front[..n]).value.ops
             && Fit(Run(front[..n]).value.shared, Run(front[..n]).value.ops[id]);
    assert front[..n] == events[..n];
  }

  lemma {:induction false} FitNow(events: seq<Event>, id: PlanId)
    requires events != [] && Run(events[..|events| - 1]).Some?
    requires var w := Run(events[..|events| - 1]).value; id in w.ops && Fit(w.shared, w.ops[id])
    ensures WasFit(events, id)
  {
    var n := |events| - 1;
    assert Run(events[..n]).Some?;
  }

  // No plan takes the lock or writes its journal before it was found fit: so a blocked plan
  // never executes anything, and every plan that executes once stood on its base.
  lemma {:induction false} ChecksComeFirst(events: seq<Event>, id: PlanId)
    requires Run(events).Some? && id in Run(events).value.ops && Begun(Run(events).value.ops[id])
    ensures WasFit(events, id) && !Run(events).value.ops[id].plan.blocked
  {
    if events != [] {
      var front, e := events[..|events| - 1], events[|events| - 1];
      var w := Run(front).value;
      if e.id != id {
        ChecksComeFirst(front, id);
        FitEarlier(events, id);
      } else if !e.Prepare? {
        ReachableInv(front);
        MoveKeeps(w, e);
        BegunLater(w.shared, w.ops[id], e);
        if Begun(w.ops[id]) {
          ChecksComeFirst(front, id);
          FitEarlier(events, id);
        } else {
          FitNow(events, id);
        }
      }
    }
  }

  // A blocked plan asks for nothing, over all runs.
  lemma {:induction false} BlockedNeverExecutes(events: seq<Event>, id: PlanId, k: nat)
    requires Run(events).Some? && id in Run(events).value.ops && Run(events).value.ops[id].plan.blocked
    requires k < |Run(events).value.ops[id].prepared|
    ensures Run(events).value.ops[id].journal == None && Run(events).value.ops[id].prepared[k].requests == 0
  {
    if Begun(Run(events).value.ops[id]) {
      ChecksComeFirst(events, id);
      assert false;
    }
    ReachableInv(events);
    assert OpInv(Run(events).value.shared, id, Run(events).value.ops[id]);
  }

  /******* Commands that are refused *******/

  // A plan is executed at most once: with a journal no command executes it again.
  lemma {:induction false} NeverExecutedTwice(events: seq<Event>, id: PlanId)
    requires Run(events).Some? && id in Run(events).value.ops && Run(events).value.ops[id].journal.Some?
    ensures Run(events + [Start(id, ExecuteCommand)]) == None
  {
    RunExtends(events, Start(id, ExecuteCommand));
  }

  // Once a rollback is complete every command of the plan is refused.
  lemma {:induction false} ClosedForGood(events: seq<Event>, id: PlanId, command: Command)
    requires Run(events).Some? && id in Run(events).value.ops
    requires var op := Run(events).value.ops[id]; op.journal.Some? && op.journal.value.rollbackComplete
    ensures Run(events + [Start(id, command)]) == None
  {
    RunExtends(events, Start(id, command));
    ReachableInv(events);
    assert OpInv(Run(events).value.shared, id, Run(events).value.ops[id]);
  }

  /******* A record that is there already *******/

  // What a command makes of CURRENT before it writes, in any state whatever: a record under
  // its own label must carry the plan's artifacts and configuration, or for a rollback be
  // of the kind it would write itself; anything else leads to the conditional write.
  lemma FoundRecord(s: Shared, id: PlanId, op: Operation, now: nat, back: bool)
    requires op.pc == Reading(back) && op.journal.Some?
    ensures var move := Advance(s, id, op, now, false);
            if Current(s).None? || Current(s).value.tag != (if back then Rollback(id) else Release(id)) then
              move == Some((s, op.(pc := Putting(back))))
            else
              var found := Current(s).value.content;
              var agrees :=
                if back then
                  found.Succeeded? <==> op.plan.base.Some? && op.plan.base.value.content.Succeeded?
                else
                  && found.Succeeded? && found.manifest == op.plan.manifest
                  && found.configurationHash == op.plan.configurationHash;
              move == if agrees then Some((s, op.(pc := Published(back)))) else None
  {
  }

  // And what it makes of the lock object before it deletes one, in any state: only the
  // version it journaled, and only when that carries its own id.
  lemma FoundLock(s: Shared, id: PlanId, op: Operation, now: nat, back: bool)
    requires op.pc == Unlocking(back) && op.journal.Some? && (back || !op.journal.value.lockReleased)
    ensures Advance(s, id, op, now, false) ==
            if s.lock.None? || s.lock.value.version != op.journal.value.lock then Some((s, op.(pc := Unlocked(back))))
            else if s.lock.value.owner == id then Some((s, op.(pc := Deleting(back))))
            else None
  {
  }

  // A plan is prepared from the version of CURRENT that was seen, if any, and nothing of it
  // has been executed.
  lemma PreparedFrom(w: World, id: PlanId, seen: nat, plan: Plan)
    requires id !in w.ops && seen <= |w.shared.history|
    ensures var w' := Apply(w, Prepare(id, seen, plan));
            && w'.Some? && w'.value.shared == w.shared && w'.value.ops.Keys == w.ops.Keys + {id}
            && (forall other | other in w.ops :: w'.value.ops[other] == w.ops[other])
            && var op := w'.value.ops[id];
               && op.plan.base == (if seen == 0 then None else Some(w.shared.history[seen - 1]))
               && op.plan == plan.(base := op.plan.base)
               && op.journal.None? && op.restored == [] && |op.prepared| == |plan.stages|
               && forall k | 0 <= k < |op.prepared| :: op.prepared[k].requests == 0
  {
  }

  /******* Stages in order *******/

  function DoneStages(op: Operation): seq<Stage> {
    if op.journal.None? then [] else op.journal.value.completedStages
  }

  // The journaled stages are the first ones of the plan, their change sets have completed,
  // and nothing behind the next stage was asked for.
  predicate Orderly(op: Operation) {
    var n := |DoneStages(op)|;
    && n <= |op.plan.stages| == |op.prepared| && DoneStages(op) == op.plan.stages[..n]
    && (forall k | 0 <= k < n && op.plan.stages[k] == Cloud(false) :: op.prepared[k].status == Complete)
    && (forall k | n < k < |op.prepared| :: op.prepared[k].requests == 0)
    && (Executing(op.pc) && op.journal.Some? ==> op.pc.stage == n)
    && (op.pc.ExecuteDone? && op.journal.Some? ==>
          n < |op.plan.stages| && (op.plan.stages[n] == Cloud(false) ==> op.prepared[n].status == Complete))
  }

  // A move that leaves the stages and the change sets alone.
  lemma SameStages(op: Operation, op': Operation)
    requires Orderly(op) && op'.plan == op.plan && op'.prepared == op.prepared && DoneStages(op') == DoneStages(op)
    requires Executing(op'.pc) ==>
               || (op'.pc == op.pc && op'.journal.Some? == op.journal.Some?)
               || (op.journal.None? && op'.pc == ExecuteStage(0))
    ensures Orderly(op')
  {
  }

  lemma ExecuteOrderly(s: Shared, op: Operation)
    requires Executing(op.pc) && AdvanceExecute(s, op).Some? && Orderly(op)
    ensures Orderly(AdvanceExecute(s, op).value.1)
  {
    var op' := AdvanceExecute(s, op).value.1;
    if op.pc.ExecuteDone? {
      StageCounts(op, op');
    }
  }

  lemma StageCounts(op: Operation, op': Operation)
    requires Orderly(op) && op.pc.ExecuteDone? && op.journal.Some? && op'.plan == op.plan
    requires op'.prepared == op.prepared && op'.pc == ExecuteStage(op.pc.stage + 1)
    requires DoneStages(op') == DoneStages(op) + [op.plan.stages[|DoneStages(op)|]]
    ensures Orderly(op')
  {
    var n := |DoneStages(op)|;
    assert op.plan.stages[..n + 1] == op.plan.stages[..n] + [op.plan.stages[n]];
  }

  lemma RestoreOrderly(s: Shared, id: PlanId, op: Operation, now: nat, noChanges: bool)
    requires Restoring(op.pc) && Advance(s, id, op, now, noChanges).Some? && Orderly(op)
    ensures Orderly(Advance(s, id, op, now, noChanges).value.1)
  {
    SameStages(op, Advance(s, id, op, now, noChanges).value.1);
  }

  lemma RestOrderly(s: Shared, id: PlanId, op: Operation, now: nat, noChanges: bool)
    requires !Executing(op.pc) && !Restoring(op.pc) && Advance(s, id, op, now, noChanges).Some?
    requires Orderly(op) && PcOk(s, id, op)
    ensures Orderly(Advance(s, id, op, now, noChanges).value.1)
  {
    SameStages(op, Advance(s, id, op, now, noChanges).value.1);
  }

  lemma MoveOrderly(s: Shared, op: Operation, e: Event)
    requires !e.Prepare? && OperatorMove(s, op, e).Some? && Orderly(op) && PcOk(s, e.id, op)
    ensures Orderly(OperatorMove(s, op, e).value.1)
  {
    if e.Step? {
      if Executing(op.pc) {
        ExecuteOrderly(s, op);
      } else if Restoring(op.pc) {
        RestoreOrderly(s, e.id, op, e.now, e.noChanges);
      } else {
        RestOrderly(s, e.id, op, e.now, e.noChanges);
      }
    } else if !e.SettlePrepared? {
      SameStages(op, OperatorMove(s, op, e).value.1);
    }
  }

  lemma {:induction false} AlwaysOrderly(events: seq<Event>, id: PlanId)
    requires Run(events).Some? && id in Run(events).value.ops
    ensures Orderly(Run(events).value.ops[id])
  {
    if events != [] {
      var front, e := events[..|events| - 1], events[|events| - 1];
      var w := Run(front).value;
      if e.id != id {
        AlwaysOrderly(front, id);
      } else if !e.Prepare? {
        AlwaysOrderly(front, id);
        ReachableInv(front);
        assert OpInv(w.shared, id, w.ops[id]);
        MoveOrderly(w.shared, w.ops[id], e);
      }
    }
  }

  // Stages run one after the other: a change set is asked for only when every stage before
  // it is journaled, in the order of the plan, and its change set has completed.
  lemma {:induction false} StagesInOrder(events: seq<Event>, id: PlanId, k: nat, j: nat)
    requires Run(events).Some? && id in Run(events).value.ops
    requires var op := Run(events).value.ops[id]; k < |op.prepared| && op.prepared[k].requests > 0 && j < k
    ensures var op := Run(events).value.ops[id];
            && op.journal.Some? && j < |op.journal.value.completedStages|
            && j < |op.plan.stages| && op.journal.value.completedStages[j] == op.plan.stages[j]
            && (op.plan.stages[j] == Cloud(false) ==> op.prepared[j].status == Complete)
  {
    AlwaysOrderly(events, id);
  }
}
