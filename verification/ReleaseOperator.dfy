// The commands of the release script as they are written: storage calls, journal
// writes and loops over stages. Each run of a command is a run of the transition
// system, whatever other plans do in between and wherever it stops, so everything
// proved of the system's runs holds of the script.
module ReleaseOperator {
  import opened Options
  import opened ReleaseProtocol
  import opened ReleaseInvariant
  import opened ReleaseSafety
  import opened ReleaseRestores
  import opened ReleaseMoves

  // The change sets of the stages from i to j have this status.
  predicate CloudFrom(plan: Plan, prepared: seq<ChangeSet>, i: nat, j: nat, status: Status) {
    j <= |plan.stages| == |prepared|
    && forall k | i <= k < j && plan.stages[k] == Cloud(false) :: prepared[k].status == status
  }

  // The stages before i have completed and the others were not requested.
  predicate StandsAt(plan: Plan, prepared: seq<ChangeSet>, i: nat) {
    CloudFrom(plan, prepared, 0, i, Complete) && CloudFrom(plan, prepared, i, |plan.stages|, Available)
  }

  lemma StageComes(plan: Plan, prepared: seq<ChangeSet>, prepared': seq<ChangeSet>, i: nat)
    requires i < |plan.stages| == |prepared| && |prepared'| == |prepared| && prepared' == prepared[i := prepared'[i]]
    requires plan.stages[i] == Cloud(false) ==> prepared'[i].status == Complete
    requires StandsAt(plan, prepared, i)
    ensures StandsAt(plan, prepared', i + 1)
  {
  }

  // The journal after the first i stages.
  function DoneStages(journal: Journal, plan: Plan, i: nat): Journal
    requires i <= |plan.stages|
  {
    if i == 0 then journal else StageDone(DoneStages(journal, plan, i - 1), plan.stages[i - 1])
  }

  lemma {:induction false} DoneInOrder(journal: Journal, plan: Plan, i: nat)
    requires i <= |plan.stages|
    ensures DoneStages(journal, plan, i) == journal.(completedStages := journal.completedStages + plan.stages[..i])
  {
    if i > 0 {
      DoneInOrder(journal, plan, i - 1);
      assert plan.stages[..i] == plan.stages[..i - 1] + [plan.stages[i - 1]];
    }
  }

  lemma {:induction false} AllInOrder(version: nat, plan: Plan)
    ensures DoneStages(Requested(version), plan, |plan.stages|) == Requested(version).(completedStages := plan.stages)
  {
    DoneInOrder(Requested(version), plan, |plan.stages|);
    assert plan.stages[..|plan.stages|] == plan.stages;
  }

  // The operator of one plan, with the bucket, its change sets and its journal file.
  class Operator {
    const id: PlanId
    const plan: Plan
    // Nothing goes wrong: no call fails, no other plan moves, and CloudFormation
    // completes what was requested.
    const calm: bool
    var shared: Shared
    var prepared: seq<ChangeSet>
    var restored: seq<RestoreSet>
    var disk: Option<Journal>
    ghost var events: seq<Event>

    constructor (id: PlanId, plan: Plan, calm: bool, shared: Shared, prepared: seq<ChangeSet>,
                 restored: seq<RestoreSet>, disk: Option<Journal>, ghost events: seq<Event>)
      requires Run(events).Some? && id in Run(events).value.ops && |prepared| == |plan.stages|
      requires Run(events).value.shared == shared
      requires Run(events).value.ops[id] == Operation(plan, prepared, restored, disk, Idle)
      ensures this.id == id && this.plan == plan && this.calm == calm && this.events == events && At(Idle)
    {
      this.id, this.plan, this.calm, this.shared, this.prepared := id, plan, calm, shared, prepared;
      this.restored, this.disk, this.events := restored, disk, events;
    }

    ghost function Op(pc: Pc): Operation
      reads this
    {
      Operation(plan, prepared, restored, disk, pc)
    }

    // The events so far are a run, and it ends in this state with the process at `pc`.
    ghost predicate At(pc: Pc)
      reads this
    {
      && |prepared| == |plan.stages|
      && Run(events).Some?
      && Run(events).value.shared == shared
      && id in Run(events).value.ops
      && Run(events).value.ops[id] == Op(pc)
    }

    // The state before a step, for its ghost record.
    ghost predicate Was(s: Shared, op: Operation)
      reads this
    {
      && Run(events).Some? && Run(events).value.shared == s
      && id in Run(events).value.ops && Run(events).value.ops[id] == op
    }

    // Records the step that led from an earlier state to the present one.
    ghost method Note(s: Shared, op: Operation, e: Event, pc: Pc)
      requires Was(s, op) && e.id == id && !e.Prepare? && |prepared| == |plan.stages|
      requires OperatorMove(s, op, e) == Some((shared, Op(pc)))
      modifies this`events
      ensures old(events) <= events
      ensures At(pc)
    {
      RunExtends(events, e);
      events := events + [e];
    }

    // Other plans, CloudFormation and time go on; the process may stop here.
    method Continue(ghost pc: Pc) returns (alive: bool)
      requires At(pc)
      modifies this`shared, this`prepared, this`restored, this`events
      ensures old(events) <= events
      ensures |restored| == |old(restored)|
      ensures At(if alive then pc else Idle)
      ensures calm ==> alive && shared == old(shared) && prepared == old(prepared) && restored == old(restored)
    {
      alive := *;
      if calm {
        alive := true;
      }
      if !alive {
        Fail(pc);
      }
    }

    // A raised error ends the process; what it wrote stays.
    ghost method Fail(pc: Pc)
      requires At(pc)
      modifies this`events
      ensures old(events) <= events
      ensures At(Idle)
    {
      Note(shared, Op(pc), Crash(id), Idle);
    }

    /******* lock, publication and unlock *******/

    // lock()
    method TakeLock(ghost pc: Pc) returns (version: Option<nat>)
      requires pc.ExecuteChecked? || pc.RollbackLocking?
      requires At(pc)
      modifies this`shared, this`prepared, this`restored, this`events
      ensures old(events) <= events
      ensures |restored| == |old(restored)|
      ensures version.None? ==> At(Idle)
      ensures version.Some? ==> At(LockedPc(pc, version.value))
      ensures calm && old(shared).lock.None? ==>
                && version.Some? && shared.history == old(shared).history
                && prepared == old(prepared) && restored == old(restored)
    {
      var alive := Continue(pc);
      if !alive {
        return None;
      }
      var put := PutLock(shared, id);
      if put.None? {
        Fail(pc);
        return None;
      }
      ghost var s, op := shared, Op(pc);
      version := Some(shared.nextVersion);
      shared := put.value;
      LockMove(s, op, id);
      Note(s, op, Step(id, 0, false), LockedPc(pc, version.value));
    }

    // The record a command is to write.
    function Content(back: bool): Content
      reads this
      requires disk.Some?
    {
      if back then RestoredContent(plan, disk.value.completedStages) else ReleasedContent(plan)
    }

    // The version of CURRENT it is to be written on.
    function Base(back: bool): Option<ReleaseProtocol.Record>
      reads this
      requires disk.Some?
    {
      if back then disk.value.rollbackBase else plan.base
    }

    // Reads CURRENT: whether it is this plan's record already; none stands for an error.
    method FindRecord(back: bool) returns (found: Option<bool>)
      requires At(Reading(back)) && disk.Some?
      modifies this`shared, this`prepared, this`restored, this`events
      ensures old(events) <= events
      ensures At(if found.None? then Idle else if found.value then Published(back) else Putting(back))
      ensures found.Some? ==> found.value == Own(shared, id, back)
      ensures calm ==> found.Some? && shared == old(shared) && prepared == old(prepared) && restored == old(restored)
    {
      var alive := Continue(Reading(back));
      if !alive {
        return None;
      }
      OwnIsAdopted(events, id, back);
      var content, current, own := Content(back), Current(shared), Own(shared, id, back);
      if own && !Adoptable(content, current.value.content, back) {
        // The error of a record with other artifacts: no run comes here.
        assert false;
      }
      ReadMove(shared, Op(Reading(back)), id, back);
      Note(shared, Op(Reading(back)), Step(id, 0, false), if own then Published(back) else Putting(back));
      found := Some(own);
    }

    // The conditional write of CURRENT on the version the plan knows.
    method PutRecord(back: bool) returns (ok: bool)
      requires At(Putting(back)) && disk.Some?
      modifies this`shared, this`prepared, this`restored, this`events
      ensures old(events) <= events
      ensures At(if ok then Published(back) else Idle)
      ensures calm && Current(old(shared)) == Base(back) ==> ok
    {
      ok := Continue(Putting(back));
      if !ok {
        return;
      }
      var now: nat := *;
      var put := PutCurrent(shared, ReleaseProtocol.Record(LabelOf(id, back), Content(back), now), Base(back));
      if put.None? {
        Fail(Putting(back));
        return false;
      }
      ghost var s, op := shared, Op(Putting(back));
      shared := put.value;
      PutMove(s, op, id, back, now);
      Note(s, op, Step(id, now, false), Published(back));
    }

    method JournalPublished(back: bool) returns (ok: bool)
      requires At(Published(back)) && disk.Some?
      modifies this
      ensures old(events) <= events
      ensures disk.Some? && At(if ok then Unlocking(back) else Idle)
      ensures ok ==> disk == Some(Recorded(old(disk.value), back))
      ensures calm ==> ok
    {
      ok := Continue(Published(back));
      if !ok {
        return;
      }
      ghost var s, op := shared, Op(Published(back));
      disk := Some(Recorded(disk.value, back));
      RecordedMove(s, op, id, back);
      Note(s, op, Step(id, 0, false), Unlocking(back));
    }

    // The record of verify or rollback: adopted when it is there already, else written on
    // the version the plan knows; then journaled.
    method Publish(back: bool) returns (ok: bool)
      requires At(Reading(back)) && disk.Some?
      modifies this
      ensures old(events) <= events
      ensures disk.Some? && At(if ok then Unlocking(back) else Idle)
      ensures ok ==> disk == Some(Recorded(old(disk.value), back))
      ensures calm && old(Own(shared, id, back) || Current(shared) == Base(back)) ==> ok
    {
      var found := FindRecord(back);
      if found.None? {
        return false;
      }
      if !found.value {
        ok := PutRecord(back);
        if !ok {
          return;
        }
      }
      ok := JournalPublished(back);
    }

    // Reads the journaled lock version: whether it is there; none stands for an error.
    method FindLock(back: bool) returns (found: Option<bool>)
      requires At(Unlocking(back)) && disk.Some? && (back || !disk.value.lockReleased)
      modifies this`shared, this`prepared, this`restored, this`events
      ensures old(events) <= events
      ensures At(if found.None? then Idle else if found.value then Deleting(back) else Unlocked(back))
      ensures calm ==> found.Some?
    {
      var alive := Continue(Unlocking(back));
      if !alive {
        return None;
      }
      OwnLock(events, id);
      var present := shared.lock.Some? && shared.lock.value.version == disk.value.lock;
      if present && shared.lock.value.owner != id {
        // The error of another owner: no run comes here.
        assert false;
      }
      FindLockMove(shared, Op(Unlocking(back)), id, back);
      Note(shared, Op(Unlocking(back)), Step(id, 0, false), if present then Deleting(back) else Unlocked(back));
      found := Some(present);
    }

    method DeleteOwnLock(back: bool) returns (ok: bool)
      requires At(Deleting(back)) && disk.Some?
      modifies this`shared, this`prepared, this`restored, this`events
      ensures old(events) <= events
      ensures At(if ok then Unlocked(back) else Idle)
      ensures calm ==> ok
    {
      ok := Continue(Deleting(back));
      if !ok {
        return;
      }
      ghost var s, op := shared, Op(Deleting(back));
      shared := DeleteLock(shared, disk.value.lock);
      DeleteMove(s, op, id, back);
      Note(s, op, Step(id, 0, false), Unlocked(back));
    }

    method JournalUnlocked(back: bool) returns (ok: bool)
      requires At(Unlocked(back)) && disk.Some?
      modifies this
      ensures old(events) <= events
      ensures disk.Some? && At(Idle)
      ensures ok ==> disk == Some(Closed(old(disk.value), back))
      ensures calm ==> ok
    {
      ok := Continue(Unlocked(back));
      if !ok {
        return;
      }
      ghost var s, op := shared, Op(Unlocked(back));
      disk := Some(Closed(disk.value, back));
      ClosedMove(s, op, id, back);
      Note(s, op, Step(id, 0, false), Idle);
    }

    // unlock(): the journaled version only, which is this plan's when it is there; then journaled.
    method Unlock(back: bool) returns (ok: bool)
      requires At(Unlocking(back)) && disk.Some? && (back || !disk.value.lockReleased)
      modifies this
      ensures old(events) <= events
      ensures disk.Some? && At(Idle)
      ensures ok ==> disk == Some(Closed(old(disk.value), back))
      ensures calm ==> ok
    {
      var found := FindLock(back);
      if found.None? {
        return false;
      }
      if found.value {
        ok := DeleteOwnLock(back);
        if !ok {
          return;
        }
      }
      ok := JournalUnlocked(back);
    }

    /******* verify *******/

    // What verify asks for: no rollback, and every requested change set complete.
    predicate Verifiable()
      reads this
    {
      disk.Some? && !disk.value.rollbackRequested
      && CloudIn(Operation(plan, prepared, restored, disk, Idle), Complete)
    }

    // The checks of verify; whether the record was journaled before.
    method Inspect(ghost pc: Pc) returns (published: Option<bool>)
      requires At(pc) && (pc == Idle || (pc == ExecuteStage(|plan.stages|) && disk.Some?))
      modifies this`events
      ensures old(events) <= events
      ensures At(if published.None? then Idle else if published.value then Unlocking(false) else Reading(false))
      ensures published.Some? <==> Verifiable()
      ensures published.Some? ==> published.value == disk.value.recordPublished
    {
      if !Verifiable() {
        Fail(pc);
        return None;
      }
      ghost var e := if pc == Idle then Start(id, VerifyCommand) else Step(id, 0, false);
      VerifyMove(shared, Op(pc), id, e);
      Note(shared, Op(pc), e, if disk.value.recordPublished then Unlocking(false) else Reading(false));
      published := Some(disk.value.recordPublished);
    }

    method SkipUnlock()
      requires At(Unlocking(false)) && disk.Some? && disk.value.lockReleased
      modifies this`events
      ensures old(events) <= events
      ensures At(Idle)
    {
      SkipMove(shared, Op(Unlocking(false)), id);
      Note(shared, Op(Unlocking(false)), Step(id, 0, false), Idle);
    }

    // From the command line or at the end of execute. Success means that the plan's
    // release stands in the history; without interference it succeeds when the checks
    // pass and CURRENT is the plan's record or the version it was prepared from.
    method Verify(ghost pc: Pc) returns (ok: bool)
      requires At(pc) && (pc == Idle || (pc == ExecuteStage(|plan.stages|) && disk.Some?))
      modifies this
      ensures old(events) <= events
      ensures At(Idle)
      ensures ok ==> old(Verifiable()) && disk == Some(old(disk.value).(recordPublished := true, lockReleased := true))
      ensures ok ==> ReleaseStands(shared, Op(Idle), id)
      ensures calm && old(Verifiable()
                          && (disk.value.recordPublished || Own(shared, id, false) || Current(shared) == plan.base))
              ==> ok
    {
      var published := Inspect(pc);
      if published.None? {
        return false;
      }
      if !published.value {
        ok := Publish(false);
        if !ok {
          return;
        }
      }
      if disk.value.lockReleased {
        SkipUnlock();
        ok := true;
      } else {
        ok := Unlock(false);
      }
      if ok {
        RecordedStands(events, id);
      }
    }

    /******* execute *******/

    // What execute asks for before it takes the lock.
    predicate Executable()
      reads this
    {
      disk.None? && !plan.blocked && Current(shared) == plan.base
      && CloudIn(Operation(plan, prepared, restored, disk, Idle), Available)
    }

    // Success means that every stage was journaled in order, the release stands in the
    // history and the lock is given back; without interference a plan that passes the
    // checks succeeds when the lock is free.
    method Execute() returns (ok: bool)
      requires At(Idle)
      modifies this
      ensures old(events) <= events
      ensures At(Idle)
      ensures !old(Executable()) ==> !ok && disk == old(disk) && shared == old(shared)
      ensures ok ==> disk.Some? && disk == Some(Requested(disk.value.lock).(
                       completedStages := plan.stages, recordPublished := true, lockReleased := true))
      ensures ok ==> ReleaseStands(shared, Op(Idle), id)
      ensures calm && old(Executable() && shared.lock.None?) ==> ok
    {
      ok := RequestExecution();
      if !ok {
        return;
      }
      ok := ExecuteRequested(disk.value.lock);
    }

    // The stages of a journaled request, and the verification at their end.
    method ExecuteRequested(ghost version: nat) returns (ok: bool)
      requires At(ExecuteStage(0)) && disk == Some(Requested(version))
      modifies this
      ensures old(events) <= events
      ensures At(Idle)
      ensures ok ==> disk == Some(Requested(version).(
                       completedStages := plan.stages, recordPublished := true, lockReleased := true))
      ensures ok ==> ReleaseStands(shared, Op(Idle), id)
      ensures calm && old(StandsAt(plan, prepared, 0) && Current(shared) == plan.base) ==> ok
    {
      AllInOrder(version, plan);
      ok := ExecuteStages();
      if !ok {
        return;
      }
      ok := Verify(ExecuteStage(|plan.stages|));
    }

    // Up to the first journal write: the checks, the lock and the request.
    method RequestExecution() returns (ok: bool)
      requires At(Idle)
      modifies this
      ensures old(events) <= events
      ensures At(if ok then ExecuteStage(0) else Idle)
      ensures !old(Executable()) ==> !ok && disk == old(disk) && shared == old(shared)
      ensures ok ==> disk.Some? && disk == Some(Requested(disk.value.lock))
      ensures calm && old(Executable() && shared.lock.None?) ==>
                ok && shared.history == old(shared).history && prepared == old(prepared)
    {
      ok := BeginExecute();
      if !ok {
        return;
      }
      var version := TakeLock(ExecuteChecked);
      if version.None? {
        return false;
      }
      ok := JournalRequest(version.value);
    }

    // The checks before the lock is taken.
    method BeginExecute() returns (ok: bool)
      requires At(Idle)
      modifies this`events
      ensures old(events) <= events
      ensures At(if ok then ExecuteChecked else Idle)
      ensures ok == Executable()
    {
      ok := Executable();
      if ok {
        BeginMove(shared, Op(Idle), id);
        Note(shared, Op(Idle), Start(id, ExecuteCommand), ExecuteChecked);
      }
    }

    method JournalRequest(version: nat) returns (ok: bool)
      requires At(ExecuteLocked(version))
      modifies this
      ensures old(events) <= events
      ensures At(if ok then ExecuteStage(0) else Idle)
      ensures ok ==> disk == Some(Requested(version))
      ensures calm ==> ok && shared == old(shared) && prepared == old(prepared)
    {
      ok := Continue(ExecuteLocked(version));
      if !ok {
        return;
      }
      ghost var s, op := shared, Op(ExecuteLocked(version));
      disk := Some(Requested(version));
      RequestMove(s, op, id, version);
      Note(s, op, Step(id, 0, false), ExecuteStage(0));
    }

    method ExecuteStages() returns (ok: bool)
      requires At(ExecuteStage(0)) && disk.Some?
      modifies this
      ensures old(events) <= events
      ensures disk.Some? && At(if ok then ExecuteStage(|plan.stages|) else Idle)
      ensures ok ==> disk == Some(DoneStages(old(disk.value), plan, |plan.stages|))
      ensures calm && old(StandsAt(plan, prepared, 0)) ==>
                ok && shared == old(shared) && StandsAt(plan, prepared, |plan.stages|)
    {
      ok := true;
      ghost var clear, journal := calm && StandsAt(plan, prepared, 0), disk.value;
      for i := 0 to |plan.stages|
        invariant At(ExecuteStage(i)) && ok
        invariant disk == Some(DoneStages(journal, plan, i))
        invariant old(events) <= events
        invariant clear ==> shared == old(shared) && StandsAt(plan, prepared, i)
      {
        ok := ExecuteOne(i);
        if !ok {
          return;
        }
      }
    }

    // One stage: a change set is requested and waited for, then the stage is journaled.
    method ExecuteOne(i: nat) returns (ok: bool)
      requires i < |plan.stages| && At(ExecuteStage(i)) && disk.Some?
      modifies this
      ensures old(events) <= events
      ensures disk.Some? && At(if ok then ExecuteStage(i + 1) else Idle)
      ensures ok ==> disk == Some(StageDone(old(disk.value), plan.stages[i]))
      ensures calm && old(StandsAt(plan, prepared, i)) ==>
                ok && shared == old(shared) && StandsAt(plan, prepared, i + 1)
    {
      ok := PerformStage(i);
      if !ok {
        return;
      }
      if calm && old(StandsAt(plan, prepared, i)) {
        StageComes(plan, old(prepared), prepared, i);
      }
      ok := JournalStage(i);
    }

    method PerformStage(i: nat) returns (ok: bool)
      requires i < |plan.stages| && At(ExecuteStage(i)) && disk.Some?
      modifies this`shared, this`prepared, this`restored, this`events
      ensures old(events) <= events
      ensures At(if ok then ExecuteDone(i) else Idle)
      ensures calm && (plan.stages[i] == Cloud(false) ==> old(prepared[i].status) == Available) ==>
                && ok && shared == old(shared) && prepared == old(prepared)[i := prepared[i]]
                && (plan.stages[i] == Cloud(false) ==> prepared[i].status == Complete)
    {
      if plan.stages[i] == Cloud(false) {
        ok := RequestStage(i);
        if !ok {
          return;
        }
        ok := AwaitStage(i);
      } else {
        StageMove(shared, Op(ExecuteStage(i)), id, i);
        Note(shared, Op(ExecuteStage(i)), Step(id, 0, false), ExecuteDone(i));
        ok := true;
      }
    }

    method RequestStage(i: nat) returns (ok: bool)
      requires i < |plan.stages| && At(ExecuteStage(i)) && disk.Some? && plan.stages[i] == Cloud(false)
      modifies this`shared, this`prepared, this`restored, this`events
      ensures old(events) <= events
      ensures At(if ok then ExecuteWaiting(i) else Idle)
      ensures calm ==> ok && shared == old(shared)
                       && prepared == old(prepared)[i := ReleaseProtocol.Execute(old(prepared[i]))]
    {
      ok := Continue(ExecuteStage(i));
      if !ok {
        return;
      }
      ghost var s, op := shared, Op(ExecuteStage(i));
      prepared := prepared[i := ReleaseProtocol.Execute(prepared[i])];
      StageMove(s, op, id, i);
      Note(s, op, Step(id, 0, false), ExecuteWaiting(i));
    }

    // CloudFormation goes on while the operator waits for a change set.
    method WaitPrepared(i: nat) returns (alive: bool)
      requires i < |plan.stages| && At(ExecuteWaiting(i))
      modifies this`shared, this`prepared, this`restored, this`events
      ensures old(events) <= events
      ensures At(if alive then ExecuteWaiting(i) else Idle)
      ensures calm ==> alive && shared == old(shared)
                       && prepared == old(prepared)[i := Settled(old(prepared[i]), Complete)]
    {
      alive := Continue(ExecuteWaiting(i));
      if alive && calm {
        ghost var s, op := shared, Op(ExecuteWaiting(i));
        prepared := prepared[i := Settled(prepared[i], Complete)];
        Note(s, op, SettlePrepared(id, i, Complete), ExecuteWaiting(i));
      }
    }

    method AwaitStage(i: nat) returns (ok: bool)
      requires i < |plan.stages| && At(ExecuteWaiting(i)) && disk.Some?
      modifies this`shared, this`prepared, this`restored, this`events
      ensures old(events) <= events
      ensures At(if ok then ExecuteDone(i) else Idle)
      ensures calm && old(prepared[i].status) == InProgress ==>
                && ok && shared == old(shared) && prepared[i].status == Complete
                && prepared == old(prepared)[i := prepared[i]]
    {
      ok := WaitPrepared(i);
      if !ok {
        return;
      }
      if prepared[i].status != Complete {
        Fail(ExecuteWaiting(i));
        return false;
      }
      WaitedMove(shared, Op(ExecuteWaiting(i)), id, i);
      Note(shared, Op(ExecuteWaiting(i)), Step(id, 0, false), ExecuteDone(i));
    }

    method JournalStage(i: nat) returns (ok: bool)
      requires i < |plan.stages| && At(ExecuteDone(i)) && disk.Some?
      modifies this
      ensures old(events) <= events
      ensures disk.Some? && At(if ok then ExecuteStage(i + 1) else Idle)
      ensures ok ==> disk == Some(StageDone(old(disk.value), plan.stages[i]))
      ensures calm ==> ok && shared == old(shared) && prepared == old(prepared)
    {
      ok := Continue(ExecuteDone(i));
      if !ok {
        return;
      }
      ghost var s, op := shared, Op(ExecuteDone(i));
      StageJournaled(s, op, id, i);
      disk := Some(StageDone(disk.value, plan.stages[i]));
      Note(s, op, Step(id, 0, false), ExecuteStage(i + 1));
    }

    /******* rollback *******/

    // What rollback needs for an undisturbed run to succeed.
    predicate Recoverable()
      reads this
    {
      && disk.Some? && !disk.value.rollbackComplete && Undoable(shared, id, plan, disk.value)
      && (if disk.value.rollbackRequested then
            && Restorable(shared, id, disk.value)
            && AllResumable(disk.value.rollbackStages, restored, 0, plan.restores)
          else disk.value.recordPublished ==> shared.lock.None?)
    }

    // Success means that the rollback record stands in the history on completed stages
    // and the lock is given back.
    method Rollback() returns (ok: bool)
      requires At(Idle)
      modifies this
      ensures old(events) <= events
      ensures At(Idle)
      ensures ok ==> disk.Some? && disk.value.rollbackComplete && disk.value.lockReleased
      ensures ok ==> RollbackStands(shared, Op(Idle), id)
      ensures calm && old(disk.Some? && disk.value.recordPublished && !disk.value.rollbackRequested && shared.lock.None?
                          && Current(shared).Some? && Current(shared).value.tag == Release(id))
              ==> ok
      ensures calm && old(disk.Some? && !disk.value.recordPublished && !disk.value.rollbackRequested
                          && Current(shared) == plan.base)
              ==> ok
      ensures calm && old(Recoverable()) ==> ok
    {
      CompleteWasAsked(events, id);
      ok := false;
      if disk.None? || disk.value.rollbackComplete {
        return;
      }
      ok := RequestRollback();
      if !ok {
        return;
      }
      ok := RestoreStages();
      if !ok {
        return;
      }
      ok := EndRollback();
      if ok {
        CompleteStands(events, id);
      }
    }

    // The record of the rollback, and its lock.
    method EndRollback() returns (ok: bool)
      requires At(RestoreStage(plan.restores)) && disk.Some?
      modifies this
      ensures old(events) <= events
      ensures disk.Some? && At(Idle)
      ensures ok ==> disk.value.rollbackComplete && disk.value.lockReleased
      ensures calm && old(Restorable(shared, id, disk.value)) ==> ok
    {
      var published := EndRestores();
      if !published {
        ok := Publish(true);
        if !ok {
          return;
        }
      }
      ok := Unlock(true);
    }

    method RestoreStages() returns (ok: bool)
      requires At(RestoreStage(0)) && disk.Some?
      modifies this
      ensures old(events) <= events
      ensures disk.Some? && At(if ok then RestoreStage(plan.restores) else Idle)
      ensures calm && old(AllResumable(disk.value.rollbackStages, restored, 0, plan.restores)) ==>
                ok && (old(Restorable(shared, id, disk.value)) ==> Restorable(shared, id, disk.value))
    {
      ok := true;
      ghost var clear := calm && AllResumable(disk.value.rollbackStages, restored, 0, plan.restores);
      ghost var begun := disk.value;
      for i := 0 to plan.restores
        invariant At(RestoreStage(i)) && disk.Some? && ok
        invariant old(events) <= events
        invariant disk.value == begun.(rollbackStages := disk.value.rollbackStages)
        invariant clear ==> shared == old(shared)
        invariant clear ==> AllResumable(disk.value.rollbackStages, restored, i, plan.restores)
      {
        ghost var journal, sets := disk.value, restored;
        ok := RestoreOne(i);
        if !ok {
          return;
        }
        if clear {
          ResumableOn(journal, sets, disk.value, restored, i, plan.restores);
        }
      }
    }

    method EndRestores() returns (published: bool)
      requires At(RestoreStage(plan.restores)) && disk.Some?
      modifies this`events
      ensures old(events) <= events
      ensures At(if published then Unlocking(true) else Reading(true))
      ensures published == disk.value.rollbackRecordPublished
    {
      published := disk.value.rollbackRecordPublished;
      EndMove(shared, Op(RestoreStage(plan.restores)), id);
      Note(shared, Op(RestoreStage(plan.restores)), Step(id, 0, false),
           if published then Unlocking(true) else Reading(true));
    }

    // Up to the journaled request: nothing when it was journaled before; a published
    // release is locked again, an unpublished one still holds its lock.
    method RequestRollback() returns (ok: bool)
      requires At(Idle) && disk.Some? && !disk.value.rollbackComplete
      modifies this
      ensures old(events) <= events
      ensures disk.Some? && At(if ok then RestoreStage(0) else Idle)
      ensures calm && old(Recoverable()) ==>
                && ok && Restorable(shared, id, disk.value)
                && AllResumable(disk.value.rollbackStages, restored, 0, plan.restores)
    {
      var journal, current := disk.value, Current(shared);
      ok := BeginRollback(current);
      if !ok || journal.rollbackRequested {
        return;
      }
      var version := LockAgain(current);
      if version.None? {
        return false;
      }
      ok := JournalRollback(current, version.value);
      AskedAnew(shared, id, journal, version.value, restored, plan.restores);
    }

    // The lock of the rollback: taken anew for a published release, else the one journaled.
    method LockAgain(current: Option<ReleaseProtocol.Record>) returns (version: Option<nat>)
      requires disk.Some? && !disk.value.rollbackRequested && At(RollbackPc(disk.value, current))
      modifies this`shared, this`prepared, this`restored, this`events
      ensures old(events) <= events
      ensures At(if version.None? then Idle else RollbackRequesting(current, version.value))
      ensures calm && (disk.value.recordPublished ==> old(shared).lock.None?) ==>
                version.Some? && shared.history == old(shared).history
    {
      if disk.value.recordPublished {
        version := TakeLock(RollbackLocking(current));
      } else {
        version := Some(disk.value.lock);
      }
    }

    // The checks of rollback, and where it goes on.
    method BeginRollback(current: Option<ReleaseProtocol.Record>) returns (ok: bool)
      requires At(Idle) && disk.Some? && !disk.value.rollbackComplete && current == Current(shared)
      modifies this`events
      ensures old(events) <= events
      ensures At(if ok then RollbackPc(disk.value, current) else Idle)
      ensures ok == Undoable(shared, id, plan, disk.value)
    {
      ok := disk.value.rollbackRequested
            || (if disk.value.recordPublished then current.Some? && current.value.tag == Release(id)
                else current == plan.base);
      if ok {
        UndoMove(shared, Op(Idle), id);
        Note(shared, Op(Idle), Start(id, RollbackCommand), RollbackPc(disk.value, current));
      }
    }

    method JournalRollback(current: Option<ReleaseProtocol.Record>, version: nat) returns (ok: bool)
      requires At(RollbackRequesting(current, version)) && disk.Some?
      modifies this
      ensures old(events) <= events
      ensures disk.Some? && At(if ok then RestoreStage(0) else Idle)
      ensures ok ==> disk == Some(RollbackAsked(old(disk.value), current, version))
      ensures calm ==> ok && shared == old(shared)
    {
      ok := Continue(RollbackRequesting(current, version));
      if !ok {
        return;
      }
      ghost var s, op := shared, Op(RollbackRequesting(current, version));
      disk := Some(RollbackAsked(disk.value, current, version));
      AskMove(s, op, id, current, version);
      Note(s, op, Step(id, 0, false), RestoreStage(0));
    }

    // restore_stage(): the change set is created, journaled, journaled as requested,
    // executed and waited for; a repeated run takes up where the journal stands.
    method RestoreOne(i: nat) returns (ok: bool)
      requires i < plan.restores && At(RestoreStage(i)) && disk.Some?
      modifies this
      ensures old(events) <= events
      ensures disk.Some? && At(if ok then RestoreStage(i + 1) else Idle)
      ensures ok ==> i in disk.value.rollbackStages && disk.value.rollbackStages[i].completed
      ensures OthersSaved(old(disk.value), disk.value, i)
      ensures calm && old(Resumable(disk.value.rollbackStages, restored, i)) ==>
                ok && shared == old(shared) && KeepMoving(old(restored), restored)
    {
      if i in disk.value.rollbackStages && disk.value.rollbackStages[i].completed {
        SkipRestore(i);
        return true;
      }
      if i !in disk.value.rollbackStages {
        ok := CreateRestore(i);
        if !ok {
          return;
        }
      }
      ok := RestoreSaved(i);
    }

    // A stage with a journaled restore set.
    method RestoreSaved(i: nat) returns (ok: bool)
      requires i < plan.restores && At(RestoreStage(i)) && Underway(i)
      modifies this
      ensures old(events) <= events
      ensures disk.Some? && At(if ok then RestoreStage(i + 1) else Idle)
      ensures ok ==> i in disk.value.rollbackStages && disk.value.rollbackStages[i].completed
      ensures OthersSaved(old(disk.value), disk.value, i)
      ensures calm && old(Resumable(disk.value.rollbackStages, restored, i)) ==>
                ok && shared == old(shared) && KeepMoving(old(restored), restored)
    {
      if disk.value.rollbackStages[i].noChanges {
        NothingToRestore(i);
      } else {
        ok := PerformRestore(i);
        if !ok {
          return;
        }
      }
      EnteredOthers(disk.value, i, disk.value.rollbackStages[i].(completed := true));
      ok := FinishRestore(i);
    }

    method PerformRestore(i: nat) returns (ok: bool)
      requires i < plan.restores && At(RestoreStage(i)) && Underway(i) && !disk.value.rollbackStages[i].noChanges
      modifies this
      ensures old(events) <= events
      ensures At(if ok then RestoreDone(i) else Idle) && Underway(i)
      ensures OthersSaved(old(disk.value), disk.value, i)
      ensures calm && old(Resumable(disk.value.rollbackStages, restored, i)) ==>
                ok && shared == old(shared) && KeepMoving(old(restored), restored)
    {
      ok := StartRestore(i);
      if !ok {
        return;
      }
      ok := AwaitRestore(i);
    }

    // The request, or the check of an earlier one.
    method StartRestore(i: nat) returns (ok: bool)
      requires i < plan.restores && At(RestoreStage(i)) && Underway(i) && !disk.value.rollbackStages[i].noChanges
      modifies this
      ensures old(events) <= events
      ensures At(if ok then RestoreWaiting(i) else Idle) && Underway(i)
      ensures OthersSaved(old(disk.value), disk.value, i)
      ensures calm && old(Resumable(disk.value.rollbackStages, restored, i)) ==>
                && ok && shared == old(shared) && KeepMoving(old(restored), restored)
                && Moving(restored, disk.value.rollbackStages[i].restoreSet)
    {
      if !disk.value.rollbackStages[i].requested {
        EnteredOthers(disk.value, i, disk.value.rollbackStages[i].(requested := true));
        ok := RequestRestore(i);
      } else {
        ok := ResumeRestore(i);
      }
    }

    // What the journal says of a stage that goes on.
    predicate Underway(i: nat)
      reads this
    {
      disk.Some? && i in disk.value.rollbackStages && !disk.value.rollbackStages[i].completed
    }

    method SkipRestore(i: nat)
      requires i < plan.restores && At(RestoreStage(i)) && disk.Some?
      requires i in disk.value.rollbackStages && disk.value.rollbackStages[i].completed
      modifies this`events
      ensures old(events) <= events
      ensures At(RestoreStage(i + 1))
    {
      SavedMove(shared, Op(RestoreStage(i)), id, i);
      Note(shared, Op(RestoreStage(i)), Step(id, 0, false), RestoreStage(i + 1));
    }

    method NothingToRestore(i: nat)
      requires i < plan.restores && At(RestoreStage(i)) && Underway(i) && disk.value.rollbackStages[i].noChanges
      modifies this`events
      ensures old(events) <= events
      ensures At(RestoreDone(i))
    {
      SavedMove(shared, Op(RestoreStage(i)), id, i);
      Note(shared, Op(RestoreStage(i)), Step(id, 0, false), RestoreDone(i));
    }

    method CreateRestore(i: nat) returns (ok: bool)
      requires i < plan.restores && At(RestoreStage(i)) && disk.Some? && i !in disk.value.rollbackStages
      modifies this
      ensures old(events) <= events
      ensures disk.Some? && At(if ok then RestoreStage(i) else Idle)
      ensures OthersSaved(old(disk.value), disk.value, i)
      ensures ok ==> Underway(i) && !disk.value.rollbackStages[i].requested
      ensures calm ==> ok && shared == old(shared) && KeepMoving(old(restored), restored)
    {
      var noChanges: bool := *;
      var created := |restored|;
      EnteredOthers(disk.value, i, Saved(created, noChanges, false, false));
      CreateChangeSet(i, noChanges);
      ok := JournalCreated(i, created, noChanges);
    }

    method CreateChangeSet(i: nat, noChanges: bool)
      requires i < plan.restores && At(RestoreStage(i)) && disk.Some? && i !in disk.value.rollbackStages
      modifies this`restored, this`events
      ensures old(events) <= events
      ensures At(RestoreCreated(i, |old(restored)|, noChanges))
      ensures KeepMoving(old(restored), restored)
    {
      ghost var s, op := shared, Op(RestoreStage(i));
      ghost var created := |restored|;
      restored := restored + [RestoreSet(i, ChangeSet(0, Available))];
      CreateMove(s, op, id, i, noChanges);
      Note(s, op, Step(id, 0, noChanges), RestoreCreated(i, created, noChanges));
    }

    method JournalCreated(i: nat, created: nat, noChanges: bool) returns (ok: bool)
      requires At(RestoreCreated(i, created, noChanges)) && disk.Some?
      modifies this
      ensures old(events) <= events
      ensures disk.Some? && At(if ok then RestoreStage(i) else Idle)
      ensures disk == if ok then Some(Entered(old(disk.value), i, Saved(created, noChanges, false, false)))
                      else old(disk)
      ensures calm ==> ok && shared == old(shared) && restored == old(restored)
    {
      ok := Continue(RestoreCreated(i, created, noChanges));
      if !ok {
        return;
      }
      ghost var s, op := shared, Op(RestoreCreated(i, created, noChanges));
      disk := Some(Entered(disk.value, i, Saved(created, noChanges, false, false)));
      CreatedMove(s, op, id, i, created, noChanges);
      Note(s, op, Step(id, 0, false), RestoreStage(i));
    }

    // The request is journaled before the call.
    method RequestRestore(i: nat) returns (ok: bool)
      requires i < plan.restores && At(RestoreStage(i)) && Underway(i)
      requires !disk.value.rollbackStages[i].noChanges && !disk.value.rollbackStages[i].requested
      modifies this
      ensures old(events) <= events
      ensures disk == Some(Entered(old(disk.value), i, old(disk.value.rollbackStages[i]).(requested := true)))
      ensures At(if ok then RestoreWaiting(i) else Idle)
      ensures calm ==> ok && shared == old(shared) && KeepMoving(old(restored), restored)
                       && Moving(restored, disk.value.rollbackStages[i].restoreSet)
    {
      SavedExists(events, id, i);
      JournalRestore(i);
      ok := ExecuteRestore(i);
    }

    method JournalRestore(i: nat)
      requires i < plan.restores && At(RestoreStage(i)) && Underway(i)
      requires !disk.value.rollbackStages[i].noChanges && !disk.value.rollbackStages[i].requested
      modifies this`disk, this`events
      ensures old(events) <= events
      ensures disk == Some(Entered(old(disk.value), i, old(disk.value.rollbackStages[i]).(requested := true)))
      ensures At(RestoreExecuting(i))
    {
      ghost var s, op := shared, Op(RestoreStage(i));
      disk := Some(Entered(disk.value, i, disk.value.rollbackStages[i].(requested := true)));
      SavedMove(s, op, id, i);
      Note(s, op, Step(id, 0, false), RestoreExecuting(i));
    }

    // The saved restore set exists and was not executed.
    predicate Unrequested(i: nat)
      reads this
      requires Underway(i)
    {
      var k := disk.value.rollbackStages[i].restoreSet;
      k < |restored| && restored[k].changeSet.status == Available
    }

    method ExecuteRestore(i: nat) returns (ok: bool)
      requires At(RestoreExecuting(i)) && Underway(i)
      modifies this`shared, this`prepared, this`restored, this`events
      ensures old(events) <= events
      ensures At(if ok then RestoreWaiting(i) else Idle)
      ensures calm && old(Unrequested(i)) ==>
                && ok && shared == old(shared) && KeepMoving(old(restored), restored)
                && Moving(restored, disk.value.rollbackStages[i].restoreSet)
    {
      ok := Continue(RestoreExecuting(i));
      if !ok {
        return;
      }
      var k := disk.value.rollbackStages[i].restoreSet;
      SavedExists(events, id, i);
      ghost var s, op := shared, Op(RestoreExecuting(i));
      ExecutionMoves(restored, k);
      restored := Execution(restored, k);
      ExecutingMove(s, op, id, i);
      Note(s, op, Step(id, 0, false), RestoreWaiting(i));
    }

    // A journaled request is never repeated: it must be under way or done.
    method ResumeRestore(i: nat) returns (ok: bool)
      requires i < plan.restores && At(RestoreStage(i)) && Underway(i)
      requires !disk.value.rollbackStages[i].noChanges && disk.value.rollbackStages[i].requested
      modifies this`shared, this`prepared, this`restored, this`events
      ensures old(events) <= events
      ensures At(if ok then RestoreWaiting(i) else Idle)
      ensures calm && Moving(old(restored), disk.value.rollbackStages[i].restoreSet) ==>
                ok && shared == old(shared) && restored == old(restored)
    {
      ok := Continue(RestoreStage(i));
      if !ok {
        return;
      }
      if !Moving(restored, disk.value.rollbackStages[i].restoreSet) {
        Fail(RestoreStage(i));
        return false;
      }
      SavedMove(shared, Op(RestoreStage(i)), id, i);
      Note(shared, Op(RestoreStage(i)), Step(id, 0, false), RestoreWaiting(i));
    }

    // CloudFormation goes on while the operator waits for a restore set.
    method WaitRestored(i: nat) returns (alive: bool)
      requires At(RestoreWaiting(i)) && Underway(i)
      modifies this`shared, this`prepared, this`restored, this`events
      ensures old(events) <= events
      ensures At(if alive then RestoreWaiting(i) else Idle)
      ensures var k := disk.value.rollbackStages[i].restoreSet;
              calm && Moving(old(restored), k) ==>
                && alive && shared == old(shared) && KeepMoving(old(restored), restored)
                && Moving(restored, k) && restored[k].changeSet.status == Complete
    {
      alive := Continue(RestoreWaiting(i));
      var k := disk.value.rollbackStages[i].restoreSet;
      if alive && calm && k < |restored| {
        ghost var s, op := shared, Op(RestoreWaiting(i));
        CompletionMoves(restored, k);
        restored := Completion(restored, k);
        Note(s, op, SettleRestored(id, k, Complete), RestoreWaiting(i));
      }
    }

    method AwaitRestore(i: nat) returns (ok: bool)
      requires At(RestoreWaiting(i)) && Underway(i)
      modifies this`shared, this`prepared, this`restored, this`events
      ensures old(events) <= events
      ensures At(if ok then RestoreDone(i) else Idle)
      ensures calm && Moving(old(restored), disk.value.rollbackStages[i].restoreSet) ==>
                ok && shared == old(shared) && KeepMoving(old(restored), restored)
    {
      ok := WaitRestored(i);
      if !ok {
        return;
      }
      var k := disk.value.rollbackStages[i].restoreSet;
      if k >= |restored| || restored[k].changeSet.status != Complete {
        Fail(RestoreWaiting(i));
        return false;
      }
      AwaitedMove(shared, Op(RestoreWaiting(i)), id, i);
      Note(shared, Op(RestoreWaiting(i)), Step(id, 0, false), RestoreDone(i));
    }

    method FinishRestore(i: nat) returns (ok: bool)
      requires At(RestoreDone(i)) && Underway(i)
      modifies this
      ensures old(events) <= events
      ensures disk.Some? && At(if ok then RestoreStage(i + 1) else Idle)
      ensures var finished := old(disk.value.rollbackStages[i]).(completed := true);
              disk == if ok then Some(Entered(old(disk.value), i, finished)) else old(disk)
      ensures calm ==> ok && shared == old(shared) && restored == old(restored)
    {
      ok := Continue(RestoreDone(i));
      if !ok {
        return;
      }
      SavedExists(events, id, i);
      ghost var s, op := shared, Op(RestoreDone(i));
      FinishedMove(s, op, id, i);
      disk := Some(Entered(disk.value, i, disk.value.rollbackStages[i].(completed := true)));
      Note(s, op, Step(id, 0, false), RestoreStage(i + 1));
    }
  }
}
