// What the release protocol guarantees over every run: any number of plans, any
// interleaving of their steps, and a crash at any point.
module ReleaseSafety {
  import opened Options
  import opened ReleaseProtocol
  import opened ReleaseInvariant

  /******* The lock *******/

  // Two plans never rely on the lock at once, and whoever does owns the lock object.
  lemma {:induction false} OneHolder(events: seq<Event>, p: PlanId, q: PlanId)
    requires Run(events).Some? && p in Run(events).value.ops && q in Run(events).value.ops
    requires Holding(Run(events).value.ops[p]).Some? && Holding(Run(events).value.ops[q]).Some?
    ensures p == q
    ensures var lock := Run(events).value.shared.lock;
            lock.Some? && lock.value.owner == p && Holding(Run(events).value.ops[p]) == Some(lock.value.version)
  {
    ReachableInv(events);
    var w := Run(events).value;
    assert OpInv(w.shared, p, w.ops[p]) && OpInv(w.shared, q, w.ops[q]);
  }

  // CURRENT changes only by one record of the plan that owns the lock, and nothing
  // was published since that lock was taken.
  lemma {:induction false} PublishedUnderOwnLock(events: seq<Event>, e: Event)
    requires Run(events).Some? && Run(events + [e]).Some?
    requires Run(events + [e]).value.shared.history != Run(events).value.shared.history
    ensures var (s, s') := (Run(events).value.shared, Run(events + [e]).value.shared);
            && s.lock.Some? && s.lock.value.owner == e.id && s'.lock == s.lock
            && Holding(Run(events).value.ops[e.id]) == Some(s.lock.value.version)
            && |s.history| == s.lock.value.at
            && |s'.history| == |s.history| + 1 && s'.history[..|s.history|] == s.history
            && s'.history[|s.history|].tag.id == e.id
  {
    RunExtends(events, e);
    var w := Run(events).value;
    ReachableInv(events);
    MoveKeeps(w, e);
    NotYetPublished(w, e.id, w.ops[e.id].pc.back);
    assert OpInv(w.shared, e.id, w.ops[e.id]);
  }

  // A step that removes the lock is the owner's.
  lemma {:induction false} FreedByOwner(events: seq<Event>, e: Event)
    requires Run(events).Some? && Run(events + [e]).Some?
    requires Run(events).value.shared.lock.Some?
    requires Run(events + [e]).value.shared.lock != Run(events).value.shared.lock
    ensures Run(events).value.shared.lock.value.owner == e.id
    ensures Run(events + [e]).value.shared.lock == None
  {
    RunExtends(events, e);
    ReachableInv(events);
    MoveKeeps(Run(events).value, e);
  }

  lemma {:induction false} RunExtends(events: seq<Event>, e: Event)
    ensures Run(events + [e]) ==
            if Run(events).None? then None else Apply(Run(events).value, e)
  {
    assert (events + [e])[..|events|] == events;
  }

  /******* The history of CURRENT *******/

  // A record of plan p sits directly on the version p was prepared from.
  lemma {:induction false} ReleaseSitsOnItsBase(events: seq<Event>, i: nat)
    requires Run(events).Some? && i < |Run(events).value.shared.history|
    requires Run(events).value.shared.history[i].tag.Release?
    ensures var w := Run(events).value;
            var record := w.shared.history[i];
            && record.tag.id in w.ops
            && Before(w.shared, i) == w.ops[record.tag.id].plan.base
            && record.content.Succeeded?
            && record.content.manifest == w.ops[record.tag.id].plan.manifest
            && record.content.configurationHash == w.ops[record.tag.id].plan.configurationHash
  {
    ReachableInv(events);
    assert Linked(Run(events).value.shared, Run(events).value.ops, i);
  }

  // No plan publishes a release record twice, nor a rollback record twice.
  lemma {:induction false} PublishedOnce(events: seq<Event>, i: nat, j: nat)
    requires Run(events).Some? && i < j < |Run(events).value.shared.history|
    ensures Run(events).value.shared.history[i].tag != Run(events).value.shared.history[j].tag
  {
    ReachableInv(events);
  }

  // A rollback record sits on the record it rolls back, or, when that was never
  // published, on the version the plan was prepared from.
  lemma {:induction false} RollbackPlacement(events: seq<Event>, i: nat)
    requires Run(events).Some? && i < |Run(events).value.shared.history|
    requires Run(events).value.shared.history[i].tag.Rollback?
    ensures var w := Run(events).value;
            var id := w.shared.history[i].tag.id;
            && id in w.ops
            && (if HasTag(w.shared, Release(id)) then i > 0 && w.shared.history[i - 1].tag == Release(id)
                else Before(w.shared, i) == w.ops[id].plan.base)
  {
    ReachableInv(events);
    var w := Run(events).value;
    assert Linked(w.shared, w.ops, i);
    var id := w.shared.history[i].tag.id;
    assert OpInv(w.shared, id, w.ops[id]);
  }

  // After a rollback the plan's release is never published.
  lemma {:induction false} NoReleaseAfterRollback(events: seq<Event>, i: nat, j: nat)
    requires Run(events).Some? && i < |Run(events).value.shared.history| && j < |Run(events).value.shared.history|
    requires var h := Run(events).value.shared.history;
             h[i].tag.Release? && h[j].tag.Rollback? && h[i].tag.id == h[j].tag.id
    ensures j == i + 1
  {
    RollbackPlacement(events, j);
    var s := Run(events).value.shared;
    assert s.history[i].tag == Release(s.history[j].tag.id);
    assert HasTag(s, s.history[i].tag);
    if i < j - 1 {
      PublishedOnce(events, i, j - 1);
    } else if j - 1 < i {
      PublishedOnce(events, j - 1, i);
    }
  }

  // The plan has journaled its migrations as applied.
  predicate Migrated(w: World, id: PlanId) {
    id in w.ops && w.ops[id].journal.Some? && Database in w.ops[id].journal.value.completedStages
  }

  // The version under everything plan `h[i].tag.id` has published, for its rollback record.
  function Underneath(s: Shared, i: nat): Option<Record>
    requires i < |s.history|
  {
    if i > 0 && s.history[i - 1].tag == Release(s.history[i].tag.id) then Before(s, i - 1) else Before(s, i)
  }

  // A rollback record restores what stood before the plan, published or not: the
  // application and configuration of the version under it, and that version's database
  // unless the plan has migrated it forward.
  lemma {:induction false} RollbackRestores(events: seq<Event>, i: nat)
    requires Run(events).Some? && i < |Run(events).value.shared.history|
    requires Run(events).value.shared.history[i].tag.Rollback?
    ensures var w := Run(events).value;
            var (s, id) := (w.shared, w.shared.history[i].tag.id);
            && id in w.ops
            && var (under, forward) := (Underneath(s, i), w.ops[id].plan.manifest.database);
            && (HasTag(s, Release(id)) ==> i > 0 && s.history[i - 1].tag == Release(id))
            && if under.Some? && under.value.content.Succeeded? then
                 var database := if Migrated(w, id) then forward else under.value.content.manifest.database;
                 var restored := Manifest(under.value.content.manifest.application, database);
                 s.history[i].content == Succeeded(restored, under.value.content.configurationHash)
               else s.history[i].content == BaselineRestored(forward)
  {
    RollbackPlacement(events, i);
    RestoredUnder(events, i);
    var w := Run(events).value;
    var op := w.ops[w.shared.history[i].tag.id];
    RestoredIs(op.plan, op.journal.value.completedStages);
  }

  // The record was restored by its plan's journal, and under it lies the plan's base.
  lemma {:induction false} RestoredUnder(events: seq<Event>, i: nat)
    requires Run(events).Some? && i < |Run(events).value.shared.history|
    requires Run(events).value.shared.history[i].tag.Rollback?
    ensures var w := Run(events).value;
            var id := w.shared.history[i].tag.id;
            && id in w.ops && w.ops[id].journal.Some? && Underneath(w.shared, i) == w.ops[id].plan.base
            && w.shared.history[i].content == RestoredContent(w.ops[id].plan, w.ops[id].journal.value.completedStages)
  {
    ReachableInv(events);
    RollbackPlacement(events, i);
    var w := Run(events).value;
    assert Linked(w.shared, w.ops, i);
    if i > 0 && w.shared.history[i - 1].tag == Release(w.shared.history[i].tag.id) {
      ReleaseSitsOnItsBase(events, i - 1);
    }
  }

  // What is restored, from the version under the plan.
  lemma RestoredIs(plan: Plan, completed: seq<Stage>)
    ensures RestoredContent(plan, completed) ==
            if plan.base.Some? && plan.base.value.content.Succeeded? then
              var under := plan.base.value.content;
              var database := if Database in completed then plan.manifest.database else under.manifest.database;
              Succeeded(Manifest(under.manifest.application, database), under.configurationHash)
            else BaselineRestored(plan.manifest.database)
  {
  }

  /******* Crashes around the publication *******/

  // A process that starts publishing finds its own record exactly when it was put
  // before, then it is the current one, and adopting it never fails.
  lemma {:induction false} InterruptedPublicationIsAdopted(events: seq<Event>, id: PlanId, now: nat)
    requires Run(events).Some? && id in Run(events).value.ops && Run(events).value.ops[id].pc.Reading?
    ensures var w := Run(events).value;
            var back := w.ops[id].pc.back;
            Advance(w.shared, id, w.ops[id], now, false) ==
            Stay(w.shared, w.ops[id], if HasTag(w.shared, LabelOf(id, back)) then Published(back) else Putting(back))
  {
    ReachableInv(events);
    var w := Run(events).value;
    assert OpInv(w.shared, id, w.ops[id]);
    OwnRecordIsCurrent(w.shared, id, w.ops[id]);
    if HasTag(w.shared, LabelOf(id, w.ops[id].pc.back)) {
      OwnRecordIsAdoptable(w, id);
    }
  }

  lemma OwnRecordIsAdoptable(w: World, id: PlanId)
    requires ChainInv(w.shared, w.ops) && id in w.ops && w.ops[id].pc.Reading? && w.ops[id].journal.Some?
    requires Current(w.shared).Some? && Current(w.shared).value.tag == LabelOf(id, w.ops[id].pc.back)
    ensures Adoptable(ContentOf(w.ops[id], w.ops[id].pc.back), Current(w.shared).value.content, w.ops[id].pc.back)
  {
    assert Linked(w.shared, w.ops, |w.shared.history| - 1);
  }

  lemma OwnRecordIsCurrent(s: Shared, id: PlanId, op: Operation)
    requires PcOk(s, id, op) && LockOk(s, id, op) && op.pc.Reading?
    ensures op.journal.Some?
    ensures HasTag(s, LabelOf(id, op.pc.back)) <==> Current(s).Some? && Current(s).value.tag == LabelOf(id, op.pc.back)
  {
  }

  /******* Change sets *******/

  // Over all crashes and reruns each prepared change set is requested at most once.
  lemma {:induction false} ExecutedAtMostOnce(events: seq<Event>, id: PlanId, k: nat)
    requires Run(events).Some? && id in Run(events).value.ops && k < |Run(events).value.ops[id].prepared|
    ensures Run(events).value.ops[id].prepared[k].requests <= 1
  {
    ReachableInv(events);
    assert OpInv(Run(events).value.shared, id, Run(events).value.ops[id]);
  }

  // At most one restore change set of a rollback stage is ever requested, and once,
  // however many were created.
  lemma {:induction false} RestoredAtMostOnce(events: seq<Event>, id: PlanId, c: nat, d: nat)
    requires Run(events).Some? && id in Run(events).value.ops
    requires c < |Run(events).value.ops[id].restored| && d < |Run(events).value.ops[id].restored|
    requires Run(events).value.ops[id].restored[c].stage == Run(events).value.ops[id].restored[d].stage
    requires Run(events).value.ops[id].restored[c].changeSet.requests > 0
    requires Run(events).value.ops[id].restored[d].changeSet.requests > 0
    ensures c == d && Run(events).value.ops[id].restored[c].changeSet.requests == 1
  {
    ReachableInv(events);
    assert OpInv(Run(events).value.shared, id, Run(events).value.ops[id]);
  }

  // A published release stands on change sets that were all requested once and completed.
  lemma {:induction false} ReleaseIsComplete(events: seq<Event>, i: nat, k: nat)
    requires Run(events).Some? && i < |Run(events).value.shared.history|
    requires Run(events).value.shared.history[i].tag.Release?
    requires Run(events).value.shared.history[i].tag.id in Run(events).value.ops
    requires var op := Run(events).value.ops[Run(events).value.shared.history[i].tag.id];
             k < |op.plan.stages| && op.plan.stages[k] == Cloud(false)
    ensures var op := Run(events).value.ops[Run(events).value.shared.history[i].tag.id];
            |op.prepared| == |op.plan.stages| && op.prepared[k] == ChangeSet(1, Complete)
  {
    ReachableInv(events);
    var w := Run(events).value;
    var id := w.shared.history[i].tag.id;
    assert OpInv(w.shared, id, w.ops[id]);
    assert HasTag(w.shared, Release(id));
  }

  /******* A stale plan *******/

  // The baseline of a plan is compared before the lock is taken, so a plan can execute
  // its change set although CURRENT has moved on.  In this run plan "b" passes its
  // checks, plan "a" is released in full, and "b" goes on.
  const QUIET := Plan(None, Manifest(0, 0), 0, false, [], 0)
  const ONE_CHANGE := QUIET.(stages := [Cloud(false)])

  function StaleEvent(n: nat): Event {
    if n == 0 then Prepare("a", 0, QUIET)
    else if n == 1 then Prepare("b", 0, ONE_CHANGE)
    else if n == 2 then Start("b", ExecuteCommand)
    else if n == 3 then Start("a", ExecuteCommand)
    else Step(if n < 13 then "a" else "b", 0, false)
  }

  function StaleRun(n: nat): seq<Event> {
    if n == 0 then [] else StaleRun(n - 1) + [StaleEvent(n - 1)]
  }

  // The two plans and the storage after n events of that run.
  function FirstAt(n: nat): Operation {
    var checked := Operation(QUIET, [], [], None, ExecuteChecked);
    var started := checked.(journal := Some(Journal(0, [], false, false, false, None, map[], false, false)));
    var stored := started.(journal := Some(started.journal.value.(recordPublished := true)));
    if n <= 3 then checked.(pc := Idle)
    else if n == 4 then checked
    else if n == 5 then checked.(pc := ExecuteLocked(0))
    else if n == 6 then started.(pc := ExecuteStage(0))
    else if n == 7 then started.(pc := Reading(false))
    else if n == 8 then started.(pc := Putting(false))
    else if n == 9 then started.(pc := Published(false))
    else if n == 10 then stored.(pc := Unlocking(false))
    else if n == 11 then stored.(pc := Deleting(false))
    else if n == 12 then stored.(pc := Unlocked(false))
    else stored.(journal := Some(stored.journal.value.(lockReleased := true)), pc := Idle)
  }

  function SecondAt(n: nat): Operation {
    var checked := Operation(ONE_CHANGE, [ChangeSet(0, Available)], [], None, ExecuteChecked);
    var started := checked.(journal := Some(Journal(1, [], false, false, false, None, map[], false, false)));
    if n <= 2 then checked.(pc := Idle)
    else if n <= 13 then checked
    else if n == 14 then checked.(pc := ExecuteLocked(1))
    else if n == 15 then started.(pc := ExecuteStage(0))
    else started.(prepared := [ChangeSet(1, InProgress)], pc := ExecuteWaiting(0))
  }

  function SharedAt(n: nat): Shared {
    var record := Record(Release("a"), Succeeded(Manifest(0, 0), 0), 0);
    if n <= 4 then Shared(None, 0, [])
    else if n <= 8 then Shared(Some(Lock("a", 0, 0)), 1, [])
    else if n <= 11 then Shared(Some(Lock("a", 0, 0)), 1, [record])
    else if n <= 13 then Shared(None, 1, [record])
    else Shared(Some(Lock("b", 1, 1)), 2, [record])
  }

  function WorldAt(n: nat): World {
    if n == 0 then INITIAL
    else if n == 1 then World(SharedAt(1), map["a" := FirstAt(1)])
    else World(SharedAt(n), map["a" := FirstAt(n), "b" := SecondAt(n)])
  }

  lemma StalePlanExecutes()
    ensures var end := Run(StaleRun(16));
            && end.Some? && "b" in end.value.ops
            && Current(end.value.shared) != end.value.ops["b"].plan.base
            && end.value.ops["b"].prepared == [ChangeSet(1, InProgress)]
  {
    RunIsWorldAt(16);
  }

  lemma {:induction false} RunIsWorldAt(n: nat)
    requires n <= 16
    ensures Run(StaleRun(n)) == Some(WorldAt(n))
  {
    if n > 0 {
      RunIsWorldAt(n - 1);
      RunExtends(StaleRun(n - 1), StaleEvent(n - 1));
      WorldSteps(n - 1);
    }
  }

  lemma WorldSteps(n: nat)
    requires n < 16
    ensures Apply(WorldAt(n), StaleEvent(n)) == Some(WorldAt(n + 1))
  {
    if n < 2 {
      PreparesBoth(n);
    } else if 3 <= n < 13 {
      FirstSteps(n);
    } else {
      SecondMoves(n);
      MovesOne(WorldAt(n), StaleEvent(n), WorldAt(n + 1), SecondAt(n + 1));
    }
  }

  lemma FirstSteps(n: nat)
    requires 3 <= n < 13
    ensures Apply(WorldAt(n), StaleEvent(n)) == Some(WorldAt(n + 1))
  {
    FirstMoves(n);
    MovesOne(WorldAt(n), StaleEvent(n), WorldAt(n + 1), FirstAt(n + 1));
  }

  lemma MovesOne(w: World, e: Event, w': World, op: Operation)
    requires !e.Prepare? && e.id in w.ops && w'.ops == w.ops[e.id := op]
    requires OperatorMove(w.shared, w.ops[e.id], e) == Some((w'.shared, op))
    ensures Apply(w, e) == Some(w')
  {
  }

  lemma PreparesBoth(n: nat)
    requires n < 2
    ensures Apply(WorldAt(n), StaleEvent(n)) == Some(WorldAt(n + 1))
  {
    assert seq(0, _ => ChangeSet(0, Available)) == [];
    assert seq(1, _ => ChangeSet(0, Available)) == [ChangeSet(0, Available)];
    if n == 0 {
      assert INITIAL.ops["a" := FirstAt(1)] == WorldAt(1).ops;
    } else {
      assert WorldAt(1).ops["b" := SecondAt(2)] == WorldAt(2).ops;
    }
  }

  lemma FirstLocks(n: nat)
    requires 3 <= n < 6
    ensures OperatorMove(SharedAt(n), FirstAt(n), StaleEvent(n)) == Some((SharedAt(n + 1), FirstAt(n + 1)))
  {
  }

  lemma FirstVerifies(n: nat)
    requires 6 <= n < 8
    ensures OperatorMove(SharedAt(n), FirstAt(n), StaleEvent(n)) == Some((SharedAt(n + 1), FirstAt(n + 1)))
  {
  }

  lemma FirstPublishes(n: nat)
    requires 8 <= n < 10
    ensures OperatorMove(SharedAt(n), FirstAt(n), StaleEvent(n)) == Some((SharedAt(n + 1), FirstAt(n + 1)))
  {
    assert n == 8 ==> SharedAt(8).history + SharedAt(9).history == SharedAt(9).history;
  }

  lemma FirstUnlocks(n: nat)
    requires 10 <= n < 13
    ensures OperatorMove(SharedAt(n), FirstAt(n), StaleEvent(n)) == Some((SharedAt(n + 1), FirstAt(n + 1)))
  {
  }

  lemma FirstMoves(n: nat)
    requires 3 <= n < 13
    ensures OperatorMove(SharedAt(n), FirstAt(n), StaleEvent(n)) == Some((SharedAt(n + 1), FirstAt(n + 1)))
  {
    if n < 6 {
      FirstLocks(n);
    } else if n < 8 {
      FirstVerifies(n);
    } else if n < 10 {
      FirstPublishes(n);
    } else {
      FirstUnlocks(n);
    }
  }

  lemma SecondMoves(n: nat)
    requires n == 2 || 13 <= n < 16
    ensures OperatorMove(SharedAt(n), SecondAt(n), StaleEvent(n)) == Some((SharedAt(n + 1), SecondAt(n + 1)))
  {
    assert n == 15 ==> SecondAt(15).prepared[0 := ChangeSet(1, InProgress)] == SecondAt(16).prepared;
  }

  // The exact condition.  Once the lock is taken CURRENT stays as it is until the plan
  // itself publishes: a plan works on the version it was prepared from, for as long as
  // it executes its stages, if and only if that version was current when it took the lock.
  lemma {:induction false} ExecutesOnItsBaseIff(events: seq<Event>, more: seq<Event>, id: PlanId)
    requires Run(events).Some? && id in Run(events).value.ops && Run(events).value.ops[id].pc.ExecuteLocked?
    requires Run(events + more).Some? && id in Run(events + more).value.ops
    requires var op := Run(events + more).value.ops[id];
             Executing(op.pc) && op.journal.Some? && op.journal.value.lock == Run(events).value.ops[id].pc.version
    ensures var (w, w') := (Run(events).value, Run(events + more).value);
            && w'.shared.history == w.shared.history
            && (Current(w'.shared) == w'.ops[id].plan.base <==> Current(w.shared) == w.ops[id].plan.base)
  {
    var version := Run(events).value.ops[id].pc.version;
    HeldSinceTheLock(events, id, version);
    HeldSinceTheLock(events + more, id, version);
    Evolves(events, more, id);
  }

  // Until it publishes an executing plan holds its lock, and CURRENT is as it was when
  // the lock was taken.
  lemma {:induction false} HeldSinceTheLock(events: seq<Event>, id: PlanId, version: nat)
    requires Run(events).Some? && id in Run(events).value.ops
    requires LockedAs(Run(events).value.ops[id], version)
    ensures var s := Run(events).value.shared;
            && version < s.nextVersion
            && s.lock.Some? && s.lock.value.owner == id
            && s.lock.value.version == version && s.lock.value.at == |s.history|
  {
    ReachableInv(events);
    LockStands(Run(events).value.shared, id, Run(events).value.ops[id], version);
  }

  // The plan took this version of the lock and has not got to its publication.
  predicate LockedAs(op: Operation, version: nat) {
    op.pc == ExecuteLocked(version)
    || (Executing(op.pc) && op.journal.Some? && op.journal.value.lock == version)
  }

  lemma LockStands(s: Shared, id: PlanId, op: Operation, version: nat)
    requires PcOk(s, id, op) && LockOk(s, id, op) && PublishedOk(s, id, op)
    requires LockedAs(op, version)
    ensures version < s.nextVersion
    ensures s.lock.Some? && s.lock.value.owner == id
    ensures s.lock.value.version == version && s.lock.value.at == |s.history|
  {
  }

  // A lock object never changes while it exists, its version never returns, and
  // CURRENT only grows.
  lemma {:induction false} Evolves(events: seq<Event>, more: seq<Event>, id: PlanId)
    requires Run(events).Some? && id in Run(events).value.ops
    requires Run(events + more).Some?
    ensures var (w, w') := (Run(events).value, Run(events + more).value);
            && id in w'.ops && w'.ops[id].plan == w.ops[id].plan
            && w.shared.nextVersion <= w'.shared.nextVersion
            && w.shared.history <= w'.shared.history
            && (w'.shared.lock.Some? ==>
                  w'.shared.lock == w.shared.lock || w.shared.nextVersion <= w'.shared.lock.value.version)
  {
    if more == [] {
      assert events + more == events;
    } else {
      var init, e := more[..|more| - 1], more[|more| - 1];
      assert events + more == (events + init) + [e];
      RunExtends(events + init, e);
      Evolves(events, init, id);
      ReachableInv(events + init);
      StepEvolves(Run(events + init).value, e, id);
    }
  }

  lemma StepEvolves(w: World, e: Event, id: PlanId)
    requires Inv(w) && Apply(w, e).Some? && id in w.ops
    ensures var w' := Apply(w, e).value;
            && id in w'.ops && w'.ops[id].plan == w.ops[id].plan
            && w.shared.nextVersion <= w'.shared.nextVersion
            && w.shared.history <= w'.shared.history
            && (w'.shared.lock.Some? ==>
                  w'.shared.lock == w.shared.lock || w.shared.nextVersion <= w'.shared.lock.value.version)
  {
    if !e.Prepare? {
      MoveKeeps(w, e);
      SharedEvolves(e.id, w.ops[e.id], w.shared, Apply(w, e).value.shared);
    }
  }

  lemma SharedEvolves(id: PlanId, op: Operation, s: Shared, s': Shared)
    requires SharedStep(id, op, s, s')
    ensures s.nextVersion <= s'.nextVersion && s.history <= s'.history
    ensures s'.lock.Some? ==> s'.lock == s.lock || s.nextVersion <= s'.lock.value.version
  {
  }

  /******* Labels as texts *******/

  // Plan ids are 32 lower-case hexadecimal digits.
  predicate IsPlanId(id: string) {
    |id| == 32 && forall c | c in id :: '0' <= c <= '9' || 'a' <= c <= 'f'
  }

  function PlanIdText(tag: Label): string {
    match tag
    case Release(id) => id
    case Rollback(id) => "rollback-" + id
  }

  // Comparing the "planId" texts of records is comparing their labels.
  lemma LabelsAsTexts(a: Label, b: Label)
    requires IsPlanId(a.id) && IsPlanId(b.id)
    ensures PlanIdText(a) == PlanIdText(b) <==> a == b
  {
    assert forall tag: Label | IsPlanId(tag.id) :: |PlanIdText(tag)| == 32 <==> tag.Release?;
    if a.Rollback? && b.Rollback? && PlanIdText(a) == PlanIdText(b) {
      assert PlanIdText(a)[9..] == a.id && PlanIdText(b)[9..] == b.id;
    }
  }
}
