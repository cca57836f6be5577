// The connector's access reconciliation over a cluster: assignments become labelled role
// and binding pairs, and labelled objects of other assignments are pruned.
module Rbac {
  import opened Options

  /******* Objects *******/

  type Id = string

  datatype Place = InNamespace(namespace: string) | ClusterWide

  datatype Kind = RoleKind | BindingKind

  datatype Key = Key(kind: Kind, place: Place, name: string)

  // app.kubernetes.io/managed-by and navigan.io/assignment-id.
  datatype Labels = Labels(byNavigan: bool, assignment: Option<Id>)

  datatype Subject = User(name: string) | Group(name: string)

  datatype Body = Rules(rules: seq<string>) | Grant(roleName: string, subject: Subject)

  datatype Object = Object(labels: Labels, body: Body)

  type State = map<Key, Object>

  datatype Assignment = Assignment(
    id: Id, place: Place, subjectType: string, subjectId: string, rules: seq<string>)

  function Lower(c: char): char {
    if 'A' <= c <= 'Z' then c - 'A' + 'a' else c
  }

  function LowerAll(s: string): string {
    seq(|s|, i requires 0 <= i < |s| => Lower(s[i]))
  }

  function ResourceName(id: Id): string {
    "navigan-" + LowerAll(if "KAA-" <= id then id[4..] else id)
  }

  function SubjectOf(a: Assignment): Subject {
    var name := "navigan:" + a.subjectId;
    if a.subjectType == "USER" then User(name) else Group(name)
  }

  function LabelsOf(a: Assignment): Labels {
    Labels(true, Some(a.id))
  }

  function KeyOf(kind: Kind, a: Assignment): Key {
    Key(kind, a.place, ResourceName(a.id))
  }

  function ObjectOf(kind: Kind, a: Assignment): Object {
    match kind
    case RoleKind => Object(LabelsOf(a), Rules(a.rules))
    case BindingKind => Object(LabelsOf(a), Grant(ResourceName(a.id), SubjectOf(a)))
  }

  // Labelled by the connector with an assignment.
  predicate Managed(labels: Labels) {
    labels.byNavigan && labels.assignment.Some? && labels.assignment.value != ""
  }

  predicate Stale(labels: Labels, desired: set<Id>) {
    Managed(labels) && labels.assignment.value !in desired
  }

  /******* What holds of every state *******/

  // Every managed binding grants a role that exists at its place.
  predicate Safe(s: State) {
    forall k | k in s && k.kind == BindingKind && Managed(s[k].labels) ::
      s[k].body.Grant? && Key(RoleKind, k.place, s[k].body.roleName) in s
  }

  // Managed objects carry the name of their assignment, those names are distinct, and a
  // managed binding grants the role of its own name.
  predicate Named(s: State, ids: set<Id>) {
    forall k | k in s && Managed(s[k].labels) ::
      && s[k].labels.assignment.value in ids && k.name == ResourceName(s[k].labels.assignment.value)
      && (k.kind == BindingKind ==> s[k].body.Grant? && s[k].body.roleName == k.name)
  }

  predicate DistinctNames(ids: set<Id>) {
    forall a, b | a in ids && b in ids && ResourceName(a) == ResourceName(b) :: a == b
  }

  predicate Good(s: State, ids: set<Id>) {
    Safe(s) && Named(s, ids)
  }

  predicate AllGood(trace: seq<State>, ids: set<Id>) {
    forall i | 0 <= i < |trace| :: Good(trace[i], ids)
  }

  /******* The cluster *******/

  // Every call may fail, before or after it took effect. The trace keeps each state.
  class Cluster {
    var objects: State
    ghost var trace: seq<State>

    method Apply(key: Key, item: Object) returns (ok: bool)
      modifies this
      ensures objects == old(objects) || objects == old(objects)[key := item]
      ensures ok ==> objects == old(objects)[key := item]
      ensures trace == old(trace) + [objects]
    {
      var lands, answers := *, *;
      if lands {
        objects := objects[key := item];
      }
      ok := lands && answers;
      trace := trace + [objects];
    }

    // Not found counts as deleted.
    method Delete(key: Key) returns (ok: bool)
      modifies this
      ensures objects == old(objects) || objects == old(objects) - {key}
      ensures ok ==> objects == old(objects) - {key}
      ensures trace == old(trace) + [objects]
    {
      var lands, answers := *, *;
      if lands {
        objects := objects - {key};
      }
      ok := lands && answers;
      trace := trace + [objects];
    }

    // The objects of a kind, in namespaces or cluster-wide, labelled as managed.
    method List(kind: Kind, namespaced: bool) returns (items: Option<seq<Item>>)
      ensures items.Some? ==> ListingOf(objects, items.value, kind, namespaced)
    {
      var fails := *;
      if fails {
        return None;
      }
      var left := set k | k in objects.Keys && Listed(k, kind, namespaced) && objects[k].labels.byNavigan;
      var found: seq<Item> := [];
      while left != {}
        invariant forall k | k in left :: k in objects && Listed(k, kind, namespaced)
        invariant forall i | 0 <= i < |found| :: Shows(objects, found[i], kind, namespaced)
        invariant forall k | k in objects && Listed(k, kind, namespaced) && objects[k].labels.byNavigan ::
          k in left || Item(k, objects[k].labels) in found
        decreases left
      {
        var k :| k in left;
        found, left := found + [Item(k, objects[k].labels)], left - {k};
      }
      items := Some(found);
    }
  }

  // An entry of a listing.
  datatype Item = Item(key: Key, labels: Labels)

  predicate Shows(s: State, item: Item, kind: Kind, namespaced: bool) {
    item.key in s && Listed(item.key, kind, namespaced) && s[item.key].labels == item.labels
  }

  predicate Listed(k: Key, kind: Kind, namespaced: bool) {
    k.kind == kind && k.place.InNamespace? == namespaced
  }

  /******* One assignment *******/

  lemma RoleApplied(s: State, a: Assignment, ids: set<Id>)
    requires Good(s, ids) && a.id in ids
    ensures Good(s[KeyOf(RoleKind, a) := ObjectOf(RoleKind, a)], ids)
  {
  }

  lemma BindingApplied(s: State, a: Assignment, ids: set<Id>)
    requires Good(s, ids) && a.id in ids && KeyOf(RoleKind, a) in s
    ensures Good(s[KeyOf(BindingKind, a) := ObjectOf(BindingKind, a)], ids)
  {
  }

  function Applied(s: State, a: Assignment): State {
    s[KeyOf(RoleKind, a) := ObjectOf(RoleKind, a)][KeyOf(BindingKind, a) := ObjectOf(BindingKind, a)]
  }

  // The role first, then the binding.
  method ReconcileAssignment(cluster: Cluster, a: Assignment, ghost ids: set<Id>) returns (ok: bool)
    requires Good(cluster.objects, ids) && AllGood(cluster.trace, ids) && a.id in ids
    modifies cluster
    ensures Good(cluster.objects, ids) && AllGood(cluster.trace, ids)
    ensures ok ==> cluster.objects == Applied(old(cluster.objects), a)
  {
    RoleApplied(cluster.objects, a, ids);
    ok := cluster.Apply(KeyOf(RoleKind, a), ObjectOf(RoleKind, a));
    if ok {
      BindingApplied(cluster.objects, a, ids);
      ok := cluster.Apply(KeyOf(BindingKind, a), ObjectOf(BindingKind, a));
    }
  }

  /******* Pruning *******/

  predicate Doomed(k: Key, item: Object, kind: Kind, namespaced: bool, desired: set<Id>) {
    Listed(k, kind, namespaced) && Stale(item.labels, desired)
  }

  function Pruned(s: State, kind: Kind, namespaced: bool, desired: set<Id>): State {
    map k | k in s && !Doomed(k, s[k], kind, namespaced, desired) :: s[k]
  }

  // A path leaves everything but its own stale objects: those of its kind, in namespaces or
  // cluster-wide, labelled by the connector with an id that is not desired.
  lemma PrunedIs(s: State, kind: Kind, namespaced: bool, desired: set<Id>, k: Key)
    ensures k in Pruned(s, kind, namespaced, desired) <==>
            && k in s
            && !(&& k.kind == kind && (if namespaced then k.place.InNamespace? else k.place == ClusterWide)
                 && s[k].labels.byNavigan && s[k].labels.assignment.Some? && s[k].labels.assignment.value != ""
                 && s[k].labels.assignment.value !in desired)
    ensures k in Pruned(s, kind, namespaced, desired) ==> Pruned(s, kind, namespaced, desired)[k] == s[k]
  {
  }

  // Roles may go once no stale binding of the same scope is left.
  predicate MayPrune(s: State, kind: Kind, namespaced: bool, desired: set<Id>) {
    kind == RoleKind ==>
      forall k | k in s && Listed(k, BindingKind, namespaced) :: !Stale(s[k].labels, desired)
  }

  lemma Deleted(s: State, k: Key, kind: Kind, namespaced: bool, desired: set<Id>, ids: set<Id>)
    requires Good(s, ids) && DistinctNames(ids) && MayPrune(s, kind, namespaced, desired)
    requires k in s ==> Doomed(k, s[k], kind, namespaced, desired)
    ensures Good(s - {k}, ids) && MayPrune(s - {k}, kind, namespaced, desired)
  {
    forall b | b in s - {k} && b.kind == BindingKind && Managed(s[b].labels)
      ensures Key(RoleKind, b.place, s[b].body.roleName) in s - {k}
    {
      assert Key(RoleKind, b.place, b.name) in s;
      if k in s && k.kind == RoleKind && b.place == k.place {
        assert Listed(b, BindingKind, namespaced);
        assert s[b].labels.assignment.value != s[k].labels.assignment.value;
        assert b.name != k.name;
      }
    }
  }

  // The stale ones among the first items of a listing.
  function Gone(items: seq<Item>, i: nat, desired: set<Id>): set<Key>
    requires i <= |items|
  {
    set j | 0 <= j < i && Stale(items[j].labels, desired) :: items[j].key
  }

  lemma GoneNext(items: seq<Item>, i: nat, desired: set<Id>)
    requires i < |items|
    ensures Gone(items, i + 1, desired)
         == Gone(items, i, desired) + if Stale(items[i].labels, desired) then {items[i].key} else {}
  {
  }

  // A listing of one path: what is in the state, and all of it that is managed.
  predicate ListingOf(s: State, items: seq<Item>, kind: Kind, namespaced: bool) {
    && (forall i | 0 <= i < |items| :: Shows(s, items[i], kind, namespaced))
    && (forall k | k in s && Listed(k, kind, namespaced) && s[k].labels.byNavigan :: Item(k, s[k].labels) in items)
  }

  lemma GoneIsPruned(s: State, items: seq<Item>, kind: Kind, namespaced: bool, desired: set<Id>)
    requires ListingOf(s, items, kind, namespaced)
    ensures s - Gone(items, |items|, desired) == Pruned(s, kind, namespaced, desired)
  {
    forall k | k in s ensures k in Gone(items, |items|, desired) <==> Doomed(k, s[k], kind, namespaced, desired) {
      if Doomed(k, s[k], kind, namespaced, desired) {
        assert Item(k, s[k].labels) in items;
      }
    }
  }

  method DeleteStale(cluster: Cluster, key: Key, kind: Kind, namespaced: bool, desired: set<Id>, ghost ids: set<Id>)
    returns (ok: bool)
    requires Good(cluster.objects, ids) && AllGood(cluster.trace, ids) && DistinctNames(ids)
    requires MayPrune(cluster.objects, kind, namespaced, desired)
    requires key in cluster.objects ==> Doomed(key, cluster.objects[key], kind, namespaced, desired)
    modifies cluster
    ensures Good(cluster.objects, ids) && AllGood(cluster.trace, ids)
    ensures MayPrune(cluster.objects, kind, namespaced, desired)
    ensures ok ==> cluster.objects == old(cluster.objects) - {key}
  {
    Deleted(cluster.objects, key, kind, namespaced, desired, ids);
    ok := cluster.Delete(key);
  }

  // One of the four paths: what is stale there goes; an error stops.
  method PrunePath(cluster: Cluster, kind: Kind, namespaced: bool, desired: set<Id>, ghost ids: set<Id>)
    returns (ok: bool)
    requires Good(cluster.objects, ids) && AllGood(cluster.trace, ids) && DistinctNames(ids)
    requires MayPrune(cluster.objects, kind, namespaced, desired)
    modifies cluster
    ensures Good(cluster.objects, ids) && AllGood(cluster.trace, ids)
    ensures ok ==> cluster.objects == Pruned(old(cluster.objects), kind, namespaced, desired)
  {
    var items := cluster.List(kind, namespaced);
    if items.None? {
      return false;
    }
    ghost var before := cluster.objects;
    for i := 0 to |items.value|
      invariant Good(cluster.objects, ids) && AllGood(cluster.trace, ids)
      invariant MayPrune(cluster.objects, kind, namespaced, desired)
      invariant cluster.objects == before - Gone(items.value, i, desired)
    {
      var item := items.value[i];
      GoneNext(items.value, i, desired);
      assert Shows(before, item, kind, namespaced);
      if Stale(item.labels, desired) {
        ok := DeleteStale(cluster, item.key, kind, namespaced, desired, ids);
        if !ok {
          return false;
        }
      }
    }
    ok := true;
    GoneIsPruned(before, items.value, kind, namespaced, desired);
  }

  function PrunedAll(s: State, desired: set<Id>): State {
    map k | k in s && !Stale(s[k].labels, desired) :: s[k]
  }

  // Role bindings, roles, cluster role bindings, cluster roles, in this order.
  method Prune(cluster: Cluster, desired: set<Id>, ghost ids: set<Id>) returns (ok: bool)
    requires Good(cluster.objects, ids) && AllGood(cluster.trace, ids) && DistinctNames(ids)
    modifies cluster
    ensures Good(cluster.objects, ids) && AllGood(cluster.trace, ids)
    ensures ok ==> cluster.objects == PrunedAll(old(cluster.objects), desired)
  {
    var paths := [(BindingKind, true), (RoleKind, true), (BindingKind, false), (RoleKind, false)];
    ghost var before := cluster.objects;
    for i := 0 to 4
      invariant Good(cluster.objects, ids) && AllGood(cluster.trace, ids)
      invariant cluster.objects == PrunedFirst(before, i, desired)
    {
      MayPruneNext(before, i, desired);
      ok := PrunePath(cluster, paths[i].0, paths[i].1, desired, ids);
      if !ok {
        return false;
      }
    }
    PrunedFour(before, desired);
    ok := true;
  }

  // The state after the first paths.
  function PrunedFirst(s: State, i: nat, desired: set<Id>): State
    requires i <= 4
  {
    if i == 0 then s
    else if i == 1 then Pruned(s, BindingKind, true, desired)
    else if i == 2 then Pruned(PrunedFirst(s, 1, desired), RoleKind, true, desired)
    else if i == 3 then Pruned(PrunedFirst(s, 2, desired), BindingKind, false, desired)
    else Pruned(PrunedFirst(s, 3, desired), RoleKind, false, desired)
  }

  lemma {:induction false} MayPruneNext(s: State, i: nat, desired: set<Id>)
    requires i < 4
    ensures MayPrune(PrunedFirst(s, i, desired), if i % 2 == 0 then BindingKind else RoleKind, i < 2, desired)
  {
  }

  lemma {:induction false} PrunedFour(s: State, desired: set<Id>)
    ensures PrunedFirst(s, 4, desired) == PrunedAll(s, desired)
  {
    var one, two, three := PrunedFirst(s, 1, desired), PrunedFirst(s, 2, desired), PrunedFirst(s, 3, desired);
    assert forall k :: k in PrunedFirst(s, 4, desired) <==> k in s && !Stale(s[k].labels, desired);
  }

  /******* A whole run *******/

  predicate DistinctAssignments(assignments: seq<Assignment>) {
    forall i, j | 0 <= i < j < |assignments| :: assignments[i].id != assignments[j].id
  }

  function Ids(assignments: seq<Assignment>): set<Id> {
    set i | 0 <= i < |assignments| :: assignments[i].id
  }

  function AppliedAll(s: State, assignments: seq<Assignment>): State {
    if assignments == [] then s
    else Applied(AppliedAll(s, assignments[..|assignments| - 1]), assignments[|assignments| - 1])
  }

  predicate AllTrue(s: seq<bool>) {
    forall i | 0 <= i < |s| :: s[i]
  }

  lemma AllTrueSnoc(s: seq<bool>, b: bool)
    ensures AllTrue(s + [b]) == (AllTrue(s) && b)
  {
    assert AllTrue(s + [b]) ==> (forall i | 0 <= i < |s| :: (s + [b])[i] == s[i]) && (s + [b])[|s|];
  }

  lemma {:induction false} AppliedNext(s: State, assignments: seq<Assignment>, i: nat)
    requires i < |assignments|
    ensures AppliedAll(s, assignments[..i + 1]) == Applied(AppliedAll(s, assignments[..i]), assignments[i])
  {
    assert assignments[..i + 1][..i] == assignments[..i];
  }

  // A failed assignment is reported and the run goes on; pruning follows in any case.
  method Reconcile(cluster: Cluster, assignments: seq<Assignment>, ghost ids: set<Id>)
    returns (applied: seq<bool>, pruned: bool)
    requires Good(cluster.objects, ids) && AllGood(cluster.trace, ids) && DistinctNames(ids)
    requires Ids(assignments) <= ids
    modifies cluster
    ensures Good(cluster.objects, ids) && AllGood(cluster.trace, ids)
    ensures |applied| == |assignments|
    ensures pruned && AllTrue(applied) ==>
              cluster.objects == Converged(old(cluster.objects), assignments)
  {
    applied := [];
    ghost var before := cluster.objects;
    assert assignments[..0] == [];
    for i := 0 to |assignments|
      invariant Good(cluster.objects, ids) && AllGood(cluster.trace, ids)
      invariant |applied| == i
      invariant AllTrue(applied) ==> cluster.objects == AppliedAll(before, assignments[..i])
    {
      assert assignments[i].id in Ids(assignments);
      var ok := ReconcileAssignment(cluster, assignments[i], ids);
      AppliedNext(before, assignments, i);
      AllTrueSnoc(applied, ok);
      applied := applied + [ok];
    }
    assert assignments[..|assignments|] == assignments;
    var desired := set i | 0 <= i < |assignments| :: assignments[i].id;
    pruned := Prune(cluster, desired, ids);
  }

  // The state after a run without failure.
  function Converged(s: State, assignments: seq<Assignment>): State {
    PrunedAll(AppliedAll(s, assignments), Ids(assignments))
  }

  predicate DesiredKey(k: Key, assignments: seq<Assignment>) {
    exists i | 0 <= i < |assignments| :: k == KeyOf(k.kind, assignments[i])
  }

  lemma AppliedAt(s: State, a: Assignment, k: Key)
    ensures k == KeyOf(k.kind, a) ==> k in Applied(s, a) && Applied(s, a)[k] == ObjectOf(k.kind, a)
    ensures k != KeyOf(k.kind, a) ==> (k in Applied(s, a) <==> k in s) && (k in s ==> Applied(s, a)[k] == s[k])
  {
    assert k == KeyOf(RoleKind, a) ==> k != KeyOf(BindingKind, a);
    assert k.kind == RoleKind || k.kind == BindingKind;
  }

  lemma {:induction false} AppliedElsewhere(s: State, assignments: seq<Assignment>, k: Key)
    requires !DesiredKey(k, assignments)
    ensures k in AppliedAll(s, assignments) <==> k in s
    ensures k in s ==> AppliedAll(s, assignments)[k] == s[k]
  {
    if assignments != [] {
      var n := |assignments| - 1;
      forall i | 0 <= i < n ensures k != KeyOf(k.kind, assignments[..n][i]) {
        assert assignments[..n][i] == assignments[i];
      }
      AppliedElsewhere(s, assignments[..n], k);
      assert k != KeyOf(k.kind, assignments[n]);
      AppliedAt(AppliedAll(s, assignments[..n]), assignments[n], k);
    }
  }

  predicate Separate(assignments: seq<Assignment>) {
    DistinctNames(Ids(assignments)) && DistinctAssignments(assignments)
  }

  lemma {:induction false} AppliedDesired(s: State, assignments: seq<Assignment>, i: nat, kind: Kind)
    requires Separate(assignments) && i < |assignments|
    ensures var k := KeyOf(kind, assignments[i]);
            k in AppliedAll(s, assignments) && AppliedAll(s, assignments)[k] == ObjectOf(kind, assignments[i])
  {
    var n := |assignments| - 1;
    var k := KeyOf(kind, assignments[i]);
    AppliedAt(AppliedAll(s, assignments[..n]), assignments[n], k);
    if i < n {
      SeparateFront(assignments);
      AppliedDesired(s, assignments[..n], i, kind);
      SeparateNames(assignments, i, n);
    }
  }

  lemma SeparateFront(assignments: seq<Assignment>)
    requires Separate(assignments) && assignments != []
    ensures Separate(assignments[..|assignments| - 1])
  {
    assert Ids(assignments[..|assignments| - 1]) <= Ids(assignments);
  }

  lemma SeparateNames(assignments: seq<Assignment>, i: nat, j: nat)
    requires Separate(assignments) && i < j < |assignments|
    ensures ResourceName(assignments[i].id) != ResourceName(assignments[j].id)
  {
    assert assignments[i].id in Ids(assignments) && assignments[j].id in Ids(assignments);
  }

  // After a run without failure every desired pair is there and equals its specification.
  lemma DesiredInPlace(s: State, assignments: seq<Assignment>, i: nat, kind: Kind)
    requires Separate(assignments) && i < |assignments|
    ensures var k := KeyOf(kind, assignments[i]);
            k in Converged(s, assignments) && Converged(s, assignments)[k] == ObjectOf(kind, assignments[i])
  {
    AppliedDesired(s, assignments, i, kind);
    assert assignments[i].id in Ids(assignments);
  }

  // What a run without failure has granted: for each assignment a binding at its place, for
  // its user or group, to a role at that place that holds exactly its rules.
  lemma Granted(s: State, assignments: seq<Assignment>, i: nat)
    requires Separate(assignments) && i < |assignments|
    ensures var (a, after) := (assignments[i], Converged(s, assignments));
            var binding := Key(BindingKind, a.place, ResourceName(a.id));
            && binding in after && after[binding].body.Grant?
            && after[binding].labels.byNavigan && after[binding].labels.assignment == Some(a.id)
            && (match after[binding].body.subject
                case User(name) => a.subjectType == "USER" && name == "navigan:" + a.subjectId
                case Group(name) => a.subjectType != "USER" && name == "navigan:" + a.subjectId)
            && var role := Key(RoleKind, a.place, after[binding].body.roleName);
               && role in after && after[role].body.Rules? && after[role].body.rules == a.rules
               && after[role].labels.byNavigan && after[role].labels.assignment == Some(a.id)
  {
    DesiredInPlace(s, assignments, i, RoleKind);
    DesiredInPlace(s, assignments, i, BindingKind);
  }

  // The names: the id behind "KAA-", in lower case, behind "navigan-".
  lemma NameLaw(id: Id, suffix: string, i: nat)
    requires id == "KAA-" + suffix || (id == suffix && !("KAA-" <= id))
    requires i < |suffix|
    ensures "navigan-" <= ResourceName(id) && |ResourceName(id)| == |"navigan-"| + |suffix|
    ensures var (c, d) := (suffix[i] as int, ResourceName(id)[|"navigan-"| + i] as int);
            if 0x41 <= c <= 0x5A then d == c + 0x20 else d == c
  {
    assert id == "KAA-" + suffix ==> id[4..] == suffix;
  }

  // Whatever is labelled as managed carries a desired id.
  lemma LabelsDesired(s: State, assignments: seq<Assignment>, k: Key)
    requires k in Converged(s, assignments) && Managed(Converged(s, assignments)[k].labels)
    ensures Converged(s, assignments)[k].labels.assignment.value in Ids(assignments)
  {
  }

  // An object at any other key stays as it was unless it carries the label of an
  // assignment that is no longer desired; so unlabelled objects are not touched.
  lemma OthersUntouched(s: State, assignments: seq<Assignment>, k: Key)
    requires !DesiredKey(k, assignments)
    ensures k in Converged(s, assignments) <==> k in s && !Stale(s[k].labels, Ids(assignments))
    ensures k in Converged(s, assignments) ==> Converged(s, assignments)[k] == s[k]
  {
    AppliedElsewhere(s, assignments, k);
  }

  // A second run changes nothing.
  lemma ConvergedTwice(s: State, assignments: seq<Assignment>)
    requires Separate(assignments)
    ensures Converged(Converged(s, assignments), assignments) == Converged(s, assignments)
  {
    var once := Converged(s, assignments);
    var twice := Converged(once, assignments);
    forall k ensures (k in twice <==> k in once) && (k in once ==> twice[k] == once[k]) {
      if DesiredKey(k, assignments) {
        var i :| 0 <= i < |assignments| && k == KeyOf(k.kind, assignments[i]);
        DesiredInPlace(s, assignments, i, k.kind);
        DesiredInPlace(once, assignments, i, k.kind);
      } else {
        OthersUntouched(s, assignments, k);
        OthersUntouched(once, assignments, k);
      }
    }
  }

  // A managed object whose assignment is desired in another scope or namespace.
  predicate Misplaced(s: State, assignments: seq<Assignment>, k: Key) {
    && k in s && Managed(s[k].labels) && s[k].labels.assignment.value in Ids(assignments)
    && !DesiredKey(k, assignments)
  }

  // Pruning compares ids only: after the run exactly the desired managed objects are
  // there if and only if none was misplaced before.
  lemma ExactIffNoneMisplaced(s: State, assignments: seq<Assignment>)
    requires Separate(assignments)
    ensures (forall k | k in Converged(s, assignments) && Managed(Converged(s, assignments)[k].labels) ::
               DesiredKey(k, assignments))
       <==> (forall k :: !Misplaced(s, assignments, k))
  {
    var after := Converged(s, assignments);
    forall k | !DesiredKey(k, assignments)
      ensures (k in after && Managed(after[k].labels)) <==> Misplaced(s, assignments, k)
    {
      OthersUntouched(s, assignments, k);
    }
    if forall k :: !Misplaced(s, assignments, k) {
      forall k | k in after && Managed(after[k].labels) ensures DesiredKey(k, assignments) {
        assert !Misplaced(s, assignments, k);
      }
    }
  }

  // An assignment that moved under the same id: its old pair is still there after a run
  // without failure, binding and all.
  lemma MovedAssignmentStays(before: Assignment, after: Assignment, kind: Kind)
    requires before.id == after.id != "" && before.place != after.place
    ensures var s := Applied(map[], before);
            var k := KeyOf(kind, before);
            && Separate([after]) && !DesiredKey(k, [after])
            && k in Converged(s, [after]) && Converged(s, [after])[k] == ObjectOf(kind, before)
            && Managed(ObjectOf(kind, before).labels)
  {
    var s, k := Applied(map[], before), KeyOf(kind, before);
    assert Ids([after]) == {after.id} by {
      assert [after][0].id == after.id;
    }
    AppliedAt(map[], before, k);
    OthersUntouched(s, [after], k);
  }
}
