// Runtime image evidence of workloads: pods are attributed by following controller
// owners, cycles included, and every cut is either recorded or listed as silent.
module DeploymentEvidence {
  import opened Options
  import opened PairOrder

  // Kind and name.
  type Key = (string, string)

  const MAX_CONTAINERS := 500
  const MAX_STATUSES := 100
  const MAX_ITEMS := 2000

  type Owners = map<Key, Option<Key>>

  /******* The owner chain *******/

  function OwnerOf(owners: Owners, key: Key): Option<Key> {
    if key in owners then owners[key] else None
  }

  // The owner reached from a start in n steps.
  function Ancestor(owners: Owners, start: Option<Key>, n: nat): Option<Key> {
    if n == 0 then start
    else
      var before := Ancestor(owners, start, n - 1);
      if before.None? then None else OwnerOf(owners, before.value)
  }

  ghost predicate OnChain(owners: Owners, start: Option<Key>, t: Key) {
    exists n :: Ancestor(owners, start, n) == Some(t)
  }

  ghost predicate Closed(owners: Owners, start: Option<Key>, visited: set<Key>, key: Option<Key>) {
    && (start.Some? ==> start.value in visited || start == key)
    && (forall v | v in visited ::
          OwnerOf(owners, v) == key || OwnerOf(owners, v).None? || OwnerOf(owners, v).value in visited)
  }

  lemma {:induction false} ChainInside(owners: Owners, start: Option<Key>, visited: set<Key>, key: Option<Key>, n: nat)
    requires Closed(owners, start, visited, key) && (key.Some? ==> key.value in visited)
    ensures Ancestor(owners, start, n).Some? ==> Ancestor(owners, start, n).value in visited
  {
    if n > 0 { ChainInside(owners, start, visited, key, n - 1); }
  }

  // The walk of one pod: it ends on any owner map, and finds exactly the targets on the
  // chain, each once.
  method Walk(owners: Owners, targets: set<Key>, start: Option<Key>) returns (keys: seq<Key>)
    ensures forall t :: t in keys <==> t in targets && OnChain(owners, start, t)
    ensures forall i, j | 0 <= i < j < |keys| :: keys[i] != keys[j]
  {
    keys := [];
    var key := start;
    var visited: set<Key> := {};
    ghost var n: nat := 0;
    while key.Some? && key.value !in visited
      invariant key == Ancestor(owners, start, n)
      invariant Closed(owners, start, visited, key)
      invariant forall v | v in visited :: OnChain(owners, start, v)
      invariant forall t :: t in keys <==> t in targets && t in visited
      invariant forall i, j | 0 <= i < j < |keys| :: keys[i] != keys[j]
      invariant key.Some? && key.value !in visited ==> visited <= owners.Keys
      decreases key.Some?, owners.Keys - visited, key.Some? && key.value !in owners.Keys
    {
      visited := visited + {key.value};
      if key.value in targets {
        keys := keys + [key.value];
      }
      key := OwnerOf(owners, key.value);
      n := n + 1;
    }
    forall t | OnChain(owners, start, t) ensures t in visited {
      var m :| Ancestor(owners, start, m) == Some(t);
      ChainInside(owners, start, visited, key, m);
    }
  }

  /******* Containers *******/

  // An entry of containerStatuses: the name, and the rest of what is kept.
  datatype Entry = Entry(name: string, image: string)

  datatype Pod = Pod(name: string, finished: bool, owner: Option<Key>, application: seq<Entry>, init: seq<Entry>)

  datatype Container = Container(pod: string, init: bool, status: Entry)

  datatype Status = Observed | Partial | Unavailable | NoRunningEvidence

  datatype Evidence = Evidence(status: Status, containers: seq<Container>)

  function Take<T>(s: seq<T>, n: nat): seq<T> {
    if |s| <= n then s else s[..n]
  }

  function Containers(pod: Pod, init: bool, statuses: seq<Entry>): seq<Container> {
    seq(|statuses|, i requires 0 <= i < |statuses| => Container(pod.name, init, statuses[i]))
  }

  function StatusesOf(pod: Pod): seq<Container> {
    Containers(pod, false, Take(pod.application, MAX_STATUSES)) + Containers(pod, true, Take(pod.init, MAX_STATUSES))
  }

  // Every container of the live pods under a target, in the order of the listing.
  ghost function Full(owners: Owners, pods: seq<Pod>, t: Key): seq<Container> {
    if pods == [] then []
    else
      var pod := pods[|pods| - 1];
      Full(owners, pods[..|pods| - 1], t)
      + if !pod.finished && OnChain(owners, pod.owner, t) then StatusesOf(pod) else []
  }

  // The evidence for a full list: the first 500, and whether something is missing.
  function EvidenceFor(unavailable: bool, all: seq<Container>): Evidence {
    Evidence(if unavailable || |all| > MAX_CONTAINERS then Partial else Observed, Take(all, MAX_CONTAINERS))
  }

  method AddStatuses(evidence: Evidence, pod: Pod, init: bool, statuses: seq<Entry>,
                     ghost unavailable: bool, ghost all: seq<Container>) returns (after: Evidence)
    requires evidence == EvidenceFor(unavailable, all)
    ensures after == EvidenceFor(unavailable, all + Containers(pod, init, Take(statuses, MAX_STATUSES)))
  {
    after := evidence;
    var listed := Take(statuses, MAX_STATUSES);
    ghost var added := Containers(pod, init, listed);
    assert all + added[..0] == all;
    for j := 0 to |listed|
      invariant after == EvidenceFor(unavailable, all + added[..j])
    {
      if |after.containers| >= MAX_CONTAINERS {
        Capped(unavailable, all + added[..j], all + added);
        after := after.(status := Partial);
        return;
      }
      OneMore(unavailable, all, added, j);
      after := after.(containers := after.containers + [Container(pod.name, init, listed[j])]);
    }
    assert added[..|listed|] == added;
  }

  // Application containers, then init containers.
  method AddContainers(evidence: Evidence, pod: Pod, ghost unavailable: bool, ghost all: seq<Container>)
    returns (after: Evidence)
    requires evidence == EvidenceFor(unavailable, all)
    ensures after == EvidenceFor(unavailable, all + StatusesOf(pod))
  {
    ghost var application := Containers(pod, false, Take(pod.application, MAX_STATUSES));
    after := AddStatuses(evidence, pod, false, pod.application, unavailable, all);
    after := AddStatuses(after, pod, true, pod.init, unavailable, all + application);
    assert (all + application) + Containers(pod, true, Take(pod.init, MAX_STATUSES)) == all + StatusesOf(pod);
  }

  lemma Capped(unavailable: bool, some: seq<Container>, all: seq<Container>)
    requires |some| >= MAX_CONTAINERS && some < all
    ensures EvidenceFor(unavailable, all) == Evidence(Partial, EvidenceFor(unavailable, some).containers)
  {
    assert all[..MAX_CONTAINERS] == some[..MAX_CONTAINERS];
    assert |some| == MAX_CONTAINERS ==> some[..MAX_CONTAINERS] == some;
  }

  lemma OneMore(unavailable: bool, all: seq<Container>, added: seq<Container>, j: nat)
    requires j < |added| && |all + added[..j]| < MAX_CONTAINERS
    ensures var before := EvidenceFor(unavailable, all + added[..j]);
            EvidenceFor(unavailable, all + added[..j + 1]) == before.(containers := before.containers + [added[j]])
  {
    assert all + added[..j + 1] == (all + added[..j]) + [added[j]];
  }

  /******* Collecting *******/

  // A listing of replica sets or jobs: names and controllers, and whether it goes on.
  datatype OwnerListing = OwnerListing(items: seq<(string, Option<Key>)>, continued: bool)

  datatype PodListing = PodListing(items: seq<Pod>, continued: bool)

  function OwnersOf(kind: string, items: seq<(string, Option<Key>)>): Owners {
    if items == [] then map[]
    else OwnersOf(kind, items[..|items| - 1])[(kind, items[|items| - 1].0) := items[|items| - 1].1]
  }

  function ListedOwners(kind: string, listing: Option<OwnerListing>): Owners {
    if listing.None? then map[] else OwnersOf(kind, Take(listing.value.items, MAX_ITEMS))
  }

  predicate OwnersMissing(listing: Option<OwnerListing>) {
    listing.None? || listing.value.continued
  }

  method ReadOwners(kind: string, listing: Option<OwnerListing>, owners: Owners) returns (after: Owners, missing: bool)
    ensures after == owners + ListedOwners(kind, listing)
    ensures missing == OwnersMissing(listing)
  {
    after, missing := owners, listing.None? || listing.value.continued;
    if listing.Some? {
      after := AddOwners(kind, Take(listing.value.items, MAX_ITEMS), owners);
    }
  }

  method AddOwners(kind: string, items: seq<(string, Option<Key>)>, owners: Owners) returns (after: Owners)
    ensures after == owners + OwnersOf(kind, items)
  {
    after := owners;
    assert items[..0] == [];
    for i := 0 to |items|
      invariant after == owners + OwnersOf(kind, items[..i])
    {
      assert items[..i + 1][..i] == items[..i];
      after := after[(kind, items[i].0) := items[i].1];
    }
    assert items[..|items|] == items;
  }

  // The owners known after both listings; jobs and replica sets differ in kind.
  function AllOwners(replicaSets: Option<OwnerListing>, jobs: Option<OwnerListing>): Owners {
    ListedOwners("ReplicaSet", replicaSets) + ListedOwners("Job", jobs)
  }

  predicate Missing(replicaSets: Option<OwnerListing>, jobs: Option<OwnerListing>, pods: PodListing) {
    OwnersMissing(replicaSets) || OwnersMissing(jobs) || pods.continued || |pods.items| > MAX_ITEMS
  }

  /******* The final sort *******/

  // By pod, application containers before init containers, and name.
  predicate KeyLess(a: Container, b: Container) {
    TextLess(a.pod, b.pod)
    || (a.pod == b.pod && ((!a.init && b.init) || (a.init == b.init && TextLess(a.status.name, b.status.name))))
  }

  predicate SameKey(a: Container, b: Container) {
    a.pod == b.pod && a.init == b.init && a.status.name == b.status.name
  }

  lemma KeysTotal(a: Container, b: Container)
    ensures KeyLess(a, b) || KeyLess(b, a) || SameKey(a, b)
    ensures !(KeyLess(a, b) && KeyLess(b, a)) && !(KeyLess(a, b) && SameKey(a, b))
  {
    TextLessTotal(a.pod, b.pod);
    TextLessTotal(a.status.name, b.status.name);
  }

  lemma NotLessTransitive(a: Container, b: Container, c: Container)
    requires !KeyLess(b, a) && !KeyLess(c, b)
    ensures !KeyLess(c, a)
  {
    TextLessTotal(a.pod, b.pod);
    TextLessTotal(b.pod, c.pod);
    TextLessTotal(a.pod, c.pod);
    NotLessTexts(a.pod, b.pod, c.pod);
    NotLessTexts(a.status.name, b.status.name, c.status.name);
  }

  lemma {:induction false} NotLessTexts(a: string, b: string, c: string)
    ensures !TextLess(b, a) && !TextLess(c, b) ==> !TextLess(c, a)
  {
    if !TextLess(b, a) && !TextLess(c, b) && TextLess(c, a) {
      TextLessTotal(a, b);
      TextLessTotal(b, c);
      if TextLess(a, b) {
        TextLessTransitive(c, a, b);
      }
    }
  }

  // Pods come by name, the application containers of a pod before its init containers, and
  // containers of one kind by name.
  lemma KeyOrder(a: Container, b: Container)
    ensures TextLess(a.pod, b.pod) ==> KeyLess(a, b)
    ensures a.pod == b.pod && !a.init && b.init ==> KeyLess(a, b)
    ensures a.pod == b.pod && a.init == b.init && TextLess(a.status.name, b.status.name) ==> KeyLess(a, b)
  {
  }

  // Behind everything that is not greater.
  function Insert(sorted: seq<Container>, c: Container): seq<Container> {
    if sorted == [] || !KeyLess(c, sorted[|sorted| - 1]) then sorted + [c]
    else Insert(sorted[..|sorted| - 1], c) + [sorted[|sorted| - 1]]
  }

  // list.sort with that key.
  function ByKey(list: seq<Container>): seq<Container> {
    if list == [] then [] else Insert(ByKey(list[..|list| - 1]), list[|list| - 1])
  }

  predicate Ascending(list: seq<Container>) {
    forall i, j | 0 <= i < j < |list| :: !KeyLess(list[j], list[i])
  }

  // The containers with the same key, in order.
  function OfKey(list: seq<Container>, key: Container): seq<Container> {
    if list == [] then []
    else OfKey(list[..|list| - 1], key) + if SameKey(list[|list| - 1], key) then [list[|list| - 1]] else []
  }

  lemma {:induction false} OfKeySnoc(list: seq<Container>, c: Container, key: Container)
    ensures OfKey(list + [c], key) == OfKey(list, key) + if SameKey(c, key) then [c] else []
  {
    assert (list + [c])[..|list|] == list;
  }

  lemma {:induction false} InsertKeeps(sorted: seq<Container>, c: Container, key: Container)
    ensures OfKey(Insert(sorted, c), key) == OfKey(sorted, key) + if SameKey(c, key) then [c] else []
  {
    if sorted == [] || !KeyLess(c, sorted[|sorted| - 1]) {
      OfKeySnoc(sorted, c, key);
    } else {
      var front, last := sorted[..|sorted| - 1], sorted[|sorted| - 1];
      InsertKeeps(front, c, key);
      OfKeySnoc(Insert(front, c), last, key);
      KeysTotal(c, last);
      assert OfKey(front, key) + [] == OfKey(front, key);
    }
  }

  lemma {:induction false} InsertLast(sorted: seq<Container>, c: Container)
    ensures |Insert(sorted, c)| == |sorted| + 1
    ensures forall x | x in Insert(sorted, c) :: x == c || x in sorted
  {
    if sorted != [] && KeyLess(c, sorted[|sorted| - 1]) {
      InsertLast(sorted[..|sorted| - 1], c);
    }
  }

  lemma {:induction false} InsertAscending(sorted: seq<Container>, c: Container)
    requires Ascending(sorted)
    ensures Ascending(Insert(sorted, c))
  {
    if sorted == [] {
    } else if !KeyLess(c, sorted[|sorted| - 1]) {
      BehindAll(sorted, c);
    } else {
      var front, last := sorted[..|sorted| - 1], sorted[|sorted| - 1];
      InsertAscending(front, c);
      InsertLast(front, c);
      KeysTotal(c, last);
      var r := Insert(front, c);
      forall i | 0 <= i < |r| ensures !KeyLess(last, r[i]) {
        assert r[i] in r;
      }
    }
  }

  lemma BehindAll(sorted: seq<Container>, c: Container)
    requires Ascending(sorted) && sorted != [] && !KeyLess(c, sorted[|sorted| - 1])
    ensures Ascending(sorted + [c])
  {
    var last := |sorted| - 1;
    forall i | 0 <= i < |sorted| ensures !KeyLess(c, sorted[i]) {
      if i < last {
        NotLessTransitive(sorted[i], sorted[last], c);
      }
    }
  }

  // The sort puts the keys in order, and the containers of each key are the same in the
  // same order: nothing is lost, added or swapped.
  lemma {:induction false} SortedByKey(list: seq<Container>, key: Container)
    ensures Ascending(ByKey(list))
    ensures OfKey(ByKey(list), key) == OfKey(list, key)
    ensures |ByKey(list)| == |list|
  {
    if list != [] {
      SortedByKey(list[..|list| - 1], key);
      InsertAscending(ByKey(list[..|list| - 1]), list[|list| - 1]);
      InsertKeeps(ByKey(list[..|list| - 1]), list[|list| - 1], key);
      InsertLast(ByKey(list[..|list| - 1]), list[|list| - 1]);
    }
  }

  /******* All targets *******/

  function Closing(evidence: Evidence): Evidence {
    if evidence.containers == [] && evidence.status == Observed then Evidence(NoRunningEvidence, [])
    else evidence.(containers := ByKey(evidence.containers))
  }

  ghost predicate AllEvidence(evidence: map<Key, Evidence>, targets: set<Key>, missing: bool, owners: Owners,
                              pods: seq<Pod>)
  {
    evidence.Keys == targets && forall t | t in targets :: evidence[t] == EvidenceFor(missing, Full(owners, pods, t))
  }

  lemma {:induction false} FullSnoc(owners: Owners, before: seq<Pod>, pod: Pod, t: Key)
    ensures Full(owners, before + [pod], t)
         == if !pod.finished && OnChain(owners, pod.owner, t) then Full(owners, before, t) + StatusesOf(pod)
            else Full(owners, before, t)
  {
    assert (before + [pod])[..|before|] == before;
    assert Full(owners, before, t) + [] == Full(owners, before, t);
  }

  method AddPod(evidence: map<Key, Evidence>, targets: set<Key>, missing: bool, owners: Owners,
                ghost before: seq<Pod>, pod: Pod) returns (after: map<Key, Evidence>)
    requires AllEvidence(evidence, targets, missing, owners, before)
    ensures AllEvidence(after, targets, missing, owners, before + [pod])
  {
    after := evidence;
    ghost var pods := before + [pod];
    if pod.finished {
      forall t | t in targets ensures Full(owners, pods, t) == Full(owners, before, t) {
        FullSnoc(owners, before, pod, t);
      }
      return;
    }
    var keys := Walk(owners, targets, pod.owner);
    for k := 0 to |keys|
      invariant after.Keys == targets
      invariant forall t | t in targets && t !in keys[..k] :: after[t] == evidence[t]
      invariant forall t | t in keys[..k] :: after[t] == EvidenceFor(missing, Full(owners, before, t) + StatusesOf(pod))
    {
      var key := keys[k];
      assert key in keys && key !in keys[..k];
      var one := AddContainers(after[key], pod, missing, Full(owners, before, key));
      after := after[key := one];
      assert keys[..k + 1] == keys[..k] + [key];
    }
    assert keys[..|keys|] == keys;
    forall t | t in targets ensures after[t] == EvidenceFor(missing, Full(owners, pods, t)) {
      assert t in keys <==> OnChain(owners, pod.owner, t);
      FullSnoc(owners, before, pod, t);
    }
  }

  method AddPods(targets: set<Key>, missing: bool, owners: Owners, pods: seq<Pod>)
    returns (evidence: map<Key, Evidence>)
    ensures AllEvidence(evidence, targets, missing, owners, pods)
  {
    evidence := map t | t in targets :: Evidence(if missing then Partial else Observed, []);
    assert pods[..0] == [];
    for i := 0 to |pods|
      invariant AllEvidence(evidence, targets, missing, owners, pods[..i])
    {
      evidence := AddPod(evidence, targets, missing, owners, pods[..i], pods[i]);
      assert pods[..i + 1] == pods[..i] + [pods[i]];
    }
    assert pods[..|pods|] == pods;
  }

  // collect_runtime; none stands for a refused listing.
  method CollectRuntime(targets: set<Key>, replicaSets: Option<OwnerListing>, jobs: Option<OwnerListing>,
                        pods: Option<PodListing>) returns (evidence: map<Key, Evidence>)
    ensures evidence.Keys == targets
    ensures pods.None? ==> forall t | t in targets :: evidence[t] == Evidence(Unavailable, [])
    ensures pods.Some? ==> forall t | t in targets ::
              var owners, listed := AllOwners(replicaSets, jobs), Take(pods.value.items, MAX_ITEMS);
              evidence[t] == Closing(EvidenceFor(Missing(replicaSets, jobs, pods.value), Full(owners, listed, t)))
  {
    var owners, noReplicaSets := ReadOwners("ReplicaSet", replicaSets, map[]);
    assert map[] + ListedOwners("ReplicaSet", replicaSets) == ListedOwners("ReplicaSet", replicaSets);
    var both, noJobs := ReadOwners("Job", jobs, owners);
    if pods.None? {
      return map t | t in targets :: Evidence(Unavailable, []);
    }
    var missing := noReplicaSets || noJobs || pods.value.continued || |pods.value.items| > MAX_ITEMS;
    evidence := AddPods(targets, missing, both, Take(pods.value.items, MAX_ITEMS));
    evidence := map t | t in targets :: Closing(evidence[t]);
  }

  /******* What the evidence means *******/

  // A container is in the full list of a target exactly when its live pod is among the
  // listed ones and the target lies on that pod's controller chain.
  lemma {:induction false} RecordedIff(owners: Owners, pods: seq<Pod>, t: Key, c: Container)
    ensures c in Full(owners, pods, t) <==> exists i | 0 <= i < |pods| :: Contributes(owners, pods[i], t, c)
  {
    if pods != [] {
      var front, last := pods[..|pods| - 1], pods[|pods| - 1];
      RecordedIff(owners, front, t, c);
      assert pods == front + [last];
      FullSnoc(owners, front, last, t);
      ContributesSnoc(owners, front, last, t, c);
      ContributesIff(owners, last, t, c);
    }
  }

  lemma ContributesIff(owners: Owners, pod: Pod, t: Key, c: Container)
    ensures Contributes(owners, pod, t, c) <==>
            !pod.finished && OnChain(owners, pod.owner, t) && c in StatusesOf(pod)
  {
    StatusesAre(pod, c);
  }

  lemma ContributesSnoc(owners: Owners, front: seq<Pod>, last: Pod, t: Key, c: Container)
    ensures (exists i | 0 <= i <= |front| :: Contributes(owners, (front + [last])[i], t, c)) <==>
            (exists i | 0 <= i < |front| :: Contributes(owners, front[i], t, c)) || Contributes(owners, last, t, c)
  {
    var pods := front + [last];
    assert pods[|front|] == last;
    assert forall i | 0 <= i < |front| :: pods[i] == front[i];
  }

  // A live pod under the target has the container among its first 100 application or
  // init statuses.
  ghost predicate Contributes(owners: Owners, pod: Pod, t: Key, c: Container) {
    && !pod.finished && OnChain(owners, pod.owner, t)
    && (|| (exists k | 0 <= k < |pod.application| && k < 100 :: c == Container(pod.name, false, pod.application[k]))
        || (exists k | 0 <= k < |pod.init| && k < 100 :: c == Container(pod.name, true, pod.init[k])))
  }

  lemma StatusesAre(pod: Pod, c: Container)
    ensures c in StatusesOf(pod) <==>
            || (exists k | 0 <= k < |pod.application| && k < 100 :: c == Container(pod.name, false, pod.application[k]))
            || (exists k | 0 <= k < |pod.init| && k < 100 :: c == Container(pod.name, true, pod.init[k]))
  {
    ListedAre(pod, false, pod.application, c);
    ListedAre(pod, true, pod.init, c);
  }

  lemma ListedAre(pod: Pod, init: bool, statuses: seq<Entry>, c: Container)
    ensures c in Containers(pod, init, Take(statuses, MAX_STATUSES)) <==>
            exists k | 0 <= k < |statuses| && k < 100 :: c == Container(pod.name, init, statuses[k])
  {
    var listed := Containers(pod, init, Take(statuses, MAX_STATUSES));
    if k :| 0 <= k < |statuses| && k < 100 && c == Container(pod.name, init, statuses[k]) {
      assert listed[k] == c;
    }
    if c in listed {
      var k :| 0 <= k < |listed| && listed[k] == c;
      assert c == Container(pod.name, init, statuses[k]);
    }
  }

  /******* What a chain is *******/

  // A target is on a chain when it starts it, or is on the chain of the owner.
  lemma ChainLaw(owners: Owners, start: Option<Key>, t: Key)
    ensures OnChain(owners, start, t) <==>
            && start.Some?
            && (start.value == t || (start.value in owners && OnChain(owners, owners[start.value], t)))
  {
    if n: nat :| Ancestor(owners, start, n) == Some(t) {
      if n == 0 {
        assert start == Some(t);
      } else {
        AncestorFirst(owners, start, n);
      }
    }
    if start.Some? && start.value == t {
      assert Ancestor(owners, start, 0) == Some(t);
    }
    if start.Some? && start.value in owners && OnChain(owners, owners[start.value], t) {
      var n: nat :| Ancestor(owners, owners[start.value], n) == Some(t);
      AncestorFirst(owners, start, n + 1);
    }
  }

  lemma {:induction false} AncestorFirst(owners: Owners, start: Option<Key>, n: nat)
    requires n > 0
    ensures Ancestor(owners, start, n)
         == if start.Some? && start.value in owners then Ancestor(owners, owners[start.value], n - 1) else None
  {
    assert Ancestor(owners, start, 0) == start;
    if n > 1 {
      AncestorFirst(owners, start, n - 1);
    }
  }

  predicate DistinctOwners(items: seq<(string, Option<Key>)>) {
    forall i, j | 0 <= i < j < |items| :: items[i].0 != items[j].0
  }

  // Each listed replica set and job has the controller it was listed with.
  lemma {:induction false} OwnerListed(kind: string, items: seq<(string, Option<Key>)>, i: nat)
    requires DistinctOwners(items) && i < |items|
    ensures (kind, items[i].0) in OwnersOf(kind, items) && OwnersOf(kind, items)[(kind, items[i].0)] == items[i].1
  {
    var n := |items| - 1;
    if i < n {
      assert items[..n][i] == items[i];
      OwnerListed(kind, items[..n], i);
    }
  }

  lemma {:induction false} OwnersKind(kind: string, items: seq<(string, Option<Key>)>)
    ensures forall key | key in OwnersOf(kind, items) :: key.0 == kind
  {
    if items != [] {
      OwnersKind(kind, items[..|items| - 1]);
    }
  }

  // Of a longer listing the first 2000 are read.
  lemma AllOwnersAre(replicaSets: OwnerListing, jobs: OwnerListing, i: nat)
    requires i < 2000
    requires DistinctOwners(replicaSets.items) && DistinctOwners(jobs.items)
    ensures var owners := AllOwners(Some(replicaSets), Some(jobs));
            && (i < |replicaSets.items| ==>
                  var key := ("ReplicaSet", replicaSets.items[i].0);
                  key in owners && owners[key] == replicaSets.items[i].1)
            && (i < |jobs.items| ==>
                  var key := ("Job", jobs.items[i].0);
                  key in owners && owners[key] == jobs.items[i].1)
  {
    var sets, others := Take(replicaSets.items, MAX_ITEMS), Take(jobs.items, MAX_ITEMS);
    OwnersKind("ReplicaSet", sets);
    OwnersKind("Job", others);
    if i < |replicaSets.items| {
      assert sets[i] == replicaSets.items[i];
      OwnerListed("ReplicaSet", sets, i);
    }
    if i < |jobs.items| {
      assert others[i] == jobs.items[i];
      OwnerListed("Job", others, i);
    }
  }

  // So a deployment's containers are those of the live pods of its replica sets: a pod
  // owned by a listed replica set that the deployment controls is recorded under it.
  lemma {:induction false} DeploymentHasItsPods(replicaSets: OwnerListing, jobs: OwnerListing, i: nat,
                                                deployment: string, pods: seq<Pod>, j: nat, k: nat)
    requires DistinctOwners(replicaSets.items) && DistinctOwners(jobs.items)
    requires i < 2000 && i < |replicaSets.items| && replicaSets.items[i].1 == Some(("Deployment", deployment))
    requires j < |pods| && !pods[j].finished && pods[j].owner == Some(("ReplicaSet", replicaSets.items[i].0))
    requires k < |pods[j].application| && k < 100
    ensures Container(pods[j].name, false, pods[j].application[k])
            in Full(AllOwners(Some(replicaSets), Some(jobs)), pods, ("Deployment", deployment))
  {
    var owners, t := AllOwners(Some(replicaSets), Some(jobs)), ("Deployment", deployment);
    AllOwnersAre(replicaSets, jobs, i);
    ChainLaw(owners, Some(t), t);
    ChainLaw(owners, pods[j].owner, t);
    var c := Container(pods[j].name, false, pods[j].application[k]);
    assert Contributes(owners, pods[j], t, c);
    RecordedIff(owners, pods, t, c);
  }

  // The status is PARTIAL exactly when a listing of owners was refused or goes on, the
  // listing of pods goes on or has more than 2000, or more than 500 containers are there.
  lemma {:induction false} PartialIff(replicaSets: Option<OwnerListing>, jobs: Option<OwnerListing>, pods: PodListing,
                                      all: seq<Container>)
    ensures Closing(EvidenceFor(Missing(replicaSets, jobs, pods), all)).status == Partial <==>
            || replicaSets.None? || replicaSets.value.continued || jobs.None? || jobs.value.continued
            || pods.continued || |pods.items| > 2000 || |all| > 500
  {
  }

  // Lists never exceed the cap, and a status without a warning means nothing was dropped
  // by the cap or by a listing that failed or went on.
  lemma {:induction false} ObservedIsWhole(missing: bool, all: seq<Container>)
    ensures var evidence := Closing(EvidenceFor(missing, all));
            && |evidence.containers| <= 500
            && evidence.containers == ByKey(Take(all, MAX_CONTAINERS))
            && (evidence.status == Observed <==> !missing && 0 < |all| <= 500)
            && (evidence.status == NoRunningEvidence <==> !missing && all == [])
            && (evidence.status in {Observed, NoRunningEvidence} ==> evidence.containers == ByKey(all))
  {
    SortedByKey(Take(all, MAX_CONTAINERS), Container("", false, Entry("", "")));
  }
}
