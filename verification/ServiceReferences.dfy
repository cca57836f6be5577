// References of workloads: the 500 smallest are kept, service matches are added, and the
// 500 smallest are kept again; two collectors do this in two ways.
module ServiceReferences {
  import opened Options
  import opened PairOrder

  const MAX_REFERENCES := 500

  /******* Keeping the smallest *******/

  function Smallest(s: set<Pair>, n: nat): (r: seq<Pair>)
    ensures |r| == if |s| <= n then |s| else n
  {
    if |s| <= n then Sorted(s) else Sorted(s)[..n]
  }

  function Members(r: seq<Pair>): set<Pair> {
    set x | x in r
  }

  // The first n of a set: increasing, from the set, as many as there are, and below the rest.
  predicate IsSmallest(r: seq<Pair>, s: set<Pair>, n: nat) {
    && Increasing(r)
    && (forall x | x in r :: x in s)
    && |r| == (if |s| <= n then |s| else n)
    && (forall x, i | x in s && x !in r && 0 <= i < |r| :: Less(r[i], x))
  }

  lemma SmallestIs(s: set<Pair>, n: nat)
    ensures IsSmallest(Smallest(s, n), s, n)
  {
    var all, r := Sorted(s), Smallest(s, n);
    forall x | x in r ensures x in s {
      assert x in all;
    }
    forall x, i | x in s && x !in r && 0 <= i < |r| ensures Less(r[i], x) {
      var k :| 0 <= k < |all| && all[k] == x;
      assert k >= |r|;
    }
  }

  lemma NotLessBack(a: Pair, b: Pair)
    requires Less(a, b)
    ensures !Less(b, a) && a != b
  {
    LessTotal(a, b);
  }

  lemma MembersCount(r: seq<Pair>)
    requires Increasing(r)
    ensures |Members(r)| == |r|
    decreases |r|
  {
    if r == [] {
      assert Members(r) == {};
    } else {
      var n := |r| - 1;
      MembersCount(r[..n]);
      assert r == r[..n] + [r[n]];
      assert r[n] !in r[..n] by {
        forall i | 0 <= i < n ensures r[..n][i] != r[n] { NotLessBack(r[i], r[n]); }
      }
      assert Members(r) == Members(r[..n]) + {r[n]};
    }
  }

  // Two lists of the smallest of one set are the same list.
  lemma SmallestUnique(r: seq<Pair>, s: set<Pair>, n: nat)
    requires IsSmallest(r, s, n)
    ensures r == Smallest(s, n)
  {
    var q := Smallest(s, n);
    SmallestIs(s, n);
    MembersCount(r);
    MembersCount(q);
    assert Members(r) == Members(q) by {
      OneInside(r, q, s, n);
      if Members(r) <= Members(q) {
        SubsetSame(Members(r), Members(q));
      } else {
        SubsetSame(Members(q), Members(r));
      }
    }
    SortedUnique(r, Members(r));
    SortedUnique(q, Members(r));
  }

  lemma SubsetSame(a: set<Pair>, b: set<Pair>)
    requires a <= b && |a| == |b|
    ensures a == b
  {
    assert b == a + (b - a) && |b| == |a| + |b - a|;
  }

  lemma InOrAbove(q: seq<Pair>, s: set<Pair>, n: nat, j: nat, x: Pair)
    requires IsSmallest(q, s, n) && j < |q| && x in s
    ensures x in q || Less(q[j], x)
  {
  }

  // An element of one list only lies above the whole other one.
  lemma OneInside(r: seq<Pair>, q: seq<Pair>, s: set<Pair>, n: nat)
    requires IsSmallest(r, s, n) && IsSmallest(q, s, n)
    ensures Members(r) <= Members(q) || Members(q) <= Members(r)
  {
    if y :| y in q && y !in r {
      var j :| 0 <= j < |q| && q[j] == y;
      forall x | x in r ensures x in q {
        var i :| 0 <= i < |r| && r[i] == x;
        assert Less(r[i], y);
        NotLessBack(x, y);
        InOrAbove(q, s, n, j, x);
      }
    }
  }

  lemma IncreasingIndex(r: seq<Pair>, j: nat, i: nat)
    requires Increasing(r) && j < |r| && i < |r| && Less(r[j], r[i])
    ensures j < i
  {
    LessTotal(r[j], r[i]);
  }

  // Truncating twice loses nothing: the smallest of a set, more elements added and the
  // smallest taken again, are the smallest of the whole union.
  lemma TruncatingTwice(a: set<Pair>, b: set<Pair>, n: nat)
    ensures Smallest(Members(Smallest(a, n)) + b, n) == Smallest(a + b, n)
  {
    var t := Smallest(a, n);
    var kept, all := Members(t) + b, a + b;
    var r := Smallest(kept, n);
    SmallestIs(a, n);
    SmallestIs(kept, n);
    MembersCount(t);
    if |a| <= n {
      SubsetSame(Members(t), a);
    } else {
      SubsetCount(Members(t), kept);
      SubsetCount(a, all);
      forall x, i | x in all && x !in r && 0 <= i < |r| ensures Less(r[i], x) {
        if x !in kept {
          BelowTheDropped(t, kept, r, n, x, i);
        }
      }
      assert IsSmallest(r, all, n);
    }
    SmallestUnique(r, all, n);
  }

  lemma SubsetCount(a: set<Pair>, b: set<Pair>)
    requires a <= b
    ensures |a| <= |b|
  {
    assert b == a + (b - a) && |b| == |a| + |b - a|;
  }

  // What the first truncation dropped lies above everything the second keeps.
  lemma BelowTheDropped(t: seq<Pair>, kept: set<Pair>, r: seq<Pair>, n: nat, x: Pair, i: nat)
    requires Increasing(t) && |t| == n && Members(t) <= kept && x !in kept
    requires forall k | 0 <= k < |t| :: Less(t[k], x)
    requires IsSmallest(r, kept, n) && i < |r|
    ensures Less(r[i], x)
  {
    LessTotal(r[i], x);
    if !Less(r[i], x) {
      assert r[i] in kept && Less(x, r[i]);
      forall y | y in Members(t) ensures y in Members(r[..i]) {
        var k :| 0 <= k < |t| && t[k] == y;
        LessTransitive(t[k], x, r[i]);
        NotLessBack(y, r[i]);
        assert y in r;
        var j :| 0 <= j < |r| && r[j] == y;
        IncreasingIndex(r, j, i);
        assert r[..i][j] == y;
      }
      MembersCount(t);
      MembersCount(r[..i]);
      SubsetCount(Members(t), Members(r[..i]));
    }
  }

  /******* Resources *******/

  type Texts = map<string, string>

  // What the matchers read of a resource; labels of the pod template, and of a cron job's
  // job template; the references of its pod template as a set.
  datatype Resource = Resource(
    kind: string, namespace: string, name: string,
    selector: Texts, labels: Texts, jobLabels: Texts, references: set<Pair>)

  predicate Workload(kind: string) {
    kind in {"CronJob", "DaemonSet", "Deployment", "Job", "StatefulSet"}
  }

  function Limited(text: string, maximum: nat): string {
    if |text| <= maximum then text else text[..maximum]
  }

  predicate Selects(selector: Texts, labels: Texts) {
    forall k | k in selector :: k in labels && labels[k] == selector[k]
  }

  predicate GoodSelector(selector: Texts) {
    0 < |selector| <= 200
  }

  // Services by namespace and name.
  type Services = map<Pair, Texts>

  function Matched(services: Services, namespace: string, labels: Texts): set<Pair> {
    if labels == map[] then {}
    else set s | s in services && s.0 == namespace && Selects(services[s], labels) :: ("Service", s.1)
  }

  /******* build_inventory *******/

  function AddService(services: Services, r: Resource): Services {
    if r.kind == "Service" && GoodSelector(r.selector) && Limited(r.name, 253) != "" then
      services[(r.namespace, Limited(r.name, 253)) := r.selector]
    else services
  }

  function BuildServices(resources: seq<Resource>): Services {
    if resources == [] then map[]
    else AddService(BuildServices(resources[..|resources| - 1]), resources[|resources| - 1])
  }

  function BuildReferences(resources: seq<Resource>, r: Resource): seq<Pair> {
    Smallest(Members(Smallest(r.references, MAX_REFERENCES))
             + Matched(BuildServices(resources), Limited(r.namespace, 63), r.labels), MAX_REFERENCES)
  }

  // What a resource gets: none unless it is a workload.
  function BuildReport(resources: seq<Resource>, r: Resource): Option<seq<Pair>> {
    if Workload(r.kind) then Some(BuildReferences(resources, r)) else None
  }

  lemma {:induction false} BuildReportAt(resources: seq<Resource>, n: nat, i: nat)
    requires i < n <= |resources|
    ensures BuildReports(resources, n)[i] == BuildReport(resources, resources[i])
  {
    SnocAt(BuildReports(resources, n - 1), BuildReport(resources, resources[n - 1]), i);
    if i < n - 1 {
      BuildReportAt(resources, n - 1, i);
    }
  }

  lemma SnocAt<T>(s: seq<T>, x: T, i: nat)
    requires i <= |s|
    ensures (s + [x])[i] == if i < |s| then s[i] else x
  {
  }

  function BuildReports(resources: seq<Resource>, n: nat): (r: seq<Option<seq<Pair>>>)
    requires n <= |resources|
    ensures |r| == n
  {
    if n == 0 then [] else BuildReports(resources, n - 1) + [BuildReport(resources, resources[n - 1])]
  }

  method GatherServices(resources: seq<Resource>) returns (services: Services)
    ensures services == BuildServices(resources)
  {
    services := map[];
    assert resources[..0] == [];
    for i := 0 to |resources|
      invariant services == BuildServices(resources[..i])
    {
      assert resources[..i + 1][..i] == resources[..i];
      services := AddService(services, resources[i]);
    }
    assert resources[..|resources|] == resources;
  }

  // The two passes over the resources; none at resources that are not workloads.
  method BuildInventory(resources: seq<Resource>) returns (references: seq<Option<seq<Pair>>>)
    ensures |references| == |resources|
    ensures forall i | 0 <= i < |resources| ::
              if resources[i].kind in {"CronJob", "DaemonSet", "Deployment", "Job", "StatefulSet"} then
                references[i] == Some(BuildReferences(resources, resources[i]))
              else references[i] == None
  {
    var services := GatherServices(resources);
    references := [];
    for i := 0 to |resources|
      invariant references == BuildReports(resources, i)
    {
      var r := resources[i];
      var report: Option<seq<Pair>> := None;
      if Workload(r.kind) {
        var refs := Members(Smallest(r.references, MAX_REFERENCES));
        refs := refs + Matched(services, Limited(r.namespace, 63), r.labels);
        report := Some(Smallest(refs, MAX_REFERENCES));
      }
      assert report == BuildReport(resources, r);
      references := references + [report];
    }
    forall i | 0 <= i < |resources| ensures references[i] == BuildReport(resources, resources[i]) {
      BuildReportAt(resources, |resources|, i);
    }
  }

  /******* collect_inventory *******/

  datatype Place = Place(namespace: string, kind: string, name: string)

  function PlaceOf(r: Resource): Place {
    Place(r.namespace, r.kind, r.name)
  }

  // A cron job's labels are those of its job template.
  function TemplateLabels(r: Resource): Texts {
    if r.kind == "CronJob" then r.jobLabels else r.labels
  }

  function CollectService(services: Services, r: Resource): Services {
    if r.kind == "Service" && GoodSelector(r.selector) then services[(r.namespace, r.name) := r.selector] else services
  }

  function CollectServices(resources: seq<Resource>): Services {
    if resources == [] then map[]
    else CollectService(CollectServices(resources[..|resources| - 1]), resources[|resources| - 1])
  }

  function CollectLabels(resources: seq<Resource>): map<Place, Texts> {
    if resources == [] then map[]
    else
      var r := resources[|resources| - 1];
      var before := CollectLabels(resources[..|resources| - 1]);
      if Workload(r.kind) then before[PlaceOf(r) := TemplateLabels(r)] else before
  }

  function LabelsAt(labels: map<Place, Texts>, r: Resource): Texts {
    var place := Place(Limited(r.namespace, 63), r.kind, Limited(r.name, 253));
    if place in labels then labels[place] else map[]
  }

  function CollectReferences(resources: seq<Resource>, r: Resource): seq<Pair> {
    var labels := LabelsAt(CollectLabels(resources), r);
    var listed := Smallest(r.references, MAX_REFERENCES);
    if labels == map[] then listed
    else
      var matched := Matched(CollectServices(resources), Limited(r.namespace, 63), labels);
      Smallest(Members(listed) + matched, MAX_REFERENCES)
  }

  function CollectReport(resources: seq<Resource>, r: Resource): Option<seq<Pair>> {
    if Workload(r.kind) then Some(CollectReferences(resources, r)) else None
  }

  lemma {:induction false} CollectReportAt(resources: seq<Resource>, n: nat, i: nat)
    requires i < n <= |resources|
    ensures CollectReports(resources, n)[i] == CollectReport(resources, resources[i])
  {
    if i < n - 1 {
      CollectReportAt(resources, n - 1, i);
      assert CollectReports(resources, n)[i] == CollectReports(resources, n - 1)[i];
    }
  }

  function CollectReports(resources: seq<Resource>, n: nat): (r: seq<Option<seq<Pair>>>)
    requires n <= |resources|
    ensures |r| == n
  {
    if n == 0 then [] else CollectReports(resources, n - 1) + [CollectReport(resources, resources[n - 1])]
  }

  method GatherWorkloads(resources: seq<Resource>) returns (services: Services, workloads: map<Place, Texts>)
    ensures services == CollectServices(resources) && workloads == CollectLabels(resources)
  {
    services, workloads := map[], map[];
    assert resources[..0] == [];
    for i := 0 to |resources|
      invariant services == CollectServices(resources[..i])
      invariant workloads == CollectLabels(resources[..i])
    {
      assert resources[..i + 1][..i] == resources[..i];
      services := CollectService(services, resources[i]);
      if Workload(resources[i].kind) {
        workloads := workloads[PlaceOf(resources[i]) := TemplateLabels(resources[i])];
      }
    }
    assert resources[..|resources|] == resources;
  }

  // One pass that gathers selectors and labels, one that adds the matches.
  method CollectInventory(resources: seq<Resource>) returns (references: seq<Option<seq<Pair>>>)
    ensures |references| == |resources|
    ensures forall i | 0 <= i < |resources| ::
              if resources[i].kind in {"CronJob", "DaemonSet", "Deployment", "Job", "StatefulSet"} then
                references[i] == Some(CollectReferences(resources, resources[i]))
              else references[i] == None
  {
    var services, workloads := GatherWorkloads(resources);
    references := [];
    for i := 0 to |resources|
      invariant references == CollectReports(resources, i)
    {
      var r := resources[i];
      var report: Option<seq<Pair>> := None;
      if Workload(r.kind) {
        var listed := Smallest(r.references, MAX_REFERENCES);
        var labels := LabelsAt(workloads, r);
        if labels != map[] {
          listed := Smallest(Members(listed) + Matched(services, Limited(r.namespace, 63), labels), MAX_REFERENCES);
        }
        report := Some(listed);
      }
      assert report == CollectReport(resources, r);
      references := references + [report];
    }
    forall i | 0 <= i < |resources| ensures references[i] == CollectReport(resources, resources[i]) {
      CollectReportAt(resources, |resources|, i);
    }
  }

  /******* The two agree *******/

  predicate WithinLimits(r: Resource) {
    0 < |r.name| <= 253 && |r.namespace| <= 63
  }

  predicate DistinctPlaces(resources: seq<Resource>) {
    forall i, j | 0 <= i < j < |resources| && Workload(resources[i].kind) && Workload(resources[j].kind) ::
      PlaceOf(resources[i]) != PlaceOf(resources[j])
  }

  lemma InLimits(r: Resource)
    requires WithinLimits(r)
    ensures Limited(r.name, 253) == r.name && Limited(r.namespace, 63) == r.namespace
    ensures forall labels :: LabelsAt(labels, r) == if PlaceOf(r) in labels then labels[PlaceOf(r)] else map[]
  {
  }

  lemma {:induction false} SameServices(resources: seq<Resource>)
    requires forall r | r in resources :: WithinLimits(r)
    ensures BuildServices(resources) == CollectServices(resources)
  {
    if resources != [] {
      SameServices(resources[..|resources| - 1]);
      assert WithinLimits(resources[|resources| - 1]);
    }
  }

  lemma {:induction false} OwnLabels(resources: seq<Resource>, i: nat)
    requires DistinctPlaces(resources) && i < |resources| && Workload(resources[i].kind)
    ensures PlaceOf(resources[i]) in CollectLabels(resources)
    ensures CollectLabels(resources)[PlaceOf(resources[i])] == TemplateLabels(resources[i])
  {
    var n := |resources| - 1;
    if i < n {
      OwnLabels(resources[..n], i);
    }
  }

  // A service without a name is never reported, and names are cut at 253 characters.
  lemma {:induction false} NamesReported(resources: seq<Resource>)
    ensures forall s | s in BuildServices(resources) :: 0 < |s.1| <= 253
  {
    if resources != [] {
      NamesReported(resources[..|resources| - 1]);
    }
  }

  /******* What is due *******/

  // A service that selects a workload with these labels in its namespace.
  predicate SelectsThere(s: Resource, namespace: string, labels: Texts) {
    && s.kind == "Service" && s.namespace == namespace && 0 < |s.selector| <= 200 && labels != map[]
    && forall key | key in s.selector :: key in labels && labels[key] == s.selector[key]
  }

  // The references of a workload's own pods, and the services that select them.
  function Due(resources: seq<Resource>, r: Resource, labels: Texts): set<Pair> {
    r.references
    + set j | 0 <= j < |resources| && SelectsThere(resources[j], r.namespace, labels) :: ("Service", resources[j].name)
  }

  predicate DistinctServices(resources: seq<Resource>) {
    forall i, j | 0 <= i < j < |resources| && resources[i].kind == "Service" && resources[j].kind == "Service" ::
      (resources[i].namespace, resources[i].name) != (resources[j].namespace, resources[j].name)
  }

  lemma {:induction false} ServicesAre(resources: seq<Resource>, key: Pair)
    requires DistinctServices(resources)
    ensures key in CollectServices(resources) <==>
            exists j :: 0 <= j < |resources| && IsService(resources[j], key)
    ensures forall j | 0 <= j < |resources| && IsService(resources[j], key) ::
              CollectServices(resources)[key] == resources[j].selector
  {
    if resources != [] {
      var n := |resources| - 1;
      var front := resources[..n];
      ServicesAre(front, key);
      assert forall j | 0 <= j < n :: front[j] == resources[j];
      if IsService(resources[n], key) {
        assert forall j | 0 <= j < n :: !IsService(front[j], key);
      }
    }
  }

  predicate IsService(r: Resource, key: Pair) {
    r.kind == "Service" && 0 < |r.selector| <= 200 && (r.namespace, r.name) == key
  }

  lemma {:induction false} DueIsUnion(resources: seq<Resource>, r: Resource, labels: Texts)
    requires DistinctServices(resources)
    ensures r.references + Matched(CollectServices(resources), r.namespace, labels) == Due(resources, r, labels)
  {
    var services := CollectServices(resources);
    forall x
      ensures x in Matched(services, r.namespace, labels) <==>
              exists j :: 0 <= j < |resources| && SelectsThere(resources[j], r.namespace, labels)
                          && x == ("Service", resources[j].name)
    {
      var key := (r.namespace, x.1);
      ServicesAre(resources, key);
      if x in Matched(services, r.namespace, labels) {
        var s :| s in services && s.0 == r.namespace && Selects(services[s], labels) && x == ("Service", s.1);
        assert s == key;
        var j :| 0 <= j < |resources| && IsService(resources[j], key);
        assert SelectsThere(resources[j], r.namespace, labels);
      }
      if j :| 0 <= j < |resources| && SelectsThere(resources[j], r.namespace, labels)
              && x == ("Service", resources[j].name)
      {
        assert IsService(resources[j], key) && services[key] == resources[j].selector;
      }
    }
  }

  // A collector reports the first 500 of what is due: a pair is reported exactly when it is
  // due and fewer than 500 due pairs come before it, and the report is in order.
  ghost predicate Reports(report: seq<Pair>, due: set<Pair>) {
    && Increasing(report)
    && forall x :: x in report <==> x in due && |Below(x, due)| < 500
  }

  lemma SmallestReports(due: set<Pair>)
    ensures Reports(Smallest(due, MAX_REFERENCES), due)
  {
    SmallestIs(due, MAX_REFERENCES);
    forall x ensures x in Smallest(due, MAX_REFERENCES) <==> x in due && |Below(x, due)| < 500 {
      if x in due {
        KeptIff(due, MAX_REFERENCES, x);
      }
    }
  }

  lemma {:induction false} BuiltReport(resources: seq<Resource>, r: Resource)
    requires DistinctServices(resources) && forall s | s in resources :: WithinLimits(s)
    requires r in resources
    ensures Reports(BuildReferences(resources, r), Due(resources, r, r.labels))
  {
    BuildIsOnce(resources, r);
    SameServices(resources);
    InLimits(r);
    DueIsUnion(resources, r, r.labels);
    SmallestReports(Due(resources, r, r.labels));
  }

  // The other collector also sees the job template of a cron job.
  lemma {:induction false} CollectedReport(resources: seq<Resource>, i: nat)
    requires DistinctServices(resources) && DistinctPlaces(resources)
    requires i < |resources| && Workload(resources[i].kind) && WithinLimits(resources[i])
    ensures var r := resources[i];
            Reports(CollectReferences(resources, r),
                    Due(resources, r, if r.kind == "CronJob" then r.jobLabels else r.labels))
  {
    var r := resources[i];
    CollectIsOnce(resources, i);
    DueIsUnion(resources, r, TemplateLabels(r));
    SmallestReports(Due(resources, r, TemplateLabels(r)));
  }

  // What each collector reports is one truncation of the whole union.
  lemma {:induction false} BuildIsOnce(resources: seq<Resource>, r: Resource)
    ensures BuildReferences(resources, r)
         == Smallest(r.references + Matched(BuildServices(resources), Limited(r.namespace, 63), r.labels),
                     MAX_REFERENCES)
  {
    TruncatingTwice(r.references, Matched(BuildServices(resources), Limited(r.namespace, 63), r.labels),
                    MAX_REFERENCES);
  }

  lemma {:induction false} CollectIsOnce(resources: seq<Resource>, i: nat)
    requires DistinctPlaces(resources) && i < |resources| && Workload(resources[i].kind) && WithinLimits(resources[i])
    ensures var r := resources[i];
            CollectReferences(resources, r)
            == Smallest(r.references + Matched(CollectServices(resources), r.namespace, TemplateLabels(r)),
                        MAX_REFERENCES)
  {
    var r := resources[i];
    OwnLabels(resources, i);
    InLimits(r);
    CollectWith(resources, r, TemplateLabels(r));
  }

  lemma {:induction false} CollectWith(resources: seq<Resource>, r: Resource, labels: Texts)
    requires LabelsAt(CollectLabels(resources), r) == labels && Limited(r.namespace, 63) == r.namespace
    ensures CollectReferences(resources, r)
         == Smallest(r.references + Matched(CollectServices(resources), r.namespace, labels), MAX_REFERENCES)
  {
    var matched := Matched(CollectServices(resources), r.namespace, labels);
    if labels == map[] {
      assert r.references + matched == r.references;
    } else {
      TruncatingTwice(r.references, matched, MAX_REFERENCES);
    }
  }

  // Both collectors report the same references for every workload but cron jobs.
  lemma CollectorsAgree(resources: seq<Resource>, i: nat)
    requires DistinctPlaces(resources) && forall r | r in resources :: WithinLimits(r)
    requires i < |resources| && Workload(resources[i].kind) && resources[i].kind != "CronJob"
    ensures BuildReferences(resources, resources[i]) == CollectReferences(resources, resources[i])
  {
    assert WithinLimits(resources[i]);
    SameServices(resources);
    BuildIsOnce(resources, resources[i]);
    CollectIsOnce(resources, i);
  }

  lemma BuildUnlabelled(resources: seq<Resource>, r: Resource)
    requires r.labels == map[]
    ensures BuildReferences(resources, r) == Smallest(r.references, MAX_REFERENCES)
  {
    BuildIsOnce(resources, r);
    assert r.references + {} == r.references;
  }

  // A cron job has labels on its job template only, so they agree on it exactly when the
  // services these select add nothing to the references that are kept.
  lemma {:induction false} CronJobsAgreeIff(resources: seq<Resource>, i: nat)
    requires DistinctPlaces(resources) && forall r | r in resources :: WithinLimits(r)
    requires i < |resources| && resources[i].kind == "CronJob" && resources[i].labels == map[]
    ensures var r := resources[i];
            var matched := Matched(CollectServices(resources), r.namespace, r.jobLabels);
            BuildReferences(resources, r) == CollectReferences(resources, r)
            <==> forall s | s in matched - r.references :: |Below(s, r.references + matched)| >= MAX_REFERENCES
  {
    var r := resources[i];
    assert WithinLimits(r);
    BuildUnlabelled(resources, r);
    CollectIsOnce(resources, i);
    AddingNothingIff(r.references, Matched(CollectServices(resources), r.namespace, r.jobLabels), MAX_REFERENCES);
  }

  function Below(x: Pair, s: set<Pair>): set<Pair> {
    set y | y in s && Less(y, x)
  }

  // More elements leave the n smallest as they are exactly when each new one has n
  // smaller ones before it.
  lemma AddingNothingIff(a: set<Pair>, b: set<Pair>, n: nat)
    ensures Smallest(a, n) == Smallest(a + b, n) <==> forall x | x in b - a :: |Below(x, a + b)| >= n
  {
    forall x | x in b - a ensures |Below(x, a + b)| >= n <==> x !in Smallest(a + b, n) {
      KeptIff(a + b, n, x);
    }
    if forall x | x in b - a :: |Below(x, a + b)| >= n {
      AddingNothing(a, b, n);
    } else {
      var x :| x in b - a && |Below(x, a + b)| < n;
      SmallestIs(a, n);
      assert x in Smallest(a + b, n) && x !in Smallest(a, n);
    }
  }

  lemma AddingNothing(a: set<Pair>, b: set<Pair>, n: nat)
    requires forall x | x in b - a :: x !in Smallest(a + b, n)
    ensures Smallest(a, n) == Smallest(a + b, n)
  {
    var q := Smallest(a + b, n);
    SmallestIs(a + b, n);
    forall x | x in q ensures x in a {
      assert x in a + b;
    }
    SubsetCount(a, a + b);
    MembersCount(q);
    SubsetCount(Members(q), a);
    assert IsSmallest(q, a, n);
    SmallestUnique(q, a, n);
  }

  lemma BelowIsBefore(s: set<Pair>, n: nat, k: nat)
    requires k < |Smallest(s, n)|
    ensures Below(Smallest(s, n)[k], s) <= Members(Smallest(s, n)[..k])
  {
    var r := Smallest(s, n);
    SmallestIs(s, n);
    forall y | y in Below(r[k], s) ensures y in Members(r[..k]) {
      NotLessBack(y, r[k]);
      assert y in r;
      var j :| 0 <= j < |r| && r[j] == y;
      IncreasingIndex(r, j, k);
      assert r[..k][j] == y;
    }
  }

  lemma KeptIff(s: set<Pair>, n: nat, x: Pair)
    requires x in s
    ensures x in Smallest(s, n) <==> |Below(x, s)| < n
  {
    var r := Smallest(s, n);
    SmallestIs(s, n);
    MembersCount(r);
    if x in r {
      var k :| 0 <= k < |r| && r[k] == x;
      BelowIsBefore(s, n, k);
      MembersCount(r[..k]);
      SubsetCount(Below(x, s), Members(r[..k]));
    } else {
      forall y | y in Members(r) ensures y in Below(x, s) {
        var j :| 0 <= j < |r| && r[j] == y;
      }
      SubsetCount(Members(r), Below(x, s));
      if |s| <= n {
        SubsetSame(Members(r), s);
      }
    }
  }

  // A cron job whose job template a service selects: only one of the collectors sees it.
  lemma CronJobDiffers(namespace: string, service: string, job: string, key: string, value: string)
    requires |namespace| <= 63 && 0 < |service| <= 253 && 0 < |job| <= 253
    ensures var texts := map[key := value];
            var resources := [Resource("Service", namespace, service, texts, map[], map[], {}),
                              Resource("CronJob", namespace, job, map[], map[], texts, {})];
            BuildReferences(resources, resources[1]) != CollectReferences(resources, resources[1])
  {
    var texts := map[key := value];
    var one := Resource("Service", namespace, service, texts, map[], map[], {});
    var two := Resource("CronJob", namespace, job, map[], map[], texts, {});
    var resources := [one, two];
    CronServices(one, two);
    var s := ("Service", service);
    var matched := Matched(CollectServices(resources), namespace, texts);
    assert matched == {s} by {
      assert key in texts;
      assert Selects(texts, texts);
    }
    LessTotal(s, s);
    assert {} + matched == {s} && Below(s, {s}) == {};
    assert s in matched - two.references;
    CronJobsAgreeIff(resources, 1);
  }

  lemma CronServices(one: Resource, two: Resource)
    requires one.kind == "Service" && two.kind == "CronJob" && |one.selector| == 1
    ensures CollectServices([one, two]) == map[(one.namespace, one.name) := one.selector]
  {
    assert [one, two][..1] == [one] && [one][..0] == [];
    assert CollectServices([one]) == CollectService(CollectServices([]), one);
  }
}
