// Building release manifests: selected components are built or taken from cached receipts,
// the others are retained, over any chain of releases.
module ReleaseManifests {
  import opened Options
  import opened ReleasePlanning

  // uri, sha256 and versionId.
  type Identity = string

  // An infrastructure artifact names the backend artifact its templates point at.
  datatype Dependencies = NoDependencies | OnBackend(backend: Option<Identity>)

  datatype Artifact = Artifact(identity: Identity, inputs: InputHash, recipe: string, dependencies: Dependencies)

  type Components = map<Component, Artifact>

  datatype Manifest = Manifest(revision: string, components: Components)

  // The fields hashed into the key of a receipt.
  datatype Recipe = Recipe(
    component: Component, inputs: InputHash, recipe: string, dependencies: Dependencies, repository: string)

  function BackendOf(components: Components): Option<Identity> {
    if Backend in components then Some(components[Backend].identity) else None
  }

  function DependenciesOf(c: Component, components: Components): Dependencies {
    if c == Infrastructure then OnBackend(BackendOf(components)) else NoDependencies
  }

  /******* The artifact storage *******/

  // Receipts by recipe, and the build locks that are held.
  class Storage {
    var receipts: map<Recipe, Artifact>
    var locks: set<Recipe>
  }

  // A conditional write of a new object: refused when it exists, and it may fail.
  method TakeLock(storage: Storage, recipe: Recipe) returns (ok: bool)
    modifies storage`locks
    ensures ok ==> recipe !in old(storage.locks) && storage.locks == old(storage.locks) + {recipe}
    ensures !ok ==> storage.locks == old(storage.locks)
  {
    var fails := *;
    if fails || recipe in storage.locks {
      return false;
    }
    storage.locks := storage.locks + {recipe};
    ok := true;
  }

  method PutReceipt(storage: Storage, recipe: Recipe, artifact: Artifact) returns (ok: bool)
    modifies storage`receipts
    ensures ok ==> recipe !in old(storage.receipts) && storage.receipts == old(storage.receipts)[recipe := artifact]
    ensures !ok ==> storage.receipts == old(storage.receipts)
  {
    var fails := *;
    if fails || recipe in storage.receipts {
      return false;
    }
    storage.receipts := storage.receipts[recipe := artifact];
    ok := true;
  }

  // Stands for validation, the build itself, publishing and verifying the artifact.
  method Produce(c: Component, components: Components) returns (identity: Option<Identity>)
    ensures identity.Some? && c == Infrastructure ==> Backend in components
  {
    var fails := *;
    if fails || (c == Infrastructure && Backend !in components) {
      return None;
    }
    var made: Identity := *;
    identity := Some(made);
  }

  method Verifies(artifact: Artifact) returns (ok: bool) {
    ok := *;
  }

  // Builds under the lock of the recipe, which is given back in any case.
  method Build(storage: Storage, recipe: Recipe, components: Components) returns (artifact: Option<Artifact>)
    modifies storage
    ensures storage.locks == old(storage.locks)
    ensures artifact.Some? ==>
              && artifact.value.inputs == recipe.inputs && artifact.value.recipe == recipe.recipe
              && artifact.value.dependencies == recipe.dependencies
              && recipe !in old(storage.receipts)
              && storage.receipts == old(storage.receipts)[recipe := artifact.value]
    ensures artifact.None? ==> storage.receipts == old(storage.receipts)
    ensures artifact.Some? && recipe.component == Infrastructure ==> Backend in components
  {
    var locked := TakeLock(storage, recipe);
    if !locked {
      return None;
    }
    artifact := None;
    var identity := Produce(recipe.component, components);
    if identity.Some? {
      var made := Artifact(identity.value, recipe.inputs, recipe.recipe, recipe.dependencies);
      var verified := Verifies(made);
      if verified {
        var stored := PutReceipt(storage, recipe, made);
        if stored {
          artifact := Some(made);
        }
      }
    }
    storage.locks := storage.locks - {recipe};
  }

  /******* One manifest *******/

  function RepositoryOf(repositories: map<Component, string>, c: Component): string {
    if c in repositories then repositories[c] else ""
  }

  // The artifact is the one stored under the recipe it was built by.
  predicate Receipted(receipts: map<Recipe, Artifact>, c: Component, artifact: Artifact, recipe: string,
                      repository: string)
  {
    var key := Recipe(c, artifact.inputs, recipe, artifact.dependencies, repository);
    key in receipts && receipts[key] == artifact && artifact.recipe == recipe
  }

  predicate AllReceipted(receipts: map<Recipe, Artifact>, selected: set<Component>, k: nat, components: Components,
                         recipe: string, repositories: map<Component, string>)
  {
    forall c | c in selected && Rank(c) < k ::
      c in components && Receipted(receipts, c, components[c], recipe, RepositoryOf(repositories, c))
  }

  lemma ReceiptedNext(receipts: map<Recipe, Artifact>, more: map<Recipe, Artifact>, selected: set<Component>, k: nat,
                      components: Components, recipe: string, repositories: map<Component, string>, artifact: Artifact)
    requires k < |COMPONENTS| && AllReceipted(receipts, selected, k, components, recipe, repositories)
    requires forall r | r in receipts :: r in more && more[r] == receipts[r]
    requires Receipted(more, COMPONENTS[k], artifact, recipe, RepositoryOf(repositories, COMPONENTS[k]))
    ensures AllReceipted(more, selected, k + 1, components[COMPONENTS[k] := artifact], recipe, repositories)
  {
    forall c | c in selected && Rank(c) < k + 1
      ensures var after := components[COMPONENTS[k] := artifact];
              c in after && Receipted(more, c, after[c], recipe, RepositoryOf(repositories, c))
    {
      PlaceOrBefore(c, k);
    }
  }

  lemma ReceiptedSkip(receipts: map<Recipe, Artifact>, selected: set<Component>, k: nat, components: Components,
                      recipe: string, repositories: map<Component, string>)
    requires k < |COMPONENTS| && AllReceipted(receipts, selected, k, components, recipe, repositories)
    requires COMPONENTS[k] !in selected
    ensures AllReceipted(receipts, selected, k + 1, components, recipe, repositories)
  {
    forall c | c in selected && Rank(c) < k + 1 ensures Rank(c) < k {
      PlaceOrBefore(c, k);
    }
  }

  // What the components of a new manifest are, whichever way each was obtained.
  ghost predicate Releases(rules: Rules, tree: Tree, selected: set<Component>, before: Components, after: Components) {
    && after.Keys == before.Keys + selected
    && (forall c | c in before && c !in selected :: after[c] == before[c])
    && (forall c | c in selected ::
          after[c].inputs == HashOf(rules, c, tree) && after[c].dependencies == DependenciesOf(c, after))
  }

  function Rank(c: Component): nat {
    match c
    case Frontend => 0 case Backend => 1 case Infrastructure => 2 case Database => 3 case ClusterConnector => 4
    case MigrationConnector => 5 case TerraformRunner => 6 case ImageWorker => 7 case ToolsGateway => 8
  }

  lemma RankIsPlace(c: Component)
    ensures COMPONENTS[Rank(c)] == c
  {
  }

  // The components after the first places of the list are done.
  ghost predicate Done(rules: Rules, tree: Tree, selected: set<Component>, before: Components, after: Components,
                       k: nat)
  {
    && (forall c :: c in after <==> c in before || (c in selected && Rank(c) < k))
    && (forall c | c in before && !(c in selected && Rank(c) < k) :: after[c] == before[c])
    && (forall c | c in selected && Rank(c) < k ::
          after[c].inputs == HashOf(rules, c, tree) && after[c].dependencies == DependenciesOf(c, after))
  }

  lemma DoneNext(rules: Rules, tree: Tree, selected: set<Component>, before: Components, after: Components, k: nat,
                 artifact: Artifact)
    requires k < |COMPONENTS| && Done(rules, tree, selected, before, after, k) && COMPONENTS[k] in selected
    requires artifact.inputs == HashOf(rules, COMPONENTS[k], tree)
    requires artifact.dependencies == DependenciesOf(COMPONENTS[k], after)
    ensures Done(rules, tree, selected, before, after[COMPONENTS[k] := artifact], k + 1)
  {
    var now := COMPONENTS[k];
    forall c ensures Rank(c) < k + 1 <==> Rank(c) < k || c == now {
      PlaceOrBefore(c, k);
    }
    BuiltNext(rules, tree, selected, before, after, k, artifact);
  }

  lemma PlaceOrBefore(c: Component, k: nat)
    requires k < |COMPONENTS|
    ensures Rank(c) < k + 1 <==> Rank(c) < k || c == COMPONENTS[k]
  {
    RankOfPlace(k);
    RankOnce(c, COMPONENTS[k]);
  }

  lemma BuiltNext(rules: Rules, tree: Tree, selected: set<Component>, before: Components, after: Components, k: nat,
                  artifact: Artifact)
    requires k < |COMPONENTS| && Done(rules, tree, selected, before, after, k)
    requires artifact.inputs == HashOf(rules, COMPONENTS[k], tree)
    requires artifact.dependencies == DependenciesOf(COMPONENTS[k], after)
    ensures var next := after[COMPONENTS[k] := artifact];
            forall c | c in selected && Rank(c) < k + 1 ::
              c in next && next[c].inputs == HashOf(rules, c, tree) && next[c].dependencies == DependenciesOf(c, next)
  {
    var next := after[COMPONENTS[k] := artifact];
    forall c | c in selected && Rank(c) < k + 1
      ensures c in next && next[c].inputs == HashOf(rules, c, tree) && next[c].dependencies == DependenciesOf(c, next)
    {
      PlaceOrBefore(c, k);
      RankOfPlace(k);
      DependenciesStay(c, COMPONENTS[k], artifact, after);
    }
  }

  lemma RankOfPlace(k: nat)
    requires k < |COMPONENTS|
    ensures Rank(COMPONENTS[k]) == k
  {
  }

  lemma RankOnce(c: Component, d: Component)
    ensures Rank(c) == Rank(d) ==> c == d
  {
  }

  // Only a later backend could change what infrastructure points at, and it comes first.
  lemma DependenciesStay(c: Component, now: Component, artifact: Artifact, components: Components)
    requires Rank(c) <= Rank(now)
    ensures DependenciesOf(c, components[now := artifact]) == DependenciesOf(c, components)
  {
  }

  // The loop over the components; none stands for a raised error.
  method BuildManifest(rules: Rules, storage: Storage, revision: string, listing: seq<(Path, Entry)>,
                       wanted: set<Component>, previous: Option<Manifest>, recipe: string,
                       repositories: map<Component, string>)
    returns (result: Option<Manifest>)
    requires DistinctPaths(listing)
    modifies storage
    ensures storage.locks == old(storage.locks)
    ensures forall r | r in old(storage.receipts) ::
              r in storage.receipts && storage.receipts[r] == old(storage.receipts)[r]
    ensures result.Some? ==>
              var before := if previous.Some? then previous.value.components else map[];
              && result.value.revision == revision
              && Releases(rules, TreeOf(listing), Selected(wanted), before, result.value.components)
              && (forall c | c in Selected(wanted) ::
                    var artifact := result.value.components[c];
                    var repository := if c in repositories then repositories[c] else "";
                    var key := Recipe(c, artifact.inputs, recipe, artifact.dependencies, repository);
                    key in storage.receipts && storage.receipts[key] == artifact && artifact.recipe == recipe)
  {
    var selected := Selected(wanted);
    var components := Kept(previous);
    for k := 0 to |COMPONENTS|
      invariant storage.locks == old(storage.locks)
      invariant forall r | r in old(storage.receipts) ::
                  r in storage.receipts && storage.receipts[r] == old(storage.receipts)[r]
      invariant Done(rules, TreeOf(listing), selected, Kept(previous), components, k)
      invariant AllReceipted(storage.receipts, selected, k, components, recipe, repositories)
    {
      var c := COMPONENTS[k];
      if c !in selected {
        DoneSkip(rules, TreeOf(listing), selected, Kept(previous), components, k);
        ReceiptedSkip(storage.receipts, selected, k, components, recipe, repositories);
        if c in components {
          var verified := Verifies(components[c]);
          if !verified {
            return None;
          }
        }
      } else {
        var inputs := ComputeHash(rules, c, listing);
        var dependencies := DependenciesOf(c, components);
        var key := Recipe(c, inputs, recipe, dependencies, RepositoryOf(repositories, c));
        ghost var receipts := storage.receipts;
        var artifact: Option<Artifact> := None;
        if key in storage.receipts {
          var cached := storage.receipts[key];
          var verified := Verifies(cached);
          if cached.inputs != inputs || cached.recipe != recipe || cached.dependencies != dependencies || !verified {
            return None;
          }
          artifact := Some(cached);
        } else {
          artifact := Build(storage, key, components);
          if artifact.None? {
            return None;
          }
        }
        DoneNext(rules, TreeOf(listing), selected, Kept(previous), components, k, artifact.value);
        ReceiptedNext(receipts, storage.receipts, selected, k, components, recipe, repositories, artifact.value);
        components := components[c := artifact.value];
      }
    }
    AllDone(rules, TreeOf(listing), selected, Kept(previous), components);
    forall c | c in selected
      ensures c in components && Receipted(storage.receipts, c, components[c], recipe, RepositoryOf(repositories, c))
    {
      RankIsPlace(c);
    }
    result := Some(Manifest(revision, components));
  }

  lemma DoneSkip(rules: Rules, tree: Tree, selected: set<Component>, before: Components, after: Components, k: nat)
    requires k < |COMPONENTS| && Done(rules, tree, selected, before, after, k) && COMPONENTS[k] !in selected
    ensures Done(rules, tree, selected, before, after, k + 1)
  {
    forall c | c in selected && Rank(c) < k + 1 ensures Rank(c) < k {
      RankIsPlace(c);
    }
  }

  lemma AllDone(rules: Rules, tree: Tree, selected: set<Component>, before: Components, after: Components)
    requires Done(rules, tree, selected, before, after, |COMPONENTS|)
    ensures Releases(rules, tree, selected, before, after)
  {
  }

  function Kept(previous: Option<Manifest>): Components {
    if previous.None? then map[] else previous.value.components
  }

  // A new backend needs infrastructure packaged with its reference.
  function Selected(wanted: set<Component>): set<Component> {
    if Backend in wanted then wanted + {Infrastructure} else wanted
  }

  // dependency_closure: infrastructure is packaged with a backend and a database.
  function Closure(selected: set<Component>, previous: Option<Manifest>): set<Component> {
    if Backend in selected || Infrastructure in selected then
      selected + {Infrastructure} + ({Backend, Database} - Kept(previous).Keys)
    else selected
  }

  // A release that touches backend or infrastructure carries all three, whatever was there.
  lemma ClosureIsComplete(rules: Rules, tree: Tree, wanted: set<Component>, previous: Option<Manifest>,
                          after: Components)
    requires Backend in wanted || Infrastructure in wanted
    requires Releases(rules, tree, Selected(Closure(wanted, previous)), Kept(previous), after)
    ensures Backend in after && Database in after && Infrastructure in after
    ensures after[Infrastructure].dependencies == OnBackend(Some(after[Backend].identity))
  {
    assert Infrastructure in Selected(Closure(wanted, previous));
    assert Backend in Kept(previous).Keys + Selected(Closure(wanted, previous));
    assert Database in Kept(previous).Keys + Selected(Closure(wanted, previous));
  }

  // And no more is selected than that takes: the closure is the least selection with
  // infrastructure, and a backend and a database where none is at hand.
  predicate Complete(selected: set<Component>, available: set<Component>) {
    Backend in selected || Infrastructure in selected ==>
      && Infrastructure in selected
      && Backend in selected + available && Database in selected + available
  }

  lemma ClosureIsLeast(selected: set<Component>, previous: Option<Manifest>, other: set<Component>)
    ensures selected <= Closure(selected, previous)
    ensures Complete(Closure(selected, previous), Kept(previous).Keys)
    ensures selected <= other && Complete(other, Kept(previous).Keys) ==> Closure(selected, previous) <= other
  {
  }

  // A new backend takes infrastructure with it, and nothing else is added.
  lemma SelectedIsLeast(wanted: set<Component>, other: set<Component>)
    ensures wanted <= Selected(wanted) && (Backend in Selected(wanted) ==> Infrastructure in Selected(wanted))
    ensures wanted <= other && (Backend in other ==> Infrastructure in other) ==> Selected(wanted) <= other
  {
  }

  /******* Chains of releases *******/

  // Infrastructure points at the backend of the same manifest, and every artifact was
  // built from inputs that the manifest's own revision still has.
  ghost predicate Consistent(rules: Rules, tree: Tree, m: Manifest) {
    && (Infrastructure in m.components ==>
          m.components[Infrastructure].dependencies == OnBackend(BackendOf(m.components)))
    && (forall c | c in m.components :: m.components[c].inputs == HashOf(rules, c, tree))
  }

  function BaselineOf(m: Manifest): Baseline {
    Baseline(m.revision, map c | c in m.components :: m.components[c].inputs)
  }

  // One release: planned from the diff against the previous manifest, with components
  // enrolled by hand, or started from an explicit list.
  datatype Release = Release(manifest: Manifest, tree: Tree, changes: seq<Change>, enrolled: set<Component>)

  ghost predicate Initial(rules: Rules, r: Release) {
    Releases(rules, r.tree, Selected(Closure(r.enrolled, None)), map[], r.manifest.components)
  }

  ghost predicate Follows(rules: Rules, before: Release, r: Release) {
    exists plan: Plan ::
      && Planned(rules, r.changes, before.tree, r.tree, Some(BaselineOf(before.manifest)), plan)
      && Releases(rules, r.tree, Selected(Closure(plan.build + r.enrolled, Some(before.manifest))),
                  before.manifest.components, r.manifest.components)
  }

  ghost predicate Chain(rules: Rules, releases: seq<Release>) {
    && releases != []
    && Initial(rules, releases[0])
    && (forall i | 0 < i < |releases| ::
          && Covers(releases[i].changes, releases[i - 1].tree, releases[i].tree)
          && Follows(rules, releases[i - 1], releases[i]))
  }

  lemma InitialConsistent(rules: Rules, r: Release)
    requires Initial(rules, r)
    ensures Consistent(rules, r.tree, r.manifest)
  {
  }

  // A component is either built from this tree, or its inputs are as they were.
  lemma InputsFollow(rules: Rules, before: Release, r: Release, plan: Plan, selected: set<Component>, c: Component)
    requires ReadsEmpty(rules) && Consistent(rules, before.tree, before.manifest)
    requires Covers(r.changes, before.tree, r.tree) && plan.build <= selected
    requires Planned(rules, r.changes, before.tree, r.tree, Some(BaselineOf(before.manifest)), plan)
    requires Releases(rules, r.tree, selected, before.manifest.components, r.manifest.components)
    requires c in r.manifest.components
    ensures r.manifest.components[c].inputs == HashOf(rules, c, r.tree)
  {
    if c !in selected {
      assert c !in plan.build && !Affected(rules, r.changes, before.tree, r.tree, c);
      UnaffectedKeepsHash(rules, r.changes, before.tree, r.tree, c);
    }
  }

  // Infrastructure is built again whenever the backend is.
  lemma InfrastructureFollows(rules: Rules, before: Release, r: Release, selected: set<Component>)
    requires Consistent(rules, before.tree, before.manifest)
    requires Releases(rules, r.tree, selected, before.manifest.components, r.manifest.components)
    requires Backend in selected ==> Infrastructure in selected
    ensures var after := r.manifest.components;
            Infrastructure in after ==> after[Infrastructure].dependencies == OnBackend(BackendOf(after))
  {
  }

  lemma FollowsConsistent(rules: Rules, before: Release, r: Release)
    requires ReadsEmpty(rules) && Consistent(rules, before.tree, before.manifest)
    requires Covers(r.changes, before.tree, r.tree) && Follows(rules, before, r)
    ensures Consistent(rules, r.tree, r.manifest)
  {
    var plan: Plan :|
      && Planned(rules, r.changes, before.tree, r.tree, Some(BaselineOf(before.manifest)), plan)
      && Releases(rules, r.tree, Selected(Closure(plan.build + r.enrolled, Some(before.manifest))),
                  before.manifest.components, r.manifest.components);
    var selected := Selected(Closure(plan.build + r.enrolled, Some(before.manifest)));
    forall c | c in r.manifest.components ensures r.manifest.components[c].inputs == HashOf(rules, c, r.tree) {
      InputsFollow(rules, before, r, plan, selected, c);
    }
    InfrastructureFollows(rules, before, r, selected);
  }

  // Every component of the previous manifest is either built again or reused.
  lemma NextReuses(rules: Rules, before: Release, r: Release, plan: Plan, c: Component)
    requires ReadsEmpty(rules) && Consistent(rules, before.tree, before.manifest)
    requires Covers(r.changes, before.tree, r.tree)
    requires Planned(rules, r.changes, before.tree, r.tree, Some(BaselineOf(before.manifest)), plan)
    requires c in before.manifest.components
    ensures (c in plan.build) != (c in plan.reuse)
  {
    var baseline := BaselineOf(before.manifest);
    assert c in baseline.hashes && baseline.hashes[c] == HashOf(rules, c, before.tree);
    BuildOrReuse(rules, r.changes, before.tree, r.tree, Some(baseline), plan, c);
  }

  // Over every chain of releases every manifest is consistent.
  lemma {:induction false} ChainConsistent(rules: Rules, releases: seq<Release>, i: nat)
    requires ReadsEmpty(rules) && Chain(rules, releases) && i < |releases|
    ensures Consistent(rules, releases[i].tree, releases[i].manifest)
  {
    if i == 0 {
      InitialConsistent(rules, releases[0]);
    } else {
      ChainConsistent(rules, releases, i - 1);
      FollowsConsistent(rules, releases[i - 1], releases[i]);
    }
  }
}
