// The read-only release planner: which components a change of the tree rebuilds, and why
// the diff gives the same answer as hashing the tree.
module ReleasePlanning {
  import opened Options

  type Path = string

  datatype Component =
    | Frontend | Backend | Infrastructure | Database | ClusterConnector
    | MigrationConnector | TerraformRunner | ImageWorker | ToolsGateway

  // In the order of the planner's list.
  const COMPONENTS := [Frontend, Backend, Infrastructure, Database, ClusterConnector,
                       MigrationConnector, TerraformRunner, ImageWorker, ToolsGateway]

  type Content = string

  // A line of git ls-tree: what the metadata identifies.
  datatype Entry = Entry(mode: string, content: Content)

  type Tree = map<Path, Entry>

  /******* Classification *******/

  predicate EndsWith(path: Path, suffix: string) {
    |suffix| <= |path| && path[|path| - |suffix|..] == suffix
  }

  predicate Documentation(path: Path) {
    || path in {"AGENTS.md", "README.md", "LICENSE", ".gitignore", "frontend/README.md", "design-qa.md"}
    || EndsWith(path, "/AGENTS.md")
    || "docs/" <= path
  }

  predicate FrontendChecks(path: Path) {
    "frontend/tests/" <= path || "frontend/scripts/check-" <= path
  }

  // The artifact owners of a path; none when no rule knows it.
  function Classify(path: Path): Option<set<Component>> {
    if Documentation(path) || FrontendChecks(path) then Some({})
    else if "frontend/" <= path then Some({Frontend})
    else if "tests/" <= path then Some({})
    else if "database/" <= path || path == "scripts/migrate.py" then Some({Database})
    else if path == "pyproject.toml" then Some({Backend})
    else if "src/" <= path then Some({Backend, ImageWorker})
    else if "platform/system-repo-template/" <= path then Some({Backend})
    else if "provisioning/runner/" <= path || "terraform/modules/aws-eks/" <= path then Some({TerraformRunner})
    else if "connector/" <= path then Some({ClusterConnector})
    else if "migration_connector/" <= path then Some({MigrationConnector})
    else if "workspace_image_worker/" <= path then Some({ImageWorker})
    else if "tools-gateway/" <= path then Some({ToolsGateway})
    else if "infrastructure/" <= path || path == "samconfig.toml" then Some({Infrastructure})
    else if "scripts/" <= path || ".github/workflows/" <= path then Some({})
    else None
  }

  function Owners(path: Path): set<Component> {
    if Classify(path).Some? then Classify(path).value else {}
  }

  predicate IsTemplate(path: Path) {
    "infrastructure/" <= path && (EndsWith(path, ".yaml") || EndsWith(path, ".yml"))
  }

  // database/migrations/NUMBER_NAME.sql
  predicate MigrationName(path: Path) {
    && |"database/migrations/"| < |path| && "database/migrations/" <= path && EndsWith(path, ".sql")
    && var name := path[|"database/migrations/"|..];
       |name| > 4 && exists k | 1 <= k < |name| - 5 ::
         && name[k] == '_'
         && (forall i | 0 <= i < k :: '0' <= name[i] <= '9')
         && (forall i | k < i < |name| - 4 ::
               || 'A' <= name[i] <= 'Z' || 'a' <= name[i] <= 'z' || '0' <= name[i] <= '9'
               || name[i] == '_' || name[i] == '-')
  }

  // An unknown path, a migration that is not a new file, or a change of file type.
  predicate PathNeedsReview(status: string, path: Path) {
    || Classify(path).None?
    || ("database/migrations/" <= path && (status == "" || status[0] != 'A' || !MigrationName(path)))
    || (status != "" && status[0] == 'T')
  }

  // template_build_contract of a file: whether it names globals or functions, and its text.
  datatype Contract = Contract(relevant: bool, text: string)

  // What decides the inputs of a component; the YAML reader is a function of content.
  datatype Rules = Rules(
    owners: Path -> set<Component>,
    template: Path -> bool,
    contracts: Content -> Contract,
    review: (string, Path) -> bool)

  // The planner's own rules around some YAML reader.
  function PlannerRules(contracts: Content -> Contract): Rules {
    Rules(Owners, IsTemplate, contracts, PathNeedsReview)
  }

  // An absent file reads as empty, and an empty file has no build contract.
  predicate ReadsEmpty(rules: Rules) {
    !rules.contracts("").relevant
  }

  /******* The tree hash *******/

  // The lines input_hash sorts, joins and hashes; equal hashes stand for equal sets.
  datatype Line = FileLine(path: Path, entry: Entry) | ContractLine(path: Path, contract: Contract)

  type InputHash = set<Line>

  function FileLines(rules: Rules, c: Component, tree: Tree): InputHash {
    set p | p in tree && c in rules.owners(p) :: FileLine(p, tree[p])
  }

  function ContractLines(rules: Rules, tree: Tree): InputHash {
    set p | p in tree && rules.template(p) && rules.contracts(tree[p].content).relevant ::
      ContractLine(p, rules.contracts(tree[p].content))
  }

  function HashOf(rules: Rules, c: Component, tree: Tree): InputHash {
    FileLines(rules, c, tree) + if c == Backend then ContractLines(rules, tree) else {}
  }

  function TreeOf(listing: seq<(Path, Entry)>): Tree {
    if listing == [] then map[]
    else TreeOf(listing[..|listing| - 1])[listing[|listing| - 1].0 := listing[|listing| - 1].1]
  }

  predicate DistinctPaths(listing: seq<(Path, Entry)>) {
    forall i, j | 0 <= i < j < |listing| :: listing[i].0 != listing[j].0
  }

  lemma {:induction false} ListedPaths(listing: seq<(Path, Entry)>, p: Path)
    requires forall i | 0 <= i < |listing| :: listing[i].0 != p
    ensures p !in TreeOf(listing)
  {
    if listing != [] { ListedPaths(listing[..|listing| - 1], p); }
  }

  lemma HashGrows(rules: Rules, c: Component, tree: Tree, p: Path, entry: Entry)
    requires p !in tree
    ensures FileLines(rules, c, tree[p := entry])
         == FileLines(rules, c, tree) + if c in rules.owners(p) then {FileLine(p, entry)} else {}
    ensures ContractLines(rules, tree[p := entry])
         == ContractLines(rules, tree)
            + if rules.template(p) && rules.contracts(entry.content).relevant
              then {ContractLine(p, rules.contracts(entry.content))} else {}
  {
    var after := tree[p := entry];
    assert forall q | q in tree :: q in after && after[q] == tree[q];
  }

  // The lines of one file.
  function LinesOf(rules: Rules, c: Component, p: Path, entry: Entry): InputHash {
    (if c in rules.owners(p) then {FileLine(p, entry)} else {})
    + if c == Backend && rules.template(p) && rules.contracts(entry.content).relevant
      then {ContractLine(p, rules.contracts(entry.content))} else {}
  }

  // The hash of the first files of a listing.
  function HashUpTo(rules: Rules, c: Component, listing: seq<(Path, Entry)>, i: nat): InputHash
    requires i <= |listing|
  {
    HashOf(rules, c, TreeOf(listing[..i]))
  }

  lemma HashNext(rules: Rules, c: Component, listing: seq<(Path, Entry)>, i: nat)
    requires DistinctPaths(listing) && i < |listing|
    ensures HashUpTo(rules, c, listing, i + 1)
         == HashUpTo(rules, c, listing, i) + LinesOf(rules, c, listing[i].0, listing[i].1)
  {
    assert listing[..i + 1][..i] == listing[..i];
    ListedPaths(listing[..i], listing[i].0);
    HashGrows(rules, c, TreeOf(listing[..i]), listing[i].0, listing[i].1);
  }

  // The lines input_hash selects for one file.
  method SelectLines(rules: Rules, c: Component, p: Path, entry: Entry) returns (lines: InputHash)
    ensures lines == LinesOf(rules, c, p, entry)
  {
    lines := {};
    if c in rules.owners(p) {
      lines := lines + {FileLine(p, entry)};
    }
    if c == Backend && rules.template(p) && rules.contracts(entry.content).relevant {
      lines := lines + {ContractLine(p, rules.contracts(entry.content))};
    }
  }

  // input_hash: one pass over the listing of a revision.
  method ComputeHash(rules: Rules, c: Component, listing: seq<(Path, Entry)>) returns (selected: InputHash)
    requires DistinctPaths(listing)
    ensures selected == HashOf(rules, c, TreeOf(listing))
  {
    selected := {};
    assert listing[..0] == [];
    for i := 0 to |listing|
      invariant selected == HashUpTo(rules, c, listing, i)
    {
      HashNext(rules, c, listing, i);
      var lines := SelectLines(rules, c, listing[i].0, listing[i].1);
      selected := selected + lines;
    }
    assert listing[..|listing|] == listing;
  }

  /******* Change records *******/

  datatype Change = Change(status: string, paths: seq<Path>)

  predicate SafePath(path: Path) {
    !("/" <= path) && '\\' !in path && ".." !in Parts(path)
  }

  function Parts(path: Path): (r: seq<string>)
    ensures r != []
  {
    if path == "" then [""]
    else
      var rest := Parts(path[1..]);
      if path[0] == '/' then [""] + rest else [[path[0]] + rest[0]] + rest[1..]
  }

  function PathCount(status: string): nat
    requires status != ""
  {
    if status[0] in "RC" then 2 else 1
  }

  predicate ChangeOk(c: Change) {
    && c.status != "" && c.status[0] in "AMDRCT"
    && |c.paths| == PathCount(c.status)
    && forall i | 0 <= i < |c.paths| :: SafePath(c.paths[i])
  }

  // The NUL-separated fields of git diff --name-status -z.
  function Fields(changes: seq<Change>): seq<string> {
    if changes == [] then [] else [changes[0].status] + changes[0].paths + Fields(changes[1..])
  }

  // The records of a field list: they start it, and an empty field or its end follows.
  predicate Records(fields: seq<string>, changes: seq<Change>) {
    && (forall i | 0 <= i < |changes| :: ChangeOk(changes[i]))
    && Fields(changes) <= fields
    && (changes != [] ==> |Fields(changes)| < |fields|)
    && (|Fields(changes)| < |fields| ==> fields[|Fields(changes)|] == "")
  }

  // The record that starts a field list.
  function First(fields: seq<string>): Option<Change>
    requires fields != [] && fields[0] != ""
  {
    var n := 1 + PathCount(fields[0]);
    if n > |fields| - 1 || !ChangeOk(Change(fields[0], fields[1..n])) then None
    else Some(Change(fields[0], fields[1..n]))
  }

  function Decode(fields: seq<string>): Option<seq<Change>> {
    if fields == [] || fields[0] == "" then Some([])
    else if First(fields).None? then None
    else Behind([First(fields).value], Decode(fields[1 + PathCount(fields[0])..]))
  }

  function Behind(changes: seq<Change>, rest: Option<seq<Change>>): Option<seq<Change>> {
    if rest.None? then None else Some(changes + rest.value)
  }

  // The loop of changes(); none stands for a refused record.
  method ParseChanges(fields: seq<string>) returns (result: Option<seq<Change>>)
    ensures result == Decode(fields)
  {
    var changes: seq<Change> := [];
    var index := 0;
    BehindNothing(Decode(fields));
    assert fields[0..] == fields;
    while index < |fields| && fields[index] != ""
      invariant index <= |fields|
      invariant Behind(changes, Decode(fields[index..])) == Decode(fields)
      decreases |fields| - index
    {
      DecodeAt(fields, changes, index);
      var change := ParseRecord(fields, index);
      if change.None? {
        return None;
      }
      changes := changes + [change.value];
      index := index + 1 + |change.value.paths|;
    }
    assert changes + [] == changes;
    result := Some(changes);
  }

  // One record: a status and one or two paths.
  method ParseRecord(fields: seq<string>, index: nat) returns (change: Option<Change>)
    requires index < |fields| && fields[index] != ""
    ensures change == First(fields[index..])
    ensures change.Some? ==> index + 1 + |change.value.paths| <= |fields|
  {
    var status := fields[index];
    var count := PathCount(status);
    if index + 1 + count > |fields| - 1 {
      return None;
    }
    var paths := fields[index + 1..index + 1 + count];
    assert paths == fields[index..][1..1 + count];
    if status[0] !in "AMDRCT" || exists i | 0 <= i < |paths| :: !SafePath(paths[i]) {
      return None;
    }
    change := Some(Change(status, paths));
  }

  lemma BehindNothing(rest: Option<seq<Change>>)
    ensures Behind([], rest) == rest
  {
    if rest.Some? {
      assert [] + rest.value == rest.value;
    }
  }

  lemma BehindOne(changes: seq<Change>, change: Change, rest: Option<seq<Change>>)
    ensures Behind(changes, Behind([change], rest)) == Behind(changes + [change], rest)
  {
    if rest.Some? {
      assert changes + ([change] + rest.value) == (changes + [change]) + rest.value;
    }
  }

  lemma DecodeAt(fields: seq<string>, changes: seq<Change>, index: nat)
    requires index < |fields| && fields[index] != ""
    ensures var first := First(fields[index..]);
            Behind(changes, Decode(fields[index..]))
            == if first.None? || index + 1 + |first.value.paths| > |fields| then None
               else Behind(changes + [first.value], Decode(fields[index + 1 + |first.value.paths|..]))
  {
    var rest := fields[index..];
    if First(rest).Some? {
      var change := First(rest).value;
      var n := 1 + |change.paths|;
      assert rest[n..] == fields[index + n..];
      BehindOne(changes, change, Decode(rest[n..]));
    }
  }

  // Round trip: written records read back, whatever follows the closing empty field.
  lemma {:induction false} WrittenReadBack(fields: seq<string>, changes: seq<Change>)
    requires Records(fields, changes)
    ensures Decode(fields) == Some(changes)
    decreases |changes|
  {
    if changes != [] {
      var c := changes[0];
      var n := 1 + |c.paths|;
      assert ChangeOk(c) && fields[0] == c.status && fields[1..n] == c.paths;
      assert Fields(changes)[n..] == Fields(changes[1..]);
      WrittenReadBack(fields[n..], changes[1..]);
      assert Some(c) == First(fields);
      assert changes == [c] + changes[1..];
    }
  }

  // And nothing else is read.
  lemma {:induction false} ReadIsWritten(fields: seq<string>)
    requires Decode(fields).Some?
    ensures Records(fields, Decode(fields).value)
  {
    if fields != [] && fields[0] != "" {
      var c := First(fields).value;
      FirstThenRest(fields);
      ReadIsWritten(fields[1 + |c.paths|..]);
      RecordsBehind(c, fields[1 + |c.paths|..], Decode(fields[1 + |c.paths|..]).value);
    }
  }

  lemma FirstThenRest(fields: seq<string>)
    requires fields != [] && fields[0] != "" && First(fields).Some?
    ensures var c := First(fields).value;
            ChangeOk(c) && 1 + |c.paths| < |fields| && fields == [c.status] + c.paths + fields[1 + |c.paths|..]
  {
  }

  lemma RecordsBehind(c: Change, fields: seq<string>, changes: seq<Change>)
    requires ChangeOk(c) && fields != [] && Records(fields, changes)
    ensures Records([c.status] + c.paths + fields, [c] + changes)
  {
    var all, front := [c] + changes, [c.status] + c.paths;
    assert all[1..] == changes;
    assert Fields(all) == front + Fields(changes);
    FieldAt(front, fields, |Fields(changes)|);
  }

  lemma FieldAt(front: seq<string>, fields: seq<string>, k: nat)
    ensures k <= |fields| ==> (front + fields)[..|front| + k] == front + fields[..k]
    ensures k < |fields| ==> (front + fields)[|front| + k] == fields[k]
  {
  }

  /******* The build plan *******/

  // What the planner reads of an earlier manifest.
  datatype Baseline = Baseline(revision: string, hashes: map<Component, InputHash>)

  datatype Plan = Plan(build: set<Component>, reuse: set<Component>, hashes: map<Component, InputHash>, review: bool)

  // git show of one path; empty when it is not in the tree.
  function Blob(tree: Tree, path: Path): Content {
    if path in tree then tree[path].content else ""
  }

  predicate ContractMoves(rules: Rules, base: Tree, head: Tree, path: Path) {
    rules.template(path) && rules.contracts(Blob(base, path)) != rules.contracts(Blob(head, path))
  }

  predicate Touched(changes: seq<Change>, path: Path) {
    exists i | 0 <= i < |changes| :: path in changes[i].paths
  }

  // The components a diff affects.
  predicate Affected(rules: Rules, changes: seq<Change>, base: Tree, head: Tree, c: Component) {
    exists i | 0 <= i < |changes| :: AffectedBy(rules, changes[i].paths, base, head, c)
  }

  predicate AffectedBy(rules: Rules, paths: seq<Path>, base: Tree, head: Tree, c: Component) {
    exists j | 0 <= j < |paths| :: Affects(rules, base, head, paths[j], c)
  }

  predicate Affects(rules: Rules, base: Tree, head: Tree, path: Path, c: Component) {
    c in rules.owners(path) || (c == Backend && ContractMoves(rules, base, head, path))
  }

  // Diff-based choice agrees with the tree hash: when the records cover every differing
  // entry, a component that is not affected has the same hash on both sides.
  lemma UnaffectedKeepsHash(rules: Rules, changes: seq<Change>, base: Tree, head: Tree, c: Component)
    requires ReadsEmpty(rules) && Covers(changes, base, head) && !Affected(rules, changes, base, head, c)
    ensures HashOf(rules, c, base) == HashOf(rules, c, head)
  {
    forall p | c in rules.owners(p) ensures SameEntry(base, head, p) {
      if Touched(changes, p) {
        TouchedAffects(rules, changes, base, head, c, p);
      }
    }
    SameFileLines(rules, c, base, head);
    if c == Backend {
      forall p | rules.template(p) ensures rules.contracts(Blob(base, p)) == rules.contracts(Blob(head, p)) {
        if Touched(changes, p) {
          TouchedAffects(rules, changes, base, head, c, p);
        }
      }
      SameContractLines(rules, base, head);
    }
  }

  // And the hash tells any such difference: it is the same exactly when every owned file
  // is, and for the backend the relevant build contracts of all templates.
  lemma HashSameIff(rules: Rules, base: Tree, head: Tree, c: Component)
    ensures HashOf(rules, c, base) == HashOf(rules, c, head) <==>
            && (forall p | c in rules.owners(p) :: SameEntry(base, head, p))
            && (c == Backend ==>
                  forall p | rules.template(p) :: RelevantContract(rules, base, p) == RelevantContract(rules, head, p))
  {
    if HashOf(rules, c, base) == HashOf(rules, c, head) {
      forall p | c in rules.owners(p) ensures SameEntry(base, head, p) {
        HashedAlike(rules, c, base, head, p);
      }
      if c == Backend {
        forall p | rules.template(p) ensures RelevantContract(rules, base, p) == RelevantContract(rules, head, p) {
          ContractAlike(rules, base, head, p);
        }
      }
    } else if forall p | c in rules.owners(p) :: SameEntry(base, head, p) {
      SameFileLines(rules, c, base, head);
      if c == Backend
         && forall p | rules.template(p) :: RelevantContract(rules, base, p) == RelevantContract(rules, head, p)
      {
        SameRelevantLines(rules, base, head);
      }
    }
  }

  // The build contract of a template in a tree, if it names globals or functions.
  function RelevantContract(rules: Rules, tree: Tree, p: Path): Option<Contract> {
    if p in tree && rules.contracts(tree[p].content).relevant then Some(rules.contracts(tree[p].content)) else None
  }

  lemma HashedEntry(rules: Rules, c: Component, tree: Tree, p: Path)
    requires c in rules.owners(p)
    ensures forall entry :: FileLine(p, entry) in HashOf(rules, c, tree) <==> p in tree && tree[p] == entry
  {
  }

  lemma HashedContract(rules: Rules, tree: Tree, p: Path)
    requires rules.template(p)
    ensures forall contract :: ContractLine(p, contract) in HashOf(rules, Backend, tree) <==>
              RelevantContract(rules, tree, p) == Some(contract)
  {
  }

  lemma HashedAlike(rules: Rules, c: Component, base: Tree, head: Tree, p: Path)
    requires c in rules.owners(p) && HashOf(rules, c, base) == HashOf(rules, c, head)
    ensures SameEntry(base, head, p)
  {
    HashedEntry(rules, c, base, p);
    HashedEntry(rules, c, head, p);
    assert p in base ==> FileLine(p, base[p]) in HashOf(rules, c, base);
    assert p in head ==> FileLine(p, head[p]) in HashOf(rules, c, head);
  }

  lemma ContractAlike(rules: Rules, base: Tree, head: Tree, p: Path)
    requires rules.template(p) && HashOf(rules, Backend, base) == HashOf(rules, Backend, head)
    ensures RelevantContract(rules, base, p) == RelevantContract(rules, head, p)
  {
    HashedContract(rules, base, p);
    HashedContract(rules, head, p);
    var was, now := RelevantContract(rules, base, p), RelevantContract(rules, head, p);
    assert was.Some? ==> ContractLine(p, was.value) in HashOf(rules, Backend, base);
    assert now.Some? ==> ContractLine(p, now.value) in HashOf(rules, Backend, head);
  }

  lemma SameRelevantLines(rules: Rules, base: Tree, head: Tree)
    requires forall p | rules.template(p) :: RelevantContract(rules, base, p) == RelevantContract(rules, head, p)
    ensures ContractLines(rules, base) == ContractLines(rules, head)
  {
    forall line ensures line in ContractLines(rules, base) <==> line in ContractLines(rules, head) {
      var p := line.path;
      assert rules.template(p) ==> RelevantContract(rules, base, p) == RelevantContract(rules, head, p);
    }
  }

  predicate SameEntry(base: Tree, head: Tree, path: Path) {
    (path in base <==> path in head) && (path in base && path in head ==> base[path] == head[path])
  }

  // The diff names every path whose entries differ.
  ghost predicate Covers(changes: seq<Change>, base: Tree, head: Tree) {
    forall p: Path :: Touched(changes, p) || SameEntry(base, head, p)
  }

  lemma TouchedAffects(rules: Rules, changes: seq<Change>, base: Tree, head: Tree, c: Component, p: Path)
    requires Touched(changes, p) && !Affected(rules, changes, base, head, c)
    ensures !Affects(rules, base, head, p, c)
  {
    var i :| 0 <= i < |changes| && p in changes[i].paths;
    var j :| 0 <= j < |changes[i].paths| && changes[i].paths[j] == p;
    assert !AffectedBy(rules, changes[i].paths, base, head, c);
    assert !Affects(rules, base, head, changes[i].paths[j], c);
  }

  lemma SameFileLines(rules: Rules, c: Component, base: Tree, head: Tree)
    requires forall p | c in rules.owners(p) :: SameEntry(base, head, p)
    ensures FileLines(rules, c, base) == FileLines(rules, c, head)
  {
    forall line ensures line in FileLines(rules, c, base) <==> line in FileLines(rules, c, head) {
      assert c in rules.owners(line.path) ==> SameEntry(base, head, line.path);
    }
  }

  lemma SameContractLines(rules: Rules, base: Tree, head: Tree)
    requires ReadsEmpty(rules)
    requires forall p | rules.template(p) :: rules.contracts(Blob(base, p)) == rules.contracts(Blob(head, p))
    ensures ContractLines(rules, base) == ContractLines(rules, head)
  {
    forall line ensures line in ContractLines(rules, base) <==> line in ContractLines(rules, head) {
      var p := line.path;
      assert rules.template(p) ==> rules.contracts(Blob(base, p)) == rules.contracts(Blob(head, p));
    }
  }

  // The paths of one record.
  method RecordOwners(rules: Rules, change: Change, base: Tree, head: Tree)
    returns (owners: set<Component>, review: bool)
    requires ChangeOk(change)
    ensures forall c :: c in owners <==> AffectedBy(rules, change.paths, base, head, c)
    ensures review <==> RecordNeedsReview(rules, change)
  {
    owners, review := {}, false;
    for j := 0 to |change.paths|
      invariant forall c :: c in owners <==> exists i | 0 <= i < j :: Affects(rules, base, head, change.paths[i], c)
      invariant review <==> exists i | 0 <= i < j :: rules.review(change.status, change.paths[i])
    {
      var path := change.paths[j];
      owners := owners + rules.owners(path);
      if ContractMoves(rules, base, head, path) {
        owners := owners + {Backend};
      }
      review := review || rules.review(change.status, path);
    }
  }

  predicate Any(holds: Change -> bool, changes: seq<Change>) {
    exists i | 0 <= i < |changes| :: holds(changes[i])
  }

  // Some of the first k records, or one more.
  lemma AnyNext(holds: Change -> bool, changes: seq<Change>, k: nat)
    requires k < |changes|
    ensures Any(holds, changes[..k + 1]) <==> Any(holds, changes[..k]) || holds(changes[k])
  {
    var more := changes[..k + 1];
    assert more[k] == changes[k];
    if i :| 0 <= i < |more| && holds(more[i]) {
      assert i == k || more[i] == changes[..k][i];
    }
    if i :| 0 <= i < k && holds(changes[..k][i]) {
      assert more[i] == changes[..k][i];
    }
  }

  // Whether a record affects a component, or needs a review.
  function Hits(rules: Rules, base: Tree, head: Tree, c: Component): Change -> bool {
    (change: Change) => AffectedBy(rules, change.paths, base, head, c)
  }

  function Unclear(rules: Rules): Change -> bool {
    (change: Change) => RecordNeedsReview(rules, change)
  }

  lemma AffectedIsAny(rules: Rules, changes: seq<Change>, base: Tree, head: Tree, c: Component)
    ensures Affected(rules, changes, base, head, c) <==> Any(Hits(rules, base, head, c), changes)
  {
    if i :| 0 <= i < |changes| && AffectedBy(rules, changes[i].paths, base, head, c) {
      assert Hits(rules, base, head, c)(changes[i]);
    }
  }

  lemma ReviewIsAny(rules: Rules, changes: seq<Change>)
    ensures NeedsReview(rules, changes) <==> Any(Unclear(rules), changes)
  {
    if i :| 0 <= i < |changes| && RecordNeedsReview(rules, changes[i]) {
      assert Unclear(rules)(changes[i]);
    }
  }

  method FindOwners(rules: Rules, changes: seq<Change>, base: Tree, head: Tree)
    returns (owners: set<Component>, review: bool)
    requires forall i | 0 <= i < |changes| :: ChangeOk(changes[i])
    ensures forall c :: c in owners <==> Affected(rules, changes, base, head, c)
    ensures review <==> NeedsReview(rules, changes)
  {
    owners, review := {}, false;
    for k := 0 to |changes|
      invariant forall c :: c in owners <==> Any(Hits(rules, base, head, c), changes[..k])
      invariant review <==> Any(Unclear(rules), changes[..k])
    {
      var more, unclear := RecordOwners(rules, changes[k], base, head);
      forall c ensures c in owners + more <==> Any(Hits(rules, base, head, c), changes[..k + 1]) {
        AnyNext(Hits(rules, base, head, c), changes, k);
      }
      AnyNext(Unclear(rules), changes, k);
      owners, review := owners + more, review || unclear;
    }
    assert changes[..|changes|] == changes;
    forall c ensures c in owners <==> Affected(rules, changes, base, head, c) {
      AffectedIsAny(rules, changes, base, head, c);
    }
    ReviewIsAny(rules, changes);
  }

  // build_plan; none when the manifest is of another revision than the baseline.
  method BuildPlan(rules: Rules, changes: seq<Change>, baseRevision: string, base: Tree,
                   listing: seq<(Path, Entry)>, previous: Option<Baseline>)
    returns (plan: Option<Plan>)
    requires DistinctPaths(listing) && forall i | 0 <= i < |changes| :: ChangeOk(changes[i])
    ensures plan.None? <==> previous.Some? && previous.value.revision != baseRevision
    ensures plan.Some? ==> Planned(rules, changes, base, TreeOf(listing), previous, plan.value)
  {
    var owners, review := FindOwners(rules, changes, base, TreeOf(listing));
    if previous.Some? && previous.value.revision != baseRevision {
      return None;
    }
    var builds, reuse, hashes := Choose(rules, owners, listing, previous);
    AllComponents();
    plan := Some(Plan(builds, reuse, hashes, review));
  }

  // The loop of build_plan over the components.
  method Choose(rules: Rules, owners: set<Component>, listing: seq<(Path, Entry)>, previous: Option<Baseline>)
    returns (builds: set<Component>, reuse: set<Component>, hashes: map<Component, InputHash>)
    requires DistinctPaths(listing)
    ensures builds == owners * UpTo(|COMPONENTS|)
    ensures reuse == ReusableOf(rules, owners, TreeOf(listing), previous, |COMPONENTS|)
    ensures hashes == HashesOf(rules, TreeOf(listing), |COMPONENTS|)
  {
    builds, reuse, hashes := {}, {}, map[];
    for k := 0 to |COMPONENTS|
      invariant builds == owners * UpTo(k)
      invariant reuse == ReusableOf(rules, owners, TreeOf(listing), previous, k)
      invariant hashes == HashesOf(rules, TreeOf(listing), k)
    {
      var c := COMPONENTS[k];
      PlanNext(rules, owners, TreeOf(listing), previous, k);
      var digest := ComputeHash(rules, c, listing);
      hashes := hashes[c := digest];
      if previous.Some? && c in previous.value.hashes && previous.value.hashes[c] == digest && c !in owners {
        reuse := reuse + {c};
      } else if c in owners {
        builds := builds + {c};
      }
    }
  }

  function ReusableOf(rules: Rules, owners: set<Component>, head: Tree, previous: Option<Baseline>, k: nat)
    : set<Component>
    requires k <= |COMPONENTS|
  {
    set c | c in UpTo(k) && Reusable(rules, owners, head, previous, c)
  }

  function HashesOf(rules: Rules, head: Tree, k: nat): map<Component, InputHash>
    requires k <= |COMPONENTS|
  {
    map c | c in UpTo(k) :: HashOf(rules, c, head)
  }

  // One more component of the list.
  lemma PlanNext(rules: Rules, owners: set<Component>, head: Tree, previous: Option<Baseline>, k: nat)
    requires k < |COMPONENTS|
    ensures var c := COMPONENTS[k];
            && owners * UpTo(k + 1) == owners * UpTo(k) + (if c in owners then {c} else {})
            && ReusableOf(rules, owners, head, previous, k + 1)
               == ReusableOf(rules, owners, head, previous, k)
                  + (if Reusable(rules, owners, head, previous, c) then {c} else {})
            && HashesOf(rules, head, k + 1) == HashesOf(rules, head, k)[c := HashOf(rules, c, head)]
  {
    UpToNext(k);
  }

  // What a plan says: build what the diff affects, reuse what it does not when the
  // earlier manifest recorded the present hash.
  ghost predicate Planned(rules: Rules, changes: seq<Change>, base: Tree, head: Tree, previous: Option<Baseline>,
                          plan: Plan)
  {
    && (forall c :: c in plan.build <==> Affected(rules, changes, base, head, c))
    && (forall c :: c in plan.reuse <==>
          && !Affected(rules, changes, base, head, c)
          && previous.Some? && c in previous.value.hashes && previous.value.hashes[c] == HashOf(rules, c, head))
    && (forall c :: c in plan.hashes && plan.hashes[c] == HashOf(rules, c, head))
    && (plan.review <==> NeedsReview(rules, changes))
  }

  // A component whose earlier manifest recorded the baseline's hash lands in exactly one
  // of build and reuse.
  lemma BuildOrReuse(rules: Rules, changes: seq<Change>, base: Tree, head: Tree, previous: Option<Baseline>, plan: Plan,
                     c: Component)
    requires Planned(rules, changes, base, head, previous, plan)
    requires ReadsEmpty(rules) && Covers(changes, base, head)
    requires previous.Some? && c in previous.value.hashes && previous.value.hashes[c] == HashOf(rules, c, base)
    ensures (c in plan.build) != (c in plan.reuse)
  {
    if !Affected(rules, changes, base, head, c) {
      UnaffectedKeepsHash(rules, changes, base, head, c);
    }
  }

  predicate Reusable(rules: Rules, owners: set<Component>, head: Tree, previous: Option<Baseline>, c: Component) {
    && c !in owners
    && previous.Some? && c in previous.value.hashes
    && previous.value.hashes[c] == HashOf(rules, c, head)
  }

  // The first k components of the list.
  function UpTo(k: nat): set<Component>
    requires k <= |COMPONENTS|
  {
    set i | 0 <= i < k :: COMPONENTS[i]
  }

  lemma UpToNext(k: nat)
    requires k < |COMPONENTS|
    ensures UpTo(k + 1) == UpTo(k) + {COMPONENTS[k]}
  {
  }

  lemma AllComponents()
    ensures forall c: Component :: c in UpTo(|COMPONENTS|)
  {
    forall c: Component ensures c in UpTo(|COMPONENTS|) {
      var k := match c
        case Frontend => 0 case Backend => 1 case Infrastructure => 2 case Database => 3 case ClusterConnector => 4
        case MigrationConnector => 5 case TerraformRunner => 6 case ImageWorker => 7 case ToolsGateway => 8;
      assert COMPONENTS[k] == c;
    }
  }

  // The planner's own rules: whatever is ready for a build has only known paths, changes no
  // file type and touches migrations only by adding well-named ones.
  lemma ReadyIsClassified(contracts: Content -> Contract, changes: seq<Change>, base: Tree, head: Tree,
                          previous: Option<Baseline>, plan: Plan, i: nat, j: nat)
    requires Planned(PlannerRules(contracts), changes, base, head, previous, plan) && !plan.review
    requires i < |changes| && ChangeOk(changes[i]) && j < |changes[i].paths|
    ensures var (status, path) := (changes[i].status[0], changes[i].paths[j]);
            && Classify(path).Some? && status != 'T'
            && ("database/migrations/" <= path ==> status == 'A' && MigrationName(path))
            && forall c | c in Owners(path) :: c in plan.build
  {
    var rules := PlannerRules(contracts);
    assert !RecordNeedsReview(rules, changes[i]);
    assert !rules.review(changes[i].status, changes[i].paths[j]);
    forall c | c in Owners(changes[i].paths[j]) ensures c in plan.build {
      assert Affects(rules, base, head, changes[i].paths[j], c);
      assert AffectedBy(rules, changes[i].paths, base, head, c);
    }
  }

  lemma TouchedIsAffected(rules: Rules, changes: seq<Change>, base: Tree, head: Tree, c: Component, path: Path)
    requires Touched(changes, path) && c in rules.owners(path)
    ensures Affected(rules, changes, base, head, c)
  {
    var i :| 0 <= i < |changes| && path in changes[i].paths;
    var j :| 0 <= j < |changes[i].paths| && changes[i].paths[j] == path;
    assert Affects(rules, base, head, changes[i].paths[j], c);
    assert AffectedBy(rules, changes[i].paths, base, head, c);
  }

  predicate RecordNeedsReview(rules: Rules, change: Change) {
    exists j | 0 <= j < |change.paths| :: rules.review(change.status, change.paths[j])
  }

  predicate NeedsReview(rules: Rules, changes: seq<Change>) {
    exists i | 0 <= i < |changes| :: RecordNeedsReview(rules, changes[i])
  }
}
