// The rules of the release planner on paths and records, stated without its functions:
// what is read and refused, what needs a review, and what is built from which directory.
module PlanningRules {
  import opened Options
  import opened ReleasePlanning

  /******* What a record is *******/

  predicate NoSlash(s: string) {
    forall i | 0 <= i < |s| :: s[i] != '/'
  }

  // A part stands between slashes, or at an end of the path.
  predicate PartAt(path: Path, part: string, i: nat) {
    && i + |part| <= |path| && path[i..i + |part|] == part
    && (i == 0 || path[i - 1] == '/') && (i + |part| == |path| || path[i + |part|] == '/')
  }

  ghost predicate HasPart(path: Path, part: string) {
    exists i: nat :: PartAt(path, part, i)
  }

  // A path that may leave the repository is refused: rooted, with a backslash, or with two
  // dots for a part.
  lemma SafePathIff(path: Path)
    ensures SafePath(path) <==> !("/" <= path) && (forall c | c in path :: c != '\\') && !HasPart(path, "..")
  {
    PartsIff(path, "..");
  }

  lemma {:induction false} PartsFirst(path: Path)
    ensures var first := Parts(path)[0];
            && first <= path && NoSlash(first)
            && if |Parts(path)| == 1 then first == path
               else |first| < |path| && path[|first|] == '/' && Parts(path)[1..] == Parts(path[|first| + 1..])
  {
    if path != "" {
      PartsFirst(path[1..]);
      assert path == [path[0]] + path[1..];
      PartsStep(path);
    }
  }

  lemma {:induction false} PartsStep(path: Path)
    requires path != ""
    ensures var rest := Parts(path[1..]);
            if path[0] == '/' then Parts(path)[0] == "" && Parts(path)[1..] == rest
            else Parts(path)[0] == [path[0]] + rest[0] && Parts(path)[1..] == rest[1..]
    ensures forall k: nat | k + 1 <= |path| :: path[1..][k..] == path[k + 1..]
  {
  }

  // The parts of a path are what it is cut into.
  lemma {:induction false} PartsIff(path: Path, part: string)
    requires NoSlash(part)
    ensures part in Parts(path) <==> HasPart(path, part)
    decreases |path|
  {
    PartsFirst(path);
    var first := Parts(path)[0];
    if |Parts(path)| == 1 {
      OnePart(path, part);
      assert Parts(path) == [path];
    } else {
      PartsIff(path[|first| + 1..], part);
      assert Parts(path) == [first] + Parts(path)[1..];
      assert path[..|first|] == first;
      assert forall k | 0 <= k < |first| :: first[k] == path[k];
      PartsBehind(path, part, |first|);
    }
  }

  lemma OnePart(path: Path, part: string)
    requires NoSlash(path) && NoSlash(part)
    ensures part == path <==> HasPart(path, part)
  {
    if part == path {
      assert PartAt(path, part, 0);
    }
    if i: nat :| PartAt(path, part, i) {
      assert path[0..|path|] == path;
    }
  }

  lemma PartsBehind(path: Path, part: string, n: nat)
    requires n < |path| && path[n] == '/' && (forall k | 0 <= k < n :: path[k] != '/') && NoSlash(part)
    ensures HasPart(path, part) <==> part == path[..n] || HasPart(path[n + 1..], part)
  {
    var rest := path[n + 1..];
    if part == path[..n] {
      assert PartAt(path, part, 0);
    }
    if i: nat :| PartAt(rest, part, i) {
      ShiftedPart(path, part, n, i);
    }
    if i: nat :| PartAt(path, part, i) {
      if i == 0 {
        FirstOnly(path, part, n);
      } else {
        ShiftedPart(path, part, n, i - n - 1);
      }
    }
  }

  lemma ShiftedPart(path: Path, part: string, n: nat, i: nat)
    requires n < |path| && path[n] == '/'
    ensures PartAt(path[n + 1..], part, i) <==> PartAt(path, part, n + 1 + i)
  {
    var rest := path[n + 1..];
    if i + |part| <= |rest| {
      assert rest[i..i + |part|] == path[n + 1 + i..n + 1 + i + |part|];
    }
  }

  lemma FirstOnly(path: Path, part: string, n: nat)
    requires n < |path| && path[n] == '/' && (forall k | 0 <= k < n :: path[k] != '/')
    requires NoSlash(part) && PartAt(path, part, 0)
    ensures part == path[..n]
  {
    forall k | 0 <= k < |part| ensures path[k] != '/' {
      assert part[k] == path[k];
    }
  }

  // How records are read: a rename or a copy has two paths, the other changes have one,
  // and anything else is refused.
  lemma {:induction false} RecordLaw(status: string, paths: seq<Path>, rest: seq<string>)
    requires status != "" && rest != []
    requires if status[0] == 'R' || status[0] == 'C' then |paths| == 2
             else |paths| == 1 && (status[0] == 'A' || status[0] == 'M' || status[0] == 'D' || status[0] == 'T')
    ensures Decode([status] + paths + rest)
         == if forall i | 0 <= i < |paths| :: SafePath(paths[i]) then Behind([Change(status, paths)], Decode(rest))
            else None
  {
    var fields := [status] + paths + rest;
    assert fields[1..1 + |paths|] == paths && fields[1 + |paths|..] == rest;
  }

  lemma {:induction false} OtherRecords(fields: seq<string>)
    requires fields != [] && fields[0] != ""
    requires fields[0][0] != 'A' && fields[0][0] != 'M' && fields[0][0] != 'D' && fields[0][0] != 'T'
    requires fields[0][0] != 'R' && fields[0][0] != 'C'
    ensures Decode(fields) == None
  {
  }

  /******* Reviews *******/

  predicate Digits(number: string) {
    number != "" && forall i | 0 <= i < |number| :: '0' <= number[i] <= '9'
  }

  predicate Word(name: string) {
    && name != ""
    && forall i | 0 <= i < |name| ::
         || 'A' <= name[i] <= 'Z' || 'a' <= name[i] <= 'z' || '0' <= name[i] <= '9' || name[i] == '_' || name[i] == '-'
  }

  // A migration is named by digits, an underscore, and a word of letters, digits,
  // underscores and dashes.
  lemma MigrationNamed(number: string, name: string)
    requires Digits(number) && Word(name)
    ensures MigrationName("database/migrations/" + number + "_" + name + ".sql")
  {
    var rest := number + "_" + name + ".sql";
    var path := "database/migrations/" + rest;
    assert path == "database/migrations/" + number + "_" + name + ".sql";
    assert path[20..] == rest && path[|path| - 4..] == ".sql";
    MigrationPart(number, name);
  }

  lemma MigrationPart(number: string, name: string)
    requires Digits(number) && Word(name)
    ensures var (rest, k) := (number + "_" + name + ".sql", |number|);
            && 1 <= k < |rest| - 5 && rest[k] == '_'
            && (forall i | 0 <= i < k :: '0' <= rest[i] <= '9')
            && (forall i | k < i < |rest| - 4 ::
                  || 'A' <= rest[i] <= 'Z' || 'a' <= rest[i] <= 'z' || '0' <= rest[i] <= '9'
                  || rest[i] == '_' || rest[i] == '-')
  {
    var rest, k := number + "_" + name + ".sql", |number|;
    assert forall i | 0 <= i < k :: rest[i] == number[i];
    assert forall i | k < i < |rest| - 4 :: rest[i] == name[i - k - 1];
  }

  lemma MigrationRead(path: Path) returns (number: string, name: string)
    requires MigrationName(path)
    ensures Digits(number) && Word(name) && path == "database/migrations/" + number + "_" + name + ".sql"
  {
    var rest := path[20..];
    var k :| 1 <= k < |rest| - 5 && rest[k] == '_'
             && (forall i | 0 <= i < k :: '0' <= rest[i] <= '9')
             && (forall i | k < i < |rest| - 4 ::
                   || 'A' <= rest[i] <= 'Z' || 'a' <= rest[i] <= 'z' || '0' <= rest[i] <= '9'
                   || rest[i] == '_' || rest[i] == '-');
    number, name := rest[..k], rest[k + 1..|rest| - 4];
    WordRead(rest, k);
    MigrationJoined(path, rest, k);
  }

  lemma WordRead(rest: string, k: nat)
    requires 1 <= k < |rest| - 5
    requires forall i | 0 <= i < k :: '0' <= rest[i] <= '9'
    requires forall i | k < i < |rest| - 4 ::
               || 'A' <= rest[i] <= 'Z' || 'a' <= rest[i] <= 'z' || '0' <= rest[i] <= '9'
               || rest[i] == '_' || rest[i] == '-'
    ensures Digits(rest[..k]) && Word(rest[k + 1..|rest| - 4])
  {
    var name := rest[k + 1..|rest| - 4];
    assert forall i | 0 <= i < |name| :: name[i] == rest[k + 1 + i];
  }

  lemma MigrationJoined(path: Path, rest: string, k: nat)
    requires path == "database/migrations/" + rest && k + 5 < |rest| && rest[k] == '_' && EndsWith(path, ".sql")
    ensures path == "database/migrations/" + rest[..k] + "_" + rest[k + 1..|rest| - 4] + ".sql"
  {
    assert rest[|rest| - 4..] == path[|path| - 4..];
    assert rest == rest[..k] + "_" + rest[k + 1..|rest| - 4] + ".sql";
  }

  // A path needs a review when no rule knows it, when it is a migration that is not added
  // under a proper name, or when its file type changes; a template is a YAML file of the
  // infrastructure.
  lemma ReviewIff(contracts: Content -> Contract, status: string, path: Path)
    requires status != ""
    ensures PlannerRules(contracts).review(status, path) <==>
            || Classify(path).None?
            || ("database/migrations/" <= path && !(status[0] == 'A' && MigrationName(path)))
            || status[0] == 'T'
    ensures PlannerRules(contracts).template(path) <==>
            exists name: string ::
              path == "infrastructure/" + name + ".yaml" || path == "infrastructure/" + name + ".yml"
    ensures PlannerRules(contracts).owners(path) == if Classify(path).Some? then Classify(path).value else {}
    ensures PlannerRules(contracts).contracts == contracts
  {
    TemplateIff(path);
  }

  lemma TemplateIff(path: Path)
    ensures IsTemplate(path) <==>
            exists name: string ::
              path == "infrastructure/" + name + ".yaml" || path == "infrastructure/" + name + ".yml"
  {
    if IsTemplate(path) {
      var suffix := if EndsWith(path, ".yaml") then ".yaml" else ".yml";
      LongEnough(path, suffix);
      var name := path[|"infrastructure/"|..|path| - |suffix|];
      assert path == "infrastructure/" + name + suffix;
    }
    if name: string :| path == "infrastructure/" + name + ".yaml" || path == "infrastructure/" + name + ".yml" {
      assert path[..|"infrastructure/"|] == "infrastructure/";
    }
  }

  // The directory and the suffix of a template do not overlap.
  lemma LongEnough(path: Path, suffix: string)
    requires "infrastructure/" <= path && EndsWith(path, suffix) && (suffix == ".yaml" || suffix == ".yml")
    ensures |path| >= |"infrastructure/"| + |suffix|
  {
    if |path| < 15 + |suffix| {
      var k := |path| - |suffix|;
      assert path[k] == suffix[0] == '.';
      assert path[k] == "infrastructure/"[k];
      NoDotInDirectory(k);
    }
  }

  lemma NoDotInDirectory(k: nat)
    requires k < |"infrastructure/"|
    ensures "infrastructure/"[k] != '.'
  {
  }

  /******* Directories and what is built from them *******/

  // What no artifact is built from: documentation, and the frontend's own tests and checks.
  ghost predicate Apart(path: Path) {
    || path == "AGENTS.md" || path == "README.md" || path == "LICENSE" || path == ".gitignore"
    || path == "frontend/README.md" || path == "design-qa.md"
    || (exists folder: string :: path == folder + "/AGENTS.md")
    || "docs/" <= path || "frontend/tests/" <= path || "frontend/scripts/check-" <= path
  }

  lemma ApartIff(path: Path)
    ensures Apart(path) <==> Documentation(path) || FrontendChecks(path)
  {
    if EndsWith(path, "/AGENTS.md") {
      assert path == path[..|path| - 10] + "/AGENTS.md";
    }
    if folder: string :| path == folder + "/AGENTS.md" {
      assert path[|path| - 10..] == "/AGENTS.md";
    }
  }

  // The first three letters of a path tell the rules of the planner apart.
  predicate Begins(path: Path, a: char, b: char, c: char) {
    |path| >= 3 && path[0] == a && path[1] == b && path[2] == c
  }

  lemma BeginsAs(path: Path, prefix: string)
    requires |prefix| >= 3
    ensures prefix <= path ==> Begins(path, prefix[0], prefix[1], prefix[2])
  {
  }

  lemma ServiceRules(path: Path)
    ensures "frontend/" <= path ==> Begins(path, 'f', 'r', 'o')
    ensures "tests/" <= path ==> Begins(path, 't', 'e', 's')
    ensures "database/" <= path ==> Begins(path, 'd', 'a', 't')
  {
    BeginsAs(path, "frontend/");
    BeginsAs(path, "tests/");
    BeginsAs(path, "database/");
  }

  lemma SourceRules(path: Path)
    ensures "src/" <= path ==> Begins(path, 's', 'r', 'c')
    ensures "platform/system-repo-template/" <= path ==> Begins(path, 'p', 'l', 'a')
    ensures "provisioning/runner/" <= path ==> Begins(path, 'p', 'r', 'o')
  {
    BeginsAs(path, "src/");
    BeginsAs(path, "platform/system-repo-template/");
    BeginsAs(path, "provisioning/runner/");
  }

  lemma ConnectorRules(path: Path)
    ensures "terraform/modules/aws-eks/" <= path ==> Begins(path, 't', 'e', 'r')
    ensures "connector/" <= path ==> Begins(path, 'c', 'o', 'n')
    ensures "migration_connector/" <= path ==> Begins(path, 'm', 'i', 'g')
  {
    BeginsAs(path, "terraform/modules/aws-eks/");
    BeginsAs(path, "connector/");
    BeginsAs(path, "migration_connector/");
  }

  lemma WorkerRules(path: Path)
    ensures "workspace_image_worker/" <= path ==> Begins(path, 'w', 'o', 'r')
    ensures "tools-gateway/" <= path ==> Begins(path, 't', 'o', 'o')
    ensures "infrastructure/" <= path ==> Begins(path, 'i', 'n', 'f')
  {
    BeginsAs(path, "workspace_image_worker/");
    BeginsAs(path, "tools-gateway/");
    BeginsAs(path, "infrastructure/");
  }

  lemma FileRules(path: Path)
    ensures path == "scripts/migrate.py" ==> Begins(path, 's', 'c', 'r')
    ensures path == "pyproject.toml" ==> Begins(path, 'p', 'y', 'p')
    ensures path == "samconfig.toml" ==> Begins(path, 's', 'a', 'm')
  {
    BeginsAs(path, "scripts/migrate.py");
    BeginsAs(path, "pyproject.toml");
    BeginsAs(path, "samconfig.toml");
  }

  lemma ToolRules(path: Path)
    ensures "scripts/" <= path ==> Begins(path, 's', 'c', 'r')
    ensures ".github/workflows/" <= path ==> Begins(path, '.', 'g', 'i')
    ensures FrontendChecks(path) ==> Begins(path, 'f', 'r', 'o')
  {
    BeginsAs(path, "scripts/");
    BeginsAs(path, ".github/workflows/");
    BeginsAs(path, "frontend/tests/");
    BeginsAs(path, "frontend/scripts/check-");
  }

  lemma AllRules(path: Path)
    ensures "frontend/" <= path ==> Begins(path, 'f', 'r', 'o')
    ensures "tests/" <= path ==> Begins(path, 't', 'e', 's')
    ensures "database/" <= path ==> Begins(path, 'd', 'a', 't')
    ensures "src/" <= path ==> Begins(path, 's', 'r', 'c')
    ensures "platform/system-repo-template/" <= path ==> Begins(path, 'p', 'l', 'a')
    ensures "provisioning/runner/" <= path ==> Begins(path, 'p', 'r', 'o')
    ensures "terraform/modules/aws-eks/" <= path ==> Begins(path, 't', 'e', 'r')
    ensures "connector/" <= path ==> Begins(path, 'c', 'o', 'n')
    ensures "migration_connector/" <= path ==> Begins(path, 'm', 'i', 'g')
    ensures "workspace_image_worker/" <= path ==> Begins(path, 'w', 'o', 'r')
    ensures "tools-gateway/" <= path ==> Begins(path, 't', 'o', 'o')
    ensures "infrastructure/" <= path ==> Begins(path, 'i', 'n', 'f')
    ensures path == "scripts/migrate.py" ==> Begins(path, 's', 'c', 'r')
    ensures path == "pyproject.toml" ==> Begins(path, 'p', 'y', 'p')
    ensures path == "samconfig.toml" ==> Begins(path, 's', 'a', 'm')
    ensures "scripts/" <= path ==> Begins(path, 's', 'c', 'r')
    ensures ".github/workflows/" <= path ==> Begins(path, '.', 'g', 'i')
    ensures FrontendChecks(path) ==> Begins(path, 'f', 'r', 'o')
  {
    ServiceRules(path);
    SourceRules(path);
    ConnectorRules(path);
    WorkerRules(path);
    FileRules(path);
    ToolRules(path);
  }

  // Which components are built from a directory: exactly these own a file of it, unless it
  // is documentation or one of the frontend's own tests and checks.
  predicate BuiltFrom(components: set<Component>, directory: string) {
    || (directory == "frontend/" && components == {Frontend})
    || (directory == "src/" && components == {Backend, ImageWorker})
    || (directory == "platform/system-repo-template/" && components == {Backend})
    || (directory == "database/" && components == {Database})
    || (directory == "provisioning/runner/" && components == {TerraformRunner})
    || (directory == "terraform/modules/aws-eks/" && components == {TerraformRunner})
    || (directory == "connector/" && components == {ClusterConnector})
    || (directory == "migration_connector/" && components == {MigrationConnector})
    || (directory == "workspace_image_worker/" && components == {ImageWorker})
    || (directory == "tools-gateway/" && components == {ToolsGateway})
    || (directory == "infrastructure/" && components == {Infrastructure})
    || (directory == "tests/" && components == {})
  }

  lemma OwnedExactly(path: Path, directory: string, components: set<Component>)
    requires BuiltFrom(components, directory) && directory <= path && !Apart(path)
    ensures Classify(path) == Some(components)
  {
    ApartIff(path);
    match directory {
      case "frontend/" => OwnedFrontend(path);
      case "src/" => OwnedSource(path);
      case "platform/system-repo-template/" => OwnedPlatform(path);
      case "database/" => OwnedDatabase(path);
      case "provisioning/runner/" => OwnedRunner(path);
      case "terraform/modules/aws-eks/" => OwnedModule(path);
      case "connector/" => OwnedConnector(path);
      case "migration_connector/" => OwnedMigrationConnector(path);
      case "workspace_image_worker/" => OwnedWorker(path);
      case "tools-gateway/" => OwnedGateway(path);
      case "infrastructure/" => OwnedInfrastructure(path);
      case "tests/" => OwnedTests(path);
    }
  }

  lemma OwnedFrontend(path: Path)
    requires "frontend/" <= path && !Documentation(path) && !FrontendChecks(path)
    ensures Classify(path) == Some({Frontend})
  {
    AllRules(path);
  }

  lemma OwnedSource(path: Path)
    requires "src/" <= path && !Documentation(path) && !FrontendChecks(path)
    ensures Classify(path) == Some({Backend, ImageWorker})
  {
    AllRules(path);
  }

  lemma OwnedPlatform(path: Path)
    requires "platform/system-repo-template/" <= path && !Documentation(path) && !FrontendChecks(path)
    ensures Classify(path) == Some({Backend})
  {
    AllRules(path);
  }

  lemma OwnedDatabase(path: Path)
    requires "database/" <= path && !Documentation(path) && !FrontendChecks(path)
    ensures Classify(path) == Some({Database})
  {
    AllRules(path);
  }

  lemma OwnedRunner(path: Path)
    requires "provisioning/runner/" <= path && !Documentation(path) && !FrontendChecks(path)
    ensures Classify(path) == Some({TerraformRunner})
  {
    AllRules(path);
  }

  lemma OwnedModule(path: Path)
    requires "terraform/modules/aws-eks/" <= path && !Documentation(path) && !FrontendChecks(path)
    ensures Classify(path) == Some({TerraformRunner})
  {
    AllRules(path);
  }

  lemma OwnedConnector(path: Path)
    requires "connector/" <= path && !Documentation(path) && !FrontendChecks(path)
    ensures Classify(path) == Some({ClusterConnector})
  {
    AllRules(path);
  }

  lemma OwnedMigrationConnector(path: Path)
    requires "migration_connector/" <= path && !Documentation(path) && !FrontendChecks(path)
    ensures Classify(path) == Some({MigrationConnector})
  {
    AllRules(path);
  }

  lemma OwnedWorker(path: Path)
    requires "workspace_image_worker/" <= path && !Documentation(path) && !FrontendChecks(path)
    ensures Classify(path) == Some({ImageWorker})
  {
    AllRules(path);
  }

  lemma OwnedGateway(path: Path)
    requires "tools-gateway/" <= path && !Documentation(path) && !FrontendChecks(path)
    ensures Classify(path) == Some({ToolsGateway})
  {
    AllRules(path);
  }

  lemma OwnedInfrastructure(path: Path)
    requires "infrastructure/" <= path && !Documentation(path) && !FrontendChecks(path)
    ensures Classify(path) == Some({Infrastructure})
  {
    AllRules(path);
  }

  lemma OwnedTests(path: Path)
    requires "tests/" <= path && !Documentation(path) && !FrontendChecks(path)
    ensures Classify(path) == Some({})
  {
    AllRules(path);
  }

  lemma NoDocumentation(path: Path)
    requires path != "" && path[0] != 'A' && path[0] != 'R' && path[0] != 'L' && path[0] != '.'
    requires path[0] != 'f' && path[0] != 'd' && path[|path| - 1] != 'd'
    ensures !Documentation(path)
  {
    BeginsAs(path, "docs/");
    Different(path, "AGENTS.md");
    Different(path, "README.md");
    Different(path, "LICENSE");
    Different(path, ".gitignore");
    Different(path, "frontend/README.md");
    Different(path, "design-qa.md");
    EndsAs(path, "/AGENTS.md");
  }

  lemma EndsAs(path: Path, suffix: string)
    requires suffix != ""
    ensures EndsWith(path, suffix) ==> path != "" && path[|path| - 1] == suffix[|suffix| - 1]
  {
  }

  lemma Different(path: Path, other: Path)
    requires path != "" && other != "" && path[0] != other[0]
    ensures path != other
  {
  }

  // Single files with owners.
  lemma OwnedPackage(path: Path)
    requires path == "pyproject.toml"
    ensures Classify(path) == Some({Backend})
  {
    NoDocumentation(path);
    AllRules(path);
  }

  lemma OwnedConfiguration(path: Path)
    requires path == "samconfig.toml"
    ensures Classify(path) == Some({Infrastructure})
  {
    NoDocumentation(path);
    AllRules(path);
  }

  lemma OwnedMigration(path: Path)
    requires path == "scripts/migrate.py"
    ensures Classify(path) == Some({Database})
  {
    NoDocumentation(path);
    AllRules(path);
  }

  // What is known but goes into no artifact.
  lemma OwnedByNothing(path: Path)
    requires Apart(path) || (("scripts/" <= path || ".github/workflows/" <= path) && path != "scripts/migrate.py")
    ensures Classify(path) == Some({})
  {
    ApartIff(path);
    AllRules(path);
  }

  // A change to any file of a directory that components are built from, but documentation
  // and the frontend's own tests and checks, builds them again.
  lemma ChangedContextIsBuilt(contracts: Content -> Contract, changes: seq<Change>, base: Tree, head: Tree,
                              previous: Option<Baseline>, plan: Plan, directory: string, components: set<Component>,
                              path: Path)
    requires Planned(PlannerRules(contracts), changes, base, head, previous, plan)
    requires BuiltFrom(components, directory) && directory <= path && Touched(changes, path)
    requires !Apart(path)
    ensures components <= plan.build && components !! plan.reuse
  {
    OwnedExactly(path, directory, components);
    forall c | c in components ensures c in plan.build {
      TouchedIsAffected(PlannerRules(contracts), changes, base, head, c, path);
    }
  }
}
