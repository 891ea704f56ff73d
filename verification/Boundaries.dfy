/** The package-boundary checker (`scripts/check_import_boundaries.py`). */
module Boundaries {
  import opened Common
  import opened Text

  // --- The layer table -----------------------------------------------------------------------

  datatype Layer =
    | Domain | Application | Capabilities | Engine | Ledger | Plans | Policy | Evidence | Evaluation
    | Incidents | Adapters | Cli | Workflows

  /** The table; `Workflows` may be imported by one layer but has no row of its own. */
  function Allowed(layer: Layer): set<Layer> {
    match layer
    case Domain => {Domain}
    case Application => {Domain, Application}
    case Capabilities => {Domain, Application, Capabilities, Policy}
    case Engine => {Domain, Application, Engine, Ledger, Policy, Evidence, Capabilities, Plans}
    case Ledger => {Domain, Application, Ledger}
    case Plans => {Domain, Plans}
    case Policy => {Domain, Application, Policy, Evidence}
    case Evidence => {Domain, Application, Evidence}
    case Evaluation => {Domain, Application, Evaluation, Ledger}
    case Incidents => {Domain, Application, Incidents, Ledger, Policy}
    case Adapters => {Domain, Application, Engine, Ledger, Policy, Evidence, Evaluation, Adapters, Capabilities}
    case Cli =>
      {Domain, Application, Engine, Ledger, Policy, Evidence, Evaluation, Adapters, Cli, Workflows, Capabilities}
    case Workflows => {}
  }

  function LayerNamed(name: string): Option<Layer> {
    if name == "domain" then Some(Domain)
    else if name == "application" then Some(Application)
    else if name == "capabilities" then Some(Capabilities)
    else if name == "engine" then Some(Engine)
    else if name == "ledger" then Some(Ledger)
    else if name == "plans" then Some(Plans)
    else if name == "policy" then Some(Policy)
    else if name == "evidence" then Some(Evidence)
    else if name == "evaluation" then Some(Evaluation)
    else if name == "incidents" then Some(Incidents)
    else if name == "adapters" then Some(Adapters)
    else if name == "cli" then Some(Cli)
    else if name == "workflows" then Some(Workflows)
    else None
  }

  function NameOf(layer: Layer): string {
    match layer
    case Domain => "domain"
    case Application => "application"
    case Capabilities => "capabilities"
    case Engine => "engine"
    case Ledger => "ledger"
    case Plans => "plans"
    case Policy => "policy"
    case Evidence => "evidence"
    case Evaluation => "evaluation"
    case Incidents => "incidents"
    case Adapters => "adapters"
    case Cli => "cli"
    case Workflows => "workflows"
  }

  /** Layers and their names stand for each other. */
  lemma LayerNames(name: string, layer: Layer)
    ensures LayerNamed(name) == Some(layer) <==> name == NameOf(layer)
  {
  }

  /** The table read the other way: which layers may import a layer. */
  function Importers(layer: Layer): set<Layer> {
    match layer
    case Domain =>
      {Domain, Application, Capabilities, Engine, Ledger, Plans, Policy, Evidence, Evaluation, Incidents, Adapters,
       Cli}
    case Application =>
      {Application, Capabilities, Engine, Ledger, Policy, Evidence, Evaluation, Incidents, Adapters, Cli}
    case Capabilities => {Capabilities, Engine, Adapters, Cli}
    case Engine => {Engine, Adapters, Cli}
    case Ledger => {Engine, Ledger, Evaluation, Incidents, Adapters, Cli}
    case Plans => {Engine, Plans}
    case Policy => {Capabilities, Engine, Policy, Incidents, Adapters, Cli}
    case Evidence => {Engine, Policy, Evidence, Adapters, Cli}
    case Evaluation => {Evaluation, Adapters, Cli}
    case Incidents => {Incidents}
    case Adapters => {Adapters, Cli}
    case Cli => {Cli}
    case Workflows => {Cli}
  }

  lemma AllowedExactly(from: Layer, to: Layer)
    ensures to in Allowed(from) <==> from in Importers(to)
  {
    match from
    case Domain =>
    case Application =>
    case Capabilities =>
    case Engine =>
    case Ledger =>
    case Plans =>
    case Policy =>
    case Evidence =>
    case Evaluation =>
    case Incidents =>
    case Adapters =>
    case Cli =>
    case Workflows =>
  }

  /** How far out a layer is. */
  function Rank(layer: Layer): nat {
    match layer
    case Domain => 0
    case Application => 1
    case Plans => 1
    case Ledger => 2
    case Evidence => 2
    case Policy => 3
    case Evaluation => 3
    case Capabilities => 4
    case Incidents => 4
    case Engine => 5
    case Adapters => 6
    case Cli => 7
    case Workflows => 0
  }

  /** Every import the table allows stays in its layer or goes strictly inward. */
  lemma AllowedGoesInward(from: Layer, to: Layer)
    requires to != Workflows && to in Allowed(from)
    ensures to == from || Rank(to) < Rank(from)
  {
  }

  // --- Names ---------------------------------------------------------------------------------

  const PACKAGE := "enginery"

  datatype Node =
    | Import(names: seq<string>)
    | ImportFrom(level: nat, from: string, names: seq<string>)   // "" when no module is given
    | Other

  /** A module file: the packages it lies in, from the top one down, its stem, and its syntax nodes. */
  datatype SourceFile = SourceFile(packages: seq<string>, stem: string, nodes: seq<Node>)

  function DottedName(file: SourceFile): seq<string> {
    if file.stem == "__init__" then file.packages else file.packages + [file.stem]
  }

  function ImportingPackage(file: SourceFile): seq<string> {
    var dotted := DottedName(file);
    if file.stem == "__init__" then dotted else dotted[..|dotted| - 1]
  }

  function PartsOf(name: string): seq<string> {
    if name == "" then [] else Split(name, '.')
  }

  function ResolveBase(file: SourceFile, level: nat, from: string): seq<string> {
    if level == 0 then PartsOf(from)
    else
      var package := ImportingPackage(file);
      var strip := level - 1;
      var kept := if strip == 0 then package else if strip < |package| then package[..|package| - strip] else [];
      kept + PartsOf(from)
  }

  function Submodules(names: seq<string>): seq<string> {
    seq(|names|, i requires 0 <= i < |names| => PACKAGE + "." + names[i])
  }

  function Candidates(file: SourceFile, node: Node): seq<string> {
    match node
    case Import(names) => names
    case ImportFrom(level, from, names) =>
      var base := ResolveBase(file, level, from);
      if base == [] then []
      else [Join(base, '.')] + (if base == [PACKAGE] then Submodules(names) else [])
    case Other => []
  }

  function TargetLayer(name: string): Option<string> {
    var prefix := PACKAGE + ".";
    if |name| >= |prefix| && name[..|prefix|] == prefix then Some(Split(name[|prefix|..], '.')[0]) else None
  }

  predicate Permitted(layer: Layer, name: string) {
    var target := TargetLayer(name);
    target.Some? ==> LayerNamed(target.value).Some? && LayerNamed(target.value).value in Allowed(layer)
  }

  // --- What the names mean -------------------------------------------------------------------

  /** Package directories have importable names. */
  ghost predicate Importable(parts: seq<string>) {
    forall i | 0 <= i < |parts| :: parts[i] != "" && '.' !in parts[i]
  }

  lemma JoinOfSplit(parts: seq<string>)
    requires |parts| >= 2
    ensures Join(parts, '.') == parts[0] + "." + Join(parts[1..], '.')
  {
  }

  /** The target layer of a name is its second component, when the first is the package. */
  lemma TargetIsSecondPart(name: string)
    ensures var parts := Split(name, '.');
            TargetLayer(name) == if |parts| >= 2 && parts[0] == "enginery" then Some(parts[1]) else None
  {
    var prefix := PACKAGE + ".";
    var parts := Split(name, '.');
    JoinSplit(name, '.');
    if |name| >= |prefix| && name[..|prefix|] == prefix {
      var rest := name[|prefix|..];
      assert name == PACKAGE + ['.'] + rest;
      SplitHead(PACKAGE, rest, '.');
    }
    if |parts| >= 2 && parts[0] == PACKAGE {
      JoinOfSplit(parts);
    }
  }

  lemma TargetOfJoin(parts: seq<string>)
    requires parts != [] && forall i | 0 <= i < |parts| :: '.' !in parts[i]
    ensures TargetLayer(Join(parts, '.')) == if |parts| >= 2 && parts[0] == PACKAGE then Some(parts[1]) else None
  {
    SplitJoin(parts, '.');
    TargetIsSecondPart(Join(parts, '.'));
  }

  lemma ImportingPackageIsTheDirectory(file: SourceFile)
    ensures ImportingPackage(file) == file.packages
  {
  }

  lemma BaseHasNoDots(file: SourceFile, level: nat, from: string)
    requires Importable(file.packages)
    ensures forall i | 0 <= i < |ResolveBase(file, level, from)| :: '.' !in ResolveBase(file, level, from)[i]
  {
    ImportingPackageIsTheDirectory(file);
  }

  /**
   Python may load the base of a from-import and, for each alias, a submodule of that name. Whatever
   layer such a module lies in, some candidate lies in it too, so none escapes the check.
   */
  lemma CandidatesCoverEveryLayer(file: SourceFile, level: nat, from: string, names: seq<string>, k: nat)
    requires Importable(file.packages) && k < |names| && '.' !in names[k]
    requires ResolveBase(file, level, from) != []
    ensures var target := TargetLayer(Join(ResolveBase(file, level, from) + [names[k]], '.'));
            target.Some? ==> exists name | name in Candidates(file, ImportFrom(level, from, names)) ::
              TargetLayer(name) == target
  {
    var base := ResolveBase(file, level, from);
    BaseHasNoDots(file, level, from);
    TargetOfJoin(base);
    TargetOfJoin(base + [names[k]]);
    var candidates := Candidates(file, ImportFrom(level, from, names));
    assert candidates[0] == Join(base, '.');
    if base == [PACKAGE] {
      var name := Join(base + [names[k]], '.');
      assert name == Submodules(names)[k];
      assert name == candidates[k + 1];
    }
  }

  /** The absolute name of the module a relative import in range starts from. */
  function AbsoluteForm(file: SourceFile, level: nat, from: string): string
    requires 1 <= level <= |file.packages|
  {
    Join(file.packages[..|file.packages| - (level - 1)] + PartsOf(from), '.')
  }

  lemma JoinIsNotEmpty(parts: seq<string>)
    requires parts != [] && parts[0] != ""
    ensures Join(parts, '.') != ""
  {
  }

  /** A relative import within the package has the candidates of its absolute form, from any file. */
  lemma RelativeIsAbsolute(file: SourceFile, other: SourceFile, level: nat, from: string, names: seq<string>)
    requires Importable(file.packages) && 1 <= level <= |file.packages|
    ensures Candidates(file, ImportFrom(level, from, names))
         == Candidates(other, ImportFrom(0, AbsoluteForm(file, level, from), names))
  {
    ImportingPackageIsTheDirectory(file);
    var package := file.packages;
    var base := package[..|package| - (level - 1)] + PartsOf(from);
    assert package[..|package|] == package;
    assert ResolveBase(file, level, from) == base;
    BaseHasNoDots(file, level, from);
    assert base[0] == package[0];
    JoinIsNotEmpty(base);
    SplitJoin(base, '.');
  }

  /** One that reaches above the top package is read as an absolute import of the module it names. */
  lemma OutOfRangeIsAbsolute(file: SourceFile, level: nat, from: string, names: seq<string>)
    requires level > |file.packages|
    ensures Candidates(file, ImportFrom(level, from, names)) == Candidates(file, ImportFrom(0, from, names))
  {
    ImportingPackageIsTheDirectory(file);
    assert [] + PartsOf(from) == PartsOf(from);
  }

  // --- Finding violations --------------------------------------------------------------------

  datatype Violation = Violation(file: SourceFile, imported: string, target: string)

  function InNames(layer: Layer, file: SourceFile, names: seq<string>): seq<Violation> {
    if names == [] then []
    else
      var last := names[|names| - 1];
      InNames(layer, file, names[..|names| - 1])
      + (if Permitted(layer, last) then [] else [Violation(file, last, TargetLayer(last).value)])
  }

  function InNodes(layer: Layer, file: SourceFile, nodes: seq<Node>): seq<Violation> {
    if nodes == [] then []
    else InNodes(layer, file, nodes[..|nodes| - 1]) + InNames(layer, file, Candidates(file, nodes[|nodes| - 1]))
  }

  function InFiles(layer: Layer, files: seq<SourceFile>): seq<Violation> {
    if files == [] then []
    else
      var last := files[|files| - 1];
      InFiles(layer, files[..|files| - 1]) + InNodes(layer, last, last.nodes)
  }

  /** The import is one the table does not allow. */
  predicate Forbidden(layer: Layer, v: Violation) {
    !Permitted(layer, v.imported) && TargetLayer(v.imported) == Some(v.target)
  }

  /** A forbidden name lies in a part of the package that no layer open to the importer is called. */
  lemma ForbiddenExactly(layer: Layer, v: Violation)
    ensures var parts := Split(v.imported, '.');
            Forbidden(layer, v) <==>
              && |parts| >= 2 && parts[0] == "enginery" && parts[1] == v.target
              && forall to | layer in Importers(to) :: NameOf(to) != v.target
  {
    TargetIsSecondPart(v.imported);
    forall to ensures to in Allowed(layer) <==> layer in Importers(to) {
      AllowedExactly(layer, to);
    }
    forall to ensures LayerNamed(v.target) == Some(to) <==> v.target == NameOf(to) {
      LayerNames(v.target, to);
    }
  }

  ghost predicate Occurs(file: SourceFile, nodes: seq<Node>, imported: string) {
    exists node | node in nodes :: imported in Candidates(file, node)
  }

  /** A file of the layer has the import, and the table does not allow it. */
  ghost predicate Offends(layer: Layer, v: Violation, files: seq<SourceFile>) {
    v.file in files && Forbidden(layer, v) && Occurs(v.file, v.file.nodes, v.imported)
  }

  lemma OccursInLast(file: SourceFile, nodes: seq<Node>, imported: string)
    requires nodes != []
    ensures Occurs(file, nodes, imported) <==>
            Occurs(file, nodes[..|nodes| - 1], imported) || imported in Candidates(file, nodes[|nodes| - 1])
  {
    var before, last := nodes[..|nodes| - 1], nodes[|nodes| - 1];
    assert nodes == before + [last];
    if Occurs(file, nodes, imported) {
      var node :| node in nodes && imported in Candidates(file, node);
      assert node in before || node == last;
    }
    if imported in Candidates(file, last) {
      assert last in nodes;
    }
  }

  lemma {:induction false} NamesExactly(layer: Layer, file: SourceFile, names: seq<string>, v: Violation)
    ensures v in InNames(layer, file, names) <==> v.file == file && v.imported in names && Forbidden(layer, v)
  {
    if names != [] {
      NamesExactly(layer, file, names[..|names| - 1], v);
      assert names == names[..|names| - 1] + [names[|names| - 1]];
    }
  }

  lemma {:induction false} NodesExactly(layer: Layer, file: SourceFile, nodes: seq<Node>, v: Violation)
    ensures v in InNodes(layer, file, nodes) <==>
            v.file == file && Forbidden(layer, v) && Occurs(file, nodes, v.imported)
  {
    if nodes != [] {
      NodesExactly(layer, file, nodes[..|nodes| - 1], v);
      NamesExactly(layer, file, Candidates(file, nodes[|nodes| - 1]), v);
      OccursInLast(file, nodes, v.imported);
    }
  }

  lemma {:induction false} FilesExactly(layer: Layer, files: seq<SourceFile>, v: Violation)
    ensures v in InFiles(layer, files) <==> Offends(layer, v, files)
  {
    if files != [] {
      var last := files[|files| - 1];
      FilesExactly(layer, files[..|files| - 1], v);
      NodesExactly(layer, last, last.nodes, v);
      assert files == files[..|files| - 1] + [last];
    }
  }

  method FindInNames(layer: Layer, file: SourceFile, names: seq<string>) returns (violations: seq<Violation>)
    ensures violations == InNames(layer, file, names)
  {
    violations := [];
    for n := 0 to |names|
      invariant violations == InNames(layer, file, names[..n])
    {
      assert names[..n + 1][..n] == names[..n];
      var target := TargetLayer(names[n]);
      if target.Some? && (LayerNamed(target.value).None? || LayerNamed(target.value).value !in Allowed(layer)) {
        violations := violations + [Violation(file, names[n], target.value)];
      }
    }
    assert names[..|names|] == names;
  }

  /** `find_violations`: reports exactly the imports the table does not allow, in order. */
  method FindViolations(layer: Layer, files: seq<SourceFile>) returns (violations: seq<Violation>)
    ensures violations == InFiles(layer, files)
    ensures forall v :: v in violations <==> Offends(layer, v, files)
  {
    violations := [];
    for n := 0 to |files|
      invariant violations == InFiles(layer, files[..n])
    {
      var file := files[n];
      assert files[..n + 1][..n] == files[..n];
      var found := [];
      for k := 0 to |file.nodes|
        invariant found == InNodes(layer, file, file.nodes[..k])
      {
        assert file.nodes[..k + 1][..k] == file.nodes[..k];
        var more := FindInNames(layer, file, Candidates(file, file.nodes[k]));
        found := found + more;
      }
      assert file.nodes[..|file.nodes|] == file.nodes;
      violations := violations + found;
    }
    assert files[..|files|] == files;
    forall v ensures v in violations <==> Offends(layer, v, files) {
      FilesExactly(layer, files, v);
    }
  }

  // --- No import cycles between layers -------------------------------------------------------

  predicate LiesIn(file: SourceFile, layer: Layer) {
    |file.packages| >= 2 && file.packages[0] == PACKAGE && LayerNamed(file.packages[1]) == Some(layer)
  }

  /** The file is in the directory of the layer. */
  ghost predicate InLayer(file: SourceFile, layer: Layer) {
    |file.packages| >= 2 && file.packages[0] == "enginery" && file.packages[1] == NameOf(layer)
  }

  lemma LiesInExactly(file: SourceFile, layer: Layer)
    ensures LiesIn(file, layer) <==> InLayer(file, layer)
  {
    if |file.packages| >= 2 {
      LayerNames(file.packages[1], layer);
    }
  }

  function FilesOf(layer: Layer, tree: seq<SourceFile>): (files: seq<SourceFile>)
    ensures forall file :: file in files <==> file in tree && LiesIn(file, layer)
  {
    if tree == [] then []
    else
      assert tree == tree[..|tree| - 1] + [tree[|tree| - 1]];
      FilesOf(layer, tree[..|tree| - 1]) + (if LiesIn(tree[|tree| - 1], layer) then [tree[|tree| - 1]] else [])
  }

  ghost predicate Clean(tree: seq<SourceFile>) {
    forall layer | layer != Workflows :: InFiles(layer, FilesOf(layer, tree)) == []
  }

  ghost predicate ImportsAs(tree: seq<SourceFile>, file: SourceFile, node: Node, name: string, from: Layer, to: Layer) {
    && file in tree && InLayer(file, from) && node in file.nodes && name in Candidates(file, node)
    && var parts := Split(name, '.'); |parts| >= 2 && parts[0] == "enginery" && parts[1] == NameOf(to)
  }

  /** Some module of `from` imports something of `to`. */
  ghost predicate Imports(tree: seq<SourceFile>, from: Layer, to: Layer) {
    exists file, node, name :: ImportsAs(tree, file, node, name, from, to)
  }

  lemma CleanImportsAreAllowed(tree: seq<SourceFile>, from: Layer, to: Layer)
    requires Clean(tree) && from != Workflows && Imports(tree, from, to)
    ensures from in Importers(to)
  {
    var file, node, name :| ImportsAs(tree, file, node, name, from, to);
    TargetIsSecondPart(name);
    LayerNames(NameOf(to), to);
    LiesInExactly(file, from);
    AllowedExactly(from, to);
    var v := Violation(file, name, TargetLayer(name).value);
    FilesExactly(from, FilesOf(from, tree), v);
    assert !Offends(from, v, FilesOf(from, tree));
  }

  lemma ImportGoesInward(tree: seq<SourceFile>, from: Layer, to: Layer)
    requires Clean(tree) && from != Workflows && to != Workflows && Imports(tree, from, to)
    ensures to == from || Rank(to) < Rank(from)
  {
    CleanImportsAreAllowed(tree, from, to);
    AllowedExactly(from, to);
    AllowedGoesInward(from, to);
  }

  ghost predicate Chain(tree: seq<SourceFile>, layers: seq<Layer>) {
    && (forall i | 0 <= i < |layers| :: layers[i] != Workflows)
    && forall i | 0 <= i < |layers| - 1 :: Imports(tree, layers[i], layers[i + 1])
  }

  ghost predicate Inward(layers: seq<Layer>) {
    forall i | 0 <= i < |layers| - 1 :: layers[i + 1] == layers[i] || Rank(layers[i + 1]) < Rank(layers[i])
  }

  lemma ChainGoesInward(tree: seq<SourceFile>, layers: seq<Layer>)
    requires Clean(tree) && Chain(tree, layers)
    ensures Inward(layers)
  {
    forall i | 0 <= i < |layers| - 1 ensures layers[i + 1] == layers[i] || Rank(layers[i + 1]) < Rank(layers[i]) {
      ImportGoesInward(tree, layers[i], layers[i + 1]);
    }
  }

  lemma {:induction false} InwardThroughout(layers: seq<Layer>, i: nat, j: nat)
    requires Inward(layers) && i <= j < |layers|
    ensures layers[i] == layers[j] || Rank(layers[j]) < Rank(layers[i])
    decreases j - i
  {
    if i < j {
      InwardThroughout(layers, i + 1, j);
    }
  }

  /** In a tree without violations no chain of imports, however long, returns to a layer it has left. */
  lemma NoChainReturns(tree: seq<SourceFile>, layers: seq<Layer>, i: nat, k: nat, j: nat)
    requires Clean(tree) && Chain(tree, layers)
    requires i <= k <= j < |layers| && layers[i] == layers[j]
    ensures layers[k] == layers[i]
  {
    ChainGoesInward(tree, layers);
    InwardThroughout(layers, i, k);
    InwardThroughout(layers, k, j);
  }
}
