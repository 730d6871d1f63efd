/**
 The affected-test planner (src/switchstand/affected_tests.py:18-49, 98-148, 203-214, 248-434). A
 plan may select tests only when every changed file is accounted for; otherwise all tests run.
 */
module AffectedTests {
  import opened Prelude
  import opened ImportGraph

  // ---------------------------------------------------------------- paths

  predicate StartsWith(s: string, prefix: string) { |prefix| <= |s| && s[..|prefix|] == prefix }
  predicate EndsWith(s: string, suffix: string) { |suffix| <= |s| && s[|s| - |suffix|..] == suffix }

  function Split(s: string): (parts: seq<string>)
    ensures parts != []
  {
    if s == "" then [""]
    else
      var rest := Split(s[1..]);
      if s[0] == '/' then [""] + rest else [[s[0]] + rest[0]] + rest[1..]
  }

  function Join(parts: seq<string>): string {
    if parts == [] then "" else if |parts| == 1 then parts[0] else parts[0] + "." + Join(parts[1..])
  }

  /** The dotted module a Python file under `src/` or `tests/` defines. */
  function ModuleOf(path: Path): Option<Name> {
    var parts := Split(path);
    var file := parts[|parts| - 1];
    if !EndsWith(file, ".py") || |file| <= 3 || parts[0] !in {"src", "tests"} then None
    else
      var stems := parts[..|parts| - 1] + [file[..|file| - 3]];
      var inside := if parts[0] == "src" then stems[1..] else stems;
      Some(Join(if inside != [] && inside[|inside| - 1] == "__init__" then inside[..|inside| - 1] else inside))
  }

  predicate IsTest(path: Path) { StartsWith(path, "tests/test_") && EndsWith(path, ".py") }
  predicate IsPython(path: Path) { EndsWith(path, ".py") && (StartsWith(path, "src/") || StartsWith(path, "tests/")) }

  /** `tests/test_[^/]+\.py` in full. */
  predicate IsDirectTest(path: Path) { IsTest(path) && |path| > 14 && '/' !in path[6..] }

  /** `fnmatchcase` for patterns whose only wildcard is `*`, which also crosses slashes. */
  predicate Glob(pattern: string, path: string)
    decreases |pattern| + |path|
  {
    if pattern == "" then path == ""
    else if pattern[0] == '*' then Glob(pattern[1..], path) || (path != "" && Glob(pattern, path[1..]))
    else path != "" && path[0] == pattern[0] && Glob(pattern[1..], path[1..])
  }

  const FALLBACK_PATTERNS := [
    "pyproject.toml", "uv.lock", "alembic.ini", "alembic/**", "migrations/**", "Dockerfile*", "compose*.y*ml",
    ".github/workflows/**", "scripts/check", "scripts/bootstrap", "scripts/switchstand", "scripts/switchstand-*",
    "tests/conftest.py", "docs/assets/**"]

  /** A pattern with the tests it asks for, or with none when it asks for all. */
  datatype Rule = Rule(pattern: string, tests: Option<seq<Path>>)

  const RULES := [
    Rule("scripts/package-size.py", Some(["tests/test_package_size.py"])),
    Rule("src/switchstand/provider.py", Some(["tests/test_provider.py", "tests/test_relations_provider.py"])),
    Rule("src/switchstand/*_runtime.py", None),
    Rule("src/switchstand/chatgpt_edge.py", None),
    Rule("src/switchstand/mcp.py", None)]

  function Matching(rules: seq<Rule>, path: Path): seq<Rule> {
    if rules == [] then []
    else (if Glob(rules[0].pattern, path) then [rules[0]] else []) + Matching(rules[1..], path)
  }

  predicate InFallbackClass(path: Path) { exists i :: 0 <= i < |FALLBACK_PATTERNS| && Glob(FALLBACK_PATTERNS[i], path) }

  /** The tests the one rule matching `path` asks for. */
  function AskedFor(path: Path): seq<Path> {
    var rules := Matching(RULES, path);
    if |rules| == 1 && rules[0].tests.Some? then rules[0].tests.value else []
  }

  function Stem(path: Path): string {
    var parts := Split(path);
    var file := parts[|parts| - 1];
    if |file| > 3 then file[..|file| - 3] else file
  }

  predicate IsSource(path: Path) { StartsWith(path, "src/switchstand/") && EndsWith(path, ".py") }
  function SameName(path: Path): Path { "tests/test_" + Stem(path) + ".py" }

  // ---------------------------------------------------------------- plans

  datatype Reason =
    | ChangedTest(path: Path) | ExplicitRule(path: Path) | ImportsChanged(name: Name) | SharesName(path: Path)

  datatype Fault =
    | Destructive | FallbackClass(path: Path) | UnknownInput(path: Path) | Unmapped(path: Path) | UnreadableGraph
    | Conflicting(path: Path) | ExplicitFallback(path: Path) | AbsentTest(path: Path, test: Path)
    | Uncovered(path: Path)
    | NoSafeSet | TreeUnavailable | AbsentFromTree(test: Path)

  datatype Mode = Selected | FullFallback | NoPlan

  datatype Plan = Plan(
    mode: Mode, changed: seq<Path>, selected: set<Path>, reasons: map<Path, set<Reason>>, faults: set<Fault>,
    destructive: bool)

  function Tests(files: seq<Path>): set<Path> { set p | p in files && IsTest(p) }

  /** What is wrong with the changed paths themselves. */
  function PathFaults(path: Path): set<Fault> {
    (if InFallbackClass(path) then {FallbackClass(path)} else {})
    + (if (StartsWith(path, "src/") || StartsWith(path, "tests/")) && !EndsWith(path, ".py") then {UnknownInput(path)}
       else if ModuleOf(path).None? && Matching(RULES, path) == [] then {Unmapped(path)} else {})
  }

  /** What the explicit rules have to say against selecting anything for `path`. */
  function RuleFaults(path: Path, tests: set<Path>): set<Fault> {
    var rules := Matching(RULES, path);
    if |rules| > 1 then {Conflicting(path)}
    else if |rules| == 1 && rules[0].tests.None? then {ExplicitFallback(path)}
    else set t | t in AskedFor(path) && t !in tests :: AbsentTest(path, t)
  }

  // ---------------------------------------------------------------- the import graph

  /** The imports of a file, or nothing when it cannot be read or parsed. */
  type Reader = Path -> Option<set<Name>>

  /** When several files define one module, the last one listed stands for it. */
  function Definer(files: seq<Path>, name: Name): Option<Path> {
    if files == [] then None
    else if ModuleOf(files[|files| - 1]) == Some(name) then Some(files[|files| - 1])
    else Definer(files[..|files| - 1], name)
  }

  function ModuleNames(paths: seq<Path>): set<Name> {
    set p | p in paths && ModuleOf(p).Some? :: ModuleOf(p).value
  }

  /** Every Python file can be read, so the graph is whole. */
  predicate Whole(files: seq<Path>, read: Reader) {
    forall p <- files :: ModuleOf(p).Some? ==> read(p).Some?
  }

  /** `g` is the import graph of `files`. */
  ghost predicate GraphOf(g: Graph, files: seq<Path>, read: Reader) {
    && (forall n :: if n in g.modules then Definer(files, n) == Some(g.modules[n]) else Definer(files, n) == None)
    && (forall p :: if p in g.imports then p in files && ModuleOf(p).Some? && read(p) == Some(g.imports[p])
                    else p !in files || ModuleOf(p).None?)
  }

  /** Direct test edits need no graph: nothing else can be affected. */
  predicate DirectOnly(changed: seq<Path>, destructive: bool) {
    changed != [] && !destructive && forall p <- changed :: IsDirectTest(p)
  }

  /** Fills the two tables file by file. A file that cannot be read leaves them incomplete. */
  method BuildGraph(files: seq<Path>, read: Reader) returns (whole: bool, g: Graph)
    ensures whole == Whole(files, read)
    ensures whole ==> GraphOf(g, files, read)
  {
    hide ModuleOf;
    g := Graph(map[], map[]);
    for i := 0 to |files|
      invariant Whole(files[..i], read) && GraphOf(g, files[..i], read)
    {
      var path := files[i];
      assert files[..i + 1][..i] == files[..i] && files[..i + 1][i] == path;
      assert files[..i + 1] == files[..i] + [path];
      var name := ModuleOf(path);
      if name.Some? {
        if read(path).None? {
          assert path in files;
          return false, g;
        }
        g := Graph(g.modules[name.value := path], g.imports[path := read(path).value]);
      }
    }
    assert files[..|files|] == files;
    whole := true;
  }

  // ---------------------------------------------------------------- reasons

  /** Why the changes call for `test`. */
  ghost predicate Because(g: Graph, changed: seq<Path>, test: Path, r: Reason) {
    match r
    case ChangedTest(p) => p == test && p in changed
    case ExplicitRule(p) => p in changed && test in AskedFor(p)
    case ImportsChanged(n) => n in ModuleNames(changed) && Reaches(g, test, n)
    case SharesName(p) => p in changed && IsSource(p) && SameName(p) == test
  }

  type Reasons = map<Path, set<Reason>>

  predicate Has(reasons: Reasons, test: Path, r: Reason) { test in reasons && r in reasons[test] }

  /** `select`: only tests that exist can be selected. */
  function Noted(reasons: Reasons, tests: set<Path>, test: Path, r: Reason): (out: Reasons)
    ensures forall t, x :: Has(out, t, x) <==> Has(reasons, t, x) || (t == test && x == r && t in tests)
    ensures (forall t <- reasons :: reasons[t] != {}) ==> forall t <- out :: out[t] != {}
  {
    if test in tests then reasons[test := (if test in reasons then reasons[test] else {}) + {r}] else reasons
  }

  /** Every reason that is recorded holds, every one that holds is recorded, and nothing is selected without one. */
  ghost predicate Reasoned(g: Graph, changed: seq<Path>, tests: set<Path>, reasons: Reasons) {
    && (forall t, r :: Has(reasons, t, r) <==> t in tests && Because(g, changed, t, r))
    && (forall t <- reasons :: reasons[t] != {})
  }

  /** Reasons a changed path gives by itself, before the graph is walked. */
  method PathReasons(changed: seq<Path>, tests: set<Path>) returns (reasons: Reasons)
    ensures forall t, r :: Has(reasons, t, r) <==>
      t in tests && !r.ImportsChanged? && Because(Graph(map[], map[]), changed, t, r)
    ensures forall t <- reasons :: reasons[t] != {}
  {
    hide AskedFor, IsSource, SameName;
    reasons := map[];
    for i := 0 to |changed|
      invariant forall t, r :: Has(reasons, t, r) <==>
        t in tests && !r.ImportsChanged? && Because(Graph(map[], map[]), changed[..i], t, r)
      invariant forall t <- reasons :: reasons[t] != {}
    {
      var path := changed[i];
      assert changed[..i + 1] == changed[..i] + [path];
      reasons := Noted(reasons, tests, path, ChangedTest(path));
      var asked := AskedFor(path);
      ghost var was := reasons;
      for j := 0 to |asked|
        invariant forall t, r :: Has(reasons, t, r) <==>
          Has(was, t, r) || (t in tests && r == ExplicitRule(path) && t in asked[..j])
        invariant forall t <- reasons :: reasons[t] != {}
      {
        assert asked[..j + 1] == asked[..j] + [asked[j]];
        reasons := Noted(reasons, tests, asked[j], ExplicitRule(path));
      }
      assert asked[..|asked|] == asked;
      if IsSource(path) { reasons := Noted(reasons, tests, SameName(path), SharesName(path)); }
    }
    assert changed[..|changed|] == changed;
  }

  /** Adds what the import graph says of every test. */
  method GraphReasons(g: Graph, changed: seq<Path>, files: seq<Path>, given: Reasons) returns (reasons: Reasons)
    requires forall t, r ::
      Has(given, t, r) <==> t in Tests(files) && !r.ImportsChanged? && Because(Graph(map[], map[]), changed, t, r)
    requires forall t <- given :: given[t] != {}
    ensures Reasoned(g, changed, Tests(files), reasons)
  {
    hide AskedFor, IsSource, SameName, ModuleNames, Reaches, IsTest;
    var tests, modules := Tests(files), ModuleNames(changed);
    reasons := given;
    var todo := tests;
    while todo != {}
      invariant todo <= tests
      invariant forall t, r :: Has(reasons, t, r) <==>
        Has(given, t, r) || (t in tests - todo && r.ImportsChanged? && r.name in modules && Reaches(g, t, r.name))
      invariant forall t <- reasons :: reasons[t] != {}
      decreases |todo|
    {
      var test :| test in todo;
      RemoveShrinks(todo, test);
      todo := todo - {test};
      var found := ImportedChanges(g, modules, test);
      ghost var was, all := reasons, found;
      while found != {}
        invariant found <= all
        invariant forall t, r :: Has(reasons, t, r) <==>
          Has(was, t, r) || (t == test && r.ImportsChanged? && r.name in all - found)
        invariant forall t <- reasons :: reasons[t] != {}
        decreases |found|
      {
        var n :| n in found;
        RemoveShrinks(found, n);
        found := found - {n};
        reasons := Noted(reasons, tests, test, ImportsChanged(n));
      }
    }
  }

  // ---------------------------------------------------------------- the plan

  /** A changed Python file that some test covers: it is one, imports it, or is asked for by its rule. */
  predicate Covered(path: Path, tests: set<Path>, reasons: Reasons) {
    || path in tests
    || (exists t <- reasons :: ExplicitRule(path) in reasons[t]
                               || (ModuleOf(path).Some? && ImportsChanged(ModuleOf(path).value) in reasons[t]))
  }

  /** Nothing speaks against selecting for `path`. */
  predicate Clean(path: Path, tests: set<Path>, reasons: Reasons) {
    PathFaults(path) == {} && RuleFaults(path, tests) == {} && (IsPython(path) ==> Covered(path, tests, reasons))
  }

  function FaultsOf(path: Path, tests: set<Path>, reasons: Reasons): set<Fault> {
    PathFaults(path) + RuleFaults(path, tests)
        + (if IsPython(path) && !Covered(path, tests, reasons) then {Uncovered(path)} else {})
  }

  method CollectFaults(changed: seq<Path>, tests: set<Path>, reasons: Reasons) returns (faults: set<Fault>)
    ensures faults == {} <==> forall p <- changed :: Clean(p, tests, reasons)
  {
    hide PathFaults, RuleFaults, Covered, IsPython;
    faults := {};
    for i := 0 to |changed|
      invariant faults == {} <==> forall p <- changed[..i] :: Clean(p, tests, reasons)
    {
      assert changed[..i + 1] == changed[..i] + [changed[i]];
      assert FaultsOf(changed[i], tests, reasons) == {} <==> Clean(changed[i], tests, reasons);
      faults := faults + FaultsOf(changed[i], tests, reasons);
    }
    assert changed[..|changed|] == changed;
  }

  /** The graph the planner walks: none for direct test edits. */
  ghost predicate PlannedOn(g: Graph, changed: seq<Path>, destructive: bool, files: seq<Path>, read: Reader) {
    if DirectOnly(changed, destructive) then g == Graph(map[], map[]) else Whole(files, read) && GraphOf(g, files, read)
  }

  /** The whole plan, and the graph it walked. */
  method MakePlan(changed: seq<Path>, destructive: bool, files: seq<Path>, read: Reader) returns (p: Plan, g: Graph)
    ensures p.changed == changed && p.destructive == destructive
    ensures Reasoned(g, changed, Tests(files), p.reasons)
    ensures p.mode == Selected <==>
      && !destructive && PlannedOn(g, changed, destructive, files, read) && p.reasons != map[]
      && (forall path <- changed :: Clean(path, Tests(files), p.reasons))
    ensures p.mode == Selected ==> p.faults == {} && p.selected == p.reasons.Keys
    ensures p.mode != Selected ==> p.faults != {} && p.selected == Tests(files)
    ensures p.mode == NoPlan <==> p.mode != Selected && Tests(files) == {}
  {
    hide IsTest, Clean, Because, DirectOnly, GraphOf;
    var tests := Tests(files);
    var reasons := PathReasons(changed, tests);
    var whole := true;
    g := Graph(map[], map[]);
    if !DirectOnly(changed, destructive) { whole, g := BuildGraph(files, read); }
    reasons := GraphReasons(g, changed, files, reasons);
    var faults := CollectFaults(changed, tests, reasons);
    if destructive { faults := faults + {Destructive}; }
    if !whole { faults := faults + {UnreadableGraph}; }
    if faults != {} || reasons == map[] {
      if faults == {} { faults := {NoSafeSet}; }
      p := Plan(if tests != {} then FullFallback else NoPlan, changed, tests, reasons, faults, destructive);
    } else {
      p := Plan(Selected, changed, reasons.Keys, reasons, faults, destructive);
    }
  }

  // ---------------------------------------------------------------- what a selected plan promises

  /** What `MakePlan` guarantees of a plan that selects. */
  ghost predicate Selects(p: Plan, g: Graph, files: seq<Path>, read: Reader) {
    && p.mode == Selected && !p.destructive && p.faults == {} && p.reasons != map[] && p.selected == p.reasons.Keys
    && Reasoned(g, p.changed, Tests(files), p.reasons) && PlannedOn(g, p.changed, p.destructive, files, read)
    && (forall path <- p.changed :: Clean(path, Tests(files), p.reasons))
  }

  /** Why `test` must run, in terms of the changes and the graph alone. */
  ghost predicate Chosen(g: Graph, changed: seq<Path>, test: Path) {
    || test in changed
    || (exists p <- changed :: test in AskedFor(p))
    || (exists n <- ModuleNames(changed) :: Reaches(g, test, n))
    || (exists p <- changed :: IsSource(p) && SameName(p) == test)
  }

  /** A selected plan runs exactly the tests the changes call for. */
  lemma SelectsExactly(p: Plan, g: Graph, files: seq<Path>, read: Reader, test: Path)
    requires Selects(p, g, files, read) && test in Tests(files)
    ensures test in p.selected <==> Chosen(g, p.changed, test)
  {
    hide AskedFor, IsSource, SameName, Reaches, ModuleNames, Clean, PlannedOn, Tests;
    if test in p.selected {
      var r :| r in p.reasons[test];
      assert Has(p.reasons, test, r);
    }
    if Chosen(g, p.changed, test) {
      var r := ReasonFor(g, p.changed, test);
      assert Because(g, p.changed, test, r) && Has(p.reasons, test, r);
    }
  }

  /** One reason that holds of a chosen test. */
  ghost function ReasonFor(g: Graph, changed: seq<Path>, test: Path): (r: Reason)
    requires Chosen(g, changed, test)
    ensures Because(g, changed, test, r)
  {
    if test in changed then ChangedTest(test)
    else if exists p <- changed :: test in AskedFor(p) then
      var p :| p in changed && test in AskedFor(p); ExplicitRule(p)
    else if exists n <- ModuleNames(changed) :: Reaches(g, test, n) then
      var n :| n in ModuleNames(changed) && Reaches(g, test, n); ImportsChanged(n)
    else var p :| p in changed && IsSource(p) && SameName(p) == test; SharesName(p)
  }

  /** Every changed Python file is a selected test itself, or a selected test imports it or is its rule's. */
  lemma ChangesAreCovered(p: Plan, g: Graph, files: seq<Path>, read: Reader, path: Path)
    requires Selects(p, g, files, read) && path in p.changed && IsPython(path)
    ensures || path in p.selected
            || (exists t <- p.selected :: t in AskedFor(path))
            || (exists t <- p.selected :: ModuleOf(path).Some? && Reaches(g, t, ModuleOf(path).value))
  {
    hide AskedFor, Reaches, PlannedOn, Tests, ModuleOf, IsPython, PathFaults, RuleFaults;
    assert Covered(path, Tests(files), p.reasons);
    if path in Tests(files) {
      assert Has(p.reasons, path, ChangedTest(path));
    } else {
      var t :| t in p.reasons && (ExplicitRule(path) in p.reasons[t]
                 || (ModuleOf(path).Some? && ImportsChanged(ModuleOf(path).value) in p.reasons[t]));
      if ExplicitRule(path) in p.reasons[t] {
        assert Has(p.reasons, t, ExplicitRule(path));
      } else {
        assert Has(p.reasons, t, ImportsChanged(ModuleOf(path).value));
      }
    }
  }

  /** No rule speaks of anything under `tests/`. */
  lemma TestsHaveNoRules(path: Path)
    requires StartsWith(path, "tests/")
    ensures AskedFor(path) == [] && !IsSource(path)
  {
    PrefixHead(path, "tests/");
    assert RULES[0].pattern[0] == 's' && RULES[1].pattern[0] == 's' && RULES[2].pattern[0] == 's';
    assert RULES[3].pattern[0] == 's' && RULES[4].pattern[0] == 's';
    NoMatch(RULES, path);
    if StartsWith(path, "src/switchstand/") {
      PrefixHead(path, "src/switchstand/");
      assert false;
    }
  }

  lemma PrefixHead(s: string, prefix: string)
    requires StartsWith(s, prefix) && prefix != ""
    ensures s != "" && s[0] == prefix[0]
  {}

  lemma {:induction false} NoMatch(rules: seq<Rule>, path: Path)
    requires path != "" && forall r <- rules :: r.pattern != "" && r.pattern[0] == 's' && path[0] == 't'
    ensures Matching(rules, path) == []
  {
    if rules != [] {
      assert rules[0] in rules;
      NoMatch(rules[1..], path);
    }
  }

  /** When only test modules changed, a selected plan runs those tests and no other. */
  lemma DirectEditsSelectThemselves(p: Plan, g: Graph, files: seq<Path>, read: Reader)
    requires Selects(p, g, files, read) && DirectOnly(p.changed, p.destructive)
    ensures p.selected == set path | path in p.changed
  {
    assert forall path <- p.changed :: IsDirectTest(path);
    DirectIsTest(p.changed);
    hide AskedFor, IsSource, SameName, ModuleOf, PathFaults, RuleFaults, DirectOnly, IsDirectTest, IsTest, IsPython,
         Tests;
    forall path <- p.changed ensures path in p.selected && AskedFor(path) == [] && !IsSource(path) {
      TestsHaveNoRules(path);
      ChangesAreCovered(p, g, files, read, path);
      if path !in p.selected { NothingReached(p.selected, ModuleOf(path)); }
    }
    forall test <- p.selected ensures test in p.changed {
      var r :| r in p.reasons[test];
      assert Has(p.reasons, test, r);
    }
  }

  lemma DirectIsTest(paths: seq<Path>)
    requires forall p <- paths :: IsDirectTest(p)
    ensures forall p <- paths :: StartsWith(p, "tests/") && IsPython(p)
  {
    forall p <- paths ensures StartsWith(p, "tests/") && IsPython(p) {
      assert "tests/test_"[..6] == "tests/" && p[..6] == p[..11][..6];
    }
  }

  lemma NothingReached(tests: set<Path>, name: Option<Name>)
    ensures forall t <- tests :: name.Some? ==> !Reaches(Graph(map[], map[]), t, name.value)
  {}

  // ---------------------------------------------------------------- executing a plan

  /** `validate_execution_tree`: `files` of the tree to be run, or nothing when it cannot be read. */
  function ValidateTree(p: Plan, files: Option<seq<Path>>): Plan {
    if files.None? then p.(mode := NoPlan, selected := {}, faults := p.faults + {TreeUnavailable})
    else
      var missing := set t | t in p.selected && t !in files.value;
      if missing == {} then p
      else
        p.(mode := if Tests(files.value) != {} then FullFallback else NoPlan, selected := Tests(files.value),
           faults := p.faults + set t | t in missing :: AbsentFromTree(t))
  }

  const PROMOTED: set<Path> := {"scripts/package-size.py", "src/switchstand/coordinator_worker_state.py"}
  const SERIAL: set<Path> := {"tests/test_chatgpt_edge_process.py", "tests/test_update_gateway.py"}

  datatype Authority = TestModulesOnly | AffectedInputs | RunEverything

  /** `foreground_authority`: `exact` stands for an exact, verified subject under the promoted planner revision. */
  function ForegroundAuthority(p: Plan, exact: bool, healthy: bool, stackTop: bool): Authority {
    if || !exact || !healthy || stackTop || p.mode != Selected || p.faults != {} || p.destructive
       || p.changed == [] || (exists c <- p.changed :: !IsDirectTest(c) && c !in PROMOTED)
       || p.selected == {} || (exists t <- p.selected :: !IsDirectTest(t))
       || (exists c <- p.changed :: IsDirectTest(c) && c !in p.selected)
       || SERIAL * (p.selected + set c | c in p.changed) != {}
    then RunEverything
    else if forall c <- p.changed :: IsDirectTest(c) then TestModulesOnly
    else AffectedInputs
  }

  lemma Disjoint(a: set<Path>, b: set<Path>, c: set<Path>)
    requires a * (b + c) == {}
    ensures b !! a
  {
    assert forall x <- b :: x in a ==> x in a * (b + c);
  }

  /** What promotion of a plan validated against the tree it runs on amounts to. */
  lemma PromotionIsSafe(
    p: Plan, g: Graph, files: seq<Path>, read: Reader, tree: Option<seq<Path>>, exact: bool, healthy: bool,
    stackTop: bool)
    requires p.mode == Selected ==> Selects(p, g, files, read)
    requires p.mode != Selected ==> p.faults != {}
    ensures var q := ValidateTree(p, tree);
      var a := ForegroundAuthority(q, exact, healthy, stackTop);
      && (q.mode == Selected ==> q == p && tree.Some? && forall t <- q.selected :: t in tree.value)
      && (a != RunEverything ==>
            q == p && exact && healthy && !stackTop && p.selected !! SERIAL
            && forall t <- Tests(files) :: t in p.selected <==> Chosen(g, p.changed, t))
      && (a == TestModulesOnly ==> p.selected == set c | c in p.changed)
  {
    hide Reasoned, PlannedOn, Clean, Chosen, IsDirectTest, Tests;
    var q := ValidateTree(p, tree);
    if ForegroundAuthority(q, exact, healthy, stackTop) != RunEverything {
      Disjoint(SERIAL, q.selected, set c | c in q.changed);
    }
    if q.mode == Selected {
      var missing := set t | t in p.selected && t !in tree.value;
      assert q == p && missing == {};
      forall t <- p.selected ensures t in tree.value { assert t !in missing; }
      forall t <- Tests(files) ensures t in p.selected <==> Chosen(g, p.changed, t) {
        SelectsExactly(p, g, files, read, t);
      }
      if ForegroundAuthority(q, exact, healthy, stackTop) == TestModulesOnly {
        DirectEditsSelectThemselves(p, g, files, read);
      }
    }
  }
}
