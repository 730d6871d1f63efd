/**
 The planner's tables, exactly: which paths force a full run, which tests the rules ask for, which
 module a file is, and which plan may be promoted.
 */
module SelectionExact {
  import opened Prelude
  import opened ImportGraph
  import opened AffectedTests

  // ---------------------------------------------------------------- patterns

  /** Text before the first `*` must be there literally. */
  lemma {:induction false} GlobText(text: string, rest: string, path: string)
    requires '*' !in text
    ensures Glob(text + rest, path) <==> StartsWith(path, text) && Glob(rest, path[|text|..])
  {
    if text == "" {
      assert text + rest == rest && path[0..] == path;
    } else {
      assert (text + rest)[1..] == text[1..] + rest;
      if path != "" && path[0] == text[0] {
        GlobText(text[1..], rest, path[1..]);
        assert StartsWith(path, text) <==> StartsWith(path[1..], text[1..]) by {
          if StartsWith(path[1..], text[1..]) { assert path[..|text|] == [path[0]] + path[1..][..|text| - 1]; }
          if StartsWith(path, text) { assert path[1..][..|text| - 1] == path[..|text|][1..]; }
        }
        if StartsWith(path, text) { assert path[|text|..] == path[1..][|text| - 1..]; }
      }
    }
  }

  /** A star stands for any text. */
  lemma {:induction false} GlobStar(rest: string, path: string)
    ensures Glob("*" + rest, path) <==> exists i :: 0 <= i <= |path| && Glob(rest, path[i..])
  {
    var pattern := "*" + rest;
    assert pattern[1..] == rest && path[0..] == path;
    if path != "" {
      GlobStar(rest, path[1..]);
      if Glob(pattern, path[1..]) {
        var i :| 0 <= i <= |path| - 1 && Glob(rest, path[1..][i..]);
        assert path[1..][i..] == path[i + 1..];
      }
      if exists i :: 0 <= i <= |path| && Glob(rest, path[i..]) {
        var i :| 0 <= i <= |path| && Glob(rest, path[i..]);
        if i > 0 { assert path[1..][i - 1..] == path[i..]; }
      }
    }
  }

  lemma GlobLiteral(text: string, path: string)
    requires '*' !in text
    ensures Glob(text, path) <==> path == text
  {
    GlobText(text, "", path);
    assert text + "" == text;
    if StartsWith(path, text) && path[|text|..] == "" { assert path == path[..|text|] + path[|text|..]; }
  }

  lemma GlobAll(path: string)
    ensures Glob("*", path) && Glob("**", path)
  {
    GlobStar("", path);
    assert path[|path|..] == "" && "*" + "" == "*" && path[0..] == path;
    GlobStar("*", path);
    assert "*" + "*" == "**";
  }

  lemma GlobPrefix(text: string, path: string)
    requires '*' !in text
    ensures Glob(text + "*", path) <==> StartsWith(path, text)
    ensures Glob(text + "**", path) <==> StartsWith(path, text)
  {
    GlobText(text, "*", path);
    GlobText(text, "**", path);
    if StartsWith(path, text) { GlobAll(path[|text|..]); }
  }

  /** A prefix, anything, and a suffix. */
  predicate Between(path: string, prefix: string, suffix: string) {
    |prefix| + |suffix| <= |path| && StartsWith(path, prefix) && EndsWith(path, suffix)
  }

  lemma GlobSuffix(suffix: string, path: string)
    requires '*' !in suffix
    ensures Glob("*" + suffix, path) <==> EndsWith(path, suffix)
  {
    GlobStar(suffix, path);
    forall i | 0 <= i <= |path| ensures Glob(suffix, path[i..]) <==> path[i..] == suffix {
      GlobLiteral(suffix, path[i..]);
    }
  }

  lemma GlobBetween(prefix: string, suffix: string, path: string)
    requires '*' !in prefix && '*' !in suffix
    ensures Glob(prefix + ("*" + suffix), path) <==> Between(path, prefix, suffix)
  {
    GlobText(prefix, "*" + suffix, path);
    if StartsWith(path, prefix) {
      var rest := path[|prefix|..];
      GlobSuffix(suffix, rest);
      if |suffix| <= |rest| { assert rest[|rest| - |suffix|..] == path[|path| - |suffix|..]; }
    }
  }

  // ---------------------------------------------------------------- what forces a full run

  /** Two stars between three pieces of text. */
  ghost predicate Threaded(path: string, p: string, m: string, q: string) {
    exists a, b :: path == p + a + m + b + q
  }

  lemma GlobThreaded(p: string, m: string, q: string, path: string)
    requires '*' !in p && '*' !in m && '*' !in q
    ensures Glob(p + ("*" + (m + ("*" + q))), path) <==> Threaded(path, p, m, q)
  {
    var tail := m + ("*" + q);
    GlobText(p, "*" + tail, path);
    if StartsWith(path, p) {
      GlobStar(tail, path[|p|..]);
      forall i | 0 <= i <= |path[|p|..]| ensures Glob(tail, path[|p|..][i..]) <==> Between(path[|p|..][i..], m, q) {
        GlobBetween(m, q, path[|p|..][i..]);
      }
      hide Glob;
      if i :| 0 <= i <= |path[|p|..]| && Between(path[|p|..][i..], m, q) { ThreadedFound(path, p, m, q, i); }
    }
    if Threaded(path, p, m, q) { ThreadedLost(path, p, m, q); }
  }

  lemma ThreadedFound(path: string, p: string, m: string, q: string, i: nat)
    requires StartsWith(path, p) && i <= |path| - |p| && Between(path[|p|..][i..], m, q)
    ensures Threaded(path, p, m, q)
  {
    var last := path[|p|..][i..];
    var a, b := path[|p|..][..i], last[|m|..|last| - |q|];
    assert last == m + b + q by {
      assert last == last[..|m|] + b + last[|last| - |q|..];
    }
    assert path == p + (a + last) by {
      assert path == path[..|p|] + path[|p|..] && path[|p|..] == a + last;
    }
    Threads(path, p, a, m, b, q);
  }

  lemma Threads(path: string, p: string, a: string, m: string, b: string, q: string)
    requires path == p + (a + (m + b + q))
    ensures Threaded(path, p, m, q)
  {
    assert path == p + a + m + b + q;
  }

  lemma ThreadedLost(path: string, p: string, m: string, q: string)
    requires Threaded(path, p, m, q)
    ensures StartsWith(path, p) && exists i :: 0 <= i <= |path| - |p| && Between(path[|p|..][i..], m, q)
  {
    var a, b :| path == p + a + m + b + q;
    assert path == p + (a + (m + b + q));
    assert path[|p|..] == a + (m + b + q);
    var last := path[|p|..][|a|..];
    assert last == m + b + q && last[..|m|] == m && last[|last| - |q|..] == q;
  }

  /** A compose file in YAML, whatever it is called. */
  ghost predicate Compose(path: string) { Threaded(path, "compose", ".y", "ml") }

  lemma ComposeExactly(path: string)
    ensures Glob("compose*.y*ml", path) <==> Compose(path)
  {
    hide Glob, Threaded;
    assert "compose*.y*ml" == "compose" + ("*" + (".y" + ("*" + "ml")));
    GlobThreaded("compose", ".y", "ml", path);
  }

  /** The shared inputs whose change runs every test. */
  ghost predicate Shared(path: string) {
    || path in ["pyproject.toml", "uv.lock", "alembic.ini", "scripts/check", "scripts/bootstrap", "scripts/switchstand",
                "tests/conftest.py"]
    || StartsWith(path, "alembic/") || StartsWith(path, "migrations/") || StartsWith(path, "Dockerfile")
    || StartsWith(path, ".github/workflows/") || StartsWith(path, "scripts/switchstand-")
    || StartsWith(path, "docs/assets/")
    || Compose(path)
  }

  lemma FallbackExactly(path: string)
    ensures InFallbackClass(path) <==> Shared(path)
  {
    FallbackList(path);
    LiteralsExactly(path);
    PrefixesExactly(path);
    ComposeExactly(path);
    hide Glob, StartsWith, Compose, InFallbackClass;
  }

  lemma LiteralsExactly(path: string)
    ensures Glob("pyproject.toml", path) <==> path == "pyproject.toml"
    ensures Glob("uv.lock", path) <==> path == "uv.lock"
    ensures Glob("alembic.ini", path) <==> path == "alembic.ini"
    ensures Glob("scripts/check", path) <==> path == "scripts/check"
    ensures Glob("scripts/bootstrap", path) <==> path == "scripts/bootstrap"
    ensures Glob("scripts/switchstand", path) <==> path == "scripts/switchstand"
    ensures Glob("tests/conftest.py", path) <==> path == "tests/conftest.py"
  {
    hide Glob;
    GlobLiteral("pyproject.toml", path);
    GlobLiteral("uv.lock", path);
    GlobLiteral("alembic.ini", path);
    GlobLiteral("scripts/check", path);
    GlobLiteral("scripts/bootstrap", path);
    GlobLiteral("scripts/switchstand", path);
    GlobLiteral("tests/conftest.py", path);
  }

  lemma PrefixesExactly(path: string)
    ensures Glob("alembic/" + "**", path) <==> StartsWith(path, "alembic/")
    ensures Glob("migrations/" + "**", path) <==> StartsWith(path, "migrations/")
    ensures Glob("Dockerfile" + "*", path) <==> StartsWith(path, "Dockerfile")
    ensures Glob(".github/workflows/" + "**", path) <==> StartsWith(path, ".github/workflows/")
    ensures Glob("scripts/switchstand-" + "*", path) <==> StartsWith(path, "scripts/switchstand-")
    ensures Glob("docs/assets/" + "**", path) <==> StartsWith(path, "docs/assets/")
  {
    hide Glob, StartsWith;
    GlobPrefix("alembic/", path);
    GlobPrefix("migrations/", path);
    GlobPrefix("Dockerfile", path);
    GlobPrefix(".github/workflows/", path);
    GlobPrefix("scripts/switchstand-", path);
    GlobPrefix("docs/assets/", path);
  }

  /** The patterns, one by one. */
  lemma FallbackList(path: string)
    ensures InFallbackClass(path) <==>
      || Glob("pyproject.toml", path) || Glob("uv.lock", path) || Glob("alembic.ini", path)
      || Glob("alembic/" + "**", path)
      || Glob("migrations/" + "**", path) || Glob("Dockerfile" + "*", path) || Glob("compose*.y*ml", path)
      || Glob(".github/workflows/" + "**", path) || Glob("scripts/check", path) || Glob("scripts/bootstrap", path)
      || Glob("scripts/switchstand", path) || Glob("scripts/switchstand-" + "*", path)
      || Glob("tests/conftest.py", path)
      || Glob("docs/assets/" + "**", path)
  {
    hide Glob;
    var p := FALLBACK_PATTERNS;
    assert p[0] == "pyproject.toml" && p[1] == "uv.lock" && p[2] == "alembic.ini" && p[3] == "alembic/" + "**";
    assert p[4] == "migrations/" + "**" && p[5] == "Dockerfile" + "*" && p[6] == "compose*.y*ml";
    assert p[7] == ".github/workflows/" + "**" && p[8] == "scripts/check" && p[9] == "scripts/bootstrap";
    assert p[10] == "scripts/switchstand" && p[11] == "scripts/switchstand-" + "*" && p[12] == "tests/conftest.py";
    assert p[13] == "docs/assets/" + "**" && |p| == 14;
  }

  // ---------------------------------------------------------------- what the rules ask for

  /** Changes that always run every test. */
  predicate RunsAll(path: string) {
    || Between(path, "src/switchstand/", "_runtime.py")
    || path == "src/switchstand/chatgpt_edge.py" || path == "src/switchstand/mcp.py"
  }

  /** The tests a rule asks for by name. */
  function Named(path: string): seq<string> {
    if path == "scripts/package-size.py" then ["tests/test_package_size.py"]
    else if path == "src/switchstand/provider.py" then ["tests/test_provider.py", "tests/test_relations_provider.py"]
    else []
  }

  lemma RulePatterns(path: string)
    ensures Glob(RULES[0].pattern, path) <==> path == "scripts/package-size.py"
    ensures Glob(RULES[1].pattern, path) <==> path == "src/switchstand/provider.py"
    ensures Glob(RULES[2].pattern, path) <==> Between(path, "src/switchstand/", "_runtime.py")
    ensures Glob(RULES[3].pattern, path) <==> path == "src/switchstand/chatgpt_edge.py"
    ensures Glob(RULES[4].pattern, path) <==> path == "src/switchstand/mcp.py"
  {
    LiteralRules(path);
    PatternTexts();
    GlobBetween("src/switchstand/", "_runtime.py", path);
    hide *;
  }

  lemma PatternTexts()
    ensures RULES[0].pattern == "scripts/package-size.py" && RULES[1].pattern == "src/switchstand/provider.py"
    ensures RULES[2].pattern == "src/switchstand/" + ("*" + "_runtime.py")
    ensures RULES[3].pattern == "src/switchstand/chatgpt_edge.py" && RULES[4].pattern == "src/switchstand/mcp.py"
  {}

  lemma LiteralRules(path: string)
    ensures Glob("scripts/package-size.py", path) <==> path == "scripts/package-size.py"
    ensures Glob("src/switchstand/provider.py", path) <==> path == "src/switchstand/provider.py"
    ensures Glob("src/switchstand/chatgpt_edge.py", path) <==> path == "src/switchstand/chatgpt_edge.py"
    ensures Glob("src/switchstand/mcp.py", path) <==> path == "src/switchstand/mcp.py"
  {
    hide Glob;
    GlobLiteral("scripts/package-size.py", path);
    GlobLiteral("src/switchstand/provider.py", path);
    GlobLiteral("src/switchstand/chatgpt_edge.py", path);
    GlobLiteral("src/switchstand/mcp.py", path);
  }

  function RuleAt(path: string, i: nat): seq<Rule>
    requires i < |RULES|
  {
    if Glob(RULES[i].pattern, path) then [RULES[i]] else []
  }

  lemma MatchingIs(path: string)
    ensures Matching(RULES, path)
            == RuleAt(path, 0) + (RuleAt(path, 1) + (RuleAt(path, 2) + (RuleAt(path, 3) + (RuleAt(path, 4) + []))))
  {
    hide Glob;
    assert |RULES| == 5 && RULES[5..] == [];
    assert RULES[1..][0] == RULES[1] && RULES[1..][1..] == RULES[2..] && RULES[2..][0] == RULES[2];
    assert RULES[2..][1..] == RULES[3..] && RULES[3..][0] == RULES[3] && RULES[3..][1..] == RULES[4..];
    assert RULES[4..][0] == RULES[4] && RULES[4..][1..] == RULES[5..];
    assert Matching(RULES[5..], path) == [];
    assert Matching(RULES[4..], path) == RuleAt(path, 4) + [];
    assert Matching(RULES[3..], path) == RuleAt(path, 3) + Matching(RULES[4..], path);
    assert Matching(RULES[2..], path) == RuleAt(path, 2) + Matching(RULES[3..], path);
    assert Matching(RULES[1..], path) == RuleAt(path, 1) + Matching(RULES[2..], path);
  }

  /** A path of another ending is no runtime. */
  lemma NoRuntime(path: string)
    requires path in ["scripts/package-size.py", "src/switchstand/provider.py", "src/switchstand/chatgpt_edge.py",
                      "src/switchstand/mcp.py"]
    ensures !Between(path, "src/switchstand/", "_runtime.py")
  {
    var end := "_runtime.py";
    assert end[6] == 'm' && end[7] == 'e' && |end| == 11;
    assert path[|path| - 5] != 'm';
    if |path| >= 11 {
      assert path[|path| - 11..][6] == path[|path| - 5] && path[|path| - 11..][7] == path[|path| - 4];
    }
  }

  /** No path falls under two rules; what the one it falls under says. */
  lemma RulesExactly(path: string)
    ensures |Matching(RULES, path)| <= 1
    ensures AskedFor(path) == Named(path)
    ensures RunsAll(path) <==> Matching(RULES, path) != [] && Matching(RULES, path)[0].tests == None
    ensures Matching(RULES, path) == [] <==> Named(path) == [] && !RunsAll(path)
  {
    RulePatterns(path);
    MatchingIs(path);
    hide Glob, Matching, Between;
    if path in ["scripts/package-size.py", "src/switchstand/provider.py", "src/switchstand/chatgpt_edge.py",
                "src/switchstand/mcp.py"] {
      NoRuntime(path);
    }
  }

  // ---------------------------------------------------------------- paths and modules

  /** `tests/test_NAME.py`, directly under `tests/`. */
  ghost predicate DirectTest(path: string) {
    exists name :: name != "" && '/' !in name && path == "tests/test_" + name + ".py"
  }

  lemma DirectTestsExactly(path: string)
    ensures IsDirectTest(path) <==> DirectTest(path)
  {
    if IsDirectTest(path) {
      var name := path[11..|path| - 3];
      assert path == path[..11] + name + path[|path| - 3..];
      forall c | c in name ensures c != '/' {
        var i :| 0 <= i < |name| && name[i] == c;
        assert path[6..][i + 5] == c;
      }
      assert path == "tests/test_" + name + ".py";
    }
    if DirectTest(path) {
      var name :| name != "" && '/' !in name && path == "tests/test_" + name + ".py";
      assert path[..11] == "tests/test_" && path[|path| - 3..] == ".py";
      assert path[6..] == "test_" + name + ".py";
    }
  }

  /** The path of a file, from its directories and its name. */
  function PathOf(parts: seq<string>): string {
    if parts == [] then "" else if |parts| == 1 then parts[0] else parts[0] + "/" + PathOf(parts[1..])
  }

  predicate NoSlash(parts: seq<string>) { forall i :: 0 <= i < |parts| ==> '/' !in parts[i] }

  lemma {:induction false} SplitHead(word: string, rest: string)
    requires '/' !in word
    ensures Split(word + "/" + rest) == [word] + Split(rest) && Split(word) == [word]
  {
    if word == "" {
      assert word + "/" + rest == "/" + rest && ("/" + rest)[1..] == rest;
    } else {
      SplitHead(word[1..], rest);
      assert (word + "/" + rest)[1..] == word[1..] + "/" + rest;
      assert [word[0]] + word[1..] == word;
    }
  }

  lemma {:induction false} SplitPath(parts: seq<string>)
    requires parts != [] && NoSlash(parts)
    ensures Split(PathOf(parts)) == parts
  {
    if |parts| == 1 {
      SplitHead(parts[0], "");
    } else {
      SplitHead(parts[0], PathOf(parts[1..]));
      SplitPath(parts[1..]);
    }
  }

  /** The module of a Python file is its dotted path, without `src`, and without `__init__`. */
  lemma ModulesExactly(top: string, dirs: seq<string>, stem: string)
    requires top in {"src", "tests"} && NoSlash(dirs) && '/' !in stem && stem != ""
    ensures var path := PathOf([top] + dirs + [stem + ".py"]);
      var inside := if top == "src" then dirs else [top] + dirs;
      ModuleOf(path) == Some(Join(if stem == "__init__" then inside else inside + [stem]))
  {
    var parts := [top] + dirs + [stem + ".py"];
    forall i | 0 <= i < |parts| ensures '/' !in parts[i] {
      if 0 < i <= |dirs| { assert parts[i] == dirs[i - 1]; }
    }
    SplitPath(parts);
    var file := stem + ".py";
    assert parts[|parts| - 1] == file && file[..|file| - 3] == stem && file[|file| - 3..] == ".py";
    var stems := parts[..|parts| - 1] + [stem];
    assert stems == [top] + dirs + [stem] && stems[1..] == dirs + [stem];
    var inside := if top == "src" then dirs else [top] + dirs;
    var all := if top == "src" then stems[1..] else stems;
    assert all == inside + [stem] && all[..|all| - 1] == inside;
    hide Split, Join, PathOf;
  }

  /** A source file shares its name with the test of the same stem. */
  lemma SameNamesExactly(dirs: seq<string>, stem: string)
    requires NoSlash(dirs) && '/' !in stem && stem != ""
    ensures SameName(PathOf(["src", "switchstand"] + dirs + [stem + ".py"])) == "tests/test_" + stem + ".py"
  {
    var parts := ["src", "switchstand"] + dirs + [stem + ".py"];
    forall i | 0 <= i < |parts| ensures '/' !in parts[i] {
      if 1 < i < |parts| - 1 { assert parts[i] == dirs[i - 2]; }
    }
    SplitPath(parts);
    var file := stem + ".py";
    assert parts[|parts| - 1] == file && file[..|file| - 3] == stem;
    hide Split, PathOf;
  }

  // ---------------------------------------------------------------- what a selected plan has ruled out

  /** What speaks for selecting: nothing shared, a Python file or a ruled one, its tests there, and covered. */
  ghost predicate Selectable(path: Path, tests: set<Path>, reasons: Reasons) {
    && !Shared(path) && !RunsAll(path)
    && (StartsWith(path, "src/") || StartsWith(path, "tests/") ==> EndsWith(path, ".py"))
    && (ModuleOf(path).Some? || Named(path) != [])
    && (forall t <- Named(path) :: t in tests)
    && (EndsWith(path, ".py") && (StartsWith(path, "src/") || StartsWith(path, "tests/")) ==>
          path in tests || Explained(path, reasons))
  }

  /** Some test is selected because it imports the path or because the path's rule names it. */
  predicate Explained(path: Path, reasons: Reasons) {
    exists t <- reasons :: ExplicitRule(path) in reasons[t]
                           || (ModuleOf(path).Some? && ImportsChanged(ModuleOf(path).value) in reasons[t])
  }

  lemma CleanExactly(path: Path, tests: set<Path>, reasons: Reasons)
    ensures Clean(path, tests, reasons) <==> Selectable(path, tests, reasons)
  {
    FallbackExactly(path);
    RulesExactly(path);
    UnderRules(path);
    hide Shared, InFallbackClass, Matching, AskedFor, Named, RunsAll, ModuleOf, StartsWith, EndsWith;
    assert RuleFaults(path, tests) == {} <==> !RunsAll(path) && forall t <- Named(path) :: t in tests by {
      if RuleFaults(path, tests) == {} && !RunsAll(path) {
        forall t <- Named(path) ensures t in tests {
          assert t !in tests ==> AbsentTest(path, t) in RuleFaults(path, tests);
        }
      }
    }
  }

  /** Whatever forces a full run by rule is a Python file under `src/`, so its own fault is the rule's. */
  lemma UnderRules(path: Path)
    ensures RunsAll(path) ==> StartsWith(path, "src/") && EndsWith(path, ".py")
  {
    if RunsAll(path) {
      assert "src/switchstand/"[..4] == "src/";
      if Between(path, "src/switchstand/", "_runtime.py") {
        assert path[..4] == path[..16][..4];
        assert path[|path| - 3..] == path[|path| - 11..][8..];
      }
    }
  }

  /** The main theorem on selection, path by path: a plan selects if and only if every change is selectable. */
  lemma SelectionExactly(p: Plan, g: Graph, files: seq<Path>, read: Reader)
    requires p.mode == Selected <==>
      && !p.destructive && PlannedOn(g, p.changed, p.destructive, files, read) && p.reasons != map[]
      && (forall path <- p.changed :: Clean(path, Tests(files), p.reasons))
    ensures p.mode == Selected <==>
      && !p.destructive && PlannedOn(g, p.changed, p.destructive, files, read) && p.reasons != map[]
      && (forall path <- p.changed :: Selectable(path, Tests(files), p.reasons))
  {
    forall path <- p.changed
      ensures Clean(path, Tests(files), p.reasons) <==> Selectable(path, Tests(files), p.reasons)
    {
      CleanExactly(path, Tests(files), p.reasons);
    }
    hide Clean, Selectable, PlannedOn, Tests;
  }

  // ---------------------------------------------------------------- promotion

  /** The inputs a plan may be promoted for besides direct test modules, and the tests it may never run so. */
  predicate Reviewed(path: string) {
    path == "scripts/package-size.py" || path == "src/switchstand/coordinator_worker_state.py"
  }

  predicate SerialOnly(path: string) {
    path == "tests/test_chatgpt_edge_process.py" || path == "tests/test_update_gateway.py"
  }

  /** What a promotion asks of the plan itself. */
  ghost predicate Promotable(p: Plan) {
    && p.mode == Selected && p.faults == {} && !p.destructive && p.changed != [] && p.selected != {}
    && (forall c <- p.changed :: DirectTest(c) || Reviewed(c)) && (forall t <- p.selected :: DirectTest(t))
    && (forall c <- p.changed :: DirectTest(c) ==> c in p.selected)
    && (forall c <- p.changed :: !SerialOnly(c)) && (forall t <- p.selected :: !SerialOnly(t))
  }

  /** Exactly which authority a plan gets. */
  lemma AuthorityExactly(p: Plan, exact: bool, healthy: bool, stackTop: bool)
    ensures var a := ForegroundAuthority(p, exact, healthy, stackTop);
      && (a != RunEverything <==> exact && healthy && !stackTop && Promotable(p))
      && (a == TestModulesOnly <==>
            exact && healthy && !stackTop && Promotable(p) && forall c <- p.changed :: DirectTest(c))
  {
    forall c | c in p.changed || c in p.selected ensures IsDirectTest(c) <==> DirectTest(c) { DirectTestsExactly(c); }
    forall c: string ensures (c in PROMOTED <==> Reviewed(c)) && (c in SERIAL <==> SerialOnly(c)) {}
    hide IsDirectTest, DirectTest, Reviewed, SerialOnly;
    SerialsExactly(p);
  }

  lemma SerialsExactly(p: Plan)
    ensures SERIAL * (p.selected + set c | c in p.changed) == {}
            <==> (forall c <- p.changed :: c !in SERIAL) && (forall t <- p.selected :: t !in SERIAL)
  {
    var all := p.selected + set c | c in p.changed;
    assert forall x :: x in SERIAL * all <==> x in SERIAL && (x in p.selected || x in p.changed);
  }

  /** Exactly what validation against the tree to be run makes of a plan. */
  lemma ValidatesExactly(p: Plan, files: Option<seq<Path>>)
    ensures var q := ValidateTree(p, files);
      if files == None then q.mode == NoPlan && q.selected == {} && q.faults == p.faults + {TreeUnavailable}
      else if forall t <- p.selected :: t in files.value then q == p
      else
        && q.selected == Tests(files.value) && (q.mode == FullFallback <==> Tests(files.value) != {})
        && (q.mode == NoPlan <==> Tests(files.value) == {}) && p.faults <= q.faults
        && forall t :: t in p.selected && t !in files.value ==> AbsentFromTree(t) in q.faults
  {
    if files.Some? {
      var missing := set t | t in p.selected && t !in files.value;
      assert missing == {} <==> forall t <- p.selected :: t in files.value by {
        if missing == {} { forall t <- p.selected ensures t in files.value { assert t !in missing; } }
      }
      hide Tests;
    }
  }
}
