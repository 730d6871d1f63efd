/** A module import graph and the worklist that walks it (src/switchstand/affected_tests.py:304-317). */
module ImportGraph {
  import opened Prelude

  type Path = string
  type Name = string

  /** The file that stands for each module, and the module names each file imports. */
  datatype Graph = Graph(modules: map<Name, Path>, imports: map<Path, set<Name>>) {
    function ImportsOf(path: Path): set<Name> { if path in imports then imports[path] else {} }
  }

  predicate Edge(g: Graph, a: Path, b: Path) { exists n <- g.ImportsOf(a) :: n in g.modules && g.modules[n] == b }

  /** `route` follows imports from file to file. */
  predicate Route(g: Graph, route: seq<Path>) {
    route != [] && forall i :: 0 < i < |route| ==> Edge(g, route[i - 1], route[i])
  }

  ghost predicate OnRoute(g: Graph, test: Path, file: Path) {
    exists route :: Route(g, route) && route[0] == test && route[|route| - 1] == file
  }

  /** `test` imports module `name`, directly or through other files. */
  ghost predicate Reaches(g: Graph, test: Path, name: Name) {
    exists file :: OnRoute(g, test, file) && name in g.ImportsOf(file)
  }

  predicate Closed(g: Graph, seen: set<Path>, pending: seq<Path>) {
    forall a <- seen, n <- g.ImportsOf(a) :: n in g.modules ==> g.modules[n] in seen || g.modules[n] in pending
  }

  lemma {:induction false} ClosedHoldsRoutes(g: Graph, seen: set<Path>, route: seq<Path>)
    requires Route(g, route) && route[0] in seen && Closed(g, seen, [])
    ensures route[|route| - 1] in seen
    decreases |route|
  {
    if |route| > 1 {
      var shorter := route[..|route| - 1];
      assert Route(g, shorter) && shorter[0] == route[0];
      ClosedHoldsRoutes(g, seen, shorter);
      assert Edge(g, route[|route| - 2], route[|route| - 1]);
    }
  }

  lemma RouteStarts(g: Graph, test: Path)
    ensures OnRoute(g, test, test)
  {
    assert Route(g, [test]);
  }

  lemma RouteExtends(g: Graph, test: Path, a: Path, n: Name)
    requires OnRoute(g, test, a) && n in g.ImportsOf(a) && n in g.modules
    ensures OnRoute(g, test, g.modules[n])
  {
    var route :| Route(g, route) && route[0] == test && route[|route| - 1] == a;
    assert Edge(g, a, g.modules[n]);
    hide Edge;
    var longer := route + [g.modules[n]];
    forall i | 0 < i < |longer| ensures Edge(g, longer[i - 1], longer[i]) {
      if i < |route| { assert Edge(g, route[i - 1], route[i]); }
    }
    assert Route(g, longer);
  }

  /** What the files walked so far import of `changed`. */
  predicate Finds(g: Graph, changed: set<Name>, seen: set<Path>, found: set<Name>) {
    && (forall n <- found :: n in changed && exists a <- seen :: n in g.ImportsOf(a))
    && (forall a <- seen, n <- g.ImportsOf(a) :: n in changed ==> n in found)
  }

  /** One file's imports: what they find and where they lead. */
  method Expand(g: Graph, changed: set<Name>, current: Path, pending: seq<Path>, found: set<Name>)
    returns (more: seq<Path>, finds: set<Name>)
    ensures pending <= more
    ensures forall p <- more :: p in pending || Edge(g, current, p)
    ensures forall n <- g.ImportsOf(current) :: n in g.modules ==> g.modules[n] in more
    ensures finds == found + (changed * g.ImportsOf(current))
  {
    var todo := g.ImportsOf(current);
    more, finds := pending, found;
    while todo != {}
      invariant todo <= g.ImportsOf(current) && pending <= more
      invariant forall p <- more :: p in pending || Edge(g, current, p)
      invariant forall n <- g.ImportsOf(current) - todo :: n in g.modules ==> g.modules[n] in more
      invariant finds == found + (changed * (g.ImportsOf(current) - todo))
      decreases |todo|
    {
      var dependency :| dependency in todo;
      RemoveShrinks(todo, dependency);
      todo := todo - {dependency};
      if dependency in changed { finds := finds + {dependency}; }
      if dependency in g.modules { more := more + [g.modules[dependency]]; }
    }
  }

  /** Everything walked or waiting is on a route from `test`. */
  ghost predicate Sound(g: Graph, test: Path, seen: set<Path>, pending: seq<Path>) {
    && (forall p <- seen :: OnRoute(g, test, p) && (p == test || p in g.modules.Values))
    && (forall p <- pending :: OnRoute(g, test, p) && (p == test || p in g.modules.Values))
  }

  /** One turn of the worklist: the last waiting file is walked, and what it leads to waits. */
  lemma Turn(
    g: Graph, changed: set<Name>, test: Path, seen: set<Path>, pending: seq<Path>, found: set<Name>, rest: seq<Path>,
    current: Path, more: seq<Path>, finds: set<Name>)
    requires pending == rest + [current] && rest <= more && (test in seen || test in pending)
    requires Sound(g, test, seen, pending) && Closed(g, seen, pending) && Finds(g, changed, seen, found)
    requires forall p <- more :: p in rest || Edge(g, current, p)
    requires forall n <- g.ImportsOf(current) :: n in g.modules ==> g.modules[n] in more
    requires finds == found + (changed * g.ImportsOf(current))
    ensures var now := seen + {current};
      Sound(g, test, now, more) && Closed(g, now, more) && Finds(g, changed, now, finds)
          && (test in now || test in more)
  {
    Widened(g, changed, seen, pending, found, current, more, finds);
    hide OnRoute, Closed, Finds;
    assert current in pending;
    forall p <- more ensures OnRoute(g, test, p) && (p == test || p in g.modules.Values) {
      if p in rest {
        assert p in pending;
      } else {
        var n :| n in g.ImportsOf(current) && n in g.modules && g.modules[n] == p;
        RouteExtends(g, test, current, n);
      }
    }
  }

  /** A file met again changes nothing. */
  lemma Skip(g: Graph, test: Path, seen: set<Path>, pending: seq<Path>, rest: seq<Path>, current: Path)
    requires pending == rest + [current] && current in seen && (test in seen || test in pending)
    requires Sound(g, test, seen, pending) && Closed(g, seen, pending)
    ensures Sound(g, test, seen, rest) && Closed(g, seen, rest) && (test in seen || test in rest)
  {
    hide OnRoute;
  }

  lemma Starts(g: Graph, changed: set<Name>, test: Path)
    ensures Sound(g, test, {}, [test]) && Closed(g, {}, [test]) && Finds(g, changed, {}, {})
  {
    RouteStarts(g, test);
  }

  lemma Shrinks(g: Graph, test: Path, seen: set<Path>, pending: seq<Path>, current: Path)
    requires Sound(g, test, seen, pending) && current in pending && current !in seen
    ensures |g.modules.Values + {test} - (seen + {current})| < |g.modules.Values + {test} - seen|
  {
    hide OnRoute;
    var left := g.modules.Values + {test} - seen;
    RemoveShrinks(left, current);
    assert g.modules.Values + {test} - (seen + {current}) == left - {current};
  }

  /** The worklist finds exactly the changed modules `test` reaches, however imports twist or loop. */
  method ImportedChanges(g: Graph, changed: set<Name>, test: Path) returns (found: set<Name>)
    ensures forall n :: n in found <==> n in changed && Reaches(g, test, n)
  {
    hide OnRoute, Reaches, Closed, Finds, Sound, Edge;
    var pending, seen: set<Path> := [test], {};
    found := {};
    Starts(g, changed, test);
    while pending != []
      invariant test in seen || test in pending
      invariant Sound(g, test, seen, pending) && Closed(g, seen, pending) && Finds(g, changed, seen, found)
      decreases |g.modules.Values + {test} - seen|, |pending|
    {
      var current := pending[|pending| - 1];
      var rest := pending[..|pending| - 1];
      assert pending == rest + [current];
      if current in seen {
        Skip(g, test, seen, pending, rest, current);
        pending := rest;
      } else {
        Shrinks(g, test, seen, pending, current);
        var more, finds := Expand(g, changed, current, rest, found);
        Turn(g, changed, test, seen, pending, found, rest, current, more, finds);
        pending, seen, found := more, seen + {current}, finds;
      }
    }
    ReachedExactly(g, changed, test, seen, found);
  }

  /** Walking one more file keeps the closure and what it found. */
  lemma Widened(
    g: Graph, changed: set<Name>, seen: set<Path>, pending: seq<Path>, found: set<Name>, current: Path, more: seq<Path>,
    finds: set<Name>)
    requires pending != [] && current == pending[|pending| - 1] && pending[..|pending| - 1] <= more
    requires Closed(g, seen, pending) && Finds(g, changed, seen, found)
    requires forall n <- g.ImportsOf(current) :: n in g.modules ==> g.modules[n] in more
    requires finds == found + (changed * g.ImportsOf(current))
    ensures Closed(g, seen + {current}, more) && Finds(g, changed, seen + {current}, finds)
  {
    forall a <- seen + {current}, n <- g.ImportsOf(a) | n in g.modules
      ensures g.modules[n] in seen + {current} || g.modules[n] in more
    {
      if a in seen && g.modules[n] in pending && g.modules[n] != current {
        assert g.modules[n] in pending[..|pending| - 1];
      }
    }
  }

  lemma ReachedExactly(g: Graph, changed: set<Name>, test: Path, seen: set<Path>, found: set<Name>)
    requires Closed(g, seen, []) && test in seen && Finds(g, changed, seen, found)
    requires Sound(g, test, seen, [])
    ensures forall n :: n in found <==> n in changed && Reaches(g, test, n)
  {
    forall file | OnRoute(g, test, file) ensures file in seen {
      var route :| Route(g, route) && route[0] == test && route[|route| - 1] == file;
      ClosedHoldsRoutes(g, seen, route);
    }
    hide OnRoute;
  }
}
