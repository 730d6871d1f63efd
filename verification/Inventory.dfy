/**
 The certification fixture inventory and its deletion order (src/switchstand/certification.py:99-137).
 The task tree is only known by asking for children; it may be cyclic, shared or endless.
 */
module Inventory {
  import opened Prelude

  /** A task identifier; malformed ones are `None` in a row. */
  type Gid = nat

  datatype Row = Row(gid: Option<Gid>, owned: bool)

  /** What the service answers for the subtasks of a task; `None` is an error response. */
  type Children = Gid -> Option<seq<Row>>

  datatype Task = Task(owned: bool, depth: nat)
  datatype Entry = Entry(row: Row, depth: nat)

  const DEPTH_LIMIT: nat := 9
  const TASK_LIMIT: nat := 500

  // ---------------------------------------------------------------- walks down the tree

  function Kids(kids: Children, row: Row): seq<Row> {
    if row.gid.Some? && kids(row.gid.value).Some? then kids(row.gid.value).value else []
  }

  /** A walk from a root down to its last row, whose depth is one less than its length. */
  predicate Walk(roots: seq<Row>, kids: Children, w: seq<Row>) {
    && w != [] && w[0] in roots
    && (forall i :: 0 < i < |w| ==> w[i] in Kids(kids, w[i - 1]))
  }

  ghost predicate Leads(roots: seq<Row>, kids: Children, row: Row, depth: nat) {
    exists w :: Walk(roots, kids, w) && |w| == depth + 1 && w[depth] == row
  }

  ghost predicate Reachable(roots: seq<Row>, kids: Children, g: Gid) {
    exists owned, depth: nat :: Leads(roots, kids, Row(Some(g), owned), depth)
  }

  lemma LeadsRoot(roots: seq<Row>, kids: Children, row: Row)
    requires row in roots
    ensures Leads(roots, kids, row, 0)
  {
    assert Walk(roots, kids, [row]);
  }

  lemma LeadsOn(roots: seq<Row>, kids: Children, row: Row, depth: nat, child: Row)
    requires Leads(roots, kids, row, depth) && child in Kids(kids, row)
    ensures Leads(roots, kids, child, depth + 1)
  {
    var w :| Walk(roots, kids, w) && |w| == depth + 1 && w[depth] == row;
    assert Walk(roots, kids, w + [child]);
  }

  // ---------------------------------------------------------------- what the inventory knows

  type Tasks = map<Gid, Task>

  /** `row` was taken in at `depth` or deeper, under the same ownership. */
  predicate Done(tasks: Tasks, row: Row, depth: nat) {
    row.gid.Some? && row.gid.value in tasks && tasks[row.gid.value].owned == row.owned
        && tasks[row.gid.value].depth >= depth
  }

  predicate Known(tasks: Tasks, queue: seq<Entry>, row: Row, depth: nat) {
    Done(tasks, row, depth) || Entry(row, depth) in queue
  }

  /** Every root and every child of a task is done or waiting, one deeper than its parent. */
  predicate Covers(roots: seq<Row>, kids: Children, tasks: Tasks, queue: seq<Entry>) {
    && (forall r <- roots :: Known(tasks, queue, r, 0))
    && (forall g <- tasks :: kids(g).Some? && forall c <- kids(g).value :: Known(tasks, queue, c, tasks[g].depth + 1))
  }

  /** Everything recorded or waiting is really there. */
  ghost predicate Grounded(roots: seq<Row>, kids: Children, tasks: Tasks, queue: seq<Entry>) {
    && (forall e <- queue :: Leads(roots, kids, e.row, e.depth))
    && (forall g <- tasks ::
          tasks[g].depth <= DEPTH_LIMIT && Leads(roots, kids, Row(Some(g), tasks[g].owned), tasks[g].depth))
  }

  /** Why an inventory must be refused. */
  ghost predicate Refusable(roots: seq<Row>, kids: Children) {
    || (exists row, depth: nat :: Leads(roots, kids, row, depth) && (row.gid.None? || depth > 9))
    || (exists g :: Reachable(roots, kids, g) && kids(g).None?)
    || (exists g, d: nat, e: nat ::
          Leads(roots, kids, Row(Some(g), true), d) && Leads(roots, kids, Row(Some(g), false), e))
    || (exists tasks: set<Gid> :: |tasks| > 500 && forall g <- tasks :: Reachable(roots, kids, g))
  }

  // ---------------------------------------------------------------- why the loop ends

  /** How much the recorded depths can still grow. */
  ghost function Room(tasks: Tasks): (n: int)
    decreases |tasks|
  {
    if tasks == map[] then (TASK_LIMIT + 1) * (DEPTH_LIMIT + 1)
    else
      var g := Pick(tasks.Keys);
      Room(tasks - {g}) - tasks[g].depth - 1
  }

  ghost function Pick(s: set<Gid>): (g: Gid)
    requires s != {}
    ensures g in s
  {
    var g :| g in s; g
  }

  lemma {:induction false} RoomWithout(tasks: Tasks, g: Gid)
    requires g in tasks
    ensures Room(tasks) == Room(tasks - {g}) - tasks[g].depth - 1
    decreases |tasks|
  {
    var p := Pick(tasks.Keys);
    if p != g {
      RoomWithout(tasks - {p}, g);
      RoomWithout(tasks - {g}, p);
      assert tasks - {p} - {g} == tasks - {g} - {p};
    }
  }

  lemma {:induction false} RoomLeft(tasks: Tasks)
    requires forall g <- tasks :: tasks[g].depth <= DEPTH_LIMIT
    ensures Room(tasks) >= (TASK_LIMIT + 1 - |tasks|) * (DEPTH_LIMIT + 1)
    decreases |tasks|
  {
    if tasks != map[] {
      var g := Pick(tasks.Keys);
      RoomLeft(tasks - {g});
      assert |tasks - {g}| == |tasks| - 1 by {
        assert (tasks - {g}).Keys == tasks.Keys - {g};
        RemoveShrinks(tasks.Keys, g);
      }
    }
  }

  /** Recording a task deeper than before uses room up. */
  lemma RoomShrinks(tasks: Tasks, g: Gid, t: Task)
    requires g in tasks ==> tasks[g].depth < t.depth
    ensures Room(tasks[g := t]) < Room(tasks)
  {
    RoomWithout(tasks[g := t], g);
    if g in tasks {
      RoomWithout(tasks, g);
      assert tasks[g := t] - {g} == tasks - {g};
    } else {
      assert tasks[g := t] - {g} == tasks;
    }
  }

  // ---------------------------------------------------------------- the inventory

  lemma Starts(roots: seq<Row>, kids: Children, queue: seq<Entry>)
    requires |queue| == |roots| && forall i :: 0 <= i < |roots| ==> queue[i] == Entry(roots[i], 0)
    ensures Covers(roots, kids, map[], queue) && Grounded(roots, kids, map[], queue)
  {
    forall r <- roots ensures Known(map[], queue, r, 0) {
      var i :| 0 <= i < |roots| && roots[i] == r;
      assert queue[i] == Entry(r, 0);
    }
    forall e <- queue ensures Leads(roots, kids, e.row, e.depth) { LeadsRoot(roots, kids, e.row); }
  }

  /** Dropping the front entry is safe once it is done. */
  lemma Skips(roots: seq<Row>, kids: Children, tasks: Tasks, queue: seq<Entry>)
    requires queue != [] && Covers(roots, kids, tasks, queue) && Grounded(roots, kids, tasks, queue)
    requires Done(tasks, queue[0].row, queue[0].depth)
    ensures Covers(roots, kids, tasks, queue[1..]) && Grounded(roots, kids, tasks, queue[1..])
  {
    hide Leads;
    forall row, depth: nat | Known(tasks, queue, row, depth) ensures Known(tasks, queue[1..], row, depth) {
      if !Done(tasks, row, depth) { assert queue[0] != Entry(row, depth); }
    }
  }

  /** `more` are the children of the front entry `g`, which is taken in deeper than before if at all. */
  predicate Opens(kids: Children, tasks: Tasks, queue: seq<Entry>, g: Gid, more: seq<Entry>) {
    && queue != [] && queue[0].row.gid == Some(g) && queue[0].depth <= DEPTH_LIMIT && kids(g).Some?
    && (g in tasks ==> tasks[g].owned == queue[0].row.owned && tasks[g].depth < queue[0].depth)
    && |more| == |kids(g).value|
    && (forall i :: 0 <= i < |more| ==> more[i] == Entry(kids(g).value[i], queue[0].depth + 1))
  }

  /** Whatever was known stays known. */
  lemma KnownStays(kids: Children, tasks: Tasks, queue: seq<Entry>, g: Gid, more: seq<Entry>, row: Row, depth: nat)
    requires Opens(kids, tasks, queue, g, more) && Known(tasks, queue, row, depth)
    ensures Known(tasks[g := Task(queue[0].row.owned, queue[0].depth)], queue[1..] + more, row, depth)
  {
    var t := tasks[g := Task(queue[0].row.owned, queue[0].depth)];
    if !Done(t, row, depth) { assert queue[0] != Entry(row, depth); }
  }

  lemma TakesInCovers(roots: seq<Row>, kids: Children, tasks: Tasks, queue: seq<Entry>, g: Gid, more: seq<Entry>)
    requires Opens(kids, tasks, queue, g, more) && Covers(roots, kids, tasks, queue)
    ensures Covers(roots, kids, tasks[g := Task(queue[0].row.owned, queue[0].depth)], queue[1..] + more)
  {
    var e := queue[0];
    var t, q := tasks[g := Task(e.row.owned, e.depth)], queue[1..] + more;
    forall c <- kids(g).value ensures Known(t, q, c, e.depth + 1) {
      var i :| 0 <= i < |kids(g).value| && kids(g).value[i] == c;
      assert more[i] in q;
    }
    hide Known;
    forall r <- roots ensures Known(t, q, r, 0) { KnownStays(kids, tasks, queue, g, more, r, 0); }
    forall h <- tasks, c | h != g && kids(h).Some? && c in kids(h).value ensures Known(t, q, c, tasks[h].depth + 1) {
      KnownStays(kids, tasks, queue, g, more, c, tasks[h].depth + 1);
    }
  }

  lemma TakesInGrounded(roots: seq<Row>, kids: Children, tasks: Tasks, queue: seq<Entry>, g: Gid, more: seq<Entry>)
    requires Opens(kids, tasks, queue, g, more) && Grounded(roots, kids, tasks, queue)
    ensures Grounded(roots, kids, tasks[g := Task(queue[0].row.owned, queue[0].depth)], queue[1..] + more)
  {
    hide Leads;
    var e := queue[0];
    assert e in queue && e.row == Row(Some(g), e.row.owned);
    forall c <- more ensures Leads(roots, kids, c.row, c.depth) { LeadsOn(roots, kids, e.row, e.depth, c.row); }
  }

  lemma TasksReachable(roots: seq<Row>, kids: Children, tasks: Tasks, queue: seq<Entry>)
    requires Grounded(roots, kids, tasks, queue)
    ensures forall g <- tasks :: Reachable(roots, kids, g)
  {
    hide Leads;
  }

  /** Each reason to stop is a reason to refuse the tree. */
  lemma RefusesRow(roots: seq<Row>, kids: Children, tasks: Tasks, queue: seq<Entry>)
    requires queue != [] && Grounded(roots, kids, tasks, queue)
    requires var e := queue[0];
      || e.row.gid.None? || e.depth > DEPTH_LIMIT
      || (e.row.gid.value in tasks && tasks[e.row.gid.value].owned != e.row.owned)
      || kids(e.row.gid.value).None?
    ensures Refusable(roots, kids)
  {
    hide Leads;
    var e := queue[0];
    assert e in queue && Leads(roots, kids, e.row, e.depth);
    if e.row.gid.Some? {
      var g := e.row.gid.value;
      assert e.row == Row(Some(g), e.row.owned);
      assert Reachable(roots, kids, g);
      if g in tasks && tasks[g].owned != e.row.owned {
        assert Leads(roots, kids, Row(Some(g), tasks[g].owned), tasks[g].depth);
      }
    }
  }

  /** A finished inventory has met every walk: nothing runs deeper, differs, or was missed. */
  lemma {:induction false} MeetsWalks(roots: seq<Row>, kids: Children, tasks: Tasks, w: seq<Row>)
    requires Covers(roots, kids, tasks, []) && Walk(roots, kids, w)
    ensures Done(tasks, w[|w| - 1], |w| - 1)
    decreases |w|
  {
    if |w| == 1 {
      assert Known(tasks, [], w[0], 0);
    } else {
      var up := w[..|w| - 1];
      MeetsWalks(roots, kids, tasks, up);
      var parent := w[|w| - 2];
      assert parent == up[|up| - 1];
      assert Known(tasks, [], w[|w| - 1], tasks[parent.gid.value].depth + 1);
    }
  }

  lemma MeetsAll(roots: seq<Row>, kids: Children, tasks: Tasks)
    requires Covers(roots, kids, tasks, [])
    ensures forall row, depth: nat :: Leads(roots, kids, row, depth) ==> Done(tasks, row, depth)
  {
    forall row, depth: nat | Leads(roots, kids, row, depth) ensures Done(tasks, row, depth) {
      var w :| Walk(roots, kids, w) && |w| == depth + 1 && w[depth] == row;
      MeetsWalks(roots, kids, tasks, w);
    }
  }

  /** What a successful inventory is: the reachable tasks, each at the depth of its longest walk. */
  ghost predicate Inventoried(roots: seq<Row>, kids: Children, tasks: Tasks) {
    && (forall g :: g in tasks <==> Reachable(roots, kids, g))
    && (forall g <- tasks :: Leads(roots, kids, Row(Some(g), tasks[g].owned), tasks[g].depth))
    && (forall row, depth: nat :: Leads(roots, kids, row, depth) ==> Done(tasks, row, depth))
    && (forall g <- tasks :: kids(g).Some? && forall c <- kids(g).value ::
          c.gid.Some? && c.gid.value in tasks && tasks[c.gid.value].depth >= tasks[g].depth + 1)
  }

  lemma KidsDeeper(roots: seq<Row>, kids: Children, tasks: Tasks)
    requires Covers(roots, kids, tasks, [])
    ensures forall g <- tasks :: kids(g).Some? && forall c <- kids(g).value ::
      c.gid.Some? && c.gid.value in tasks && tasks[c.gid.value].depth >= tasks[g].depth + 1
  {
    forall g <- tasks, c | kids(g).Some? && c in kids(g).value
      ensures c.gid.Some? && c.gid.value in tasks && tasks[c.gid.value].depth >= tasks[g].depth + 1
    {
      assert Known(tasks, [], c, tasks[g].depth + 1);
    }
  }

  lemma ReachedAll(roots: seq<Row>, kids: Children, tasks: Tasks)
    requires forall row, depth: nat :: Leads(roots, kids, row, depth) ==> Done(tasks, row, depth)
    ensures forall g :: Reachable(roots, kids, g) ==> g in tasks
  {
    hide Leads;
    forall g | Reachable(roots, kids, g) ensures g in tasks {
      var owned, depth: nat :| Leads(roots, kids, Row(Some(g), owned), depth);
    }
  }

  lemma Finishes(roots: seq<Row>, kids: Children, tasks: Tasks)
    requires Covers(roots, kids, tasks, []) && Grounded(roots, kids, tasks, []) && |tasks| <= TASK_LIMIT
    ensures Inventoried(roots, kids, tasks) && !Refusable(roots, kids)
  {
    MeetsAll(roots, kids, tasks);
    KidsDeeper(roots, kids, tasks);
    TasksReachable(roots, kids, tasks, []);
    ReachedAll(roots, kids, tasks);
    GroundedMeans(roots, kids, tasks);
    hide *;
    Assembles(roots, kids, tasks);
    NotRefused(roots, kids, tasks);
  }

  lemma GroundedMeans(roots: seq<Row>, kids: Children, tasks: Tasks)
    requires Grounded(roots, kids, tasks, [])
    ensures forall g <- tasks ::
      tasks[g].depth <= DEPTH_LIMIT && Leads(roots, kids, Row(Some(g), tasks[g].owned), tasks[g].depth)
  {
    hide Leads;
  }

  lemma Assembles(roots: seq<Row>, kids: Children, tasks: Tasks)
    requires forall g :: g in tasks <==> Reachable(roots, kids, g)
    requires forall g <- tasks :: Leads(roots, kids, Row(Some(g), tasks[g].owned), tasks[g].depth)
    requires forall row, depth: nat :: Leads(roots, kids, row, depth) ==> Done(tasks, row, depth)
    requires forall g <- tasks :: kids(g).Some? && forall c <- kids(g).value ::
      c.gid.Some? && c.gid.value in tasks && tasks[c.gid.value].depth >= tasks[g].depth + 1
    ensures Inventoried(roots, kids, tasks)
  {
    hide Leads, Reachable, Done;
  }

  lemma NotRefused(roots: seq<Row>, kids: Children, tasks: Tasks)
    requires Inventoried(roots, kids, tasks) && |tasks| <= TASK_LIMIT
    requires forall g <- tasks :: tasks[g].depth <= DEPTH_LIMIT
    ensures !Refusable(roots, kids)
  {
    hide Leads;
    forall s: set<Gid> | forall g <- s :: Reachable(roots, kids, g) ensures |s| <= TASK_LIMIT {
      assert s <= tasks.Keys;
      SubsetSize(s, tasks.Keys);
    }
    hide Reachable;
  }

  /** Walks the tree breadth first. It always ends, and is refused exactly when the tree must be. */
  method TakeInventory(roots: seq<Row>, kids: Children) returns (r: Option<Tasks>)
    ensures r.None? <==> Refusable(roots, kids)
    ensures r.Some? ==> Inventoried(roots, kids, r.value) && |r.value| <= TASK_LIMIT
  {
    hide Leads, Refusable, Covers, Grounded, Inventoried;
    var queue := seq(|roots|, i requires 0 <= i < |roots| => Entry(roots[i], 0));
    var tasks: Tasks := map[];
    Starts(roots, kids, queue);
    while queue != []
      invariant |tasks| <= TASK_LIMIT && forall g <- tasks :: tasks[g].depth <= DEPTH_LIMIT
      invariant Covers(roots, kids, tasks, queue) && Grounded(roots, kids, tasks, queue)
      decreases Room(tasks), |queue|
    {
      var e := queue[0];
      if e.row.gid.None? || e.depth > DEPTH_LIMIT {
        RefusesRow(roots, kids, tasks, queue);
        return None;
      }
      var g := e.row.gid.value;
      if g in tasks && tasks[g].owned != e.row.owned {
        RefusesRow(roots, kids, tasks, queue);
        return None;
      }
      if g in tasks && tasks[g].depth >= e.depth {
        Skips(roots, kids, tasks, queue);
        queue := queue[1..];
        continue;
      }
      var grown := tasks[g := Task(e.row.owned, e.depth)];
      if |grown| > TASK_LIMIT {
        TooMany(roots, kids, tasks, queue, g);
        return None;
      }
      if kids(g).None? {
        RefusesRow(roots, kids, tasks, queue);
        return None;
      }
      var more := seq(|kids(g).value|, i requires 0 <= i < |kids(g).value| => Entry(kids(g).value[i], e.depth + 1));
      TakesInCovers(roots, kids, tasks, queue, g, more);
      TakesInGrounded(roots, kids, tasks, queue, g, more);
      RoomShrinks(tasks, g, grown[g]);
      RoomLeft(grown);
      tasks, queue := grown, queue[1..] + more;
    }
    Finishes(roots, kids, tasks);
    r := Some(tasks);
  }

  lemma TooMany(roots: seq<Row>, kids: Children, tasks: Tasks, queue: seq<Entry>, g: Gid)
    requires queue != [] && Grounded(roots, kids, tasks, queue) && queue[0].row.gid == Some(g)
    requires |tasks.Keys + {g}| > TASK_LIMIT
    ensures Refusable(roots, kids)
  {
    hide Leads;
    var e := queue[0];
    assert e in queue && e.row == Row(Some(g), e.row.owned);
    assert Leads(roots, kids, Row(Some(g), e.row.owned), e.depth);
    TasksReachable(roots, kids, tasks, queue);
    assert forall h <- tasks.Keys + {g} :: Reachable(roots, kids, h);
  }

  // ---------------------------------------------------------------- consequences

  /** No task of a successful inventory lies below itself. */
  lemma {:induction false} BelowIsDeeper(roots: seq<Row>, kids: Children, tasks: Tasks, down: seq<Row>)
    requires Inventoried(roots, kids, tasks) && |down| > 1 && down[0].gid.Some? && down[0].gid.value in tasks
    requires forall i :: 0 < i < |down| ==> down[i] in Kids(kids, down[i - 1])
    ensures down[|down| - 1].gid.Some? && down[|down| - 1].gid.value in tasks
    ensures tasks[down[|down| - 1].gid.value].depth > tasks[down[0].gid.value].depth
    decreases |down|
  {
    hide Leads, Done;
    if |down| > 2 {
      var up := down[..|down| - 1];
      BelowIsDeeper(roots, kids, tasks, up);
      assert down[|down| - 2] == up[|up| - 1];
    }
  }

  lemma LeadsDown(roots: seq<Row>, kids: Children, depth: nat, down: seq<Row>)
    requires down != [] && Leads(roots, kids, down[0], depth)
    requires forall i :: 0 < i < |down| ==> down[i] in Kids(kids, down[i - 1])
    ensures Leads(roots, kids, down[|down| - 1], depth + |down| - 1)
    decreases |down|
  {
    if |down| > 1 {
      var up := down[..|down| - 1];
      LeadsDown(roots, kids, depth, up);
      assert down[|down| - 2] == up[|up| - 1];
      LeadsOn(roots, kids, up[|up| - 1], depth + |up| - 1, down[|down| - 1]);
    }
  }

  /** Every reachable cycle is refused: walking round it outgrows any depth. */
  lemma {:induction false} CyclesAreRefused(roots: seq<Row>, kids: Children, depth: nat, down: seq<Row>)
    requires |down| > 1 && Leads(roots, kids, down[0], depth)
    requires forall i :: 0 < i < |down| ==> down[i] in Kids(kids, down[i - 1])
    requires down[|down| - 1].gid == down[0].gid
    ensures Refusable(roots, kids)
    decreases DEPTH_LIMIT + 1 - depth
  {
    if depth <= DEPTH_LIMIT {
      LeadsDown(roots, kids, depth, down);
      CyclesAreRefused(roots, kids, depth + |down| - 1, down[|down| - 1..] + down[1..]);
    }
  }

  // ---------------------------------------------------------------- the deletion order

  /** `sorted` by decreasing depth, then by identifier. */
  predicate Precedes(tasks: Tasks, a: Gid, b: Gid)
    requires a in tasks && b in tasks
  {
    tasks[a].depth > tasks[b].depth || (tasks[a].depth == tasks[b].depth && a < b)
  }

  predicate InOrder(tasks: Tasks, order: seq<Gid>) {
    && (forall g <- order :: g in tasks)
    && (forall i, j :: 0 <= i < j < |order| ==> Precedes(tasks, order[i], order[j]))
  }

  method Place(tasks: Tasks, order: seq<Gid>, g: Gid) returns (out: seq<Gid>)
    requires InOrder(tasks, order) && g in tasks && g !in order
    ensures InOrder(tasks, out) && forall h :: h in out <==> h in order || h == g
  {
    var i := |order|;
    while i > 0 && !Precedes(tasks, order[i - 1], g)
      invariant 0 <= i <= |order|
      invariant forall k :: i <= k < |order| ==> Precedes(tasks, g, order[k])
    {
      i := i - 1;
    }
    out := order[..i] + [g] + order[i..];
    assert order == order[..i] + order[i..];
    if i > 0 { PrecedesAll(tasks, order, i - 1, g); }
    hide Precedes;
    PlacedInOrder(tasks, order, i, g);
  }

  /** Whatever stands at or before `i` precedes what `order[i]` precedes. */
  lemma PrecedesAll(tasks: Tasks, order: seq<Gid>, i: nat, g: Gid)
    requires InOrder(tasks, order) && i < |order| && g in tasks && Precedes(tasks, order[i], g)
    ensures forall k :: 0 <= k <= i ==> Precedes(tasks, order[k], g)
  {
    forall k | 0 <= k < i ensures Precedes(tasks, order[k], g) { assert Precedes(tasks, order[k], order[i]); }
  }

  lemma PlacedInOrder(tasks: Tasks, order: seq<Gid>, i: nat, g: Gid)
    requires InOrder(tasks, order) && i <= |order| && g in tasks
    requires forall k :: 0 <= k < i ==> Precedes(tasks, order[k], g)
    requires forall k :: i <= k < |order| ==> Precedes(tasks, g, order[k])
    ensures InOrder(tasks, order[..i] + [g] + order[i..])
  {
    hide Precedes;
    var out := order[..i] + [g] + order[i..];
    forall h <- out ensures h in tasks {}
    forall a, b | 0 <= a < b < |out| ensures Precedes(tasks, out[a], out[b]) {
      assert a < i ==> out[a] == order[a];
      assert b > i ==> out[b] == order[b - 1];
      assert a > i ==> out[a] == order[a - 1];
      assert b < i ==> out[b] == order[b];
    }
  }

  /** The tasks of one ownership, in the order they are deleted or reported. */
  method Listed(tasks: Tasks, owned: bool) returns (order: seq<Gid>)
    ensures InOrder(tasks, order) && forall g :: g in order <==> g in tasks && tasks[g].owned == owned
  {
    order := [];
    var todo := tasks.Keys;
    while todo != {}
      invariant todo <= tasks.Keys && InOrder(tasks, order)
      invariant forall g :: g in order <==> g in tasks && g !in todo && tasks[g].owned == owned
      decreases |todo|
    {
      var g :| g in todo;
      RemoveShrinks(todo, g);
      todo := todo - {g};
      if tasks[g].owned == owned { order := Place(tasks, order, g); }
    }
  }

  lemma OrderedDepths(tasks: Tasks, order: seq<Gid>, i: nat, j: nat)
    requires InOrder(tasks, order) && i < |order| && j < |order| && tasks[order[j]].depth > tasks[order[i]].depth
    ensures j < i
  {}

  /** The order is by depth, deepest first, and by id among equals. */
  lemma OrderExactly(tasks: Tasks, order: seq<Gid>, i: nat, j: nat)
    requires InOrder(tasks, order) && i < |order| && j < |order|
    ensures var a, b := order[i], order[j];
      i < j <==> tasks[a].depth > tasks[b].depth || (tasks[a].depth == tasks[b].depth && a < b)
  {
    if j < i { assert Precedes(tasks, order[j], order[i]); }
  }

  /** Deleting in that order, every descendant goes before each of its ancestors. */
  lemma DescendantsGoFirst(roots: seq<Row>, kids: Children, tasks: Tasks, order: seq<Gid>, down: seq<Row>, i: nat,
      j: nat)
    requires Inventoried(roots, kids, tasks) && InOrder(tasks, order) && i < |order| && j < |order|
    requires |down| > 1 && down[0].gid == Some(order[i]) && down[|down| - 1].gid == Some(order[j])
    requires forall k :: 0 < k < |down| ==> down[k] in Kids(kids, down[k - 1])
    ensures j < i
  {
    BelowIsDeeper(roots, kids, tasks, down);
    hide Inventoried, Kids;
    OrderedDepths(tasks, order, i, j);
  }

  /** `clean` deletes only when nothing foreign is there, and then every reachable task, children first. */
  method DeletionOrder(roots: seq<Row>, kids: Children) returns (order: Option<seq<Gid>>)
    ensures order.None? <==>
      Refusable(roots, kids) || exists g, depth: nat :: Leads(roots, kids, Row(Some(g), false), depth)
    ensures order.Some? ==>
      && (forall g :: g in order.value <==> Reachable(roots, kids, g))
      && (forall i, j :: 0 <= i < j < |order.value| ==> order.value[i] != order.value[j])
      && (exists tasks :: Inventoried(roots, kids, tasks) && InOrder(tasks, order.value))
  {
    var tasks := TakeInventory(roots, kids);
    if tasks.None? { return None; }
    hide Leads, Refusable;
    assert forall g, depth: nat :: Leads(roots, kids, Row(Some(g), false), depth) ==>
           Done(tasks.value, Row(Some(g), false), depth);
    var foreign := Listed(tasks.value, false);
    if foreign != [] {
      assert foreign[0] in foreign;
      assert Leads(roots, kids, Row(Some(foreign[0]), tasks.value[foreign[0]].owned), tasks.value[foreign[0]].depth);
      return None;
    }
    var owned := Listed(tasks.value, true);
    order := Some(owned);
    forall g | g in tasks.value ensures g in owned { assert g !in foreign; }
    forall i, j | 0 <= i < j < |owned| ensures owned[i] != owned[j] {
      assert Precedes(tasks.value, owned[i], owned[j]);
    }
    assert forall g <- tasks.value :: tasks.value[g].owned;
  }
}
