/** Releasing a canary's never-launched subtree (src/switchstand/agent_canary.py:153-178). */
module CanaryRelease {
  import opened Prelude
  import opened AgentLedger
  import opened LedgerSafety
  import opened LedgerRuns
  import opened BrokerService

  predicate ReservedChild(leases: Leases, k: string, p: string) {
    k in leases && leases[k].parent == p && leases[k].state == Reserved
  }

  ghost function Members(s: seq<string>): set<string> { set k | k in s }

  predicate Distinct(s: seq<string>) { forall i, j :: 0 <= i < j < |s| ==> s[i] != s[j] }

  /** What must hold beforehand: the root and all that is active below it is an unlaunched local reservation. */
  ghost predicate Releasable(leases: Leases, root: string, boot: string) {
    && root in leases
    && forall k :: k in Subtree(leases, root) + {root} ==> leases[k].state == Reserved && leases[k].bootId == boot
  }

  /** `now` is `before` with exactly the leases of `done` ended as `to`. */
  ghost predicate Settled(before: Leases, now: Leases, done: set<string>, to: Ended) {
    && now.Keys == before.Keys
    && forall k :: k in before ==>
         now[k] == if k in done then before[k].(state := to, reconciledAt := now[k].reconciledAt) else before[k]
  }

  /** Some leases of `all` are ended, and nothing else changed. */
  ghost predicate EndedAmong(before: Leases, now: Leases, all: set<string>, to: Ended) {
    exists done :: done <= all && Settled(before, now, done, to)
  }

  ghost predicate Untouched(was: Ledger, now: Ledger) {
    was.root == now.root && was.requests == now.requests && was.sample == now.sample
  }

  /** Entry `i` of a walk is a reserved child of an earlier entry. */
  ghost predicate Entry(leases: Leases, root: string, order: seq<string>, i: int)
    requires 0 <= i < |order|
  {
    order[i] in leases && order[i] != root && leases[order[i]].state == Reserved
    && leases[order[i]].parent in order[..i]
  }

  /** A walk lists each lease once, after its parent, and every listed lease but the root is reserved. */
  ghost predicate Walk(leases: Leases, root: string, order: seq<string>) {
    && Distinct(order) && |order| > 0 && order[0] == root
    && forall i :: 1 <= i < |order| ==> Entry(leases, root, order, i)
  }

  /** Every reserved child of a listed lease is listed. */
  ghost predicate Complete(leases: Leases, order: seq<string>) {
    forall k, p :: p in order && ReservedChild(leases, k, p) ==> k in order
  }

  // ---------------------------------------------------------------- the walk and the subtree

  lemma BelowThroughParent(leases: Leases, k: string, root: string)
    requires k in leases && (leases[k].parent == root || Below(leases, leases[k].parent, root))
    ensures Below(leases, k, root)
  {
    var p := leases[k].parent;
    if p == root {
      assert Climbs(leases, [k, root]);
    } else {
      var path :| Climbs(leases, path) && path[0] == p && path[|path| - 1] == root;
      assert Climbs(leases, [k] + path);
    }
  }

  lemma {:induction false} WalkIsBelow(leases: Leases, root: string, order: seq<string>, i: nat)
    requires Walk(leases, root, order) && 1 <= i < |order|
    ensures order[i] in Subtree(leases, root)
    decreases i
  {
    hide Below;
    assert Entry(leases, root, order, i);
    var j :| 0 <= j < i && order[j] == leases[order[i]].parent;
    if j > 0 { WalkIsBelow(leases, root, order, j); }
    BelowThroughParent(leases, order[i], root);
  }

  /** Whatever hangs under a walk hangs below its root. */
  lemma ChildOfWalkIsBelow(leases: Leases, root: string, order: seq<string>, k: string)
    requires Walk(leases, root, order) && k in leases && leases[k].parent in order
    ensures Below(leases, k, root)
  {
    hide Below, Walk;
    var i :| 0 <= i < |order| && order[i] == leases[k].parent;
    if i > 0 { WalkIsBelow(leases, root, order, i); } else { FirstOfWalk(leases, root, order); }
    BelowThroughParent(leases, k, root);
  }

  lemma ParentListed(leases: Leases, root: string, order: seq<string>, k: string)
    requires Walk(leases, root, order) && k in order && k != root
    ensures k in leases && leases[k].parent in order
  {
    var i :| 0 <= i < |order| && order[i] == k;
    assert Entry(leases, root, order, i);
  }

  lemma FirstOfWalk(leases: Leases, root: string, order: seq<string>)
    requires Walk(leases, root, order)
    ensures |order| > 0 && order[0] == root && Distinct(order)
  {}

  /** A set that holds the root and every active child of its members holds the whole active subtree. */
  lemma {:induction false} ClosedHoldsSubtree(leases: Leases, root: string, s: set<string>, path: seq<string>)
    requires Shaped(leases) && root in s && root in leases
    requires forall k, p :: p in s && ActiveChild(leases, k, p) ==> k in s
    requires Climbs(leases, path) && path[|path| - 1] == root && IsActive(leases, path[0])
    ensures path[0] in s
    decreases |path|
  {
    assert leases[path[0]].parent == path[1];
    if |path| > 2 {
      var up := path[1..];
      assert Climbs(leases, up);
      assert up[0] in leases;
      ClosedHoldsSubtree(leases, root, s, up);
    }
    assert ActiveChild(leases, path[0], path[1]);
  }

  /** A walk whose members' active children are all members is exactly the active subtree. */
  lemma WalkIsSubtree(leases: Leases, root: string, order: seq<string>)
    requires Shaped(leases) && Walk(leases, root, order) && root in leases
    requires forall k, p :: p in order && ActiveChild(leases, k, p) ==> k in order
    ensures Members(order) == Subtree(leases, root) + {root}
  {
    var s := Members(order);
    forall k | k in Subtree(leases, root)
      ensures k in s
    {
      var path :| Climbs(leases, path) && path[0] == k && path[|path| - 1] == root;
      ClosedHoldsSubtree(leases, root, s, path);
    }
    forall k | k in s && k != root
      ensures k in Subtree(leases, root)
    {
      var i :| 0 <= i < |order| && order[i] == k;
      WalkIsBelow(leases, root, order, i);
    }
  }

  /** In a releasable subtree a complete walk also lists every active child of its members. */
  lemma ReleasableIsClosed(leases: Leases, root: string, boot: string, order: seq<string>)
    requires Walk(leases, root, order) && Complete(leases, order) && Releasable(leases, root, boot)
    ensures forall k, p :: p in order && ActiveChild(leases, k, p) ==> k in order
    ensures forall k :: k in order ==> k in leases && leases[k].state == Reserved && leases[k].bootId == boot
  {
    hide Walk, Below;
    FirstOfWalk(leases, root, order);
    forall k | k in order
      ensures k in Subtree(leases, root) + {root}
    {
      var i :| 0 <= i < |order| && order[i] == k;
      if i > 0 { WalkIsBelow(leases, root, order, i); }
    }
    forall k, p | p in order && ActiveChild(leases, k, p)
      ensures k in order
    {
      ChildOfWalkIsBelow(leases, root, order, k);
      assert k in Subtree(leases, root);
      assert ReservedChild(leases, k, p);
    }
  }

  // ---------------------------------------------------------------- the two loops

  /** The reserved children of `p`, each once. */
  method ReservedChildren(leases: Leases, p: string) returns (found: seq<string>)
    ensures Distinct(found)
    ensures forall k :: k in found <==> ReservedChild(leases, k, p)
  {
    found := [];
    var todo := leases.Keys;
    while todo != {}
      invariant todo <= leases.Keys
      invariant Distinct(found)
      invariant forall k :: k in found <==> ReservedChild(leases, k, p) && k !in todo
      decreases todo
    {
      var k :| k in todo;
      todo := todo - {k};
      if ReservedChild(leases, k, p) { found := found + [k]; }
    }
  }

  /** A pending lease is an unlisted reserved child of a listed one. */
  ghost predicate Waits(leases: Leases, root: string, order: seq<string>, k: string) {
    k in leases && k != root && k !in order && leases[k].state == Reserved && leases[k].parent in order
  }

  /** The state of the first loop: what is listed, and what is still on the stack. */
  ghost predicate Walking(leases: Leases, root: string, order: seq<string>, pending: seq<string>) {
    && Distinct(pending)
    && (if order == [] then pending == [root]
        else Walk(leases, root, order) && forall k :: k in pending ==> Waits(leases, root, order, k))
    && (forall k, p :: p in order && ReservedChild(leases, k, p) ==> k in order || k in pending)
  }

  /** A child of a waiting lease is new: neither listed, nor waiting, nor the root. */
  lemma ChildIsNew(leases: Leases, root: string, order: seq<string>, pending: seq<string>, current: string, k: string)
    requires Acyclic(leases) && Walking(leases, root, order, pending) && current in pending
    requires ReservedChild(leases, k, current)
    ensures k != root && k !in order && k !in pending
  {
    hide Below, Climbs, Subtree, Acyclic;
    if order == [] {
      if k == root {
        BelowThroughParent(leases, root, root);
        NotBelowItself(leases, root);
        assert false;
      }
    } else {
      assert Waits(leases, root, order, current);
      ChildOfWalkIsBelow(leases, root, order, current);
      if k == root {
        BelowThroughParent(leases, root, root);
        NotBelowItself(leases, root);
        assert false;
      }
      assert k in pending ==> Waits(leases, root, order, k);
      if k in order {
        ParentListed(leases, root, order, k);
        assert false;
      }
    }
  }

  lemma WalkExtends(leases: Leases, root: string, order: seq<string>, pending: seq<string>, current: string)
    requires Walking(leases, root, order, pending) && current in pending
    ensures Walk(leases, root, order + [current])
  {
    var more := order + [current];
    assert more[..|order|] == order;
    forall i | 1 <= i < |more|
      ensures Entry(leases, root, more, i)
    {
      if i < |order| {
        assert Entry(leases, root, order, i);
        assert more[..i] == order[..i];
      } else {
        assert Waits(leases, root, order, current);
      }
    }
    if order != [] { assert Waits(leases, root, order, current); }
  }

  lemma WalkOnce(leases: Leases, root: string, order: seq<string>, pending: seq<string>, found: seq<string>)
    requires Acyclic(leases) && Walking(leases, root, order, pending) && pending != []
    requires Distinct(found) && forall k :: k in found <==> ReservedChild(leases, k, pending[|pending| - 1])
    ensures Walking(leases, root, order + [pending[|pending| - 1]], pending[..|pending| - 1] + found)
  {
    var last := |pending| - 1;
    var current := pending[last];
    var more, left := order + [current], pending[..last] + found;
    WalkExtends(leases, root, order, pending, current);
    forall k | k in found
      ensures k != root && k !in order && k !in pending && Waits(leases, root, more, k)
    {
      ChildIsNew(leases, root, order, pending, current, k);
    }
    hide Walk, Acyclic, Climbs;
    forall k | k in pending[..last]
      ensures k in pending && k != current && (order != [] ==> Waits(leases, root, more, k))
    {
      assert order != [] ==> Waits(leases, root, order, k);
    }
    forall i, j | 0 <= i < j < |left|
      ensures left[i] != left[j]
    {
      if i < last && j >= last { assert left[i] in pending && left[j] in found; }
    }
    forall k | k in left
      ensures Waits(leases, root, more, k)
    {
      assert k in pending[..last] || k in found;
    }
    forall k, p | p in more && ReservedChild(leases, k, p)
      ensures k in more || k in left
    {
      if p == current { assert k in found; } else { assert k in order || k in pending; }
    }
  }

  /** The first loop: the reserved tree under `root`, parents before children. */
  method ListSubtree(leases: Leases, root: string) returns (order: seq<string>)
    requires Acyclic(leases)
    ensures Walk(leases, root, order) && Complete(leases, order)
  {
    var pending := [root];
    order := [];
    ghost var unlisted := leases.Keys + {root};
    while pending != []
      invariant Walking(leases, root, order, pending)
      invariant order == [] ==> pending != []
      invariant unlisted == (leases.Keys + {root}) - Members(order)
      decreases unlisted
    {
      var last := |pending| - 1;
      var current := pending[last];
      assert order != [] ==> Waits(leases, root, order, current);
      var found := ReservedChildren(leases, current);
      WalkOnce(leases, root, order, pending, found);
      order, pending := order + [current], pending[..last] + found;
      unlisted := unlisted - {current};
    }
  }

  /** Where the second loop stands: entries after `i` have been released, those up to `i` have not. */
  ghost predicate Releasing(before: Ledger, now: Ledger, order: seq<string>, i: int, to: Ended)
    requires -1 <= i < |order|
  {
    Settled(before.leases, now.leases, Members(order[i + 1..]), to) && Untouched(before, now)
  }

  /** What a successful release of entry `i` proves about the ledger the walk started from. */
  lemma EntryProved(before: Ledger, now: Ledger, order: seq<string>, i: nat, to: Ended, boot: string, at: real)
    requires i < |order| && Distinct(order) && Releasing(before, now, order, i, to) && order[i] in before.leases
    requires ReconcileReservation(now, order[i], before.leases[order[i]].reservationId, boot, boot, Some(true), at,
                                  60.0, false, to).1 == Returned(Released(to))
    ensures Proved(before.leases, order, boot, order[i])
  {
    var p := order[i];
    assert p !in order[i + 1..];
    forall k | ActiveChild(before.leases, k, p)
      ensures k in order
    {
      assert k !in order[i + 1..] ==> ActiveChild(now.leases, k, p);
    }
  }

  /** In a releasable tree no entry is refused: its children come later in the walk, hence are gone. */
  lemma EntryReleases(before: Ledger, now: Ledger, root: string, order: seq<string>, i: nat, to: Ended, boot: string,
      at: real)
    requires i < |order| && Walk(before.leases, root, order) && Complete(before.leases, order)
    requires Releasing(before, now, order, i, to) && Releasable(before.leases, root, boot) && Acyclic(before.leases)
    ensures order[i] in before.leases
    ensures ReconcileReservation(now, order[i], before.leases[order[i]].reservationId, boot, boot, Some(true), at,
                                 60.0, false, to).1 == Returned(Released(to))
  {
    ReleasableIsClosed(before.leases, root, boot, order);
    hide Releasable, Complete;
    FirstOfWalk(before.leases, root, order);
    assert order[i] in order && order[i] !in order[i + 1..];
    forall k | k in now.leases && ActiveChild(now.leases, k, order[i])
      ensures false
    {
      assert k !in order[i + 1..] && ActiveChild(before.leases, k, order[i]);
      var j :| 0 <= j < |order| && order[j] == k;
      assert j <= i && order[j] in order;
      if k == root {
        ChildOfWalkIsBelow(before.leases, root, order, root);
        NotBelowItself(before.leases, root);
        assert false;
      }
      ChildAfterParent(before.leases, root, order, i, j);
    }
  }

  lemma ChildAfterParent(leases: Leases, root: string, order: seq<string>, i: nat, j: nat)
    requires Walk(leases, root, order) && i < |order| && j < |order| && order[j] in leases
    requires leases[order[j]].parent == order[i] && order[j] != root
    ensures i < j
  {
    assert Entry(leases, root, order, j);
  }

  /** An entry whose release was proved leaves nothing active below it outside the walk. */
  ghost predicate Proved(leases: Leases, order: seq<string>, boot: string, p: string) {
    && p in leases && leases[p].state == Reserved && leases[p].bootId == boot
    && forall k :: ActiveChild(leases, k, p) ==> k in order
  }

  /** The entries from `i` on are proved. */
  ghost predicate ProvedFrom(leases: Leases, order: seq<string>, boot: string, i: nat) {
    forall j :: i <= j < |order| ==> Proved(leases, order, boot, order[j])
  }

  lemma ProvedNone(leases: Leases, order: seq<string>, boot: string)
    ensures ProvedFrom(leases, order, boot, |order|)
  {}

  lemma ProvesOneMore(leases: Leases, order: seq<string>, boot: string, i: nat)
    requires i < |order| && ProvedFrom(leases, order, boot, i + 1) && Proved(leases, order, boot, order[i])
    ensures ProvedFrom(leases, order, boot, i)
  {}

  lemma ProvedAll(leases: Leases, order: seq<string>, boot: string)
    requires ProvedFrom(leases, order, boot, 0)
    ensures forall p :: p in order ==> Proved(leases, order, boot, p)
  {}

  /** Entries that were all proved make the tree releasable, and the walk is all of it. */
  lemma AllProved(leases: Leases, root: string, order: seq<string>, boot: string)
    requires Shaped(leases) && Walk(leases, root, order)
    requires forall p :: p in order ==> Proved(leases, order, boot, p)
    ensures Releasable(leases, root, boot)
    ensures Members(order) == Subtree(leases, root) + {root}
  {
    hide Subtree, Walk;
    FirstOfWalk(leases, root, order);
    assert Proved(leases, order, boot, order[0]);
    WalkIsSubtree(leases, root, order);
    forall k | k in Subtree(leases, root) + {root}
      ensures Proved(leases, order, boot, k)
    {
      assert k in Members(order);
    }
  }

  lemma WalkWithin(leases: Leases, root: string, order: seq<string>)
    requires Walk(leases, root, order)
    ensures Members(order) <= Subtree(leases, root) + {root}
  {
    hide Subtree, Walk;
    FirstOfWalk(leases, root, order);
    forall k | k in order
      ensures k in Subtree(leases, root) + {root}
    {
      var i :| 0 <= i < |order| && order[i] == k;
      if i > 0 { WalkIsBelow(leases, root, order, i); }
    }
  }

  /** One successful release moves the frontier of the second loop down by one entry. */
  lemma FrontierMoves(before: Ledger, was: Ledger, now: Ledger, order: seq<string>, i: nat, to: Ended, boot: string,
      at: real)
    requires i < |order| && Distinct(order) && Releasing(before, was, order, i, to) && order[i] in before.leases
    requires (now, Returned(Released(to))) ==
             ReconcileReservation(was, order[i], before.leases[order[i]].reservationId, boot, boot, Some(true), at,
                                  60.0, false, to)
    ensures Releasing(before, now, order, i - 1, to)
  {
    assert order[i..] == [order[i]] + order[i + 1..];
    assert order[i] !in order[i + 1..];
  }

  /** One turn of the second loop. */
  method ReleaseEntry(broker: Broker, before: Ledger, root: string, order: seq<string>, i: nat, to: Ended, at: real)
    returns (ok: bool)
    requires broker.Valid() && Evolves(before, broker.state) && Inv(before)
    requires Walk(before.leases, root, order) && Complete(before.leases, order)
    requires i < |order| && Releasing(before, broker.state, order, i, to)
    modifies broker
    ensures broker.Valid() && Evolves(before, broker.state) && broker.bootId == old(broker.bootId)
    ensures Releasable(before.leases, root, broker.bootId) ==> ok
    ensures ok ==>
              Releasing(before, broker.state, order, i - 1, to) && Proved(before.leases, order, broker.bootId, order[i])
    ensures !ok ==> broker.state == old(broker.state)
  {
    var leases, boot := before.leases, broker.bootId;
    FirstOfWalk(leases, root, order);
    KnownAcyclic(before);
    hide Walk, Complete, Releasable, Inv, Booked, Evolves, Proved, AgentLedger.ReconcileReservation, Releasing,
         Distinct;
    if Releasable(leases, root, boot) {
      EntryReleases(before, broker.state, root, order, i, to, boot, at);
    }
    if order[i] !in leases { return false; }
    ghost var was := broker.state;
    var out := broker.ReconcileReservation(order[i], leases[order[i]].reservationId, boot, Some(true), at, 60.0,
        false, to);
    EvolvesTransitive(before, was, broker.state);
    ok := out == Returned(Released(to));
    if ok {
      EntryProved(before, was, order, i, to, boot, at);
      FrontierMoves(before, was, broker.state, order, i, to, boot, at);
    } else {
      AnswerLeavesAlone(was, order[i], leases[order[i]].reservationId, boot, at, to);
    }
  }

  /** The second loop: releases a walk from its end, stopping at the first refusal. */
  method ReleaseReversed(broker: Broker, root: string, order: seq<string>, to: Ended, clock: int -> real)
    returns (ok: bool)
    requires broker.Valid() && Walk(broker.state.leases, root, order) && Complete(broker.state.leases, order)
    modifies broker
    ensures broker.Valid() && Evolves(old(broker.state), broker.state) && broker.bootId == old(broker.bootId)
    ensures Untouched(old(broker.state), broker.state)
    ensures Releasable(old(broker.state).leases, root, broker.bootId) ==> ok
    ensures ok ==> forall p :: p in order ==> Proved(old(broker.state).leases, order, broker.bootId, p)
    ensures ok ==> Settled(old(broker.state).leases, broker.state.leases, Members(order), to)
    ensures !ok ==> EndedAmong(old(broker.state).leases, broker.state.leases, Members(order), to)
  {
    var before := broker.state;
    ghost var boot := broker.bootId;
    ghost var leases := before.leases;
    FirstOfWalk(leases, root, order);
    ProvedNone(leases, order, boot);
    EvolvesReflexive(before);
    Unsettled(before, order, to);
    hide *;
    var i := |order|;
    while i > 0
      invariant 0 <= i <= |order|
      invariant broker.Valid() && broker.bootId == boot && Evolves(before, broker.state)
      invariant Releasing(before, broker.state, order, i - 1, to)
      invariant ProvedFrom(leases, order, boot, i)
    {
      i := i - 1;
      ok := ReleaseEntry(broker, before, root, order, i, to, clock(i));
      if !ok {
        PartlySettled(before, broker.state, order, i, to);
        return;
      }
      ProvesOneMore(leases, order, boot, i);
    }
    PartlySettled(before, broker.state, order, -1, to);
    ProvedAll(leases, order, boot);
    return true;
  }

  /**
   `_release_unlaunched`. It succeeds exactly when the root and everything active below it is an
   unlaunched reservation of this boot; then it ends precisely that subtree. A call that gives up
   half-way has ended leases of that subtree only.
   */
  method ReleaseUnlaunched(broker: Broker, root: string, to: Ended, clock: int -> real)
    returns (released: Option<seq<string>>)
    requires broker.Valid()
    modifies broker
    ensures broker.Valid() && Evolves(old(broker.state), broker.state) && broker.bootId == old(broker.bootId)
    ensures Untouched(old(broker.state), broker.state)
    ensures released.Some? <==> Releasable(old(broker.state).leases, root, broker.bootId)
    ensures released.Some? ==>
              && Distinct(released.value)
              && Members(released.value) == Subtree(old(broker.state).leases, root) + {root}
              && Settled(old(broker.state).leases, broker.state.leases, Members(released.value), to)
    ensures released.None? ==>
              EndedAmong(old(broker.state).leases, broker.state.leases,
                  Subtree(old(broker.state).leases, root) + {root}, to)
  {
    var leases := broker.state.leases;
    KnownAcyclic(broker.state);
    var order := ListSubtree(leases, root);
    hide Complete, Releasable, Inv, Booked, Subtree, Acyclic, Evolves, Proved, Settled, Shaped, Entry;
    WalkWithin(leases, root, order);
    var ok := ReleaseReversed(broker, root, order, to, clock);
    if !ok { return None; }
    AllProved(leases, root, order, broker.bootId);
    return Some(order);
  }

  lemma KnownAcyclic(l: Ledger)
    requires Inv(l)
    ensures Acyclic(l.leases) && Shaped(l.leases)
  {}

  lemma EvolvesReflexive(l: Ledger)
    ensures Evolves(l, l)
  {}

  lemma Unsettled(l: Ledger, order: seq<string>, to: Ended)
    requires order != []
    ensures Releasing(l, l, order, |order| - 1, to)
  {}

  lemma PartlySettled(before: Ledger, now: Ledger, order: seq<string>, i: int, to: Ended)
    requires -1 <= i < |order| && Releasing(before, now, order, i, to)
    ensures Untouched(before, now)
    ensures i == -1 ==> Settled(before.leases, now.leases, Members(order), to)
    ensures EndedAmong(before.leases, now.leases, Members(order), to)
  {
    assert order[0..] == order;
    assert Members(order[i + 1..]) <= Members(order);
  }

  lemma AnswerLeavesAlone(l: Ledger, id: string, reservationId: string, boot: string, at: real, to: Ended)
    requires ReconcileReservation(l, id, reservationId, boot, boot, Some(true), at, 60.0, false, to).1
             != Returned(Released(to))
    ensures ReconcileReservation(l, id, reservationId, boot, boot, Some(true), at, 60.0, false, to).0 == l
  {}
}
