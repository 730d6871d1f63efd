/**
 Safety of the lease tree. Admission only ever compares a request with its direct parent's
 budget; the lemmas here show what that buys for the whole host and for every subtree, in every
 ledger a run can reach.
 */
module LedgerSafety {
  import opened Prelude
  import opened Budgets
  import opened AgentLedger

  // ---------------------------------------------------------------- the invariant

  /** Each lease is internally consistent and hangs under the root or under another lease. */
  predicate Shaped(leases: Leases) {
    && ROOT !in leases
    && forall k :: k in leases ==>
         && leases[k].own == ClassBudget(leases[k].workerClass)
         && leases[k].children.Valid()
         && leases[k].total == leases[k].own.Add(leases[k].children)
         && (leases[k].parent == ROOT || leases[k].parent in leases)
         && (leases[k].state.Active() && leases[k].parent != ROOT ==> IsActive(leases, leases[k].parent))
  }

  /** Every delegating node covers the active children charged to it. */
  ghost predicate Covered(l: Ledger) {
    && Used(l.leases, ROOT).Fits(l.root)
    && forall p :: IsActive(l.leases, p) ==> Used(l.leases, p).Fits(l.leases[p].children)
  }

  ghost predicate Ranks(leases: Leases, rank: map<string, nat>) {
    && leases.Keys <= rank.Keys
    && forall k :: k in leases && leases[k].parent in leases ==> rank[leases[k].parent] < rank[k]
  }

  /** The parent relation has no cycle. */
  ghost predicate Acyclic(leases: Leases) { exists rank :: Ranks(leases, rank) }

  ghost predicate Inv(l: Ledger) {
    l.root.Valid() && Shaped(l.leases) && Covered(l) && Acyclic(l.leases)
  }

  function Empty(root: Budget): Ledger { Ledger(root, map[], map[], None) }

  lemma EmptyInv(root: Budget)
    requires root.Valid()
    ensures Inv(Empty(root))
  {
    var l := Empty(root);
    assert Charges(l.leases, ROOT) == map[];
    assert Ranks(l.leases, map[]);
  }

  // ---------------------------------------------------------------- counting

  ghost function Owns(leases: Leases, d: set<string>): map<string, Budget>
    requires d <= leases.Keys
  { map k | k in d :: leases[k].own }

  ghost function Totals(leases: Leases, d: set<string>): map<string, Budget>
    requires d <= leases.Keys
  { map k | k in d :: leases[k].total }

  ghost function Delegated(leases: Leases, d: set<string>): map<string, Budget>
    requires d <= leases.Keys
  { map k | k in d :: leases[k].children }

  ghost function ActiveSet(leases: Leases): set<string> { set k | k in leases && leases[k].state.Active() }

  /** The members of `d` whose parent lies in `q`. */
  ghost function Under(leases: Leases, d: set<string>, q: set<string>): set<string>
    requires d <= leases.Keys
  { set k | k in d && leases[k].parent in q }

  lemma ChargedToOne(leases: Leases, d: set<string>, p: string)
    requires d <= ActiveSet(leases) && Shaped(leases)
    ensures Sum(Totals(leases, Under(leases, d, {p}))).Fits(Used(leases, p))
  {
    SumSubmap(Totals(leases, Under(leases, d, {p})), Charges(leases, p));
  }

  /** Summed parent by parent, what the nodes of `q` were charged fits what they delegated. */
  lemma {:induction false} ChargedToMany(l: Ledger, d: set<string>, q: set<string>)
    requires Shaped(l.leases) && Covered(l)
    requires d <= ActiveSet(l.leases) && q <= ActiveSet(l.leases)
    ensures Sum(Totals(l.leases, Under(l.leases, d, q))).Fits(Sum(Delegated(l.leases, q)))
    decreases q
  {
    hide Sum;
    var leases := l.leases;
    if q != {} {
      var p := Pick(q);
      var rest := q - {p};
      ChargedToMany(l, d, rest);
      ChargedToOne(leases, d, p);
      SumSplit(Totals(leases, Under(leases, d, q)),
               Totals(leases, Under(leases, d, rest)), Totals(leases, Under(leases, d, {p})));
      SumRemove(Delegated(leases, q), p);
      assert Delegated(leases, q) - {p} == Delegated(leases, rest);
    }
  }

  /**
   The counting argument. Let `d` be active leases that all hang under `anchor` or under each
   other. Then what they really use fits what `anchor` was charged for its direct children.
   */
  lemma ClosedSetFits(l: Ledger, d: set<string>, anchor: string)
    requires Shaped(l.leases) && Covered(l)
    requires d <= ActiveSet(l.leases) && anchor !in d
    requires forall k :: k in d ==> l.leases[k].parent == anchor || l.leases[k].parent in d
    ensures Sum(Owns(l.leases, d)).Fits(Used(l.leases, anchor))
  {
    hide Sum;
    var leases := l.leases;
    SumAdd(Owns(leases, d), Delegated(leases, d), Totals(leases, d));
    SumSplit(Totals(leases, d), Totals(leases, Under(leases, d, d)), Totals(leases, Under(leases, d, {anchor})));
    ChargedToMany(l, d, d);
    ChargedToOne(leases, d, anchor);
  }

  // ---------------------------------------------------------------- what fits

  /** All that runs anywhere in the tree fits what the root was charged, hence the host budget. */
  lemma HostFits(l: Ledger)
    requires Inv(l)
    ensures Sum(Owns(l.leases, ActiveSet(l.leases))).Fits(Used(l.leases, ROOT))
    ensures Sum(Owns(l.leases, ActiveSet(l.leases))).Fits(l.root)
  {
    ClosedSetFits(l, ActiveSet(l.leases), ROOT);
  }

  lemma {:induction false} SumCounts(leases: Leases, d: set<string>)
    requires Shaped(leases) && d <= leases.Keys
    ensures Sum(Owns(leases, d)).workers == |d|
    ensures Sum(Owns(leases, d)).heavy == |set k | k in d && leases[k].workerClass.Heavy?|
    decreases d
  {
    hide Sum;
    if d == {} {
      assert Owns(leases, d) == map[];
      SumEmpty();
    } else {
      var k := Pick(d);
      SumCounts(leases, d - {k});
      SumRemove(Owns(leases, d), k);
      assert Owns(leases, d) - {k} == Owns(leases, d - {k});
      HeavyWithout(leases, d, k);
    }
  }

  lemma HeavyWithout(leases: Leases, d: set<string>, k: string)
    requires d <= leases.Keys && k in d
    ensures |set j | j in d && leases[j].workerClass.Heavy?|
            == |set j | j in d - {k} && leases[j].workerClass.Heavy?| + if leases[k].workerClass.Heavy? then 1 else 0
  {
    var heavy := set j | j in d && leases[j].workerClass.Heavy?;
    var fewer := set j | j in d - {k} && leases[j].workerClass.Heavy?;
    assert heavy == if leases[k].workerClass.Heavy? then fewer + {k} else fewer;
  }

  /** In numbers of leases: never more active, and never more heavy, than the root allows. */
  lemma WorkerCounts(l: Ledger)
    requires Inv(l)
    ensures |ActiveSet(l.leases)| <= l.root.workers
    ensures |set k | k in ActiveSet(l.leases) && l.leases[k].workerClass.Heavy?| <= l.root.heavy
  {
    HostFits(l);
    SumCounts(l.leases, ActiveSet(l.leases));
  }

  /** `path` climbs from its first lease to its last node by parent links. */
  ghost predicate Climbs(leases: Leases, path: seq<string>) {
    |path| >= 2 && forall i :: 0 <= i < |path| - 1 ==> path[i] in leases && leases[path[i]].parent == path[i + 1]
  }

  ghost predicate Below(leases: Leases, k: string, p: string) {
    exists path :: Climbs(leases, path) && path[0] == k && path[|path| - 1] == p
  }

  ghost function Subtree(leases: Leases, p: string): set<string> {
    set k | k in leases && leases[k].state.Active() && Below(leases, k, p)
  }

  lemma {:induction false} ClimbDecreases(leases: Leases, rank: map<string, nat>, path: seq<string>)
    requires Ranks(leases, rank) && Climbs(leases, path) && path[|path| - 1] in leases
    ensures rank[path[|path| - 1]] < rank[path[0]]
    decreases |path|
  {
    assert leases[path[0]].parent == path[1];
    if |path| > 2 {
      var up := path[1..];
      ClimbDecreases(leases, rank, up);
      assert up[0] in leases;
    }
  }

  lemma NotBelowItself(leases: Leases, p: string)
    requires Acyclic(leases) && p in leases
    ensures !Below(leases, p, p)
  {
    var rank :| Ranks(leases, rank);
    if Below(leases, p, p) {
      var path :| Climbs(leases, path) && path[0] == p && path[|path| - 1] == p;
      ClimbDecreases(leases, rank, path);
      assert false;
    }
  }

  lemma ParentStaysBelow(leases: Leases, k: string, p: string)
    requires Shaped(leases) && k in Subtree(leases, p) && leases[k].parent != p && p in leases
    ensures leases[k].parent in Subtree(leases, p)
  {
    var path :| Climbs(leases, path) && path[0] == k && path[|path| - 1] == p;
    assert leases[path[0]].parent == path[1];
    var up := path[1..];
    assert Climbs(leases, up);
    assert up[0] in leases;
  }

  /**
   The hierarchical promise: whatever its descendants did, the active leases below an active
   lease together stay within the budget that lease was given to delegate.
   */
  lemma SubtreeFits(l: Ledger, p: string)
    requires Inv(l) && IsActive(l.leases, p)
    ensures Sum(Owns(l.leases, Subtree(l.leases, p))).Fits(l.leases[p].children)
  {
    var d := Subtree(l.leases, p);
    NotBelowItself(l.leases, p);
    forall k | k in d
      ensures l.leases[k].parent == p || l.leases[k].parent in d
    {
      if l.leases[k].parent != p { ParentStaysBelow(l.leases, k, p); }
    }
    ClosedSetFits(l, d, p);
  }

  // ---------------------------------------------------------------- preservation

  /** Rewriting a lease without touching its place or budgets, and only ever ending it childless. */
  ghost predicate Restates(leases: Leases, id: string, lease: Lease) {
    && IsActive(leases, id)
    && var was := leases[id];
       && lease == was.(state := lease.state, attemptId := lease.attemptId, unit := lease.unit,
                        claimExpires := lease.claimExpires, bootId := lease.bootId, reconciledAt := lease.reconciledAt)
       && (!lease.state.Active() ==> !HasActiveChild(leases, id))
  }

  lemma RestateShaped(leases: Leases, id: string, lease: Lease)
    requires Shaped(leases) && Restates(leases, id, lease)
    ensures Shaped(leases[id := lease])
  {
    var after := leases[id := lease];
    forall k | k in after && after[k].state.Active() && after[k].parent != ROOT
      ensures IsActive(after, after[k].parent)
    {
      assert after[k].parent == leases[k].parent;
      assert after[k].parent == id ==> ActiveChild(leases, k, id);
    }
  }

  lemma RestateCharges(leases: Leases, id: string, lease: Lease, p: string)
    requires Shaped(leases) && Restates(leases, id, lease)
    ensures Used(leases[id := lease], p).Fits(Used(leases, p))
  {
    hide Sum;
    SumSubmap(Charges(leases[id := lease], p), Charges(leases, p));
  }

  lemma RestatePreserves(l: Ledger, id: string, lease: Lease)
    requires Inv(l) && Restates(l.leases, id, lease)
    ensures Inv(l.(leases := l.leases[id := lease]))
  {
    hide Sum, Charges, Shaped;
    var after := l.leases[id := lease];
    RestateShaped(l.leases, id, lease);
    var rank :| Ranks(l.leases, rank);
    assert Ranks(after, rank);
    RestateCharges(l.leases, id, lease, ROOT);
    forall p | IsActive(after, p)
      ensures Used(after, p).Fits(after[p].children)
    {
      RestateCharges(l.leases, id, lease, p);
    }
  }

  /** A lease the ledger may gain: new, sound, and covered by an active parent. */
  ghost predicate Fresh(l: Ledger, id: string, lease: Lease) {
    && id !in l.leases && id != ROOT
    && lease.own == ClassBudget(lease.workerClass) && lease.children.Valid()
    && lease.total == lease.own.Add(lease.children) && lease.state.Active()
    && (lease.parent == ROOT || IsActive(l.leases, lease.parent))
    && Used(l.leases, lease.parent).Add(lease.total).Fits(Limit(l, lease.parent))
  }

  lemma GrowCharges(leases: Leases, id: string, lease: Lease, p: string)
    requires Shaped(leases) && id !in leases && id != ROOT && lease.state.Active()
    requires lease.parent == ROOT || lease.parent in leases
    ensures Used(leases[id := lease], p) ==
            if p == lease.parent then Used(leases, p).Add(lease.total)
            else if p == id then ZERO else Used(leases, p)
  {
    hide Sum;
    var after := leases[id := lease];
    if p == lease.parent {
      assert Charges(after, p) == Charges(leases, p)[id := lease.total];
      SumInsert(Charges(leases, p), id, lease.total);
    } else if p == id {
      assert Charges(after, p) == map[];
      SumEmpty();
    } else {
      assert Charges(after, p) == Charges(leases, p);
    }
  }

  lemma GrowPreserves(l: Ledger, id: string, lease: Lease)
    requires Inv(l) && Fresh(l, id, lease)
    ensures Inv(l.(leases := l.leases[id := lease]))
  {
    hide Sum, Used;
    var after := l.leases[id := lease];
    var rank :| Ranks(l.leases, rank);
    var depth := if lease.parent in l.leases then rank[lease.parent] + 1 else 0;
    assert Ranks(after, rank[id := depth]);
    GrowCharges(l.leases, id, lease, ROOT);
    forall p | IsActive(after, p)
      ensures Used(after, p).Fits(after[p].children)
    {
      GrowCharges(l.leases, id, lease, p);
    }
  }

  /** What a first-time grant tells: the sample allowed it and the new lease is covered. */
  lemma GrantFacts(l: Ledger, r: Request, env: Env)
    requires r.id !in l.requests && Reserve(l, r, env).1.Returned? && Reserve(l, r, env).1.value.Granted?
    ensures Reserve(l, r, env).0.leases == l.leases[r.worker := NewLease(r, env)]
    ensures Fresh(l, r.worker, NewLease(r, env))
    ensures Refusal(Observed(l, env), r.workerClass, Used(l.leases, ROOT).memoryMax, CandidateMemory(r), env.now).None?
  {
    hide Used, Refusal, Observed;
  }

  lemma ReservePreserves(l: Ledger, r: Request, env: Env)
    requires Inv(l)
    ensures Inv(Reserve(l, r, env).0)
  {
    hide Refusal, Observed, Used;
    var (after, out) := Reserve(l, r, env);
    if r.id !in l.requests && out.Returned? && out.value.Granted? {
      GrantFacts(l, r, env);
      GrowPreserves(l, r.worker, NewLease(r, env));
    } else {
      assert after.leases == l.leases && after.root == l.root;
    }
  }

  // ---------------------------------------------------------------- memory at admission

  /**
   The memory promise at the moment of any admission, nested or not: all running leases plus the
   host's floor fit what the admitting sample said was available.
   */
  lemma AdmissionMemory(l: Ledger, r: Request, env: Env)
    requires Inv(l) && r.id !in l.requests
    requires Reserve(l, r, env).1.Returned? && Reserve(l, r, env).1.value.Granted?
    ensures var after, p := Reserve(l, r, env).0.leases, Observed(l, env);
      Sum(Owns(after, ActiveSet(after))).memoryMax + Floor(p) <= p.available
  {
    hide Sum, Used, Charges, Reserve, Observed, Floor, Covered;
    ReservePreserves(l, r, env);
    HostFits(Reserve(l, r, env).0);
    GrantFacts(l, r, env);
    GrowCharges(l.leases, r.worker, NewLease(r, env), ROOT);
  }

  /**
   A grant on a live reading rests on two samples: an earlier one at most a minute before, no swap
   traffic between the two, and a fresh reading under the pressure limits.
   */
  lemma LiveGrantIsCalm(l: Ledger, r: Request, env: Env)
    requires r.id !in l.requests && env.supplied.None?
    requires Reserve(l, r, env).1.Returned? && Reserve(l, r, env).1.value.Granted?
    ensures env.reading.Some? && l.sample.Some?
    ensures var now, before := env.reading.value, l.sample.value;
      && 0.0 < now.counters.sampledAt - before.sampledAt <= 60.0
      && now.counters.pswpin + now.counters.pswpout == before.pswpin + before.pswpout
      && 0.0 <= env.now - now.counters.sampledAt <= 5.0
      && now.psi.Finite? && 0.0 <= now.psi.value < (if r.workerClass.Light? then 5.0 else 2.0)
    ensures Reserve(l, r, env).0.sample == Some(env.reading.value.counters)
  {
    hide Used, Admit;
  }
}
