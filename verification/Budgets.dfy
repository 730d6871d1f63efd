/** Worker budgets (src/switchstand/agent_broker.py:33-62) and finite sums of them. */
module Budgets {

  /** Seven independent resource dimensions, all charged together. */
  datatype Budget = Budget(
    memoryHigh: int, memoryMax: int, swapMax: int, cpu: int, tasks: int, workers: int, heavy: int)
  {
    predicate NonNegative() {
      0 <= memoryHigh && 0 <= memoryMax && 0 <= swapMax && 0 <= cpu && 0 <= tasks && 0 <= workers && 0 <= heavy
    }

    /** What `Budget.__post_init__` accepts. */
    predicate Valid() {
      NonNegative() && memoryHigh <= memoryMax
    }

    function Add(other: Budget): Budget {
      Budget(memoryHigh + other.memoryHigh, memoryMax + other.memoryMax, swapMax + other.swapMax,
             cpu + other.cpu, tasks + other.tasks, workers + other.workers, heavy + other.heavy)
    }

    predicate Fits(limit: Budget) {
      && memoryHigh <= limit.memoryHigh && memoryMax <= limit.memoryMax && swapMax <= limit.swapMax
      && cpu <= limit.cpu && tasks <= limit.tasks && workers <= limit.workers && heavy <= limit.heavy
    }
  }

  const ZERO := Budget(0, 0, 0, 0, 0, 0, 0)

  datatype WorkerClass = Light | Implementation | Heavy

  function ClassBudget(c: WorkerClass): Budget {
    match c
    case Light => Budget(700, 1024, 128, 100, 96, 1, 0)
    case Implementation => Budget(1229, 1792, 256, 200, 160, 1, 0)
    case Heavy => Budget(2560, 3584, 512, 400, 384, 1, 1)
  }

  ghost function Pick<T>(s: set<T>): T
    requires s != {}
    ensures Pick(s) in s
  {
    var x :| x in s; x
  }

  /** The sum of a finite collection of budgets, independent of any order. */
  ghost function Sum(m: map<string, Budget>): Budget
    decreases m.Keys
  {
    if m == map[] then ZERO
    else
      var k := Pick(m.Keys);
      m[k].Add(Sum(m - {k}))
  }

  lemma SumEmpty()
    ensures Sum(map[]) == ZERO
  {}

  lemma {:induction false} SumRemove(m: map<string, Budget>, k: string)
    requires k in m
    ensures Sum(m) == m[k].Add(Sum(m - {k}))
    decreases m.Keys
  {
    var p := Pick(m.Keys);
    if p != k {
      SumRemove(m - {p}, k);
      SumRemove(m - {k}, p);
      assert m - {p} - {k} == m - {k} - {p};
    }
  }

  lemma AddSwap(a: Budget, b: Budget, c: Budget)
    ensures a.Add(b.Add(c)) == b.Add(a.Add(c))
  {}

  lemma AddCross(a: Budget, b: Budget, c: Budget, d: Budget)
    ensures a.Add(b).Add(c.Add(d)) == a.Add(c).Add(b.Add(d))
  {}

  lemma SumInsert(m: map<string, Budget>, k: string, b: Budget)
    requires k !in m
    ensures Sum(m[k := b]) == Sum(m).Add(b)
  {
    SumRemove(m[k := b], k);
    assert m[k := b] - {k} == m;
  }

  lemma {:induction false} SumNonNegative(m: map<string, Budget>)
    requires forall k :: k in m ==> m[k].NonNegative()
    ensures Sum(m).NonNegative()
    decreases m.Keys
  {
    if m != map[] {
      SumNonNegative(m - {Pick(m.Keys)});
    }
  }

  /** `m` and `n` split `s` into two disjoint parts. */
  ghost predicate Splits(s: map<string, Budget>, m: map<string, Budget>, n: map<string, Budget>) {
    && m.Keys !! n.Keys && s.Keys == m.Keys + n.Keys
    && (forall k :: k in m ==> s[k] == m[k]) && (forall k :: k in n ==> s[k] == n[k])
  }

  lemma {:induction false} SumSplit(s: map<string, Budget>, m: map<string, Budget>, n: map<string, Budget>)
    requires Splits(s, m, n)
    ensures Sum(s) == Sum(m).Add(Sum(n))
    decreases n.Keys
  {
    if n == map[] {
      assert s == m;
    } else {
      var k := Pick(n.Keys);
      SumSplit(s - {k}, m, n - {k});
      SumRemove(s, k);
      AddSwap(n[k], Sum(m), Sum(n - {k}));
    }
  }

  /** Dropping non-negative budgets never raises a sum. */
  lemma SumSubmap(m: map<string, Budget>, n: map<string, Budget>)
    requires m.Keys <= n.Keys && forall k :: k in m ==> m[k] == n[k]
    requires forall k :: k in n ==> n[k].NonNegative()
    ensures Sum(m).Fits(Sum(n))
  {
    var rest := n - m.Keys;
    SumSplit(n, m, rest);
    SumNonNegative(rest);
  }

  lemma {:induction false} SumAdd(m: map<string, Budget>, n: map<string, Budget>, s: map<string, Budget>)
    requires m.Keys == n.Keys == s.Keys && forall k :: k in s ==> s[k] == m[k].Add(n[k])
    ensures Sum(s) == Sum(m).Add(Sum(n))
    decreases m.Keys
  {
    if m != map[] {
      var k := Pick(m.Keys);
      var m', n', s' := m - {k}, n - {k}, s - {k};
      SumAdd(m', n', s');
      SumRemove(n, k);
      SumRemove(s, k);
      assert Sum(s) == m[k].Add(n[k]).Add(Sum(m').Add(Sum(n')));
      assert Sum(m) == m[k].Add(Sum(m')) && Sum(n) == n[k].Add(Sum(n'));
      AddCross(m[k], n[k], Sum(m'), Sum(n'));
    }
  }
}
