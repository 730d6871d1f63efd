/**
 The answers of the broker, exactly: when a request is granted, an execution attached, a lease
 released, spelled out on the fields of the call, the sample and the lease.
 */
module LedgerExact {
  import opened Prelude
  import opened Budgets
  import opened AgentLedger
  import opened LedgerSafety
  import opened LedgerRuns

  // ---------------------------------------------------------------- totals, dimension by dimension

  /** The plain sum of `f` over some leases. */
  ghost function Total(d: set<string>, f: string -> int): int
    decreases d
  {
    if d == {} then 0 else var k := Pick(d); f(k) + Total(d - {k}, f)
  }

  ghost function Own(leases: Leases): string -> Budget { k => if k in leases then leases[k].own else ZERO }

  lemma {:induction false} SumIsTotal(leases: Leases, d: set<string>)
    requires d <= leases.Keys
    ensures var own := Own(leases);
      Sum(Owns(leases, d)) ==
      Budget(Total(d, k => own(k).memoryHigh), Total(d, k => own(k).memoryMax), Total(d, k => own(k).swapMax),
             Total(d, k => own(k).cpu), Total(d, k => own(k).tasks), Total(d, k => own(k).workers),
             Total(d, k => own(k).heavy))
    decreases d
  {
    if d == {} {
      assert Owns(leases, d) == map[];
    } else {
      var k := Pick(d);
      SumIsTotal(leases, d - {k});
      SumRemove(Owns(leases, d), k);
      assert Owns(leases, d) - {k} == Owns(leases, d - {k});
      hide Sum;
    }
  }

  /** The main theorem once more, dimension by dimension: all that runs anywhere fits the host. */
  lemma ReachableTotalsFit(root: Budget, actions: seq<Action>)
    requires root.Valid()
    ensures var l := Run(Empty(root), actions);
      var d, own := ActiveSet(l.leases), Own(l.leases);
      && Total(d, k => own(k).memoryHigh) <= root.memoryHigh && Total(d, k => own(k).memoryMax) <= root.memoryMax
      && Total(d, k => own(k).swapMax) <= root.swapMax && Total(d, k => own(k).cpu) <= root.cpu
      && Total(d, k => own(k).tasks) <= root.tasks && Total(d, k => own(k).workers) <= root.workers
      && Total(d, k => own(k).heavy) <= root.heavy
  {
    ReachableLedgersFit(root, actions);
    var l := Run(Empty(root), actions);
    SumIsTotal(l.leases, ActiveSet(l.leases));
    hide Sum, Run;
  }

  // ---------------------------------------------------------------- the sample

  /** The swap traffic a sample vouches for: measured, or none at all on a host that never swapped. */
  function Traffic(p: Pressure): Option<int> {
    if p.activity.Some? then p.activity
    else if p.pswpin.None? && p.pswpout.None? && p.swapUsed == 0 then Some(0)
    else None
  }

  predicate WellFormed(p: Pressure, reserved: int, candidate: int, now: real) {
    && 0 <= p.total && 0 <= p.available && 0 <= p.swapTotal && 0 <= p.swapUsed && 0 <= reserved && 0 <= candidate
    && p.psi.Finite? && 0.0 <= p.psi.value
    && (p.sampledAt == None || (p.sampledAt.value.Finite? && p.sampledAt.value.value <= now))
  }

  predicate Recent(p: Pressure, now: real) {
    p.sampledAt == None || (p.sampledAt.value.Finite? && now <= p.sampledAt.value.value + 5.0)
  }

  predicate Windowed(p: Pressure) {
    p.window == None || (p.window.value.Finite? && 0.0 < p.window.value.value <= 60.0)
  }

  /** The memory a sample must show: what is reserved, what is asked for, and the larger of 2 GiB and a fifth. */
  predicate Roomy(p: Pressure, reserved: int, candidate: int) {
    p.available >= reserved + candidate + 2048 && p.available >= reserved + candidate + p.total / 5
  }

  /** A sample admits a request if and only if it is sound, recent, calm and roomy. */
  lemma RefusalExactly(p: Pressure, c: WorkerClass, reserved: int, candidate: int, now: real)
    ensures var r := Refusal(p, c, reserved, candidate, now);
      && (r == None <==>
            && WellFormed(p, reserved, candidate, now) && Recent(p, now)
            && Traffic(p) == Some(0) && Windowed(p) && Roomy(p, reserved, candidate)
            && p.psi.value < 5.0 && (c == Light || p.psi.value < 2.0))
      && (!WellFormed(p, reserved, candidate, now) ==> r == Some(SampleInvalid))
      && (WellFormed(p, reserved, candidate, now) ==>
            && (!Recent(p, now) ==> r == Some(SampleStale))
            && (Recent(p, now) && Traffic(p) == None ==>
                  r == Some(if p.pswpin.None? && p.pswpout.None? then HostPressure else SampleMissing))
            && (Recent(p, now) && Traffic(p).Some? && Traffic(p).value < 0 ==> r == Some(SampleInvalid))
            && (Recent(p, now) && Traffic(p).Some? && Traffic(p).value >= 0 && !Windowed(p) ==>
                  r == Some(if p.window.value.Finite? && p.window.value.value > 60.0 then SampleStale
                            else SampleInvalid)))
      && (WellFormed(p, reserved, candidate, now) && Recent(p, now) && Traffic(p).Some? && Traffic(p).value >= 0
          && Windowed(p) ==>
            && (r == Some(MemoryAvailable) <==> !Roomy(p, reserved, candidate))
            && (r == Some(HostPressure) <==>
                  Roomy(p, reserved, candidate) && (Traffic(p).value != 0 || p.psi.value >= 5.0))
            && (r == Some(LightOnly) <==>
                  Roomy(p, reserved, candidate) && Traffic(p).value == 0 && 2.0 <= p.psi.value < 5.0 && c != Light))
  {}

  /** What a live reading vouches for is the traffic since the sample before, if the counters never ran back. */
  lemma ReadingExactly(r: Reading, previous: Option<Counters>)
    ensures var p := WithActivity(r, previous);
      && p.total == r.total && p.available == r.available && p.psi == r.psi
      && p.swapTotal == r.swapTotal && p.swapUsed == r.swapUsed
      && p.sampledAt == Some(Finite(r.counters.sampledAt)) && p.pswpin == Some(r.counters.pswpin)
      && p.pswpout == Some(r.counters.pswpout)
      && (p.activity.Some? <==>
            && previous.Some? && r.counters.sampledAt > previous.value.sampledAt
            && r.counters.pswpin + r.counters.pswpout >= previous.value.pswpin + previous.value.pswpout)
      && (p.activity.Some? ==>
            && p.activity.value
               == r.counters.pswpin + r.counters.pswpout - previous.value.pswpin - previous.value.pswpout
            && p.window == Some(Finite(r.counters.sampledAt - previous.value.sampledAt)))
      && (p.activity.None? ==> p.window.None?)
  {}

  // ---------------------------------------------------------------- requests

  /** The budget of a worker's own class. */
  predicate OwnOf(c: WorkerClass, b: Budget) {
    b == if c == Light then Budget(700, 1024, 128, 100, 96, 1, 0)
         else if c == Implementation then Budget(1229, 1792, 256, 200, 160, 1, 0)
         else Budget(2560, 3584, 512, 400, 384, 1, 1)
  }

  predicate Delegates(b: Budget) {
    && 0 <= b.memoryHigh <= b.memoryMax && 0 <= b.swapMax && 0 <= b.cpu && 0 <= b.tasks && 0 <= b.workers
    && 0 <= b.heavy
  }

  /** `used`, the worker and its children together stay within `limit`, in each dimension. */
  predicate Covers(limit: Budget, used: Budget, own: Budget, children: Budget) {
    && used.memoryHigh + own.memoryHigh + children.memoryHigh <= limit.memoryHigh
    && used.memoryMax + own.memoryMax + children.memoryMax <= limit.memoryMax
    && used.swapMax + own.swapMax + children.swapMax <= limit.swapMax
    && used.cpu + own.cpu + children.cpu <= limit.cpu && used.tasks + own.tasks + children.tasks <= limit.tasks
    && used.workers + own.workers + children.workers <= limit.workers
    && used.heavy + own.heavy + children.heavy <= limit.heavy
  }

  predicate Runs(l: Ledger, k: string) { k in l.leases && l.leases[k].state in {Reserved, ExecutionActive} }

  /** The budget a new request draws on. */
  function Pool(l: Ledger, parent: string): Budget {
    if parent == "root" then l.root else if parent in l.leases then l.leases[parent].children else ZERO
  }

  /**
   A new request is granted if and only if its worker is new, its parent runs and covers it in every
   dimension, its sample admits it, and its inbox is safe; the ledger then holds exactly this lease more.
   */
  lemma GrantsExactly(l: Ledger, r: Request, env: Env)
    requires r.id !in l.requests
    ensures var (after, out), own, p := Reserve(l, r, env), ClassBudget(r.workerClass), Observed(l, env);
      var memory := if r.parent == "root" then own.memoryMax + r.children.memoryMax else 0;
      && (out.Returned? && out.value.Granted? <==>
            && OwnOf(r.workerClass, own) && Delegates(r.children)
            && r.worker != "root" && r.worker !in l.leases && (r.parent == "root" || Runs(l, r.parent)) && env.inboxSafe
            && Covers(Pool(l, r.parent), Used(l.leases, r.parent), own, r.children)
            && Refusal(p, r.workerClass, Used(l.leases, "root").memoryMax, memory, env.now) == None)
      && (out.Returned? && out.value.Granted? ==>
            && out.value == Granted(r.parent, r.worker, env.uuid)
            && after.leases == l.leases[r.worker :=
                 Lease(env.uuid, r.id, r.parent, r.workerClass, own, r.children,
                       Budget(own.memoryHigh + r.children.memoryHigh, own.memoryMax + r.children.memoryMax,
                              own.swapMax + r.children.swapMax, own.cpu + r.children.cpu, own.tasks + r.children.tasks,
                              own.workers + r.children.workers, own.heavy + r.children.heavy),
                       Reserved, env.later, env.bootId, None, None, None, None)])
      && (!(out.Returned? && out.value.Granted?) ==> after.leases == l.leases)
      && (if out.Returned? then after.requests == l.requests[r.id := out.value] else after == l)
  {
    hide Refusal, Observed, Used;
  }

  /** Which error a new request raises; an unusable budget at the root is found before the sample is even looked at. */
  lemma RaisesExactly(l: Ledger, r: Request, env: Env)
    requires r.id !in l.requests
    ensures var out, own := Reserve(l, r, env).1, ClassBudget(r.workerClass);
      var memory := if r.parent == "root" then own.memoryMax + r.children.memoryMax else 0;
      var refusal := Refusal(Observed(l, env), r.workerClass, Used(l.leases, "root").memoryMax, memory, env.now);
      var early := r.parent == "root" && !Delegates(r.children);
      var taken := r.worker == "root" || r.worker in l.leases;
      var under := r.parent == "root" || Runs(l, r.parent);
      && (out == Raised(WorkerExists) <==> !early && refusal == None && taken)
      && (out == Raised(InvalidBudget) <==> early || (refusal == None && !taken && !Delegates(r.children)))
      && (out == Raised(LeaseNotActive) <==> refusal == None && !taken && Delegates(r.children) && !under)
      && (out == Raised(UnsafeInbox) <==>
            && refusal == None && !taken && Delegates(r.children) && under && !env.inboxSafe
            && Covers(Pool(l, r.parent), Used(l.leases, r.parent), own, r.children))
      && (refusal.Some? && !early ==> out == Returned(Refused(r.parent, refusal.value)))
  {
    hide Refusal, Observed, Used;
  }

  /** A repeated request gets its first reply, unless it names another parent; either way nothing changes. */
  lemma RepeatsExactly(l: Ledger, r: Request, env: Env)
    requires r.id in l.requests
    ensures var reply := l.requests[r.id];
      Reserve(l, r, env) == (l, if reply.parent == r.parent then Returned(reply) else Raised(RequestCollision))
  {}

  /** The sample that is judged, and the counters kept for the next; without any sample nothing is granted. */
  lemma SamplesExactly(l: Ledger, r: Request, env: Env)
    requires r.id !in l.requests
    ensures env.supplied.Some? ==> Observed(l, env) == env.supplied.value
    ensures env.supplied.None? && env.reading.Some? ==> Observed(l, env) == WithActivity(env.reading.value, l.sample)
    ensures env.supplied.None? && env.reading.None? ==>
              Reserve(l, r, env).1.Returned? ==> Reserve(l, r, env).1.value.Refused?
    ensures var (after, out) := Reserve(l, r, env); out.Returned? ==>
      after.sample == if env.supplied.None? && env.reading.Some? then Some(env.reading.value.counters) else l.sample
  {
    hide Used, Admit, WithActivity;
  }

  /** A request its parent cannot cover is refused as such, once everything else about it holds. */
  lemma RefusesForBudget(l: Ledger, r: Request, env: Env)
    requires r.id !in l.requests && r.worker != "root" && r.worker !in l.leases && Delegates(r.children)
    requires r.parent == "root" || Runs(l, r.parent)
    requires var own := ClassBudget(r.workerClass);
      Refusal(Observed(l, env), r.workerClass, Used(l.leases, "root").memoryMax,
              if r.parent == "root" then own.memoryMax + r.children.memoryMax else 0, env.now) == None
    ensures Reserve(l, r, env).1 == Returned(Refused(r.parent, ParentBudget))
            <==> !Covers(Pool(l, r.parent), Used(l.leases, r.parent), ClassBudget(r.workerClass), r.children)
  {
    hide Refusal, Observed, Used;
  }

  // ---------------------------------------------------------------- attachment

  /** A letter or digit, by its code. */
  predicate Letter(code: int) { 48 <= code <= 57 || 65 <= code <= 90 || 97 <= code <= 122 }

  /** One to eighty letters, digits, dashes (45), dots (46) and underscores (95), the first a letter or digit. */
  predicate Identifier(s: string) {
    && 1 <= |s| <= 80 && Letter(s[0] as int)
    && forall i :: 0 <= i < |s| ==> Letter(s[i] as int) || s[i] as int in {45, 46, 95}
  }

  lemma IdentifiersExactly(s: string)
    ensures ValidId(s) <==> Identifier(s)
  {
    assert '-' as int == 45 && '.' as int == 46 && '_' as int == 95;
  }

  /** An execution is attached if and only if everything presented is well formed and names this reservation. */
  lemma AttachesExactly(l: Ledger, id: string, c: Claim, receiptAttempt: Option<string>, receiptUnit: Option<string>,
                        ttl: Float, now: real, boot: string, receiptBlocked: bool)
    ensures var (after, out) := Attach(l, id, c, receiptAttempt, receiptUnit, ttl, now, boot, receiptBlocked);
      var binds :=
        && ValidId(c.attemptId) && ValidId(c.unit) && ttl.Finite? && ttl.value > 0.0
        && receiptAttempt in {None, Some(c.attemptId)} && receiptUnit in {None, Some(c.unit)}
        && id in l.leases && l.leases[id].state == Reserved && l.leases[id].reservationId == c.reservationId;
      && (after != l ==> binds)
      && (binds ==>
            && after == l.(leases := l.leases[id := l.leases[id].(
                 state := ExecutionActive, attemptId := Some(c.attemptId), unit := Some(c.unit),
                 claimExpires := Some(now + ttl.value), bootId := boot)])
            && out == if receiptBlocked then Raised(ReceiptBlocked) else Returned(()))
      && (out == Returned(()) <==> binds && !receiptBlocked)
  {
    hide ValidId;
  }

  // ---------------------------------------------------------------- release

  predicate Childless(l: Ledger, id: string) {
    forall k :: k in l.leases && l.leases[k].parent == id ==> l.leases[k].state in {Completed, Cancelled, Abandoned}
  }

  /** The ledger with this one lease ended. */
  function WithEnded(l: Ledger, id: string, to: LeaseState, at: real): Ledger
    requires id in l.leases
  {
    l.(leases := l.leases[id := l.leases[id].(state := to, reconciledAt := Some(at))])
  }

  /**
   An execution is released if and only if the call names the running lease by all three identities, on
   the boot both agree on, with nothing running below it, and one of two proofs: it never started and
   its claim has run out, which abandons it; or its unit ended and its group is empty, past the claim
   where that is asked for, which ends it as asked.
   */
  lemma ReleasesExecutionExactly(l: Ledger, id: string, c: Claim, seenBoot: string, boot: string, started: Seen,
                                 unitTerminal: Seen, cgroupEmpty: Seen, now: real, release: Ended, requireExpiry: bool)
    ensures var (after, out) := ReconcileExecution(l, id, c, seenBoot, boot, started, unitTerminal, cgroupEmpty, now,
                                                   release, requireExpiry);
      var named := Runs(l, id) && l.leases[id].reservationId == c.reservationId
        && l.leases[id].attemptId == Some(c.attemptId) && l.leases[id].unit == Some(c.unit)
        && seenBoot == boot == l.leases[id].bootId && Childless(l, id);
      var expired := id in l.leases && l.leases[id].claimExpires.Some? && l.leases[id].claimExpires.value <= now;
      var never := started == Some(false) && expired;
      var over := unitTerminal == Some(true) && cgroupEmpty == Some(true) && (!requireExpiry || expired);
      && (out.Returned? && out.value.Released? <==> named && (never || over))
      && (out.Returned? && out.value.Released? ==>
            var to := if never then Abandoned else release; out.value.state == to && after == WithEnded(l, id, to, now))
      && (!(out.Returned? && out.value.Released?) ==> after == l)
  {}

  /** A reservation is released if and only if it is named, unlaunched, childless, of this boot and proved absent. */
  lemma ReleasesReservationExactly(l: Ledger, id: string, reservationId: string, seenBoot: string, boot: string,
                                   absent: Seen, now: real, ttl: real, requireExpiry: bool, release: Ended)
    ensures var (after, out) := ReconcileReservation(l, id, reservationId, seenBoot, boot, absent, now, ttl,
                                                     requireExpiry, release);
      && (out.Returned? && out.value.Released? <==>
            && id in l.leases && l.leases[id].state == Reserved && l.leases[id].reservationId == reservationId
            && seenBoot == boot == l.leases[id].bootId && Childless(l, id) && absent == Some(true)
            && (!requireExpiry || l.leases[id].reservedAt + ttl <= now))
      && (out.Returned? && out.value.Released? ==>
            out.value.state == release && after == WithEnded(l, id, release, now))
      && (!(out.Returned? && out.value.Released?) ==> after == l)
  {}
}
