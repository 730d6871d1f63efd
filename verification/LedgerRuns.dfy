/** Whole runs of the broker: what holds in every reachable ledger, and how ledgers evolve. */
module LedgerRuns {
  import opened Prelude
  import opened Budgets
  import opened AgentLedger
  import opened LedgerSafety

  /** One call of the broker with everything it took from outside the ledger. */
  datatype Action =
    | DoReserve(request: Request, env: Env)
    | DoAttach(id: string, claim: Claim, receiptAttempt: Option<string>, receiptUnit: Option<string>, ttl: Float,
               now: real, boot: string, receiptBlocked: bool)
    | DoReconcileExecution(id: string, claim: Claim, seenBoot: string, boot: string, started: Seen,
                           unitTerminal: Seen, cgroupEmpty: Seen, now: real, release: Ended, requireExpiry: bool)
    | DoReconcileReservation(id: string, reservationId: string, seenBoot: string, boot: string, absent: Seen,
                             now: real, lifetime: real, requireExpiry: bool, release: Ended)

  ghost function Step(l: Ledger, a: Action): Ledger {
    match a
    case DoReserve(r, env) => Reserve(l, r, env).0
    case DoAttach(id, c, ra, ru, ttl, now, boot, blocked) => Attach(l, id, c, ra, ru, ttl, now, boot, blocked).0
    case DoReconcileExecution(id, c, seen, boot, s, u, g, now, to, exp) =>
      ReconcileExecution(l, id, c, seen, boot, s, u, g, now, to, exp).0
    case DoReconcileReservation(id, res, seen, boot, absent, now, life, exp, to) =>
      ReconcileReservation(l, id, res, seen, boot, absent, now, life, exp, to).0
  }

  ghost function Run(l: Ledger, actions: seq<Action>): Ledger
    decreases |actions|
  {
    if actions == [] then l else Run(Step(l, actions[0]), actions[1..])
  }

  // ---------------------------------------------------------------- bookkeeping

  /** Grants and leases are in one-to-one correspondence. */
  ghost predicate Booked(l: Ledger) {
    && (forall k :: k in l.leases ==>
          var r := l.leases[k].requestId;
          r in l.requests && l.requests[r] == Granted(l.leases[k].parent, k, l.leases[k].reservationId))
    && (forall r :: r in l.requests && l.requests[r].Granted? ==>
          l.requests[r].leaseId in l.leases && l.leases[l.requests[r].leaseId].requestId == r)
  }

  // ---------------------------------------------------------------- one step

  /** The only ways a lease may change state. */
  predicate Later(was: LeaseState, now: LeaseState) {
    was == now || was.Reserved? || (was.ExecutionActive? && !now.Active())
  }

  /** `now` is a later stage of the same lease; bound identities are never rebound. */
  predicate Ages(was: Lease, now: Lease) {
    && Later(was.state, now.state)
    && now == was.(state := now.state, attemptId := now.attemptId, unit := now.unit, bootId := now.bootId,
                   claimExpires := now.claimExpires, reconciledAt := now.reconciledAt)
    && (!was.state.Reserved? ==>
          now.attemptId == was.attemptId && now.unit == was.unit && now.bootId == was.bootId
          && now.claimExpires == was.claimExpires)
    && (!was.state.Active() ==> now == was)
  }

  /** Leases and replies are never dropped, reused or contradicted. */
  ghost predicate Evolves(was: Ledger, now: Ledger) {
    && now.root == was.root
    && (forall k :: k in was.leases ==> k in now.leases && Ages(was.leases[k], now.leases[k]))
    && (forall r :: r in was.requests ==> r in now.requests && now.requests[r] == was.requests[r])
  }

  /** Everything but `reserve` leaves the ledger alone or restates one lease. */
  lemma StepRestates(l: Ledger, a: Action) returns (id: string, lease: Lease)
    requires Inv(l) && !a.DoReserve? && Step(l, a) != l
    ensures Restates(l.leases, id, lease) && Ages(l.leases[id], lease)
    ensures Step(l, a) == l.(leases := l.leases[id := lease])
  {
    hide Covered, Shaped, HasActiveChild;
    id := a.id;
    lease := Step(l, a).leases[id];
  }

  lemma StepKeeps(l: Ledger, a: Action)
    requires Inv(l) && Booked(l)
    ensures Inv(Step(l, a)) && Booked(Step(l, a)) && Evolves(l, Step(l, a))
  {
    hide Used, Covered, Shaped, Refusal, Observed, ActiveChild, Fresh;
    if a.DoReserve? {
      ReservePreserves(l, a.request, a.env);
      ReserveEvolves(l, a.request, a.env);
    } else if Step(l, a) != l {
      var id, lease := StepRestates(l, a);
      RestatePreserves(l, id, lease);
    }
  }

  lemma ReserveEvolves(l: Ledger, r: Request, env: Env)
    requires Inv(l) && Booked(l)
    ensures Booked(Reserve(l, r, env).0) && Evolves(l, Reserve(l, r, env).0)
  {
    hide Used, Covered, Shaped, Refusal, Observed, Limit;
    var (after, out) := Reserve(l, r, env);
    if r.id !in l.requests && out.Returned? && out.value.Granted? {
      GrantFacts(l, r, env);
    }
  }

  lemma EvolvesTransitive(a: Ledger, b: Ledger, c: Ledger)
    requires Evolves(a, b) && Evolves(b, c)
    ensures Evolves(a, c)
  {
    forall k | k in a.leases
      ensures k in c.leases && Ages(a.leases[k], c.leases[k])
    {
      assert Ages(a.leases[k], b.leases[k]) && Ages(b.leases[k], c.leases[k]);
    }
  }

  // ---------------------------------------------------------------- whole runs

  lemma {:induction false} RunKeeps(l: Ledger, actions: seq<Action>)
    requires Inv(l) && Booked(l)
    ensures Inv(Run(l, actions)) && Booked(Run(l, actions)) && Evolves(l, Run(l, actions))
    decreases |actions|
  {
    hide Inv, Booked, Step;
    if actions == [] {
    } else {
      StepKeeps(l, actions[0]);
      RunKeeps(Step(l, actions[0]), actions[1..]);
      EvolvesTransitive(l, Step(l, actions[0]), Run(l, actions));
    }
  }

  /**
   The main theorem. However a run interleaves requests, attachments and releases, in the ledger it
   reaches everything running fits the host budget, every subtree fits what was delegated to it, and
   the counted limits on active and heavy leases hold.
   */
  lemma ReachableLedgersFit(root: Budget, actions: seq<Action>)
    requires root.Valid()
    ensures var l := Run(Empty(root), actions);
      && l.root == root
      && Sum(Owns(l.leases, ActiveSet(l.leases))).Fits(root)
      && (forall p :: IsActive(l.leases, p) ==> Sum(Owns(l.leases, Subtree(l.leases, p))).Fits(l.leases[p].children))
      && |ActiveSet(l.leases)| <= root.workers
      && |set k | k in ActiveSet(l.leases) && l.leases[k].workerClass.Heavy?| <= root.heavy
  {
    EmptyInv(root);
    RunKeeps(Empty(root), actions);
    var l := Run(Empty(root), actions);
    hide Sum, Subtree, Shaped, Covered, Run;
    HostFits(l);
    WorkerCounts(l);
    forall p | IsActive(l.leases, p)
      ensures Sum(Owns(l.leases, Subtree(l.leases, p))).Fits(l.leases[p].children)
    {
      SubtreeFits(l, p);
    }
  }

  /** In every reachable ledger an admission leaves room for all that runs plus the host floor. */
  lemma ReachableAdmissionsLeaveRoom(root: Budget, actions: seq<Action>, r: Request, env: Env)
    requires root.Valid() && r.id !in Run(Empty(root), actions).requests
    requires var l := Run(Empty(root), actions); Reserve(l, r, env).1.Returned? && Reserve(l, r, env).1.value.Granted?
    ensures var l := Run(Empty(root), actions);
      var after, p := Reserve(l, r, env).0.leases, Observed(l, env);
      Sum(Owns(after, ActiveSet(after))).memoryMax + Floor(p) <= p.available
  {
    EmptyInv(root);
    RunKeeps(Empty(root), actions);
    hide *;
    AdmissionMemory(Run(Empty(root), actions), r, env);
  }

  /** A recorded request answers the same for ever, whatever the pressure, and changes nothing. */
  lemma ReplayIsStable(l: Ledger, actions: seq<Action>, r: Request, env: Env)
    requires Inv(l) && Booked(l)
    requires r.id in l.requests && l.requests[r.id].parent == r.parent
    ensures Reserve(Run(l, actions), r, env) == (Run(l, actions), Returned(l.requests[r.id]))
  {
    hide Inv, Booked, Step, Admit;
    RunKeeps(l, actions);
  }

  /** Whether the answer of a call tells its caller that nothing happened. */
  ghost predicate SaysNothingHappened(l: Ledger, a: Action) {
    match a
    case DoReserve(r, env) => Reserve(l, r, env).1.Raised?
    case DoAttach(id, c, ra, ru, ttl, now, boot, blocked) =>
      var out := Attach(l, id, c, ra, ru, ttl, now, boot, blocked).1;
      out.Raised? && out.error != ReceiptBlocked
    case DoReconcileExecution(id, c, seen, boot, s, u, g, now, to, exp) =>
      var out := ReconcileExecution(l, id, c, seen, boot, s, u, g, now, to, exp).1;
      out.Raised? || out.value.Unknown?
    case DoReconcileReservation(id, res, seen, boot, absent, now, life, exp, to) =>
      var out := ReconcileReservation(l, id, res, seen, boot, absent, now, life, exp, to).1;
      out.Raised? || out.value.Unknown?
  }

  /**
   Answers about effects are exact: a call that raises or cannot tell has left the ledger alone, and
   an attachment or release that left it alone says so.
   */
  lemma AnswersAreExact(l: Ledger, a: Action)
    ensures SaysNothingHappened(l, a) ==> Step(l, a) == l
    ensures !a.DoReserve? && Step(l, a) == l ==> SaysNothingHappened(l, a)
  {
    hide Refusal, Observed, HasActiveChild, Used;
    if !a.DoReserve? && !SaysNothingHappened(l, a) {
      assert Step(l, a).leases[a.id].state != l.leases[a.id].state;
    }
  }
}
