/** The broker object: `Broker` over its state file (src/switchstand/agent_broker.py:245-595). */
module BrokerService {
  import opened Prelude
  import opened Budgets
  import opened AgentLedger
  import opened LedgerSafety
  import opened LedgerRuns

  /** The charges to `parent` among the leases a loop has already visited. */
  ghost function ChargesAmong(leases: Leases, seen: set<string>, parent: string): map<string, Budget>
    requires seen <= leases.Keys
  {
    map k | k in seen && ActiveChild(leases, k, parent) :: leases[k].total
  }

  class Broker {
    var state: Ledger
    var bootId: string

    /** Everything a broker may assume about the file it reads back. */
    ghost predicate Valid()
      reads this
    {
      Inv(state) && Booked(state)
    }

    constructor Initialize(budget: Budget, boot: string)
      requires budget.Valid()
      ensures Valid() && state == Empty(budget) && bootId == boot
    {
      state := Empty(budget);
      bootId := boot;
      new;
      EmptyInv(budget);
    }

    /** Adds up what the active children of `parent` were charged. */
    method SumCharges(parent: string) returns (used: Budget)
      ensures used == Used(state.leases, parent)
    {
      var leases := state.leases;
      var todo := leases.Keys;
      used := ZERO;
      ghost var seen: set<string> := {};
      assert ChargesAmong(leases, seen, parent) == map[];
      while todo != {}
        invariant seen + todo == leases.Keys && seen !! todo
        invariant used == Sum(ChargesAmong(leases, seen, parent))
        decreases todo
      {
        var k :| k in todo;
        if ActiveChild(leases, k, parent) {
          used := used.Add(leases[k].total);
          SumInsert(ChargesAmong(leases, seen, parent), k, leases[k].total);
          assert ChargesAmong(leases, seen + {k}, parent) == ChargesAmong(leases, seen, parent)[k := leases[k].total];
        } else {
          assert ChargesAmong(leases, seen + {k}, parent) == ChargesAmong(leases, seen, parent);
        }
        todo, seen := todo - {k}, seen + {k};
      }
      assert Charges(leases, parent) == ChargesAmong(leases, seen, parent);
    }

    method Reserve(r: Request, env: Env) returns (out: Outcome<Reply>)
      requires Valid() && env.bootId == bootId
      modifies this
      ensures Valid() && Evolves(old(state), state) && bootId == old(bootId)
      ensures (state, out) == AgentLedger.Reserve(old(state), r, env)
    {
      StepKeeps(state, DoReserve(r, env));
      if r.id in state.requests {
        var prior := state.requests[r.id];
        return if prior.parent != r.parent then Raised(RequestCollision) else Returned(prior);
      }
      var sample := Observed(state, env);
      var reserved := SumCharges(ROOT);
      var candidate := 0;
      if r.parent == ROOT {
        if !r.children.Valid() { return Raised(InvalidBudget); }
        candidate := ClassBudget(r.workerClass).Add(r.children).memoryMax;
      }
      var refusal := Refusal(sample, r.workerClass, reserved.memoryMax, candidate, env.now);
      var reply: Reply;
      var leases := state.leases;
      if refusal.Some? {
        reply := Refused(r.parent, refusal.value);
      } else {
        if r.worker == ROOT || r.worker in leases { return Raised(WorkerExists); }
        if !r.children.Valid() { return Raised(InvalidBudget); }
        if r.parent != ROOT && !IsActive(leases, r.parent) { return Raised(LeaseNotActive); }
        var used := SumCharges(r.parent);
        var lease := NewLease(r, env);
        if !used.Add(lease.total).Fits(Limit(state, r.parent)) {
          reply := Refused(r.parent, ParentBudget);
        } else {
          if !env.inboxSafe { return Raised(UnsafeInbox); }
          leases := leases[r.worker := lease];
          reply := Granted(r.parent, r.worker, lease.reservationId);
        }
      }
      state := state.(leases := leases, requests := state.requests[r.id := reply], sample := NextSample(state, env));
      return Returned(reply);
    }

    method AttachExecution(id: string, c: Claim, receiptAttempt: Option<string>, receiptUnit: Option<string>,
                           ttl: Float, now: real, receiptBlocked: bool) returns (out: Outcome<()>)
      requires Valid()
      modifies this
      ensures Valid() && Evolves(old(state), state) && bootId == old(bootId)
      ensures (state, out) ==
              Attach(old(state), id, c, receiptAttempt, receiptUnit, ttl, now, old(bootId), receiptBlocked)
    {
      StepKeeps(state, DoAttach(id, c, receiptAttempt, receiptUnit, ttl, now, bootId, receiptBlocked));
      if !ValidId(c.attemptId) || !ValidId(c.unit) { return Raised(InvalidIdentifier); }
      if ttl.NonFinite? || ttl.value <= 0.0 { return Raised(InvalidTtl); }
      if !Agrees(receiptAttempt, c.attemptId) || !Agrees(receiptUnit, c.unit) { return Raised(IdentityMismatch); }
      if !IsActive(state.leases, id) { return Raised(LeaseNotActive); }
      var lease := state.leases[id];
      if lease.state != Reserved { return Raised(AlreadyClaimed); }
      if lease.reservationId != c.reservationId { return Raised(IdentityMismatch); }
      lease := lease.(state := ExecutionActive, attemptId := Some(c.attemptId), unit := Some(c.unit),
                      claimExpires := Some(now + ttl.value), bootId := bootId);
      state := state.(leases := state.leases[id := lease]);
      return if receiptBlocked then Raised(ReceiptBlocked) else Returned(());
    }

    method ReconcileExecution(id: string, c: Claim, seenBoot: string, started: Seen, unitTerminal: Seen,
                              cgroupEmpty: Seen, now: real, release: Ended, requireExpiry: bool)
      returns (out: Outcome<Verdict>)
      requires Valid()
      modifies this
      ensures Valid() && Evolves(old(state), state) && bootId == old(bootId)
      ensures (state, out) == AgentLedger.ReconcileExecution(old(state), id, c, seenBoot, old(bootId), started,
                                                        unitTerminal, cgroupEmpty, now, release, requireExpiry)
    {
      StepKeeps(state, DoReconcileExecution(id, c, seenBoot, bootId, started, unitTerminal, cgroupEmpty, now,
                                            release, requireExpiry));
      if !IsActive(state.leases, id) { return Raised(LeaseNotActive); }
      var lease := state.leases[id];
      if lease.reservationId != c.reservationId || lease.attemptId != Some(c.attemptId) || lease.unit != Some(c.unit) {
        return Raised(IdentityMismatch);
      }
      if seenBoot != lease.bootId || seenBoot != bootId { return Returned(Unknown(BootIdentity)); }
      var resolved: Option<Ended> := None;
      if started == Some(false) && Expired(lease.claimExpires, now) { resolved := Some(Abandoned); }
      if resolved.None? && unitTerminal == Some(true) && cgroupEmpty == Some(true)
         && (!requireExpiry || Expired(lease.claimExpires, now)) {
        resolved := Some(release);
      }
      if resolved.None? { return Returned(Unknown(RuntimeAmbiguous)); }
      out := End(id, resolved.value, now);
    }

    method ReconcileReservation(id: string, reservationId: string, seenBoot: string, absent: Seen, now: real,
                                lifetime: real, requireExpiry: bool, release: Ended)
      returns (out: Outcome<Verdict>)
      requires Valid()
      modifies this
      ensures Valid() && Evolves(old(state), state) && bootId == old(bootId)
      ensures (state, out) == AgentLedger.ReconcileReservation(old(state), id, reservationId, seenBoot, old(bootId),
                                                          absent, now, lifetime, requireExpiry, release)
    {
      StepKeeps(state, DoReconcileReservation(id, reservationId, seenBoot, bootId, absent, now, lifetime,
                                              requireExpiry, release));
      if !IsActive(state.leases, id) { return Raised(LeaseNotActive); }
      var lease := state.leases[id];
      if lease.reservationId != reservationId { return Raised(IdentityMismatch); }
      if lease.state != Reserved { return Returned(Unknown(ExecutionAttached)); }
      if seenBoot != lease.bootId || seenBoot != bootId { return Returned(Unknown(BootIdentity)); }
      if absent != Some(true) || (requireExpiry && now < lease.reservedAt + lifetime) {
        return Returned(Unknown(LaunchAmbiguous));
      }
      out := End(id, release, now);
    }

    /** The common tail of both releases: refused while anything active hangs below. */
    method End(id: string, to: Ended, now: real) returns (out: Outcome<Verdict>)
      requires id in state.leases
      modifies this`state
      ensures (state, out) == Release(old(state), id, to, now)
    {
      if HasActiveChild(state.leases, id) { return Returned(Unknown(ActiveChildren)); }
      state := state.(leases := state.leases[id := state.leases[id].(state := to, reconciledAt := Some(now))]);
      return Returned(Released(to));
    }
  }
}
