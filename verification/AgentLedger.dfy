/**
 The broker's durable ledger and the transitions its methods make on it
 (src/switchstand/agent_broker.py). A ledger is the content of `state.json`; each transition
 below is one critical section under `broker.lock`.
 */
module AgentLedger {
  import opened Prelude
  import opened Budgets

  const ROOT := "root"

  datatype LeaseState = Reserved | ExecutionActive | Completed | Cancelled | Abandoned {
    predicate Active() { Reserved? || ExecutionActive? }
  }

  datatype Lease = Lease(
    reservationId: string, requestId: string, parent: string, workerClass: WorkerClass,
    own: Budget, children: Budget, total: Budget, state: LeaseState, reservedAt: real, bootId: string,
    attemptId: Option<string>, unit: Option<string>, claimExpires: Option<real>, reconciledAt: Option<real>)

  /** The states a release may name. */
  type Ended = s: LeaseState | !s.Active() witness Completed

  type Leases = map<string, Lease>

  /** `children` only passed the per-field sign check; `Budget` itself may still reject it. */
  datatype Request = Request(id: string, parent: string, worker: string, workerClass: WorkerClass, children: Budget)

  datatype Reason =
    | SampleInvalid | SampleStale | SampleMissing | MemoryAvailable | HostPressure | LightOnly | ParentBudget

  datatype Reply =
    | Granted(parent: string, leaseId: string, reservationId: string)
    | Refused(parent: string, reason: Reason)

  datatype Error =
    | RequestCollision | InvalidBudget | WorkerExists | LeaseNotActive | UnsafeInbox
    | InvalidIdentifier | InvalidTtl | AlreadyClaimed | IdentityMismatch | ReceiptBlocked

  datatype Outcome<+T> = Returned(value: T) | Raised(error: Error)

  /** The cumulative swap counters kept from the previous host sample. */
  datatype Counters = Counters(pswpin: int, pswpout: int, sampledAt: real)

  datatype Ledger = Ledger(root: Budget, leases: Leases, requests: map<string, Reply>, sample: Option<Counters>)

  // ---------------------------------------------------------------- host pressure

  datatype Float = Finite(value: real) | NonFinite

  datatype Pressure = Pressure(
    total: int, available: int, swapTotal: int, swapUsed: int, psi: Float, activity: Option<int>,
    sampledAt: Option<Float>, window: Option<Float>, pswpin: Option<int>, pswpout: Option<int>)

  /** One reading of /proc: figures in MiB, the pressure average and the swap counters. */
  datatype Reading = Reading(total: int, available: int, swapTotal: int, swapUsed: int, psi: Float, counters: Counters)

  function WithActivity(r: Reading, previous: Option<Counters>): Pressure {
    var c := r.counters;
    var bare := Pressure(r.total, r.available, r.swapTotal, r.swapUsed, r.psi, None,
                         Some(Finite(c.sampledAt)), None, Some(c.pswpin), Some(c.pswpout));
    match previous
    case None => bare
    case Some(p) =>
      var elapsed := c.sampledAt - p.sampledAt;
      var activity := (c.pswpin - p.pswpin) + (c.pswpout - p.pswpout);
      if elapsed <= 0.0 || activity < 0 then bare
      else bare.(activity := Some(activity), window := Some(Finite(elapsed)))
  }

  function Max(a: int, b: int): int { if a < b then b else a }

  /** The share of the host that admission never hands out. */
  function Floor(p: Pressure): int { Max(2048, p.total / 5) }

  function Refusal(p: Pressure, c: WorkerClass, reserved: int, candidate: int, now: real): Option<Reason> {
    if p.total < 0 || p.available < 0 || p.swapTotal < 0 || p.swapUsed < 0 || reserved < 0 || candidate < 0
       || p.psi.NonFinite? || p.psi.value < 0.0 then Some(SampleInvalid)
    else if p.sampledAt.Some? && (p.sampledAt.value.NonFinite? || now < p.sampledAt.value.value)
    then Some(SampleInvalid)
    else if p.sampledAt.Some? && now - p.sampledAt.value.value > 5.0 then Some(SampleStale)
    else
      var legacy := p.activity.None? && p.pswpin.None? && p.pswpout.None?;
      var activity := if legacy && p.swapUsed == 0 then Some(0) else p.activity;
      if activity.None? then Some(if legacy then HostPressure else SampleMissing)
      else if activity.value < 0 then Some(SampleInvalid)
      else if p.window.Some? && (p.window.value.NonFinite? || p.window.value.value <= 0.0) then Some(SampleInvalid)
      else if p.window.Some? && p.window.value.value > 60.0 then Some(SampleStale)
      else if p.available < Floor(p) + reserved + candidate then Some(MemoryAvailable)
      else if activity.value != 0 || p.psi.value >= 5.0 then Some(HostPressure)
      else if !c.Light? && p.psi.value >= 2.0 then Some(LightOnly)
      else None
  }

  /** Everything one `reserve` call takes from outside the ledger. */
  datatype Env = Env(
    supplied: Option<Pressure>, reading: Option<Reading>, now: real, later: real,
    bootId: string, uuid: string, inboxSafe: bool)

  /** The sample admission judges: the injected one, else the current reading, else an invalid one. */
  function Observed(l: Ledger, env: Env): Pressure {
    if env.supplied.Some? then env.supplied.value
    else if env.reading.Some? then WithActivity(env.reading.value, l.sample)
    else Pressure(0, 0, 0, 0, NonFinite, None, None, None, None, None)
  }

  function NextSample(l: Ledger, env: Env): Option<Counters> {
    if env.supplied.None? && env.reading.Some? then Some(env.reading.value.counters) else l.sample
  }

  // ---------------------------------------------------------------- admission

  predicate ActiveChild(leases: Leases, k: string, parent: string) {
    k in leases && leases[k].state.Active() && leases[k].parent == parent
  }

  /** The totals charged to `parent` by its active direct children. */
  ghost function Charges(leases: Leases, parent: string): map<string, Budget> {
    map k | k in leases && ActiveChild(leases, k, parent) :: leases[k].total
  }

  ghost function Used(leases: Leases, parent: string): Budget { Sum(Charges(leases, parent)) }

  predicate IsActive(leases: Leases, k: string) { k in leases && leases[k].state.Active() }

  predicate HasActiveChild(leases: Leases, parent: string) {
    exists k :: k in leases && ActiveChild(leases, k, parent)
  }

  function NewLease(r: Request, env: Env): Lease {
    var own := ClassBudget(r.workerClass);
    Lease(env.uuid, r.id, r.parent, r.workerClass, own, r.children, own.Add(r.children), Reserved,
          env.later, env.bootId, None, None, None, None)
  }

  function Limit(l: Ledger, parent: string): Budget
    requires parent == ROOT || parent in l.leases
  {
    if parent == ROOT then l.root else l.leases[parent].children
  }

  /** `_reserve`: the lease to add, or the reason the delegating parent cannot cover it. */
  ghost function Admit(l: Ledger, r: Request, env: Env): Outcome<Option<Lease>> {
    if r.worker == ROOT || r.worker in l.leases then Raised(WorkerExists)
    else if !r.children.Valid() then Raised(InvalidBudget)
    else if r.parent != ROOT && !IsActive(l.leases, r.parent) then Raised(LeaseNotActive)
    else if !Used(l.leases, r.parent).Add(NewLease(r, env).total).Fits(Limit(l, r.parent)) then Returned(None)
    else if !env.inboxSafe then Raised(UnsafeInbox)
    else Returned(Some(NewLease(r, env)))
  }

  /** Only requests at the root are charged candidate memory; nested ones are already reserved. */
  function CandidateMemory(r: Request): int {
    if r.parent == ROOT then ClassBudget(r.workerClass).Add(r.children).memoryMax else 0
  }

  /** `Broker.reserve`. */
  ghost function Reserve(l: Ledger, r: Request, env: Env): (Ledger, Outcome<Reply>) {
    if r.id in l.requests then
      (l, if l.requests[r.id].parent != r.parent then Raised(RequestCollision) else Returned(l.requests[r.id]))
    else if r.parent == ROOT && !r.children.Valid() then (l, Raised(InvalidBudget))
    else
      var sampled := l.(sample := NextSample(l, env));
      var refusal := Refusal(Observed(l, env), r.workerClass, Used(l.leases, ROOT).memoryMax, CandidateMemory(r),
          env.now);
      if refusal.Some? then Record(sampled, r, Refused(r.parent, refusal.value))
      else
        match Admit(l, r, env)
        case Raised(e) => (l, Raised(e))
        case Returned(None) => Record(sampled, r, Refused(r.parent, ParentBudget))
        case Returned(Some(lease)) =>
          Record(sampled.(leases := l.leases[r.worker := lease]), r, Granted(r.parent, r.worker, lease.reservationId))
  }

  function Record(l: Ledger, r: Request, reply: Reply): (Ledger, Outcome<Reply>) {
    (l.(requests := l.requests[r.id := reply]), Returned(reply))
  }

  // ---------------------------------------------------------------- attachment and release

  predicate ValidId(s: string) {
    1 <= |s| <= 80 && Alphanumeric(s[0])
    && forall i :: 1 <= i < |s| ==> Alphanumeric(s[i]) || s[i] in ['_', '.', '-']
  }

  predicate Alphanumeric(c: char) { 'A' <= c <= 'Z' || 'a' <= c <= 'z' || '0' <= c <= '9' }

  /** Identities a caller presents; they must match what the ledger bound earlier. */
  datatype Claim = Claim(reservationId: string, attemptId: string, unit: string)

  predicate Agrees(named: Option<string>, expected: string) { named.None? || named.value == expected }

  /**
   `attach_execution`. The receipt file is created after the ledger is written, so a blocked
   receipt raises once the lease is already bound.
   */
  function Attach(l: Ledger, id: string, c: Claim, receiptAttempt: Option<string>, receiptUnit: Option<string>,
                  ttl: Float, now: real, boot: string, receiptBlocked: bool): (Ledger, Outcome<()>)
  {
    if !ValidId(c.attemptId) || !ValidId(c.unit) then (l, Raised(InvalidIdentifier))
    else if ttl.NonFinite? || ttl.value <= 0.0 then (l, Raised(InvalidTtl))
    else if !Agrees(receiptAttempt, c.attemptId) || !Agrees(receiptUnit, c.unit) then (l, Raised(IdentityMismatch))
    else if !IsActive(l.leases, id) then (l, Raised(LeaseNotActive))
    else if l.leases[id].state != Reserved then (l, Raised(AlreadyClaimed))
    else if l.leases[id].reservationId != c.reservationId then (l, Raised(IdentityMismatch))
    else
      var bound := l.leases[id].(state := ExecutionActive, attemptId := Some(c.attemptId), unit := Some(c.unit),
                                 claimExpires := Some(now + ttl.value), bootId := boot);
      (l.(leases := l.leases[id := bound]), if receiptBlocked then Raised(ReceiptBlocked) else Returned(()))
  }

  datatype Ambiguity = BootIdentity | RuntimeAmbiguous | LaunchAmbiguous | ExecutionAttached | ActiveChildren

  datatype Verdict = Released(state: Ended) | Unknown(why: Ambiguity)

  /** A tri-state observation: `None` is "could not tell". */
  type Seen = Option<bool>

  function Release(l: Ledger, id: string, to: Ended, at: real): (Ledger, Outcome<Verdict>)
    requires id in l.leases
  {
    if HasActiveChild(l.leases, id) then (l, Returned(Unknown(ActiveChildren)))
    else
      var done := l.leases[id].(state := to, reconciledAt := Some(at));
      (l.(leases := l.leases[id := done]), Returned(Released(to)))
  }

  predicate Expired(expires: Option<real>, now: real) { expires.Some? && expires.value <= now }

  /** `reconcile_execution`. */
  function ReconcileExecution(l: Ledger, id: string, c: Claim, seenBoot: string, boot: string, started: Seen,
                              unitTerminal: Seen, cgroupEmpty: Seen, now: real, release: Ended,
                              requireExpiry: bool): (Ledger, Outcome<Verdict>)
  {
    if !IsActive(l.leases, id) then (l, Raised(LeaseNotActive))
    else
      var lease := l.leases[id];
      if lease.reservationId != c.reservationId || lease.attemptId != Some(c.attemptId) || lease.unit != Some(c.unit)
      then (l, Raised(IdentityMismatch))
      else if seenBoot != lease.bootId || seenBoot != boot then (l, Returned(Unknown(BootIdentity)))
      else if started == Some(false) && Expired(lease.claimExpires, now) then Release(l, id, Abandoned, now)
      else if unitTerminal == Some(true) && cgroupEmpty == Some(true)
              && (!requireExpiry || Expired(lease.claimExpires, now)) then Release(l, id, release, now)
      else (l, Returned(Unknown(RuntimeAmbiguous)))
  }

  /** `reconcile_reservation`. */
  function ReconcileReservation(l: Ledger, id: string, reservationId: string, seenBoot: string, boot: string,
                                absent: Seen, now: real, ttl: real, requireExpiry: bool,
                                release: Ended): (Ledger, Outcome<Verdict>)
  {
    if !IsActive(l.leases, id) then (l, Raised(LeaseNotActive))
    else
      var lease := l.leases[id];
      if lease.reservationId != reservationId then (l, Raised(IdentityMismatch))
      else if lease.state != Reserved then (l, Returned(Unknown(ExecutionAttached)))
      else if seenBoot != lease.bootId || seenBoot != boot then (l, Returned(Unknown(BootIdentity)))
      else if absent != Some(true) || (requireExpiry && now < lease.reservedAt + ttl)
      then (l, Returned(Unknown(LaunchAmbiguous)))
      else Release(l, id, release, now)
  }
}
