/**
 The host one maintenance attempt works on, and the `Operations` it offers
 (src/switchstand/edge_maintenance.py:117-140, 551-1198). Each operation is one step whose fate the
 environment decides: it may succeed, raise, or crash the process, and an operation that does not
 return may still have taken effect.
 */
module EdgeHost {
  import opened Prelude

  /** A hex digest or image identity that already passed its format check. */
  type Digest = nat

  datatype Build = Current | Candidate | Foreign
  datatype Gate = Absent | Applied
  datatype Service = Down | Up(build: Build)
  /** The shared database: the one revision the no-effect proof accepts, another source, the target. */
  datatype Revision = Checkpoints | OtherSource | Target

  datatype Host = Host(
    gate: Gate, service: Service, launcher: Build, backup: Option<Build>, snapshot: Option<Digest>,
    database: Revision, upgrades: nat)

  datatype Phase =
    | Preflight | Prepared | Gated | Stopped | UpgradePending | Upgraded | Snapshotted | Swapped | Started
    | Ungated | Complete | RolledBack | NoEffectProven

  datatype Status = Running | Unsettled | Pass | Fail

  /** The receipt's `state_upgrade`. */
  datatype Mark = NotStarted | Pending | NoEffect | Applied_

  datatype Trouble =
    | AmbiguousOutcome | DefiniteFailure | GateRetentionUnknown | GateAbortUnknown | RollbackUnknown
    | PublicGateUnproven | UpgradeProvenNotApplied

  /** `receipt.json`, without the fields every receipt of an attempt shares. */
  datatype Record = Record(
    phase: Phase, status: Status, mark: Mark, image: Option<Digest>, snapshot: Option<Digest>,
    probe: Option<Digest>, error: Option<Trouble>)

  const FRESH := Record(Preflight, Running, NotStarted, None, None, None, None)

  // ---------------------------------------------------------------- steps and their fate

  datatype Kind = Fine | Failing | Unsure | Crash
  datatype Landing = Nothing | Partly | Fully

  /** `blind` makes a probe miss what is there; `digest` is what a measuring step reads. */
  datatype Fate = Fate(kind: Kind, landing: Landing, blind: bool, digest: Digest)

  /** What every step meets once the script has run out. */
  const CALM := Fate(Fine, Nothing, false, 0)

  /** The world while an attempt runs: host, durable receipt, and the variables of `deploy`. */
  datatype World = World(
    host: Host, stored: Option<Record>, value: Record, phase: Phase, attempted: bool, retained: bool,
    torn: bool, script: seq<Fate>)

  datatype Res<+T> = Ok(w: World, value: T) | Failed(w: World) | Unknown(w: World) | Crashed(w: World) {
    predicate IsFailure() { !Ok? }
    function PropagateFailure<U>(): Res<U>
      requires !Ok?
    {
      match this case Failed(w) => Failed(w) case Unknown(w) => Unknown(w) case Crashed(w) => Crashed(w)
    }
    function Extract(): (World, T)
      requires Ok?
    { (w, value) }
  }

  function Next(w: World): (World, Fate) {
    if w.script == [] then (w, CALM) else (w.(script := w.script[1..]), w.script[0])
  }

  /** How a step that did not return normally leaves its caller. */
  function Broken<T>(w: World, kind: Kind): Res<T>
    requires !kind.Fine?
  {
    match kind case Failing => Failed(w) case Unsure => Unknown(w) case Crash => Crashed(w)
  }

  /** A step that changes the host to `full`, passing through `partial`. */
  function Act(w: World, partial: Host, full: Host): Res<()> {
    var (w, f) := Next(w);
    if f.kind.Fine? then Ok(w.(host := full), ())
    else Broken(w.(host := match f.landing case Nothing => w.host case Partly => partial case Fully => full), f.kind)
  }

  /** A probe: what it reports is really there, but it may miss it. */
  function Look(w: World, truth: bool): Res<bool> {
    var (w, f) := Next(w);
    if f.kind.Fine? then Ok(w, truth && !f.blind) else Broken(w, f.kind)
  }

  /** A probe that cannot miss. */
  function Read(w: World, truth: bool): Res<bool> {
    var (w, f) := Next(w);
    if f.kind.Fine? then Ok(w, truth) else Broken(w, f.kind)
  }

  /** Nothing but the script moved. */
  predicate Still(w: World, v: World) { v == w.(script := v.script) }

  /** Nothing but the script and the host moved. */
  predicate Framed(w: World, v: World) { v == w.(script := v.script, host := v.host) }

  lemma LookStill(w: World, truth: bool)
    ensures Still(w, Look(w, truth).w) && (Look(w, truth).Ok? && Look(w, truth).value ==> truth)
  {}

  lemma ReadStill(w: World, truth: bool)
    ensures Still(w, Read(w, truth).w) && (Read(w, truth).Ok? ==> Read(w, truth).value == truth)
  {}

  lemma ActFrames(w: World, partial: Host, full: Host)
    ensures Framed(w, Act(w, partial, full).w) && Act(w, partial, full).w.host in {w.host, partial, full}
    ensures Act(w, partial, full).Ok? ==> Act(w, partial, full).w.host == full
  {}

  // ---------------------------------------------------------------- operations

  predicate PreflightOk(h: Host) {
    h.launcher == Current && h.backup.None? && h.snapshot.None? && h.gate == Absent && h.service.Up?
  }

  predicate CandidateServes(h: Host) { h.service == Up(Candidate) && h.launcher == Candidate }
  predicate CurrentServes(h: Host) { h.service == Up(Current) && h.launcher == Current }
  predicate CurrentIsPublic(h: Host) { h.gate == Absent && h.service == Up(Current) }

  predicate IsPublic(h: Host) {
    h.gate == Absent && h.service == Up(if h.launcher == Candidate then Candidate else Current)
  }

  function GateOp(w: World): Res<()> { Act(w, w.host, w.host.(gate := Applied)) }
  function UngateOp(w: World): Res<()> { Act(w, w.host, w.host.(gate := Absent)) }
  function StopOp(w: World): Res<()> { Act(w, w.host, w.host.(service := Down)) }

  function StartOp(w: World): Res<()> {
    Act(w, w.host, w.host.(service := if w.host.service.Up? then w.host.service else Up(w.host.launcher)))
  }

  /** Copies the launcher aside, then replaces it; a break between the copies leaves only the first. */
  function SwapOp(w: World): Res<()> {
    var copied := w.host.(backup := Some(w.host.launcher));
    Act(w, copied, copied.(launcher := Candidate))
  }

  function RestoreOp(w: World): Res<()> {
    if w.host.launcher == Current then Act(w, w.host, w.host)
    else if w.host.backup.None? then var (w, f) := Next(w); Failed(w)
    else Act(w, w.host, w.host.(launcher := w.host.backup.value))
  }

  function PreflightOp(w: World): Res<()> {
    var (w, f) := Next(w);
    if !f.kind.Fine? then Broken(w, f.kind) else if PreflightOk(w.host) && !f.blind then Ok(w, ()) else Failed(w)
  }

  /** Rehearses the migration; refuses unless the edge is up. */
  function PrepareOp(w: World): Res<Digest> {
    var (w, f) := Next(w);
    if !f.kind.Fine? then Broken(w, f.kind) else if w.host.service.Up? then Ok(w, f.digest) else Unknown(w)
  }

  /** Runs the migration, refused unless stopped and gated. Only a clean report tells its effect. */
  function UpgradeOp(w: World): Res<Mark> {
    var (w, f) := Next(w);
    var invoked := w.host.(upgrades := w.host.upgrades + 1);
    if w.host.service != Down || w.host.gate != Applied then Unknown(w)
    else if f.kind.Fine? then
      Ok(w.(host := invoked.(database := Target)), if w.host.database == Target then NoEffect else Applied_)
    else
      Broken(w.(host := match f.landing
                        case Nothing => w.host
                        case Partly => invoked
                        case Fully => invoked.(database := Target)), f.kind)
  }

  function SnapshotOp(w: World): Res<()> {
    var (w, f) := Next(w);
    var taken := w.host.(snapshot := Some(f.digest));
    if f.kind.Fine? then Ok(w.(host := taken), ())
    else Broken(if f.landing == Nothing then w else w.(host := taken), f.kind)
  }

  function SnapshotDigestOp(w: World): Res<Digest> {
    var (w, f) := Next(w);
    if !f.kind.Fine? then Broken(w, f.kind)
    else if w.host.snapshot.Some? then Ok(w, w.host.snapshot.value) else Unknown(w)
  }

  function SemanticOp(w: World): Res<Digest> {
    var (w, f) := Next(w);
    if f.kind.Fine? then Ok(w, f.digest) else Broken(w, f.kind)
  }

  function GateExact(w: World): Res<bool> { Read(w, w.host.gate == Applied) }
  function PublicGated(w: World): Res<bool> { Look(w, w.host.gate == Applied) }
  function LocalReady(w: World): Res<bool> { Look(w, CandidateServes(w.host)) }
  function RollbackReady(w: World): Res<bool> { Look(w, CurrentServes(w.host)) }
  function CurrentPublicReady(w: World): Res<bool> { Look(w, CurrentIsPublic(w.host)) }
  function PublicReady(w: World): Res<bool> { Look(w, IsPublic(w.host)) }
  function RollbackComplete(w: World): Res<bool> { Look(w, CurrentServes(w.host) && w.host.gate == Absent) }

  // ---------------------------------------------------------------- reconciliation

  /** What a resumed attempt learns: the phase proven on the host, a snapshot proof, a retained gate. */
  datatype Observation = Observation(phase: Phase, snapshot: Option<Digest>, retained: bool)

  function Same(p: Phase): Option<Observation> { Some(Observation(p, None, false)) }

  /** `reconcile_phase`: the durable phase or its one proven successor; `None` is ambiguous. */
  function Classify(h: Host, phase: Phase, snapshot: Option<Digest>): Option<Observation> {
    var untouched := h.launcher == Current && h.backup.None?;
    var swapped := h.launcher == Candidate && h.backup == Some(Current);
    match phase
    case Preflight =>
      if !untouched || h.snapshot.Some? || !h.service.Up? then None
      else if h.gate == Absent then Same(phase) else Same(Gated)
    case Prepared =>
      if !untouched || h.snapshot.Some? || !h.service.Up? then None
      else if h.gate == Absent then Same(phase) else Same(Gated)
    case Gated =>
      if !untouched || h.gate != Applied then None else if h.service.Up? then Same(phase) else Same(Stopped)
    case Stopped =>
      if !untouched || h.gate != Applied || h.service != Down || h.snapshot.Some? then None else Same(phase)
    case Upgraded =>
      if h.gate != Applied || h.service != Down then None
      else if h.snapshot.None? then Same(phase) else Some(Observation(Snapshotted, h.snapshot, false))
    case Snapshotted =>
      if h.gate != Applied || h.service != Down || snapshot.None? || snapshot != h.snapshot then None
      else if swapped then Same(Swapped) else if untouched then Same(phase) else None
    case Swapped =>
      if h.gate != Applied || snapshot.None? || snapshot != h.snapshot || !swapped then None
      else if h.service == Down then Same(phase) else if CandidateServes(h) then Same(Started) else None
    case Started =>
      if snapshot.None? || snapshot != h.snapshot || !swapped || !CandidateServes(h) then None
      else if h.gate == Absent then Same(Ungated) else Same(phase)
    case Ungated =>
      if snapshot.None? || snapshot != h.snapshot || !swapped || !CandidateServes(h) then None
      else Some(Observation(phase, None, h.gate == Applied))
    case Complete =>
      if snapshot.None? || snapshot != h.snapshot || !swapped || !CandidateServes(h) || h.gate != Absent then None
      else Same(phase)
    case _ => None
  }

  function ReconcileOp(w: World, phase: Phase, snapshot: Option<Digest>): Res<Observation> {
    var (w, f) := Next(w);
    if !f.kind.Fine? then Broken(w, f.kind)
    else
      var seen := Classify(w.host, phase, snapshot);
      if f.blind || seen.None? then Unknown(w) else Ok(w, seen.value)
  }

  /** `prove_upgrade_no_effect`. */
  predicate NoEffectProvable(h: Host) {
    h.launcher == Current && h.backup.None? && h.snapshot.None? && h.gate == Absent && h.service == Up(Current)
    && h.database == Checkpoints
  }
}
