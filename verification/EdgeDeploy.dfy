/**
 One maintenance transaction as a function of the host, the durable receipt and the fates of its
 steps (src/switchstand/edge_maintenance.py:1245-1554).
 */
module EdgeDeploy {
  import opened Prelude
  import opened EdgeHost

  // ---------------------------------------------------------------- the receipt

  /** Whether the proofs a record carries suit `p`. */
  predicate Suits(p: Phase, v: Record) {
    && (p !in {Preflight, Gated, RolledBack, NoEffectProven} ==> v.image.Some?)
    && (match p
        case Preflight => v.mark == NotStarted
        case Prepared => v.mark == NotStarted
        case Gated => v.mark == NotStarted
        case Stopped => v.mark == NotStarted
        case NoEffectProven => v.mark == NotStarted
        case RolledBack => v.mark != Pending
        case UpgradePending => v.mark == Pending
        case _ => v.mark in {NoEffect, Applied_})
    && (p in {Snapshotted, Swapped, Started, Ungated, Complete} ==> v.snapshot.Some?)
  }

  /** What `Receipt.__init__` accepts of a readable receipt of this attempt. */
  predicate Accepted(v: Record) {
    && (v.status == Pass <==> v.phase == Complete)
    && (v.status == Fail <==> v.phase in {RolledBack, NoEffectProven})
    && Suits(v.phase, v)
  }

  predicate Terminal(stored: Option<Record>) { stored.Some? && stored.value.status in {Pass, Fail} }

  /** `Receipt.write`: the in-memory value changes first, the file is then replaced atomically. */
  function Write(w: World, phase: Phase, status: Status, error: Option<Trouble>): Res<()> {
    var v := w.value.(phase := phase, status := status, error := error);
    var (w, f) := Next(w.(value := v));
    if f.kind.Fine? then Ok(w.(stored := Some(v)), ())
    else if f.landing == Nothing then Broken(w, f.kind)
    else Broken(w.(stored := Some(v), torn := w.torn || (status in {Pass, Fail} && f.kind != Crash)), f.kind)
  }

  /** Advance to `phase` and record it. */
  function Reach(w: World, phase: Phase): Res<()> { Write(w.(phase := phase), phase, Running, None) }

  // ---------------------------------------------------------------- the gate

  /** Whatever goes wrong, short of a crash, is reported as an unknown retention. */
  function RetainGate(w: World): Res<()> {
    var r := RetainTry(w);
    if r.Failed? then Unknown(r.w) else r
  }

  function RetainTry(w: World): Res<()> {
    var (w, exact) :- GateExact(w);
    var (w, _) :- if exact then Ok(w, ()) else GateOp(w);
    var (w, exact) :- GateExact(w);
    if !exact then Unknown(w)
    else
      var (w, seen) :- PublicGated(w);
      if seen then Ok(w, ()) else Unknown(w)
  }

  /** `abort_unproved_gate`: give the old route back, before the service was ever stopped. */
  function Abort(w: World): Res<Status> {
    var tried := AbortTry(w);
    if tried.Crashed? then Crashed(tried.w)
    else if !tried.Ok? then
      var (w, _) :- Write(tried.w, Gated, Unsettled, Some(GateAbortUnknown));
      Ok(w, Unsettled)
    else
      var seen := PublicReady(tried.w);
      if seen.Crashed? then Crashed(seen.w)
      else
        var (w, _) :- Write(seen.w, RolledBack, Fail, Some(PublicGateUnproven));
        Ok(w, Fail)
  }

  function AbortTry(w: World): Res<()> {
    if w.value.mark != NotStarted then Unknown(w)
    else
      var (w, ready) :- RollbackReady(w);
      if !ready then Unknown(w)
      else
        var (w, _) :- UngateOp(w);
        var (w, exact) :- GateExact(w);
        if exact then Unknown(w) else Ok(w, ())
  }

  // ---------------------------------------------------------------- the body of `deploy`

  /** Take over what reconciliation proved; a PREPARED attempt moves on only after rehearsing again. */
  function Adopt(w: World, seen: Observation): Res<Phase> {
    var v := w.(retained := seen.retained,
                value := if seen.snapshot.Some? then w.value.(snapshot := seen.snapshot) else w.value);
    var (w, _) :- if (seen.phase == w.phase && seen.snapshot.None?) || w.phase == Prepared then Ok(v, ())
                  else Reach(v, seen.phase);
    Ok(w.(attempted := seen.phase !in {Preflight, Prepared}), seen.phase)
  }

  /** Reconcile a resumed attempt, or open a fresh one. The result is the phase the host proves. */
  function Begin(w: World, existing: bool): Res<Phase> {
    if existing then BeginResumed(w) else BeginFresh(w)
  }

  function BeginResumed(w: World): Res<Phase> {
    var (w, seen) :- ReconcileOp(w, w.phase, w.value.snapshot);
    Adopt(w, seen)
  }

  function BeginFresh(w: World): Res<Phase> {
    var (w, _) :- Reach(w, w.phase);
    var (w, _) :- PreflightOp(w);
    Ok(w, w.phase)
  }

  /** A resumed PREPARED attempt rehearses the migration again before it moves on. */
  function Reprepare(w: World, resume: bool, seen: Phase): Res<()> {
    if !resume then Ok(w, ())
    else
      var (w, image) :- PrepareOp(w);
      Reach(w.(value := w.value.(image := Some(image))), seen)
  }

  function StagePrepare(w: World): Res<()> {
    if w.phase != Preflight then Ok(w, ())
    else
      var (w, ready) :- CurrentPublicReady(w);
      if !ready then Failed(w)
      else
        var (w, image) :- PrepareOp(w);
        Reach(w.(value := w.value.(image := Some(image))), Prepared)
  }

  function StageGate(w: World): Res<()> {
    if w.phase != Prepared then Ok(w, ())
    else
      var (w, _) :- GateOp(w.(attempted := true));
      Reach(w, Gated)
  }

  /** Stop behind the gate. A gate nobody could see from outside is given up: that ends the attempt. */
  function StageStop(w: World): Res<Option<Status>> {
    if w.phase != Gated then Ok(w, None)
    else if w.value.image.None? then
      var (w, s) :- Abort(w);
      Ok(w, Some(s))
    else
      var seen := PublicGated(w);
      if seen.Crashed? then Crashed(seen.w)
      else if seen.Ok? && seen.value then
        var (w, _) :- StopOp(seen.w);
        var (w, _) :- Reach(w, Stopped);
        Ok(w, None)
      else
        var (w, s) :- Abort(seen.w);
        Ok(w, Some(s))
  }

  /**
   Intent is durable before the irreversible upgrade runs, and its result right after. Without a
   prepared image the command cannot even be built; that type error no handler catches.
   */
  function StageUpgrade(w: World): Res<()> {
    if w.phase != Stopped then Ok(w, ())
    else
      var (w, _) :- Reach(w.(value := w.value.(mark := Pending)), UpgradePending);
      var (w, mark) :- if w.value.image.None? then Crashed(w) else UpgradeOp(w);
      Reach(w.(value := w.value.(mark := mark)), Upgraded)
  }

  function StageSnapshot(w: World): Res<()> {
    if w.phase != Upgraded then Ok(w, ())
    else
      var (w, _) :- SnapshotOp(w);
      var (w, digest) :- SnapshotDigestOp(w);
      Reach(w.(value := w.value.(snapshot := Some(digest))), Snapshotted)
  }

  function StageSwap(w: World): Res<()> {
    if w.phase != Snapshotted then Ok(w, ())
    else
      var (w, _) :- SwapOp(w);
      Reach(w, Swapped)
  }

  function StageStart(w: World): Res<()> {
    if w.phase != Swapped then Ok(w, ())
    else
      var (w, _) :- StartOp(w);
      Reach(w, Started)
  }

  /** Both faces of the gate, as the body checks them before the two sensitive steps. */
  function Boundary(w: World): Res<()> {
    var (w, exact) :- GateExact(w);
    if !exact then Unknown(w)
    else
      var (w, seen) :- PublicGated(w);
      if seen then Ok(w, ()) else Unknown(w)
  }

  /** An upgrade without effect proves nothing about the database, so the candidate proves itself. */
  function StageSemantic(w: World): Res<()> {
    if w.value.mark != NoEffect then Ok(w, ())
    else
      var (w, _) :- Boundary(w);
      var (w, probe) :- SemanticOp(w);
      if w.value.probe.Some? && w.value.probe != Some(probe) then Unknown(w)
      else if w.value.probe.Some? then Ok(w, ())
      else Reach(w.(value := w.value.(probe := Some(probe))), w.phase)
  }

  function StageUngate(w: World): Res<()> {
    if w.phase != Started && !w.retained then Ok(w, ())
    else
      var (w, _) :- Boundary(w);
      var (w, _) :- UngateOp(w);
      Reach(w, Ungated)
  }

  function Finish(w: World): Res<Status> {
    var (w, ready) :- LocalReady(w);
    if !ready then Failed(w)
    else
      var (w, _) :- StageSemantic(w);
      var (w, _) :- StageUngate(w);
      var (w, public) :- PublicReady(w);
      if !public then Failed(w)
      else
        var (w, _) :- Write(w, Complete, Pass, None);
        Ok(w, Pass)
  }

  /** From a stopped edge to a served candidate. */
  function Replace(w: World): Res<Status> {
    var (w, _) :- StageUpgrade(w);
    var (w, _) :- StageSnapshot(w);
    var (w, _) :- StageSwap(w);
    var (w, _) :- StageStart(w);
    Finish(w)
  }

  /** From a running edge to a stopped one behind a gate, unless the gate had to be given up. */
  function Front(w: World): Res<Option<Status>> {
    var (w, _) :- StagePrepare(w);
    var (w, _) :- StageGate(w);
    StageStop(w)
  }

  /** The body from its first stage on. */
  function Middle(w: World): Res<Status> {
    var (w, ended) :- Front(w);
    if ended.Some? then Ok(w, ended.value) else Replace(w)
  }

  function Body(w: World, existing: bool): Res<Status> {
    if existing && w.phase == Gated && w.value.error == Some(GateAbortUnknown) then Abort(w)
    else
      var (v, seen) :- Begin(w, existing);
      if v.phase == UpgradePending then Unknown(v)
      else
        var (w, _) :- Reprepare(v, existing && w.phase == Prepared, seen);
        Middle(w)
  }

  // ---------------------------------------------------------------- the handlers

  /** `except Unknown`: keep the public gate, if this attempt ever reached for it. */
  function OnUnknown(w: World): Res<Status> {
    var kept := if w.attempted then RetainGate(w) else Ok(w, ());
    Settle(kept, AmbiguousOutcome)
  }

  /** Record an unsettled outcome, naming a gate that could not be kept before anything else. */
  function Settle(kept: Res<()>, otherwise: Trouble): Res<Status> {
    if kept.Crashed? then Crashed(kept.w)
    else
      var (w, _) :- Write(kept.w, kept.w.phase, Unsettled, Some(if kept.Ok? then otherwise else GateRetentionUnknown));
      Ok(w, Unsettled)
  }

  function RollBack(w: World): Res<()> {
    if w.value.mark == Pending then Unknown(w)
    else
      var (w, _) :- Regate(w);
      var (w, _) :- RestoreService(w);
      Republish(w)
  }

  /** Reopen the public route to the old edge and check it from outside. */
  function Republish(w: World): Res<()> {
    if w.phase == Preflight then Ok(w, ())
    else
      var (w, _) :- UngateOp(w);
      var (w, public) :- CurrentPublicReady(w);
      if !public then Unknown(w)
      else if w.phase !in {Swapped, Started, Ungated} then Ok(w, ())
      else
        var (w, done) :- RollbackComplete(w);
        if done then Ok(w, ()) else Unknown(w)
  }

  function Regate(w: World): Res<()> {
    if w.phase != Ungated then Ok(w, ())
    else
      var (w, _) :- GateOp(w);
      var (w, seen) :- PublicGated(w);
      if seen then Ok(w, ()) else Unknown(w)
  }

  function RestoreService(w: World): Res<()> {
    if w.phase in {Swapped, Started, Ungated} then
      var (w, _) :- StopOp(w);
      var (w, _) :- RestoreOp(w);
      StartOld(w)
    else if w.phase in {Stopped, Upgraded, Snapshotted} then StartOld(w)
    else Ok(w, ())
  }

  function StartOld(w: World): Res<()> {
    var (w, _) :- StartOp(w);
    var (w, ready) :- RollbackReady(w);
    if ready then Ok(w, ()) else Unknown(w)
  }

  /** `except (Failed, OSError, SubprocessError)`: roll back, or keep the gate and say so. */
  function OnFailed(w: World): Res<Status> {
    var back := RollBack(w);
    if back.Crashed? then Crashed(back.w)
    else if !back.Ok? then Settle(RetainGate(back.w), RollbackUnknown)
    else
      var (w, _) :- Write(back.w, RolledBack, Fail, Some(DefiniteFailure));
      Ok(w, Fail)
  }

  // ---------------------------------------------------------------- one run

  /** A run ends with a verdict, or leaves only what it made durable. */
  datatype End = Returned(w: World, verdict: Status) | Escaped(w: World)

  function Ended(r: Res<Status>): End { if r.Ok? then Returned(r.w, r.value) else Escaped(r.w) }

  function Opened(host: Host, stored: Option<Record>, script: seq<Fate>): World {
    var v := if stored.Some? then stored.value else FRESH;
    World(host, stored, v, v.phase, v.phase !in {Preflight, Prepared}, false, false, script)
  }

  /** `deploy` on a readable receipt and an exact target. */
  function Deploy(host: Host, stored: Option<Record>, script: seq<Fate>): End {
    var w := Opened(host, stored, script);
    if Terminal(stored) then Returned(w, w.value.status)
    else
      match Body(w, stored.Some?)
      case Ok(w, s) => Returned(w, s)
      case Unknown(w) => Ended(OnUnknown(w))
      case Failed(w) => Ended(OnFailed(w))
      case Crashed(w) => Escaped(w)
  }

  /** `deploy` when the receipt cannot be read: only the gate may be touched. */
  function DeployBlind(host: Host, stored: Option<Record>, script: seq<Fate>): End {
    Answer(RetainGate(Opened(host, stored, script)), Unsettled)
  }

  /** Whatever `r` raised, short of a crash, the answer is UNKNOWN; otherwise it is `verdict`. */
  function Answer<T>(r: Res<T>, verdict: Status): End {
    if r.Crashed? then Escaped(r.w) else Returned(r.w, if r.Ok? then verdict else Unsettled)
  }

  /** `recover_upgrade_no_effect` under both locks: the one manual way out of a pending upgrade. */
  function Recover(host: Host, stored: Option<Record>, script: seq<Fate>): End {
    var r := RecoverLocked(Opened(host, stored, script));
    if r.Ok? then Answer(r, r.value) else Answer(r, Unsettled)
  }

  function RecoverLocked(w: World): Res<Status> {
    var (w, _) :- Read(w, true);
    var r := RecoverBody(w);
    if r.Crashed? then r
    else
      var (w, _) :- Read(r.w, true);
      if r.Ok? then Ok(w, r.value) else Unknown(w)
  }

  function RecoverBody(w: World): Res<Status> {
    if w.stored.None? then Unknown(w)
    else
      var v := w.stored.value;
      if v.status == Fail && v.phase == NoEffectProven && v.mark == NotStarted
         && v.error == Some(UpgradeProvenNotApplied)
      then Ok(w, Fail)
      else if v.status != Unsettled || v.phase != UpgradePending || v.mark != Pending then Unknown(w)
      else
        var (w, proven) :- Look(w, NoEffectProvable(w.host));
        if !proven then Unknown(w)
        else
          var (w, _) :- Write(w.(value := v.(mark := NotStarted)), NoEffectProven, Fail, Some(UpgradeProvenNotApplied));
          Ok(w, Fail)
  }

  // ---------------------------------------------------------------- resuming from the command line

  /** `validate_resume`: a terminal receipt must still match the live host. */
  function ValidateResume(w: World): Res<bool> {
    if w.value.status == Pass then
      var (w, seen) :- ReconcileOp(w, Complete, w.value.snapshot);
      PublicReady(w)
    else if w.value.status == Fail then
      if w.value.phase == RolledBack then RollbackComplete(w) else Look(w, NoEffectProvable(w.host))
    else Look(w, true)
  }

  /** `main --resume`: validate first, then hand over to `deploy`. */
  function Resume(host: Host, stored: Option<Record>, script: seq<Fate>): End
    requires stored.Some?
  {
    var valid := ValidateResume(Opened(host, stored, script));
    if valid.Crashed? then Escaped(valid.w)
    else if !valid.Ok? || !valid.value then Returned(valid.w, Unsettled)
    else Deploy(host, stored, valid.w.script)
  }
}
