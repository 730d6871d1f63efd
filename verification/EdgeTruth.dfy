/**
 What verdicts and receipts say about the host, and how every stage and handler of a run keeps it
 true, as long as the host only changes through the attempt's own operations and no terminal write
 was torn. EdgeTorn and EdgeVerdicts say exactly what becomes of torn ones.
 */
module EdgeTruth {
  import opened Prelude
  import opened EdgeHost
  import opened EdgeDeploy
  import opened EdgeProtocol

  predicate Serving(h: Host) { h.gate == Absent && CandidateServes(h) }

  predicate Restored(h: Host) { h.gate == Absent && CurrentServes(h) }

  /** The host as the attempt found it, or exactly restored; a gate found in place may be gone. */
  predicate AsBefore(h: Host, origin: Host) {
    Restored(h) || h == origin || h == origin.(gate := Absent)
  }

  predicate GateOnly(origin: Host, h: Host) { h == origin.(gate := h.gate) }

  /** What a durable receipt says about the host it was written for. */
  predicate Truthful(stored: Option<Record>, h: Host, origin: Host) {
    match stored
    case None => h == origin
    case Some(v) =>
      && (v.status == Pass ==> Serving(h))
      && (v.status == Fail ==> AsBefore(h, origin))
      && (v.phase == Preflight ==> GateOnly(origin, h))
      && (v.phase in {Prepared, Gated} ==> h.launcher == Current)
  }

  // ---------------------------------------------------------------- during a run

  /** The host when the attempt began, and when this run began. */
  datatype Basis = Basis(origin: Host, start: Host)

  /** What the variables of a run say about the host. */
  predicate Local(w: World, b: Basis) {
    && (w.phase == Preflight ==> GateOnly(b.origin, w.host))
    && (w.phase in {Prepared, Gated} ==> w.host.launcher == Current)
    && (!w.attempted ==> w.host == b.start)
    && (w.stored.None? ==> !w.attempted)
  }

  /** How far a durable receipt may lag behind the phase in memory. */
  predicate Lags(stored: Option<Record>, phase: Phase) {
    match stored
    case None => phase == Preflight
    case Some(v) =>
      && v.status !in {Pass, Fail}
      && (v.phase == Preflight ==> phase in {Preflight, Prepared, Gated})
      && (v.phase in {Prepared, Gated} ==> phase in {Prepared, Gated, Stopped})
  }

  predicate Tracks(w: World, b: Basis) {
    Local(w, b) && (!w.torn ==> Truthful(w.stored, w.host, b.origin) && Lags(w.stored, w.phase))
  }

  /** Between two stages the receipt is exactly as far as the phase. */
  predicate InStep(w: World) { w.stored.Some? && w.stored.value.phase == w.phase }

  /** A step that broke still tracks the host; one that crashed may leave a terminal receipt, but a true one. */
  predicate Leaves(w: World, settled: bool, b: Basis) {
    Local(w, b) && (!w.torn ==>
      && Truthful(w.stored, w.host, b.origin)
      && (Lags(w.stored, w.phase) || (Terminal(w.stored) && settled)))
  }

  predicate Sound<T>(r: Res<T>, b: Basis) { Leaves(r.w, r.Ok? || r.Crashed?, b) }

  /** The result of a stage: sound, and in step again when it returned. */
  predicate Staged<T>(r: Res<T>, b: Basis) {
    Sound(r, b) && (r.Ok? ==> Tracks(r.w, b) && InStep(r.w))
  }

  lemma StillTracks(w: World, v: World, b: Basis)
    requires Tracks(w, b) && Still(w, v)
    ensures Tracks(v, b) && (InStep(w) ==> InStep(v))
  {}

  /** Moving the gate alone is tracked, once the run has declared that it touches the gate. */
  lemma GateTracks(w: World, v: World, b: Basis)
    requires Tracks(w, b) && Framed(w, v) && v.host == w.host.(gate := v.host.gate) && w.attempted
    ensures Tracks(v, b) && (InStep(w) ==> InStep(v))
  {}

  /** Later stages may move anything the early phases do not speak of. */
  lemma LateTracks(w: World, v: World, b: Basis)
    requires Tracks(w, b) && InStep(w) && Framed(w, v) && w.attempted
    requires w.phase !in {Preflight, Prepared} && (w.phase == Gated ==> v.host.launcher == w.host.launcher)
    ensures Tracks(v, b) && InStep(v)
  {}

  lemma WriteSound(w: World, phase: Phase, status: Status, error: Option<Trouble>, b: Basis)
    requires Tracks(w, b)
    requires var v := w.value.(phase := phase, status := status, error := error);
      Truthful(Some(v), w.host, b.origin) && (status in {Pass, Fail} || Lags(Some(v), w.phase))
    ensures Sound(Write(w, phase, status, error), b)
    ensures Write(w, phase, status, error).w.phase == w.phase && Write(w, phase, status, error).w.host == w.host
    ensures var r := Write(w, phase, status, error); r.Ok? ==>
      && r.w.stored == Some(w.value.(phase := phase, status := status, error := error))
      && r.w.torn == w.torn
      && (status !in {Pass, Fail} ==> Tracks(r.w, b))
  {
    WriteShape(w, phase, status, error);
    hide Write;
  }

  /** The two places a write can leave the receipt, and what tells them apart. */
  lemma WriteShape(w: World, phase: Phase, status: Status, error: Option<Trouble>)
    ensures var r, v := Write(w, phase, status, error), w.value.(phase := phase, status := status, error := error);
      && r.w == w.(value := v, stored := r.w.stored, torn := r.w.torn, script := r.w.script)
      && (r.w.torn ==> w.torn || (r.w.stored == Some(v) && status in {Pass, Fail} && !r.Ok? && !r.Crashed?))
      && (w.torn ==> r.w.torn)
      && (if r.Ok? then r.w.stored == Some(v) && r.w.torn == w.torn else r.w.stored in {w.stored, Some(v)})
      && (!r.w.torn && status in {Pass, Fail} && !r.Ok? && !r.Crashed? ==> r.w.stored == w.stored)
  {}

  lemma ReachStaged(w: World, phase: Phase, b: Basis)
    requires Tracks(w.(phase := phase), b)
    ensures Staged(Reach(w, phase), b)
    ensures Reach(w, phase).w.phase == phase && Reach(w, phase).w.host == w.host
    ensures Reach(w, phase).w.attempted == w.attempted
  {
    WriteSound(w.(phase := phase), phase, Running, None, b);
  }

  // ---------------------------------------------------------------- the body

  lemma AbortSound(w: World, b: Basis)
    requires Tracks(w, b) && InStep(w) && w.phase == Gated && w.attempted
    ensures Sound(Abort(w), b) && Abort(w).w.phase == Gated
    ensures Abort(w).Ok? ==> Told(Abort(w), b)
  {
    hide Write, AbortTry, Look, Tracks, Leaves;
    AbortTryFrames(w);
    var tried := AbortTry(w);
    GateTracks(w, tried.w, b);
    TracksLeaves(tried.w, b);
    TracksMeans(tried.w, b);
    if tried.Ok? {
      LookStill(tried.w, IsPublic(tried.w.host));
      var seen := PublicReady(tried.w);
      StillTracks(tried.w, seen.w, b);
      TracksLeaves(seen.w, b);
      WriteSound(seen.w, RolledBack, Fail, Some(PublicGateUnproven), b);
    } else if !tried.Crashed? {
      WriteSound(tried.w, Gated, Unsettled, Some(GateAbortUnknown), b);
    }
  }

  lemma TracksLeaves(w: World, b: Basis)
    requires Tracks(w, b)
    ensures Leaves(w, true, b) && Leaves(w, false, b)
  {}

  lemma TracksMeans(w: World, b: Basis)
    requires Tracks(w, b)
    ensures Local(w, b)
  {}

  /** A verdict that tells the truth about the host it leaves. */
  predicate Told(r: Res<Status>, b: Basis)
    requires r.Ok?
  {
    match r.value
    case Pass => Serving(r.w.host)
    case Fail => AsBefore(r.w.host, b.origin)
    case Unsettled => Excused(r.w, b)
    case Running => false
  }

  /** Why an unknown verdict leaves no unguarded edge behind. */
  predicate Excused(w: World, b: Basis) {
    || w.host.gate == Applied
    || (w.stored.Some? && w.stored.value.error in {Some(GateRetentionUnknown), Some(GateAbortUnknown)})
    || w.host == b.start
  }

  lemma AdoptStaged(w: World, seen: Observation, b: Basis)
    requires Tracks(w, b) && InStep(w) && w.phase !in {Complete, RolledBack, NoEffectProven}
    requires Classify(w.host, w.phase, w.value.snapshot) == Some(seen)
             && (w.attempted <==> w.phase !in {Preflight, Prepared})
    requires w.host == b.start
    ensures Staged(Adopt(w, seen), b)
    ensures Adopt(w, seen).Ok? ==>
              && Adopt(w, seen).w.host == w.host
              && (Adopt(w, seen).w.attempted <==> seen.phase !in {Preflight, Prepared})
              && (Adopt(w, seen).w.phase == Preflight ==> w.host.gate == Absent)
              && Adopt(w, seen).w.phase == if w.phase == Prepared then Prepared else seen.phase
  {
    hide Reach, Classify;
    ClassifyFacts(w.host, w.phase, w.value.snapshot);
    ClassifyLauncher(w.host, w.phase, w.value.snapshot);
    var v := w.(retained := seen.retained,
                value := if seen.snapshot.Some? then w.value.(snapshot := seen.snapshot) else w.value);
    if !((seen.phase == w.phase && seen.snapshot.None?) || w.phase == Prepared) {
      ReachStaged(v, seen.phase, b);
    }
  }

  lemma ClassifyLauncher(h: Host, phase: Phase, snapshot: Option<Digest>)
    ensures Classify(h, phase, snapshot).Some? && phase in {Preflight, Prepared, Gated} ==> h.launcher == Current
    ensures Classify(h, phase, snapshot).Some? && phase == Preflight
            && Classify(h, phase, snapshot).value.phase == Preflight ==>
              h.gate == Absent
  {}

  /** What holds between the stages of the body. */
  predicate Ready(w: World, b: Basis) {
    && Tracks(w, b) && InStep(w)
    && (w.phase !in {Preflight, Prepared} ==> w.attempted)
    && (w.phase == Preflight ==> w.host.launcher == Current && w.host.gate == Absent)
  }

  predicate Stage<T>(r: Res<T>, b: Basis) { Sound(r, b) && (r.Ok? ==> Ready(r.w, b)) }

  /** The one definite failure nobody cleans up after: reconciling a PREFLIGHT receipt behind a gate. */
  predicate Surprised(host: Host, stored: Option<Record>, script: seq<Fate>) {
    stored.Some? && stored.value.phase == Preflight && host.gate == Applied && script != [] && script[0].kind.Failing?
  }

  /** Leaving at PREFLIGHT with a definite failure means nothing was moved. */
  predicate Untouched<T>(r: Res<T>, b: Basis) {
    r.Failed? && r.w.phase == Preflight ==> AsBefore(r.w.host, b.origin)
  }

  lemma ReconcileFails(w: World)
    ensures ReconcileOp(w, w.phase, w.value.snapshot).Failed? ==> w.script != [] && w.script[0].kind.Failing?
  {}

  lemma AdoptFails(w: World, seen: Observation)
    ensures !Adopt(w, seen).Ok? ==>
              Adopt(w, seen).w.phase == seen.phase && (seen.phase == w.phase ==> seen.snapshot.Some?)
  {}

  /** What `Begin` promises for a result `r` reached from `w`. */
  predicate Begun(w: World, r: Res<Phase>, b: Basis) {
    && Sound(r, b) && Untouched(r, b)
    && (r.Ok? ==>
          && Tracks(r.w, b) && InStep(r.w)
          && (r.w.attempted <==> r.value !in {Preflight, Prepared})
          && (r.w.phase == Preflight ==> r.w.host.launcher == Current && r.w.host.gate == Absent)
          && r.w.phase == if w.phase == Prepared then Prepared else r.value)
  }

  lemma ResumeBegun(w: World, b: Basis)
    requires Tracks(w, b) && w.host == b.start && InStep(w) && !Surprised(w.host, w.stored, w.script)
    requires w.phase !in {Complete, RolledBack, NoEffectProven} && (w.attempted <==> w.phase !in {Preflight, Prepared})
    ensures Begun(w, BeginResumed(w), b)
  {
    TracksMeans(w, b);
    hide Reach, Tracks, Leaves, Adopt, ReconcileOp, Classify;
    ReconcileStill(w);
    ReconcileFails(w);
    var r := ReconcileOp(w, w.phase, w.value.snapshot);
    StillTracks(w, r.w, b);
    TracksLeaves(r.w, b);
    if r.Ok? {
      AdoptStaged(r.w, r.value, b);
      AdoptReports(r.w, r.value);
      AdoptFails(r.w, r.value);
      ClassifyFacts(w.host, w.phase, w.value.snapshot);
      ClassifyLauncher(w.host, w.phase, w.value.snapshot);
    }
  }

  lemma FreshBegun(w: World, b: Basis)
    requires Tracks(w, b) && w.host == b.start && !w.torn && w.stored.None? && w.phase == Preflight && !w.attempted
    ensures Begun(w, BeginFresh(w), b)
  {
    assert w.host == b.origin;
    ReachStaged(w, w.phase, b);
    var o := Reach(w, w.phase);
    hide Reach, Tracks, Leaves, PreflightOp;
    if o.Ok? {
      PreflightStill(o.w);
      var p := PreflightOp(o.w);
      StillTracks(o.w, p.w, b);
      TracksLeaves(p.w, b);
    }
  }

  lemma LookKeepsReady(w: World, truth: bool, b: Basis)
    requires Ready(w, b)
    ensures Still(w, Look(w, truth).w) && Ready(Look(w, truth).w, b) && Leaves(Look(w, truth).w, true, b)
    ensures Leaves(Look(w, truth).w, false, b)
    ensures Look(w, truth).Ok? && Look(w, truth).value ==> truth
  {
    hide Look;
    LookStill(w, truth);
    TracksLeaves(Look(w, truth).w, b);
  }

  lemma ReprepareStaged(w: World, resume: bool, seen: Phase, b: Basis)
    requires Tracks(w, b) && InStep(w) && (w.attempted <==> seen !in {Preflight, Prepared})
    requires if resume then w.phase == Prepared && seen in {Prepared, Gated} else w.phase == seen
    requires w.phase == Preflight ==> w.host.launcher == Current && w.host.gate == Absent
    ensures Stage(Reprepare(w, resume, seen), b)
    ensures Reprepare(w, resume, seen).w.phase == Preflight ==> w.phase == Preflight && Reprepare(w, resume, seen).Ok?
  {
    TracksLeaves(w, b);
    hide Reach, PrepareOp, Leaves;
    if resume {
      PrepareStill(w);
      var p := PrepareOp(w);
      TracksLeaves(p.w, b);
      if p.Ok? {
        var v := p.w.(value := p.w.value.(image := Some(p.value)));
        ReachStaged(v, seen, b);
      }
    }
  }

  lemma PrepareStaged(w: World, b: Basis)
    requires Ready(w, b)
    ensures Stage(StagePrepare(w), b) && Untouched(StagePrepare(w), b)
  {
    TracksLeaves(w, b);
    hide Reach, PrepareOp, Leaves, Look;
    if w.phase == Preflight {
      LookKeepsReady(w, CurrentIsPublic(w.host), b);
      var r := CurrentPublicReady(w);
      if r.Ok? && r.value {
        PrepareStill(r.w);
        var p := PrepareOp(r.w);
        TracksLeaves(p.w, b);
        if p.Ok? {
          var v := p.w.(value := p.w.value.(image := Some(p.value)));
          ReachStaged(v, Prepared, b);
        }
      }
    }
  }

  lemma GateStaged(w: World, b: Basis)
    requires Ready(w, b)
    ensures Stage(StageGate(w), b)
  {
    TracksLeaves(w, b);
    hide Reach, Leaves, Act;
    if w.phase == Prepared {
      var v := w.(attempted := true);
      ActFrames(v, v.host, v.host.(gate := Applied));
      var r := GateOp(v);
      GateTracks(v, r.w, b);
      TracksLeaves(r.w, b);
      if r.Ok? { ReachStaged(r.w, Gated, b); }
    }
  }

  lemma StopStaged(w: World, b: Basis)
    requires Ready(w, b)
    ensures Sound(StageStop(w), b)
    ensures StageStop(w).Ok? && StageStop(w).value.Some? ==> Told(Ok(StageStop(w).w, StageStop(w).value.value), b)
    ensures StageStop(w).Ok? && StageStop(w).value.None? ==> Ready(StageStop(w).w, b)
    ensures w.phase != Preflight ==> StageStop(w).w.phase != Preflight
  {
    TracksLeaves(w, b);
    hide Reach, Leaves, Act, Abort, Look;
    if w.phase == Gated {
      if w.value.image.None? {
        AbortSound(w, b);
      } else {
        LookKeepsReady(w, w.host.gate == Applied, b);
        var seen := PublicGated(w);
        if seen.Ok? && seen.value {
          ActFrames(seen.w, seen.w.host, seen.w.host.(service := Down));
          var r := StopOp(seen.w);
          LateTracks(seen.w, r.w, b);
          TracksLeaves(r.w, b);
          if r.Ok? { ReachStaged(r.w, Stopped, b); }
        } else if !seen.Crashed? {
          AbortSound(seen.w, b);
        }
      }
    }
  }

  lemma UpgradeStaged(w: World, b: Basis)
    requires Ready(w, b)
    ensures Stage(StageUpgrade(w), b)
  {
    TracksLeaves(w, b);
    hide Reach, Leaves, UpgradeOp;
    if w.phase == Stopped {
      var intent := w.(value := w.value.(mark := Pending));
      ReachStaged(intent, UpgradePending, b);
      var r := Reach(intent, UpgradePending);
      if r.Ok? {
        TracksLeaves(r.w, b);
        UpgradeFrames(r.w);
        var u := UpgradeOp(r.w);
        LateTracks(r.w, u.w, b);
        TracksLeaves(u.w, b);
        if u.Ok? {
          var v := u.w.(value := u.w.value.(mark := u.value));
          ReachStaged(v, Upgraded, b);
        }
      }
    }
  }

  lemma SnapshotStaged(w: World, b: Basis)
    requires Ready(w, b)
    ensures Stage(StageSnapshot(w), b)
  {
    TracksLeaves(w, b);
    hide Reach, Leaves, SnapshotOp, SnapshotDigestOp;
    if w.phase == Upgraded {
      SnapshotFrames(w);
      var r := SnapshotOp(w);
      LateTracks(w, r.w, b);
      TracksLeaves(r.w, b);
      if r.Ok? {
        SnapshotFrames(r.w);
        var d := SnapshotDigestOp(r.w);
        StillTracks(r.w, d.w, b);
        TracksLeaves(d.w, b);
        if d.Ok? {
          var v := d.w.(value := d.w.value.(snapshot := Some(d.value)));
          ReachStaged(v, Snapshotted, b);
        }
      }
    }
  }

  lemma SwapStaged(w: World, b: Basis)
    requires Ready(w, b)
    ensures Stage(StageSwap(w), b)
  {
    TracksLeaves(w, b);
    hide Reach, Leaves, Act;
    if w.phase == Snapshotted {
      var copied := w.host.(backup := Some(w.host.launcher));
      ActFrames(w, copied, copied.(launcher := Candidate));
      var r := SwapOp(w);
      LateTracks(w, r.w, b);
      TracksLeaves(r.w, b);
      if r.Ok? { ReachStaged(r.w, Swapped, b); }
    }
  }

  lemma StartStaged(w: World, b: Basis)
    requires Ready(w, b)
    ensures Stage(StageStart(w), b)
  {
    TracksLeaves(w, b);
    hide Reach, Leaves, Act;
    if w.phase == Swapped {
      ActFrames(w, w.host, w.host.(service := if w.host.service.Up? then w.host.service else Up(w.host.launcher)));
      var r := StartOp(w);
      LateTracks(w, r.w, b);
      TracksLeaves(r.w, b);
      if r.Ok? { ReachStaged(r.w, Started, b); }
    }
  }

  lemma SemanticStaged(w: World, b: Basis)
    requires Ready(w, b) && w.phase in {Started, Ungated}
    ensures Stage(StageSemantic(w), b) && StageSemantic(w).w.host == w.host && StageSemantic(w).w.phase == w.phase
  {
    TracksLeaves(w, b);
    hide Reach, Leaves, Boundary, SemanticOp;
    if w.value.mark == NoEffect {
      BoundaryStill(w);
      var r := Boundary(w);
      StillTracks(w, r.w, b);
      TracksLeaves(r.w, b);
      if r.Ok? {
        SemanticStill(r.w);
        var p := SemanticOp(r.w);
        StillTracks(r.w, p.w, b);
        TracksLeaves(p.w, b);
        if p.Ok? && p.w.value.probe.None? {
          var v := p.w.(value := p.w.value.(probe := Some(p.value)));
          ReachStaged(v, v.phase, b);
        }
      }
    }
  }

  lemma UngateStaged(w: World, b: Basis)
    requires Ready(w, b) && w.phase in {Started, Ungated}
    ensures Stage(StageUngate(w), b) && StageUngate(w).w.host == w.host.(gate := StageUngate(w).w.host.gate)
    ensures StageUngate(w).w.phase in {Started, Ungated}
  {
    TracksLeaves(w, b);
    hide Reach, Leaves, Boundary, Act;
    if w.phase == Started || w.retained {
      BoundaryStill(w);
      var r := Boundary(w);
      StillTracks(w, r.w, b);
      TracksLeaves(r.w, b);
      if r.Ok? {
        ActFrames(r.w, r.w.host, r.w.host.(gate := Absent));
        var u := UngateOp(r.w);
        LateTracks(r.w, u.w, b);
        TracksLeaves(u.w, b);
        if u.Ok? { ReachStaged(u.w, Ungated, b); }
      }
    }
  }

  lemma FinishSound(w: World, b: Basis)
    requires Ready(w, b) && w.phase in {Started, Ungated}
    ensures Sound(Finish(w), b) && Finish(w).w.phase in {Started, Ungated}
    ensures Finish(w).Ok? ==> Told(Finish(w), b)
  {
    TracksLeaves(w, b);
    hide Leaves, Look, StageSemantic, StageUngate, Write, Tracks;
    LookKeepsReady(w, CandidateServes(w.host), b);
    var l := LocalReady(w);
    if l.Ok? && l.value {
      SemanticStaged(l.w, b);
      var s := StageSemantic(l.w);
      if s.Ok? {
        UngateStaged(s.w, b);
        var u := StageUngate(s.w);
        if u.Ok? {
          LookKeepsReady(u.w, IsPublic(u.w.host), b);
          var p := PublicReady(u.w);
          if p.Ok? && p.value { WriteSound(p.w, Complete, Pass, None, b); }
        }
      }
    }
  }

  lemma ReachPhase(w: World, phase: Phase)
    ensures Reach(w, phase).w.phase == phase
  {}

  /** No stage returns to PREFLIGHT. */
  lemma NeverBack(w: World)
    requires w.phase != Preflight
    ensures StagePrepare(w) == Ok(w, ()) && StageGate(w).w.phase != Preflight
    ensures StageUpgrade(w).w.phase != Preflight && StageSnapshot(w).w.phase != Preflight
    ensures StageSwap(w).w.phase != Preflight && StageStart(w).w.phase != Preflight
  {
    UpgradeNeverBack(w);
    SnapshotNeverBack(w);
    SwapNeverBack(w);
    hide Act, Reach, StageUpgrade, StageSnapshot, StageSwap;
    var v := w.(attempted := true);
    ActFrames(v, v.host, v.host.(gate := Applied));
    ActFrames(w, w.host, w.host.(service := if w.host.service.Up? then w.host.service else Up(w.host.launcher)));
    ReachPhase(GateOp(v).w, Gated);
    ReachPhase(StartOp(w).w, Started);
  }

  lemma SwapNeverBack(w: World)
    requires w.phase != Preflight
    ensures StageSwap(w).w.phase != Preflight
  {
    hide Act, Reach;
    var copied := w.host.(backup := Some(w.host.launcher));
    ActFrames(w, copied, copied.(launcher := Candidate));
    ReachPhase(SwapOp(w).w, Swapped);
  }

  lemma UpgradeNeverBack(w: World)
    requires w.phase != Preflight
    ensures StageUpgrade(w).w.phase != Preflight
  {
    hide UpgradeOp, Reach;
    var intent := w.(value := w.value.(mark := Pending));
    ReachPhase(intent, UpgradePending);
    var r := Reach(intent, UpgradePending);
    UpgradeFrames(r.w);
    var u := UpgradeOp(r.w);
    if u.Ok? { ReachPhase(u.w.(value := u.w.value.(mark := u.value)), Upgraded); }
  }

  lemma SnapshotNeverBack(w: World)
    requires w.phase != Preflight
    ensures StageSnapshot(w).w.phase != Preflight
  {
    hide SnapshotOp, SnapshotDigestOp, Reach;
    SnapshotFrames(w);
    var r := SnapshotOp(w);
    SnapshotFrames(r.w);
    var d := SnapshotDigestOp(r.w);
    if d.Ok? { ReachPhase(d.w.(value := d.w.value.(snapshot := Some(d.value))), Snapshotted); }
  }

  lemma ReplaceSound(w: World, b: Basis)
    requires Ready(w, b) && w.phase in {Stopped, Upgraded, Snapshotted, Swapped, Started, Ungated}
    ensures Sound(Replace(w), b) && Replace(w).w.phase != Preflight
    ensures Replace(w).Ok? ==> Told(Replace(w), b)
  {
    hide StageUpgrade, StageSnapshot, StageSwap, StageStart, Finish, Ready, Leaves, Told;
    UpgradeStaged(w, b);
    StagePhases(w);
    NeverBack(w);
    var u := StageUpgrade(w);
    if u.Ok? {
      SnapshotStaged(u.w, b);
      StagePhases(u.w);
      NeverBack(u.w);
      var s := StageSnapshot(u.w);
      if s.Ok? {
        SwapStaged(s.w, b);
        StagePhases(s.w);
        NeverBack(s.w);
        var p := StageSwap(s.w);
        if p.Ok? {
          StartStaged(p.w, b);
          StagePhases(p.w);
          NeverBack(p.w);
          var t := StageStart(p.w);
          if t.Ok? { FinishSound(t.w, b); }
        }
      }
    }
  }

  lemma FrontSound(w: World, b: Basis)
    requires Ready(w, b) && w.phase !in {UpgradePending, Complete, RolledBack, NoEffectProven}
    ensures Sound(Front(w), b) && Untouched(Front(w), b)
    ensures var f := Front(w); f.Ok? ==>
      if f.value.Some? then Told(Ok(f.w, f.value.value), b)
      else Ready(f.w, b) && f.w.phase in {Stopped, Upgraded, Snapshotted, Swapped, Started, Ungated}
  {
    hide StagePrepare, StageGate, StageStop, Ready, Leaves, Told, AsBefore;
    PrepareStaged(w, b);
    FrontPhases(w);
    var p := StagePrepare(w);
    if p.Ok? {
      GateStaged(p.w, b);
      FrontPhases(p.w);
      NeverBack(p.w);
      var g := StageGate(p.w);
      if g.Ok? {
        StopStaged(g.w, b);
        FrontPhases(g.w);
      }
    }
  }

  lemma BodySound(w: World, existing: bool, b: Basis)
    requires Tracks(w, b) && w.host == b.start && !w.torn
    requires w.phase !in {Complete, RolledBack, NoEffectProven} && (w.attempted <==> w.phase !in {Preflight, Prepared})
    requires if existing then InStep(w) && !Surprised(w.host, w.stored, w.script)
             else w.stored.None? && w.phase == Preflight
    ensures Sound(Body(w, existing), b) && Untouched(Body(w, existing), b)
    ensures Body(w, existing).Ok? ==> Told(Body(w, existing), b)
  {
    hide BeginResumed, BeginFresh, Reprepare, Front, Replace, Abort, Leaves, Told, AsBefore, Tracks, Surprised;
    if existing && w.phase == Gated && w.value.error == Some(GateAbortUnknown) {
      AbortSound(w, b);
    } else {
      if existing { ResumeBegun(w, b); } else { FreshBegun(w, b); }
      var g := Begin(w, existing);
      if g.Ok? {
        BeginLeaves(w, existing, b);
        ReprepareStaged(g.w, existing && w.phase == Prepared, g.value, b);
        RepreparePhase(g.w, existing && w.phase == Prepared, g.value);
        var r := Reprepare(g.w, existing && w.phase == Prepared, g.value);
        if r.Ok? {
          FrontSound(r.w, b);
          var f := Front(r.w);
          if f.Ok? && f.value.None? { ReplaceSound(f.w, b); }
        }
      }
    }
  }

  lemma BeginLeaves(w: World, existing: bool, b: Basis)
    requires w.phase !in {Complete, RolledBack, NoEffectProven} && (!existing ==> w.phase == Preflight)
    ensures var g := Begin(w, existing); g.Ok? ==>
      && g.value !in {UpgradePending, Complete, RolledBack, NoEffectProven}
      && (w.phase == Prepared && existing ==> g.value in {Prepared, Gated})
  {
    hide Classify, Adopt, Reach, PreflightOp, ReconcileOp;
    ReconcileStill(w);
    var r := ReconcileOp(w, w.phase, w.value.snapshot);
    if existing && r.Ok? {
      ClassifyFacts(w.host, w.phase, w.value.snapshot);
      AdoptReports(r.w, r.value);
    }
    ReachPhase(w, w.phase);
    PreflightStill(Reach(w, w.phase).w);
  }

  // ---------------------------------------------------------------- the handlers

  /** What a handler owes: a verdict it returns is told truly, and so is the receipt it leaves. */
  predicate Honest(r: Res<Status>, b: Basis) {
    && (r.Ok? ==> Told(r, b))
    && (r.Ok? || !r.w.torn ==> Truthful(r.w.stored, r.w.host, b.origin))
  }

  lemma SettleSound(kept: Res<()>, otherwise: Trouble, b: Basis)
    requires Tracks(kept.w, b)
    requires kept.Ok? ==> kept.w.host.gate == Applied || kept.w.host == b.start
    ensures Honest(Settle(kept, otherwise), b)
    ensures Settle(kept, otherwise).Ok? ==> Settle(kept, otherwise).value == Unsettled
    ensures Settle(kept, otherwise).Ok? && kept.w.host.gate == Absent && kept.Ok? ==> kept.w.host == b.start
  {
    if !kept.Crashed? {
      var error := Some(if kept.Ok? then otherwise else GateRetentionUnknown);
      var v := kept.w.value.(phase := kept.w.phase, status := Unsettled, error := error);
      assert Truthful(Some(v), kept.w.host, b.origin) && Lags(Some(v), kept.w.phase);
      WriteSound(kept.w, kept.w.phase, Unsettled, error, b);
      hide Write, Tracks;
    }
  }

  lemma OnUnknownSound(w: World, b: Basis)
    requires Tracks(w, b)
    ensures Honest(OnUnknown(w), b)
  {
    TracksMeans(w, b);
    RetainFrames(w);
    hide RetainGate, Settle, Tracks;
    var kept := if w.attempted then RetainGate(w) else Ok(w, ());
    if w.attempted { GateTracks(w, kept.w, b); }
    SettleSound(kept, AmbiguousOutcome, b);
  }

  /** Rolling back is tracked as well, counted from where it stopped. */
  lemma RollBackTracks(w: World, b: Basis)
    requires Tracks(w, b) && Mid(w)
    ensures Tracks(RollBack(w).w, b.(start := RollBack(w).w.host))
  {
    RollBackFacts(w);
    hide RollBack, Protocol, Suits;
  }

  lemma RolledBackTruly(w: World, b: Basis)
    requires Tracks(w, b) && Mid(w) && RollBack(w).Ok?
    requires w.phase == Preflight ==> AsBefore(w.host, b.origin)
    ensures AsBefore(RollBack(w).w.host, b.origin)
  {
    RollBackFacts(w);
    hide RollBack, Protocol, Suits;
  }

  lemma OnFailedSound(w: World, b: Basis)
    requires Tracks(w, b) && Mid(w) && (w.phase == Preflight ==> AsBefore(w.host, b.origin))
    ensures Honest(OnFailed(w), b)
  {
    RollBackFacts(w);
    var back := RollBack(w);
    var c := b.(start := back.w.host);
    RollBackTracks(w, b);
    if back.Ok? {
      RolledBackTruly(w, b);
      WriteSound(back.w, RolledBack, Fail, Some(DefiniteFailure), c);
      hide RollBack, Tracks, Mid;
    } else if !back.Crashed? {
      hide RollBack, Tracks, Mid, RetainGate, Settle;
      RetainFrames(back.w);
      var kept := RetainGate(back.w);
      var d := c.(start := kept.w.host);
      RetainTracks(back.w, c);
      SettleSound(kept, RollbackUnknown, d);
      SettleNames(kept, RollbackUnknown);
    } else {
      hide RollBack, Mid;
    }
  }

  lemma RetainTracks(w: World, b: Basis)
    requires Tracks(w, b) && w.phase != Preflight
    ensures Tracks(RetainGate(w).w, b.(start := RetainGate(w).w.host))
  {
    RetainFrames(w);
    hide RetainGate;
  }

  lemma SettleNames(kept: Res<()>, otherwise: Trouble)
    ensures Settle(kept, otherwise).Ok? ==>
              && Settle(kept, otherwise).w.host == kept.w.host && Settle(kept, otherwise).w.stored.Some?
              && (!kept.Ok? ==> Settle(kept, otherwise).w.stored.value.error == Some(GateRetentionUnknown))
  {}
}
