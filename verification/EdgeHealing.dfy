/**
 Healing: when the only faults are crashes between or inside atomic steps, and what the measuring
 steps read is stable, an attempt outside the upgrade window is finished by at most two more runs,
 on the very host an uninterrupted run leaves.
 */
module EdgeHealing {
  import opened Prelude
  import opened EdgeHost
  import opened EdgeDeploy
  import opened EdgeProtocol
  import opened EdgeUnprepared
  import opened EdgeRuns
  import EdgeTruth

  // ---------------------------------------------------------------- crash-only worlds

  /** A step that works, or a crash before or after it took effect. Measurements always read 0. */
  predicate Tame(f: Fate) {
    f.digest == 0 && !f.blind && (f.kind.Fine? || (f.kind.Crash? && f.landing != Partly))
  }

  predicate CrashOnly(script: seq<Fate>) { forall i :: 0 <= i < |script| ==> Tame(script[i]) }

  /** `r` came from `w` without any fault but a crash, and without a crash if none was to come. */
  predicate Tamed<T>(w: World, r: Res<T>) {
    !r.Failed? && CrashOnly(r.w.script) && (w.script == [] ==> r.w.script == [] && !r.Crashed?)
  }

  lemma NextTame(w: World)
    requires CrashOnly(w.script)
    ensures Tame(Next(w).1) && CrashOnly(Next(w).0.script)
    ensures w.script == [] ==> Next(w) == (w, CALM)
  {}

  lemma ActTamed(w: World, partial: Host, full: Host)
    requires CrashOnly(w.script)
    ensures var r := Act(w, partial, full);
      && Tamed(w, r) && !r.Unknown? && r.w == w.(script := r.w.script, host := r.w.host)
      && (if r.Ok? then r.w.host == full else r.w.host in {w.host, full})
  {
    NextTame(w);
  }

  lemma LookTamed(w: World, truth: bool)
    requires CrashOnly(w.script)
    ensures Tamed(w, Look(w, truth)) && Still(w, Look(w, truth).w) && !Look(w, truth).Unknown?
    ensures Look(w, truth).Ok? ==> Look(w, truth).value == truth
    ensures Tamed(w, Read(w, truth)) && Still(w, Read(w, truth).w) && !Read(w, truth).Unknown?
    ensures Read(w, truth).Ok? ==> Read(w, truth).value == truth
  {
    NextTame(w);
  }

  lemma WriteTamed(w: World, phase: Phase, status: Status, error: Option<Trouble>)
    requires CrashOnly(w.script)
    ensures var r, v := Write(w, phase, status, error), w.value.(phase := phase, status := status, error := error);
      && Tamed(w, r) && !r.Unknown?
      && r.w == w.(script := r.w.script, value := v, stored := r.w.stored)
      && (if r.Ok? then r.w.stored == Some(v) else r.w.stored in {w.stored, Some(v)})
  {
    NextTame(w.(value := w.value.(phase := phase, status := status, error := error)));
  }

  lemma ReachTamed(w: World, phase: Phase)
    requires CrashOnly(w.script)
    ensures var r, v := Reach(w, phase), w.value.(phase := phase, status := Running, error := None);
      && Tamed(w, r) && !r.Unknown?
      && r.w == w.(script := r.w.script, phase := phase, value := v, stored := r.w.stored)
      && (if r.Ok? then r.w.stored == Some(v) else r.w.stored in {w.stored, Some(v)})
  {
    WriteTamed(w.(phase := phase), phase, Running, None);
  }

  // ---------------------------------------------------------------- where a crash can leave an attempt

  const MIGRATED := Host(Applied, Down, Current, None, None, Target, 1)
  const SWAPPED := Host(Applied, Down, Candidate, Some(Current), Some(0), Target, 1)
  const STARTED := SWAPPED.(service := Up(Candidate))
  const FINISHED := STARTED.(gate := Absent)

  function Old(db: Revision): Host { Host(Absent, Up(Current), Current, None, None, db, 0) }
  function Held(db: Revision): Host { Old(db).(gate := Applied, service := Down) }
  function Outcome(db: Revision): Mark { if db == Target then NoEffect else Applied_ }

  /** The hosts a receipt at phase `p` can stand for. */
  predicate At(p: Phase, h: Host, db: Revision) {
    match p
    case Preflight => h == Old(db)
    case Prepared => h == Old(db).(gate := h.gate)
    case Gated => h == Old(db).(gate := Applied, service := h.service) && h.service in {Down, Up(Current)}
    case Stopped => h == Held(db)
    case UpgradePending => h in {Held(db), MIGRATED}
    case Upgraded => h in {MIGRATED, MIGRATED.(snapshot := Some(0))}
    case Snapshotted => h in {MIGRATED.(snapshot := Some(0)), SWAPPED}
    case Swapped => h in {SWAPPED, STARTED}
    case Started => h in {STARTED, FINISHED}
    case Ungated => h in {STARTED, FINISHED}
    case Complete => h == FINISHED
    case _ => false
  }

  predicate Proofs(p: Phase, v: Record, db: Revision) {
    && (p == Preflight || v.image.Some?)
    && (p in {Snapshotted, Swapped, Started, Ungated, Complete} ==> v.snapshot == Some(0))
    && v.mark == (if p in {Preflight, Prepared, Gated, Stopped} then NotStarted
                  else if p == UpgradePending then Pending else Outcome(db))
    && v.probe in {None, Some(0)}
  }

  /** Every durable state that crashes can leave behind, for an attempt that found database `db`. */
  predicate Survivable(stored: Option<Record>, h: Host, db: Revision) {
    match stored
    case None => h == Old(db)
    case Some(v) =>
      && At(v.phase, h, db) && Proofs(v.phase, v, db)
      && (v.phase == Gated ==> v.error != Some(GateAbortUnknown))
      && (if v.phase == Complete then v.status == Pass
          else v.status == Running || (v.phase in {UpgradePending, Ungated} && v.status == Unsettled))
  }

  // ---------------------------------------------------------------- the body under crashes

  /** Between two stages: the receipt is exactly what the process believes, and the host bears it out. */
  predicate Aligned(w: World, db: Revision) {
    && CrashOnly(w.script) && w.stored == Some(w.value) && w.value.phase == w.phase
    && Survivable(w.stored, w.host, db) && w.phase !in {UpgradePending, Complete}
    && (w.phase !in {Preflight, Prepared} ==> w.attempted)
    && (w.phase == Snapshotted ==> w.host.launcher == Current)
    && (w.phase == Started ==> w.host.gate == Applied)
    && (w.phase == Ungated ==> (w.retained <==> w.host.gate == Applied))
    && (w.retained ==> w.phase == Ungated)
  }

  /** A stage that either moved on or crashed into a survivable state. */
  predicate Healthy<T>(w: World, r: Res<T>, db: Revision) {
    Tamed(w, r) && !r.Unknown? && Survivable(r.w.stored, r.w.host, db) && (r.Ok? ==> Aligned(r.w, db))
  }

  lemma PrepareTamed(w: World)
    requires CrashOnly(w.script)
    ensures Tamed(w, PrepareOp(w)) && Still(w, PrepareOp(w).w)
    ensures w.host.service.Up? ==> !PrepareOp(w).Unknown?
    ensures PrepareOp(w).Ok? ==> PrepareOp(w).value == 0
  {
    NextTame(w);
  }

  lemma PrepareHealthy(w: World, db: Revision)
    requires Aligned(w, db)
    ensures Healthy(w, StagePrepare(w), db)
    ensures StagePrepare(w).Ok? ==> StagePrepare(w).w.phase != Preflight
  {
    if w.phase == Preflight {
      hide Look, PrepareOp, Reach;
      LookTamed(w, CurrentIsPublic(w.host));
      var r := CurrentPublicReady(w);
      if r.Ok? {
        PrepareTamed(r.w);
        var p := PrepareOp(r.w);
        if p.Ok? { ReachTamed(p.w.(value := p.w.value.(image := Some(p.value))), Prepared); }
      }
    }
  }

  lemma GateHealthy(w: World, db: Revision)
    requires Aligned(w, db) && w.phase != Preflight
    ensures Healthy(w, StageGate(w), db)
    ensures StageGate(w).Ok? ==> StageGate(w).w.phase !in {Preflight, Prepared}
  {
    if w.phase == Prepared {
      hide Act, Reach;
      ActTamed(w.(attempted := true), w.host, w.host.(gate := Applied));
      var g := GateOp(w.(attempted := true));
      if g.Ok? { ReachTamed(g.w, Gated); }
    }
  }

  lemma StopHealthy(w: World, db: Revision)
    requires Aligned(w, db) && w.phase !in {Preflight, Prepared}
    ensures Healthy(w, StageStop(w), db)
    ensures StageStop(w).Ok? ==> StageStop(w).value.None? && StageStop(w).w.phase !in {Preflight, Prepared, Gated}
  {
    if w.phase == Gated {
      hide Look, Act, Reach, Abort;
      LookTamed(w, w.host.gate == Applied);
      var s := PublicGated(w);
      if s.Ok? {
        ActTamed(s.w, s.w.host, s.w.host.(service := Down));
        var r := StopOp(s.w);
        if r.Ok? { ReachTamed(r.w, Stopped); }
      }
    }
  }

  lemma UpgradeTamed(w: World)
    requires CrashOnly(w.script) && w.host.service == Down && w.host.gate == Applied && w.host.upgrades == 0
    ensures var r, done := UpgradeOp(w), w.host.(upgrades := 1, database := Target);
      && Tamed(w, r) && !r.Unknown? && r.w == w.(script := r.w.script, host := r.w.host)
      && (if r.Ok? then r.w.host == done && r.value == Outcome(w.host.database) else r.w.host in {w.host, done})
  {
    NextTame(w);
  }

  /** The three durable states around the upgrade. */
  lemma UpgradeStates(v: Record, db: Revision)
    requires v.image.Some? && v.probe in {None, Some(0)}
    ensures forall e :: var p := v.(mark := Pending, phase := UpgradePending, status := Running, error := e);
      Survivable(Some(p), Held(db), db) && Survivable(Some(p), MIGRATED, db)
    ensures forall m, e :: m == Outcome(db) ==>
      Survivable(Some(v.(mark := m, phase := Upgraded, status := Running, error := e)), MIGRATED, db)
  {}

  lemma UpgradeHealthy(w: World, db: Revision)
    requires Aligned(w, db) && w.phase !in {Preflight, Prepared, Gated}
    ensures Healthy(w, StageUpgrade(w), db)
    ensures StageUpgrade(w).Ok? ==> StageUpgrade(w).w.phase !in {Preflight, Prepared, Gated, Stopped}
  {
    if w.phase == Stopped {
      UpgradeStates(w.value, db);
      assert w.host == Held(db);
      hide UpgradeOp, Reach, At, Proofs;
      var intent := w.(value := w.value.(mark := Pending));
      ReachTamed(intent, UpgradePending);
      var r := Reach(intent, UpgradePending);
      if r.Ok? {
        UpgradeTamed(r.w);
        var u := UpgradeOp(r.w);
        if u.Ok? { ReachTamed(u.w.(value := u.w.value.(mark := u.value)), Upgraded); }
      }
    }
  }

  lemma SnapshotTamed(w: World)
    requires CrashOnly(w.script)
    ensures var r, taken := SnapshotOp(w), w.host.(snapshot := Some(0));
      && Tamed(w, r) && !r.Unknown? && r.w == w.(script := r.w.script, host := r.w.host)
      && (if r.Ok? then r.w.host == taken else r.w.host in {w.host, taken})
    ensures var r := SnapshotDigestOp(w);
      && Tamed(w, r) && Still(w, r.w)
      && (w.host.snapshot.Some? ==> !r.Unknown? && (r.Ok? ==> r.value == w.host.snapshot.value))
  {
    NextTame(w);
  }

  lemma SnapshotHealthy(w: World, db: Revision)
    requires Aligned(w, db) && w.phase !in {Preflight, Prepared, Gated, Stopped}
    ensures Healthy(w, StageSnapshot(w), db)
    ensures StageSnapshot(w).Ok? ==> StageSnapshot(w).w.phase !in {Preflight, Prepared, Gated, Stopped, Upgraded}
  {
    if w.phase == Upgraded {
      hide SnapshotOp, SnapshotDigestOp, Reach;
      SnapshotTamed(w);
      var r := SnapshotOp(w);
      if r.Ok? {
        SnapshotTamed(r.w);
        var d := SnapshotDigestOp(r.w);
        if d.Ok? { ReachTamed(d.w.(value := d.w.value.(snapshot := Some(d.value))), Snapshotted); }
      }
    }
  }

  lemma SwapHealthy(w: World, db: Revision)
    requires Aligned(w, db) && w.phase in {Snapshotted, Swapped, Started, Ungated}
    ensures Healthy(w, StageSwap(w), db)
    ensures StageSwap(w).Ok? ==> StageSwap(w).w.phase in {Swapped, Started, Ungated}
  {
    if w.phase == Snapshotted {
      hide Act, Reach;
      var copied := w.host.(backup := Some(w.host.launcher));
      ActTamed(w, copied, copied.(launcher := Candidate));
      var r := SwapOp(w);
      if r.Ok? { ReachTamed(r.w, Swapped); }
    }
  }

  lemma StartHealthy(w: World, db: Revision)
    requires Aligned(w, db) && w.phase in {Swapped, Started, Ungated}
    ensures Healthy(w, StageStart(w), db)
    ensures StageStart(w).Ok? ==> StageStart(w).w.phase in {Started, Ungated}
  {
    if w.phase == Swapped {
      hide Act, Reach;
      ActTamed(w, w.host, w.host.(service := if w.host.service.Up? then w.host.service else Up(w.host.launcher)));
      var r := StartOp(w);
      if r.Ok? { ReachTamed(r.w, Started); }
    }
  }

  /** The re-gate detour: the gate is already gone, but an upgrade without effect must be re-proved behind it. */
  predicate Detour(stored: Option<Record>, h: Host) {
    stored.Some? && stored.value.mark == NoEffect && stored.value.phase in {Started, Ungated} && h.gate == Absent
  }

  lemma BoundaryTamed(w: World)
    requires CrashOnly(w.script)
    ensures Tamed(w, Boundary(w)) && Still(w, Boundary(w).w)
    ensures w.host.gate == Applied ==> !Boundary(w).Unknown?
    ensures w.host.gate != Applied ==> !Boundary(w).Ok?
  {
    hide Look, Read;
    LookTamed(w, w.host.gate == Applied);
    var e := GateExact(w);
    if e.Ok? { LookTamed(e.w, e.w.host.gate == Applied); }
  }

  lemma SemanticTamed(w: World)
    requires CrashOnly(w.script)
    ensures Tamed(w, SemanticOp(w)) && Still(w, SemanticOp(w).w) && !SemanticOp(w).Unknown?
    ensures SemanticOp(w).Ok? ==> SemanticOp(w).value == 0
  {
    NextTame(w);
  }

  lemma SemanticHealthy(w: World, db: Revision)
    requires Aligned(w, db) && w.phase in {Started, Ungated}
    ensures var r := StageSemantic(w);
      && Tamed(w, r) && Survivable(r.w.stored, r.w.host, db) && (r.Ok? ==> Aligned(r.w, db))
      && r.w.phase == w.phase && r.w.host == w.host
      && (Detour(w.stored, w.host) ==> !r.Ok? && (r.Unknown? ==> r.w == w.(script := r.w.script)))
      && (!Detour(w.stored, w.host) ==> !r.Unknown?)
  {
    hide Boundary, SemanticOp, Reach, At;
    if w.value.mark == NoEffect {
      BoundaryTamed(w);
      var r := Boundary(w);
      if r.Ok? {
        SemanticTamed(r.w);
        var p := SemanticOp(r.w);
        if p.Ok? { ReachTamed(p.w.(value := p.w.value.(probe := Some(p.value))), p.w.phase); }
      }
    }
  }

  lemma UngateHealthy(w: World, db: Revision)
    requires Aligned(w, db) && w.phase in {Started, Ungated}
    ensures var r := StageUngate(w);
      && Tamed(w, r) && !r.Unknown? && Survivable(r.w.stored, r.w.host, db)
      && (r.Ok? ==> r.w.host == FINISHED && r.w.stored == Some(r.w.value) && r.w.phase == Ungated == r.w.value.phase)
  {
    if w.phase == Started || w.retained {
      hide Boundary, Act, Reach;
      BoundaryTamed(w);
      var r := Boundary(w);
      if r.Ok? {
        ActTamed(r.w, r.w.host, r.w.host.(gate := Absent));
        var u := UngateOp(r.w);
        if u.Ok? { ReachTamed(u.w, Ungated); }
      }
    }
  }

  lemma CompleteHealthy(w: World, db: Revision)
    requires CrashOnly(w.script) && w.host == FINISHED && w.phase == Ungated == w.value.phase
    requires w.stored == Some(w.value) && Survivable(w.stored, w.host, db)
    ensures var r := Write(w, Complete, Pass, None);
      Tamed(w, r) && !r.Unknown? && Survivable(r.w.stored, r.w.host, db) && r.w.host == FINISHED
  {
    WriteTamed(w, Complete, Pass, None);
    hide Write;
  }

  /** The end of the body: PASS on the finished host, or the detour's boundary check gives up unchanged. */
  predicate Ends(w: World, r: Res<Status>, db: Revision) {
    && Tamed(w, r) && Survivable(r.w.stored, r.w.host, db)
    && (r.Ok? ==> r.value == Pass && r.w.host == FINISHED)
  }

  /** A body part either takes the detour and gives up unchanged, or ends without any doubt. */
  predicate EndsUnlessDetour(w: World, r: Res<Status>, db: Revision) {
    && Ends(w, r, db)
    && (if Detour(w.stored, w.host) then !r.Ok? && (r.Unknown? ==> r.w == w.(script := r.w.script)) else !r.Unknown?)
  }

  lemma FinishHealthy(w: World, db: Revision)
    requires Aligned(w, db) && w.phase in {Started, Ungated}
    ensures EndsUnlessDetour(w, Finish(w), db)
  {
    FinishServes(w, db);
    hide Look, StageSemantic, StageUngate, Write, Survivable, Aligned, Detour;
    LookTamed(w, CandidateServes(w.host));
    var l := LocalReady(w);
    if l.Ok? {
      FinishServes(l.w, db);
      StillAligned(w, l.w, db);
      SemanticHealthy(l.w, db);
      var s := StageSemantic(l.w);
      if s.Ok? {
        UngateHealthy(s.w, db);
        var u := StageUngate(s.w);
        if u.Ok? {
          LookTamed(u.w, IsPublic(u.w.host));
          var p := PublicReady(u.w);
          if p.Ok? { CompleteHealthy(p.w, db); }
        }
      }
    }
  }

  lemma FinishServes(w: World, db: Revision)
    requires Aligned(w, db) && w.phase in {Started, Ungated}
    ensures CandidateServes(w.host) && Survivable(w.stored, w.host, db) && CrashOnly(w.script)
  {}

  lemma StillAligned(w: World, v: World, db: Revision)
    requires Aligned(w, db) && Still(w, v) && CrashOnly(v.script)
    ensures Aligned(v, db)
  {}

  /** The part of the body that follows the snapshot. */
  function Launch(w: World): Res<Status> {
    var (w, _) :- StageSwap(w);
    var (w, _) :- StageStart(w);
    Finish(w)
  }

  lemma LaunchHealthy(w: World, db: Revision)
    requires Aligned(w, db) && w.phase in {Snapshotted, Swapped}
    ensures Ends(w, Launch(w), db) && !Launch(w).Unknown?
  {
    SwapHealthy(w, db);
    StagePhases(w);
    hide StageSwap, StageStart, Finish, Aligned, Survivable, Detour;
    var p := StageSwap(w);
    if p.Ok? {
      StartHealthy(p.w, db);
      StagePhases(p.w);
      var t := StageStart(p.w);
      if t.Ok? {
        GatedStart(t.w, db);
        FinishHealthy(t.w, db);
      }
    }
  }

  lemma ReplaceHealthy(w: World, db: Revision)
    requires Aligned(w, db) && w.phase !in {Preflight, Prepared, Gated}
    ensures EndsUnlessDetour(w, Replace(w), db)
  {
    LatePhase(w, db);
    if w.phase in {Started, Ungated} {
      FinishHealthy(w, db);
      hide Finish, Aligned, Survivable;
      assert Replace(w) == Finish(w);
    } else {
      NoDetour(w, db);
      EarlyHealthy(w, db);
      hide Replace, Aligned, Survivable, Detour;
    }
  }

  /** A run that has not started the candidate yet cannot end in doubt. */
  lemma EarlyHealthy(w: World, db: Revision)
    requires Aligned(w, db) && w.phase in {Stopped, Upgraded, Snapshotted, Swapped}
    ensures Ends(w, Replace(w), db) && !Replace(w).Unknown?
  {
    UpgradeHealthy(w, db);
    StagePhases(w);
    hide StageUpgrade, StageSnapshot, StageSwap, StageStart, Finish, Aligned, Survivable;
    var u := StageUpgrade(w);
    if u.Ok? {
      SnapshotHealthy(u.w, db);
      StagePhases(u.w);
      var s := StageSnapshot(u.w);
      if s.Ok? {
        LaunchHealthy(s.w, db);
        assert Replace(w) == Launch(s.w);
        hide Launch, Replace;
      }
    }
  }

  lemma LatePhase(w: World, db: Revision)
    requires Aligned(w, db)
    ensures w.phase in {Preflight, Prepared, Gated, Stopped, Upgraded, Snapshotted, Swapped, Started, Ungated}
  {}

  lemma NoDetour(w: World, db: Revision)
    requires Aligned(w, db) && w.phase !in {Started, Ungated}
    ensures !Detour(w.stored, w.host)
  {}

  /** A run that starts the candidate itself does so behind the gate, and takes no detour. */
  lemma GatedStart(w: World, db: Revision)
    requires Aligned(w, db) && w.phase == Started
    ensures !Detour(w.stored, w.host)
  {}

  lemma FrontHealthy(w: World, db: Revision)
    requires Aligned(w, db)
    ensures Healthy(w, Front(w), db)
    ensures Front(w).Ok? ==> Front(w).value.None? && Front(w).w.phase !in {Preflight, Prepared, Gated}
    ensures w.phase !in {Preflight, Prepared, Gated} ==> Front(w) == Ok(w, None)
    ensures w.phase in {Preflight, Prepared, Gated} && Front(w).Ok? ==> Front(w).w.phase == Stopped
  {
    hide Aligned, Survivable, StagePrepare, StageGate, StageStop;
    FrontPhases(w);
    FrontSkips(w);
    PrepareHealthy(w, db);
    LatePhase(w, db);
    var p := StagePrepare(w);
    if p.Ok? {
      FrontPhases(p.w);
      GateHealthy(p.w, db);
      var g := StageGate(p.w);
      if g.Ok? {
        FrontPhases(g.w);
        StopHealthy(g.w, db);
      }
    }
  }

  lemma FrontSkips(w: World)
    ensures w.phase !in {Preflight, Prepared, Gated} ==> Front(w) == Ok(w, None)
  {}

  /** A durable state a run may continue from on its own. */
  predicate Continues(w: World, db: Revision) {
    && CrashOnly(w.script) && w.stored == Some(w.value) && w.value.phase == w.phase
    && Survivable(w.stored, w.host, db) && w.phase !in {UpgradePending, Complete}
    && !w.retained && (w.attempted <==> w.phase !in {Preflight, Prepared})
  }

  /** Reconciliation always classifies a survivable state. */
  lemma ClassifySurvivable(w: World, db: Revision)
    requires Continues(w, db)
    ensures var seen := Classify(w.host, w.phase, w.value.snapshot);
      && seen.Some?
      && (w.phase == Prepared ==> seen.value.phase == if w.host.gate == Applied then Gated else Prepared)
  {}

  /** Taking over the proven phase makes memory, receipt and host agree. */
  lemma AdoptHealthy(w: World, seen: Observation, db: Revision)
    requires Continues(w, db) && Classify(w.host, w.phase, w.value.snapshot) == Some(seen)
    ensures Healthy(w, Adopt(w, seen), db)
    ensures var r := Adopt(w, seen); r.Ok? ==>
      && r.value == seen.phase && r.w.host == w.host
      && (Detour(r.w.stored, r.w.host) <==> Detour(w.stored, w.host))
      && (r.w.phase == Prepared <==> w.phase == Prepared)
      && (w.phase == Prepared ==> (r.w.attempted <==> seen.phase == Gated))
  {
    var v := w.(retained := seen.retained,
                value := if seen.snapshot.Some? then w.value.(snapshot := seen.snapshot) else w.value);
    SeenAligned(w, seen, db);
    ReachTamed(v, seen.phase);
    hide Reach, Classify, At, Proofs;
  }

  /** The state an adopted phase describes, once it is recorded. */
  lemma SeenAligned(w: World, seen: Observation, db: Revision)
    requires Continues(w, db) && Classify(w.host, w.phase, w.value.snapshot) == Some(seen)
    ensures var v := w.value.(snapshot := if seen.snapshot.Some? then seen.snapshot else w.value.snapshot,
                              phase := seen.phase, status := Running, error := None);
      && (w.phase == Prepared ==> seen.phase in {Prepared, Gated} && seen.snapshot.None?)
      && (w.phase != Prepared ==> Survivable(Some(v), w.host, db))
      && seen.phase !in {UpgradePending, Complete} && (seen.phase == Prepared ==> w.phase == Prepared)
      && (seen.phase == Snapshotted ==> w.host.launcher == Current)
      && (seen.phase == Started ==> w.host.gate == Applied)
      && (seen.phase == Ungated ==> (seen.retained <==> w.host.gate == Applied))
      && (seen.retained ==> seen.phase == w.phase == Ungated && seen.snapshot.None?)
      && (seen.phase in {Started, Ungated} && w.host.gate == Absent
          <==> w.phase in {Started, Ungated} && w.host.gate == Absent)
      && (seen.phase == Preflight ==> w.phase == Preflight)
  {}

  lemma ReconcileTamed(w: World, db: Revision)
    requires Continues(w, db)
    ensures var r := ReconcileOp(w, w.phase, w.value.snapshot);
      && Tamed(w, r) && Still(w, r.w) && !r.Unknown? && Continues(r.w, db)
      && (r.Ok? ==> Classify(w.host, w.phase, w.value.snapshot) == Some(r.value))
  {
    NextTame(w);
    ClassifySurvivable(w, db);
    hide Classify, Survivable;
  }

  lemma ResumeHealthy(w: World, db: Revision)
    requires Continues(w, db)
    ensures Healthy(w, BeginResumed(w), db)
    ensures var r := BeginResumed(w); r.Ok? ==>
      && (Detour(r.w.stored, r.w.host) <==> Detour(w.stored, w.host))
      && (r.w.phase == Prepared <==> w.phase == Prepared)
      && (w.phase == Prepared ==>
            r.value in {Prepared, Gated} && (r.value == Gated ==> r.w.attempted && r.w.host.gate == Applied))
  {
    ReconcileTamed(w, db);
    ContinuesMeans(w, db);
    ClassifySurvivable(w, db);
    hide ReconcileOp, Adopt, Classify, Survivable, Continues;
    var r := ReconcileOp(w, w.phase, w.value.snapshot);
    if r.Ok? { AdoptHealthy(r.w, r.value, db); }
  }

  lemma ContinuesMeans(w: World, db: Revision)
    requires Continues(w, db)
    ensures Survivable(w.stored, w.host, db)
  {}

  lemma FreshHealthy(w: World, db: Revision)
    requires CrashOnly(w.script) && w.host == Old(db) && w.stored.None? && !w.retained && w.phase == Preflight
             && w.value == FRESH
    ensures Healthy(w, BeginFresh(w), db)
            && (BeginFresh(w).Ok? ==> BeginFresh(w).w.phase == Preflight == BeginFresh(w).value)
  {
    ReachTamed(w, Preflight);
    hide Reach;
    var o := Reach(w, Preflight);
    if o.Ok? { NextTame(o.w); }
  }

  lemma ReprepareHealthy(w: World, resume: bool, seen: Phase, db: Revision)
    requires Aligned(w, db)
    requires resume ==> w.phase == Prepared && seen in {Prepared, Gated}
    requires resume && seen == Gated ==> w.attempted && w.host.gate == Applied
    ensures Healthy(w, Reprepare(w, resume, seen), db)
    ensures !resume ==> Reprepare(w, resume, seen) == Ok(w, ())
    ensures Reprepare(w, resume, seen).Ok? && resume ==> Reprepare(w, resume, seen).w.phase in {Prepared, Gated}
  {
    if resume {
      hide Reach, PrepareOp;
      PrepareTamed(w);
      var p := PrepareOp(w);
      if p.Ok? { ReachTamed(p.w.(value := p.w.value.(image := Some(p.value))), seen); }
    }
  }

  /** A body that gave up, with the gate to be kept for whoever comes next. */
  predicate Lost(w: World, db: Revision) {
    && CrashOnly(w.script) && w.attempted && w.stored == Some(w.value) && w.value.phase == w.phase
    && w.phase in {UpgradePending, Ungated} && Survivable(w.stored, w.host, db)
  }

  lemma DetourIsLost(w: World, db: Revision, script: seq<Fate>)
    requires Aligned(w, db) && Detour(w.stored, w.host) && CrashOnly(script)
    ensures Lost(w.(script := script), db) && w.phase == Ungated
  {}

  /** A body settles, unless it takes the detour: then it gives up with the host as it found it. */
  predicate Settles(detour: bool, w: World, r: Res<Status>, db: Revision) {
    && Ends(w, r, db)
    && (if detour then !r.Ok? && (r.Unknown? ==> Lost(r.w, db) && r.w.phase == Ungated && r.w.host == w.host)
        else !r.Unknown?)
  }

  lemma MiddleHealthy(w: World, db: Revision)
    requires Aligned(w, db)
    ensures Settles(Detour(w.stored, w.host), w, Middle(w), db)
  {
    FrontHealthy(w, db);
    var f := Front(w);
    LatePhase(w, db);
    if w.phase !in {Started, Ungated} { NoDetour(w, db); }
    if f.Ok? {
      if f.w.phase !in {Started, Ungated} { NoDetour(f.w, db); }
      ReplaceHealthy(f.w, db);
      if Detour(f.w.stored, f.w.host) { DetourIsLost(f.w, db, Replace(f.w).w.script); }
    }
    hide Front, Replace, Aligned, Survivable, Detour, Lost;
  }

  lemma SameHost(w: World, db: Revision)
    requires Continues(w, db)
    ensures BeginResumed(w).w.host == w.host
    ensures !(w.phase == Gated && w.value.error == Some(GateAbortUnknown))
  {
    hide ReconcileOp, Classify;
    ReconcileStill(w);
  }

  lemma ResumedBodyHealthy(w: World, db: Revision)
    requires Continues(w, db)
    ensures Settles(Detour(w.stored, w.host), w, Body(w, true), db)
  {
    SameHost(w, db);
    ResumeHealthy(w, db);
    hide BeginResumed, Reprepare, Front, Replace, Abort, Aligned, Survivable, Detour, Lost, Continues;
    var g := BeginResumed(w);
    if g.Ok? {
      LatePhase(g.w, db);
      var resume := w.phase == Prepared;
      if resume { NoDetour(g.w, db); }
      ReprepareHealthy(g.w, resume, g.value, db);
      var r := Reprepare(g.w, resume, g.value);
      if r.Ok? {
        if resume { NoDetour(r.w, db); }
        MiddleHealthy(r.w, db);
        assert Body(w, true) == Middle(r.w);
        hide Body, Middle;
      }
    }
  }

  lemma FreshBodyHealthy(w: World, db: Revision)
    requires CrashOnly(w.script) && w.host == Old(db) && w.stored.None? && !w.retained && w.phase == Preflight
             && w.value == FRESH
    ensures Settles(false, w, Body(w, false), db)
  {
    FreshHealthy(w, db);
    hide BeginFresh, Reprepare, Front, Replace, Abort, Aligned, Survivable, Detour, Lost;
    var g := BeginFresh(w);
    if g.Ok? {
      NoDetour(g.w, db);
      ReprepareHealthy(g.w, false, g.value, db);
      MiddleHealthy(g.w, db);
      assert Body(w, false) == Middle(g.w);
      hide Body, Middle;
    }
  }

  lemma PendingBody(w: World)
    requires CrashOnly(w.script) && w.phase == UpgradePending
    ensures var r := Body(w, true); Tamed(w, r) && Still(w, r.w) && !r.Ok?
  {
    NextTame(w);
    PendingUnclassified(w);
  }

  // ---------------------------------------------------------------- keeping the gate

  lemma RetainTamed(w: World)
    requires CrashOnly(w.script)
    ensures var r := RetainGate(w);
      && Tamed(w, r) && !r.Unknown? && r.w == w.(script := r.w.script, host := r.w.host)
      && (if r.Ok? then r.w.host == w.host.(gate := Applied) else r.w.host in {w.host, w.host.(gate := Applied)})
  {
    hide Look, Read, Act;
    LookTamed(w, w.host.gate == Applied);
    var e := GateExact(w);
    if e.Ok? {
      ActTamed(e.w, e.w.host, e.w.host.(gate := Applied));
      var g := if e.value then Ok(e.w, ()) else GateOp(e.w);
      if g.Ok? {
        LookTamed(g.w, g.w.host.gate == Applied);
        var x := GateExact(g.w);
        if x.Ok? { LookTamed(x.w, x.w.host.gate == Applied); }
      }
    }
  }

  lemma OnUnknownHealthy(w: World, db: Revision)
    requires Lost(w, db)
    ensures var r := OnUnknown(w);
      && Tamed(w, r) && !r.Unknown? && Survivable(r.w.stored, r.w.host, db)
      && (r.Ok? ==> r.value == Unsettled && r.w.host == w.host.(gate := Applied)
                    && r.w.stored == Some(w.value.(status := Unsettled, error := Some(AmbiguousOutcome))))
  {
    RetainTamed(w);
    hide RetainGate, Write;
    var kept := RetainGate(w);
    if kept.Ok? { WriteTamed(kept.w, kept.w.phase, Unsettled, Some(AmbiguousOutcome)); }
  }

  // ---------------------------------------------------------------- one run

  predicate PendingUpgrade(stored: Option<Record>) { stored.Some? && stored.value.phase == UpgradePending }

  lemma OpenedContinues(host: Host, stored: Option<Record>, script: seq<Fate>, db: Revision)
    requires Survivable(stored, host, db) && CrashOnly(script) && stored.Some? && !Terminal(stored)
    ensures var w := Opened(host, stored, script);
      && (!PendingUpgrade(stored) ==> Continues(w, db))
      && (PendingUpgrade(stored) ==> Lost(w, db) && host.gate == Applied && !Detour(stored, host))
  {}

  lemma TerminalFinished(host: Host, stored: Option<Record>, db: Revision)
    requires Survivable(stored, host, db) && Terminal(stored)
    ensures stored.value.status == Pass && host == FINISHED && !PendingUpgrade(stored) && !Detour(stored, host)
  {}

  lemma FreshStart(host: Host, stored: Option<Record>, db: Revision)
    requires Survivable(stored, host, db) && stored.None?
    ensures host == Old(db) && !PendingUpgrade(stored) && !Detour(stored, host)
  {}

  lemma LostScript(w: World, v: World, db: Revision)
    requires Lost(w, db) && Still(w, v) && CrashOnly(v.script)
    ensures Lost(v, db) && Survivable(v.stored, v.host, db)
  {}

  /**
   What one run makes of a survivable state. It leaves a survivable state again; if it returns, a
   pending upgrade is left pending, a detour has put the gate back, and anything else is finished.
   */
  lemma RunHeals(host: Host, stored: Option<Record>, script: seq<Fate>, db: Revision)
    requires Survivable(stored, host, db) && CrashOnly(script)
    ensures var end := Deploy(host, stored, script);
      && Survivable(end.w.stored, end.w.host, db)
      && (script == [] ==> end.Returned?)
      && (end.Returned? ==>
            if PendingUpgrade(stored) then
              end.verdict == Unsettled && end.w.host == host && PendingUpgrade(end.w.stored)
            else if Detour(stored, host) then
              end.verdict == Unsettled && end.w.host == STARTED && !PendingUpgrade(end.w.stored)
            else end.verdict == Pass && end.w.host == FINISHED)
  {
    var w := Opened(host, stored, script);
    if Terminal(stored) {
      TerminalFinished(host, stored, db);
    } else if stored.None? {
      FreshStart(host, stored, db);
      FreshBodyHealthy(w, db);
      hide Body, Survivable, Detour;
    } else {
      OpenedContinues(host, stored, script, db);
      if PendingUpgrade(stored) {
        PendingBody(w);
        LostScript(w, Body(w, true).w, db);
        OnUnknownHealthy(Body(w, true).w, db);
        hide Body, OnUnknown, Survivable, Detour, Lost;
      } else {
        ResumedBodyHealthy(w, db);
        if Detour(stored, host) { DetourHost(host, stored, db); }
        hide Body, OnUnknown, Survivable, Detour, Lost, Continues;
        if Body(w, true).Unknown? {
          LostUngated(Body(w, true).w, db);
          OnUnknownHealthy(Body(w, true).w, db);
        }
      }
    }
  }

  lemma DetourHost(host: Host, stored: Option<Record>, db: Revision)
    requires Survivable(stored, host, db) && Detour(stored, host)
    ensures host == FINISHED
  {}

  lemma LostUngated(w: World, db: Revision)
    requires Lost(w, db)
    ensures w.value.phase == w.phase
  {}

  // ---------------------------------------------------------------- whole histories

  /** Only runs and resumes that meet no fault but a crash. */
  predicate OnlyCrashes(events: seq<Event>) {
    forall i :: 0 <= i < |events| ==>
      (events[i].Run? || events[i].ResumeRun?) && events[i].readable && CrashOnly(events[i].script)
  }

  lemma SurvivableReadable(stored: Option<Record>, h: Host, db: Revision)
    requires Survivable(stored, h, db)
    ensures Readable(stored)
  {}

  /** Without a fault, validating before resuming changes nothing but the script. */
  lemma ValidateTamed(w: World, db: Revision)
    requires CrashOnly(w.script) && Survivable(Some(w.value), w.host, db)
    ensures var r := ValidateResume(w);
      && CrashOnly(r.w.script) && Still(w, r.w)
      && (w.script == [] ==> r.Ok? && r.value && r.w.script == [])
  {
    hide Look, Read;
    NextTame(w);
    if w.value.status == Pass {
      var r := ReconcileOp(w, Complete, w.value.snapshot);
      assert CrashOnly(r.w.script);
      LookTamed(r.w, IsPublic(r.w.host));
    } else {
      LookTamed(w, true);
    }
  }

  lemma EventSurvives(host: Host, stored: Option<Record>, e: Event, db: Revision)
    requires Survivable(stored, host, db) && OnlyCrashes([e])
    ensures Survivable(After(host, stored, e).1, After(host, stored, e).0, db)
  {
    assert e == [e][0];
    SurvivableReadable(stored, host, db);
    hide Survivable, Deploy, ValidateResume;
    var w := Opened(host, stored, e.script);
    RunHeals(host, stored, e.script, db);
    if e.ResumeRun? && stored.Some? {
      ValidateTamed(w, db);
      RunHeals(host, stored, ValidateResume(w).w.script, db);
    }
  }

  lemma {:induction false} CrashesSurvive(host: Host, stored: Option<Record>, events: seq<Event>, db: Revision)
    requires Survivable(stored, host, db) && OnlyCrashes(events)
    ensures var (h, s) := History(host, stored, events); Survivable(s, h, db)
    decreases |events|
  {
    hide Survivable, After;
    if events != [] {
      assert OnlyCrashes([events[0]]);
      EventSurvives(host, stored, events[0], db);
      var (h, s) := After(host, stored, events[0]);
      assert OnlyCrashes(events[1..]);
      CrashesSurvive(h, s, events[1..], db);
    }
  }

  /** The run nothing interrupts. */
  function Uninterrupted(db: Revision): End { Deploy(Old(db), None, []) }

  lemma UninterruptedPasses(db: Revision)
    ensures Uninterrupted(db).Returned? && Uninterrupted(db).verdict == Pass
            && EdgeTruth.Serving(Uninterrupted(db).w.host)
    ensures Uninterrupted(db).w.host == FINISHED
  {
    RunHeals(Old(db), None, [], db);
    hide Deploy;
  }

  /**
   The main theorem on healing. However often crashes interrupt an attempt, either its upgrade is
   pending, and every further run keeps it so; or the next undisturbed run passes; or, when the gate
   already went after an upgrade without effect, that run puts the gate back and the one after it
   passes. Passing always ends on the host of an uninterrupted run.
   */
  lemma AtMostTwoRunsHeal(events: seq<Event>, db: Revision)
    requires OnlyCrashes(events)
    ensures var (h, s) := History(Old(db), None, events);
      var first := Deploy(h, s, []);
      var second := Deploy(first.w.host, first.w.stored, []);
      && first.Returned? && second.Returned?
      && (PendingUpgrade(s) ==> first.verdict == Unsettled && first.w.host == h && PendingUpgrade(first.w.stored))
      && (!PendingUpgrade(s) ==> second.verdict == Pass && second.w.host == Uninterrupted(db).w.host)
      && (first.verdict == Pass <==> !PendingUpgrade(s) && !Detour(s, h))
      && (first.verdict == Pass ==> first.w.host == Uninterrupted(db).w.host)
  {
    CrashesSurvive(Old(db), None, events, db);
    UninterruptedPasses(db);
    var (h, s) := History(Old(db), None, events);
    hide Deploy, History, Survivable, Detour, Uninterrupted;
    TwoRuns(h, s, db);
  }

  /** Two undisturbed runs from a survivable state. */
  lemma TwoRuns(h: Host, s: Option<Record>, db: Revision)
    requires Survivable(s, h, db)
    ensures var first := Deploy(h, s, []);
      var second := Deploy(first.w.host, first.w.stored, []);
      && first.Returned? && second.Returned?
      && (PendingUpgrade(s) ==> first.verdict == Unsettled && first.w.host == h && PendingUpgrade(first.w.stored))
      && (!PendingUpgrade(s) ==> second.verdict == Pass && second.w.host == FINISHED)
      && (first.verdict == Pass <==> !PendingUpgrade(s) && !Detour(s, h))
      && (first.verdict == Pass ==> first.w.host == FINISHED)
  {
    RunHeals(h, s, [], db);
    SurvivableProtocol(s, h, db);
    DeployKeeps(h, s, []);
    var first := Deploy(h, s, []);
    RunHeals(first.w.host, first.w.stored, [], db);
    if first.verdict == Pass {
      TerminalStays(first.w.host, first.w.stored, []);
    }
    GateUpNoDetour(first.w.stored);
    hide Deploy, Survivable, Protocol;
  }

  lemma SurvivableProtocol(stored: Option<Record>, h: Host, db: Revision)
    requires Survivable(stored, h, db)
    ensures Protocol(h, stored)
  {}

  lemma GateUpNoDetour(stored: Option<Record>)
    ensures !Detour(stored, STARTED)
  {}

  /** Resuming from the command line does in such a state exactly what a run does. */
  lemma CalmResumeIsRun(host: Host, stored: Option<Record>, db: Revision)
    requires Survivable(stored, host, db) && stored.Some?
    ensures Resume(host, stored, []) == Deploy(host, stored, [])
  {
    ValidateTamed(Opened(host, stored, []), db);
    hide ValidateResume, Deploy, Survivable;
  }
}