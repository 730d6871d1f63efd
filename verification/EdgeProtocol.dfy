/**
 The write-ahead protocol of an attempt: the shared-state upgrade runs at most once over any
 sequence of runs, every receipt that can become durable is one a later run accepts, and a
 terminal receipt is final. Nothing here trusts the host: between runs it may change at will.
 */
module EdgeProtocol {
  import opened Prelude
  import opened EdgeHost
  import opened EdgeDeploy

  /** The durable receipt bounds how often the upgrade was invoked. */
  predicate Once(stored: Option<Record>, upgrades: nat) {
    && upgrades <= 1
    && (stored.None? || (stored.value.mark == NotStarted && stored.value.phase != NoEffectProven) ==> upgrades == 0)
  }

  /** A gated receipt of an attempt that never prepared the upgrade; it may only be aborted. */
  predicate Unprepared(stored: Option<Record>) {
    stored.Some? && stored.value.phase == Gated && stored.value.image.None?
  }

  predicate Protocol(host: Host, stored: Option<Record>) {
    && Once(stored, host.upgrades)
    && (stored.Some? ==> Accepted(stored.value))
    && (Unprepared(stored) ==> host.service.Up?)
  }

  /** The same while a run is under way: the value in memory can be written under the current phase. */
  predicate Mid(w: World) {
    && Protocol(w.host, w.stored)
    && w.phase !in {Complete, RolledBack, NoEffectProven} && Suits(w.phase, w.value)
    && (w.value.mark == NotStarted ==> w.host.upgrades == 0)
    && (Unprepared(w.stored) ==> w.value.image.None? && w.phase == Gated)
    && (w.value.image.None? && w.phase == Gated ==> w.host.service.Up?)
  }

  /** A host change that cannot disturb the protocol: no upgrade, and no stop of an unprepared attempt. */
  predicate Harmless(w: World, v: World) {
    Framed(w, v) && v.host.upgrades == w.host.upgrades && (v.host.service == w.host.service || w.value.image.Some?)
  }

  lemma HarmlessKeeps(w: World, v: World)
    requires Mid(w) && Harmless(w, v)
    ensures Mid(v)
  {}

  // ---------------------------------------------------------------- receipts

  lemma WriteKeeps(w: World, phase: Phase, status: Status, error: Option<Trouble>)
    requires Mid(w) && phase != NoEffectProven && (phase == Gated ==> w.phase == Gated)
    requires Accepted(w.value.(phase := phase, status := status, error := error))
    ensures Mid(Write(w, phase, status, error).w)
    ensures Written(w, w.value.(phase := phase, status := status, error := error), Write(w, phase, status, error))
  {
    var v := w.value.(phase := phase, status := status, error := error);
    SameProofs(w.phase, w.value, v);
    hide Suits, Accepted, Write;
    var r := Write(w, phase, status, error);
    WriteStores(w, phase, status, error);
    assert Protocol(r.w.host, r.w.stored);
  }

  lemma WriteStores(w: World, phase: Phase, status: Status, error: Option<Trouble>)
    ensures var v, r := w.value.(phase := phase, status := status, error := error), Write(w, phase, status, error);
      Written(w, v, r) && r.w.stored in {w.stored, Some(v)}
  {}

  lemma SameProofs(p: Phase, v: Record, u: Record)
    requires u.mark == v.mark && u.image == v.image && u.snapshot == v.snapshot
    ensures Suits(p, u) == Suits(p, v)
  {}

  /** What a write leaves in the process, and, when it returns, on disk. */
  predicate Written<T>(w: World, v: Record, r: Res<T>) {
    && r.w == w.(value := v, stored := r.w.stored, torn := r.w.torn, script := r.w.script)
    && (r.Ok? ==> r.w.stored == Some(v))
  }

  lemma ReachKeeps(w: World, phase: Phase)
    requires Mid(w.(phase := phase))
    ensures Mid(Reach(w, phase).w)
    ensures Written(w.(phase := phase), w.value.(phase := phase, status := Running, error := None), Reach(w, phase))
  {
    WriteKeeps(w.(phase := phase), phase, Running, None);
  }

  lemma BoundaryStill(w: World)
    ensures Still(w, Boundary(w).w) && (Boundary(w).Ok? ==> w.host.gate == Applied)
  {
    hide Look, Read;
    ReadStill(w, w.host.gate == Applied);
    var e := GateExact(w);
    if e.Ok? { LookStill(e.w, e.w.host.gate == Applied); }
  }

  lemma RetainFrames(w: World)
    ensures Framed(w, RetainGate(w).w) && !RetainGate(w).Failed?
    ensures RetainGate(w).w.host in {w.host, w.host.(gate := Applied)}
    ensures RetainGate(w).Ok? ==> RetainGate(w).w.host.gate == Applied
  {
    hide Look, Read, Act;
    ReadStill(w, w.host.gate == Applied);
    var e := GateExact(w);
    if e.Ok? {
      ActFrames(e.w, e.w.host, e.w.host.(gate := Applied));
      var g := if e.value then Ok(e.w, ()) else GateOp(e.w);
      if g.Ok? {
        ReadStill(g.w, g.w.host.gate == Applied);
        var x := GateExact(g.w);
        if x.Ok? { LookStill(x.w, x.w.host.gate == Applied); }
      }
    }
  }

  lemma AbortTryFrames(w: World)
    ensures Framed(w, AbortTry(w).w) && AbortTry(w).w.host in {w.host, w.host.(gate := Absent)}
    ensures AbortTry(w).Ok? ==> CurrentServes(w.host) && AbortTry(w).w.host.gate == Absent
  {
    hide Look, Read, Act;
    LookStill(w, CurrentServes(w.host));
    var r := RollbackReady(w);
    if r.Ok? {
      ActFrames(r.w, r.w.host, r.w.host.(gate := Absent));
      var u := UngateOp(r.w);
      if u.Ok? { ReadStill(u.w, u.w.host.gate == Applied); }
    }
  }

  lemma AbortKeeps(w: World)
    requires Mid(w) && w.phase == Gated
    ensures Mid(Abort(w).w) && Abort(w).w.phase == Gated
    ensures Abort(w).Ok? ==> Agrees(Abort(w))
  {
    hide Write, AbortTry, Protocol, Look;
    AbortTryFrames(w);
    var tried := AbortTry(w);
    HarmlessKeeps(w, tried.w);
    if !tried.Crashed? {
      if !tried.Ok? {
        WriteKeeps(tried.w, Gated, Unsettled, Some(GateAbortUnknown));
      } else {
        LookStill(tried.w, IsPublic(tried.w.host));
        var seen := PublicReady(tried.w);
        HarmlessKeeps(tried.w, seen.w);
        WriteKeeps(seen.w, RolledBack, Fail, Some(PublicGateUnproven));
      }
    }
  }

  /** A verdict is only returned once the durable receipt says the same. */
  predicate Agrees(r: Res<Status>)
    requires r.Ok?
  {
    r.w.stored.Some? && r.w.stored.value.status == r.value && r.value != Running
  }

  // ---------------------------------------------------------------- the body, stage by stage

  /** A reconciled phase is the durable one or its proven successor, and never skips preparation. */
  lemma ClassifyFacts(h: Host, phase: Phase, snapshot: Option<Digest>)
    requires Classify(h, phase, snapshot).Some?
    ensures var seen := Classify(h, phase, snapshot).value;
      && (seen.phase == phase || (phase, seen.phase) in
            {(Preflight, Gated), (Prepared, Gated), (Gated, Stopped), (Upgraded, Snapshotted), (Snapshotted, Swapped),
             (Swapped, Started), (Started, Ungated)})
      && (seen.snapshot.Some? <==> phase == Upgraded && seen.phase == Snapshotted)
      && phase !in {UpgradePending, RolledBack, NoEffectProven}
      && (phase in {Preflight, Prepared} ==> h.service.Up?)
      && (seen.phase == Stopped && phase == Gated ==> h.service == Down)
      && (seen.phase in {Snapshotted, Swapped, Started, Ungated} && phase != Upgraded ==> snapshot.Some?)
  {}

  lemma ReconcileStill(w: World)
    ensures Still(w, ReconcileOp(w, w.phase, w.value.snapshot).w)
    ensures ReconcileOp(w, w.phase, w.value.snapshot).Ok? ==>
              Classify(w.host, w.phase, w.value.snapshot) == Some(ReconcileOp(w, w.phase, w.value.snapshot).value)
  {}

  lemma AdoptKeeps(w: World, seen: Observation)
    requires Mid(w) && Classify(w.host, w.phase, w.value.snapshot) == Some(seen)
    ensures Mid(Adopt(w, seen).w)
    ensures Adopt(w, seen).Ok? ==> Adopt(w, seen).w.phase == if w.phase == Prepared then Prepared else seen.phase
  {
    hide Write, Reach, Classify;
    ClassifyFacts(w.host, w.phase, w.value.snapshot);
    var v := w.(retained := seen.retained,
                value := if seen.snapshot.Some? then w.value.(snapshot := seen.snapshot) else w.value);
    if (seen.phase != w.phase || seen.snapshot.Some?) && w.phase != Prepared { ReachKeeps(v, seen.phase); }
  }

  lemma PreflightStill(w: World)
    ensures Still(w, PreflightOp(w).w) && (PreflightOp(w).Ok? ==> PreflightOk(w.host))
  {}

  lemma BeginKeeps(w: World, existing: bool)
    requires Mid(w) && (!existing ==> w.phase == Preflight)
    ensures Mid(Begin(w, existing).w)
    ensures var b := Begin(w, existing); b.Ok? ==>
      && b.value !in {Complete, RolledBack, NoEffectProven, UpgradePending}
      && b.w.phase == if existing && w.phase == Prepared then Prepared else b.value
    ensures Begin(w, existing).Ok? && existing && w.phase == Prepared ==> Begin(w, existing).value in {Prepared, Gated}
  {
    hide Write, Reach, ReconcileOp, Classify, PreflightOp, Adopt;
    if existing {
      ReconcileStill(w);
      var r := ReconcileOp(w, w.phase, w.value.snapshot);
      if r.Ok? {
        ClassifyFacts(w.host, w.phase, w.value.snapshot);
        AdoptKeeps(r.w, r.value);
        AdoptReports(r.w, r.value);
      }
    } else {
      ReachKeeps(w, w.phase);
      var o := Reach(w, w.phase);
      if o.Ok? { PreflightStill(o.w); }
    }
  }

  lemma AdoptReports(w: World, seen: Observation)
    ensures Adopt(w, seen).Ok? ==> Adopt(w, seen).value == seen.phase
  {
    hide Reach;
  }

  lemma PrepareStill(w: World)
    ensures Still(w, PrepareOp(w).w)
  {}

  lemma ReprepareKeeps(w: World, resume: bool, seen: Phase)
    requires Mid(w) && (resume ==> w.phase == Prepared && seen in {Prepared, Gated})
    ensures Mid(Reprepare(w, resume, seen).w)
  {
    hide Write, Reach, PrepareOp;
    if resume {
      PrepareStill(w);
      var r := PrepareOp(w);
      if r.Ok? { ReachKeeps(r.w.(value := r.w.value.(image := Some(r.value))), seen); }
    }
  }

  lemma PrepareKeeps(w: World)
    requires Mid(w)
    ensures Mid(StagePrepare(w).w)
  {
    hide Write, Reach, Look, PrepareOp;
    if w.phase == Preflight {
      LookStill(w, CurrentIsPublic(w.host));
      var r := CurrentPublicReady(w);
      if r.Ok? && r.value {
        PrepareStill(r.w);
        var p := PrepareOp(r.w);
        if p.Ok? { ReachKeeps(p.w.(value := p.w.value.(image := Some(p.value))), Prepared); }
      }
    }
  }

  lemma GateKeeps(w: World)
    requires Mid(w)
    ensures Mid(StageGate(w).w)
  {
    hide Write, Reach, Act;
    if w.phase == Prepared {
      ActFrames(w.(attempted := true), w.host, w.host.(gate := Applied));
      var r := GateOp(w.(attempted := true));
      if r.Ok? { ReachKeeps(r.w, Gated); }
    }
  }

  lemma StopKeeps(w: World)
    requires Mid(w)
    ensures Mid(StageStop(w).w)
    ensures StageStop(w).Ok? && StageStop(w).value.Some? ==> Agrees(Ok(StageStop(w).w, StageStop(w).value.value))
  {
    hide Write, Reach, Abort, Look, Act;
    if w.phase == Gated {
      if w.value.image.None? {
        AbortKeeps(w);
      } else {
        LookStill(w, w.host.gate == Applied);
        var seen := PublicGated(w);
        if !seen.Crashed? {
          if seen.Ok? && seen.value {
            ActFrames(seen.w, seen.w.host, seen.w.host.(service := Down));
            var r := StopOp(seen.w);
            if r.Ok? { ReachKeeps(r.w, Stopped); }
          } else {
            AbortKeeps(seen.w);
          }
        }
      }
    }
  }

  lemma UpgradeFrames(w: World)
    ensures Framed(w, UpgradeOp(w).w) && UpgradeOp(w).w.host.service == w.host.service
    ensures w.host.upgrades <= UpgradeOp(w).w.host.upgrades <= w.host.upgrades + 1
    ensures UpgradeOp(w).Ok? ==> UpgradeOp(w).value in {NoEffect, Applied_}
  {}

  /** The heart: the upgrade is reached only while none ran, and never without durable intent. */
  lemma UpgradeKeeps(w: World)
    requires Mid(w)
    ensures Mid(StageUpgrade(w).w)
  {
    hide Write, Reach, UpgradeOp;
    if w.phase == Stopped {
      var intent := w.(value := w.value.(mark := Pending));
      ReachKeeps(intent, UpgradePending);
      var r := Reach(intent, UpgradePending);
      if r.Ok? {
        UpgradeFrames(r.w);
        var u := UpgradeOp(r.w);
        if u.Ok? { ReachKeeps(u.w.(value := u.w.value.(mark := u.value)), Upgraded); }
      }
    }
  }

  lemma SnapshotFrames(w: World)
    ensures Framed(w, SnapshotOp(w).w) && SnapshotOp(w).w.host == w.host.(snapshot := SnapshotOp(w).w.host.snapshot)
    ensures Still(w, SnapshotDigestOp(w).w)
  {}

  lemma SnapshotKeeps(w: World)
    requires Mid(w)
    ensures Mid(StageSnapshot(w).w)
  {
    hide Write, Reach, SnapshotOp, SnapshotDigestOp;
    if w.phase == Upgraded {
      SnapshotFrames(w);
      var r := SnapshotOp(w);
      if r.Ok? {
        SnapshotFrames(r.w);
        var d := SnapshotDigestOp(r.w);
        if d.Ok? { ReachKeeps(d.w.(value := d.w.value.(snapshot := Some(d.value))), Snapshotted); }
      }
    }
  }

  lemma SwapStartKeep(w: World)
    requires Mid(w)
    ensures Mid(StageSwap(w).w) && Mid(StageStart(w).w)
  {
    hide Write, Reach, Act;
    var copied := w.host.(backup := Some(w.host.launcher));
    ActFrames(w, copied, copied.(launcher := Candidate));
    ActFrames(w, w.host, w.host.(service := if w.host.service.Up? then w.host.service else Up(w.host.launcher)));
    if w.phase == Snapshotted {
      var r := SwapOp(w);
      if r.Ok? { ReachKeeps(r.w, Swapped); }
    }
    if w.phase == Swapped {
      var r := StartOp(w);
      if r.Ok? { ReachKeeps(r.w, Started); }
    }
  }

  lemma SemanticStill(w: World)
    ensures Still(w, SemanticOp(w).w)
  {}

  lemma SemanticKeeps(w: World)
    requires Mid(w)
    ensures Mid(StageSemantic(w).w) && StageSemantic(w).w.phase == w.phase
    ensures StageSemantic(w).w.retained == w.retained && StageSemantic(w).w.host == w.host
  {
    hide Write, Reach, Boundary, SemanticOp;
    if w.value.mark == NoEffect {
      BoundaryStill(w);
      var b := Boundary(w);
      if b.Ok? {
        SemanticStill(b.w);
        var p := SemanticOp(b.w);
        if p.Ok? && p.w.value.probe.None? {
          ReachKeeps(p.w.(value := p.w.value.(probe := Some(p.value))), p.w.phase);
        }
      }
    }
  }

  lemma UngateKeeps(w: World)
    requires Mid(w) && w.phase in {Started, Ungated}
    ensures Mid(StageUngate(w).w) && StageUngate(w).w.phase in {Started, Ungated}
  {
    hide Write, Reach, Boundary, Act;
    if w.phase == Started || w.retained {
      BoundaryStill(w);
      var b := Boundary(w);
      if b.Ok? {
        ActFrames(b.w, b.w.host, b.w.host.(gate := Absent));
        var u := UngateOp(b.w);
        if u.Ok? { ReachKeeps(u.w, Ungated); }
      }
    }
  }

  lemma FinishKeeps(w: World)
    requires Mid(w) && w.phase in {Started, Ungated}
    ensures Mid(Finish(w).w)
    ensures Finish(w).Ok? ==> Agrees(Finish(w))
  {
    hide Write, StageSemantic, StageUngate, Reach, Look;
    LookStill(w, CandidateServes(w.host));
    var l := LocalReady(w);
    if l.Ok? && l.value {
      SemanticKeeps(l.w);
      var s := StageSemantic(l.w);
      if s.Ok? {
        UngateKeeps(s.w);
        var u := StageUngate(s.w);
        if u.Ok? {
          LookStill(u.w, IsPublic(u.w.host));
          var p := PublicReady(u.w);
          if p.Ok? && p.value { WriteKeeps(p.w, Complete, Pass, None); }
        }
      }
    }
  }

  /** Each stage is a no-op unless the phase is its own, and then ends in the next one. */
  lemma StagePhases(w: World)
    ensures StageUpgrade(w).Ok? ==> StageUpgrade(w).w.phase == if w.phase == Stopped then Upgraded else w.phase
    ensures StageSnapshot(w).Ok? ==> StageSnapshot(w).w.phase == if w.phase == Upgraded then Snapshotted else w.phase
    ensures StageSwap(w).Ok? ==> StageSwap(w).w.phase == if w.phase == Snapshotted then Swapped else w.phase
    ensures StageStart(w).Ok? ==> StageStart(w).w.phase == if w.phase == Swapped then Started else w.phase
  {
    ReachPhases();
    hide Reach;
  }

  lemma ReachPhases()
    ensures forall w: World, phase :: Reach(w, phase).w.phase == phase
  {}

  lemma FrontPhases(w: World)
    ensures StagePrepare(w).Ok? ==> StagePrepare(w).w.phase == if w.phase == Preflight then Prepared else w.phase
    ensures StageGate(w).Ok? ==> StageGate(w).w.phase == if w.phase == Prepared then Gated else w.phase
    ensures StageStop(w).Ok? && StageStop(w).value.None? ==>
              StageStop(w).w.phase == if w.phase == Gated then Stopped else w.phase
  {
    ReachPhases();
    hide Abort, Reach;
  }

  lemma ReplaceKeeps(w: World)
    requires Mid(w) && w.phase in {Stopped, Upgraded, Snapshotted, Swapped, Started, Ungated}
    ensures Mid(Replace(w).w)
    ensures Replace(w).Ok? ==> Agrees(Replace(w))
  {
    hide StageUpgrade, StageSnapshot, StageSwap, StageStart, Finish, Mid, Agrees;
    UpgradeKeeps(w);
    StagePhases(w);
    var u := StageUpgrade(w);
    if u.Ok? {
      SnapshotKeeps(u.w);
      StagePhases(u.w);
      var s := StageSnapshot(u.w);
      if s.Ok? {
        SwapStartKeep(s.w);
        StagePhases(s.w);
        var p := StageSwap(s.w);
        if p.Ok? {
          SwapStartKeep(p.w);
          StagePhases(p.w);
          var t := StageStart(p.w);
          if t.Ok? { FinishKeeps(t.w); }
        }
      }
    }
  }

  lemma FrontKeeps(w: World)
    requires Mid(w) && w.phase != UpgradePending
    ensures Mid(Front(w).w)
    ensures Front(w).Ok? ==>
              if Front(w).value.Some? then Agrees(Ok(Front(w).w, Front(w).value.value))
              else Front(w).w.phase in {Stopped, Upgraded, Snapshotted, Swapped, Started, Ungated}
  {
    PrepareKeeps(w);
    FrontPhases(w);
    var p := StagePrepare(w);
    if p.Ok? {
      GateKeeps(p.w);
      FrontPhases(p.w);
      var g := StageGate(p.w);
      if g.Ok? {
        StopKeeps(g.w);
        FrontPhases(g.w);
        hide StagePrepare, StageGate, StageStop, Agrees, Suits, Protocol;
      }
    }
  }

  lemma BodyKeeps(w: World, existing: bool)
    requires Mid(w) && (!existing ==> w.phase == Preflight)
    ensures Mid(Body(w, existing).w)
    ensures Body(w, existing).Ok? ==> Agrees(Body(w, existing))
  {
    hide Begin, Reprepare, StagePrepare, StageGate, StageStop, Replace, Mid, Agrees, Abort;
    if existing && w.phase == Gated && w.value.error == Some(GateAbortUnknown) {
      AbortKeeps(w);
    } else {
      BeginKeeps(w, existing);
      var resume := existing && w.phase == Prepared;
      var b := Begin(w, existing);
      if b.Ok? {
        ReprepareKeeps(b.w, resume, b.value);
        RepreparePhase(b.w, resume, b.value);
        var r := Reprepare(b.w, resume, b.value);
        if r.Ok? {
          FrontKeeps(r.w);
          var f := Front(r.w);
          if f.Ok? && f.value.None? { ReplaceKeeps(f.w); }
        }
      }
    }
  }

  lemma RepreparePhase(w: World, resume: bool, seen: Phase)
    ensures Reprepare(w, resume, seen).Ok? ==> Reprepare(w, resume, seen).w.phase == if resume then seen else w.phase
  {}

  // ---------------------------------------------------------------- the handlers

  lemma StartFrames(w: World)
    ensures Framed(w, StartOld(w).w) && StartOld(w).w.host == w.host.(service := StartOld(w).w.host.service)
    ensures StartOld(w).Ok? ==> CurrentServes(StartOld(w).w.host)
  {
    hide Act, Look;
    ActFrames(w, w.host, w.host.(service := if w.host.service.Up? then w.host.service else Up(w.host.launcher)));
    var s := StartOp(w);
    if s.Ok? { LookStill(s.w, CurrentServes(s.w.host)); }
  }

  lemma RestoreFrames(w: World)
    ensures Framed(w, RestoreOp(w).w) && RestoreOp(w).w.host == w.host.(launcher := RestoreOp(w).w.host.launcher)
  {}

  lemma RestoreServiceFrames(w: World)
    requires Mid(w)
    ensures Harmless(w, RestoreService(w).w) && RestoreService(w).w.host.gate == w.host.gate
    ensures w.phase in {Preflight, Prepared, Gated} ==> RestoreService(w) == Ok(w, ())
    ensures w.phase !in {Swapped, Started, Ungated} ==> RestoreService(w).w.host.launcher == w.host.launcher
    ensures RestoreService(w).Ok? && w.phase !in {Preflight, Prepared, Gated, UpgradePending} ==>
              CurrentServes(RestoreService(w).w.host)
  {
    hide Act, StartOld, RestoreOp;
    StartFrames(w);
    if w.phase in {Swapped, Started, Ungated} {
      ActFrames(w, w.host, w.host.(service := Down));
      var s := StopOp(w);
      if s.Ok? {
        RestoreFrames(s.w);
        var r := RestoreOp(s.w);
        if r.Ok? { StartFrames(r.w); }
      }
    }
  }

  lemma RegateFrames(w: World)
    ensures Framed(w, Regate(w).w) && Regate(w).w.host == w.host.(gate := Regate(w).w.host.gate)
    ensures w.phase != Ungated ==> Regate(w) == Ok(w, ())
  {
    hide Act, Look;
    ActFrames(w, w.host, w.host.(gate := Applied));
    var g := GateOp(w);
    if g.Ok? { LookStill(g.w, g.w.host.gate == Applied); }
  }

  /** A rollback that returns has put the old edge back in public view, or never moved it. */
  predicate BackAsBefore(w: World, h: Host) {
    if w.phase == Preflight then h == w.host
    else h.gate == Absent && h.service == Up(Current)
         && (if w.phase in {Prepared, Gated} then h.launcher == w.host.launcher else h.launcher == Current)
  }

  lemma RepublishFrames(w: World)
    ensures Framed(w, Republish(w).w) && Republish(w).w.host == w.host.(gate := Republish(w).w.host.gate)
    ensures w.phase == Preflight ==> Republish(w) == Ok(w, ())
    ensures w.phase != Preflight && Republish(w).Ok? ==> CurrentIsPublic(Republish(w).w.host)
  {
    hide Act, Look;
    ActFrames(w, w.host, w.host.(gate := Absent));
    var u := UngateOp(w);
    if u.Ok? {
      LookStill(u.w, CurrentIsPublic(u.w.host));
      var c := CurrentPublicReady(u.w);
      if c.Ok? { LookStill(c.w, CurrentServes(c.w.host) && c.w.host.gate == Absent); }
    }
  }

  lemma RollBackFacts(w: World)
    requires Mid(w)
    ensures Harmless(w, RollBack(w).w)
    ensures w.phase in {Preflight, Prepared, Gated} ==>
              RollBack(w).w.host == w.host.(gate := RollBack(w).w.host.gate)
    ensures w.phase !in {Swapped, Started, Ungated} ==> RollBack(w).w.host.launcher == w.host.launcher
    ensures w.phase == Preflight ==> RollBack(w) == Ok(w, ())
    ensures RollBack(w).Ok? ==> w.value.mark != Pending && BackAsBefore(w, RollBack(w).w.host)
  {
    hide Republish, Regate, RestoreService, Protocol;
    if w.value.mark != Pending {
      RegateFrames(w);
      var g := Regate(w);
      if g.Ok? {
        HarmlessKeeps(w, g.w);
        RestoreServiceFrames(g.w);
        var r := RestoreService(g.w);
        if r.Ok? { RepublishFrames(r.w); }
      }
    }
  }

  lemma SettleKeeps(kept: Res<()>, otherwise: Trouble)
    requires Mid(kept.w)
    ensures Mid(Settle(kept, otherwise).w) && Settle(kept, otherwise).w.host == kept.w.host
    ensures Settle(kept, otherwise).Ok? ==>
              Agrees(Settle(kept, otherwise)) && Settle(kept, otherwise).value == Unsettled
  {
    hide Write, Protocol;
    if !kept.Crashed? {
      WriteKeeps(kept.w, kept.w.phase, Unsettled, Some(if kept.Ok? then otherwise else GateRetentionUnknown));
    }
  }

  lemma OnUnknownKeeps(w: World)
    requires Mid(w)
    ensures Mid(OnUnknown(w).w)
    ensures OnUnknown(w).Ok? ==> Agrees(OnUnknown(w)) && OnUnknown(w).value == Unsettled
  {
    hide RetainGate, Settle, Protocol;
    RetainFrames(w);
    var kept := if w.attempted then RetainGate(w) else Ok(w, ());
    HarmlessKeeps(w, kept.w);
    SettleKeeps(kept, AmbiguousOutcome);
  }

  lemma OnFailedKeeps(w: World)
    requires Mid(w)
    ensures Mid(OnFailed(w).w)
    ensures OnFailed(w).Ok? ==> Agrees(OnFailed(w))
  {
    hide RetainGate, Settle, RollBack, Write, Protocol;
    RollBackFacts(w);
    var back := RollBack(w);
    HarmlessKeeps(w, back.w);
    if back.Ok? {
      WriteKeeps(back.w, RolledBack, Fail, Some(DefiniteFailure));
    } else if !back.Crashed? {
      RetainFrames(back.w);
      var kept := RetainGate(back.w);
      HarmlessKeeps(back.w, kept.w);
      SettleKeeps(kept, RollbackUnknown);
    }
  }

  // ---------------------------------------------------------------- one run

  lemma OpenedMid(host: Host, stored: Option<Record>, script: seq<Fate>)
    requires Protocol(host, stored) && !Terminal(stored)
    ensures Mid(Opened(host, stored, script))
  {}

  lemma DeployKeeps(host: Host, stored: Option<Record>, script: seq<Fate>)
    requires Protocol(host, stored)
    ensures var end := Deploy(host, stored, script);
      && Protocol(end.w.host, end.w.stored)
      && (end.Returned? ==> end.w.stored.Some? && end.w.stored.value.status == end.verdict && end.verdict != Running)
  {
    if !Terminal(stored) {
      OpenedMid(host, stored, script);
      hide Body, OnUnknown, OnFailed, Protocol;
      var w := Opened(host, stored, script);
      BodyKeeps(w, stored.Some?);
      var b := Body(w, stored.Some?);
      if b.Unknown? { OnUnknownKeeps(b.w); }
      if b.Failed? { OnFailedKeeps(b.w); }
    }
  }

  /** Once intent is durable, no later run invokes the upgrade, rolls back, or leaves that phase. */
  lemma PendingStays(host: Host, stored: Option<Record>, script: seq<Fate>)
    requires Protocol(host, stored) && stored.Some? && stored.value.phase == UpgradePending
    ensures var end := Deploy(host, stored, script);
      && end.w.host in {host, host.(gate := Applied)}
      && end.w.stored.Some? && end.w.stored.value.phase == UpgradePending
      && (end.Returned? ==> end.verdict == Unsettled)
  {
    var w := Opened(host, stored, script);
    assert w.value.mark == Pending && !Terminal(stored);
    hide RetainGate, ReconcileOp, Write, Protocol, Terminal, Classify, Front, Replace, Reprepare;
    ReconcileStill(w);
    var r := ReconcileOp(w, w.phase, w.value.snapshot);
    PendingUnclassified(w);
    RetainFrames(r.w);
    var kept := RetainGate(r.w);
    assert r.Failed? ==> RollBack(r.w) == Unknown(r.w);
    PendingWrite(kept.w, if kept.Ok? then AmbiguousOutcome else GateRetentionUnknown);
    PendingWrite(kept.w, if kept.Ok? then RollbackUnknown else GateRetentionUnknown);
  }

  lemma PendingUnclassified(w: World)
    requires w.phase == UpgradePending
    ensures !ReconcileOp(w, w.phase, w.value.snapshot).Ok?
  {}

  lemma PendingWrite(w: World, error: Trouble)
    requires w.phase == UpgradePending && w.stored.Some? && w.stored.value.phase == UpgradePending
    ensures var r := Write(w, w.phase, Unsettled, Some(error));
      r.w.host == w.host && r.w.stored.Some? && r.w.stored.value.phase == UpgradePending
  {}
}
