/**
 Torn receipts: a terminal write that raises although it landed leaves the handler at work under a
 receipt that already tells the end. When that receipt is true in the end, and when it is not.
 */
module EdgeTorn {
  import opened Prelude
  import opened EdgeHost
  import opened EdgeDeploy
  import opened EdgeProtocol
  import opened EdgeTruth
  import opened EdgeRoute

  // ---------------------------------------------------------------- how a body tears its receipt

  /** A terminal receipt is in place and tells the truth, but the attempt is still at work. */
  predicate TornAt(w: World) {
    && w.attempted && w.stored.Some?
    && (match w.phase
        case Gated => w.stored.value.status == Fail && w.stored.value.phase == RolledBack && Restored(w.host)
        case Ungated => w.stored.value.status == Pass && w.stored.value.phase == Complete && Serving(w.host)
        case _ => false)
  }

  /** Nothing was torn on the way, unless the very last write was. */
  predicate TornLast<T>(w: World, r: Res<T>) {
    r.w.torn == w.torn || ((r.Failed? || r.Unknown?) && TornAt(r.w))
  }

  /** Only a terminal write can be torn. */
  lemma ReachUntorn()
    ensures forall w: World, phase :: Reach(w, phase).w.torn == w.torn
  {}

  lemma AbortTorn(w: World)
    requires w.phase == Gated && w.attempted
    ensures TornLast(w, Abort(w))
  {
    hide Write, AbortTry, Look;
    AbortTryFrames(w);
    var tried := AbortTry(w);
    LookStill(tried.w, IsPublic(tried.w.host));
    var seen := PublicReady(tried.w);
    WriteShape(seen.w, RolledBack, Fail, Some(PublicGateUnproven));
    WriteShape(tried.w, Gated, Unsettled, Some(GateAbortUnknown));
  }

  lemma BeginUntorn(w: World, existing: bool)
    ensures Begin(w, existing).w.torn == w.torn
  {
    ReachUntorn();
    hide ReconcileOp, Classify, PreflightOp, Reach;
    ReconcileStill(w);
    PreflightStill(Reach(w, w.phase).w);
  }

  lemma ReprepareUntorn(w: World, resume: bool, seen: Phase)
    ensures Reprepare(w, resume, seen).w.torn == w.torn
  {
    ReachUntorn();
    hide Reach;
  }

  lemma FrontStagesUntorn(w: World)
    ensures StagePrepare(w).w.torn == w.torn && StageGate(w).w.torn == w.torn
  {
    ReachUntorn();
    hide Reach;
  }

  lemma StopTorn(w: World)
    requires w.phase == Gated ==> w.attempted
    ensures TornLast(w, StageStop(w))
  {
    if w.phase == Gated {
      ReachUntorn();
      ActUntorn();
      LookStill(w, w.host.gate == Applied);
      AbortTorn(w);
      AbortTorn(PublicGated(w).w);
      hide Abort, Reach, Look, Act, TornAt;
    }
  }

  lemma ReplaceStagesUntorn(w: World)
    ensures StageUpgrade(w).w.torn == w.torn && StageSnapshot(w).w.torn == w.torn
    ensures StageSwap(w).w.torn == w.torn && StageStart(w).w.torn == w.torn
  {
    MeasuredUntorn(w);
    ReachUntorn();
    ActUntorn();
    hide Reach, StageUpgrade, StageSnapshot, Act;
  }

  lemma ActUntorn()
    ensures forall w: World, p, f :: Act(w, p, f).w.torn == w.torn
  {}

  lemma MeasuredUntorn(w: World)
    ensures StageUpgrade(w).w.torn == w.torn && StageSnapshot(w).w.torn == w.torn
  {
    ReachUntorn();
    MeasuresUntorn();
    hide Reach, UpgradeOp, SnapshotOp, SnapshotDigestOp;
  }

  lemma MeasuresUntorn()
    ensures forall w: World :: UpgradeOp(w).w.torn == w.torn
    ensures forall w: World :: SnapshotOp(w).w.torn == w.torn && SnapshotDigestOp(w).w.torn == w.torn
  {}

  lemma FinishStagesUntorn(w: World)
    ensures StageSemantic(w).w.torn == w.torn && StageUngate(w).w.torn == w.torn
  {
    ReachUntorn();
    BoundaryStill(w);
    hide Boundary, Reach;
  }

  lemma FinishTorn(w: World, b: Basis)
    requires Ready(w, b) && w.phase in {Started, Ungated}
    ensures TornLast(w, Finish(w))
  {
    hide Look, StageSemantic, StageUngate, Write, Tracks;
    FinishStagesUntorn(w);
    LookKeepsReady(w, CandidateServes(w.host), b);
    var l := LocalReady(w);
    if l.Ok? && l.value {
      FinishStagesUntorn(l.w);
      SemanticStaged(l.w, b);
      var s := StageSemantic(l.w);
      if s.Ok? {
        FinishStagesUntorn(s.w);
        UngateStaged(s.w, b);
        UngatedPhase(s.w);
        var u := StageUngate(s.w);
        if u.Ok? {
          LookKeepsReady(u.w, IsPublic(u.w.host), b);
          var p := PublicReady(u.w);
          if p.Ok? && p.value { WriteShape(p.w, Complete, Pass, None); }
        }
      }
    }
  }

  lemma UngatedPhase(w: World)
    requires w.phase in {Started, Ungated}
    ensures StageUngate(w).Ok? ==> StageUngate(w).w.phase == Ungated
  {
    ReachPhases();
    BoundaryStill(w);
    hide Boundary, Reach;
  }

  lemma ReplaceTorn(w: World, b: Basis)
    requires Ready(w, b) && w.phase in {Stopped, Upgraded, Snapshotted, Swapped, Started, Ungated}
    ensures TornLast(w, Replace(w))
  {
    hide StageUpgrade, StageSnapshot, StageSwap, StageStart, Finish, Ready, Leaves, TornAt;
    UpgradeStaged(w, b);
    StagePhases(w);
    ReplaceStagesUntorn(w);
    var u := StageUpgrade(w);
    if u.Ok? {
      SnapshotStaged(u.w, b);
      StagePhases(u.w);
      ReplaceStagesUntorn(u.w);
      var s := StageSnapshot(u.w);
      if s.Ok? {
        SwapStaged(s.w, b);
        StagePhases(s.w);
        ReplaceStagesUntorn(s.w);
        var p := StageSwap(s.w);
        if p.Ok? {
          StartStaged(p.w, b);
          StagePhases(p.w);
          ReplaceStagesUntorn(p.w);
          var t := StageStart(p.w);
          if t.Ok? { FinishTorn(t.w, b); }
        }
      }
    }
  }

  lemma FrontTorn(w: World, b: Basis)
    requires Ready(w, b)
    ensures TornLast(w, Front(w))
  {
    hide StagePrepare, StageGate, StageStop, Leaves, TornAt, Tracks;
    PrepareStaged(w, b);
    FrontStagesUntorn(w);
    var p := StagePrepare(w);
    if p.Ok? {
      GateStaged(p.w, b);
      FrontStagesUntorn(p.w);
      var g := StageGate(p.w);
      if g.Ok? { StopTorn(g.w); }
    }
  }

  lemma BodyTorn(w: World, existing: bool, b: Basis)
    requires Tracks(w, b) && w.host == b.start && !w.torn
    requires w.phase !in {Complete, RolledBack, NoEffectProven} && (w.attempted <==> w.phase !in {Preflight, Prepared})
    requires if existing then InStep(w) && !Surprised(w.host, w.stored, w.script)
             else w.stored.None? && w.phase == Preflight
    ensures TornLast(w, Body(w, existing))
  {
    hide BeginResumed, BeginFresh, Reprepare, Front, Replace, Abort, Leaves, Told, AsBefore, Tracks, Surprised, TornAt;
    if existing && w.phase == Gated && w.value.error == Some(GateAbortUnknown) {
      AbortTorn(w);
    } else {
      if existing { ResumeBegun(w, b); } else { FreshBegun(w, b); }
      BeginUntorn(w, existing);
      var g := Begin(w, existing);
      if g.Ok? {
        BeginLeaves(w, existing, b);
        ReprepareStaged(g.w, existing && w.phase == Prepared, g.value, b);
        RepreparePhase(g.w, existing && w.phase == Prepared, g.value);
        ReprepareUntorn(g.w, existing && w.phase == Prepared, g.value);
        var r := Reprepare(g.w, existing && w.phase == Prepared, g.value);
        if r.Ok? {
          FrontSound(r.w, b);
          FrontTorn(r.w, b);
          var f := Front(r.w);
          if f.Ok? && f.value.None? { ReplaceTorn(f.w, b); }
        }
      }
    }
  }

  // ---------------------------------------------------------------- the handler under a torn receipt

  /** The next receipt write lands, whether or not it returns. */
  predicate Lands(script: seq<Fate>) {
    script == [] || script[0].kind.Fine? || script[0].landing != Nothing
  }

  /** The next write raises although it lands. */
  predicate Tears(script: seq<Fate>) {
    script != [] && script[0].kind in {Failing, Unsure} && script[0].landing != Nothing
  }

  /** The next host step takes effect in full. */
  predicate Acts(script: seq<Fate>) {
    script == [] || script[0].kind.Fine? || script[0].landing == Fully
  }

  /** The process dies before it settles, or its settling write does not land. */
  predicate NeverSettles(kept: Res<()>) { kept.Crashed? || !Lands(kept.w.script) }

  /** `except Unknown` or `except Failed`, whichever `r` raised. */
  function Handled(r: Res<Status>): Res<Status> {
    if r.Unknown? then OnUnknown(r.w) else if r.Failed? then OnFailed(r.w) else r
  }

  /** The rollback of a served candidate starts by putting the gate back, and does. */
  predicate Regates(w: World) { w.phase == Ungated && Acts(w.script) }

  /**
   The handler of `r` puts the gate back, and then ends before a receipt of its own lands: in the
   rollback, while retaining the gate, or at its last write.
   */
  predicate DiesRegated(r: Res<Status>) {
    if r.Unknown? then
      var kept := RetainGate(r.w);
      kept.w.host.gate == Applied && NeverSettles(kept)
    else
      var back := RollBack(r.w);
      if back.Crashed? then Regates(r.w)
      else if back.Ok? then Regates(r.w) && !Lands(back.w.script)
      else
        var kept := RetainGate(back.w);
        (Regates(r.w) || kept.w.host.gate == Applied) && NeverSettles(kept)
  }

  lemma WriteLands(w: World, phase: Phase, status: Status, error: Option<Trouble>)
    ensures var r, v := Write(w, phase, status, error), w.value.(phase := phase, status := status, error := error);
      && r.w.host == w.host && r.w.phase == w.phase
      && r.w.stored == (if Lands(w.script) then Some(v) else w.stored)
      && ((r.Failed? || r.Unknown?) && Lands(w.script) <==> Tears(w.script))
      && (r.Ok? ==> Lands(w.script))
  {}

  /** Settling replaces the receipt if and only if its write is reached and lands. */
  lemma SettleLands(kept: Res<()>, otherwise: Trouble)
    ensures var r := Settle(kept, otherwise);
      && r.w.host == kept.w.host
      && (if NeverSettles(kept) then r.w.stored == kept.w.stored
          else r.w.stored.Some? && r.w.stored.value.status == Unsettled && r.w.stored.value.phase == kept.w.phase)
  {
    WriteLands(kept.w, kept.w.phase, Unsettled, Some(if kept.Ok? then otherwise else GateRetentionUnknown));
    hide Write;
  }

  /** A rollback of a served candidate undoes the serving exactly when its first step, the gate, acts. */
  lemma RollBackMoves(w: World)
    requires w.phase == Ungated && Serving(w.host) && w.value.mark != Pending && Mid(w)
    ensures var back := RollBack(w);
      && (Regates(w) ==> !CandidateServes(back.w.host) || back.w.host.gate == Applied)
      && (!Regates(w) ==> back.w.host == w.host && !back.Ok?)
  {
    RegateActs(w);
    hide Republish, Regate, RestoreService, Protocol, Acts;
    RegateFrames(w);
    var g := Regate(w);
    if g.Ok? {
      HarmlessKeeps(w, g.w);
      RestoreServiceFrames(g.w);
      var r := RestoreService(g.w);
      if r.Ok? { RepublishFrames(r.w); }
    }
  }

  lemma RegateActs(w: World)
    requires w.phase == Ungated && w.host.gate == Absent
    ensures Regates(w) ==> Regate(w).w.host.gate == Applied
    ensures !Regates(w) ==> Regate(w).w.host == w.host && !Regate(w).Ok?
  {
    var g := GateOp(w);
    assert Acts(w.script) <==> g.w.host.gate == Applied;
    if g.Ok? { LookStill(g.w, g.w.host.gate == Applied); }
    hide Look;
  }

  /** At GATED a rollback only takes away a gate that is already gone. */
  lemma GatedRollBackStays(w: World)
    requires w.phase == Gated && Restored(w.host) && w.value.mark != Pending
    ensures RollBack(w).w.host == w.host
  {
    hide Look, Act;
    ActFrames(w, w.host, w.host.(gate := Absent));
    var u := UngateOp(w);
    if u.Ok? { LookStill(u.w, CurrentIsPublic(u.w.host)); }
  }

  /** Whatever handles a torn PASS: the receipt is untrue in the end exactly when the handler dies regated. */
  lemma TornPassExactly(r: Res<Status>, origin: Host)
    requires (r.Failed? || r.Unknown?) && TornAt(r.w) && r.w.phase == Ungated && Mid(r.w)
    ensures Truthful(Handled(r).w.stored, Handled(r).w.host, origin) <==> !DiesRegated(r)
  {
    hide *;
    if r.Unknown? { TornPassKept(r, origin); } else { TornPassRolledBack(r, origin); }
  }

  lemma TornPassKept(r: Res<Status>, origin: Host)
    requires r.Unknown? && TornAt(r.w) && r.w.phase == Ungated && Mid(r.w)
    ensures Truthful(Handled(r).w.stored, Handled(r).w.host, origin) <==> !DiesRegated(r)
  {
    RetainFrames(r.w);
    SettleLands(RetainGate(r.w), AmbiguousOutcome);
    hide RetainGate, Settle, RollBack, Write, Protocol, Suits, Regates, Lands;
  }

  lemma TornPassRolledBack(r: Res<Status>, origin: Host)
    requires r.Failed? && TornAt(r.w) && r.w.phase == Ungated && Mid(r.w)
    ensures Truthful(Handled(r).w.stored, Handled(r).w.host, origin) <==> !DiesRegated(r)
  {
    var w := r.w;
    assert w.value.mark != Pending;
    var back := RollBack(w);
    RollBackMoves(w);
    RollBackFacts(w);
    RetainFrames(back.w);
    SettleLands(RetainGate(back.w), RollbackUnknown);
    WriteLands(back.w, RolledBack, Fail, Some(DefiniteFailure));
    hide RetainGate, Settle, RollBack, Write, Protocol, Suits, Regates, Lands;
  }

  /** The same for a torn FAIL, which only a gate that was not there before can belie. */
  lemma TornFailExactly(r: Res<Status>, origin: Host)
    requires (r.Failed? || r.Unknown?) && TornAt(r.w) && r.w.phase == Gated && Mid(r.w)
    ensures Truthful(Handled(r).w.stored, Handled(r).w.host, origin)
            <==> !(DiesRegated(r) && origin != r.w.host.(gate := Applied))
  {
    var w := r.w;
    assert w.value.mark != Pending;
    RetainFrames(w);
    SettleLands(RetainGate(w), AmbiguousOutcome);
    var back := RollBack(w);
    GatedRollBackStays(w);
    RollBackFacts(w);
    RetainFrames(back.w);
    SettleLands(RetainGate(back.w), RollbackUnknown);
    WriteLands(back.w, RolledBack, Fail, Some(DefiniteFailure));
    hide RetainGate, Settle, RollBack, Write, Protocol, Suits, Lands;
  }

  // ---------------------------------------------------------------- the handler under an open receipt

  lemma SettleUntorn(kept: Res<()>, otherwise: Trouble)
    ensures Settle(kept, otherwise).w.torn == kept.w.torn
  {}

  /** Without a torn receipt, whatever the handler meets, the receipt it leaves is true. */
  lemma HandledTruly(r: Res<Status>, b: Basis)
    requires (r.Failed? || r.Unknown?) && !r.w.torn && Tracks(r.w, b) && Mid(r.w)
    requires r.Failed? && r.w.phase == Preflight ==> AsBefore(r.w.host, b.origin)
    ensures Truthful(Handled(r).w.stored, Handled(r).w.host, b.origin)
  {
    var w := r.w;
    if r.Unknown? {
      OnUnknownSound(w, b);
      RetainFrames(w);
      SettleUntorn(if w.attempted then RetainGate(w) else Ok(w, ()), AmbiguousOutcome);
      hide RetainGate, Settle, Tracks, Mid, Told;
    } else {
      FailedTruly(w, b);
      hide OnFailed;
    }
  }

  lemma FailedTruly(w: World, b: Basis)
    requires !w.torn && Tracks(w, b) && Mid(w) && (w.phase == Preflight ==> AsBefore(w.host, b.origin))
    ensures Truthful(OnFailed(w).w.stored, OnFailed(w).w.host, b.origin)
  {
    OnFailedSound(w, b);
    RollBackFacts(w);
    RollBackTracks(w, b);
    var back := RollBack(w);
    SettleUntorn(RetainGate(back.w), RollbackUnknown);
    RetainFrames(back.w);
    if back.Ok? {
      RolledBackTruly(w, b);
      WriteLands(back.w, RolledBack, Fail, Some(DefiniteFailure));
    }
    hide RollBack, RetainGate, Settle, Write, Mid, Told, Lands;
  }

  // ---------------------------------------------------------------- the two terminal writes

  /**
   The COMPLETE write, exactly. The receipt the attempt is left with is untrue if and only if the
   write raised although it landed, and the handler put the gate back and died unsettled.
   */
  lemma CompleteExactly(w: World, b: Basis)
    requires Tracks(w, b) && Mid(w) && !w.torn && w.phase == Ungated && w.attempted && Serving(w.host)
    ensures var r := Answered(Write(w, Complete, Pass, None), Pass);
      Truthful(Handled(r).w.stored, Handled(r).w.host, b.origin) <==> !(Tears(w.script) && DiesRegated(r))
  {
    var r := Answered(Write(w, Complete, Pass, None), Pass);
    WriteLands(w, Complete, Pass, None);
    WriteShape(w, Complete, Pass, None);
    WriteKeeps(w, Complete, Pass, None);
    WriteSound(w, Complete, Pass, None, b);
    hide Write, Mid, Tears, Lands;
    if r.Failed? || r.Unknown? {
      if Tears(w.script) { TornPassExactly(r, b.origin); } else { HandledTruly(r, b); }
    }
    hide DiesRegated, Handled;
  }

  /** The ROLLED_BACK write of an abort, exactly: the same, unless the gate was there before the attempt. */
  lemma AbortExactly(w: World, b: Basis)
    requires Tracks(w, b) && Mid(w) && !w.torn && w.phase == Gated && w.attempted && Restored(w.host)
    requires w.value.mark == NotStarted
    ensures var r := Answered(Write(w, RolledBack, Fail, Some(PublicGateUnproven)), Fail);
      Truthful(Handled(r).w.stored, Handled(r).w.host, b.origin)
      <==> !(Tears(w.script) && DiesRegated(r) && b.origin != w.host.(gate := Applied))
  {
    var error := Some(PublicGateUnproven);
    var r := Answered(Write(w, RolledBack, Fail, error), Fail);
    WriteLands(w, RolledBack, Fail, error);
    WriteShape(w, RolledBack, Fail, error);
    WriteKeeps(w, RolledBack, Fail, error);
    WriteSound(w, RolledBack, Fail, error, b);
    hide Write, Mid, Tears, Lands;
    if r.Failed? || r.Unknown? {
      if Tears(w.script) { TornFailExactly(r, b.origin); } else { HandledTruly(r, b); }
    }
    hide DiesRegated, Handled;
  }
}
