/**
 The semantic proof of an upgrade without effect (src/switchstand/edge_maintenance.py:1444-1453): the
 first one recorded is never replaced, and no run completes on another.
 */
module EdgeProof {
  import opened Prelude
  import opened EdgeHost
  import opened EdgeDeploy
  import opened EdgeProtocol
  import opened EdgeUnprepared
  import opened EdgeRuns
  import opened EdgeRoute

  // ---------------------------------------------------------------- the first proof stays

  /** The proof `d` is in memory and on disk. */
  predicate Holds(w: World, d: Digest) { w.value.probe == Some(d) && w.stored.Some? && w.stored.value.probe == Some(d) }

  lemma WritesHold(d: Digest)
    ensures forall w: World, p, s, e :: Holds(w, d) ==> Holds(Write(w, p, s, e).w, d)
    ensures forall w: World, p :: Holds(w, d) ==> Holds(Reach(w, p).w, d)
  {}

  lemma StepsHold(d: Digest)
    ensures forall w: World, p, f :: Holds(w, d) ==> Holds(Act(w, p, f).w, d)
    ensures forall w: World, t :: Holds(w, d) ==> Holds(Look(w, t).w, d)
    ensures forall w: World, t :: Holds(w, d) ==> Holds(Read(w, t).w, d)
  {}

  lemma MeasuresHold(d: Digest)
    ensures forall w: World :: Holds(w, d) ==> Holds(PrepareOp(w).w, d)
    ensures forall w: World :: Holds(w, d) ==> Holds(UpgradeOp(w).w, d)
    ensures forall w: World :: Holds(w, d) ==> Holds(SnapshotOp(w).w, d)
    ensures forall w: World :: Holds(w, d) ==> Holds(SnapshotDigestOp(w).w, d)
    ensures forall w: World :: Holds(w, d) ==> Holds(SemanticOp(w).w, d)
    ensures forall w: World, p, s :: Holds(w, d) ==> Holds(ReconcileOp(w, p, s).w, d)
  {
    hide Classify;
  }

  lemma AbortHolds(w: World, d: Digest)
    requires Holds(w, d)
    ensures Holds(Abort(w).w, d)
  {
    WritesHold(d);
    StepsHold(d);
    hide Look, Read, Act, Write;
  }

  lemma BeginHolds(w: World, d: Digest)
    requires Holds(w, d)
    ensures Holds(BeginResumed(w).w, d)
  {
    WritesHold(d);
    MeasuresHold(d);
    hide ReconcileOp, Reach;
  }

  lemma ReprepareHolds(w: World, resume: bool, seen: Phase, d: Digest)
    requires Holds(w, d)
    ensures Holds(Reprepare(w, resume, seen).w, d)
  {
    WritesHold(d);
    MeasuresHold(d);
    hide PrepareOp, Reach;
  }

  lemma FrontStagesHold(w: World, d: Digest)
    requires Holds(w, d)
    ensures Holds(StagePrepare(w).w, d) && Holds(StageGate(w).w, d) && Holds(StageStop(w).w, d)
  {
    WritesHold(d);
    StepsHold(d);
    MeasuresHold(d);
    StopHolds(w, d);
    hide PrepareOp, Look, Act, Reach, StageStop;
  }

  lemma StopHolds(w: World, d: Digest)
    requires Holds(w, d)
    ensures Holds(StageStop(w).w, d)
  {
    WritesHold(d);
    StepsHold(d);
    AbortHolds(w, d);
    AbortHolds(PublicGated(w).w, d);
    hide Look, Act, Reach, Abort;
  }

  lemma ReplaceStagesHold(w: World, d: Digest)
    requires Holds(w, d)
    ensures Holds(StageUpgrade(w).w, d) && Holds(StageSnapshot(w).w, d)
    ensures Holds(StageSwap(w).w, d) && Holds(StageStart(w).w, d)
  {
    WritesHold(d);
    StepsHold(d);
    MeasuresHold(d);
    hide UpgradeOp, SnapshotOp, SnapshotDigestOp, Act, Reach;
  }

  lemma FinishHolds(w: World, d: Digest)
    requires Holds(w, d)
    ensures Holds(Finish(w).w, d)
  {
    WritesHold(d);
    StepsHold(d);
    var l := LocalReady(w);
    hide Look, StageSemantic, StageUngate, Write;
    if l.Ok? {
      SemanticHolds(l.w, d);
      var s := StageSemantic(l.w);
      if s.Ok? { UngateHolds(s.w, d); }
    }
  }

  lemma SemanticHolds(w: World, d: Digest)
    requires Holds(w, d)
    ensures Holds(StageSemantic(w).w, d)
  {
    MeasuresHold(d);
    BoundaryStill(w);
    hide Boundary, SemanticOp, Reach;
  }

  lemma UngateHolds(w: World, d: Digest)
    requires Holds(w, d)
    ensures Holds(StageUngate(w).w, d)
  {
    WritesHold(d);
    StepsHold(d);
    BoundaryStill(w);
    hide Boundary, Act, Reach;
  }

  lemma MiddleHolds(w: World, d: Digest)
    requires Holds(w, d)
    ensures Holds(Middle(w).w, d)
  {
    hide StagePrepare, StageGate, StageStop, Replace, Holds;
    FrontStagesHold(w, d);
    var p := StagePrepare(w);
    if p.Ok? {
      FrontStagesHold(p.w, d);
      var g := StageGate(p.w);
      if g.Ok? {
        FrontStagesHold(g.w, d);
        var t := StageStop(g.w);
        if t.Ok? { ReplaceHolds(t.w, d); }
      }
    }
  }

  lemma ReplaceHolds(w: World, d: Digest)
    requires Holds(w, d)
    ensures Holds(Replace(w).w, d)
  {
    hide StageUpgrade, StageSnapshot, StageSwap, StageStart, Finish, Holds;
    ReplaceStagesHold(w, d);
    var u := StageUpgrade(w);
    if u.Ok? {
      ReplaceStagesHold(u.w, d);
      var s := StageSnapshot(u.w);
      if s.Ok? {
        ReplaceStagesHold(s.w, d);
        var p := StageSwap(s.w);
        if p.Ok? {
          ReplaceStagesHold(p.w, d);
          var t := StageStart(p.w);
          if t.Ok? { FinishHolds(t.w, d); }
        }
      }
    }
  }

  lemma BodyHolds(w: World, d: Digest)
    requires Holds(w, d)
    ensures Holds(Body(w, true).w, d)
  {
    AbortHolds(w, d);
    BeginHolds(w, d);
    hide BeginResumed, Reprepare, Middle, Abort, Holds;
    var g := BeginResumed(w);
    if g.Ok? {
      ReprepareHolds(g.w, w.phase == Prepared, g.value, d);
      var r := Reprepare(g.w, w.phase == Prepared, g.value);
      if r.Ok? { MiddleHolds(r.w, d); }
    }
  }

  lemma SettleHolds(kept: Res<()>, otherwise: Trouble, d: Digest)
    requires Holds(kept.w, d)
    ensures Holds(Settle(kept, otherwise).w, d)
  {
    WritesHold(d);
    hide Write;
  }

  lemma HandlersHold(w: World, d: Digest)
    requires Holds(w, d)
    ensures Holds(OnUnknown(w).w, d) && Holds(OnFailed(w).w, d)
  {
    WritesHold(d);
    RetainFrames(w);
    RollBackUpgrades(w);
    var back := RollBack(w);
    RetainFrames(back.w);
    SettleHolds(if w.attempted then RetainGate(w) else Ok(w, ()), AmbiguousOutcome, d);
    SettleHolds(RetainGate(back.w), RollbackUnknown, d);
    hide RetainGate, RollBack, Settle, Write;
  }

  /** The first semantic proof recorded stays the one recorded, whatever a later run meets. */
  lemma FirstProofStays(host: Host, stored: Option<Record>, script: seq<Fate>, d: Digest)
    requires stored.Some? && stored.value.probe == Some(d)
    ensures var end := Deploy(host, stored, script); end.w.stored.Some? && end.w.stored.value.probe == Some(d)
  {
    var w := Opened(host, stored, script);
    BodyHolds(w, d);
    HandlersHold(Body(w, true).w, d);
    hide Body, OnUnknown, OnFailed;
  }

  // ---------------------------------------------------------------- no completion on another proof

  /** No measurement of the run reads `d`, nor does one after the script. */
  predicate Unread(script: seq<Fate>, d: Digest) {
    d != 0 && forall i :: 0 <= i < |script| ==> script[i].digest != d
  }

  /** `d` is recorded, will not be read again, and PASS is not on disk. */
  predicate Stale(w: World, d: Digest) {
    Holds(w, d) && Unread(w.script, d) && w.stored.value.status != Pass && w.stored.value.phase != Complete
    && w.value.mark == NoEffect && w.phase != Complete
  }

  lemma StepsStale(d: Digest)
    ensures forall w: World, p, f :: Stale(w, d) ==> Stale(Act(w, p, f).w, d)
    ensures forall w: World, t :: Stale(w, d) ==> Stale(Look(w, t).w, d)
    ensures forall w: World, t :: Stale(w, d) ==> Stale(Read(w, t).w, d)
    ensures forall w: World :: Stale(w, d) ==> Stale(SnapshotOp(w).w, d)
    ensures forall w: World :: Stale(w, d) ==> Stale(SnapshotDigestOp(w).w, d)
    ensures forall w: World, p, s :: Stale(w, d) ==> Stale(ReconcileOp(w, p, s).w, d)
  {
    forall w: World, p, f | Stale(w, d) ensures Stale(Act(w, p, f).w, d) { StepStale(w, d, p, f, true, w.phase, None); }
    forall w: World, t | Stale(w, d) ensures Stale(Look(w, t).w, d) && Stale(Read(w, t).w, d) {
      StepStale(w, d, w.host, w.host, t, w.phase, None);
    }
    forall w: World, p, s | Stale(w, d)
      ensures Stale(SnapshotOp(w).w, d) && Stale(SnapshotDigestOp(w).w, d) && Stale(ReconcileOp(w, p, s).w, d)
    {
      StepStale(w, d, w.host, w.host, true, p, s);
    }
    hide *;
  }

  lemma StepStale(w: World, d: Digest, p: Host, f: Host, t: bool, q: Phase, o: Option<Digest>)
    requires Stale(w, d)
    ensures Stale(Act(w, p, f).w, d) && Stale(Look(w, t).w, d) && Stale(Read(w, t).w, d)
    ensures Stale(SnapshotOp(w).w, d) && Stale(SnapshotDigestOp(w).w, d) && Stale(ReconcileOp(w, q, o).w, d)
  {
    NextUnread(w, d);
    hide Unread, Classify, Next;
  }

  lemma NextUnread(w: World, d: Digest)
    requires Unread(w.script, d)
    ensures Next(w).0 == w.(script := Next(w).0.script)
    ensures Unread(Next(w).0.script, d) && Next(w).1.digest != d
  {}

  lemma WritesStale(d: Digest)
    ensures forall w: World, p, s, e :: Stale(w, d) && s != Pass && p != Complete ==> Stale(Write(w, p, s, e).w, d)
    ensures forall w: World, p :: Stale(w, d) && p != Complete ==> Stale(Reach(w, p).w, d)
  {
    forall w: World, p, s, e | Stale(w, d) && s != Pass && p != Complete ensures Stale(Write(w, p, s, e).w, d) {
      WriteStale(w, d, p, s, e);
    }
    forall w: World, p | Stale(w, d) && p != Complete ensures Stale(Reach(w, p).w, d) {
      WriteStale(w.(phase := p), d, p, Running, None);
    }
    hide Write, Unread;
  }

  lemma WriteStale(w: World, d: Digest, p: Phase, s: Status, e: Option<Trouble>)
    requires Stale(w, d) && s != Pass && p != Complete
    ensures Stale(Write(w, p, s, e).w, d)
  {
    NextUnread(w.(value := w.value.(phase := p, status := s, error := e)), d);
    hide Unread, Next;
  }

  lemma ReadsAnother(w: World, d: Digest)
    requires Stale(w, d)
    ensures Stale(SemanticOp(w).w, d) && (SemanticOp(w).Ok? ==> SemanticOp(w).value != d)
  {
    NextUnread(w, d);
    hide Unread, Next;
  }

  lemma BoundaryStale(w: World, d: Digest)
    requires Stale(w, d)
    ensures Stale(Boundary(w).w, d)
  {
    StepsStale(d);
    hide Look, Read, Unread;
  }

  /** The comparison catches it. */
  lemma FinishStale(w: World, d: Digest)
    requires Stale(w, d)
    ensures Stale(Finish(w).w, d) && !Finish(w).Ok?
  {
    StepsStale(d);
    var l := LocalReady(w);
    BoundaryStale(l.w, d);
    var b := Boundary(l.w);
    ReadsAnother(b.w, d);
    hide Look, Boundary, SemanticOp, StageUngate, Write, Unread;
  }

  lemma ReplaceStale(w: World, d: Digest)
    requires Stale(w, d) && w.phase in {Upgraded, Snapshotted, Swapped, Started, Ungated}
    ensures Stale(Replace(w).w, d) && !Replace(w).Ok?
  {
    StagesStale(w, d);
    StagePhases(w);
    assert StageUpgrade(w) == Ok(w, ());
    hide StageUpgrade, StageSnapshot, StageSwap, StageStart, Finish, Stale;
    var s := StageSnapshot(w);
    if s.Ok? {
      StagesStale(s.w, d);
      var p := StageSwap(s.w);
      if p.Ok? {
        StagesStale(p.w, d);
        var t := StageStart(p.w);
        if t.Ok? { FinishStale(t.w, d); }
      }
    }
  }

  lemma StagesStale(w: World, d: Digest)
    requires Stale(w, d)
    ensures Stale(StageSnapshot(w).w, d) && Stale(StageSwap(w).w, d) && Stale(StageStart(w).w, d)
  {
    StepsStale(d);
    WritesStale(d);
    hide SnapshotOp, SnapshotDigestOp, Act, Reach, Unread;
  }

  lemma BodyStale(w: World, d: Digest)
    requires Stale(w, d) && w.phase in {Upgraded, Snapshotted, Swapped, Started, Ungated}
    ensures Stale(Body(w, true).w, d) && !Body(w, true).Ok?
  {
    StepsStale(d);
    WritesStale(d);
    hide Reach, Replace, ReconcileOp, Unread, Classify;
    ReconcileStill(w);
    var r := ReconcileOp(w, w.phase, w.value.snapshot);
    if r.Ok? {
      ClassifyFacts(w.host, w.phase, w.value.snapshot);
      AdoptStale(r.w, r.value, d);
      var g := Adopt(r.w, r.value);
      hide Adopt, Abort;
      if g.Ok? {
        assert Middle(g.w) == Replace(g.w);
        ReplaceStale(g.w, d);
      }
    }
  }

  lemma AdoptStale(w: World, seen: Observation, d: Digest)
    requires Stale(w, d) && w.phase in {Upgraded, Snapshotted, Swapped, Started, Ungated}
    requires seen.phase in {Upgraded, Snapshotted, Swapped, Started, Ungated}
    ensures Stale(Adopt(w, seen).w, d)
    ensures Adopt(w, seen).Ok? ==> Adopt(w, seen).w.phase == seen.phase
  {
    WritesStale(d);
    ReachPhases();
    hide Reach, Unread;
  }

  /**
   Once a semantic proof is recorded, a run that reads another never tells PASS and never records
   COMPLETE, whatever else it meets.
   */
  lemma ChangedProofNeverPasses(host: Host, stored: Option<Record>, script: seq<Fate>, d: Digest)
    requires Readable(stored) && stored.Some? && !Terminal(stored)
    requires stored.value.mark == NoEffect && stored.value.probe == Some(d)
    requires d != 0 && forall i :: 0 <= i < |script| ==> script[i].digest != d
    ensures var end := Deploy(host, stored, script);
      && !(end.Returned? && end.verdict == Pass)
      && end.w.stored.Some? && end.w.stored.value.phase != Complete && end.w.stored.value.status != Pass
  {
    var w := Opened(host, stored, script);
    BodyStale(w, d);
    HandlersOpen(Body(w, true).w);
    NeverPasses(w, Body(w, true));
    hide Body, OnUnknown, OnFailed;
  }

  /** Nothing on disk claims completion. */
  predicate Incomplete(stored: Option<Record>) {
    stored.Some? && stored.value.phase != Complete && stored.value.status != Pass
  }

  lemma HandlersOpen(w: World)
    requires Incomplete(w.stored) && w.phase != Complete
    ensures Incomplete(OnUnknown(w).w.stored) && Incomplete(OnFailed(w).w.stored)
  {
    WritesOpen();
    RetainFrames(w);
    RollBackUpgrades(w);
    var back := RollBack(w);
    RetainFrames(back.w);
    hide RetainGate, RollBack, Write, Incomplete;
  }

  lemma WritesOpen()
    ensures forall w: World, p, s, e ::
      Incomplete(w.stored) && p != Complete && s != Pass ==> Incomplete(Write(w, p, s, e).w.stored)
  {}
}
