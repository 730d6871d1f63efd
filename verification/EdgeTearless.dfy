/**
 A condition on the script alone under which no receipt ever lies: whatever raises has not landed.
 Crashes, failures before an effect, and probes that miss remain possible everywhere.
 */
module EdgeTearless {
  import opened Prelude
  import opened EdgeHost
  import opened EdgeDeploy
  import opened EdgeProtocol
  import opened EdgeTruth
  import opened EdgeTorn
  import opened EdgeVerdicts

  /** No step raises although it took effect. */
  predicate Tearless(script: seq<Fate>) {
    forall i :: 0 <= i < |script| ==> script[i].kind in {Failing, Unsure} ==> script[i].landing == Nothing
  }

  predicate Whole(torn: bool, script: seq<Fate>) { !torn && Tearless(script) }

  /** Nothing was torn, and nothing to come can tear. */
  predicate Safe(w: World) { Whole(w.torn, w.script) }

  lemma NextSafe()
    ensures forall w: World :: Safe(w) ==> Safe(Next(w).0)
  {}

  lemma HostStepsSafe()
    ensures forall w: World, p, f :: Safe(w) ==> Safe(Act(w, p, f).w)
    ensures forall w: World, t :: Safe(w) ==> Safe(Look(w, t).w)
    ensures forall w: World, t :: Safe(w) ==> Safe(Read(w, t).w)
  {
    NextSafe();
    hide Next, Whole;
  }

  lemma MeasuresSafe()
    ensures forall w: World :: Safe(w) ==> Safe(PreflightOp(w).w)
    ensures forall w: World :: Safe(w) ==> Safe(PrepareOp(w).w)
    ensures forall w: World :: Safe(w) ==> Safe(UpgradeOp(w).w)
    ensures forall w: World :: Safe(w) ==> Safe(SnapshotOp(w).w)
    ensures forall w: World :: Safe(w) ==> Safe(SnapshotDigestOp(w).w)
    ensures forall w: World :: Safe(w) ==> Safe(SemanticOp(w).w)
    ensures forall w: World, p, s :: Safe(w) ==> Safe(ReconcileOp(w, p, s).w)
  {
    NextSafe();
    hide Next, Whole, Classify;
  }

  lemma WritesSafe()
    ensures forall w: World, p, s, e :: Safe(w) ==> Safe(Write(w, p, s, e).w)
    ensures forall w: World, p :: Safe(w) ==> Safe(Reach(w, p).w)
  {}

  lemma BoundarySafe()
    ensures forall w: World :: Safe(w) ==> Safe(Boundary(w).w)
  {
    HostStepsSafe();
    hide Look, Read, Whole;
  }

  lemma AbortSafe()
    ensures forall w: World :: Safe(w) ==> Safe(Abort(w).w)
  {
    HostStepsSafe();
    WritesSafe();
    hide Look, Read, Act, Write, Whole;
  }

  lemma AbortSafeAt(w: World)
    requires Safe(w)
    ensures Safe(Abort(w).w)
  {
    AbortSafe();
  }

  lemma BeginSafe(w: World, existing: bool)
    requires Safe(w)
    ensures Safe(Begin(w, existing).w)
  {
    MeasuresSafe();
    WritesSafe();
    hide ReconcileOp, PreflightOp, Reach, Whole;
  }

  lemma ReprepareSafe(w: World, resume: bool, seen: Phase)
    requires Safe(w)
    ensures Safe(Reprepare(w, resume, seen).w)
  {
    MeasuresSafe();
    WritesSafe();
    hide PrepareOp, Reach, Whole;
  }

  lemma FrontStagesSafe(w: World)
    requires Safe(w)
    ensures Safe(StagePrepare(w).w) && Safe(StageGate(w).w) && Safe(StageStop(w).w)
  {
    HostStepsSafe();
    MeasuresSafe();
    WritesSafe();
    AbortSafe();
    hide PrepareOp, Look, Act, Reach, Abort, Whole;
  }

  lemma FrontSafe(w: World)
    requires Safe(w)
    ensures Safe(Front(w).w)
  {
    hide StagePrepare, StageGate, StageStop, Safe;
    FrontStagesSafe(w);
    var p := StagePrepare(w);
    if p.Ok? {
      FrontStagesSafe(p.w);
      var g := StageGate(p.w);
      if g.Ok? { FrontStagesSafe(g.w); }
    }
  }

  lemma ReplaceStagesSafe(w: World)
    requires Safe(w)
    ensures Safe(StageUpgrade(w).w) && Safe(StageSnapshot(w).w) && Safe(StageSwap(w).w) && Safe(StageStart(w).w)
  {
    HostStepsSafe();
    MeasuresSafe();
    WritesSafe();
    hide UpgradeOp, SnapshotOp, SnapshotDigestOp, Act, Reach, Whole;
  }

  lemma FinishStagesSafe(w: World)
    requires Safe(w)
    ensures Safe(StageSemantic(w).w) && Safe(StageUngate(w).w)
  {
    HostStepsSafe();
    MeasuresSafe();
    WritesSafe();
    BoundarySafe();
    hide Boundary, SemanticOp, Act, Reach, Whole;
  }

  lemma FinishSafe(w: World)
    requires Safe(w)
    ensures Safe(Finish(w).w)
  {
    HostStepsSafe();
    WritesSafe();
    hide Look, StageSemantic, StageUngate, Write, Safe;
    var l := LocalReady(w);
    if l.Ok? {
      FinishStagesSafe(l.w);
      var s := StageSemantic(l.w);
      if s.Ok? { FinishStagesSafe(s.w); }
    }
  }

  lemma ReplaceSafe(w: World)
    requires Safe(w)
    ensures Safe(Replace(w).w)
  {
    hide StageUpgrade, StageSnapshot, StageSwap, StageStart, Finish, Safe;
    ReplaceStagesSafe(w);
    var u := StageUpgrade(w);
    if u.Ok? {
      ReplaceStagesSafe(u.w);
      var s := StageSnapshot(u.w);
      if s.Ok? {
        ReplaceStagesSafe(s.w);
        var p := StageSwap(s.w);
        if p.Ok? {
          ReplaceStagesSafe(p.w);
          var t := StageStart(p.w);
          if t.Ok? { FinishSafe(t.w); }
        }
      }
    }
  }

  lemma BodySafe(w: World, existing: bool)
    requires Safe(w)
    ensures Safe(Body(w, existing).w)
  {
    AbortSafeAt(w);
    BeginSafe(w, existing);
    hide Begin, Reprepare, Front, Replace, Abort, Safe;
    var g := Begin(w, existing);
    if g.Ok? {
      ReprepareSafe(g.w, existing && w.phase == Prepared, g.value);
      var r := Reprepare(g.w, existing && w.phase == Prepared, g.value);
      if r.Ok? {
        FrontSafe(r.w);
        var f := Front(r.w);
        if f.Ok? { ReplaceSafe(f.w); }
      }
    }
  }

  /** A run on such a script leaves a true receipt, unless it was misled. */
  lemma TearlessRunsTellTheTruth(host: Host, stored: Option<Record>, script: seq<Fate>, origin: Host)
    requires Protocol(host, stored) && Truthful(stored, host, origin)
    requires Tearless(script) && !Misled(host, stored, script, origin)
    ensures var end := Deploy(host, stored, script); Truthful(end.w.stored, end.w.host, origin)
  {
    ReceiptExactly(host, stored, script, origin);
    if LeavesLie(host, stored, script, origin) && !Surprised(host, stored, script) {
      OpenedTracks(host, stored, script, origin);
      var w := Opened(host, stored, script);
      BodyHonest(w, stored.Some?, Basis(origin, host));
      SoundMeans(Body(w, stored.Some?), Basis(origin, host));
      BodySafe(w, stored.Some?);
      assert false;
    } else if !Terminal(stored) && Surprised(host, stored, script) {
      SurpriseTruth(host, stored, script, origin);
    }
    hide Deploy, Body, Truthful, Surprised;
  }
}
