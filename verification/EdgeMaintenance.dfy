/**
 The maintenance transaction as it runs: one object whose variables change step by step
 (src/switchstand/edge_maintenance.py:1304-1554). Every method is proved to do exactly what the
 function of the same name in `EdgeDeploy` says, so what is proved about those functions holds here.
 */
module EdgeMaintenance {
  import opened Prelude
  import opened EdgeHost
  import D = EdgeDeploy
  import EdgeProtocol
  import EdgeTruth
  import EdgeVerdicts

  /** How a call came back: with a value, or by raising one of the three ways a step can break. */
  datatype Outcome<+T> = Back(value: T) | Raised(kind: Kind) {
    predicate IsFailure() { Raised? }
    function PropagateFailure<U>(): Outcome<U>
      requires Raised?
    { Raised(kind) }
    function Extract(): T
      requires Back?
    { value }
  }

  function Of<T>(r: Res<T>): Outcome<T> {
    match r
    case Ok(_, x) => Back(x)
    case Failed(_) => Raised(Failing)
    case Unknown(_) => Raised(Unsure)
    case Crashed(_) => Raised(Crash)
  }

  class Maintenance {
    var host: Host
    var stored: Option<Record>
    var value: Record
    var phase: Phase
    var attempted: bool
    var retained: bool
    var torn: bool
    var script: seq<Fate>

    function Now(): World
      reads this
    {
      World(host, stored, value, phase, attempted, retained, torn, script)
    }

    /** The object is where `r` leaves the world, and the call came back as `r` says. */
    predicate Did<T(==)>(r: Res<T>, o: Outcome<T>)
      reads this
    {
      Now() == r.w && o == Of(r)
    }

    /** The durable receipt says the verdict. */
    predicate Agreed(verdict: Status)
      reads this
    {
      stored.Some? && stored.value.status == verdict && verdict != Running
    }

    /** Reads the receipt, or starts a new one in memory. */
    constructor (host: Host, stored: Option<Record>, script: seq<Fate>)
      ensures Now() == D.Opened(host, stored, script)
    {
      this.host, this.stored, this.script := host, stored, script;
      value := if stored.Some? then stored.value else FRESH;
      phase := if stored.Some? then stored.value.phase else Preflight;
      attempted := stored.Some? && stored.value.phase !in {Preflight, Prepared};
      retained, torn := false, false;
    }

    /** One call into `Operations`. */
    method Perform<T(==)>(op: World -> Res<T>) returns (o: Outcome<T>)
      modifies this
      ensures Did(op(old(Now())), o)
    {
      var r := op(Now());
      host, stored, value, phase := r.w.host, r.w.stored, r.w.value, r.w.phase;
      attempted, retained, torn, script := r.w.attempted, r.w.retained, r.w.torn, r.w.script;
      o := Of(r);
    }

    method Write(p: Phase, status: Status, error: Option<Trouble>) returns (o: Outcome<()>)
      modifies this
      ensures Did(D.Write(old(Now()), p, status, error), o)
    {
      value := value.(phase := p, status := status, error := error);
      var fate := CALM;
      if script != [] { fate, script := script[0], script[1..]; }
      if fate.kind.Fine? {
        stored := Some(value);
        return Back(());
      }
      if fate.landing != Nothing {
        stored := Some(value);
        torn := torn || (status in {Pass, Fail} && fate.kind != Crash);
      }
      o := Raised(fate.kind);
    }

    method Reach(p: Phase) returns (o: Outcome<()>)
      modifies this
      ensures Did(D.Reach(old(Now()), p), o)
    {
      phase := p;
      o := Write(p, Running, None);
    }

    // -------------------------------------------------------------- the gate

    method RetainTry() returns (o: Outcome<()>)
      modifies this
      ensures Did(D.RetainTry(old(Now())), o)
    {
      hide Look, Read, Act;
      var exact :- Perform(GateExact);
      if !exact { var _ :- Perform(GateOp); }
      exact :- Perform(GateExact);
      if !exact { return Raised(Unsure); }
      var seen :- Perform(PublicGated);
      o := if seen then Back(()) else Raised(Unsure);
    }

    method RetainGate() returns (o: Outcome<()>)
      modifies this
      ensures Did(D.RetainGate(old(Now())), o)
    {
      hide D.RetainTry;
      o := RetainTry();
      if o == Raised(Failing) { o := Raised(Unsure); }
    }

    method AbortTry() returns (o: Outcome<()>)
      modifies this
      ensures Did(D.AbortTry(old(Now())), o)
    {
      hide Look, Read, Act;
      if value.mark != NotStarted { return Raised(Unsure); }
      var ready :- Perform(RollbackReady);
      if !ready { return Raised(Unsure); }
      var _ :- Perform(UngateOp);
      var exact :- Perform(GateExact);
      o := if exact then Raised(Unsure) else Back(());
    }

    method Abort() returns (o: Outcome<Status>)
      modifies this
      ensures Did(D.Abort(old(Now())), o)
      ensures EdgeProtocol.Mid(old(Now())) && old(phase) == Gated ==>
                EdgeProtocol.Mid(Now()) && (o.Back? ==> Agreed(o.value))
    {
      if EdgeProtocol.Mid(Now()) && phase == Gated { EdgeProtocol.AbortKeeps(Now()); }
      hide EdgeProtocol.Mid, D.AbortTry, D.Write, Look;
      var tried := AbortTry();
      if tried == Raised(Crash) { return Raised(Crash); }
      if tried.Raised? {
        var _ :- Write(Gated, Unsettled, Some(GateAbortUnknown));
        return Back(Unsettled);
      }
      var seen := Perform(PublicReady);
      if seen == Raised(Crash) { return Raised(Crash); }
      var _ :- Write(RolledBack, Fail, Some(PublicGateUnproven));
      o := Back(Fail);
    }

    // -------------------------------------------------------------- the body of `deploy`

    method Begin(existing: bool) returns (o: Outcome<Phase>)
      modifies this
      ensures Did(D.Begin(old(Now()), existing), o)
    {
      hide D.Reach, Classify, PreflightOp, ReconcileOp;
      if !existing {
        var _ :- Reach(phase);
        var _ :- Perform(PreflightOp);
        return Back(phase);
      }
      var seen :- Perform((w: World) => ReconcileOp(w, w.phase, w.value.snapshot));
      retained := seen.retained;
      if seen.snapshot.Some? { value := value.(snapshot := seen.snapshot); }
      if (seen.phase != phase || seen.snapshot.Some?) && phase != Prepared { var _ :- Reach(seen.phase); }
      attempted := seen.phase !in {Preflight, Prepared};
      o := Back(seen.phase);
    }

    method Reprepare(resume: bool, seen: Phase) returns (o: Outcome<()>)
      modifies this
      ensures Did(D.Reprepare(old(Now()), resume, seen), o)
    {
      hide D.Reach, PrepareOp;
      if !resume { return Back(()); }
      var image :- Perform(PrepareOp);
      value := value.(image := Some(image));
      o := Reach(seen);
    }

    method StagePrepare() returns (o: Outcome<()>)
      modifies this
      ensures Did(D.StagePrepare(old(Now())), o)
      ensures EdgeProtocol.Mid(old(Now())) ==> EdgeProtocol.Mid(Now())
    {
      if EdgeProtocol.Mid(Now()) { EdgeProtocol.PrepareKeeps(Now()); }
      hide EdgeProtocol.Mid, D.Reach, PrepareOp, Look;
      if phase != Preflight { return Back(()); }
      var ready :- Perform(CurrentPublicReady);
      if !ready { return Raised(Failing); }
      var image :- Perform(PrepareOp);
      value := value.(image := Some(image));
      o := Reach(Prepared);
    }

    method StageGate() returns (o: Outcome<()>)
      modifies this
      ensures Did(D.StageGate(old(Now())), o)
      ensures EdgeProtocol.Mid(old(Now())) ==> EdgeProtocol.Mid(Now())
    {
      if EdgeProtocol.Mid(Now()) { EdgeProtocol.GateKeeps(Now()); }
      hide EdgeProtocol.Mid, D.Reach, Act;
      if phase != Prepared { return Back(()); }
      attempted := true;
      var _ :- Perform(GateOp);
      o := Reach(Gated);
    }

    method StageStop() returns (o: Outcome<Option<Status>>)
      modifies this
      ensures Did(D.StageStop(old(Now())), o)
    {
      hide D.Reach, D.Abort, StopOp, PublicGated;
      if phase != Gated { return Back(None); }
      if value.image.None? {
        var s :- Abort();
        return Back(Some(s));
      }
      var seen := Perform(PublicGated);
      if seen == Raised(Crash) { return Raised(Crash); }
      if seen != Back(true) {
        var s :- Abort();
        return Back(Some(s));
      }
      var _ :- Perform(StopOp);
      var _ :- Reach(Stopped);
      o := Back(None);
    }

    method StageUpgrade() returns (o: Outcome<()>)
      modifies this
      ensures Did(D.StageUpgrade(old(Now())), o)
      ensures EdgeProtocol.Mid(old(Now())) ==> EdgeProtocol.Mid(Now())
    {
      if EdgeProtocol.Mid(Now()) { EdgeProtocol.UpgradeKeeps(Now()); }
      hide EdgeProtocol.Mid, D.Reach, UpgradeOp;
      if phase != Stopped { return Back(()); }
      value := value.(mark := Pending);
      var _ :- Reach(UpgradePending);
      if value.image.None? { return Raised(Crash); }
      var mark :- Perform(UpgradeOp);
      value := value.(mark := mark);
      o := Reach(Upgraded);
    }

    method StageSnapshot() returns (o: Outcome<()>)
      modifies this
      ensures Did(D.StageSnapshot(old(Now())), o)
      ensures EdgeProtocol.Mid(old(Now())) ==> EdgeProtocol.Mid(Now())
    {
      if EdgeProtocol.Mid(Now()) { EdgeProtocol.SnapshotKeeps(Now()); }
      hide EdgeProtocol.Mid, D.Reach, SnapshotOp, SnapshotDigestOp;
      if phase != Upgraded { return Back(()); }
      var _ :- Perform(SnapshotOp);
      var digest :- Perform(SnapshotDigestOp);
      value := value.(snapshot := Some(digest));
      o := Reach(Snapshotted);
    }

    method StageSwap() returns (o: Outcome<()>)
      modifies this
      ensures Did(D.StageSwap(old(Now())), o)
      ensures EdgeProtocol.Mid(old(Now())) ==> EdgeProtocol.Mid(Now())
    {
      if EdgeProtocol.Mid(Now()) { EdgeProtocol.SwapStartKeep(Now()); }
      hide EdgeProtocol.Mid, D.Reach, SwapOp;
      if phase != Snapshotted { return Back(()); }
      var _ :- Perform(SwapOp);
      o := Reach(Swapped);
    }

    method StageStart() returns (o: Outcome<()>)
      modifies this
      ensures Did(D.StageStart(old(Now())), o)
      ensures EdgeProtocol.Mid(old(Now())) ==> EdgeProtocol.Mid(Now())
    {
      if EdgeProtocol.Mid(Now()) { EdgeProtocol.SwapStartKeep(Now()); }
      hide EdgeProtocol.Mid, D.Reach, StartOp;
      if phase != Swapped { return Back(()); }
      var _ :- Perform(StartOp);
      o := Reach(Started);
    }

    method Boundary() returns (o: Outcome<()>)
      modifies this
      ensures Did(D.Boundary(old(Now())), o)
    {
      hide Look, Read;
      var exact :- Perform(GateExact);
      if !exact { return Raised(Unsure); }
      var seen :- Perform(PublicGated);
      o := if seen then Back(()) else Raised(Unsure);
    }

    method StageSemantic() returns (o: Outcome<()>)
      modifies this
      ensures Did(D.StageSemantic(old(Now())), o)
      ensures EdgeProtocol.Mid(old(Now())) ==> EdgeProtocol.Mid(Now())
    {
      if EdgeProtocol.Mid(Now()) { EdgeProtocol.SemanticKeeps(Now()); }
      hide EdgeProtocol.Mid, D.Reach, D.Boundary, SemanticOp;
      if value.mark != NoEffect { return Back(()); }
      var _ :- Boundary();
      var probe :- Perform(SemanticOp);
      if value.probe.Some? && value.probe != Some(probe) { return Raised(Unsure); }
      if value.probe.Some? { return Back(()); }
      value := value.(probe := Some(probe));
      o := Reach(phase);
    }

    method StageUngate() returns (o: Outcome<()>)
      modifies this
      ensures Did(D.StageUngate(old(Now())), o)
      ensures EdgeProtocol.Mid(old(Now())) && old(phase) in {Started, Ungated} ==> EdgeProtocol.Mid(Now())
    {
      if EdgeProtocol.Mid(Now()) && phase in {Started, Ungated} { EdgeProtocol.UngateKeeps(Now()); }
      hide EdgeProtocol.Mid, D.Reach, D.Boundary, Act;
      if phase != Started && !retained { return Back(()); }
      var _ :- Boundary();
      var _ :- Perform(UngateOp);
      o := Reach(Ungated);
    }

    method Finish() returns (o: Outcome<Status>)
      modifies this
      ensures Did(D.Finish(old(Now())), o)
    {
      hide LocalReady, PublicReady, D.StageSemantic, D.StageUngate, D.Write;
      var ready :- Perform(LocalReady);
      if !ready { return Raised(Failing); }
      var _ :- StageSemantic();
      var _ :- StageUngate();
      var public :- Perform(PublicReady);
      if !public { return Raised(Failing); }
      var _ :- Write(Complete, Pass, None);
      o := Back(Pass);
    }

    method Front() returns (o: Outcome<Option<Status>>)
      modifies this
      ensures Did(D.Front(old(Now())), o)
    {
      hide D.StagePrepare, D.StageGate, D.StageStop;
      var _ :- StagePrepare();
      var _ :- StageGate();
      o := StageStop();
    }

    method Replace() returns (o: Outcome<Status>)
      modifies this
      ensures Did(D.Replace(old(Now())), o)
    {
      hide D.StageUpgrade, D.StageSnapshot, D.StageSwap, D.StageStart, D.Finish;
      var _ :- StageUpgrade();
      var _ :- StageSnapshot();
      var _ :- StageSwap();
      var _ :- StageStart();
      o := Finish();
    }

    method Body(existing: bool) returns (o: Outcome<Status>)
      modifies this
      ensures Did(D.Body(old(Now()), existing), o)
    {
      hide D.Abort, D.Begin, D.Reprepare, D.Front, D.Replace;
      if existing && phase == Gated && value.error == Some(GateAbortUnknown) {
        o := Abort();
        return;
      }
      var resumePrepared := existing && phase == Prepared;
      var seen :- Begin(existing);
      if phase == UpgradePending { return Raised(Unsure); }
      var _ :- Reprepare(resumePrepared, seen);
      var ended :- Front();
      if ended.Some? { return Back(ended.value); }
      o := Replace();
    }

    // -------------------------------------------------------------- the handlers

    method Settle(kept: Outcome<()>, otherwise: Trouble, ghost was: Res<()>) returns (o: Outcome<Status>)
      requires Did(was, kept)
      modifies this
      ensures Did(D.Settle(was, otherwise), o)
    {
      hide D.Write;
      if kept == Raised(Crash) { return Raised(Crash); }
      var _ :- Write(phase, Unsettled, Some(if kept.Back? then otherwise else GateRetentionUnknown));
      o := Back(Unsettled);
    }

    method OnUnknown() returns (o: Outcome<Status>)
      modifies this
      ensures Did(D.OnUnknown(old(Now())), o)
      ensures EdgeProtocol.Mid(old(Now())) ==> EdgeProtocol.Mid(Now()) && (o.Back? ==> Agreed(o.value))
    {
      if EdgeProtocol.Mid(Now()) { EdgeProtocol.OnUnknownKeeps(Now()); }
      hide EdgeProtocol.Mid, D.RetainGate, D.Settle;
      ghost var was := if attempted then D.RetainGate(Now()) else Ok(Now(), ());
      var kept := Back(());
      if attempted { kept := RetainGate(); }
      o := Settle(kept, AmbiguousOutcome, was);
    }

    method StartOld() returns (o: Outcome<()>)
      modifies this
      ensures Did(D.StartOld(old(Now())), o)
    {
      hide StartOp, Look;
      var _ :- Perform(StartOp);
      var ready :- Perform(RollbackReady);
      o := if ready then Back(()) else Raised(Unsure);
    }

    method RestoreService() returns (o: Outcome<()>)
      modifies this
      ensures Did(D.RestoreService(old(Now())), o)
    {
      hide D.StartOld, Act, RestoreOp;
      if phase in {Swapped, Started, Ungated} {
        var _ :- Perform(StopOp);
        var _ :- Perform(RestoreOp);
        o := StartOld();
      } else if phase in {Stopped, Upgraded, Snapshotted} {
        o := StartOld();
      } else {
        o := Back(());
      }
    }

    method Regate() returns (o: Outcome<()>)
      modifies this
      ensures Did(D.Regate(old(Now())), o)
    {
      hide Act, Look;
      if phase != Ungated { return Back(()); }
      var _ :- Perform(GateOp);
      var seen :- Perform(PublicGated);
      o := if seen then Back(()) else Raised(Unsure);
    }

    method Republish() returns (o: Outcome<()>)
      modifies this
      ensures Did(D.Republish(old(Now())), o)
    {
      hide Act, Look;
      if phase == Preflight { return Back(()); }
      var _ :- Perform(UngateOp);
      var public :- Perform(CurrentPublicReady);
      if !public { return Raised(Unsure); }
      if phase in {Swapped, Started, Ungated} {
        var done :- Perform(RollbackComplete);
        if !done { return Raised(Unsure); }
      }
      o := Back(());
    }

    method RollBack() returns (o: Outcome<()>)
      modifies this
      ensures Did(D.RollBack(old(Now())), o)
    {
      hide D.Regate, D.RestoreService, D.Republish;
      if value.mark == Pending { return Raised(Unsure); }
      var _ :- Regate();
      var _ :- RestoreService();
      o := Republish();
    }

    method OnFailed() returns (o: Outcome<Status>)
      modifies this
      ensures Did(D.OnFailed(old(Now())), o)
      ensures EdgeProtocol.Mid(old(Now())) ==> EdgeProtocol.Mid(Now()) && (o.Back? ==> Agreed(o.value))
    {
      if EdgeProtocol.Mid(Now()) { EdgeProtocol.OnFailedKeeps(Now()); }
      hide EdgeProtocol.Mid, D.RollBack, D.RetainGate, D.Settle, D.Write;
      var back := RollBack();
      if back == Raised(Crash) { return Raised(Crash); }
      if back.Raised? {
        ghost var was := D.RetainGate(Now());
        var kept := RetainGate();
        o := Settle(kept, RollbackUnknown, was);
        return;
      }
      var _ :- Write(RolledBack, Fail, Some(DefiniteFailure));
      o := Back(Fail);
    }

    // -------------------------------------------------------------- `deploy`

    /**
     One whole run. It does exactly what the specification says, keeps the write-ahead protocol, and
     its verdict tells the truth about the host unless it was misled.
     */
    method Deploy(ghost origin: Host) returns (o: Outcome<Status>)
      requires Now() == D.Opened(host, stored, script)
      modifies this
      ensures var end := D.Deploy(old(host), old(stored), old(script));
        Now() == end.w && (o.Back? <==> end.Returned?) && (o.Back? ==> o.value == end.verdict)
      ensures EdgeProtocol.Protocol(old(host), old(stored)) ==> EdgeProtocol.Protocol(host, stored)
      ensures EdgeProtocol.Protocol(old(host), old(stored)) && EdgeTruth.Truthful(old(stored), old(host), origin)
              && !EdgeVerdicts.Misled(old(host), old(stored), old(script), origin) && o.Back? ==>
                EdgeVerdicts.VerdictHolds(D.Returned(Now(), o.value), old(host), origin)
    {
      ghost var end := D.Deploy(host, stored, script);
      if EdgeProtocol.Protocol(host, stored) {
        EdgeProtocol.DeployKeeps(host, stored, script);
        if EdgeTruth.Truthful(stored, host, origin) && !EdgeVerdicts.Misled(host, stored, script, origin) {
          if end.Returned? { EdgeVerdicts.VerdictsExactly(host, stored, script, origin); }
        }
      }
      hide D.Body, D.OnUnknown, D.OnFailed, EdgeProtocol.Protocol, EdgeTruth.Truthful, EdgeVerdicts.Misled,
           EdgeVerdicts.VerdictHolds;
      if value.status in {Pass, Fail} {
        o := Back(value.status);
      } else {
        o := Body(stored.Some?);
        if o == Raised(Unsure) {
          o := OnUnknown();
        } else if o == Raised(Failing) {
          o := OnFailed();
        }
      }
    }

    /** A run that cannot read its receipt only makes sure of the gate. */
    method DeployBlind() returns (o: Outcome<Status>)
      requires Now() == D.Opened(host, stored, script)
      modifies this
      ensures var end := D.DeployBlind(old(host), old(stored), old(script));
        Now() == end.w && (o.Back? <==> end.Returned?) && (o.Back? ==> o.value == end.verdict)
      ensures o.Back? ==> o.value == Unsettled && stored == old(stored)
      ensures host in {old(host), old(host).(gate := Applied)}
    {
      EdgeProtocol.RetainFrames(Now());
      hide D.RetainGate;
      var kept := RetainGate();
      o := if kept == Raised(Crash) then Raised(Crash) else Back(Unsettled);
    }

    method RecoverBody() returns (o: Outcome<Status>)
      modifies this
      ensures Did(D.RecoverBody(old(Now())), o)
    {
      hide Look, D.Write;
      if stored.None? { return Raised(Unsure); }
      var v := stored.value;
      if v.status == Fail && v.phase == NoEffectProven && v.mark == NotStarted
         && v.error == Some(UpgradeProvenNotApplied)
      {
        return Back(Fail);
      }
      if v.status != Unsettled || v.phase != UpgradePending || v.mark != Pending { return Raised(Unsure); }
      var proven :- Perform((w: World) => Look(w, NoEffectProvable(w.host)));
      if !proven { return Raised(Unsure); }
      value := v.(mark := NotStarted);
      var _ :- Write(NoEffectProven, Fail, Some(UpgradeProvenNotApplied));
      o := Back(Fail);
    }

    /** `recover_upgrade_no_effect`: never touches the host. */
    method Recover() returns (o: Outcome<Status>)
      requires Now() == D.Opened(host, stored, script)
      modifies this
      ensures var end := D.Recover(old(host), old(stored), old(script));
        Now() == end.w && (o.Back? <==> end.Returned?) && (o.Back? ==> o.value == end.verdict)
    {
      hide Read, D.RecoverBody;
      var locked := Perform((w: World) => Read(w, true));
      if locked.Raised? { return if locked.kind == Crash then Raised(Crash) else Back(Unsettled); }
      var done := RecoverBody();
      if done == Raised(Crash) { return Raised(Crash); }
      var unlocked := Perform((w: World) => Read(w, true));
      if unlocked == Raised(Crash) { return Raised(Crash); }
      o := if unlocked.Back? && done.Back? then done else Back(Unsettled);
    }
  }
}
