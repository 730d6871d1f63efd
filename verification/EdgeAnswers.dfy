/**
 The answers of a run, exactly: when a rollback, an abort, a retained gate, a recovery and a resume
 succeed, on the fields of the host and the fates of their steps.
 */
module EdgeAnswers {
  import opened Prelude
  import opened EdgeHost
  import opened EdgeDeploy
  import opened EdgeProtocol
  import opened EdgeUnprepared
  import opened EdgeRuns
  import opened EdgeRoute

  // ---------------------------------------------------------------- the gate

  /** A gate is retained if and only if it is or gets up, and is then seen from both sides. */
  lemma RetainExactly(w: World)
    ensures var up, s := w.host.gate == Applied, w.script;
      var kept :=
        if up then Meet3(s, Work, Work, Sees(true, Unsure)) else Meet4(s, Work, Work, Work, Sees(true, Unsure));
      && (RetainGate(w).Ok? <==> kept.None?) && (RetainGate(w).Crashed? <==> kept == Some(Crash))
      && (RetainGate(w).Ok? ==> RetainGate(w).w.host == w.host.(gate := Applied))
  {
    LookFollows(w, w.host.gate == Applied);
    var e := GateExact(w);
    hide Look, Read, Act;
    if e.Ok? {
      ActFollows(e.w, e.w.host, e.w.host.(gate := Applied));
      var g := if e.value then Ok(e.w, ()) else GateOp(e.w);
      if g.Ok? {
        LookFollows(g.w, g.w.host.gate == Applied);
        var x := GateExact(g.w);
        if x.Ok? { LookFollows(x.w, x.w.host.gate == Applied); }
      }
    }
  }

  /** With an unreadable receipt the gate is put and kept up, nothing else moves, and nothing is settled. */
  lemma BlindExactly(host: Host, stored: Option<Record>, s: seq<Fate>)
    ensures var end, up := DeployBlind(host, stored, s), host.gate == Applied;
      var kept :=
        if up then Meet3(s, Work, Work, Sees(true, Unsure)) else Meet4(s, Work, Work, Work, Sees(true, Unsure));
      && (end.Escaped? <==> kept == Some(Crash))
      && (end.Returned? ==> end.verdict == Unsettled && end.w.stored == stored)
      && (kept.None? ==> end.w.host == host.(gate := Applied))
  {
    var w := Opened(host, stored, s);
    RetainExactly(w);
    RetainFrames(w);
    hide RetainGate;
  }

  /** The old route is given back only while the old edge, never yet upgraded, is seen to serve. */
  lemma AbortTryExactly(w: World)
    ensures var serves := w.host.service == Up(Current) && w.host.launcher == Current;
      var b := if w.value.mark != NotStarted then Some(Unsure)
               else Meet3(w.script, Sees(serves, Unsure), Work, Work);
      && Ending(AbortTry(w)) == b
      && (b.None? ==> AbortTry(w).w == w.(host := w.host.(gate := Absent), script := Tail3(w.script)))
  {
    LookFollows(w, CurrentServes(w.host));
    var r := RollbackReady(w);
    hide Look, Read, Act;
    if r.Ok? {
      ActFollows(r.w, r.w.host, r.w.host.(gate := Absent));
      var u := UngateOp(r.w);
      if u.Ok? { LookFollows(u.w, u.w.host.gate == Applied); }
    }
  }

  /**
   An abort answers FAIL if and only if it gave the old route back, survived a last look at it, whatever
   that showed, and recorded ROLLED_BACK; otherwise it answers UNKNOWN, naming the abort.
   */
  lemma AbortExactly(w: World)
    ensures var serves, s := w.host.service == Up(Current) && w.host.launcher == Current, w.script;
      var given := w.value.mark == NotStarted && Meet3(s, Sees(serves, Unsure), Work, Work).None?;
      var answered := given && Head(Tail3(s)).kind != Crash && Head(Tail4(s)).kind.Fine?;
      && (Abort(w).Ok? && Abort(w).value == Fail <==> answered)
      && (Abort(w).Ok? && Abort(w).value == Fail ==>
            Abort(w).w.stored == Some(w.value.(phase := RolledBack, status := Fail, error := Some(PublicGateUnproven))))
      && (Abort(w).Ok? && Abort(w).value != Fail ==>
            Abort(w).value == Unsettled && !given
            && Abort(w).w.stored == Some(
                  w.value.(phase := Gated, status := Unsettled, error := Some(GateAbortUnknown))))
  {
    AbortTryExactly(w);
    AbortTryFrames(w);
    var tried := AbortTry(w);
    LookFollows(tried.w, IsPublic(tried.w.host));
    hide AbortTry, Look;
  }

  // ---------------------------------------------------------------- the rollback

  function StartNeeds(s: seq<Fate>, serves: bool): Option<Kind> { Meet2(s, Work, Sees(serves, Unsure)) }

  /** The last part of a rollback: the public route to the old edge is opened and seen. */
  function RepublishNeeds(s: seq<Fate>, serves: bool, complete: bool): Option<Kind> {
    if complete then Meet3(s, Work, Sees(serves, Unsure), Sees(true, Unsure)) else Meet2(s, Work, Sees(serves, Unsure))
  }

  /**
   What a rollback needs, phase by phase, of the host and of its steps: nothing before anything was
   moved, the old edge serving where it was never stopped, the old launcher in place or restorable
   elsewhere, and never a pending upgrade.
   */
  function RollBackNeeds(w: World): Option<Kind> {
    var h, s := w.host, w.script;
    var current := h.service == Up(Current);
    var restarts := h.launcher == Current && (h.service == Down || current);
    var restores := h.launcher == Current || h.backup == Some(Current);
    if w.value.mark == Pending then Some(Unsure)
    else
      match w.phase
      case Preflight => None
      case Stopped => After(StartNeeds(s, restarts), RepublishNeeds(Tail2(s), true, false))
      case Upgraded => After(StartNeeds(s, restarts), RepublishNeeds(Tail2(s), true, false))
      case Snapshotted => After(StartNeeds(s, restarts), RepublishNeeds(Tail2(s), true, false))
      case Swapped => Restoring(s, h, restores)
      case Started => Restoring(s, h, restores)
      case Ungated => After(Meet2(s, Work, Sees(true, Unsure)), Restoring(Tail2(s), h, restores))
      case _ => RepublishNeeds(s, current, false)
  }

  function After(first: Option<Kind>, second: Option<Kind>): Option<Kind> { if first.Some? then first else second }

  /** Stop, put the old launcher back, start it and see it serve, open the route, and look once more. */
  function Restoring(s: seq<Fate>, h: Host, restores: bool): Option<Kind> {
    var possible := h.launcher == Current || h.backup.Some?;
    var stopped := Break(s, Work);
    if stopped.Some? then stopped
    else if !possible then Some(Failing)
    else
      After(Break(Tail(s), Work),
            After(StartNeeds(Tail2(s), restores), RepublishNeeds(Tail4(s), true, true)))
  }

  lemma StartOldExactly(w: World)
    ensures var build := if w.host.service.Up? then w.host.service else Up(w.host.launcher);
      var serves := build == Up(Current) && w.host.launcher == Current;
      && Ending(StartOld(w)) == StartNeeds(w.script, serves)
      && (StartOld(w).Ok? ==> StartOld(w).w == w.(host := w.host.(service := build), script := Tail2(w.script)))
  {
    var build := if w.host.service.Up? then w.host.service else Up(w.host.launcher);
    ActFollows(w, w.host, w.host.(service := build));
    var s := StartOp(w);
    LookFollows(s.w, CurrentServes(s.w.host));
    hide Act, Look;
  }

  lemma RepublishExactly(w: World)
    requires w.phase != Preflight
    ensures var current := w.host.service == Up(Current);
      var complete := w.phase in {Swapped, Started, Ungated};
      (complete ==> w.host.launcher == Current) ==>
        && Ending(Republish(w)) == RepublishNeeds(w.script, current, complete)
        && (Republish(w).Ok? ==> Republish(w).w.host == w.host.(gate := Absent))
  {
    ActFollows(w, w.host, w.host.(gate := Absent));
    var u := UngateOp(w);
    LookFollows(u.w, CurrentIsPublic(u.w.host));
    var p := CurrentPublicReady(u.w);
    LookFollows(p.w, CurrentServes(p.w.host) && p.w.host.gate == Absent);
    hide Act, Look;
  }

  lemma RestoreExactly(w: World)
    requires w.phase in {Swapped, Started, Ungated}
    ensures var h, s, r := w.host, w.script, RestoreService(w);
      var restores := h.launcher == Current || h.backup == Some(Current);
      var stopped := Break(s, Work);
      && Ending(r) == (if stopped.Some? then stopped
                       else if h.launcher != Current && h.backup.None? then Some(Failing)
                       else After(Break(Tail(s), Work), StartNeeds(Tail2(s), restores)))
      && (r.Ok? ==> r.w == w.(host := h.(service := Up(Current), launcher := Current), script := Tail4(s)) && restores)
  {
    ActFollows(w, w.host, w.host.(service := Down));
    var d := StopOp(w);
    hide Act, StartOld;
    if d.Ok? {
      var to :=
        if d.w.host.launcher == Current then Current
        else if d.w.host.backup.Some? then d.w.host.backup.value else Foreign;
      ActFollows(d.w, d.w.host, d.w.host);
      ActFollows(d.w, d.w.host, d.w.host.(launcher := to));
      var r := RestoreOp(d.w);
      assert d.w.host.(launcher := d.w.host.launcher) == d.w.host;
      if r.Ok? { StartOldExactly(r.w); }
    }
  }

  lemma RegateExactly(w: World)
    requires w.phase == Ungated
    ensures Ending(Regate(w)) == Meet2(w.script, Work, Sees(true, Unsure))
    ensures Regate(w).Ok? ==> Regate(w).w == w.(host := w.host.(gate := Applied), script := Tail2(w.script))
  {
    ActFollows(w, w.host, w.host.(gate := Applied));
    var g := GateOp(w);
    LookFollows(g.w, g.w.host.gate == Applied);
    hide Act, Look;
  }

  /** A rollback ends as its needs say, and when it returns the old edge is public again. */
  lemma RollBackExactly(w: World)
    requires w.phase !in {UpgradePending, Complete, RolledBack, NoEffectProven}
    ensures Ending(RollBack(w)) == RollBackNeeds(w)
    ensures RollBack(w).Ok? && w.phase != Preflight ==>
      RollBack(w).w.host.gate == Absent && RollBack(w).w.host.service == Up(Current)
    ensures RollBack(w).Ok? && w.phase !in {Preflight, Prepared, Gated} ==> RollBack(w).w.host.launcher == Current
  {
    if w.phase == Preflight { assert w.value.mark != Pending ==> RollBack(w) == Ok(w, ()); }
    hide Regate, RestoreService, Republish, StartOld, StartNeeds, RepublishNeeds;
    if w.value.mark != Pending && w.phase != Preflight {
      if w.phase == Ungated {
        RegateExactly(w);
        var g := Regate(w);
        if g.Ok? { RestoredExactly(g.w); }
      } else {
        RegateFrames(w);
        if w.phase in {Swapped, Started} { RestoredExactly(w); } else { EarlyExactly(w); }
      }
    }
  }

  lemma RestoredExactly(w: World)
    requires w.phase in {Swapped, Started, Ungated}
    ensures var r := RestoreService(w);
      var restores := w.host.launcher == Current || w.host.backup == Some(Current);
      var b := if r.Ok? then Ending(Republish(r.w)) else Ending(r);
      && b == Restoring(w.script, w.host, restores)
      && (r.Ok? && Republish(r.w).Ok? ==>
            && Republish(r.w).w.host == r.w.host.(gate := Absent)
            && r.w.host.service == Up(Current) && r.w.host.launcher == Current)
  {
    RestoreExactly(w);
    hide RestoreService, Republish, StartNeeds, RepublishNeeds;
    var r := RestoreService(w);
    if r.Ok? { RepublishExactly(r.w); }
  }

  lemma EarlyExactly(w: World)
    requires w.phase in {Prepared, Gated, Stopped, Upgraded, Snapshotted}
    ensures var r, h, s := RestoreService(w), w.host, w.script;
      var restarts := h.launcher == Current && (h.service == Down || h.service == Up(Current));
      var b := if r.Ok? then Ending(Republish(r.w)) else Ending(r);
      && b == (if w.phase in {Prepared, Gated} then RepublishNeeds(s, h.service == Up(Current), false)
               else After(StartNeeds(s, restarts), RepublishNeeds(Tail2(s), true, false)))
      && (r.Ok? && Republish(r.w).Ok? ==>
            && Republish(r.w).w.host.gate == Absent && Republish(r.w).w.host.service == Up(Current)
            && (w.phase !in {Prepared, Gated} ==> Republish(r.w).w.host.launcher == Current))
  {
    StartOldExactly(w);
    var r := RestoreService(w);
    hide StartOld;
    if r.Ok? {
      RepublishExactly(r.w);
      RepublishFrames(r.w);
    }
    hide RestoreService, Republish;
  }

  // ---------------------------------------------------------------- verdicts by route

  /** A run on its way: how far `Yields` leaves it, for the abort that follows. */
  function YieldingWorld(host: Host, stored: Option<Record>, script: seq<Fate>, f: Fare): World
    requires f.Yields?
  {
    Opened(host, stored, script).(host := f.host, phase := Gated, value := f.receipt, stored := Some(f.receipt),
                                  attempted := true, script := f.rest)
  }

  /** An attempt that gives its gate up answers as the abort does, if the abort answers. */
  lemma YieldingAnswers(host: Host, stored: Option<Record>, script: seq<Fate>)
    requires Readable(stored) && !Terminal(stored) && Route(host, stored, script).Yields?
    ensures var a := Abort(YieldingWorld(host, stored, script, Route(host, stored, script)));
      a.Ok? ==> Deploy(host, stored, script) == Returned(a.w, a.value)
  {
    BodyFollowsRoute(host, stored, script);
    hide Body, Route, Abort;
  }

  // ---------------------------------------------------------------- the handlers

  /** The receipt an unsettled run leaves. */
  function Unsettling(w: World, error: Trouble): Option<Record> {
    Some(w.value.(phase := w.phase, status := Unsettled, error := Some(error)))
  }

  /** A gate never reached for is left alone; one reached for is put and kept up, or its loss is named. */
  lemma UnknownExactly(w: World)
    ensures var r, kept := OnUnknown(w), RetainGate(w);
      && (r.Ok? ==> r.value == Unsettled)
      && (if !w.attempted then
            && r.w.host == w.host && Ending(r) == Break(w.script, Work)
            && (r.Ok? ==> r.w.stored == Unsettling(w, AmbiguousOutcome))
          else
            && r.w.host == kept.w.host
            && Ending(r) == (if kept.Crashed? then Some(Crash) else Break(kept.w.script, Work))
            && (r.Ok? ==> r.w.stored == Unsettling(w, if kept.Ok? then AmbiguousOutcome else GateRetentionUnknown)))
  {
    RetainFrames(w);
    var kept := if w.attempted then RetainGate(w) else Ok(w, ());
    SettlesExactly(kept, AmbiguousOutcome);
    hide RetainGate, Settle;
  }

  lemma SettlesExactly(kept: Res<()>, otherwise: Trouble)
    ensures var r := Settle(kept, otherwise);
      && r.w.host == kept.w.host && (r.Ok? ==> r.value == Unsettled)
      && Ending(r) == (if kept.Crashed? then Some(Crash) else Break(kept.w.script, Work))
      && (r.Ok? ==> r.w.stored == Unsettling(kept.w, if kept.Ok? then otherwise else GateRetentionUnknown))
  {}

  /** FAIL is told for a rollback that returned and was recorded; any other is unsettled behind the gate. */
  lemma FailedExactly(w: World)
    ensures var r, back := OnFailed(w), RollBack(w);
      var kept := RetainGate(back.w);
      if back.Ok? then
        && Ending(r) == Break(back.w.script, Work) && r.w.host == back.w.host
        && (r.Ok? ==> r.value == Fail && r.w.stored == Some(w.value.(phase := RolledBack, status := Fail,
                                                                     error := Some(DefiniteFailure))))
      else if back.Crashed? then r.Crashed? && r.w == back.w
      else
        && Ending(r) == (if kept.Crashed? then Some(Crash) else Break(kept.w.script, Work)) && r.w.host == kept.w.host
        && (r.Ok? ==> r.value == Unsettled
                      && r.w.stored == Unsettling(w, if kept.Ok? then RollbackUnknown else GateRetentionUnknown))
  {
    RollBackUpgrades(w);
    var back := RollBack(w);
    RetainFrames(back.w);
    SettlesExactly(RetainGate(back.w), RollbackUnknown);
    hide RollBack, RetainGate, Settle;
  }

  // ---------------------------------------------------------------- receipts

  /** What a phase allows: its statuses and upgrade marks, and the proofs it needs. */
  datatype Rule = Rule(statuses: set<Status>, marks: set<Mark>, image: bool, snapshot: bool)

  function RuleOf(p: Phase): Rule {
    var open, known := {Running, Unsettled}, {NoEffect, Applied_};
    match p
    case Preflight => Rule(open, {NotStarted}, false, false)
    case Prepared => Rule(open, {NotStarted}, true, false)
    case Gated => Rule(open, {NotStarted}, false, false)
    case Stopped => Rule(open, {NotStarted}, true, false)
    case UpgradePending => Rule(open, {Pending}, true, false)
    case Upgraded => Rule(open, known, true, false)
    case Snapshotted => Rule(open, known, true, true)
    case Swapped => Rule(open, known, true, true)
    case Started => Rule(open, known, true, true)
    case Ungated => Rule(open, known, true, true)
    case Complete => Rule({Pass}, known, true, true)
    case RolledBack => Rule({Fail}, {NotStarted, NoEffect, Applied_}, false, false)
    case NoEffectProven => Rule({Fail}, {NotStarted}, false, false)
  }

  /** A receipt is accepted if and only if it agrees with the rule of its phase. */
  lemma AcceptedExactly(v: Record)
    ensures var rule := RuleOf(v.phase);
      Accepted(v) <==> v.status in rule.statuses && v.mark in rule.marks
                       && (rule.image ==> v.image.Some?) && (rule.snapshot ==> v.snapshot.Some?)
  {}

  // ---------------------------------------------------------------- recovery

  /** The old edge whole and public on the one database the upgrade never touched. */
  predicate Whole(h: Host) { h == Host(Absent, Up(Current), Current, None, None, Checkpoints, h.upgrades) }

  /** The receipt a recovery may close, and the one it leaves. */
  predicate Ambiguous(stored: Option<Record>) {
    && stored.Some? && stored.value.status == Unsettled && stored.value.phase == UpgradePending
    && stored.value.mark == Pending
  }

  function Closed(v: Record): Record {
    Record(NoEffectProven, Fail, NotStarted, v.image, v.snapshot, v.probe, Some(UpgradeProvenNotApplied))
  }

  predicate AlreadyClosed(stored: Option<Record>) {
    && stored.Some? && stored.value.status == Fail && stored.value.phase == NoEffectProven
    && stored.value.mark == NotStarted
    && stored.value.error == Some(UpgradeProvenNotApplied)
  }

  /**
   A recovery answers FAIL if and only if the receipt was closed already, or it is the ambiguous one and
   the old edge is seen whole on an untouched database, with every step going well. It never closes a
   receipt otherwise, and answers nothing but FAIL and UNKNOWN.
   */
  lemma RecoverExactly(host: Host, stored: Option<Record>, s: seq<Fate>)
    ensures var end := Recover(host, stored, s);
      && (end.Returned? && end.verdict == Fail <==>
            || (AlreadyClosed(stored) && Meet2(s, Work, Work).None?)
            || (Ambiguous(stored) && Meet4(s, Work, Sees(Whole(host), Unsure), Work, Work).None?))
      && (end.Returned? ==> end.verdict in {Fail, Unsettled})
      && (end.w.stored != stored ==>
            Ambiguous(stored) && Whole(host) && end.w.stored == Some(Closed(stored.value)))
      && (end.Returned? && end.verdict == Fail && Ambiguous(stored) ==> end.w.stored == Some(Closed(stored.value)))
      && (end.Escaped? <==>
            || Break(s, Work) == Some(Crash)
            || (Break(s, Work).None? && Closing(stored, host, Tail(s)) == Some(Crash))
            || (Break(s, Work).None? && Break(AfterClosing(stored, host, Tail(s)), Work) == Some(Crash)))
  {
    var w := Opened(host, stored, s);
    LookFollows(w, true);
    var k := Read(w, true);
    hide Read, Look, Write;
    if k.Ok? {
      ClosesExactly(k.w);
      LookFollows(RecoverBody(k.w).w, true);
    }
  }

  /** What closing a receipt needs. */
  function Closing(stored: Option<Record>, h: Host, s: seq<Fate>): Option<Kind> {
    if AlreadyClosed(stored) then None
    else if !Ambiguous(stored) then Some(Unsure)
    else Meet2(s, Sees(Whole(h), Unsure), Work)
  }

  function AfterClosing(stored: Option<Record>, h: Host, s: seq<Fate>): seq<Fate> {
    if !Ambiguous(stored) then s else if Break(s, Sees(Whole(h), Unsure)).Some? then Tail(s) else Tail2(s)
  }

  lemma ClosesExactly(w: World)
    ensures var r, s := RecoverBody(w), w.script;
      && Ending(r) == Closing(w.stored, w.host, s) && r.w.script == AfterClosing(w.stored, w.host, s)
      && (r.Ok? ==> r.value == Fail)
      && (r.w.stored != w.stored ==>
            Ambiguous(w.stored) && Whole(w.host) && r.w.stored == Some(Closed(w.stored.value)))
      && (r.Ok? && Ambiguous(w.stored) ==> r.w.stored == Some(Closed(w.stored.value)))
  {
    LookFollows(w, Whole(w.host));
    assert NoEffectProvable(w.host) == Whole(w.host);
    var l := Look(w, Whole(w.host));
    hide Look;
    if Ambiguous(w.stored) && l.Ok? && l.value {
      ClosingWrite(l.w.(value := w.stored.value.(mark := NotStarted)));
    }
  }

  lemma ClosingWrite(w: World)
    ensures var r, v := Write(w, NoEffectProven, Fail, Some(UpgradeProvenNotApplied)),
                        w.value.(phase := NoEffectProven, status := Fail, error := Some(UpgradeProvenNotApplied));
      && Ending(r) == Break(w.script, Work) && r.w.stored in {w.stored, Some(v)}
      && (r.Ok? ==> r.w.stored == Some(v)) && r.w.script == Tail(w.script)
  {}

  // ---------------------------------------------------------------- resuming

  /**
   A resume goes on to the run if and only if validation sees what the receipt claims: the completed
   edge under its snapshot, the restored or never upgraded old edge, or, of an open attempt, its inputs.
   */
  lemma ValidatesExactly(host: Host, stored: Option<Record>, s: seq<Fate>)
    requires stored.Some?
    ensures var r, v := ValidateResume(Opened(host, stored, s)), stored.value;
      var complete := v.snapshot.Some?
        && host == Host(Absent, Up(Candidate), Candidate, Some(Current), v.snapshot, host.database, host.upgrades);
      var restored := host.gate == Absent && host.service == Up(Current) && host.launcher == Current;
      var needs :=
        if v.status == Pass then Meet2(s, Sees(complete, Unsure), Sees(true, Unsure))
        else if v.status == Fail && v.phase == RolledBack then Break(s, Sees(restored, Unsure))
        else if v.status == Fail then Break(s, Sees(Whole(host), Unsure))
        else Break(s, Sees(true, Unsure));
      && (r.Ok? && r.value <==> needs == None) && (r.Crashed? <==> needs == Some(Crash))
      && r.w.host == host && r.w.stored == stored
      && (needs == None ==> r.w.script == if v.status == Pass then Tail2(s) else Tail(s))
  {
    var w, v := Opened(host, stored, s), stored.value;
    LookFollows(w, CurrentServes(host) && host.gate == Absent);
    LookFollows(w, NoEffectProvable(host));
    LookFollows(w, true);
    assert NoEffectProvable(host) == Whole(host);
    if v.status == Pass {
      ReconcilesExactly(host, v.(phase := Complete));
      var r := ReconcileOp(w, Complete, v.snapshot);
      LookFollows(r.w, IsPublic(r.w.host));
      hide Look;
    } else {
      hide Look, ReconcileOp;
    }
  }

  /** A resume that validated is a run; one that did not settles nothing and leaves everything as it was. */
  lemma ResumesExactly(host: Host, stored: Option<Record>, s: seq<Fate>)
    requires stored.Some?
    ensures var r, end := ValidateResume(Opened(host, stored, s)), Resume(host, stored, s);
      if r.Ok? && r.value then
        end == Deploy(host, stored, if stored.value.status == Pass then Tail2(s) else Tail(s))
      else end.w.host == host && end.w.stored == stored && (end.Escaped? <==> r.Crashed?)
           && (end.Returned? ==> end.verdict == Unsettled)
  {
    ValidatesExactly(host, stored, s);
    hide ValidateResume, Deploy;
  }

  // ---------------------------------------------------------------- steps that change the host once

  /** The upgrade is invoked only on a stopped edge behind its gate, and only a clean report tells its effect. */
  lemma UpgradesExactly(w: World)
    ensures var r, f, h := UpgradeOp(w), Head(w.script), w.host;
      && Ending(r) == (if h.service != Down || h.gate != Applied then Some(Unsure) else Break(w.script, Work))
      && (r.Ok? ==> r.value == if h.database == Target then NoEffect else Applied_)
      && r.w.host ==
         (if h.service != Down || h.gate != Applied || (f.kind != Fine && f.landing == Nothing) then h
          else if f.kind != Fine && f.landing == Partly then h.(upgrades := h.upgrades + 1)
          else h.(upgrades := h.upgrades + 1, database := Target))
  {}

  /** A snapshot is taken unless its step broke before it. */
  lemma SnapshotsExactly(w: World)
    ensures var r, f, h := SnapshotOp(w), Head(w.script), w.host;
      && (r.Ok? <==> f.kind == Fine)
      && r.w.host == if f.kind != Fine && f.landing == Nothing then h else h.(snapshot := Some(f.digest))
  {}
}
