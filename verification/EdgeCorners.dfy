/** Runs that show the corners, and how an attempt gets into them from its start. */
module EdgeCorners {
  import opened Prelude
  import opened EdgeHost
  import opened EdgeDeploy
  import opened EdgeProtocol
  import opened EdgeUnprepared
  import opened EdgeRuns
  import opened EdgeTruth
  import opened EdgeTorn
  import opened EdgeVerdicts

  /** Every misled run that meets no further trouble returns, and its FAIL is a lie. */
  lemma MisledLies(host: Host, stored: Option<Record>, script: seq<Fate>, origin: Host)
    requires Protocol(host, stored) && Truthful(stored, host, origin)
    requires Misled(host, stored, script, origin) && |script| == 1
    ensures var end := Deploy(host, stored, script);
      end.Returned? && end.verdict == Fail && end.w.host.gate == Applied && !AsBefore(end.w.host, origin)
  {
    SurpriseRun(host, stored, script);
    hide Deploy, Protocol;
  }

  const LANDED := Fate(Failing, Fully, false, 0)
  const MISSED := Fate(Fine, Nothing, true, 0)
  const CRASH := Fate(Crash, Nothing, false, 0)

  /** A durable PASS that lies: the COMPLETE write lands but raises, and the regated rollback crashes. */
  lemma TornPassLies(host: Host, v: Record)
    requires host == Host(Absent, Up(Candidate), Candidate, Some(Current), Some(7), Target, 1)
    requires v == Record(Ungated, Running, Applied_, Some(5), Some(7), None, None)
    ensures Protocol(host, Some(v)) && Serving(host)
    ensures var end := Deploy(host, Some(v), [CALM, CALM, CALM, LANDED, CALM, CRASH]);
      end.w.stored.Some? && end.w.stored.value.status == Pass && end.w.host.gate == Applied
  {
    var script := [CALM, CALM, CALM, LANDED, CALM, CRASH];
    var w := Opened(host, Some(v), script);
    var g := Begin(w, true);
    assert g.Ok? && g.w == w.(script := script[1..], attempted := true);
    var f := Finish(g.w);
    assert script[1..][1..][1..] == script[3..] && script[3..][1..] == script[4..] && script[4..][1..] == script[5..];
    assert f.Failed? && f.w.stored.value.status == Pass && f.w.script == script[4..];
    assert Front(g.w) == Ok(g.w, None);
    assert Replace(g.w) == f;
    assert Body(w, true) == f;
    hide Body, Front, Replace, Finish, Begin;
    var back := RollBack(f.w);
    assert back.Crashed? && back.w.host.gate == Applied && back.w.stored == f.w.stored;
  }

  /**
   A durable FAIL that lies: an aborted gate is torn, put back when the rollback's probe misses, and
   left so by a crash at the settling write.
   */
  lemma TornFailLies(host: Host, v: Record, script: seq<Fate>)
    requires host == Host(Applied, Up(Current), Current, None, None, Checkpoints, 0)
    requires v == Record(Gated, Unsettled, NotStarted, None, None, None, Some(GateAbortUnknown))
    requires CalmFor(script, 4) && |script| == 12 && script[4] == LANDED && script[5] == CALM && script[6] == MISSED
    requires CalmFor(script[7..], 4) && script[11] == CRASH
    ensures Protocol(host, Some(v)) && !AsBefore(host, host.(gate := Absent))
    ensures var end := Deploy(host, Some(v), script);
      end.w.stored.Some? && end.w.stored.value.status == Fail && end.w.host == host
  {
    assert Protocol(host, Some(v)) && !AsBefore(host, host.(gate := Absent));
    hide Protocol, AsBefore;
    var w := Opened(host, Some(v), script);
    TornAbort(w);
    var b := Abort(w);
    assert Body(w, true) == b && !Terminal(Some(v));
    DeployHandles(host, Some(v), script);
    hide Body, Abort, Deploy;
    assert b.w.script == script[5..] && b.w.script[2..] == script[7..];
    MissedRollBack(b.w);
    var back := RollBack(b.w);
    hide RollBack, CalmFor;
    CalmRetain(back.w);
    var kept := RetainGate(back.w);
    assert kept.w.script == script[7..][4..] && kept.w.script[0] == CRASH;
    hide RetainGate;
    SettleLands(kept, RollbackUnknown);
    hide Settle;
  }

  /** The first `n` steps go well. */
  predicate CalmFor(script: seq<Fate>, n: nat) { |script| > n && forall i :: 0 <= i < n ==> script[i] == CALM }

  lemma TornAbort(w: World)
    requires CalmFor(w.script, 4) && w.script[4] == LANDED && CurrentServes(w.host) && w.value.mark == NotStarted
    ensures var v := w.value.(phase := RolledBack, status := Fail, error := Some(PublicGateUnproven));
      Abort(w) == Failed(w.(host := w.host.(gate := Absent), value := v, stored := Some(v), torn := true,
          script := w.script[5..]))
  {
    var s := w.script;
    assert s[1..][1..] == s[2..] && s[2..][1..] == s[3..] && s[3..][1..] == s[4..] && s[4..][1..] == s[5..];
    assert AbortTry(w) == Ok(w.(host := w.host.(gate := Absent), script := s[3..]), ());
    hide AbortTry;
  }

  lemma MissedRollBack(w: World)
    requires w.phase in {Prepared, Gated} && CalmFor(w.script, 1) && w.script[1] == MISSED
    requires w.value.mark == NotStarted
    ensures RollBack(w) == Unknown(w.(host := w.host.(gate := Absent), script := w.script[2..]))
  {
    assert w.script[1..][1..] == w.script[2..];
  }

  lemma CalmRetain(w: World)
    requires CalmFor(w.script, 4) && w.host.gate == Absent
    ensures RetainGate(w) == Ok(w.(host := w.host.(gate := Applied), script := w.script[4..]), ())
  {
    var s := w.script;
    assert s[1..][1..] == s[2..] && s[2..][1..] == s[3..] && s[3..][1..] == s[4..];
  }

  // ---------------------------------------------------------------- reached from the start

  const LOST := Fate(Failing, Nothing, false, 0)

  /** The host every attempt starts from. */
  predicate Pristine(host: Host) { PreflightOk(host) && CurrentIsPublic(host) && host.upgrades == 0 }

  /**
   The write of PREPARED is lost, the rollback's probe misses, the gate is put up to be safe, and the
   process dies before it can say so.
   */
  predicate GatesByMistake(script: seq<Fate>) {
    && |script| == 12 && CalmFor(script, 4) && script[4] == LOST && script[5] == CALM && script[6] == MISSED
    && CalmFor(script[7..], 4) && script[11] == CRASH
  }

  lemma LostPrepare(host: Host, script: seq<Fate>)
    requires Pristine(host) && CalmFor(script, 4) && script[4] == LOST
    ensures var v := FRESH.(phase := Prepared, image := Some(0));
      Body(Opened(host, None, script), false)
      == Failed(World(host, Some(FRESH), v, Prepared, false, false, false, script[5..]))
  {
    var w := Opened(host, None, script);
    assert script[1..][1..] == script[2..] && script[2..][1..] == script[3..] && script[3..][1..] == script[4..];
    assert script[4..][1..] == script[5..];
    assert BeginFresh(w) == Ok(w.(stored := Some(FRESH), script := script[2..]), Preflight);
    hide BeginFresh, StageGate, StageStop, Replace;
  }

  /** From the start of an attempt to a gate that only a PREFLIGHT receipt knows of. */
  lemma GatedByMistake(host: Host, script: seq<Fate>)
    requires Pristine(host) && GatesByMistake(script)
    ensures var end := Deploy(host, None, script);
      end.w.host == host.(gate := Applied) && end.w.stored == Some(FRESH)
  {
    LostPrepare(host, script);
    DeployHandles(host, None, script);
    var w := Body(Opened(host, None, script), false).w;
    hide Body, Deploy;
    assert w.script[2..] == script[7..];
    MissedRollBack(w);
    var back := RollBack(w);
    hide RollBack, CalmFor;
    CalmRetain(back.w);
    var kept := RetainGate(back.w);
    assert kept.w.script == script[7..][4..] && kept.w.script[0] == CRASH;
    hide RetainGate;
    SettleLands(kept, RollbackUnknown);
    hide Settle;
  }

  /** A misled run can be reached, and then tells a FAIL that lies. */
  lemma MisledReachable(host: Host, script: seq<Fate>)
    requires Pristine(host) && GatesByMistake(script)
    ensures var (h, s) := History(host, None, [Run(script, true)]);
      && Protocol(h, s) && Truthful(s, h, host) && Misled(h, s, [LOST], host)
      && Deploy(h, s, [LOST]).Returned? && !VerdictHolds(Deploy(h, s, [LOST]), h, host)
  {
    GatedByMistake(host, script);
    var h, s := host.(gate := Applied), Some(FRESH);
    assert [Run(script, true)][1..] == [] && History(host, None, [Run(script, true)]) == (h, s);
    assert Protocol(h, s) && Truthful(s, h, host) && Misled(h, s, [LOST], host);
    hide Deploy, Protocol, Truthful, History;
    MisledLies(h, s, [LOST], host);
    VerdictsExactly(h, s, [LOST], host);
  }

  /** Going on from there, the receipt says GATED although nothing was prepared. */
  lemma GatedUnprepared(host: Host, script: seq<Fate>)
    requires Pristine(host) && CalmFor(script, 2) && script[2] == CRASH
    ensures var end := Deploy(host.(gate := Applied), Some(FRESH), script);
      end.w.host == host.(gate := Applied) && end.w.stored == Some(FRESH.(phase := Gated))
  {
    var w := Opened(host.(gate := Applied), Some(FRESH), script);
    assert script[1..][1..] == script[2..];
    var v := FRESH.(phase := Gated);
    var g := World(w.host, Some(v), v, Gated, true, false, false, script[2..]);
    assert BeginResumed(w) == Ok(g, Gated);
    assert Abort(g).Crashed? && Abort(g).w.stored == Some(v) && Abort(g).w.host == w.host;
    hide BeginResumed, Abort, Replace;
  }

  /** The breaking state can be reached: stop the edge now, and the next run breaks the receipt. */
  lemma BreaksReachable(host: Host, script: seq<Fate>, more: seq<Fate>)
    requires Pristine(host) && GatesByMistake(script) && CalmFor(more, 2) && more[2] == CRASH
    ensures var stopped := Outside(host.(gate := Applied, service := Down));
      var (h, s) := History(host, None, [Run(script, true), Run(more, true), stopped]);
      Accounted(h, s) && Breaks(h, s)
  {
    GatedByMistake(host, script);
    GatedUnprepared(host, more);
    var stopped := Outside(host.(gate := Applied, service := Down));
    var h, s := host.(gate := Applied), Some(FRESH.(phase := Gated));
    StoppedBreaks(host);
    RunLeaves(host, None, script);
    RunLeaves(h, Some(FRESH), more);
    assert After(h, s, stopped) == (h.(service := Down), s);
    hide *;
    ThreeEvents(host, None, Run(script, true), Run(more, true), stopped);
  }

  lemma StoppedBreaks(host: Host)
    requires Pristine(host)
    ensures var h, s := host.(gate := Applied, service := Down), Some(FRESH.(phase := Gated));
      Accounted(h, s) && Breaks(h, s)
  {}

  lemma RunLeaves(host: Host, stored: Option<Record>, script: seq<Fate>)
    requires stored in {None, Some(FRESH)}
    ensures After(host, stored, Run(script, true))
            == (Deploy(host, stored, script).w.host, Deploy(host, stored, script).w.stored)
  {
    assert Readable(stored);
    hide Deploy, DeployBlind;
  }

  lemma ThreeEvents(host: Host, stored: Option<Record>, a: Event, b: Event, c: Event)
    ensures var (h, s) := After(host, stored, a);
      var (h', s') := After(h, s, b);
      History(host, stored, [a, b, c]) == After(h', s', c)
  {
    hide After;
    var (h, s) := After(host, stored, a);
    var (h', s') := After(h, s, b);
    var (h'', s'') := After(h', s', c);
    assert [a, b, c][1..] == [b, c] && [b, c][1..] == [c] && [c][1..] == [];
    assert History(h'', s'', []) == (h'', s'');
    assert History(h', s', [c]) == (h'', s'');
    assert History(h, s, [b, c]) == (h'', s'');
  }
}
