/**
 Verdicts and receipts, exactly: when a returned verdict is true, and when the receipt a run, a
 resume or a history leaves is true; with the runs that show both corners.
 */
module EdgeVerdicts {
  import opened Prelude
  import opened EdgeHost
  import opened EdgeDeploy
  import opened EdgeProtocol
  import opened EdgeUnprepared
  import opened EdgeRuns
  import opened EdgeTruth
  import opened EdgeTorn

  /** What the verdict of a run claims about the host and receipt it leaves. */
  predicate VerdictHolds(end: End, start: Host, origin: Host)
    requires end.Returned?
  {
    && end.w.stored.Some?
    && match end.verdict
       case Pass => Serving(end.w.host)
       case Fail => AsBefore(end.w.host, origin) && end.w.stored.value.mark != Pending
       case Unsettled => Excused(end.w, Basis(origin, start))
       case Running => false
  }

  lemma OpenedTracks(host: Host, stored: Option<Record>, script: seq<Fate>, origin: Host)
    requires Protocol(host, stored) && Truthful(stored, host, origin) && !Terminal(stored)
    ensures Tracks(Opened(host, stored, script), Basis(origin, host)) && Mid(Opened(host, stored, script))
    ensures stored.Some? ==> InStep(Opened(host, stored, script))
  {}

  // ---------------------------------------------------------------- one run

  /**
   The run will leave a receipt that lies: its body ends in a terminal write that raises although it
   lands, and the handler puts the gate back and dies before a receipt of its own lands.
   */
  predicate LeavesLie(host: Host, stored: Option<Record>, script: seq<Fate>, origin: Host) {
    !Terminal(stored) &&
    var r := Body(Opened(host, stored, script), stored.Some?);
    && (r.Failed? || r.Unknown?) && Terminal(r.w.stored) && DiesRegated(r)
    && (r.w.phase == Gated ==> origin != r.w.host.(gate := Applied))
  }

  /** A definite failure while reconciling a PREFLIGHT receipt behind the attempt's own gate. */
  predicate Misled(host: Host, stored: Option<Record>, script: seq<Fate>, origin: Host) {
    !Terminal(stored) && Surprised(host, stored, script) && origin.gate == Absent
  }

  lemma BodyHonest(w: World, existing: bool, b: Basis)
    requires Tracks(w, b) && Mid(w) && w.host == b.start && !w.torn
    requires w.attempted <==> w.phase !in {Preflight, Prepared}
    requires if existing then InStep(w) && !Surprised(w.host, w.stored, w.script)
             else w.stored.None? && w.phase == Preflight
    ensures Sound(Body(w, existing), b) && Untouched(Body(w, existing), b) && Mid(Body(w, existing).w)
    ensures TornLast(w, Body(w, existing))
    ensures Body(w, existing).Ok? ==> Told(Body(w, existing), b)
  {
    assert w.phase !in {Complete, RolledBack, NoEffectProven};
    BodySound(w, existing, b);
    BodyKeeps(w, existing);
    BodyTorn(w, existing, b);
    hide Body, Told, Tracks, Mid, Leaves, Local, Surprised, TornAt;
  }

  lemma SoundMeans(r: Res<Status>, b: Basis)
    requires Sound(r, b)
    ensures r.Failed? || r.Unknown? ==> Tracks(r.w, b)
    ensures !r.w.torn ==> Truthful(r.w.stored, r.w.host, b.origin)
    ensures (r.Failed? || r.Unknown?) && !r.w.torn ==> !Terminal(r.w.stored)
  {}

  lemma HandledVerdict(r: Res<Status>, b: Basis)
    requires Sound(r, b) && Untouched(r, b) && Mid(r.w) && (r.Ok? ==> Told(r, b))
    ensures Handled(r).Ok? ==> Told(Handled(r), b)
  {
    SoundMeans(r, b);
    hide OnUnknown, OnFailed, Tracks, Mid, Leaves, Told, Truthful;
    if r.Unknown? { OnUnknownSound(r.w, b); }
    if r.Failed? { OnFailedSound(r.w, b); }
  }

  lemma HandledReceipt(r: Res<Status>, b: Basis)
    requires Sound(r, b) && Untouched(r, b) && Mid(r.w) && (r.w.torn ==> (r.Failed? || r.Unknown?) && TornAt(r.w))
    ensures Truthful(Handled(r).w.stored, Handled(r).w.host, b.origin)
            <==> !((r.Failed? || r.Unknown?) && Terminal(r.w.stored) && DiesRegated(r)
                   && (r.w.phase == Gated ==> b.origin != r.w.host.(gate := Applied)))
  {
    SoundMeans(r, b);
    TornMeans(r.w);
    hide OnUnknown, OnFailed, Tracks, Mid, Leaves, Truthful, DiesRegated, TornAt, Terminal;
    if r.w.torn {
      if r.w.phase == Gated { TornFailExactly(r, b.origin); } else { TornPassExactly(r, b.origin); }
    } else if r.Failed? || r.Unknown? {
      HandledTruly(r, b);
    }
  }

  lemma TornMeans(w: World)
    ensures TornAt(w) ==> w.phase in {Gated, Ungated} && Terminal(w.stored)
  {}

  lemma DeployHandles(host: Host, stored: Option<Record>, script: seq<Fate>)
    requires !Terminal(stored)
    ensures var r := Handled(Body(Opened(host, stored, script), stored.Some?));
      Deploy(host, stored, script) == Ended(r)
  {
    hide Body, OnUnknown, OnFailed;
  }

  /** One run that is not surprised: its verdict is told truly, and its receipt lies exactly when torn and left. */
  lemma RunIsHonest(host: Host, stored: Option<Record>, script: seq<Fate>, origin: Host)
    requires Protocol(host, stored) && Truthful(stored, host, origin) && !Terminal(stored)
    requires !Surprised(host, stored, script)
    ensures var end := Deploy(host, stored, script);
      && (end.Returned? ==> Told(Ok(end.w, end.verdict), Basis(origin, host)))
      && (Truthful(end.w.stored, end.w.host, origin) <==> !LeavesLie(host, stored, script, origin))
  {
    var w, b := Opened(host, stored, script), Basis(origin, host);
    OpenedTracks(host, stored, script, origin);
    BodyHonest(w, stored.Some?, b);
    DeployHandles(host, stored, script);
    var r := Body(w, stored.Some?);
    hide Deploy, Body, Handled, Told, Tracks, Mid, Truthful, Protocol, TornAt, Leaves;
    HandledVerdict(r, b);
    HandledReceipt(r, b);
  }

  /** Meeting the surprise, a run leaves the host alone, and answers FAIL if it answers. */
  lemma SurpriseRun(host: Host, stored: Option<Record>, script: seq<Fate>)
    requires Protocol(host, stored) && Surprised(host, stored, script) && !Terminal(stored)
    ensures var end := Deploy(host, stored, script);
      var v := stored.value.(phase := RolledBack, status := Fail, error := Some(DefiniteFailure));
      && end.w.host == host && stored.value.mark == NotStarted
      && end.w.stored == (if Lands(script[1..]) then Some(v) else stored)
      && (end.Returned? ==> end.verdict == Fail && end.w.stored == Some(v))
      && (|script| == 1 ==> end.Returned?)
    ensures Body(Opened(host, stored, script), true).w.stored == stored
  {
    var w := Opened(host, stored, script);
    var r := ReconcileOp(w, w.phase, w.value.snapshot);
    assert r.Failed? && r.w == w.(script := script[1..]);
    hide ReconcileOp, Classify, Adopt, Reprepare, Front, Replace, Abort, OnUnknown;
    assert Body(w, true) == Failed(r.w) && w.value.mark == NotStarted;
    assert RollBack(r.w) == Ok(r.w, ());
    WriteLands(r.w, RolledBack, Fail, Some(DefiniteFailure));
    hide Body, RollBack, RetainGate, Settle, Protocol, Lands;
  }

  lemma SurpriseTruth(host: Host, stored: Option<Record>, script: seq<Fate>, origin: Host)
    requires Protocol(host, stored) && Truthful(stored, host, origin)
    requires Surprised(host, stored, script) && !Terminal(stored)
    ensures var end := Deploy(host, stored, script);
      && (end.Returned? ==> (VerdictHolds(end, host, origin) <==> origin.gate == Applied))
      && (Truthful(end.w.stored, end.w.host, origin) <==> origin.gate == Applied || !Lands(script[1..]))
    ensures !LeavesLie(host, stored, script, origin)
  {
    SurpriseRun(host, stored, script);
    hide Deploy, Protocol, Body, Lands, DiesRegated;
    assert GateOnly(origin, host);
  }

  lemma ToldHolds(end: End, host: Host, origin: Host)
    requires end.Returned? && Told(Ok(end.w, end.verdict), Basis(origin, host)) && Protocol(end.w.host, end.w.stored)
    requires end.w.stored.Some? && end.w.stored.value.status == end.verdict
    ensures VerdictHolds(end, host, origin)
  {}

  /**
   The main theorem on verdicts. PASS: the candidate serves and the gate is gone. FAIL: the host is
   as before the attempt and no upgrade is pending. UNKNOWN: the gate is retained, or the receipt
   names why not, or this run changed nothing. A returned verdict is true exactly when the run was
   not misled.
   */
  lemma VerdictsExactly(host: Host, stored: Option<Record>, script: seq<Fate>, origin: Host)
    requires Protocol(host, stored) && Truthful(stored, host, origin) && Deploy(host, stored, script).Returned?
    ensures VerdictHolds(Deploy(host, stored, script), host, origin) <==> !Misled(host, stored, script, origin)
  {
    DeployKeeps(host, stored, script);
    var end := Deploy(host, stored, script);
    if Terminal(stored) {
      TerminalStays(host, stored, script);
    } else if Surprised(host, stored, script) {
      SurpriseTruth(host, stored, script, origin);
      hide Surprised, Protocol, Truthful, VerdictHolds;
    } else {
      RunIsHonest(host, stored, script, origin);
      hide Truthful, Surprised, LeavesLie;
      ToldHolds(end, host, origin);
    }
    hide Deploy;
  }

  /** What makes the receipt of a run untrue. */
  predicate Lies(host: Host, stored: Option<Record>, script: seq<Fate>, origin: Host) {
    (Misled(host, stored, script, origin) && Lands(script[1..])) || LeavesLie(host, stored, script, origin)
  }

  /** The receipt a run leaves, returned or not, is true exactly when the run makes no lie of it. */
  lemma ReceiptExactly(host: Host, stored: Option<Record>, script: seq<Fate>, origin: Host)
    requires Protocol(host, stored) && Truthful(stored, host, origin)
    ensures var end := Deploy(host, stored, script);
      Truthful(end.w.stored, end.w.host, origin) <==> !Lies(host, stored, script, origin)
  {
    if Terminal(stored) {
      TerminalStays(host, stored, script);
    } else if Surprised(host, stored, script) {
      SurpriseTruth(host, stored, script, origin);
    } else {
      RunIsHonest(host, stored, script, origin);
    }
    hide Deploy, Truthful, Protocol, Surprised, LeavesLie, Lands;
  }

  // ---------------------------------------------------------------- resumes and recoveries

  /** The script a resume hands on to the run, once validation answered yes. */
  predicate Validated(host: Host, stored: Option<Record>, script: seq<Fate>) {
    var valid := ValidateResume(Opened(host, stored, script));
    valid.Ok? && valid.value
  }

  function Rest(host: Host, stored: Option<Record>, script: seq<Fate>): seq<Fate> {
    ValidateResume(Opened(host, stored, script)).w.script
  }

  /** The same for a resume: only one that was validated can be misled, or leave a lie. */
  lemma ResumedExactly(host: Host, stored: Option<Record>, script: seq<Fate>, origin: Host)
    requires Protocol(host, stored) && stored.Some? && Truthful(stored, host, origin)
    ensures var end, rest := Resume(host, stored, script), Rest(host, stored, script);
      && (end.Returned? ==>
            (VerdictHolds(end, host, origin)
             <==> !(Validated(host, stored, script) && Misled(host, stored, rest, origin))))
      && (Truthful(end.w.stored, end.w.host, origin)
          <==> !(Validated(host, stored, script) && Lies(host, stored, rest, origin)))
  {
    ValidateStill(Opened(host, stored, script));
    var rest := Rest(host, stored, script);
    hide ValidateResume, Deploy, Truthful, Protocol, Misled, Lies, Terminal;
    if Validated(host, stored, script) {
      if Deploy(host, stored, rest).Returned? { VerdictsExactly(host, stored, rest, origin); }
      ReceiptExactly(host, stored, rest, origin);
    }
  }

  /** Resuming a settled attempt repeats its verdict only while the live host still agrees with it. */
  lemma ResumeRechecks(host: Host, stored: Option<Record>, script: seq<Fate>)
    requires Terminal(stored)
    ensures var end := Resume(host, stored, script);
      && end.w.host == host && end.w.stored == stored
      && (end.Returned? && end.verdict == Pass ==> stored.value.status == Pass && Serving(host))
      && (end.Returned? && end.verdict == Fail ==> stored.value.status == Fail && Restored(host))
  {
    var w := Opened(host, stored, script);
    hide Look, Deploy;
    ValidateStill(w);
    LookStill(w, CurrentServes(w.host) && w.host.gate == Absent);
    LookStill(w, NoEffectProvable(w.host));
    var valid := ValidateResume(w);
    TerminalStays(host, stored, valid.w.script);
  }

  /** A recovery that answers FAIL proved the old edge whole and public. */
  lemma RecoveryTellsTheTruth(host: Host, stored: Option<Record>, script: seq<Fate>, origin: Host)
    requires Protocol(host, stored) && Truthful(stored, host, origin)
    ensures var end := Recover(host, stored, script);
      && Truthful(end.w.stored, host, origin)
      && (end.Returned? ==> end.verdict in {Fail, Unsettled})
      && (end.Returned? && end.verdict == Fail ==>
            AsBefore(host, origin) && end.w.stored.Some? && end.w.stored.value.mark != Pending)
  {
    var w := Opened(host, stored, script);
    hide Read, Look, Write;
    ReadStill(w, true);
    var k := Read(w, true);
    if k.Ok? {
      LookStill(k.w, NoEffectProvable(k.w.host));
      var l := Look(k.w, NoEffectProvable(k.w.host));
      if stored.Some? && l.Ok? {
        RecoveryWrite(l.w.(value := stored.value.(mark := NotStarted)));
      }
      ReadStill(RecoverBody(k.w).w, true);
    }
  }

  lemma RecoveryWrite(w: World)
    ensures var r, v := Write(w, NoEffectProven, Fail, Some(UpgradeProvenNotApplied)),
                        w.value.(phase := NoEffectProven, status := Fail, error := Some(UpgradeProvenNotApplied));
      r.w.host == w.host && r.w.stored in {w.stored, Some(v)} && (r.Ok? ==> r.w.stored == Some(v))
  {}

  // ---------------------------------------------------------------- histories

  /** A readable run, resume or recovery that makes no lie of its receipt; nobody else touches the host. */
  predicate Plain(host: Host, stored: Option<Record>, e: Event, origin: Host) {
    match e
    case Outside(_) => false
    case Recovery(_, readable) => readable
    case Run(script, readable) => readable && !Lies(host, stored, script, origin)
    case ResumeRun(script, readable) =>
      && readable && stored.Some?
      && !(Validated(host, stored, script) && Lies(host, stored, Rest(host, stored, script), origin))
  }

  predicate Plainly(host: Host, stored: Option<Record>, events: seq<Event>, origin: Host)
    decreases |events|
  {
    events == [] ||
    (Plain(host, stored, events[0], origin)
     && var (h, s) := After(host, stored, events[0]); Plainly(h, s, events[1..], origin))
  }

  lemma RecoveryProtocol(host: Host, stored: Option<Record>, script: seq<Fate>)
    requires Protocol(host, stored)
    ensures Recover(host, stored, script).w.host == host
    ensures Protocol(host, Recover(host, stored, script).w.stored)
  {
    RecoverKeeps(host, stored, script);
    var w := Opened(host, stored, script);
    hide Read, Look, Write, Suits, Once;
    ReadStill(w, true);
    var k := Read(w, true);
    if k.Ok? {
      LookStill(k.w, NoEffectProvable(k.w.host));
      var l := Look(k.w, NoEffectProvable(k.w.host));
      if stored.Some? && l.Ok? { RecoveryWrite(l.w.(value := stored.value.(mark := NotStarted))); }
      ReadStill(RecoverBody(k.w).w, true);
    }
  }

  lemma PlainKeepsTruth(host: Host, stored: Option<Record>, e: Event, origin: Host)
    requires Protocol(host, stored) && Truthful(stored, host, origin) && Plain(host, stored, e, origin)
    ensures var (h, s) := After(host, stored, e); Protocol(h, s) && Truthful(s, h, origin)
  {
    ProtocolReadable(host, stored);
    hide Deploy, Recover, Truthful, Protocol, Lies, ValidateResume, Readable;
    match e
    case Outside(_) =>
    case Run(script, _) =>
      DeployKeeps(host, stored, script);
      ReceiptExactly(host, stored, script, origin);
    case ResumeRun(script, _) =>
      ValidateStill(Opened(host, stored, script));
      DeployKeeps(host, stored, Rest(host, stored, script));
      ResumedExactly(host, stored, script, origin);
    case Recovery(script, _) =>
      RecoveryProtocol(host, stored, script);
      RecoveryTellsTheTruth(host, stored, script, origin);
  }

  lemma ProtocolReadable(host: Host, stored: Option<Record>)
    requires Protocol(host, stored)
    ensures Readable(stored)
  {}

  /** Over any plain history, from the attempt's start on, the durable receipt never lies. */
  lemma {:induction false} ReceiptsTellTheTruth(host: Host, stored: Option<Record>, events: seq<Event>, origin: Host)
    requires Protocol(host, stored) && Truthful(stored, host, origin) && Plainly(host, stored, events, origin)
    ensures var (h, s) := History(host, stored, events); Protocol(h, s) && Truthful(s, h, origin)
    decreases |events|
  {
    hide Protocol, Truthful, After, Plain;
    if events != [] {
      PlainKeepsTruth(host, stored, events[0], origin);
      var (h, s) := After(host, stored, events[0]);
      ReceiptsTellTheTruth(h, s, events[1..], origin);
    }
  }
}
