/**
 Attempts gated without a prepared upgrade, which can only be given up: how they run, and exactly
 when a run leaves a receipt that no later run accepts.
 */
module EdgeUnprepared {
  import opened Prelude
  import opened EdgeHost
  import opened EdgeDeploy
  import opened EdgeProtocol

  predicate Readable(stored: Option<Record>) { stored.Some? ==> Accepted(stored.value) }

  /** A receipt of an attempt without a prepared image, at most as far as durable intent. */
  predicate BareReceipt(v: Record) {
    && v.image.None?
    && ((v.phase in {Gated, Stopped, RolledBack} && v.mark == NotStarted)
        || (v.phase == UpgradePending && v.mark == Pending))
  }

  /** The same while it runs. No upgrade was ever invoked. */
  predicate Bare(w: World) {
    && w.host.upgrades == 0 && w.value.image.None? && w.stored.Some? && BareReceipt(w.stored.value)
    && ((w.phase in {Gated, Stopped} && w.value.mark == NotStarted)
        || (w.phase == UpgradePending && w.value.mark == Pending))
  }

  lemma BareFrames(w: World, v: World)
    requires Bare(w) && Framed(w, v) && v.host.upgrades == w.host.upgrades
    ensures Bare(v)
  {}

  lemma BareWrites(w: World, phase: Phase, status: Status, error: Option<Trouble>)
    requires Bare(w) && (phase == w.phase || (phase == RolledBack && w.value.mark == NotStarted))
    ensures Bare(Write(w, phase, status, error).w) && Write(w, phase, status, error).w.phase == w.phase
  {
    hide Write;
    WriteStores(w, phase, status, error);
  }

  lemma BareAborts(w: World)
    requires Bare(w) && w.phase == Gated
    ensures Bare(Abort(w).w)
  {
    hide Write, AbortTry, Look, Bare;
    AbortTryFrames(w);
    var tried := AbortTry(w);
    BareFrames(w, tried.w);
    LookStill(tried.w, IsPublic(tried.w.host));
    var seen := PublicReady(tried.w);
    BareFrames(tried.w, seen.w);
    BareMark(seen.w);
    if tried.Ok? { BareWrites(seen.w, RolledBack, Fail, Some(PublicGateUnproven)); }
    else { BareWrites(tried.w, Gated, Unsettled, Some(GateAbortUnknown)); }
  }

  lemma BareMark(w: World)
    requires Bare(w) && w.phase == Gated
    ensures w.value.mark == NotStarted
  {}

  /** Reconciling finds the edge gated, or stopped behind the gate. */
  lemma BareBegins(w: World)
    requires Bare(w) && w.phase == Gated
    ensures Bare(BeginResumed(w).w)
    ensures BeginResumed(w).Ok? ==> BeginResumed(w).w.phase in {Gated, Stopped}
  {
    hide ReconcileOp, Classify, Write;
    ReconcileStill(w);
    var r := ReconcileOp(w, w.phase, w.value.snapshot);
    if r.Ok? {
      ClassifyFacts(w.host, w.phase, w.value.snapshot);
      var v := r.w.(retained := r.value.retained, phase := r.value.phase);
      BareWrites(v, r.value.phase, Running, None);
    }
  }

  /** Without an image the body aborts behind the gate, or dies on durable intent before the upgrade. */
  lemma BareBody(w: World)
    requires Bare(w) && w.phase == Gated
    ensures Bare(Body(w, true).w)
  {
    BareAborts(w);
    BareBegins(w);
    hide BeginResumed, Abort, Middle, Bare;
    var g := BeginResumed(w);
    if g.Ok? { BareMiddles(g.w); }
  }

  lemma BareMiddles(w: World)
    requires Bare(w) && w.phase in {Gated, Stopped}
    ensures Bare(Middle(w).w)
  {
    if w.phase == Gated {
      BareAborts(w);
      hide Abort, Replace;
    } else {
      BareReplaces(w);
      assert Front(w) == Ok(w, None);
      hide Bare, Replace;
    }
  }

  lemma BareReplaces(w: World)
    requires Bare(w) && w.phase == Stopped
    ensures Bare(Replace(w).w)
  {
    hide Reach;
    assert Bare(w.(value := w.value.(mark := Pending), phase := UpgradePending));
    BareReaches(w.(value := w.value.(mark := Pending)));
    hide Bare;
  }

  lemma BareReaches(w: World)
    requires Bare(w.(phase := UpgradePending))
    ensures Bare(Reach(w, UpgradePending).w)
    ensures Reach(w, UpgradePending).Ok? ==> Reach(w, UpgradePending).w.value.image.None?
  {
    BareWrites(w.(phase := UpgradePending), UpgradePending, Running, None);
    hide Write;
  }

  lemma RollBackUpgrades(w: World)
    ensures Framed(w, RollBack(w).w) && RollBack(w).w.host.upgrades == w.host.upgrades
    ensures RollBack(w).Ok? ==> w.value.mark != Pending
  {
    hide Republish, Regate, RestoreService;
    RegateFrames(w);
    var g := Regate(w);
    if g.Ok? {
      RestoreUpgrades(g.w);
      var r := RestoreService(g.w);
      if r.Ok? { RepublishFrames(r.w); }
    }
  }

  lemma RestoreUpgrades(w: World)
    ensures Framed(w, RestoreService(w).w) && RestoreService(w).w.host.upgrades == w.host.upgrades
  {
    hide Act, StartOld, RestoreOp;
    StartFrames(w);
    ActFrames(w, w.host, w.host.(service := Down));
    var s := StopOp(w);
    if s.Ok? {
      RestoreFrames(s.w);
      var r := RestoreOp(s.w);
      if r.Ok? { StartFrames(r.w); }
    }
  }

  lemma BareSettles(kept: Res<()>, otherwise: Trouble)
    requires Bare(kept.w)
    ensures Bare(Settle(kept, otherwise).w)
  {
    hide Write, Bare;
    BareWrites(kept.w, kept.w.phase, Unsettled, Some(if kept.Ok? then otherwise else GateRetentionUnknown));
  }

  lemma BareHandles(w: World)
    requires Bare(w)
    ensures Bare(OnUnknown(w).w) && Bare(OnFailed(w).w)
  {
    hide RetainGate, RollBack, Settle, Write;
    RetainFrames(w);
    var kept := if w.attempted then RetainGate(w) else Ok(w, ());
    BareFrames(w, kept.w);
    BareSettles(kept, AmbiguousOutcome);
    RollBackUpgrades(w);
    var back := RollBack(w);
    BareFrames(w, back.w);
    RetainFrames(back.w);
    BareFrames(back.w, RetainGate(back.w).w);
    BareSettles(RetainGate(back.w), RollbackUnknown);
    if back.Ok? { BareWrites(back.w, RolledBack, Fail, Some(DefiniteFailure)); }
  }

  /** A run of an unprepared attempt never reaches the upgrade, whatever state the edge is in. */
  lemma UnpreparedRun(host: Host, stored: Option<Record>, script: seq<Fate>)
    requires Unprepared(stored) && Accepted(stored.value) && host.upgrades == 0
    ensures var end := Deploy(host, stored, script);
      end.w.host.upgrades == 0 && end.w.stored.Some? && BareReceipt(end.w.stored.value)
  {
    var w := Opened(host, stored, script);
    assert Bare(w) && !Terminal(stored);
    BareBody(w);
    var b := Body(w, true);
    BareHandles(b.w);
    hide Body, OnUnknown, OnFailed;
  }

  // ---------------------------------------------------------------- exactly when a receipt breaks

  /** The run will find the edge stopped behind its gate, and go on without a prepared image. */
  predicate Breaks(host: Host, stored: Option<Record>) {
    && Unprepared(stored) && stored.value.error != Some(GateAbortUnknown)
    && host.gate == Applied && host.service == Down && host.launcher == Current && host.backup.None?
  }

  /** An unprepared attempt on its way to being given up. */
  predicate Yielding(w: World) {
    && w.host.upgrades == 0 && w.phase == Gated && w.value.image.None? && w.value.mark == NotStarted
    && w.stored.Some? && Accepted(w.stored.value)
    && w.stored.value.phase in {Gated, RolledBack} && w.stored.value.mark == NotStarted
  }

  lemma YieldingFrames(w: World, v: World)
    requires Yielding(w) && Framed(w, v) && v.host.upgrades == w.host.upgrades
    ensures Yielding(v)
  {}

  lemma YieldingWrites(w: World, phase: Phase, status: Status, error: Option<Trouble>)
    requires Yielding(w)
    requires (phase == Gated && status in {Running, Unsettled}) || (phase == RolledBack && status == Fail)
    ensures Yielding(Write(w, phase, status, error).w)
  {
    WriteStores(w, phase, status, error);
    hide Write;
  }

  lemma YieldingAborts(w: World)
    requires Yielding(w)
    ensures Yielding(Abort(w).w)
  {
    hide Write, AbortTry, Look, Yielding;
    AbortTryFrames(w);
    var tried := AbortTry(w);
    YieldingFrames(w, tried.w);
    LookStill(tried.w, IsPublic(tried.w.host));
    var seen := PublicReady(tried.w);
    YieldingFrames(tried.w, seen.w);
    YieldingWrites(seen.w, RolledBack, Fail, Some(PublicGateUnproven));
    YieldingWrites(tried.w, Gated, Unsettled, Some(GateAbortUnknown));
  }

  /** As long as the edge is not found stopped, the body can only give the gate up. */
  lemma YieldingBody(w: World)
    requires Yielding(w)
    requires w.value.error == Some(GateAbortUnknown)
             || w.host.gate != Applied || w.host.service.Up? || w.host.launcher != Current || w.host.backup.Some?
    ensures Yielding(Body(w, true).w)
  {
    YieldingAborts(w);
    hide Abort, Reach;
    if w.value.error != Some(GateAbortUnknown) {
      ReconcileStill(w);
      YieldingFrames(w, ReconcileOp(w, w.phase, w.value.snapshot).w);
      var g := BeginResumed(w);
      assert Yielding(g.w);
      if g.Ok? { YieldingAborts(g.w); }
    }
  }

  lemma YieldingSettles(kept: Res<()>, otherwise: Trouble)
    requires Yielding(kept.w)
    ensures Yielding(Settle(kept, otherwise).w)
  {
    var error := Some(if kept.Ok? then otherwise else GateRetentionUnknown);
    YieldingWrites(kept.w, Gated, Unsettled, error);
    hide Write;
  }

  lemma YieldingHandles(w: World)
    requires Yielding(w)
    ensures Yielding(OnUnknown(w).w) && Yielding(OnFailed(w).w)
  {
    hide RetainGate, RollBack, Settle, Write, Yielding;
    RetainFrames(w);
    var kept := if w.attempted then RetainGate(w) else Ok(w, ());
    YieldingFrames(w, kept.w);
    YieldingSettles(kept, AmbiguousOutcome);
    RollBackUpgrades(w);
    var back := RollBack(w);
    YieldingFrames(w, back.w);
    RetainFrames(back.w);
    YieldingFrames(back.w, RetainGate(back.w).w);
    YieldingSettles(RetainGate(back.w), RollbackUnknown);
    YieldingWrites(back.w, RolledBack, Fail, Some(DefiniteFailure));
  }

  lemma YieldingRun(host: Host, stored: Option<Record>, script: seq<Fate>)
    requires Unprepared(stored) && Accepted(stored.value) && host.upgrades == 0 && !Breaks(host, stored)
    ensures var end := Deploy(host, stored, script);
      end.w.host.upgrades == 0 && end.w.stored.Some? && Accepted(end.w.stored.value)
      && end.w.stored.value.mark == NotStarted && end.w.stored.value.phase in {Gated, RolledBack}
  {
    var w := Opened(host, stored, script);
    assert Yielding(w) && !Terminal(stored);
    YieldingBody(w);
    var b := Body(w, true);
    YieldingHandles(b.w);
    hide Body, OnUnknown, OnFailed;
  }

  /** What every receipt-keeping run starts from and leaves: an accepted receipt that bounds the upgrades. */
  predicate Accounted(host: Host, stored: Option<Record>) {
    Once(stored, host.upgrades) && Readable(stored)
  }

  lemma RunKeepsAccount(host: Host, stored: Option<Record>, script: seq<Fate>)
    requires Accounted(host, stored) && !Breaks(host, stored)
    ensures Accounted(Deploy(host, stored, script).w.host, Deploy(host, stored, script).w.stored)
  {
    if Unprepared(stored) {
      YieldingRun(host, stored, script);
    } else {
      DeployKeeps(host, stored, script);
    }
    hide Deploy, Suits;
  }

  /** Undisturbed, such a run records a stop it may not record: no later run accepts that receipt. */
  lemma BreakingRun(host: Host, v: Record)
    requires Breaks(host, Some(v)) && Accepted(v)
    ensures var end := Deploy(host, Some(v), []);
      && end.Escaped? && end.w.stored.Some? && end.w.stored.value.phase == UpgradePending
      && !Accepted(end.w.stored.value)
  {
    var w := Opened(host, Some(v), []);
    var b := Begin(w, true);
    assert b.Ok? && b.w.phase == Stopped && b.w.value == v.(phase := Stopped, status := Running, error := None);
    assert Front(b.w) == Ok(b.w, None);
    hide Begin, Front, Abort;
    assert Replace(b.w).Crashed?;
  }

  /**
   Exactly when a receipt stays readable: whatever the next run meets, it leaves a receipt that later
   runs accept, if and only if the edge was not stopped behind an unprepared gate.
   */
  lemma ReceiptsBreakExactly(host: Host, stored: Option<Record>)
    requires Accounted(host, stored)
    ensures (forall script :: Readable(Deploy(host, stored, script).w.stored)) <==> !Breaks(host, stored)
  {
    if Breaks(host, stored) {
      BreakingRun(host, stored.value);
      assert !Readable(Deploy(host, stored, []).w.stored);
    } else {
      forall script ensures Readable(Deploy(host, stored, script).w.stored) {
        RunKeepsAccount(host, stored, script);
      }
    }
  }
}
