/** The protocol over whole histories of one attempt: runs, resumes, recoveries and outside changes. */
module EdgeRuns {
  import opened Prelude
  import opened EdgeHost
  import opened EdgeDeploy
  import opened EdgeProtocol
  import opened EdgeUnprepared

  /** One thing that happens to an attempt. A crash is a script that ends a run early. */
  datatype Event =
    | Run(script: seq<Fate>, readable: bool)
    | ResumeRun(script: seq<Fate>, readable: bool)
    | Recovery(script: seq<Fate>, readable: bool)
    | Outside(host: Host)

  /** The host and receipt an event leaves. An unreadable receipt stops everything but the gate. */
  function After(host: Host, stored: Option<Record>, e: Event): (Host, Option<Record>) {
    match e
    case Outside(h) => (h.(upgrades := host.upgrades), stored)
    case Run(script, readable) =>
      if readable && Readable(stored) then Left(Deploy(host, stored, script))
      else Left(DeployBlind(host, stored, script))
    case ResumeRun(script, readable) =>
      if readable && Readable(stored) && stored.Some? then Left(Resume(host, stored, script)) else (host, stored)
    case Recovery(script, readable) =>
      if readable && Readable(stored) then Left(Recover(host, stored, script)) else (host, stored)
  }

  function Left(e: End): (Host, Option<Record>) { (e.w.host, e.w.stored) }

  function History(host: Host, stored: Option<Record>, events: seq<Event>): (Host, Option<Record>)
    decreases |events|
  {
    if events == [] then (host, stored)
    else var (h, s) := After(host, stored, events[0]); History(h, s, events[1..])
  }

  /** No run meets an edge stopped behind an unprepared gate. Until the run, it may well be stopped. */
  predicate Considerate(host: Host, stored: Option<Record>, events: seq<Event>)
    decreases |events|
  {
    events == [] ||
    (((events[0].Run? || events[0].ResumeRun?) && events[0].readable ==> !Breaks(host, stored))
     && var (h, s) := After(host, stored, events[0]); Considerate(h, s, events[1..]))
  }

  lemma RecoverKeeps(host: Host, stored: Option<Record>, script: seq<Fate>)
    requires Accounted(host, stored)
    ensures Accounted(host, Recover(host, stored, script).w.stored)
    ensures Recover(host, stored, script).w.host == host
    ensures Terminal(stored) ==> Recover(host, stored, script).w.stored == stored
  {
    hide Read, Look, Write, Suits;
    var w := Opened(host, stored, script);
    ReadStill(w, true);
    var k := Read(w, true);
    if k.Ok? {
      RecoverBodyKeeps(k.w);
      ReadStill(RecoverBody(k.w).w, true);
    }
  }

  lemma RecoverBodyKeeps(w: World)
    requires Accounted(w.host, w.stored)
    ensures RecoverBody(w).w.host == w.host && Accounted(w.host, RecoverBody(w).w.stored)
    ensures Terminal(w.stored) ==> RecoverBody(w).w.stored == w.stored
  {
    hide Read, Look, Write;
    LookStill(w, NoEffectProvable(w.host));
    var l := Look(w, NoEffectProvable(w.host));
    if w.stored.Some? && l.Ok? {
      WriteStores(l.w.(value := w.stored.value.(mark := NotStarted)), NoEffectProven, Fail,
          Some(UpgradeProvenNotApplied));
    }
  }

  lemma ValidateStill(w: World)
    ensures Still(w, ValidateResume(w).w)
  {
    hide Look;
    var r := ReconcileOp(w, Complete, w.value.snapshot);
    LookStill(r.w, IsPublic(r.w.host));
    LookStill(w, CurrentServes(w.host) && w.host.gate == Absent);
    LookStill(w, NoEffectProvable(w.host));
    LookStill(w, true);
  }

  lemma TerminalStays(host: Host, stored: Option<Record>, script: seq<Fate>)
    requires Terminal(stored)
    ensures Deploy(host, stored, script) == Returned(Opened(host, stored, script), stored.value.status)
  {}

  lemma EventKeeps(host: Host, stored: Option<Record>, e: Event)
    requires Accounted(host, stored) && ((e.Run? || e.ResumeRun?) && e.readable ==> !Breaks(host, stored))
    ensures Accounted(After(host, stored, e).0, After(host, stored, e).1)
  {
    hide Deploy, Recover, RetainGate, ValidateResume, Accepted, Breaks;
    match e
    case Outside(h) =>
    case Run(script, readable) =>
      if readable { RunKeepsAccount(host, stored, script); }
      RetainFrames(Opened(host, stored, script));
    case ResumeRun(script, readable) =>
      ValidateStill(Opened(host, stored, script));
      if readable { RunKeepsAccount(host, stored, ValidateResume(Opened(host, stored, script)).w.script); }
    case Recovery(script, readable) => RecoverKeeps(host, stored, script);
  }

  /**
   The main theorem of the write-ahead protocol. Whatever crashes, failures, resumes, recoveries and
   outside changes an attempt meets, as long as no run meets the one breaking state, the upgrade was
   invoked at most once and its receipt is one every later run accepts.
   */
  lemma {:induction false} UpgradeAtMostOnce(host: Host, stored: Option<Record>, events: seq<Event>)
    requires Accounted(host, stored) && Considerate(host, stored, events)
    ensures var (h, s) := History(host, stored, events); Readable(s) && Accounted(h, s) && h.upgrades <= 1
    decreases |events|
  {
    hide Once, Readable, Breaks, After;
    if events == [] {
      AccountBounds(host, stored);
    } else {
      EventKeeps(host, stored, events[0]);
      var (h, s) := After(host, stored, events[0]);
      UpgradeAtMostOnce(h, s, events[1..]);
    }
  }

  lemma AccountBounds(host: Host, stored: Option<Record>)
    requires Accounted(host, stored)
    ensures host.upgrades <= 1
  {}

  lemma TerminalEvent(host: Host, stored: Option<Record>, e: Event)
    requires Terminal(stored)
    ensures After(host, stored, e).1 == stored
  {
    hide Deploy, RetainGate, ValidateResume, Accepted;
    match e
    case Outside(h) =>
    case Run(script, readable) =>
      TerminalStays(host, stored, script);
      RetainFrames(Opened(host, stored, script));
    case ResumeRun(script, readable) =>
      ValidateStill(Opened(host, stored, script));
      TerminalStays(host, stored, ValidateResume(Opened(host, stored, script)).w.script);
    case Recovery(script, readable) => TerminalRecover(host, stored, script);
  }

  lemma TerminalRecover(host: Host, stored: Option<Record>, script: seq<Fate>)
    requires Terminal(stored)
    ensures Recover(host, stored, script).w.stored == stored
  {
    hide Read, Look, Write;
    var w := Opened(host, stored, script);
    ReadStill(w, true);
    var k := Read(w, true);
    if k.Ok? { ReadStill(RecoverBody(k.w).w, true); }
  }

  /** A terminal receipt is never written again, whatever happens. */
  lemma {:induction false} TerminalIsFinal(host: Host, stored: Option<Record>, events: seq<Event>)
    requires Terminal(stored)
    ensures History(host, stored, events).1 == stored
    decreases |events|
  {
    hide After;
    if events != [] {
      TerminalEvent(host, stored, events[0]);
      TerminalIsFinal(After(host, stored, events[0]).0, stored, events[1..]);
    }
  }

  /** Once intent to upgrade is durable, only a recovery that proved no effect moves the receipt on. */
  lemma {:induction false} PendingIsHeld(host: Host, stored: Option<Record>, events: seq<Event>)
    requires Accounted(host, stored) && stored.Some? && stored.value.phase == UpgradePending
    requires forall i :: 0 <= i < |events| ==> !events[i].Recovery?
    ensures var (h, s) := History(host, stored, events);
      h.upgrades == host.upgrades && s.Some? && s.value.phase == UpgradePending
    decreases |events|
  {
    hide Accounted, After;
    if events != [] {
      PendingThrough(host, stored, events[0]);
      var (h, s) := After(host, stored, events[0]);
      PendingIsHeld(h, s, events[1..]);
    }
  }

  lemma PendingThrough(host: Host, stored: Option<Record>, e: Event)
    requires Accounted(host, stored) && !e.Recovery?
    requires stored.Some? && stored.value.phase == UpgradePending
    ensures var (h, s) := After(host, stored, e);
      h.upgrades == host.upgrades && s.Some? && s.value.phase == UpgradePending && Accounted(h, s)
  {
    EventKeeps(host, stored, e);
    PendingProtocol(host, stored);
    hide Deploy, RetainGate, ValidateResume, Accounted, Protocol;
    match e
    case Outside(h) =>
    case Run(script, readable) =>
      PendingStays(host, stored, script);
      RetainFrames(Opened(host, stored, script));
    case ResumeRun(script, readable) =>
      ValidateStill(Opened(host, stored, script));
      PendingStays(host, stored, ValidateResume(Opened(host, stored, script)).w.script);
  }

  lemma PendingProtocol(host: Host, stored: Option<Record>)
    requires Accounted(host, stored) && stored.Some? && stored.value.phase == UpgradePending
    ensures Protocol(host, stored)
  {}

  // ---------------------------------------------------------------- any history

  /** At most one upgrade, and the receipt accounts for it unless it is refused for good. */
  predicate AtMostOnce(host: Host, stored: Option<Record>) {
    && host.upgrades <= 1
    && ((stored.Some? && !Accepted(stored.value)) || Once(stored, host.upgrades))
  }

  lemma RunAtMostOnce(host: Host, stored: Option<Record>, script: seq<Fate>)
    requires AtMostOnce(host, stored) && Readable(stored)
    ensures AtMostOnce(Deploy(host, stored, script).w.host, Deploy(host, stored, script).w.stored)
  {
    if Unprepared(stored) {
      UnpreparedRun(host, stored, script);
      hide Deploy;
    } else {
      DeployKeeps(host, stored, script);
      hide Deploy, Suits;
    }
  }

  lemma EventAtMostOnce(host: Host, stored: Option<Record>, e: Event)
    requires AtMostOnce(host, stored)
    ensures AtMostOnce(After(host, stored, e).0, After(host, stored, e).1)
  {
    hide Deploy, Recover, RetainGate, ValidateResume, Suits, Once;
    match e
    case Outside(h) => OutsideAtMostOnce(host, stored, h);
    case Run(script, readable) =>
      RetainFrames(Opened(host, stored, script));
      OutsideAtMostOnce(host, stored, RetainGate(Opened(host, stored, script)).w.host);
      if Readable(stored) { RunAtMostOnce(host, stored, script); }
    case ResumeRun(script, readable) =>
      ValidateStill(Opened(host, stored, script));
      if Readable(stored) { RunAtMostOnce(host, stored, ValidateResume(Opened(host, stored, script)).w.script); }
    case Recovery(script, readable) =>
      if Readable(stored) { RecoverKeeps(host, stored, script); }
  }

  lemma OutsideAtMostOnce(host: Host, stored: Option<Record>, h: Host)
    requires AtMostOnce(host, stored)
    ensures AtMostOnce(h.(upgrades := host.upgrades), stored)
  {}

  /**
   The unconditional theorem. From the start of an attempt on, no history of runs, resumes, crashes,
   recoveries, unreadable receipts and outside changes ever invokes the upgrade twice.
   */
  lemma {:induction false} UpgradeNeverTwice(host: Host, stored: Option<Record>, events: seq<Event>)
    requires AtMostOnce(host, stored)
    ensures History(host, stored, events).0.upgrades <= 1
    decreases |events|
  {
    hide After;
    if events != [] {
      EventAtMostOnce(host, stored, events[0]);
      var (h, s) := After(host, stored, events[0]);
      UpgradeNeverTwice(h, s, events[1..]);
    }
  }
}
