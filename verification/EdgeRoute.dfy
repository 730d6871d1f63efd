/**
 The transaction as one list of needs: what each step of a run asks of its fate and of the host, in
 order, spelled out on the fields of the host. A run passes exactly when every need on its route is
 met, and otherwise ends by the first that is not.
 */
module EdgeRoute {
  import opened Prelude
  import opened EdgeHost
  import opened EdgeDeploy
  import opened EdgeUnprepared

  // ---------------------------------------------------------------- needs

  /** A step that must go well, or a check that must hold as well; one by sight can also miss. */
  datatype Need = Work | Check(truth: bool, missed: Kind, sight: bool)

  function Sees(truth: bool, missed: Kind): Need { Check(truth, missed, true) }
  function Finds(truth: bool, missed: Kind): Need { Check(truth, missed, false) }

  function Head(script: seq<Fate>): Fate { if script == [] then CALM else script[0] }
  function Tail(script: seq<Fate>): seq<Fate> { if script == [] then [] else script[1..] }

  /** How a step ends that is not met, if it is not. */
  function Break(script: seq<Fate>, n: Need): Option<Kind> {
    if !Head(script).kind.Fine? then Some(Head(script).kind)
    else if n.Check? && (!n.truth || (n.sight && Head(script).blind)) then Some(n.missed)
    else None
  }

  function Meet2(s: seq<Fate>, a: Need, b: Need): Option<Kind> {
    if Break(s, a).Some? then Break(s, a) else Break(Tail(s), b)
  }

  function Meet3(s: seq<Fate>, a: Need, b: Need, c: Need): Option<Kind> {
    if Break(s, a).Some? then Break(s, a) else Meet2(Tail(s), b, c)
  }

  function Meet4(s: seq<Fate>, a: Need, b: Need, c: Need, d: Need): Option<Kind> {
    if Break(s, a).Some? then Break(s, a) else Meet3(Tail(s), b, c, d)
  }

  function Tail2(s: seq<Fate>): seq<Fate> { Tail(Tail(s)) }
  function Tail3(s: seq<Fate>): seq<Fate> { Tail(Tail2(s)) }
  function Tail4(s: seq<Fate>): seq<Fate> { Tail(Tail3(s)) }

  /** How a call ended, if it did not return. */
  function Ending<T>(r: Res<T>): Option<Kind> {
    match r
    case Ok(_, _) => None
    case Failed(_) => Some(Failing)
    case Unknown(_) => Some(Unsure)
    case Crashed(_) => Some(Crash)
  }

  // ---------------------------------------------------------------- the route of a run

  /** How the body of a run ends: with PASS on a host under a receipt, by giving the gate up, or raising. */
  datatype Fare =
    | Passes(host: Host, receipt: Record)
    | Yields(host: Host, receipt: Record, rest: seq<Fate>)
    | Breaks(kind: Kind)

  function Recorded(v: Record, p: Phase): Record { v.(phase := p, status := Running, error := None) }

  /** From a served candidate to the end. The semantic proof is first recorded, and then only compared. */
  function FaresServed(open: bool, h: Host, v: Record, s: seq<Fate>): Fare {
    var first := Break(s, Sees(h.service == Up(Candidate) && h.launcher == Candidate, Failing));
    if first.Some? then Breaks(first.value)
    else if v.mark != NoEffect then FaresOpening(open, h, v, Tail(s))
    else
      var proof := Meet3(Tail(s), Finds(h.gate == Applied, Unsure), Sees(h.gate == Applied, Unsure), Work);
      var digest := Head(Tail3(s)).digest;
      if proof.Some? then Breaks(proof.value)
      else if v.probe == Some(digest) then FaresOpening(open, h, v, Tail4(s))
      else if v.probe.Some? then Breaks(Unsure)
      else
        var kept := Break(Tail4(s), Work);
        if kept.Some? then Breaks(kept.value)
        else FaresOpening(open, h, Recorded(v.(probe := Some(digest)), v.phase), Tail(Tail4(s)))
  }

  /** The gate goes only if it is seen from both sides, unless it is gone already. */
  function FaresOpening(open: bool, h: Host, v: Record, s: seq<Fate>): Fare {
    if open then FaresPublic(h, v, s)
    else
      var gone := Meet4(s, Finds(h.gate == Applied, Unsure), Sees(h.gate == Applied, Unsure), Work, Work);
      if gone.Some? then Breaks(gone.value) else FaresPublic(h.(gate := Absent), Recorded(v, Ungated), Tail4(s))
  }

  function FaresPublic(h: Host, v: Record, s: seq<Fate>): Fare {
    var served := h.gate == Absent && h.service == Up(if h.launcher == Candidate then Candidate else Current);
    var last := Meet2(s, Sees(served, Failing), Work);
    if last.Some? then Breaks(last.value) else Passes(h, v.(phase := Complete, status := Pass, error := None))
  }

  /** From phase `v.phase` to the end, the receipt being `v`. */
  function Fares(retained: bool, h: Host, v: Record, s: seq<Fate>): Fare
    decreases match v.phase
              case Preflight => 8 case Prepared => 7 case Gated => 6 case Stopped => 5 case Upgraded => 4
              case Snapshotted => 3 case Swapped => 2 case _ => 1
  {
    match v.phase
    case Preflight =>
      var b :=
        Meet3(s, Sees(h.gate == Absent && h.service == Up(Current), Failing), Finds(h.service.Up?, Unsure), Work);
      if b.Some? then Breaks(b.value)
      else Fares(retained, h, Recorded(v.(image := Some(Head(Tail(s)).digest)), Prepared), Tail3(s))
    case Prepared =>
      var b := Meet2(s, Work, Work);
      if b.Some? then Breaks(b.value)
      else Fares(retained, h.(gate := Applied), Recorded(v, Gated), Tail2(s))
    case Gated =>
      var seen := Break(s, Sees(h.gate == Applied, Failing));
      if v.image.None? then Yields(h, v, s)
      else if seen == Some(Crash) then Breaks(Crash)
      else if seen.Some? then Yields(h, v, Tail(s))
      else
        var b := Meet2(Tail(s), Work, Work);
        if b.Some? then Breaks(b.value)
        else Fares(retained, h.(service := Down), Recorded(v, Stopped), Tail3(s))
    case Stopped =>
      var b := if v.image.None? then Break(s, Work) else Meet3(s, Work, Work, Work);
      if b.Some? then Breaks(b.value)
      else if v.image.None? then Breaks(Crash)
      else
        var mark := if h.database == Target then NoEffect else Applied_;
        Fares(retained, h.(database := Target, upgrades := h.upgrades + 1), Recorded(v.(mark := mark), Upgraded),
              Tail3(s))
    case Upgraded =>
      var taken := Some(Head(s).digest);
      var b := Meet3(s, Work, Work, Work);
      if b.Some? then Breaks(b.value)
      else Fares(retained, h.(snapshot := taken), Recorded(v.(snapshot := taken), Snapshotted), Tail3(s))
    case Snapshotted =>
      var b := Meet2(s, Work, Work);
      if b.Some? then Breaks(b.value)
      else Fares(retained, h.(backup := Some(h.launcher), launcher := Candidate), Recorded(v, Swapped), Tail2(s))
    case Swapped =>
      var b := Meet2(s, Work, Work);
      var build := if h.service.Up? then h.service else Up(h.launcher);
      if b.Some? then Breaks(b.value)
      else Fares(retained, h.(service := build), Recorded(v, Started), Tail2(s))
    case _ => FaresServed(v.phase != Started && !retained, h, v, s)
  }

  // ---------------------------------------------------------------- each stage follows the route

  /** The stage ended as `b` says; if it returned, it recorded `v` on host `h`, `s` being left of the script. */
  predicate Follows<T>(w: World, r: Res<T>, b: Option<Kind>, h: Host, v: Record, s: seq<Fate>) {
    && Ending(r) == b
    && (r.Ok? ==> r.w == w.(host := h, phase := v.phase, value := v, stored := Some(v), script := s))
  }

  lemma ActFollows(w: World, partial: Host, full: Host)
    ensures Ending(Act(w, partial, full)) == Break(w.script, Work)
    ensures Act(w, partial, full).Ok? ==> Act(w, partial, full).w == w.(host := full, script := Tail(w.script))
  {}

  lemma LookFollows(w: World, truth: bool)
    ensures Look(w, truth).w == w.(script := Tail(w.script)) && Ending(Look(w, truth)) == Break(w.script, Work)
    ensures Look(w, truth).Ok? ==> Look(w, truth).value == (truth && !Head(w.script).blind)
    ensures Read(w, truth).w == w.(script := Tail(w.script)) && Ending(Read(w, truth)) == Break(w.script, Work)
    ensures Read(w, truth).Ok? ==> Read(w, truth).value == truth
  {}

  lemma ReachFollows(w: World, p: Phase)
    ensures Follows(w, Reach(w, p), Break(w.script, Work), w.host, Recorded(w.value, p), Tail(w.script))
  {}

  lemma PrepareFollows(w: World)
    requires w.phase == Preflight
    ensures var h, s := w.host, w.script;
      Follows(w, StagePrepare(w),
              Meet3(s, Sees(h.gate == Absent && h.service == Up(Current), Failing), Finds(h.service.Up?, Unsure), Work),
              h, Recorded(w.value.(image := Some(Head(Tail(s)).digest)), Prepared), Tail3(s))
  {
    LookFollows(w, w.host.gate == Absent && w.host.service == Up(Current));
    assert CurrentIsPublic(w.host) == (w.host.gate == Absent && w.host.service == Up(Current));
    hide Reach, Recorded, Look;
    var r := CurrentPublicReady(w);
    if r.Ok? && r.value {
      var p := PrepareOp(r.w);
      if p.Ok? { ReachFollows(p.w.(value := p.w.value.(image := Some(p.value))), Prepared); }
    }
  }

  lemma GateFollows(w: World)
    requires w.phase == Prepared
    ensures Follows(w.(attempted := true), StageGate(w), Meet2(w.script, Work, Work), w.host.(gate := Applied),
                    Recorded(w.value, Gated), Tail2(w.script))
  {
    var g := GateOp(w.(attempted := true));
    if g.Ok? { ReachFollows(g.w, Gated); }
    hide Reach, Recorded;
  }

  lemma StopFollows(w: World)
    requires w.phase == Gated && w.value.image.Some?
    ensures var seen := Break(w.script, Sees(w.host.gate == Applied, Failing));
      if seen.None? then
        Follows(w, StageStop(w), Meet2(Tail(w.script), Work, Work), w.host.(service := Down),
                Recorded(w.value, Stopped),
                Tail3(w.script))
        && (StageStop(w).Ok? ==> StageStop(w).value.None?)
      else if seen == Some(Crash) then StageStop(w) == Crashed(w.(script := Tail(w.script)))
      else Given(StageStop(w), Abort(w.(script := Tail(w.script))))
  {
    LookFollows(w, w.host.gate == Applied);
    var seen := PublicGated(w);
    hide Look, Act, Reach, Recorded, Abort;
    if seen.Ok? && seen.value {
      ActFollows(seen.w, seen.w.host, seen.w.host.(service := Down));
      var r := StopOp(seen.w);
      if r.Ok? { ReachFollows(r.w, Stopped); }
    }
  }

  /** The stage gave the gate up: it ends the run as the abort does. */
  predicate Given(r: Res<Option<Status>>, a: Res<Status>) {
    r.w == a.w && Ending(r) == Ending(a) && (r.Ok? ==> r.value == Some(a.value))
  }

  lemma UpgradeFollows(w: World)
    requires w.phase == Stopped && w.host.service == Down && w.host.gate == Applied && w.value.image.Some?
    ensures var mark := if w.host.database == Target then NoEffect else Applied_;
      Follows(w, StageUpgrade(w), Meet3(w.script, Work, Work, Work),
              w.host.(database := Target, upgrades := w.host.upgrades + 1), Recorded(w.value.(mark := mark), Upgraded),
              Tail3(w.script))
  {
    hide Reach;
    var intent := w.(value := w.value.(mark := Pending));
    ReachFollows(intent, UpgradePending);
    var r := Reach(intent, UpgradePending);
    if r.Ok? {
      var u := UpgradeOp(r.w);
      if u.Ok? { ReachFollows(u.w.(value := u.w.value.(mark := u.value)), Upgraded); }
    }
  }

  lemma BareUpgradeFollows(w: World)
    requires w.phase == Stopped && w.value.image.None?
    ensures Ending(StageUpgrade(w)) == Some(if Break(w.script, Work).Some? then Break(w.script, Work).value else Crash)
  {
    ReachFollows(w.(value := w.value.(mark := Pending)), UpgradePending);
    hide Reach;
  }

  lemma SnapshotFollows(w: World)
    requires w.phase == Upgraded
    ensures var taken := Some(Head(w.script).digest);
      Follows(w, StageSnapshot(w), Meet3(w.script, Work, Work, Work), w.host.(snapshot := taken),
              Recorded(w.value.(snapshot := taken), Snapshotted), Tail3(w.script))
  {
    hide Reach, Recorded, SnapshotOp, SnapshotDigestOp;
    TakenFollows(w);
    var r := SnapshotOp(w);
    if r.Ok? {
      TakenFollows(r.w);
      var d := SnapshotDigestOp(r.w);
      if d.Ok? { ReachFollows(d.w.(value := d.w.value.(snapshot := Some(d.value))), Snapshotted); }
    }
  }

  lemma TakenFollows(w: World)
    ensures var r := SnapshotOp(w);
      && Ending(r) == Break(w.script, Work)
      && (r.Ok? ==> r.w == w.(host := w.host.(snapshot := Some(Head(w.script).digest)), script := Tail(w.script)))
    ensures w.host.snapshot.Some? ==>
      var d := SnapshotDigestOp(w);
      && Ending(d) == Break(w.script, Work) && d.w == w.(script := Tail(w.script))
      && (d.Ok? ==> d.value == w.host.snapshot.value)
  {}

  lemma SwapFollows(w: World)
    requires w.phase == Snapshotted
    ensures Follows(w, StageSwap(w), Meet2(w.script, Work, Work),
                    w.host.(backup := Some(w.host.launcher), launcher := Candidate), Recorded(w.value, Swapped),
                    Tail2(w.script))
  {
    var r := SwapOp(w);
    if r.Ok? { ReachFollows(r.w, Swapped); }
    hide Reach, Recorded;
  }

  lemma StartFollows(w: World)
    requires w.phase == Swapped
    ensures var build := if w.host.service.Up? then w.host.service else Up(w.host.launcher);
      Follows(w, StageStart(w), Meet2(w.script, Work, Work), w.host.(service := build), Recorded(w.value, Started),
              Tail2(w.script))
  {
    var r := StartOp(w);
    if r.Ok? { ReachFollows(r.w, Started); }
    hide Reach, Recorded;
  }

  // ---------------------------------------------------------------- the end of the body

  lemma BoundaryFollows(w: World)
    ensures var gated := w.host.gate == Applied;
      && Ending(Boundary(w)) == Meet2(w.script, Finds(gated, Unsure), Sees(gated, Unsure))
      && (Boundary(w).Ok? ==> Boundary(w).w == w.(script := Tail2(w.script)))
  {
    LookFollows(w, w.host.gate == Applied);
    var e := GateExact(w);
    LookFollows(e.w, e.w.host.gate == Applied);
    hide Look, Read;
  }

  lemma SemanticFollows(w: World)
    requires w.value.phase == w.phase && w.value.mark == NoEffect
    ensures var s, v, gated, r := w.script, w.value, w.host.gate == Applied, StageSemantic(w);
      var proof, digest := Meet3(s, Finds(gated, Unsure), Sees(gated, Unsure), Work), Head(Tail2(s)).digest;
      if proof.Some? then Ending(r) == proof
      else if v.probe == Some(digest) then r == Ok(w.(script := Tail3(s)), ())
      else if v.probe.Some? then r.Unknown?
      else Follows(w, r, Break(Tail3(s), Work), w.host, Recorded(v.(probe := Some(digest)), v.phase), Tail4(s))
  {
    BoundaryFollows(w);
    var b := Boundary(w);
    hide Boundary, Reach;
    if b.Ok? {
      var p := SemanticOp(b.w);
      if p.Ok? { ReachFollows(p.w.(value := p.w.value.(probe := Some(p.value))), p.w.phase); }
    }
  }

  lemma UngateFollows(w: World)
    requires w.phase == Started || w.retained
    ensures var gated := w.host.gate == Applied;
      Follows(w, StageUngate(w), Meet4(w.script, Finds(gated, Unsure), Sees(gated, Unsure), Work, Work),
              w.host.(gate := Absent), Recorded(w.value, Ungated), Tail4(w.script))
  {
    BoundaryFollows(w);
    var b := Boundary(w);
    hide Boundary, Act, Reach, Recorded;
    if b.Ok? {
      ActFollows(b.w, b.w.host, b.w.host.(gate := Absent));
      var u := UngateOp(b.w);
      if u.Ok? { ReachFollows(u.w, Ungated); }
    }
  }

  /** The body ended as its fare says. */
  predicate Ends(w: World, r: Res<Status>, f: Fare) {
    match f
    case Passes(h, v) => r.Ok? && r.value == Pass && r.w.host == h && r.w.stored == Some(v)
    case Breaks(kind) => Ending(r) == Some(kind)
    case Yields(h, v, s) =>
      r == Abort(w.(host := h, phase := Gated, value := v, stored := Some(v), attempted := true, script := s))
  }

  lemma PublicEnds(w: World)
    ensures var ready := PublicReady(w);
      var r := if !ready.Ok? then ready.PropagateFailure()
               else if !ready.value then Failed(ready.w)
               else Answered(Write(ready.w, Complete, Pass, None), Pass);
      Ends(w, r, FaresPublic(w.host, w.value, w.script))
  {
    LookFollows(w, IsPublic(w.host));
    var ready := PublicReady(w);
    hide Look;
  }

  /** A write as the end of a body: the verdict is told once the write returned. */
  function Answered(r: Res<()>, verdict: Status): Res<Status> {
    if r.Ok? then Ok(r.w, verdict) else r.PropagateFailure()
  }

  /** The end of `Finish`, from the ungating on. */
  function Opening(w: World): Res<Status> {
    var (w, _) :- StageUngate(w);
    var (w, public) :- PublicReady(w);
    if !public then Failed(w) else Answered(Write(w, Complete, Pass, None), Pass)
  }

  lemma OpeningEnds(w: World)
    requires w.phase in {Started, Ungated} && w.value.phase == w.phase
    ensures Ends(w, Opening(w), FaresOpening(w.phase != Started && !w.retained, w.host, w.value, w.script))
  {
    if w.phase == Started || w.retained {
      UngateFollows(w);
      var u := StageUngate(w);
      hide StageUngate, PublicReady, Write, FaresPublic;
      if u.Ok? { PublicEnds(u.w); }
    } else {
      PublicEnds(w);
      hide PublicReady, Write, FaresPublic;
    }
  }

  lemma FinishEnds(w: World)
    requires w.phase in {Started, Ungated} && w.value.phase == w.phase
    ensures Ends(w, Finish(w), FaresServed(w.phase != Started && !w.retained, w.host, w.value, w.script))
  {
    LookFollows(w, CandidateServes(w.host));
    var l := LocalReady(w);
    hide Look, StageUngate, StageSemantic, PublicReady, Write, FaresOpening;
    if l.Ok? && l.value {
      if w.value.mark == NoEffect { ProvenEnds(l.w); } else { PlainEnds(l.w); }
      assert Finish(w) == Proving(l.w);
    }
  }

  /** The end of `Finish`, from the semantic proof on. */
  function Proving(w: World): Res<Status> {
    var (w, _) :- StageSemantic(w);
    Opening(w)
  }

  lemma PlainEnds(w: World)
    requires w.phase in {Started, Ungated} && w.value.phase == w.phase && w.value.mark != NoEffect
    ensures Ends(w, Proving(w), FaresOpening(w.phase != Started && !w.retained, w.host, w.value, w.script))
  {
    OpeningEnds(w);
    hide Opening, FaresOpening;
  }

  lemma ProvenEnds(w: World)
    requires w.phase in {Started, Ungated} && w.value.phase == w.phase && w.value.mark == NoEffect
    ensures var open, h, v, s := w.phase != Started && !w.retained, w.host, w.value, w.script;
      var proof := Meet3(s, Finds(h.gate == Applied, Unsure), Sees(h.gate == Applied, Unsure), Work);
      var digest, kept := Head(Tail2(s)).digest, Break(Tail3(s), Work);
      Ends(w, Proving(w),
           if proof.Some? then Breaks(proof.value)
           else if v.probe == Some(digest) then FaresOpening(open, h, v, Tail3(s))
           else if v.probe.Some? then Breaks(Unsure)
           else if kept.Some? then Breaks(kept.value)
           else FaresOpening(open, h, Recorded(v.(probe := Some(digest)), v.phase), Tail4(s)))
  {
    SemanticFollows(w);
    var s := StageSemantic(w);
    hide StageSemantic, Opening, FaresOpening;
    if s.Ok? { OpeningEnds(s.w); }
  }

  // ---------------------------------------------------------------- the whole route

  /** Between two stages: receipt, memory and phase agree, and the host is what the phase presumes. */
  predicate Enroute(w: World) {
    && w.stored == Some(w.value) && w.value.phase == w.phase
    && w.phase in {Preflight, Prepared, Gated, Stopped, Upgraded, Snapshotted, Swapped, Started, Ungated}
    && (w.phase == Gated ==> w.attempted) && (w.phase == Stopped ==> w.host.gate == Applied && w.host.service == Down)
  }

  /** Each stage is skipped unless the phase is its own, so the rest of the body starts over after it. */
  lemma ReplaceAgain(w: World)
    ensures var r := StageUpgrade(w); w.phase == Stopped && r.Ok? && r.w.phase == Upgraded ==>
      Replace(w) == Replace(r.w)
    ensures var r := StageSnapshot(w); w.phase == Upgraded && r.Ok? && r.w.phase == Snapshotted ==>
      Replace(w) == Replace(r.w)
    ensures var r := StageSwap(w); w.phase == Snapshotted && r.Ok? && r.w.phase == Swapped ==>
      Replace(w) == Replace(r.w)
    ensures var r := StageStart(w); w.phase == Swapped && r.Ok? && r.w.phase == Started ==> Replace(w) == Replace(r.w)
    ensures w.phase in {Started, Ungated} ==> Replace(w) == Finish(w)
  {
    hide UpgradeOp, SnapshotOp, SnapshotDigestOp, Act, Reach, Finish;
  }

  lemma ReplaceBreaks(w: World)
    ensures w.phase == Stopped ==> Ending(StageUpgrade(w)).Some? ==> Ending(Replace(w)) == Ending(StageUpgrade(w))
    ensures w.phase == Upgraded ==> Ending(StageSnapshot(w)).Some? ==> Ending(Replace(w)) == Ending(StageSnapshot(w))
    ensures w.phase == Snapshotted ==> Ending(StageSwap(w)).Some? ==> Ending(Replace(w)) == Ending(StageSwap(w))
    ensures w.phase == Swapped ==> Ending(StageStart(w)).Some? ==> Ending(Replace(w)) == Ending(StageStart(w))
  {
    hide UpgradeOp, SnapshotOp, SnapshotDigestOp, Act, Reach, Finish;
  }

  lemma {:induction false} ReplaceEnds(w: World)
    requires Enroute(w) && w.phase !in {Preflight, Prepared, Gated}
    ensures Ends(w, Replace(w), Fares(w.retained, w.host, w.value, w.script))
    decreases match w.phase case Stopped => 4 case Upgraded => 3 case Snapshotted => 2 case Swapped => 1 case _ => 0
  {
    ReplaceAgain(w);
    ReplaceBreaks(w);
    hide Replace, Finish, StageUpgrade, StageSnapshot, StageSwap, StageStart, FaresServed, Abort;
    match w.phase
    case Stopped =>
      if w.value.image.None? {
        BareUpgradeFollows(w);
      } else {
        UpgradeFollows(w);
        if StageUpgrade(w).Ok? { ReplaceEnds(StageUpgrade(w).w); }
      }
    case Upgraded =>
      SnapshotFollows(w);
      if StageSnapshot(w).Ok? { ReplaceEnds(StageSnapshot(w).w); }
    case Snapshotted =>
      SwapFollows(w);
      if StageSwap(w).Ok? { ReplaceEnds(StageSwap(w).w); }
    case Swapped =>
      StartFollows(w);
      if StageStart(w).Ok? { ReplaceEnds(StageStart(w).w); }
    case _ => FinishEnds(w);
  }

  lemma MiddleAgain(w: World)
    ensures var r := StagePrepare(w); w.phase == Preflight && r.Ok? && r.w.phase == Prepared ==>
      Middle(w) == Middle(r.w)
    ensures var r := StageGate(w); w.phase == Prepared && r.Ok? && r.w.phase == Gated ==> Middle(w) == Middle(r.w)
    ensures var r := StageStop(w);
      w.phase == Gated && r.Ok? && r.value.None? && r.w.phase == Stopped ==> Middle(w) == Middle(r.w)
    ensures w.phase !in {Preflight, Prepared, Gated} ==> Middle(w) == Replace(w)
  {
    hide Act, Look, PrepareOp, Reach, Replace, Abort;
  }

  lemma MiddleBreaks(w: World)
    ensures w.phase == Preflight ==> Ending(StagePrepare(w)).Some? ==> Ending(Middle(w)) == Ending(StagePrepare(w))
    ensures w.phase == Prepared ==> Ending(StageGate(w)).Some? ==> Ending(Middle(w)) == Ending(StageGate(w))
    ensures w.phase == Gated ==> Ending(StageStop(w)).Some? ==> Ending(Middle(w)) == Ending(StageStop(w))
  {
    hide Act, Look, PrepareOp, Reach, Replace, Abort;
  }

  /** A gate given up ends the whole body as the abort ends. */
  lemma MiddleYields(w: World, a: Res<Status>)
    requires w.phase == Gated && Given(StageStop(w), a)
    ensures Middle(w) == a
  {
    hide StageStop, Replace;
  }

  lemma {:induction false} MiddleEnds(w: World)
    requires Enroute(w)
    ensures Ends(w, Middle(w), Fares(w.retained, w.host, w.value, w.script))
    decreases match w.phase case Preflight => 3 case Prepared => 2 case Gated => 1 case _ => 0
  {
    MiddleAgain(w);
    MiddleBreaks(w);
    hide Middle, Replace, StagePrepare, StageGate, StageStop, FaresServed, Abort;
    match w.phase
    case Preflight =>
      PrepareFollows(w);
      if StagePrepare(w).Ok? { MiddleEnds(StagePrepare(w).w); }
    case Prepared =>
      GateFollows(w);
      if StageGate(w).Ok? { MiddleEnds(StageGate(w).w); }
    case Gated => GatedEnds(w);
    case _ => ReplaceEnds(w);
  }

  lemma GatedEnds(w: World)
    requires Enroute(w) && w.phase == Gated
    ensures Ends(w, Middle(w), Fares(w.retained, w.host, w.value, w.script))
  {
    MiddleAgain(w);
    MiddleBreaks(w);
    if w.value.image.None? {
      assert Given(StageStop(w), Abort(w));
      MiddleYields(w, Abort(w));
    } else {
      StopFollows(w);
      var seen := Break(w.script, Sees(w.host.gate == Applied, Failing));
      hide Middle, Replace, StageStop, Abort, FaresServed;
      if seen.None? {
        if StageStop(w).Ok? { ReplaceEnds(StageStop(w).w); MiddleAgain(StageStop(w).w); }
      } else if seen != Some(Crash) {
        MiddleYields(w, Abort(w.(script := Tail(w.script))));
      }
    }
  }

  // ---------------------------------------------------------------- where a resumed run takes up

  /** What reconciliation proves of a receipt `v`, host by host. */
  function Proves(h: Host, v: Record): Option<Observation> {
    var swapped := v.snapshot.Some? && h.launcher == Candidate && h.backup == Some(Current) && h.snapshot == v.snapshot;
    match v.phase
    case Preflight =>
      if h.launcher != Current || h.backup != None || h.snapshot != None || h.service == Down then None
      else Some(Observation(if h.gate == Absent then Preflight else Gated, None, false))
    case Prepared =>
      if h.launcher != Current || h.backup != None || h.snapshot != None || h.service == Down then None
      else Some(Observation(if h.gate == Absent then Prepared else Gated, None, false))
    case Gated =>
      if h.launcher != Current || h.backup != None || h.gate == Absent then None
      else Some(Observation(if h.service == Down then Stopped else Gated, None, false))
    case Stopped =>
      if h != Host(Applied, Down, Current, None, None, h.database, h.upgrades) then None
      else Some(Observation(Stopped, None, false))
    case Upgraded =>
      if h.gate == Absent || h.service != Down then None
      else if h.snapshot == None then Some(Observation(Upgraded, None, false))
      else Some(Observation(Snapshotted, h.snapshot, false))
    case Snapshotted =>
      if h.gate == Absent || h.service != Down then None
      else if swapped then Some(Observation(Swapped, None, false))
      else if v.snapshot.Some? && h.launcher == Current && h.backup == None && h.snapshot == v.snapshot
      then Some(Observation(Snapshotted, None, false))
      else None
    case Swapped =>
      if h.gate == Absent || !swapped then None
      else if h.service == Down then Some(Observation(Swapped, None, false))
      else if h.service == Up(Candidate) then Some(Observation(Started, None, false))
      else None
    case Started =>
      if !swapped || h.service != Up(Candidate) then None
      else Some(Observation(if h.gate == Absent then Ungated else Started, None, false))
    case Ungated =>
      if !swapped || h.service != Up(Candidate) then None
      else Some(Observation(Ungated, None, h.gate == Applied))
    case Complete =>
      if !swapped || h.service != Up(Candidate) || h.gate == Applied then None
      else Some(Observation(Complete, None, false))
    case _ => None
  }

  lemma ReconcilesExactly(h: Host, v: Record)
    ensures Classify(h, v.phase, v.snapshot) == Proves(h, v)
  {}

  /** The route of a whole run: a fresh one, or one that takes up where the host proves its receipt to be. */
  function Route(h: Host, stored: Option<Record>, s: seq<Fate>): Fare {
    if stored.None? then
      var pristine :=
        h.launcher == Current && h.backup == None && h.snapshot == None && h.gate == Absent && h.service.Up?;
      var b := Meet2(s, Work, Sees(pristine, Failing));
      if b.Some? then Breaks(b.value) else Fares(false, h, Recorded(FRESH, Preflight), Tail2(s))
    else
      var v := stored.value;
      if v.phase == Gated && v.error == Some(GateAbortUnknown) then Yields(h, v, s)
      else
        var seen := Proves(h, v);
        var b := Break(s, Sees(seen.Some?, Unsure));
        if b.Some? then Breaks(b.value)
        else RouteFrom(h, v, seen.value, Tail(s))
  }

  /** A PREPARED attempt rehearses again; any other records what was proven, if that is more. */
  function RouteFrom(h: Host, v: Record, seen: Observation, s: seq<Fate>): Fare {
    if v.phase == Prepared then
      var b := Meet2(s, Finds(h.service.Up?, Unsure), Work);
      if b.Some? then Breaks(b.value)
      else Fares(false, h, Recorded(v.(image := Some(Head(s).digest)), seen.phase), Tail2(s))
    else if seen.phase == v.phase && seen.snapshot.None? then Fares(seen.retained, h, v, s)
    else
      var b := Break(s, Work);
      var u := if seen.snapshot.Some? then v.(snapshot := seen.snapshot) else v;
      if b.Some? then Breaks(b.value) else Fares(seen.retained, h, Recorded(u, seen.phase), Tail(s))
  }

  lemma FreshEnds(w: World)
    requires w.stored.None? && w.phase == Preflight && w.value == FRESH && !w.retained
    ensures Ends(w, Body(w, false), Route(w.host, None, w.script))
  {
    ReachFollows(w, Preflight);
    var o := Reach(w, Preflight);
    hide Reach, Middle, Abort, Fares;
    if o.Ok? {
      var p := PreflightOp(o.w);
      if p.Ok? {
        assert Enroute(p.w);
        MiddleEnds(p.w);
      }
    }
  }

  /** What `Begin` and the second rehearsal make of a resumed attempt. */
  lemma TakesUp(w: World)
    requires w.stored == Some(w.value) && w.value.phase == w.phase && !w.retained
    requires w.attempted <==> w.phase !in {Preflight, Prepared}
    requires Proves(w.host, w.value).Some? && Break(w.script, Work).None? && !Head(w.script).blind
    requires w.phase !in {Complete, RolledBack, NoEffectProven}
    ensures var seen := Proves(w.host, w.value).value;
      BeginResumed(w) == Adopt(w.(script := Tail(w.script)), seen)
  {
    ReconcilesExactly(w.host, w.value);
    hide Adopt, Classify;
  }

  lemma AdoptEnds(w: World, seen: Observation)
    requires w.stored == Some(w.value) && w.value.phase == w.phase && Proves(w.host, w.value) == Some(seen)
    requires w.phase !in {Prepared, Complete} && !w.retained
    ensures var r := Adopt(w, seen);
      var b := if seen.phase == w.phase && seen.snapshot.None? then None else Break(w.script, Work);
      var u := if seen.snapshot.Some? then w.value.(snapshot := seen.snapshot) else w.value;
      && Ending(r) == b
      && (r.Ok? ==>
            && r.value == seen.phase && Enroute(r.w) && r.w.torn == w.torn
            && r.w.retained == seen.retained && r.w.host == w.host
            && (if seen.phase == w.phase && seen.snapshot.None? then r.w.value == w.value && r.w.script == w.script
                else r.w.value == Recorded(u, seen.phase) && r.w.script == Tail(w.script)))
  {
    var v := w.(retained := seen.retained,
                value := if seen.snapshot.Some? then w.value.(snapshot := seen.snapshot) else w.value);
    ReachFollows(v, seen.phase);
    hide Reach;
  }

  lemma ResumedEnds(w: World)
    requires w.stored == Some(w.value) && w.value.phase == w.phase && !w.retained
    requires w.attempted <==> w.phase !in {Preflight, Prepared}
    requires w.phase !in {Complete, RolledBack, NoEffectProven}
    ensures Ends(w, Body(w, true), Route(w.host, w.stored, w.script))
  {
    var v := w.value;
    if v.phase == Gated && v.error == Some(GateAbortUnknown) {
      hide Abort, Begin, Middle;
    } else {
      var seen := Proves(w.host, v);
      var b := Break(w.script, Sees(seen.Some?, Unsure));
      ReconcilesExactly(w.host, v);
      if b.Some? {
        hide Abort, Adopt, Middle, Classify;
      } else {
        TakesUp(w);
        if w.phase == Prepared { PreparedEnds(w, seen.value); } else { OthersEnd(w, seen.value); }
      }
    }
  }

  lemma PreparedEnds(w: World, seen: Observation)
    requires w.stored == Some(w.value) && w.value.phase == w.phase == Prepared && !w.retained && !w.attempted
    requires Proves(w.host, w.value) == Some(seen)
    requires BeginResumed(w) == Adopt(w.(script := Tail(w.script)), seen)
    ensures Ends(w, Body(w, true), RouteFrom(w.host, w.value, seen, Tail(w.script)))
  {
    var g := w.(script := Tail(w.script), attempted := seen.phase == Gated);
    assert BeginResumed(w) == Ok(g, seen.phase) by { hide Reach; }
    BodyContinues(w);
    ReprepareEnds(g, seen.phase);
    hide Body, BeginResumed, Middle, Abort, Fares, Reprepare, Adopt, Proves, Enroute;
    var r := Reprepare(g, true, seen.phase);
    if r.Ok? { MiddleEnds(r.w); }
  }

  lemma ReprepareEnds(g: World, q: Phase)
    requires g.phase == Prepared && q in {Prepared, Gated} && (q == Gated ==> g.attempted)
    ensures var r := Reprepare(g, true, q);
      && Ending(r) == Meet2(g.script, Finds(g.host.service.Up?, Unsure), Work)
      && (r.Ok? ==> Enroute(r.w) && r.w.retained == g.retained && r.w.host == g.host && r.w.torn == g.torn
                    && r.w.value == Recorded(g.value.(image := Some(Head(g.script).digest)), q)
                    && r.w.script == Tail2(g.script))
  {
    var p := PrepareOp(g);
    hide Reach;
    if p.Ok? { ReachFollows(p.w.(value := p.w.value.(image := Some(p.value))), q); }
  }

  /** A resumed body that does not abort goes on from where it begins. */
  lemma BodyContinues(w: World)
    requires !(w.phase == Gated && w.value.error == Some(GateAbortUnknown))
    ensures var g := BeginResumed(w);
      && (!g.Ok? ==> Ending(Body(w, true)) == Ending(g))
      && (g.Ok? && g.w.phase != UpgradePending ==>
            if w.phase != Prepared then Body(w, true) == Middle(g.w)
            else
              var r := Reprepare(g.w, true, g.value);
              if r.Ok? then Body(w, true) == Middle(r.w) else Ending(Body(w, true)) == Ending(r))
  {
    hide BeginResumed, PrepareOp, Reach, Middle, Abort;
  }

  lemma OthersEnd(w: World, seen: Observation)
    requires w.stored == Some(w.value) && w.value.phase == w.phase && !w.retained
    requires w.phase !in {Prepared, Complete} && Proves(w.host, w.value) == Some(seen)
    requires !(w.phase == Gated && w.value.error == Some(GateAbortUnknown))
    requires BeginResumed(w) == Adopt(w.(script := Tail(w.script)), seen)
    ensures Ends(w, Body(w, true), RouteFrom(w.host, w.value, seen, Tail(w.script)))
  {
    var v := w.(script := Tail(w.script));
    AdoptEnds(v, seen);
    BodyContinues(w);
    assert seen.phase != UpgradePending && (seen.retained ==> seen.phase == Ungated);
    hide Body, BeginResumed, Middle, Abort, Fares, Adopt, Proves, Reprepare, Ends;
    var g := Adopt(v, seen);
    if g.Ok? {
      EnroutePhase(g.w);
      hide Enroute;
      MiddleEnds(g.w);
      if g.w.phase == Ungated { LateNeverYields(g.w.retained, g.w.host, g.w.value, g.w.script); }
      EndsMoves(w, g.w, Middle(g.w), Fares(g.w.retained, g.w.host, g.w.value, g.w.script));
    } else {
      EndsBroken(w, Body(w, true), Ending(g).value);
    }
  }

  lemma EndsBroken(w: World, r: Res<Status>, k: Kind)
    requires Ending(r) == Some(k)
    ensures Ends(w, r, Breaks(k))
  {}

  /** An end does not depend on what led to it. */
  lemma EndsMoves(w: World, g: World, r: Res<Status>, f: Fare)
    requires Ends(g, r, f) && g.torn == w.torn && (f.Yields? ==> g.retained == w.retained)
    ensures Ends(w, r, f)
  {
    hide Abort;
  }

  lemma {:induction false} LateNeverYields(retained: bool, h: Host, v: Record, s: seq<Fate>)
    requires v.phase == Ungated
    ensures !Fares(retained, h, v, s).Yields?
  {}

  lemma EnroutePhase(w: World)
    requires Enroute(w)
    ensures w.phase != UpgradePending && w.stored == Some(w.value) && w.value.phase == w.phase
  {}

  /** The main theorem: the body of every run ends as its route says. */
  lemma BodyFollowsRoute(host: Host, stored: Option<Record>, script: seq<Fate>)
    requires Readable(stored) && !Terminal(stored)
    ensures var w := Opened(host, stored, script); Ends(w, Body(w, stored.Some?), Route(host, stored, script))
  {
    var w := Opened(host, stored, script);
    hide Body, Route, Abort;
    if stored.None? { FreshEnds(w); } else { ResumedEnds(w); }
  }

  /** A run tells PASS if and only if every need on its route is met, and then on that host and receipt. */
  lemma PassExactly(host: Host, stored: Option<Record>, script: seq<Fate>)
    requires Readable(stored) && !Terminal(stored)
    ensures var end, f := Deploy(host, stored, script), Route(host, stored, script);
      && ((end.Returned? && end.verdict == Pass) <==> f.Passes?)
      && (f.Passes? ==> end.w.host == f.host && end.w.stored == Some(f.receipt))
  {
    BodyFollowsRoute(host, stored, script);
    NeverPasses(Opened(host, stored, script), Body(Opened(host, stored, script), stored.Some?));
    hide Body, Route, OnUnknown, OnFailed;
    var f := Route(host, stored, script);
    if f.Yields? { AbortNeverPasses(Opened(host, stored, script).(host := f.host, phase := Gated, value := f.receipt,
                     stored := Some(f.receipt), attempted := true, script := f.rest)); }
    hide Abort;
  }

  lemma NeverPasses(w: World, r: Res<Status>)
    ensures r.Unknown? ==> OnUnknown(r.w).Ok? ==> OnUnknown(r.w).value == Unsettled
    ensures r.Failed? ==> OnFailed(r.w).Ok? ==> OnFailed(r.w).value in {Fail, Unsettled}
  {
    hide RetainGate, RollBack, Write;
  }

  lemma AbortNeverPasses(w: World)
    ensures Abort(w).Ok? ==> Abort(w).value in {Fail, Unsettled}
  {
    hide AbortTry, Write, Look;
  }
}
