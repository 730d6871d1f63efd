/**
 Activation obligations and their transitions (src/switchstand/activation_continuity.py:31-427).
 Digests are injective constructors, so two sealed records with the same digest are the same record.
 */
module Continuity {
  import opened Prelude

  type Id = nat
  type Text = string

  // ---------------------------------------------------------------- records

  datatype State = WaitingActivation | VerifyNow | Verifying | Blocked | Accepted | Delivered | Deferred | Retired
  datatype Acceptance = NotRun | Pass | Fail | Doubtful
  datatype Adoption = NotRequired | Pending | Adopted | Rejected | Unsure

  datatype Transition =
    | Activated | Acknowledged | Block | ClearBlocker | AcceptancePass | AcceptanceFail | AcceptanceUnknown
    | AdoptionAdopted | FinalizeDelivery | Defer | Retire

  /** `uuid5` of the four fields that identify an obligation. */
  datatype ObligationId = ObligationOf(product: Id, outcome: Text, revision: Text, phase: Text)

  datatype Contract = Contract(
    product: Id, outcome: Text, revision: Text, phase: Text, owner: Id, acceptanceContract: Text,
    contractRevision: Text, verifier: Option<Id>, adoptionRequired: bool, adopter: Option<Id>, authority: Id)
  {
    function Key(): ObligationId { ObligationOf(product, outcome, revision, phase) }
  }

  datatype Currentness = Fresh | Stale | Unknowable

  datatype Runtime = Runtime(actor: Id, token: Text, currentness: Currentness)

  /** A digest over who acts, under which grant, in which runtime. */
  datatype ActorRef = ActorHash(principal: Text, grant: Id, version: nat, runtime: Runtime)

  datatype Observed = Missing | Revision(digest: Digest) | OtherText(text: Text)

  datatype Intent = Intent(
    operation: Id, obligation: ObligationId, observed: Observed, transition: Transition, evidence: seq<Text>,
    blocker: Option<Text>, clearing: Option<Text>)

  datatype IntentDigest = IntentHash(intent: Intent, actor: ActorRef)

  /** Zero, or the hash of a record whose own digest is blanked. */
  datatype Digest = Zero | Hash(of: Obligation)

  datatype Obligation = Obligation(
    binding: Contract, state: State, acceptance: Acceptance, adoption: Adoption, blocker: Option<Text>,
    blockerPhase: Option<State>, clearing: Option<Text>, acceptanceProof: seq<Text>, adoptionProof: seq<Text>,
    actor: ActorRef, token: Text, basis: Option<Id>, generation: int, predecessor: Option<Digest>, operation: Id,
    intent: IntentDigest, digest: Digest)

  datatype Basis = Basis(
    revision: Text, phase: Text, current: bool, product: Id, ok: bool, truly: bool, blockers: seq<Text>,
    reconciliation: Id)

  datatype ProofKind = AcceptanceProof | AdoptionProof | ClearingProof

  datatype Proof = Proof(
    kind: ProofKind, obligation: ObligationId, product: Id, revision: Text, phase: Text, acceptanceContract: Text,
    contractRevision: Text, currentness: Currentness, evidence: seq<Text>, clearing: Option<Text>)

  datatype Verdict = Applied | Replayed | Current | Outdated | Conflict | Denied | Absent | Undecided

  datatype Result = Result(verdict: Verdict, obligation: Option<Obligation>)

  const TERMINAL := {Delivered, Deferred, Retired}

  /** The model validator: what a record must satisfy to be read back. */
  predicate Coherent(o: Obligation) {
    && (o.state == Blocked <==> o.blocker.Some? && o.blockerPhase.Some? && o.clearing.Some?)
    && (o.state in {Accepted, Delivered} ==> o.acceptance == Pass)
    && (o.state == Delivered ==> o.adoption in {Adopted, NotRequired})
    && (o.generation == 1 <==> o.predecessor.None?)
    && o.generation >= 1
  }

  function Seal(o: Obligation): Obligation { o.(digest := Hash(o.(digest := Zero))) }

  predicate Sealed(o: Obligation) { Seal(o) == o }

  // ---------------------------------------------------------------- what a step needs

  predicate TechnicallyTrue(c: Contract, b: Option<Basis>) {
    b.Some? && b.value.revision == c.revision && b.value.phase == c.phase && b.value.current
    && b.value.product == c.product && b.value.ok && b.value.truly && b.value.blockers == []
  }

  predicate ProofMatches(c: Contract, intent: Intent, proof: Option<Proof>, kind: ProofKind) {
    proof.Some? && proof.value.kind == kind && proof.value.currentness == Fresh && proof.value.obligation == c.Key()
    && proof.value.product == c.product && proof.value.revision == c.revision && proof.value.phase == c.phase
    && proof.value.acceptanceContract == c.acceptanceContract && proof.value.contractRevision == c.contractRevision
    && proof.value.clearing == intent.clearing
  }

  predicate IsAcceptance(t: Transition) { t in {AcceptancePass, AcceptanceFail, AcceptanceUnknown} }

  function ResultOf(t: Transition): Acceptance
    requires IsAcceptance(t)
  {
    match t case AcceptancePass => Pass case AcceptanceFail => Fail case _ => Doubtful
  }

  predicate Authorized(c: Contract, actor: Id, t: Transition) {
    if t == Activated then actor == c.product
    else if t == Acknowledged then actor == c.owner
    else if IsAcceptance(t) then Some(actor) in {Some(c.owner), c.verifier}
    else if t == AdoptionAdopted then Some(actor) == c.adopter
    else if t in {Defer, Retire} then actor == c.authority
    else Some(actor) in {Some(c.owner), c.verifier, Some(c.product)}
  }

  // ---------------------------------------------------------------- transitions

  function Opening(c: Contract, intent: Intent, actor: ActorRef, token: Text, technical: Option<Basis>): Result {
    if intent.transition != Activated || intent.observed != Missing then Result(Absent, None)
    else if !TechnicallyTrue(c, technical) then Result(Denied, None)
    else
      Result(Applied, Some(Seal(Obligation(
        c, VerifyNow, NotRun, if c.adoptionRequired then Pending else NotRequired, None, None, None, [], [], actor,
        token, Some(technical.value.reconciliation), 1, None, intent.operation, IntentHash(intent, actor), Zero))))
  }

  /** The record `intent` makes of `o` before it is stamped and sealed, or the reason it does not apply. */
  function Changed(
    c: Contract, o: Obligation, intent: Intent, technical: Option<Basis>, proof: Option<Proof>): Option<Obligation>
  {
    var t := intent.transition;
    if o.state == Blocked && t !in {ClearBlocker, Defer, Retire} then None
    else if t == Activated && o.state == WaitingActivation then
      if !TechnicallyTrue(c, technical) then None
      else Some(o.(state := VerifyNow, basis := Some(technical.value.reconciliation)))
    else if t == Acknowledged && o.state == VerifyNow then Some(o.(state := Verifying))
    else if t == Block && intent.blocker.Some? && intent.clearing.Some? then
      Some(o.(state := Blocked, blocker := intent.blocker, blockerPhase := Some(o.state), clearing := intent.clearing))
    else if t == ClearBlocker && o.state == Blocked then
      if intent.clearing != o.clearing || !ProofMatches(c, intent, proof, ClearingProof) || o.blockerPhase.None?
      then None
      else Some(o.(state := o.blockerPhase.value, blocker := None, blockerPhase := None, clearing := None))
    else if IsAcceptance(t) && o.state in {VerifyNow, Verifying, Accepted} then
      if !ProofMatches(c, intent, proof, AcceptanceProof) then None
      else Some(o.(acceptance := ResultOf(t), acceptanceProof := proof.value.evidence,
                   state := if ResultOf(t) == Pass then Accepted else Verifying))
    else if t == AdoptionAdopted && ProofMatches(c, intent, proof, AdoptionProof) then
      Some(o.(adoption := Adopted, adoptionProof := proof.value.evidence))
    else if t == FinalizeDelivery && o.state == Accepted then Some(o)
    else if t in {Defer, Retire} then
      Some(o.(state := if t == Defer then Deferred else Retired,
              blocker := None, blockerPhase := None, clearing := None))
    else None
  }

  /** Once accepted and adopted, a true technical basis promotes whatever was asked for to delivery. */
  function Promoted(c: Contract, o: Obligation, technical: Option<Basis>): Obligation {
    if o.acceptance == Pass && o.adoption in {Adopted, NotRequired} then
      if TechnicallyTrue(c, technical) then o.(state := Delivered, basis := Some(technical.value.reconciliation))
      else if o.state == Delivered then o.(state := Accepted)
      else o
    else o
  }

  function Advance(
    c: Contract, o: Obligation, intent: Intent, actor: ActorRef, token: Text, technical: Option<Basis>,
    proof: Option<Proof>): Result
  {
    if o.operation == intent.operation then
      Result(if o.intent == IntentHash(intent, actor) then Replayed else Conflict, Some(o))
    else if Revision(o.digest) != intent.observed then Result(Outdated, Some(o))
    else if o.state in TERMINAL then Result(Denied, Some(o))
    else
      var changed := Changed(c, o, intent, technical, proof);
      if changed.None? then Result(Denied, Some(o))
      else
        var stamped := changed.value.(
          actor := actor, token := token, generation := o.generation + 1, predecessor := Some(o.digest),
          operation := intent.operation, intent := IntentHash(intent, actor), digest := Zero);
        Result(Applied, Some(Seal(Promoted(c, stamped, technical))))
  }

  // ---------------------------------------------------------------- the invariant

  /** The phase a record is in, seen through a blocker. */
  function Phase(o: Obligation): State {
    if o.state == Blocked && o.blockerPhase.Some? then o.blockerPhase.value else o.state
  }

  /** What every record keeps, except one that delivery overtook. */
  predicate Guarded(o: Obligation) {
    && Coherent(o) && Sealed(o)
    && Phase(o) in {VerifyNow, Verifying, Accepted, Delivered, Deferred, Retired}
    && (o.state == Blocked ==> Phase(o) !in TERMINAL)
    && (Phase(o) == Accepted ==> o.acceptance == Pass)
    && (o.acceptance == Pass ==> Phase(o) == Accepted || o.state in TERMINAL)
    && o.adoption in {NotRequired, Pending, Adopted}
    && (o.blocker.Some? <==> o.state == Blocked) && (o.blockerPhase.Some? <==> o.state == Blocked)
    && (o.clearing.Some? <==> o.state == Blocked)
  }

  /** Delivery promotion overtaking a BLOCK: the record is delivered and still carries a blocker. */
  predicate Overtakes(c: Contract, o: Obligation, intent: Intent, technical: Option<Basis>) {
    intent.transition == Block && o.state == Accepted && o.adoption in {Adopted, NotRequired}
    && TechnicallyTrue(c, technical)
  }

  lemma OpeningIsGuarded(c: Contract, intent: Intent, actor: ActorRef, token: Text, technical: Option<Basis>)
    ensures var r := Opening(c, intent, actor, token, technical);
      && (r.verdict == Applied <==> r.obligation.Some?)
      && (r.verdict == Applied ==> Guarded(r.obligation.value) && r.obligation.value.generation == 1)
  {}

  lemma ChangedFacts(c: Contract, o: Obligation, intent: Intent, technical: Option<Basis>, proof: Option<Proof>)
    requires Guarded(o) && o.state !in TERMINAL
    ensures var n := Changed(c, o, intent, technical, proof); n.Some? ==>
      && Phase(n.value) in {VerifyNow, Verifying, Accepted, Deferred, Retired}
      && n.value.state in {VerifyNow, Verifying, Accepted, Deferred, Retired, Blocked}
      && (n.value.state == Blocked ==> Phase(n.value) !in TERMINAL)
      && (Phase(n.value) == Accepted ==> n.value.acceptance == Pass)
      && (n.value.acceptance == Pass ==> Phase(n.value) == Accepted || n.value.state in TERMINAL)
      && n.value.adoption in {NotRequired, Pending, Adopted}
      && (n.value.blocker.Some? <==> n.value.state == Blocked)
      && (n.value.blockerPhase.Some? <==> n.value.state == Blocked)
      && (n.value.clearing.Some? <==> n.value.state == Blocked)
      && n.value.binding == o.binding
      && (n.value.state == Blocked <==> intent.transition == Block)
      && (n.value.state == Blocked ==> Phase(n.value) == o.state && n.value.adoption == o.adoption)
  {
    hide TechnicallyTrue, ProofMatches, Sealed;
  }

  /** The exception is exact: an applied step is incoherent exactly when delivery overtook its BLOCK. */
  lemma AdvanceKeepsGuarded(
    c: Contract, o: Obligation, intent: Intent, actor: ActorRef, token: Text, technical: Option<Basis>,
    proof: Option<Proof>)
    requires Guarded(o) && Advance(c, o, intent, actor, token, technical, proof).verdict == Applied
    ensures var r := Advance(c, o, intent, actor, token, technical, proof);
      && r.obligation.Some?
      && (Coherent(r.obligation.value) <==> !Overtakes(c, o, intent, technical))
      && (Coherent(r.obligation.value) ==> Guarded(r.obligation.value))
      && Sealed(r.obligation.value)
  {
    hide TechnicallyTrue, ProofMatches, Changed;
    ChangedFacts(c, o, intent, technical, proof);
  }

  /** What a step that applied links and stamps; any other answer hands back the record unchanged. */
  lemma AdvanceLinks(
    c: Contract, o: Obligation, intent: Intent, actor: ActorRef, token: Text, technical: Option<Basis>,
    proof: Option<Proof>)
    ensures var r := Advance(c, o, intent, actor, token, technical, proof);
      && r.obligation.Some?
      && (r.verdict != Applied ==> r.obligation.value == o)
      && (r.verdict == Applied ==>
            && o.state !in TERMINAL && intent.observed == Revision(o.digest) && intent.operation != o.operation
            && r.obligation.value.generation == o.generation + 1
            && r.obligation.value.predecessor == Some(o.digest)
            && r.obligation.value.operation == intent.operation
            && r.obligation.value.intent == IntentHash(intent, actor)
            && r.obligation.value.binding == o.binding)
  {
    hide TechnicallyTrue, ProofMatches;
  }

  lemma ChangedByLifecycle(c: Contract, o: Obligation, intent: Intent, technical: Option<Basis>, proof: Option<Proof>)
    requires intent.transition in {Defer, Retire}
    ensures Changed(c, o, intent, technical, proof)
            == Some(o.(state := if intent.transition == Defer then Deferred else Retired,
                       blocker := None, blockerPhase := None, clearing := None))
  {
    hide TechnicallyTrue, ProofMatches;
  }

  /** A lifecycle step does not always end where it says: a DEFER or RETIRE can deliver instead. */
  lemma LifecycleDelivers(
    c: Contract, o: Obligation, intent: Intent, actor: ActorRef, token: Text, technical: Option<Basis>,
    proof: Option<Proof>)
    requires Guarded(o) && intent.transition in {Defer, Retire}
    requires Advance(c, o, intent, actor, token, technical, proof).verdict == Applied
    ensures var n := Advance(c, o, intent, actor, token, technical, proof).obligation.value;
      n.state == Delivered
      <==> Phase(o) == Accepted && o.adoption in {Adopted, NotRequired} && TechnicallyTrue(c, technical)
  {
    hide TechnicallyTrue, ProofMatches;
    ChangedByLifecycle(c, o, intent, technical, proof);
    hide Changed, Coherent, Sealed;
  }

  /** Equal digests, equal records: sealing never identifies two different revisions. */
  lemma SealIsInjective(o: Obligation, p: Obligation)
    requires Sealed(o) && Sealed(p) && o.digest == p.digest
    ensures o == p
  {
    assert o.(digest := Zero) == p.(digest := Zero);
    assert o == o.(digest := Zero).(digest := o.digest);
  }
}
