/**
 Activation continuity, exactly: which proofs, bases and actors count, which transition applies when
 and what it makes of a record, which answer a call gets, and what every step in a chain rests on.
 */
module ContinuityExact {
  import opened Prelude
  import opened Continuity
  import opened ContinuityStore
  import opened ContinuityRuns
  import opened ContinuityTruth
  import opened ContinuityProvenance

  // ---------------------------------------------------------------- what counts

  /** A current proof of this kind, made for exactly this contract and, if any, this clearing event. */
  predicate Bears(c: Contract, proof: Option<Proof>, kind: ProofKind, event: Option<Text>) {
    proof.Some? &&
    proof.value == Proof(kind, ObligationOf(c.product, c.outcome, c.revision, c.phase), c.product, c.revision, c.phase,
                         c.acceptanceContract, c.contractRevision, Fresh, proof.value.evidence, event)
  }

  /** A current, unblocked reconciliation of exactly this product at this revision and phase. */
  predicate Founded(c: Contract, b: Option<Basis>) {
    b.Some? && b.value == Basis(c.revision, c.phase, true, c.product, true, true, [], b.value.reconciliation)
  }

  /** Who may ask for a transition. */
  function Entitled(c: Contract, t: Transition): set<Option<Id>> {
    match t
    case Activated => {Some(c.product)}
    case Acknowledged => {Some(c.owner)}
    case AcceptancePass => {Some(c.owner), c.verifier}
    case AcceptanceFail => {Some(c.owner), c.verifier}
    case AcceptanceUnknown => {Some(c.owner), c.verifier}
    case AdoptionAdopted => {c.adopter}
    case Defer => {Some(c.authority)}
    case Retire => {Some(c.authority)}
    case Block => {Some(c.owner), c.verifier, Some(c.product)}
    case ClearBlocker => {Some(c.owner), c.verifier, Some(c.product)}
    case FinalizeDelivery => {Some(c.owner), c.verifier, Some(c.product)}
  }

  lemma CountsExactly(c: Contract, intent: Intent, proof: Option<Proof>, kind: ProofKind, b: Option<Basis>, actor: Id)
    ensures ProofMatches(c, intent, proof, kind) <==> Bears(c, proof, kind, intent.clearing)
    ensures TechnicallyTrue(c, b) <==> Founded(c, b)
    ensures Authorized(c, actor, intent.transition) <==> Some(actor) in Entitled(c, intent.transition)
  {}

  /** A record is coherent if and only if its state carries what it should, and no more. */
  lemma CoherentExactly(o: Obligation)
    ensures var blocked := o.blocker.Some? && o.blockerPhase.Some? && o.clearing.Some?;
      var numbered := if o.generation == 1 then o.predecessor == None else o.generation > 1 && o.predecessor != None;
      Coherent(o) <==>
        numbered &&
        match o.state
        case Blocked => blocked
        case Accepted => !blocked && o.acceptance == Pass
        case Delivered => !blocked && o.acceptance == Pass && o.adoption in {Adopted, NotRequired}
        case _ => !blocked
  {}

  // ---------------------------------------------------------------- opening

  /** An obligation opens if and only if it is activated as missing, on a founded basis; and then so. */
  lemma OpensExactly(c: Contract, intent: Intent, actor: ActorRef, token: Text, technical: Option<Basis>)
    ensures var r := Opening(c, intent, actor, token, technical);
      && (r.verdict == Applied <==>
            intent.transition == Activated && intent.observed == Missing && Founded(c, technical))
      && (r.verdict == Denied <==>
            intent.transition == Activated && intent.observed == Missing && !Founded(c, technical))
      && r.verdict in {Applied, Denied, Absent}
      && (r.verdict == Applied ==>
            r.obligation == Some(Seal(Obligation(
              c, VerifyNow, NotRun, if c.adoptionRequired then Pending else NotRequired, None, None, None, [], [],
              actor, token, Some(technical.value.reconciliation), 1, None, intent.operation,
              IntentHash(intent, actor), Zero))))
  {
    CountsExactly(c, intent, None, AcceptanceProof, technical, 0);
    hide TechnicallyTrue, Founded;
  }

  // ---------------------------------------------------------------- advancing

  predicate Accepting(t: Transition) { t == AcceptancePass || t == AcceptanceFail || t == AcceptanceUnknown }

  /** What a transition asks of a record that is neither terminal nor stale. */
  predicate Applies(c: Contract, o: Obligation, intent: Intent, proof: Option<Proof>) {
    match intent.transition
    case Activated => false
    case Acknowledged => o.state == VerifyNow
    case Block => o.state != Blocked && intent.blocker.Some? && intent.clearing.Some?
    case ClearBlocker =>
      o.state == Blocked && intent.clearing == o.clearing && Bears(c, proof, ClearingProof, o.clearing)
    case AdoptionAdopted => o.state != Blocked && Bears(c, proof, AdoptionProof, intent.clearing)
    case FinalizeDelivery => o.state == Accepted
    case Defer => true
    case Retire => true
    case _ => o.state in {VerifyNow, Verifying, Accepted} && Bears(c, proof, AcceptanceProof, intent.clearing)
  }

  /** The state it leads to, unless delivery overtakes it. */
  function StateAfter(o: Obligation, t: Transition): State {
    match t
    case Acknowledged => Verifying
    case Block => Blocked
    case ClearBlocker => if o.blockerPhase.Some? then o.blockerPhase.value else o.state
    case AcceptancePass => Accepted
    case AcceptanceFail => Verifying
    case AcceptanceUnknown => Verifying
    case Defer => Deferred
    case Retire => Retired
    case _ => o.state
  }

  function AcceptanceAfter(o: Obligation, t: Transition): Acceptance {
    match t
    case AcceptancePass => Pass
    case AcceptanceFail => Fail
    case AcceptanceUnknown => Doubtful
    case _ => o.acceptance
  }

  /** Accepted and adopted on a founded basis: delivered, whatever was asked for. */
  predicate Delivers(c: Contract, o: Obligation, intent: Intent, technical: Option<Basis>) {
    && AcceptanceAfter(o, intent.transition) == Pass
    && (intent.transition == AdoptionAdopted || o.adoption in {Adopted, NotRequired})
    && Founded(c, technical)
  }

  /** The whole record a step leaves. */
  function Expected(
    c: Contract, o: Obligation, intent: Intent, actor: ActorRef, token: Text, technical: Option<Basis>,
    proof: Option<Proof>): Obligation
  {
    var t, delivers := intent.transition, Delivers(c, o, intent, technical);
    var evidence := if proof.Some? then proof.value.evidence else [];
    var frees := t in {ClearBlocker, Defer, Retire};
    Seal(Obligation(
      o.binding,
      if delivers then Delivered else StateAfter(o, t),
      AcceptanceAfter(o, t),
      if t == AdoptionAdopted then Adopted else o.adoption,
      if t == Block then intent.blocker else if frees then None else o.blocker,
      if t == Block then Some(o.state) else if frees then None else o.blockerPhase,
      if t == Block then intent.clearing else if frees then None else o.clearing,
      if Accepting(t) then evidence else o.acceptanceProof,
      if t == AdoptionAdopted then evidence else o.adoptionProof,
      actor, token,
      if delivers then Some(technical.value.reconciliation) else o.basis,
      o.generation + 1, Some(o.digest), intent.operation, IntentHash(intent, actor), Zero))
  }

  lemma ChangedExactly(c: Contract, o: Obligation, intent: Intent, technical: Option<Basis>, proof: Option<Proof>)
    requires Guarded(o) && o.state !in TERMINAL
    ensures var n, t := Changed(c, o, intent, technical, proof), intent.transition;
      var frees := t in {ClearBlocker, Defer, Retire};
      && (n.Some? <==> Applies(c, o, intent, proof))
      && (n.Some? ==>
            n.value == o.(
              state := StateAfter(o, t), acceptance := AcceptanceAfter(o, t),
              adoption := if t == AdoptionAdopted then Adopted else o.adoption,
              blocker := if t == Block then intent.blocker else if frees then None else o.blocker,
              blockerPhase := if t == Block then Some(o.state) else if frees then None else o.blockerPhase,
              clearing := if t == Block then intent.clearing else if frees then None else o.clearing,
              acceptanceProof := if Accepting(t) then proof.value.evidence else o.acceptanceProof,
              adoptionProof := if t == AdoptionAdopted then proof.value.evidence else o.adoptionProof))
  {
    CountsExactly(c, intent, proof, ClearingProof, technical, 0);
    CountsExactly(c, intent, proof, AcceptanceProof, technical, 0);
    CountsExactly(c, intent, proof, AdoptionProof, technical, 0);
    hide TechnicallyTrue, ProofMatches, Sealed;
  }

  /**
   A call on a record gets the replay answer for its own operation, the stale answer off the head, and
   otherwise applies if and only if the record is not terminal and its transition asks no more than is
   there; and then the whole record is as expected.
   */
  lemma AdvancesExactly(
    c: Contract, o: Obligation, intent: Intent, actor: ActorRef, token: Text, technical: Option<Basis>,
    proof: Option<Proof>)
    requires Guarded(o)
    ensures var r := Advance(c, o, intent, actor, token, technical, proof);
      && r.verdict ==
         (if intent.operation == o.operation then (if o.intent == IntentHash(intent, actor) then Replayed else Conflict)
          else if intent.observed != Revision(o.digest) then Outdated
          else if o.state in {Delivered, Deferred, Retired} || !Applies(c, o, intent, proof) then Denied
          else Applied)
      && r.obligation == Some(
              if r.verdict == Applied then Expected(c, o, intent, actor, token, technical, proof) else o)
  {
    hide Changed, Guarded, Applies, Bears, Promoted, Expected, Seal;
    if o.state !in TERMINAL {
      AppliedExactly(c, o, intent, technical, proof);
      if Applies(c, o, intent, proof) { ExpectedRecord(c, o, intent, actor, token, technical, proof); }
    }
  }

  lemma AppliedExactly(c: Contract, o: Obligation, intent: Intent, technical: Option<Basis>, proof: Option<Proof>)
    requires Guarded(o) && o.state !in TERMINAL
    ensures Changed(c, o, intent, technical, proof).Some? <==> Applies(c, o, intent, proof)
  {
    ChangedExactly(c, o, intent, technical, proof);
    hide *;
  }

  lemma ExpectedRecord(
    c: Contract, o: Obligation, intent: Intent, actor: ActorRef, token: Text, technical: Option<Basis>,
    proof: Option<Proof>)
    requires Guarded(o) && o.state !in TERMINAL && Applies(c, o, intent, proof)
    requires Changed(c, o, intent, technical, proof).Some?
    ensures Seal(Promoted(c, Changed(c, o, intent, technical, proof).value.(
                   actor := actor, token := token, generation := o.generation + 1, predecessor := Some(o.digest),
                   operation := intent.operation, intent := IntentHash(intent, actor), digest := Zero), technical))
            == Expected(c, o, intent, actor, token, technical, proof)
  {
    ChangedExactly(c, o, intent, technical, proof);
    EvidenceGiven(c, o, intent, proof);
    NotDelivered(o, intent.transition);
    var stamped := Changed(c, o, intent, technical, proof).value.(
      actor := actor, token := token, generation := o.generation + 1, predecessor := Some(o.digest),
      operation := intent.operation, intent := IntentHash(intent, actor), digest := Zero);
    PromotedExactly(c, stamped, technical);
    hide Changed, Promoted, Founded, Guarded, Coherent, Applies, Bears, Seal, StateAfter;
  }

  lemma PromotedExactly(c: Contract, o: Obligation, technical: Option<Basis>)
    requires o.state != Delivered
    ensures Promoted(c, o, technical) ==
      if o.acceptance == Pass && o.adoption in {Adopted, NotRequired} && Founded(c, technical)
      then o.(state := Delivered, basis := Some(technical.value.reconciliation)) else o
  {}

  lemma NotDelivered(o: Obligation, t: Transition)
    requires Guarded(o) && o.state !in TERMINAL
    ensures StateAfter(o, t) != Delivered
  {}

  lemma EvidenceGiven(c: Contract, o: Obligation, intent: Intent, proof: Option<Proof>)
    requires Applies(c, o, intent, proof)
    ensures Accepting(intent.transition) || intent.transition == AdoptionAdopted ==> proof.Some?
  {}

  /** A record waiting for its activation, which only a table from elsewhere can hold, is activated on a basis. */
  lemma WaitingExactly(
    c: Contract, o: Obligation, intent: Intent, actor: ActorRef, token: Text, technical: Option<Basis>,
    proof: Option<Proof>)
    requires o.state == WaitingActivation && intent.transition == Activated
    requires intent.operation != o.operation && intent.observed == Revision(o.digest)
    ensures var r := Advance(c, o, intent, actor, token, technical, proof);
      && (r.verdict == Applied <==> Founded(c, technical)) && (r.verdict == Denied <==> !Founded(c, technical))
      && (r.verdict == Applied ==>
            && r.obligation.value.basis == Some(technical.value.reconciliation)
            && r.obligation.value.state
               == if o.acceptance == Pass && o.adoption in {Adopted, NotRequired} then Delivered else VerifyNow)
  {}

  // ---------------------------------------------------------------- calls on the table

  /** A call is admitted on an installed contract, under its own current grant and runtime, by an entitled actor. */
  predicate Admitted(call: Call) {
    && call.contract != None && call.grant.principal == call.principal && call.grant.current
    && call.runtime.currentness == Fresh && call.runtime.actor == call.grant.activeWork
    && Some(call.runtime.actor) in Entitled(call.contract.value, call.intent.transition)
  }

  lemma AdmitsExactly(call: Call)
    ensures Refused(call) == None <==> Admitted(call)
    ensures Refused(call) == Some(Outdated) <==>
      call.contract != None && !(call.grant.principal == call.principal && call.grant.current
                                 && call.runtime.currentness == Fresh && call.runtime.actor == call.grant.activeWork)
    ensures Refused(call) in {None, Some(Outdated), Some(Denied)}
  {
    if call.contract.Some? {
      CountsExactly(call.contract.value, call.intent, None, AcceptanceProof, None, call.runtime.actor);
    }
    hide Authorized, Entitled;
  }

  /** What a call decides, from what a read of its obligation shows. */
  lemma DecidesExactly(table: Table, call: Call)
    ensures var d, seen := Decide(table, call), Get(table, call.intent.obligation);
      if !Admitted(call) then d == Result(if Refused(call) == Some(Outdated) then Outdated else Denied, None)
      else if seen.verdict == Undecided then d == Result(Undecided, None)
      else if seen.verdict == Absent then
        d == Opening(call.contract.value, call.intent, call.Actor(), call.runtime.token, call.technical)
      else
        && seen.verdict == Current && seen.obligation.Some?
        && d == if seen.obligation.value.binding != call.contract.value then Result(Conflict, None)
                else Advance(call.contract.value, seen.obligation.value, call.intent, call.Actor(), call.runtime.token,
                             call.technical, call.proof)
  {
    AdmitsExactly(call);
    hide Refused, Admitted, Opening, Advance, Select, Readable;
  }

  /** After an error the answer is about whatever head a fresh read shows, and about this very intent only. */
  lemma AfterErrorExactly(table: Table, call: Call)
    ensures var r, seen := AfterError(table, call), Get(table, call.intent.obligation).obligation;
      && (r.verdict == Undecided <==> seen == None)
      && (seen.Some? ==> r.obligation == seen)
      && (r.verdict == Outdated <==> seen.Some? && seen.value.operation != call.intent.operation)
      && (r.verdict == Replayed <==>
            seen.Some? && seen.value.operation == call.intent.operation
            && seen.value.intent == IntentHash(
                 call.intent, ActorHash(call.principal, call.grant.id, call.grant.version, call.runtime)))
      && (r.verdict == Conflict <==>
            seen.Some? && seen.value.operation == call.intent.operation
            && seen.value.intent != IntentHash(
                 call.intent, ActorHash(call.principal, call.grant.id, call.grant.version, call.runtime)))
  {
    hide Get;
  }

  /** An insert lands unless the operation is stored already, or the obligation has that generation. */
  lemma WritesExactly(table: Table, r: Row, landed: bool)
    ensures Written(table, r, landed) ==
      if landed && r.operation !in (set q <- table :: q.operation)
         && (r.obligation, r.generation) !in (set q <- table :: (q.obligation, q.generation))
      then table + [r] else table
  {}

  /** APPLIED is told for exactly the inserts that landed and were heard; any other is read afresh. */
  lemma FinishesExactly(table: Table, call: Call, value: Obligation, landed: bool, heard: bool)
    ensures var row := Row(call.intent.obligation, value.operation, value.generation, Some(value));
      var after := Written(table, row, landed);
      Answered(table, call, value, landed, heard)
      == if after != table && heard then Result(Applied, Some(value)) else AfterError(after, call)
  {
    hide AfterError;
    assert table + [NewRow(call, value)] != table;
  }

  /** The steps of a history are the writes of the table, and what they log as applied is what is told so. */
  lemma EndsWrite(s: Server, ticket: nat, landed: bool, heard: bool)
    requires ticket in s.flights
    ensures var f, after := s.flights[ticket], After(s, End(ticket, landed, heard));
      var row := NewRow(f.call, f.value);
      && after.table == Written(s.table, row, landed) && after.flights == s.flights - {ticket}
      && after.applied == s.applied + (if Answered(s.table, f.call, f.value, landed, heard).verdict == Applied
                                       then {row} else {})
  {
    AfterErrorExactly(Written(s.table, NewRow(s.flights[ticket].call, s.flights[ticket].value), landed),
                      s.flights[ticket].call);
    hide AfterError;
  }

  /** Rows are read in the order of their generations, each once. */
  lemma {:induction false} OrderedExactly(rows: seq<Row>)
    ensures var out := Ordered(rows);
      && multiset(out) == multiset(rows)
      && forall i, j :: 0 <= i < j < |out| ==> out[i].generation <= out[j].generation
  {
    if rows != [] {
      var last := |rows| - 1;
      assert rows == rows[..last] + [rows[last]];
      OrderedExactly(rows[..last]);
      InsertKeeps(Ordered(rows[..last]), rows[last]);
      InsertOrders(Ordered(rows[..last]), rows[last]);
    }
  }

  lemma {:induction false} InsertKeeps(rows: seq<Row>, r: Row)
    ensures multiset(Insert(rows, r)) == multiset(rows) + multiset{r}
  {
    var last := |rows| - 1;
    if rows != [] {
      assert rows == rows[..last] + [rows[last]];
      InsertKeeps(rows[..last], r);
    }
  }

  lemma {:induction false} InsertOrders(rows: seq<Row>, r: Row)
    requires forall i, j :: 0 <= i < j < |rows| ==> rows[i].generation <= rows[j].generation
    ensures forall i, j :: 0 <= i < j < |rows| + 1 ==> Insert(rows, r)[i].generation <= Insert(rows, r)[j].generation
  {
    var last := |rows| - 1;
    if rows != [] && rows[last].generation > r.generation {
      InsertOrders(rows[..last], r);
      InsertKeeps(rows[..last], r);
      var less := Insert(rows[..last], r);
      forall i | 0 <= i < |less| ensures less[i].generation <= rows[last].generation {
        assert less[i] in multiset(less);
        assert less[i] in rows[..last] || less[i] == r;
      }
      hide Insert;
      assert Insert(rows, r) == less + [rows[last]] by { InsertStep(rows, r); }
    }
  }

  lemma InsertStep(rows: seq<Row>, r: Row)
    requires rows != [] && rows[|rows| - 1].generation > r.generation
    ensures Insert(rows, r) == Insert(rows[..|rows| - 1], r) + [rows[|rows| - 1]]
  {}

  /** In a readable chain no row but the last can be exchanged: not its record, nor the operation it is under. */
  lemma ChainsAreTamperEvident(rows: seq<Row>, i: nat, r: Row)
    requires Readable(rows) && i < |rows| - 1 && Readable(rows[i := r])
    ensures r.record == rows[i].record && r.operation == rows[i].operation
  {
    var other := rows[i := r];
    assert Fits(rows, i) && Fits(other, i) && Fits(rows, i + 1) && Fits(other, i + 1);
    assert other[i + 1] == rows[i + 1];
    SealIsInjective(rows[i].record.value, r.record.value);
    hide Coherent;
  }

  // ---------------------------------------------------------------- what every step rests on

  /** What the record before a step, the call and the record after it owe each other. */
  predicate Rests(call: Call, before: Obligation, after: Obligation) {
    && Admitted(call) && call.contract == Some(before.binding)
    && Applies(before.binding, before, call.intent, call.proof)
    && after == Expected(before.binding, before, call.intent, call.Actor(), call.runtime.token,
                         call.technical, call.proof)
    && call.intent.observed == Revision(before.digest)
  }

  /** In every reachable table, each later row rests on the one before it, and the first on an activation. */
  lemma EveryStepRests(events: seq<Event>, id: ObligationId, i: nat)
    requires i < |Rows(History(EMPTY, events).table, id)|
    ensures var s := History(EMPTY, events);
      var rows, calls := Rows(s.table, id), Log(s, id);
      && |calls| == |rows| && rows[i].record.Some? && Admitted(calls[i])
      && (if i == 0 then calls[0].intent.transition == Activated && Founded(calls[0].contract.value, calls[0].technical)
          else rows[i - 1].record.Some? && Rests(calls[i], rows[i - 1].record.value, rows[i].record.value))
  {
    EmptyInv();
    HistoryKeeps(EMPTY, events);
    var s := History(EMPTY, events);
    InvTells(s, id);
    ToldRests(id, Log(s, id), Rows(s.table, id), i);
    hide History, Rests, Admitted, Founded, Told, Rows;
  }

  lemma ToldRests(id: ObligationId, calls: seq<Call>, rows: seq<Row>, i: nat)
    requires Told(id, calls, rows) && i < |rows|
    ensures rows[i].record.Some? && Admitted(calls[i])
    ensures
      if i == 0 then calls[0].intent.transition == Activated && Founded(calls[0].contract.value, calls[0].technical)
            else rows[i - 1].record.Some? && Rests(calls[i], rows[i - 1].record.value, rows[i].record.value)
  {
    ToldFollows(id, calls, rows, i);
    AdmitsExactly(calls[i]);
    var call := calls[i];
    if i == 0 {
      OpensExactly(call.contract.value, call.intent, call.Actor(), call.runtime.token, call.technical);
      hide Opening, Refused, Admitted, Founded, Told;
    } else {
      ToldFollows(id, calls, rows, i - 1);
      ToldGuarded(id, calls, rows, i - 1);
      var before := rows[i - 1].record.value;
      AdvancesExactly(before.binding, before, call.intent, call.Actor(), call.runtime.token, call.technical,
                      call.proof);
      hide Advance, Refused, Admitted, Applies, Expected, Told, Guarded, Coherent;
    }
  }

  /**
   Every unblocking in a reachable chain has its proof: the record before was blocked, the call carries a
   current proof of the stored clearing event for exactly this contract, and the record returns to the
   phase that was blocked, or is delivered.
   */
  lemma UnblockingHasProof(events: seq<Event>, id: ObligationId, i: nat)
    requires i < |Log(History(EMPTY, events), id)|
    requires Log(History(EMPTY, events), id)[i].intent.transition == ClearBlocker
    ensures var s := History(EMPTY, events);
      var rows, call := Rows(s.table, id), Log(s, id)[i];
      && 0 < i < |rows| && rows[i - 1].record.Some? && rows[i].record.Some?
      && var before, after := rows[i - 1].record.value, rows[i].record.value;
         && before.state == Blocked && before.blockerPhase.Some? && before.clearing.Some?
         && call.proof.Some?
         && call.proof == Some(Proof(
              ClearingProof,
              ObligationOf(
                before.binding.product, before.binding.outcome, before.binding.revision, before.binding.phase),
              before.binding.product, before.binding.revision, before.binding.phase, before.binding.acceptanceContract,
              before.binding.contractRevision, Fresh, call.proof.value.evidence, before.clearing))
         && call.intent.clearing == before.clearing
         && after.state in {before.blockerPhase.value, Delivered}
         && after.blocker == None && after.blockerPhase == None && after.clearing == None
  {
    LogsMatch(events, id);
    EveryStepRests(events, id, i);
    var s := History(EMPTY, events);
    if i > 0 {
      BlockedIsWhole(events, id, i - 1);
    }
    hide History, Rows, Admitted, Founded;
  }

  lemma BlockedIsWhole(events: seq<Event>, id: ObligationId, i: nat)
    requires var s := History(EMPTY, events); i + 1 < |Rows(s.table, id)|
    ensures var rows := Rows(History(EMPTY, events).table, id);
      rows[i].record.Some? && (rows[i].record.value.state == Blocked ==>
                                 rows[i].record.value.blockerPhase.Some? && rows[i].record.value.clearing.Some?)
  {
    EmptyInv();
    HistoryKeeps(EMPTY, events);
    var s := History(EMPTY, events);
    InvTells(s, id);
    ToldGuarded(id, Log(s, id), Rows(s.table, id), i);
    hide History, Told, Rows;
  }

  lemma LogsMatch(events: seq<Event>, id: ObligationId)
    ensures var s := History(EMPTY, events); |Log(s, id)| == |Rows(s.table, id)|
  {
    EmptyInv();
    HistoryKeeps(EMPTY, events);
    InvTells(History(EMPTY, events), id);
    hide History, Rows, ToldAt;
  }

  /** Every DELIVERED head, in fields: what its acceptance, its adoption and its last step were borne out by. */
  lemma DeliveryIsBorneOut(events: seq<Event>, id: ObligationId)
    requires var rows := Rows(History(EMPTY, events).table, id);
      rows != [] && rows[|rows| - 1].record.Some? && rows[|rows| - 1].record.value.state == Delivered
    ensures var s := History(EMPTY, events);
      var rows, calls := Rows(s.table, id), Log(s, id);
      var c := rows[|rows| - 1].record.value.binding;
      var k := LastAcceptance(calls, |calls|);
      && |calls| == |rows| && k.Some? && calls[k.value].intent.transition == AcceptancePass
      && Bears(c, calls[k.value].proof, AcceptanceProof, calls[k.value].intent.clearing)
      && (!c.adoptionRequired || exists j :: 0 <= j < |calls| && calls[j].intent.transition == AdoptionAdopted
                                            && Bears(c, calls[j].proof, AdoptionProof, calls[j].intent.clearing))
      && Founded(c, calls[|calls| - 1].technical)
      && forall i :: 0 <= i < |calls| ==>
           calls[i].contract == Some(c) && Some(calls[i].runtime.actor) in Entitled(c, calls[i].intent.transition)
  {
    DeliveryHasProvenance(events, id);
    var s := History(EMPTY, events);
    var rows, calls := Rows(s.table, id), Log(s, id);
    var c := rows[|rows| - 1].record.value.binding;
    hide History, Rows, Bears, Founded, Entitled, ProofMatches, TechnicallyTrue, Authorized, LastAcceptance;
    forall i | 0 <= i < |calls|
      ensures Some(calls[i].runtime.actor) in Entitled(c, calls[i].intent.transition)
      ensures ProofMatches(c, calls[i].intent, calls[i].proof, AcceptanceProof)
              <==> Bears(c, calls[i].proof, AcceptanceProof, calls[i].intent.clearing)
      ensures ProofMatches(c, calls[i].intent, calls[i].proof, AdoptionProof)
              <==> Bears(c, calls[i].proof, AdoptionProof, calls[i].intent.clearing)
      ensures TechnicallyTrue(c, calls[i].technical) <==> Founded(c, calls[i].technical)
    {
      CountsExactly(c, calls[i].intent, calls[i].proof, AcceptanceProof, calls[i].technical, calls[i].runtime.actor);
      CountsExactly(c, calls[i].intent, calls[i].proof, AdoptionProof, calls[i].technical, calls[i].runtime.actor);
    }
  }
}
