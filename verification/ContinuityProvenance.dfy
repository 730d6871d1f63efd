/**
 Why an obligation is DELIVERED: every such head has its acceptance, adoption and technical proof in
 its own chain.
 */
module ContinuityProvenance {
  import opened Prelude
  import opened Continuity
  import opened ContinuityStore
  import opened ContinuityRuns
  import opened ContinuityTruth

  /** The last acceptance transition among the first `n` calls. */
  function LastAcceptance(calls: seq<Call>, n: nat): (k: Option<nat>)
    requires n <= |calls|
    ensures k.Some? ==> k.value < n && IsAcceptance(calls[k.value].intent.transition)
    ensures forall j :: (if k.Some? then k.value + 1 else 0) <= j < n ==> !IsAcceptance(calls[j].intent.transition)
  {
    if n == 0 then None
    else if IsAcceptance(calls[n - 1].intent.transition) then Some(n - 1)
    else LastAcceptance(calls, n - 1)
  }

  /** Call `k` carried a proof of `kind` that matches its contract. */
  predicate Proves(call: Call, kind: ProofKind) {
    call.contract.Some? && ProofMatches(call.contract.value, call.intent, call.proof, kind)
  }

  predicate AdoptedAmong(calls: seq<Call>, n: nat)
    requires n <= |calls|
  {
    exists k :: 0 <= k < n && calls[k].intent.transition == AdoptionAdopted && Proves(calls[k], AdoptionProof)
  }

  /** What the record after `n` calls owes to them. */
  predicate Earned(calls: seq<Call>, n: nat, o: Obligation)
    requires 0 < n <= |calls|
  {
    var k := LastAcceptance(calls, n);
    && o.acceptance == (if k.None? then NotRun else ResultOf(calls[k.value].intent.transition))
    && (k.Some? ==> Proves(calls[k.value], AcceptanceProof))
    && (o.adoption == Adopted ==> AdoptedAmong(calls, n))
    && (o.adoption == NotRequired ==> !o.binding.adoptionRequired)
  }

  lemma StepEarns(call: Call, found: Option<Obligation>, next: Obligation)
    requires Follows(call, found, next) && (found.Some? ==> Guarded(found.value))
    ensures if IsAcceptance(call.intent.transition) then
              next.acceptance == ResultOf(call.intent.transition) && Proves(call, AcceptanceProof)
            else next.acceptance == if found.None? then NotRun else found.value.acceptance
    ensures call.intent.transition == AdoptionAdopted && next.adoption == Adopted ==> Proves(call, AdoptionProof)
    ensures call.intent.transition != AdoptionAdopted && next.adoption == Adopted ==>
              found.Some? && found.value.adoption == Adopted
    ensures next.adoption == NotRequired ==>
              if found.Some? then found.value.adoption == NotRequired else !next.binding.adoptionRequired
    ensures next.state == Delivered ==>
              next.acceptance == Pass && next.adoption in {Adopted, NotRequired}
                  && TechnicallyTrue(call.contract.value, call.technical)
    ensures found.Some? ==> next.binding == found.value.binding
  {
    FollowsLinks(call, found, next);
    hide TechnicallyTrue, ProofMatches, Refused, Coherent, Sealed;
  }

  lemma {:induction false} ToldEarns(id: ObligationId, calls: seq<Call>, rows: seq<Row>, i: nat)
    requires Told(id, calls, rows) && i < |rows|
    ensures rows[i].record.Some? && Earned(calls, i + 1, rows[i].record.value)
    ensures rows[0].record.Some? && rows[i].record.value.binding == rows[0].record.value.binding
  {
    assert ToldAt(id, calls, rows, i);
    var next := rows[i].record.value;
    if i > 0 {
      ToldEarns(id, calls, rows, i - 1);
      ToldGuarded(id, calls, rows, i - 1);
    }
    StepEarns(calls[i], Found(rows, i), next);
    hide Told, Guarded, Follows, Proves;
    if next.adoption == Adopted && i > 0 && calls[i].intent.transition != AdoptionAdopted {
      var k :| 0 <= k < i && calls[k].intent.transition == AdoptionAdopted && Proves(calls[k], AdoptionProof);
    }
  }

  /** Every step was taken by an actor its contract authorizes, on a binding the whole chain shares. */
  predicate EveryStepAuthorized(calls: seq<Call>, binding: Contract) {
    forall i :: 0 <= i < |calls| ==>
      calls[i].contract == Some(binding) && Authorized(binding, calls[i].runtime.actor, calls[i].intent.transition)
  }

  /**
   The main theorem on delivery. In every reachable table, a chain that ends DELIVERED holds: a last
   acceptance that passed on a matching proof; an adoption on a matching proof, unless the contract
   asks for none; a technical basis true at the delivering step; authorized actors throughout; and
   no terminal revision before the last.
   */
  lemma DeliveryHasProvenance(events: seq<Event>, id: ObligationId)
    ensures var s := History(EMPTY, events);
      var rows, calls := Rows(s.table, id), Log(s, id);
      && |calls| == |rows|
      && (rows != [] && rows[|rows| - 1].record.Some? && rows[|rows| - 1].record.value.state == Delivered ==>
            var head := rows[|rows| - 1].record.value;
            && AcceptedOnProof(calls)
            && (AdoptedAmong(calls, |calls|) || !head.binding.adoptionRequired)
            && TechnicallyTrue(head.binding, calls[|calls| - 1].technical)
            && EveryStepAuthorized(calls, head.binding))
      && (forall i :: 0 <= i < |rows| - 1 ==> rows[i].record.Some? && rows[i].record.value.state !in TERMINAL)
  {
    EmptyInv();
    HistoryKeeps(EMPTY, events);
    var s := History(EMPTY, events);
    InvTells(s, id);
    hide History;
    ToldDelivers(id, Log(s, id), Rows(s.table, id));
  }

  /** The last acceptance passed, on a matching proof. */
  predicate AcceptedOnProof(calls: seq<Call>) {
    var k := LastAcceptance(calls, |calls|);
    k.Some? && calls[k.value].intent.transition == AcceptancePass && Proves(calls[k.value], AcceptanceProof)
  }

  lemma ToldDelivers(id: ObligationId, calls: seq<Call>, rows: seq<Row>)
    requires Told(id, calls, rows)
    ensures rows != [] && rows[|rows| - 1].record.Some? && rows[|rows| - 1].record.value.state == Delivered ==>
            var head := rows[|rows| - 1].record.value;
            && AcceptedOnProof(calls)
            && (AdoptedAmong(calls, |calls|) || !head.binding.adoptionRequired)
            && TechnicallyTrue(head.binding, calls[|calls| - 1].technical)
            && EveryStepAuthorized(calls, head.binding)
    ensures forall i :: 0 <= i < |rows| - 1 ==> rows[i].record.Some? && rows[i].record.value.state !in TERMINAL
  {
    forall i | 0 <= i < |rows| - 1 ensures rows[i].record.Some? && rows[i].record.value.state !in TERMINAL {
      assert ToldAt(id, calls, rows, i) && ToldAt(id, calls, rows, i + 1);
      FollowsLinks(calls[i + 1], Found(rows, i + 1), rows[i + 1].record.value);
      hide *;
    }
    if rows != [] {
      var n := |rows| - 1;
      ToldEarns(id, calls, rows, n);
      HeadDelivers(id, calls, rows);
      StepsAuthorized(id, calls, rows);
      hide Told, TechnicallyTrue, Proves, EveryStepAuthorized, AdoptedAmong;
    }
  }

  lemma HeadDelivers(id: ObligationId, calls: seq<Call>, rows: seq<Row>)
    requires Told(id, calls, rows) && rows != []
    ensures var head := rows[|rows| - 1].record; head.Some? && (head.value.state == Delivered ==>
      && head.value.acceptance == Pass && head.value.adoption in {Adopted, NotRequired}
      && TechnicallyTrue(head.value.binding, calls[|rows| - 1].technical))
  {
    var n := |rows| - 1;
    assert ToldAt(id, calls, rows, n);
    if n > 0 { ToldGuarded(id, calls, rows, n - 1); }
    StepEarns(calls[n], Found(rows, n), rows[n].record.value);
    FollowsLinks(calls[n], Found(rows, n), rows[n].record.value);
    hide Told, Guarded, Follows, TechnicallyTrue;
  }

  lemma StepsAuthorized(id: ObligationId, calls: seq<Call>, rows: seq<Row>)
    requires Told(id, calls, rows) && rows != []
    ensures rows[|rows| - 1].record.Some? && EveryStepAuthorized(calls, rows[|rows| - 1].record.value.binding)
  {
    ToldEarns(id, calls, rows, |rows| - 1);
    forall i | 0 <= i < |calls|
      ensures calls[i].contract == Some(rows[0].record.value.binding)
      ensures Authorized(rows[0].record.value.binding, calls[i].runtime.actor, calls[i].intent.transition)
    {
      assert ToldAt(id, calls, rows, i);
      ToldEarns(id, calls, rows, i);
      FollowsLinks(calls[i], Found(rows, i), rows[i].record.value);
      AdmittedIsAuthorized(calls[i]);
      hide Told, Follows, Authorized, Earned, Refused;
    }
  }

  lemma AdmittedIsAuthorized(call: Call)
    ensures Refused(call).None? ==>
              call.contract.Some? && Authorized(call.contract.value, call.runtime.actor, call.intent.transition)
  {}
}
