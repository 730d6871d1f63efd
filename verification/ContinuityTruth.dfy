/** What the chains of a reachable table say: unforked, answerable, exactly corrupted, and delivered for a reason. */
module ContinuityTruth {
  import opened Prelude
  import opened Continuity
  import opened ContinuityStore
  import opened ContinuityRuns

  // ---------------------------------------------------------------- one unforked chain

  /** One chain: numbered, linked and sealed, each row under its own operation. */
  predicate Unforked(rows: seq<Row>) {
    forall i :: 0 <= i < |rows| ==>
      && rows[i].generation == i + 1 && rows[i].record.Some? && Sealed(rows[i].record.value)
      && rows[i].record.value.generation == i + 1 && rows[i].record.value.predecessor == Before(rows, i)
      && rows[i].record.value.operation == rows[i].operation
  }

  /** The main theorem on the store, for every interleaving of reads, inserts, faults and lost answers. */
  lemma ChainsNeverFork(events: seq<Event>, id: ObligationId)
    ensures var s := History(EMPTY, events);
      && Unforked(Select(s.table, id)) && Select(s.table, id) == Rows(s.table, id)
      && UniqueOperations(s.table)
      && (forall r <- s.applied :: r in s.table)
  {
    EmptyInv();
    HistoryKeeps(EMPTY, events);
    var s := History(EMPTY, events);
    InvTells(s, id);
    var rows := Rows(s.table, id);
    ToldReadable(id, Log(s, id), rows);
    forall i | 0 <= i < |rows|
      ensures rows[i].generation == i + 1 && rows[i].record.Some? && Sealed(rows[i].record.value)
              && rows[i].record.value.generation == i + 1 && rows[i].record.value.predecessor == Before(rows, i)
              && rows[i].record.value.operation == rows[i].operation
    {
      ToldNumbers(id, Log(s, id), rows, i);
      ToldGuarded(id, Log(s, id), rows, i);
      hide *;
    }
    hide History, Told, Rows, Sealed, Ordered;
  }

  /** An APPLIED answer is about a row that is there, and stays there whatever follows. */
  lemma AppliedIsDurable(s: Server, ticket: nat, landed: bool, heard: bool, events: seq<Event>)
    requires Inv(s) && ticket in s.flights
    ensures var f := s.flights[ticket];
      var t := History(After(s, End(ticket, landed, heard)), events);
      Answered(s.table, f.call, f.value, landed, heard).verdict == Applied ==> NewRow(f.call, f.value) in t.table
  {
    var f := s.flights[ticket];
    var mid := After(s, End(ticket, landed, heard));
    StepKeeps(s, End(ticket, landed, heard));
    HistoryKeeps(mid, events);
    AfterErrorNeverApplies(Written(s.table, NewRow(f.call, f.value), landed), f.call);
    hide Inv, History, AfterError, Insertable;
  }

  lemma AfterErrorNeverApplies(table: Table, call: Call)
    ensures AfterError(table, call).verdict in {Undecided, Replayed, Conflict, Outdated}
  {}

  /** REPLAYED, whoever answers it, is about a stored row of that very operation and intent. */
  lemma ReplayedIsStored(s: Server, call: Call)
    requires Inv(s)
    ensures AfterError(s.table, call).verdict == Replayed || Decide(s.table, call).verdict == Replayed ==>
      exists r <- s.table :: r.obligation == call.intent.obligation && r.operation == call.intent.operation
        && r.record.Some? && r.record.value.intent == IntentHash(call.intent, call.Actor())
  {
    var id := call.intent.obligation;
    var rows := Rows(s.table, id);
    InvTells(s, id);
    ToldReadable(id, Log(s, id), rows);
    hide Told, Ordered, Rows, Inv, AfterError, Decide, Readable;
    if AfterError(s.table, call).verdict == Replayed || Decide(s.table, call).verdict == Replayed {
      ReplayHead(s.table, call);
      ToldNumbers(id, Log(s, id), rows, |rows| - 1);
      RowsInTable(s.table, id, |rows| - 1);
      var r := rows[|rows| - 1];
    }
  }

  /** A replay is answered from the last row of a readable chain. */
  lemma ReplayHead(table: Table, call: Call)
    requires AfterError(table, call).verdict == Replayed || Decide(table, call).verdict == Replayed
    ensures var rows := Select(table, call.intent.obligation);
      && rows != [] && rows[|rows| - 1].record.Some?
      && rows[|rows| - 1].record.value.operation == call.intent.operation
      && rows[|rows| - 1].record.value.intent == IntentHash(call.intent, call.Actor())
  {
    var rows := Select(table, call.intent.obligation);
    hide Select, Refused, Readable, Next;
    if Decide(table, call).verdict == Replayed {
      RefusedNever(call);
      NextReplays(call, Head(Values(rows)));
    }
  }

  lemma RefusedNever(call: Call)
    ensures Refused(call).Some? ==> Refused(call).value != Replayed
    ensures Refused(call).None? ==> call.contract.Some?
  {}

  lemma NextReplays(call: Call, found: Option<Obligation>)
    requires call.contract.Some?
    ensures Next(call, found).verdict == Replayed ==>
              found.Some? && found.value.operation == call.intent.operation
                  && found.value.intent == IntentHash(call.intent, call.Actor())
  {
    hide TechnicallyTrue, Changed;
  }

  // ---------------------------------------------------------------- equal heads

  /** Two readable chains with the same head digest are the same chain, from the first revision on. */
  lemma {:induction false} EqualHeadsEqualChains(a: seq<Row>, b: seq<Row>)
    requires Readable(a) && Readable(b) && a != [] && b != []
    requires Values(a)[|a| - 1].digest == Values(b)[|b| - 1].digest
    ensures Values(a) == Values(b)
  {
    var m, n := |a| - 1, |b| - 1;
    assert Fits(a, m) && Fits(b, n);
    SealIsInjective(Values(a)[m], Values(b)[n]);
    assert m == n;
    if m > 0 {
      var c, d := a[..m], b[..n];
      PrefixReadable(a, m);
      PrefixReadable(b, n);
      assert Fits(a, m - 1) && Fits(b, n - 1);
      EqualHeadsEqualChains(c, d);
      assert forall i :: 0 <= i < m ==> Values(a)[i] == Values(c)[i] && Values(b)[i] == Values(d)[i];
    }
  }

  lemma PrefixReadable(rows: seq<Row>, n: nat)
    requires Readable(rows) && n <= |rows|
    ensures Readable(rows[..n]) && Values(rows[..n]) == Values(rows)[..n]
  {
    hide Coherent, Sealed;
    forall i | 0 <= i < n ensures Fits(rows[..n], i) { assert Fits(rows, i); }
  }

  // ---------------------------------------------------------------- exactly when a chain breaks

  /** The last revision is a BLOCK that delivery overtook. */
  predicate Overtaken(calls: seq<Call>, rows: seq<Row>) {
    && |calls| == |rows| && |rows| > 1 && calls[|rows| - 1].contract.Some? && rows[|rows| - 2].record.Some?
    && Overtakes(calls[|rows| - 1].contract.value, rows[|rows| - 2].record.value, calls[|rows| - 1].intent,
       calls[|rows| - 1].technical)
  }

  lemma ToldBreaks(id: ObligationId, calls: seq<Call>, rows: seq<Row>)
    requires Told(id, calls, rows)
    ensures Readable(rows) <==> !Overtaken(calls, rows)
  {
    ToldReadable(id, calls, rows);
    if rows != [] {
      var n := |rows| - 1;
      assert ToldAt(id, calls, rows, n);
      var call := calls[n];
      hide Guarded, Coherent, Sealed, Readable, Told, Advance, Opening, Ordered;
      if n == 0 {
        OpeningIsGuarded(call.contract.value, call.intent, call.Actor(), call.runtime.token, call.technical);
        GuardedIsSealed(rows[0].record.value);
      } else {
        ToldGuarded(id, calls, rows, n - 1);
        AdvanceKeepsGuarded(call.contract.value, rows[n - 1].record.value, call.intent, call.Actor(),
                            call.runtime.token, call.technical, call.proof);
      }
    }
  }

  /** In every reachable table a chain cannot be read if and only if delivery overtook its last BLOCK. */
  lemma UnreadableExactly(events: seq<Event>, id: ObligationId)
    ensures var s := History(EMPTY, events);
      Get(s.table, id).verdict == Undecided <==> Overtaken(Log(s, id), Rows(s.table, id))
  {
    EmptyInv();
    HistoryKeeps(EMPTY, events);
    var s := History(EMPTY, events);
    InvTells(s, id);
    ToldReadable(id, Log(s, id), Rows(s.table, id));
    ToldBreaks(id, Log(s, id), Rows(s.table, id));
    hide History, Told, Rows, Ordered, Readable, Overtaken;
  }

  lemma BrokenStep(s: Server, e: Event, id: ObligationId)
    requires Inv(s) && !Readable(Rows(s.table, id))
    ensures Rows(After(s, e).table, id) == Rows(s.table, id)
  {
    var rows := Rows(s.table, id);
    InvTells(s, id);
    ToldReadable(id, Log(s, id), rows);
    hide Told, Readable, Ordered, Coherent, Decide;
    if e.End? && e.ticket in s.flights {
      var f := s.flights[e.ticket];
      RowsOfLonger(s.table, NewRow(f.call, f.value), id);
      if f.call.intent.obligation == id && Insertable(s.table, NewRow(f.call, f.value)) {
        OnlyNextLands(s, f);
      }
    }
  }

  /** A broken chain stays broken: no later transition, of anyone, adds to it or reads it again. */
  lemma {:induction false} BrokenForever(s: Server, events: seq<Event>, id: ObligationId)
    requires Inv(s) && Get(s.table, id).verdict == Undecided
    ensures Get(History(s, events).table, id) == Result(Undecided, None)
    ensures Rows(History(s, events).table, id) == Rows(s.table, id)
    decreases |events|
  {
    InvTells(s, id);
    ToldReadable(id, Log(s, id), Rows(s.table, id));
    if events != [] {
      BrokenStep(s, events[0], id);
      StepKeeps(s, events[0]);
      hide Inv, After, Readable, Rows;
      BrokenForever(After(s, events[0]), events[1..], id);
    }
  }

  /** An accepted, adopted obligation is blocked, by a caller who may, while its technical basis is true. */
  predicate BlocksOnDelivery(call: Call, found: Obligation) {
    && Refused(call).None? && found.binding == call.contract.value
    && Overtakes(call.contract.value, found, call.intent, call.technical)
    && call.intent.observed == Revision(found.digest) && call.intent.operation != found.operation
    && call.intent.blocker.Some? && call.intent.clearing.Some?
  }

  lemma BlockApplies(call: Call, found: Obligation)
    requires BlocksOnDelivery(call, found) && Coherent(found)
    ensures Next(call, Some(found)).verdict == Applied
  {
    hide TechnicallyTrue, ProofMatches;
  }

  /** Such a call is decided APPLIED, as the next generation of the chain it read. */
  lemma BlockDecides(s: Server, call: Call)
    requires Inv(s)
    requires Get(s.table, call.intent.obligation).obligation.Some?
    requires BlocksOnDelivery(call, Get(s.table, call.intent.obligation).obligation.value)
    ensures var rows, d := Rows(s.table, call.intent.obligation), Decide(s.table, call);
      && d.verdict == Applied && d.obligation.Some? && rows != []
      && Get(s.table, call.intent.obligation).obligation == rows[|rows| - 1].record
      && Follows(call, Found(rows, |rows|), d.obligation.value) && d.obligation.value.generation == |rows| + 1
  {
    var id := call.intent.obligation;
    var rows := Rows(s.table, id);
    InvTells(s, id);
    ToldReadable(id, Log(s, id), rows);
    var found := Get(s.table, id).obligation.value;
    hide Inv, Told, Ordered, Rows, Readable, Next, Coherent, Follows, Refused;
    ChainHead(rows);
    BlockApplies(call, found);
    assert Decide(s.table, call) == Next(call, Found(rows, |rows|)) by {
      hide BlocksOnDelivery;
      BlockIsAdmitted(call, found);
    }
    BlockIsAdmitted(call, found);
    NextFollows(call, Found(rows, |rows|));
  }

  lemma BlockIsAdmitted(call: Call, found: Obligation)
    requires BlocksOnDelivery(call, found)
    ensures Refused(call).None? && found.binding == call.contract.value
  {}

  /** The next generation under a new operation always finds its place free. */
  lemma NextLands(s: Server, call: Call, v: Obligation)
    requires Inv(s) && v.generation == |Rows(s.table, call.intent.obligation)| + 1
    requires forall r <- s.table :: r.operation != v.operation
    ensures Insertable(s.table, NewRow(call, v))
  {
    var id := call.intent.obligation;
    forall i | 0 <= i < |s.table|
      ensures s.table[i].operation != v.operation
      ensures s.table[i].obligation != id || s.table[i].generation != v.generation
    {
      if s.table[i].obligation == id {
        InRows(s.table, i);
        var k :| 0 <= k < |Rows(s.table, id)| && Rows(s.table, id)[k] == s.table[i];
        InvTells(s, id);
        ToldNumbers(id, Log(s, id), Rows(s.table, id), k);
      }
    }
  }

  lemma {:induction false} InRows(table: Table, i: nat)
    requires i < |table|
    ensures table[i] in Rows(table, table[i].obligation)
  {
    if i < |table| - 1 { InRows(table[..|table| - 1], i); }
  }

  /** How a chain breaks: that call is answered APPLIED, and nobody can read the obligation again. */
  lemma BlockingBreaks(s: Server, ticket: nat, call: Call)
    requires Inv(s) && ticket !in s.flights
    requires Get(s.table, call.intent.obligation).obligation.Some?
    requires BlocksOnDelivery(call, Get(s.table, call.intent.obligation).obligation.value)
    requires forall r <- s.table :: r.operation != call.intent.operation
    ensures var one := After(s, Start(ticket, call));
      && ticket in one.flights
      && Answered(one.table, call, one.flights[ticket].value, true, true).verdict == Applied
      && Get(After(one, End(ticket, true, true)).table, call.intent.obligation) == Result(Undecided, None)
  {
    var id := call.intent.obligation;
    var rows := Rows(s.table, id);
    var found := Get(s.table, id).obligation.value;
    BlockDecides(s, call);
    var v := Decide(s.table, call).obligation.value;
    FollowsLinks(call, Found(rows, |rows|), v);
    NextLands(s, call, v);
    InvTells(s, id);
    ToldGrows(id, Log(s, id), rows, Flight(call, v));
    RowsOfLonger(s.table, NewRow(call, v), id);
    BlockOvertakes(id, Log(s, id), rows, call, v, found);
    hide *;
    hide Decide, Get, Insertable, Follows;
    EndReads(s, ticket, call, v, rows + [NewRow(call, v)]);
  }

  lemma BlockOvertakes(id: ObligationId, calls: seq<Call>, rows: seq<Row>, call: Call, v: Obligation, found: Obligation)
    requires Told(id, calls + [call], rows + [NewRow(call, v)]) && rows != [] && rows[|rows| - 1].record == Some(found)
    requires BlocksOnDelivery(call, found)
    ensures !Readable(rows + [NewRow(call, v)]) && Ordered(rows + [NewRow(call, v)]) == rows + [NewRow(call, v)]
  {
    ToldBreaks(id, calls + [call], rows + [NewRow(call, v)]);
    ToldReadable(id, calls + [call], rows + [NewRow(call, v)]);
    hide Told, Readable, Ordered, Refused;
  }

  lemma EndReads(s: Server, ticket: nat, call: Call, v: Obligation, rows: seq<Row>)
    requires ticket !in s.flights && Decide(s.table, call) == Result(Applied, Some(v))
             && Insertable(s.table, NewRow(call, v))
    requires Rows(s.table + [NewRow(call, v)], call.intent.obligation) == rows && !Readable(rows)
             && Ordered(rows) == rows
    ensures var one := After(s, Start(ticket, call));
      && ticket in one.flights && one.flights[ticket] == Flight(call, v)
      && Answered(one.table, call, one.flights[ticket].value, true, true).verdict == Applied
      && Get(After(one, End(ticket, true, true)).table, call.intent.obligation) == Result(Undecided, None)
  {
    hide Decide, Insertable, Rows, Readable, Ordered;
  }

  // ---------------------------------------------------------------- reached from the empty table

  /** An applied decision under a new operation, undisturbed, becomes the head of its chain. */
  lemma CallLands(s: Server, ticket: nat, call: Call)
    requires Inv(s) && ticket !in s.flights && Decide(s.table, call).verdict == Applied
    requires forall r <- s.table :: r.operation != call.intent.operation
    ensures var d := Decide(s.table, call).obligation;
      var t := After(After(s, Start(ticket, call)), End(ticket, true, true));
      && d.Some? && d.value.operation == call.intent.operation
      && Inv(t) && t.flights == s.flights && t.table == s.table + [NewRow(call, d.value)]
      && (Coherent(d.value) ==> Get(t.table, call.intent.obligation) == Result(Current, d))
  {
    var id := call.intent.obligation;
    var rows := Rows(s.table, id);
    DecideIsGrounded(s, call);
    var v := Decide(s.table, call).obligation.value;
    DecideCounts(s, call);
    NextLands(s, call, v);
    var one := After(s, Start(ticket, call));
    StepKeeps(s, Start(ticket, call));
    StepKeeps(one, End(ticket, true, true));
    var t := After(one, End(ticket, true, true));
    StartFlies(s, ticket, call, v);
    InvTells(t, id);
    RowsOfLonger(s.table, NewRow(call, v), id);
    ToldReadable(id, Log(t, id), Rows(t.table, id));
    hide Inv, Decide, Told, Rows, Ordered, After, Readable, Insertable, Refused;
    if Coherent(v) { ChainHead(Rows(t.table, id)); }
  }

  lemma DecideCounts(s: Server, call: Call)
    requires Inv(s) && Decide(s.table, call).verdict == Applied && Decide(s.table, call).obligation.Some?
    ensures var v := Decide(s.table, call).obligation.value;
      v.generation == |Rows(s.table, call.intent.obligation)| + 1 && v.operation == call.intent.operation
  {
    var id := call.intent.obligation;
    var rows := Rows(s.table, id);
    InvTells(s, id);
    ToldReadable(id, Log(s, id), rows);
    DecideReads(s.table, call);
    ChainHead(rows);
    hide *;
    NextFollows(call, Found(rows, |rows|));
    FollowsLinks(call, Found(rows, |rows|), Next(call, Found(rows, |rows|)).obligation.value);
  }

  lemma StartFlies(s: Server, ticket: nat, call: Call, v: Obligation)
    requires ticket !in s.flights && Decide(s.table, call) == Result(Applied, Some(v))
             && Insertable(s.table, NewRow(call, v))
    ensures var t := After(After(s, Start(ticket, call)), End(ticket, true, true));
      t.flights == s.flights && t.table == s.table + [NewRow(call, v)]
  {
    hide Decide, Insertable;
    assert s.flights[ticket := Flight(call, v)] - {ticket} == s.flights;
  }

  /** A call made by `actor` under a current grant and runtime. */
  function CallBy(c: Contract, actor: Id, intent: Intent, technical: Option<Basis>, proof: Option<Proof>): Call {
    Call(Some(c), "", Grant("", 0, 0, actor, true), Runtime(actor, "", Fresh), intent, technical, proof)
  }

  function Step(c: Contract, operation: Id, observed: Observed, transition: Transition, mark: Option<Text>): Intent {
    Intent(operation, c.Key(), observed, transition, [], mark, mark)
  }

  /** What a decision makes of a table whose chain ends in `found`. */
  lemma DecideFrom(table: Table, call: Call, found: Option<Obligation>)
    requires Refused(call).None?
    requires Get(table, call.intent.obligation) == if found.None? then Result(Absent, None) else Result(Current, found)
    requires found.Some? ==> found.value.binding == call.contract.value
    ensures Decide(table, call) == Next(call, found)
  {
    hide Select, Readable, Next, Refused;
  }

  /** Nothing is under way, `head` ends the chain of `id`, and operations after `last` are unused. */
  ghost predicate Rests(s: Server, id: ObligationId, head: Option<Obligation>, last: Id) {
    && Inv(s) && s.flights == map[]
    && Get(s.table, id) == (if head.None? then Result(Absent, None) else Result(Current, head))
    && forall r <- s.table :: r.operation <= last
  }

  /** One undisturbed call after another: each that applies and is coherent becomes the next head. */
  lemma CallRests(s: Server, call: Call, head: Option<Obligation>, last: Id, next: Obligation)
    requires Rests(s, call.intent.obligation, head, last) && call.intent.operation == last + 1
    requires Refused(call).None? && (head.Some? ==> head.value.binding == call.contract.value)
    requires Next(call, head) == Result(Applied, Some(next)) && Coherent(next)
    ensures Rests(Calls(s, call), call.intent.obligation, Some(next), last + 1)
  {
    hide Inv, Refused, Next, Coherent, Decide, Get;
    DecideFrom(s.table, call, head);
    CallLands(s, 0, call);
  }

  function Opens(c: Contract, basis: Basis): Call {
    CallBy(c, c.product, Step(c, 1, Missing, Activated, None), Some(basis), None)
  }

  function Accepts(c: Contract, v: Obligation, proof: Proof): Call {
    CallBy(c, c.owner, Step(c, 2, Revision(v.digest), AcceptancePass, None), None, Some(proof))
  }

  function Blocks(c: Contract, v: Obligation, basis: Basis): Call {
    CallBy(c, c.owner, Step(c, 3, Revision(v.digest), Block, Some("")), Some(basis), None)
  }

  lemma OpensCleanly(c: Contract, basis: Basis)
    requires TechnicallyTrue(c, Some(basis)) && !c.adoptionRequired
    ensures Refused(Opens(c, basis)).None? && Opens(c, basis).contract == Some(c)
    ensures var r := Next(Opens(c, basis), None);
      && r.verdict == Applied && r.obligation.Some? && Coherent(r.obligation.value)
      && r.obligation.value.binding == c && r.obligation.value.state == VerifyNow && r.obligation.value.operation == 1
      && r.obligation.value.adoption == NotRequired
  {
    hide TechnicallyTrue;
  }

  lemma AcceptsCleanly(c: Contract, v: Obligation, proof: Proof)
    requires v.binding == c && v.state == VerifyNow && v.operation == 1 && v.adoption == NotRequired && Coherent(v)
    requires ProofMatches(c, Step(c, 2, Missing, AcceptancePass, None), Some(proof), AcceptanceProof)
    ensures Refused(Accepts(c, v, proof)).None? && Accepts(c, v, proof).contract == Some(c)
    ensures var r := Next(Accepts(c, v, proof), Some(v));
      && r.verdict == Applied && r.obligation.Some? && Coherent(r.obligation.value)
      && r.obligation.value.binding == c && r.obligation.value.state == Accepted && r.obligation.value.operation == 2
      && r.obligation.value.adoption == NotRequired
  {
    assert ProofMatches(c, Accepts(c, v, proof).intent, Some(proof), AcceptanceProof);
    hide TechnicallyTrue, ProofMatches;
  }

  /**
   From the empty table, three calls reach it: an activation, an acceptance while the basis is not
   known to be true, and a BLOCK once it is.
   */
  lemma BrokenReachable(c: Contract, basis: Basis, proof: Proof)
    requires TechnicallyTrue(c, Some(basis)) && !c.adoptionRequired
    requires ProofMatches(c, Step(c, 2, Missing, AcceptancePass, None), Some(proof), AcceptanceProof)
    ensures exists events :: Get(History(EMPTY, events).table, c.Key()) == Result(Undecided, None)
  {
    hide *;
    EmptyRests(c.Key());
    OpensCleanly(c, basis);
    var one := Opens(c, basis);
    var v1 := Next(one, None).obligation.value;
    AcceptsCleanly(c, v1, proof);
    var two := Accepts(c, v1, proof);
    var v2 := Next(two, Some(v1)).obligation.value;
    CallKeys(c, v1, v2, basis, proof);
    CallRests(EMPTY, one, None, 0, v1);
    CallRests(Calls(EMPTY, one), two, Some(v1), 1, v2);
    BlockedRests(Calls(Calls(EMPTY, one), two), c, v2, basis);
    SixSteps(one, two, Blocks(c, v2, basis));
  }

  lemma EmptyRests(id: ObligationId)
    ensures Rests(EMPTY, id, None, 0)
  {
    EmptyInv();
    assert Rows([], id) == [];
    hide Inv;
  }

  lemma CallKeys(c: Contract, v: Obligation, o: Obligation, basis: Basis, proof: Proof)
    ensures var one, two := Opens(c, basis), Accepts(c, v, proof);
      && one.intent.obligation == c.Key() && one.intent.operation == 1 && one.contract == Some(c)
      && two.intent.obligation == c.Key() && two.intent.operation == 2 && two.contract == Some(c)
  {}

  lemma BlockedRests(s: Server, c: Contract, v: Obligation, basis: Basis)
    requires Rests(s, c.Key(), Some(v), 2) && TechnicallyTrue(c, Some(basis))
    requires v.binding == c && v.state == Accepted && v.adoption == NotRequired && v.operation == 2
    ensures Get(Calls(s, Blocks(c, v, basis)).table, c.Key()) == Result(Undecided, None)
  {
    var call := Blocks(c, v, basis);
    assert BlocksOnDelivery(call, v);
    hide Inv, BlocksOnDelivery, Get, TechnicallyTrue;
    BlockingBreaks(s, 0, call);
  }

  lemma SixSteps(a: Call, b: Call, d: Call)
    ensures History(EMPTY, [Start(0, a), End(0, true, true), Start(0, b), End(0, true, true),
                            Start(0, d), End(0, true, true)])
            == Calls(Calls(Calls(EMPTY, a), b), d)
  {
    hide After;
    var events := [Start(0, a), End(0, true, true), Start(0, b), End(0, true, true), Start(0, d), End(0, true, true)];
    TwoSteps(EMPTY, a, events[2..]);
    TwoSteps(Calls(EMPTY, a), b, events[4..]);
    TwoSteps(Calls(Calls(EMPTY, a), b), d, []);
    assert events == [Start(0, a), End(0, true, true)] + events[2..];
    assert events[2..] == [Start(0, b), End(0, true, true)] + events[4..];
    assert events[4..] == [Start(0, d), End(0, true, true)] + [];
  }

  /** One call, begun and ended without anything in between. */
  function Calls(s: Server, call: Call): Server { After(After(s, Start(0, call)), End(0, true, true)) }

  lemma TwoSteps(s: Server, call: Call, rest: seq<Event>)
    ensures History(s, [Start(0, call), End(0, true, true)] + rest) == History(Calls(s, call), rest)
  {
    hide After;
    var events := [Start(0, call), End(0, true, true)] + rest;
    assert events[1..] == [End(0, true, true)] + rest;
    assert events[1..][1..] == rest;
  }
}
