/**
 Concurrent transitions over one table: every interleaving of reads, inserts, lost answers and
 faults keeps each obligation one sealed chain, and a chain tells the whole story of its head.
 */
module ContinuityRuns {
  import opened Prelude
  import opened Continuity
  import opened ContinuityStore

  /** A transition that has read and decided but not yet written. */
  datatype Flight = Flight(call: Call, value: Obligation)

  /** The table, the transitions under way, and a record of what made each row and what was answered. */
  datatype Server = Server(
    table: Table, flights: map<nat, Flight>, calls: map<ObligationId, seq<Call>>, applied: set<Row>)

  datatype Event = Start(ticket: nat, call: Call) | End(ticket: nat, landed: bool, heard: bool)

  const EMPTY := Server([], map[], map[], {})

  function Log(s: Server, id: ObligationId): seq<Call> { if id in s.calls then s.calls[id] else [] }

  function After(s: Server, e: Event): Server {
    match e
    case Start(ticket, call) =>
      var d := Decide(s.table, call);
      if ticket in s.flights || d.verdict != Applied || d.obligation.None? then s
      else s.(flights := s.flights[ticket := Flight(call, d.obligation.value)])
    case End(ticket, landed, heard) =>
      if ticket !in s.flights then s else Ended(s, ticket, s.flights[ticket], landed, heard)
  }

  function Ended(s: Server, ticket: nat, f: Flight, landed: bool, heard: bool): Server {
    var id, row := f.call.intent.obligation, NewRow(f.call, f.value);
    var rest := s.(flights := s.flights - {ticket});
    if landed && Insertable(s.table, row) then
      rest.(table := s.table + [row], calls := s.calls[id := Log(s, id) + [f.call]],
            applied := if heard then s.applied + {row} else s.applied)
    else rest
  }

  function History(s: Server, events: seq<Event>): Server
    decreases |events|
  {
    if events == [] then s else History(After(s, events[0]), events[1..])
  }

  // ---------------------------------------------------------------- the invariant

  function Found(rows: seq<Row>, i: nat): Option<Obligation>
    requires i <= |rows|
  {
    if i == 0 then None else rows[i - 1].record
  }

  /** `next` is what an admitted call makes of what it found. */
  predicate Follows(call: Call, found: Option<Obligation>, next: Obligation) {
    && Refused(call).None?
    && (found.Some? ==> Coherent(found.value) && found.value.binding == call.contract.value)
    && Next(call, found) == Result(Applied, Some(next))
  }

  predicate ToldAt(id: ObligationId, calls: seq<Call>, rows: seq<Row>, i: nat)
    requires |calls| == |rows| && i < |rows|
  {
    && calls[i].intent.obligation == id && rows[i].record.Some?
    && rows[i] == NewRow(calls[i], rows[i].record.value)
    && Follows(calls[i], Found(rows, i), rows[i].record.value)
  }

  /** The rows are the story the calls tell, one revision a call. */
  predicate Told(id: ObligationId, calls: seq<Call>, rows: seq<Row>) {
    |calls| == |rows| && forall i :: 0 <= i < |rows| ==> ToldAt(id, calls, rows, i)
  }

  predicate UniqueOperations(table: Table) {
    forall i, j :: 0 <= i < j < |table| ==> table[i].operation != table[j].operation
  }

  /** A transition under way decided on a prefix of the rows there are now. */
  predicate Grounded(table: Table, f: Flight) {
    var rows, n := Rows(table, f.call.intent.obligation), f.value.generation - 1;
    0 <= n <= |rows| && Follows(f.call, Found(rows, n), f.value)
  }

  ghost predicate Inv(s: Server) {
    && (forall id :: Told(id, Log(s, id), Rows(s.table, id)))
    && UniqueOperations(s.table)
    && (forall t <- s.flights :: Grounded(s.table, s.flights[t]))
    && (forall r <- s.applied :: r in s.table)
  }

  // ---------------------------------------------------------------- rows of one obligation

  lemma {:induction false} RowsInTable(table: Table, id: ObligationId, k: nat)
    requires k < |Rows(table, id)|
    ensures Rows(table, id)[k] in table && Rows(table, id)[k].obligation == id
  {
    var rest := table[..|table| - 1];
    if k < |Rows(rest, id)| { RowsInTable(rest, id, k); }
  }

  lemma RowsOfLonger(table: Table, r: Row, id: ObligationId)
    ensures Rows(table + [r], id) == if r.obligation == id then Rows(table, id) + [r] else Rows(table, id)
  {
    assert (table + [r])[..|table|] == table;
  }

  /** Rows already numbered in order are left alone by `ORDER BY generation`. */
  lemma {:induction false} OrderedAlready(rows: seq<Row>)
    requires forall i :: 0 <= i < |rows| ==> rows[i].generation == i + 1
    ensures Ordered(rows) == rows
  {
    if rows != [] {
      var rest := rows[..|rows| - 1];
      OrderedAlready(rest);
      assert rest + [rows[|rows| - 1]] == rows;
    }
  }

  /** What a call adds is numbered, linked and stamped after what it found. */
  lemma FollowsLinks(call: Call, found: Option<Obligation>, next: Obligation)
    requires Follows(call, found, next)
    ensures next.generation == (if found.None? then 1 else found.value.generation + 1)
    ensures next.predecessor == if found.None? then None else Some(found.value.digest)
    ensures next.operation == call.intent.operation && next.intent == IntentHash(call.intent, call.Actor())
    ensures next.binding == call.contract.value
    ensures found.Some? ==> found.value.state !in TERMINAL && call.intent.observed == Revision(found.value.digest)
  {
    hide Opening, Advance;
    if found.Some? {
      AdvanceLinks(call.contract.value, found.value, call.intent, call.Actor(), call.runtime.token, call.technical,
          call.proof);
    } else {
      OpeningLinks(call);
    }
  }

  lemma OpeningLinks(call: Call)
    requires call.contract.Some?
    requires Opening(call.contract.value, call.intent, call.Actor(), call.runtime.token, call.technical).verdict
             == Applied
    ensures var r := Opening(call.contract.value, call.intent, call.Actor(), call.runtime.token, call.technical);
      var n := r.obligation;
      && n.Some? && n.value.generation == 1 && n.value.predecessor == None && n.value.operation == call.intent.operation
      && n.value.intent == IntentHash(call.intent, call.Actor()) && n.value.binding == call.contract.value
  {
    hide TechnicallyTrue;
  }

  lemma {:induction false} ToldNumbers(id: ObligationId, calls: seq<Call>, rows: seq<Row>, i: nat)
    requires Told(id, calls, rows) && i < |rows|
    ensures ToldAt(id, calls, rows, i) && rows[i].generation == i + 1 && rows[i].obligation == id
    ensures rows[i].record.Some? && rows[i].record.value.generation == i + 1
    ensures rows[i].record.value.predecessor == Before(rows, i) && rows[i].record.value.operation == rows[i].operation
  {
    hide Follows;
    assert ToldAt(id, calls, rows, i);
    FollowsLinks(calls[i], Found(rows, i), rows[i].record.value);
    if i > 0 { ToldNumbers(id, calls, rows, i - 1); }
  }

  /** Every revision but possibly the last is guarded, and the last is as soon as it is coherent. */
  lemma {:induction false} ToldGuarded(id: ObligationId, calls: seq<Call>, rows: seq<Row>, i: nat)
    requires Told(id, calls, rows) && i < |rows|
    ensures rows[i].record.Some? && Sealed(rows[i].record.value)
    ensures i < |rows| - 1 || Coherent(rows[i].record.value) ==> Guarded(rows[i].record.value)
  {
    ToldFollows(id, calls, rows, i);
    var found := Found(rows, i);
    assert found == if i == 0 then None else rows[i - 1].record;
    hide *;
    if i > 0 { ToldGuarded(id, calls, rows, i - 1); }
    FollowsGuarded(calls[i], Found(rows, i), rows[i].record.value);
  }

  lemma ToldFollows(id: ObligationId, calls: seq<Call>, rows: seq<Row>, i: nat)
    requires Told(id, calls, rows) && i < |rows|
    ensures rows[i].record.Some? && Follows(calls[i], Found(rows, i), rows[i].record.value)
    ensures i < |rows| - 1 ==> Coherent(rows[i].record.value)
  {
    assert ToldAt(id, calls, rows, i);
    if i < |rows| - 1 { assert ToldAt(id, calls, rows, i + 1); }
    hide Coherent, Refused, Next;
  }

  /** A call on a guarded record, or on none, leaves a sealed one, guarded again if it is coherent. */
  lemma FollowsGuarded(call: Call, found: Option<Obligation>, next: Obligation)
    requires Follows(call, found, next) && (found.Some? ==> Guarded(found.value))
    ensures Sealed(next) && (Coherent(next) ==> Guarded(next))
  {
    hide Guarded, Coherent, Sealed, Advance, Opening;
    if found.None? {
      OpeningIsGuarded(call.contract.value, call.intent, call.Actor(), call.runtime.token, call.technical);
      GuardedIsSealed(next);
    } else {
      AdvanceKeepsGuarded(call.contract.value, found.value, call.intent, call.Actor(), call.runtime.token,
                          call.technical, call.proof);
    }
  }

  lemma GuardedIsSealed(o: Obligation)
    requires Guarded(o)
    ensures Sealed(o) && Coherent(o)
  {}

  predicate Whole(r: Row) { r.record.Some? && Coherent(r.record.value) }

  /** A told chain is readable exactly when its head is coherent. */
  lemma ToldReadable(id: ObligationId, calls: seq<Call>, rows: seq<Row>)
    requires Told(id, calls, rows)
    ensures Ordered(rows) == rows
    ensures Readable(rows) <==> rows == [] || Whole(rows[|rows| - 1])
  {
    forall i | 0 <= i < |rows|
      ensures rows[i].generation == i + 1 && (i < |rows| - 1 || Whole(rows[i]) ==> Fits(rows, i))
    {
      ToldNumbers(id, calls, rows, i);
      ToldGuarded(id, calls, rows, i);
      if i < |rows| - 1 { GuardedIsSealed(rows[i].record.value); }
      hide Coherent, Sealed, Guarded, Told, ToldAt;
    }
    OrderedAlready(rows);
    if rows != [] && Readable(rows) { assert Fits(rows, |rows| - 1); }
  }

  // ---------------------------------------------------------------- every interleaving keeps the invariant

  lemma NextFollows(call: Call, found: Option<Obligation>)
    requires Refused(call).None? && Next(call, found).verdict == Applied
    requires found.Some? ==> Coherent(found.value) && found.value.binding == call.contract.value
    ensures Next(call, found).obligation.Some? && Follows(call, found, Next(call, found).obligation.value)
    ensures Next(call, found).obligation.value.generation == if found.None? then 1 else found.value.generation + 1
  {
    OpeningIsGuarded(call.contract.value, call.intent, call.Actor(), call.runtime.token, call.technical);
    hide Opening, Advance, Refused, Coherent;
    if found.Some? {
      AdvanceLinks(call.contract.value, found.value, call.intent, call.Actor(), call.runtime.token, call.technical,
          call.proof);
    }
    FollowsLinks(call, found, Next(call, found).obligation.value);
  }

  /** What a chain hands to a decision is its last record. */
  lemma ChainHead(rows: seq<Row>)
    requires Readable(rows)
    ensures Head(Values(rows)) == Found(rows, |rows|)
    ensures rows != [] ==> Head(Values(rows)).Some? && Coherent(Head(Values(rows)).value)
                           && Head(Values(rows)).value.generation == |rows|
  {
    if rows != [] { assert Fits(rows, |rows| - 1); }
    hide Coherent, Sealed;
  }

  /** An applied decision read a whole chain, with the caller's binding, and advanced its head. */
  lemma DecideReads(table: Table, call: Call)
    requires Decide(table, call).verdict == Applied
    ensures var rows := Select(table, call.intent.obligation);
      && Refused(call).None? && Readable(rows)
      && Decide(table, call) == Next(call, Head(Values(rows)))
      && (rows != [] ==> Head(Values(rows)).value.binding == call.contract.value)
  {
    hide Select, Next, Readable;
  }

  lemma DecideIsGrounded(s: Server, call: Call)
    requires Inv(s) && Decide(s.table, call).verdict == Applied
    ensures Decide(s.table, call).obligation.Some?
    ensures Grounded(s.table, Flight(call, Decide(s.table, call).obligation.value))
  {
    var id := call.intent.obligation;
    var rows := Rows(s.table, id);
    assert Told(id, Log(s, id), rows);
    ToldReadable(id, Log(s, id), rows);
    DecideReads(s.table, call);
    ChainHead(rows);
    hide *;
    NextFollows(call, Found(rows, |rows|));
    MakeGrounded(s.table, call, Next(call, Found(rows, |rows|)).obligation.value);
  }

  lemma MakeGrounded(table: Table, call: Call, v: Obligation)
    requires var rows := Rows(table, call.intent.obligation);
      v.generation == |rows| + 1 && Follows(call, Found(rows, |rows|), v)
    ensures Grounded(table, Flight(call, v))
  {
    hide Follows;
  }

  /** The primary key lets only the next generation in. */
  lemma OnlyNextLands(s: Server, f: Flight)
    requires Inv(s) && Grounded(s.table, f) && Insertable(s.table, NewRow(f.call, f.value))
    ensures f.value.generation - 1 == |Rows(s.table, f.call.intent.obligation)|
  {
    var id := f.call.intent.obligation;
    var rows, n := Rows(s.table, id), f.value.generation - 1;
    assert Told(id, Log(s, id), rows);
    if n < |rows| {
      ToldNumbers(id, Log(s, id), rows, n);
      RowsInTable(s.table, id, n);
    }
  }

  lemma GroundedStays(table: Table, r: Row, f: Flight)
    requires Grounded(table, f)
    ensures Grounded(table + [r], f)
  {
    hide Follows;
    RowsOfLonger(table, r, f.call.intent.obligation);
  }

  lemma ToldGrows(id: ObligationId, calls: seq<Call>, rows: seq<Row>, f: Flight)
    requires Told(id, calls, rows) && f.call.intent.obligation == id && Follows(f.call, Found(rows, |rows|), f.value)
    ensures Told(id, calls + [f.call], rows + [NewRow(f.call, f.value)])
  {
    hide Follows;
    var more, longer := calls + [f.call], rows + [NewRow(f.call, f.value)];
    forall i | 0 <= i < |longer| ensures ToldAt(id, more, longer, i) {
      if i < |rows| { assert ToldAt(id, calls, rows, i); }
    }
  }

  lemma EndedKeeps(s: Server, ticket: nat, landed: bool, heard: bool)
    requires Inv(s) && ticket in s.flights
    ensures Inv(Ended(s, ticket, s.flights[ticket], landed, heard))
  {
    var f := s.flights[ticket];
    var t := Ended(s, ticket, f, landed, heard);
    hide Follows;
    if landed && Insertable(s.table, NewRow(f.call, f.value)) {
      LandedTells(s, f, t);
      hide Told, Insertable, Rows;
      forall k <- t.flights ensures Grounded(t.table, t.flights[k]) {
        GroundedStays(s.table, NewRow(f.call, f.value), s.flights[k]);
      }
      NewOperation(s.table, NewRow(f.call, f.value));
    } else {
      hide Told, Rows, Insertable, Grounded;
      forall other ensures Told(other, Log(t, other), Rows(t.table, other)) { InvTells(s, other); }
    }
  }

  lemma InvTells(s: Server, id: ObligationId)
    requires Inv(s)
    ensures Told(id, Log(s, id), Rows(s.table, id))
  {}

  /** A landed row extends the story of its own obligation and of no other. */
  lemma LandedTells(s: Server, f: Flight, t: Server)
    requires Inv(s) && Grounded(s.table, f) && Insertable(s.table, NewRow(f.call, f.value))
    requires t.table == s.table + [NewRow(f.call, f.value)]
    requires t.calls == s.calls[f.call.intent.obligation := Log(s, f.call.intent.obligation) + [f.call]]
    ensures forall other :: Told(other, Log(t, other), Rows(t.table, other))
  {
    var id := f.call.intent.obligation;
    OnlyNextLands(s, f);
    InvTells(s, id);
    hide Follows, Inv, Insertable;
    ToldGrows(id, Log(s, id), Rows(s.table, id), f);
    hide Told, Rows;
    forall other ensures Told(other, Log(t, other), Rows(t.table, other)) {
      RowsOfLonger(s.table, NewRow(f.call, f.value), other);
      InvTells(s, other);
    }
  }

  lemma NewOperation(table: Table, r: Row)
    requires UniqueOperations(table) && Insertable(table, r)
    ensures UniqueOperations(table + [r])
  {}

  lemma StepKeeps(s: Server, e: Event)
    requires Inv(s)
    ensures Inv(After(s, e))
    ensures s.table <= After(s, e).table && s.applied <= After(s, e).applied
  {
    match e
    case Start(ticket, call) =>
      hide Told, Decide, Grounded, Rows;
      if Decide(s.table, call).verdict == Applied { DecideIsGrounded(s, call); }
      var t := After(s, e);
      forall other ensures Told(other, Log(t, other), Rows(t.table, other)) {
        assert Told(other, Log(s, other), Rows(s.table, other));
      }
    case End(ticket, landed, heard) =>
      if ticket in s.flights { EndedKeeps(s, ticket, landed, heard); }
  }

  /** Over every interleaving the invariant holds, rows are only ever added, and no APPLIED row is lost. */
  lemma {:induction false} HistoryKeeps(s: Server, events: seq<Event>)
    requires Inv(s)
    ensures Inv(History(s, events))
    ensures s.table <= History(s, events).table && s.applied <= History(s, events).applied
    decreases |events|
  {
    hide Inv, After;
    if events != [] {
      StepKeeps(s, events[0]);
      HistoryKeeps(After(s, events[0]), events[1..]);
    }
  }

  lemma EmptyInv()
    ensures Inv(EMPTY)
  {
    forall id ensures Told(id, Log(EMPTY, id), Rows(EMPTY.table, id)) {}
  }
}
