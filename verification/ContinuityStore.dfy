/**
 The append-only table of obligation revisions and its concurrent writers
 (src/switchstand/activation_continuity_store.py:32-192, migrations/versions/0023_activation_continuity.py:18-25).
 A transition reads in one step and inserts in another; anything may happen in between.
 */
module ContinuityStore {
  import opened Prelude
  import opened Continuity

  /** One row. A record that no longer parses is `None`. */
  datatype Row = Row(obligation: ObligationId, operation: Id, generation: int, record: Option<Obligation>)

  type Table = seq<Row>

  // ---------------------------------------------------------------- reading

  function Rows(table: Table, id: ObligationId): seq<Row> {
    if table == [] then []
    else
      var rest := Rows(table[..|table| - 1], id);
      if table[|table| - 1].obligation == id then rest + [table[|table| - 1]] else rest
  }

  /** `ORDER BY generation`. */
  function Insert(rows: seq<Row>, r: Row): (out: seq<Row>)
    ensures |out| == |rows| + 1
  {
    if rows == [] || rows[|rows| - 1].generation <= r.generation then rows + [r]
    else Insert(rows[..|rows| - 1], r) + [rows[|rows| - 1]]
  }

  function Ordered(rows: seq<Row>): (out: seq<Row>)
    ensures |out| == |rows|
  {
    if rows == [] then [] else Insert(Ordered(rows[..|rows| - 1]), rows[|rows| - 1])
  }

  function Select(table: Table, id: ObligationId): seq<Row> { Ordered(Rows(table, id)) }

  function Before(rows: seq<Row>, i: nat): Option<Digest>
    requires i <= |rows|
  {
    if i == 0 || rows[i - 1].record.None? then None else Some(rows[i - 1].record.value.digest)
  }

  /** Row `i` parses, carries its own position and operation, and seals over its predecessor. */
  predicate Fits(rows: seq<Row>, i: nat)
    requires i < |rows|
  {
    && rows[i].record.Some? && Coherent(rows[i].record.value) && Sealed(rows[i].record.value)
    && rows[i].record.value.generation == i + 1
    && rows[i].record.value.predecessor == Before(rows, i)
    && rows[i].record.value.operation == rows[i].operation
  }

  lemma FitsMeans(rows: seq<Row>, i: nat)
    requires i < |rows|
    ensures Fits(rows, i) <==>
            && rows[i].record.Some?
            && var v := rows[i].record.value;
               && Coherent(v) && Seal(v).digest == v.digest && v.generation == i + 1
               && v.predecessor == Before(rows, i) && v.operation == rows[i].operation
  {
    hide Coherent;
  }

  predicate Readable(rows: seq<Row>) { forall i :: 0 <= i < |rows| ==> Fits(rows, i) }

  function Values(rows: seq<Row>): (out: seq<Obligation>)
    requires Readable(rows)
    ensures |out| == |rows| && forall i :: 0 <= i < |rows| ==> rows[i].record == Some(out[i])
  {
    AllParse(rows);
    seq(|rows|, i requires 0 <= i < |rows| => rows[i].record.value)
  }

  lemma AllParse(rows: seq<Row>)
    requires Readable(rows)
    ensures forall i :: 0 <= i < |rows| ==> rows[i].record.Some?
  {
    hide Coherent, Sealed;
    forall i | 0 <= i < |rows| ensures rows[i].record.Some? { assert Fits(rows, i); }
  }

  /** `_chain`: the revisions in order, or nothing when they do not form one sealed chain. */
  function Chain(rows: seq<Row>): Option<seq<Obligation>> {
    if Readable(rows) then Some(Values(rows)) else None
  }

  /** `get`. */
  function Get(table: Table, id: ObligationId): Result {
    var chain := Chain(Select(table, id));
    if chain.None? then Result(Undecided, None)
    else if chain.value == [] then Result(Absent, None)
    else Result(Current, Some(chain.value[|chain.value| - 1]))
  }

  // ---------------------------------------------------------------- transitions

  datatype Grant = Grant(principal: Text, id: Id, version: nat, activeWork: Id, current: bool)

  /** The arguments of one transition; `contract` is what the server finds installed. */
  datatype Call = Call(
    contract: Option<Contract>, principal: Text, grant: Grant, runtime: Runtime, intent: Intent,
    technical: Option<Basis>, proof: Option<Proof>)
  {
    function Actor(): ActorRef { ActorHash(principal, grant.id, grant.version, runtime) }
  }

  /** The checks before the table is touched. */
  function Refused(call: Call): Option<Verdict> {
    if call.contract.None? then Some(Denied)
    else if call.grant.principal != call.principal || !call.grant.current then Some(Outdated)
    else if call.runtime.currentness != Fresh || call.runtime.actor != call.grant.activeWork then Some(Outdated)
    else if !Authorized(call.contract.value, call.runtime.actor, call.intent.transition) then Some(Denied)
    else None
  }

  /** What the call makes of the obligation it found, or of none. */
  function Next(call: Call, found: Option<Obligation>): Result
    requires call.contract.Some?
  {
    if found.None? then Opening(call.contract.value, call.intent, call.Actor(), call.runtime.token, call.technical)
    else Advance(call.contract.value, found.value, call.intent, call.Actor(), call.runtime.token, call.technical,
        call.proof)
  }

  function Head(chain: seq<Obligation>): Option<Obligation> {
    if chain == [] then None else Some(chain[|chain| - 1])
  }

  /** The read half of `transition`: everything up to the insert. */
  function Decide(table: Table, call: Call): Result {
    if Refused(call).Some? then Result(Refused(call).value, None)
    else
      var chain := Chain(Select(table, call.intent.obligation));
      if chain.None? then Result(Undecided, None)
      else if chain.value != [] && chain.value[|chain.value| - 1].binding != call.contract.value
      then Result(Conflict, None)
      else Next(call, Head(chain.value))
  }

  function NewRow(call: Call, value: Obligation): Row {
    Row(call.intent.obligation, value.operation, value.generation, Some(value))
  }

  /** The two uniqueness constraints: primary key (obligation, generation), and the operation. */
  predicate Insertable(table: Table, r: Row) {
    forall i :: 0 <= i < |table| ==>
      table[i].operation != r.operation && (table[i].obligation != r.obligation || table[i].generation != r.generation)
  }

  /** The answer after a database error: whatever a fresh read shows. */
  function AfterError(table: Table, call: Call): Result {
    var replay := Get(table, call.intent.obligation);
    if replay.obligation.None? then Result(Undecided, None)
    else if replay.obligation.value.operation == call.intent.operation then
      Result(if replay.obligation.value.intent == IntentHash(call.intent, call.Actor()) then Replayed else Conflict,
             replay.obligation)
    else Result(Outdated, replay.obligation)
  }

  /** The write half: an insert that lands unless a constraint or a fault stops it, and is heard or not. */
  function Written(table: Table, r: Row, landed: bool): Table {
    if landed && Insertable(table, r) then table + [r] else table
  }

  function Answered(table: Table, call: Call, value: Obligation, landed: bool, heard: bool): Result {
    if landed && heard && Insertable(table, NewRow(call, value)) then Result(Applied, Some(value))
    else AfterError(Written(table, NewRow(call, value), landed), call)
  }

  // ---------------------------------------------------------------- the table as it is used

  /** The shared table. Each method is one step of some caller's transaction. */
  class Revisions {
    var table: Table

    constructor ()
      ensures table == []
    {
      table := [];
    }

    /** `_chain`, walking the rows with the digest of the one before. */
    method ReadChain(rows: seq<Row>) returns (chain: Option<seq<Obligation>>)
      ensures chain == Chain(rows)
    {
      hide Coherent, Sealed, Seal, Fits;
      var values: seq<Obligation> := [];
      var previous: Option<Digest> := None;
      for i := 0 to |rows|
        invariant |values| == i && previous == Before(rows, i)
        invariant forall j :: 0 <= j < i ==> Fits(rows, j) && rows[j].record == Some(values[j])
      {
        FitsMeans(rows, i);
        if rows[i].record.None? || !Coherent(rows[i].record.value) { return None; }
        var value := rows[i].record.value;
        if value.generation != i + 1 || value.predecessor != previous || value.operation != rows[i].operation
           || Seal(value).digest != value.digest
        {
          return None;
        }
        previous := Some(value.digest);
        values := values + [value];
      }
      assert values == Values(rows);
      chain := Some(values);
    }

    method ReadHead(id: ObligationId) returns (r: Result)
      ensures r == Get(table, id)
    {
      var chain := ReadChain(Select(table, id));
      if chain.None? { return Result(Undecided, None); }
      if chain.value == [] { return Result(Absent, None); }
      r := Result(Current, Some(chain.value[|chain.value| - 1]));
    }

    /** Reads, checks and decides, without writing. */
    method Begin(call: Call) returns (r: Result)
      ensures r == Decide(table, call)
    {
      var refused := Refused(call);
      if refused.Some? { return Result(refused.value, None); }
      var chain := ReadChain(Select(table, call.intent.obligation));
      if chain.None? { return Result(Undecided, None); }
      if chain.value == [] {
        r := Opening(call.contract.value, call.intent, call.Actor(), call.runtime.token, call.technical);
      } else {
        var head := chain.value[|chain.value| - 1];
        if head.binding != call.contract.value { return Result(Conflict, None); }
        r := Advance(call.contract.value, head, call.intent, call.Actor(), call.runtime.token, call.technical,
            call.proof);
      }
    }

    /** Inserts the decided revision. The table only ever grows at its end. */
    method Finish(call: Call, value: Obligation, landed: bool, heard: bool) returns (r: Result)
      modifies this
      ensures table == Written(old(table), NewRow(call, value), landed)
      ensures r == Answered(old(table), call, value, landed, heard)
    {
      var row := NewRow(call, value);
      var inserted := landed && Insertable(table, row);
      if inserted { table := table + [row]; }
      if inserted && heard { return Result(Applied, Some(value)); }
      var replay := ReadHead(call.intent.obligation);
      if replay.obligation.None? { return Result(Undecided, None); }
      var head := replay.obligation.value;
      if head.operation != call.intent.operation { return Result(Outdated, replay.obligation); }
      r := Result(if head.intent == IntentHash(call.intent, call.Actor()) then Replayed else Conflict,
                  replay.obligation);
    }
  }
}
