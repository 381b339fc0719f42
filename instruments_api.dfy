/**
 * The `/api/instruments` route: list, create, update and delete instruments
 * in a table behind an ORM, with a retry-once policy for the pooled-connection
 * error whose text mentions "prepared statement", and ids sent over the wire
 * as decimal text.
 */
module InstrumentsApi {
  import opened Wrappers
  import opened JsString
  import opened JsBigInt

  /** The text that marks a pooled-connection conflict worth one retry. */
  const PreparedStatement := "prepared statement"

  /*
   * Errors the ORM raises on a healthy connection. Their exact wording is the
   * ORM's; what the handlers depend on is that none mentions a prepared
   * statement.
   */
  const NameMissing := "Argument `name` is missing."
  const NameNotText := "Argument `name`: Invalid value provided. Expected String."
  const NameNull := "Argument `name` must not be null."
  const UpdateNotFound := "Record to update not found."
  const DeleteNotFound := "Record to delete does not exist."

  /** A field of the parsed JSON request body: missing, `null`, a boolean, an integer or a text. */
  datatype Field = Absent | Null | Bool(b: bool) | Num(n: int) | Str(s: string)

  /** The fields of `requestData` the handlers read. */
  datatype Body = Body(id: Field, name: Field)

  /** A row of the `instruments` table as the ORM returns it. */
  datatype Row = Row(id: int, name: string)

  /** A row as the handlers send it: the id as decimal text. */
  datatype WireRow = WireRow(id: string, name: string)

  /** The table: name by id, and the next value of the identity column. */
  datatype Db = Db(rows: map<int, string>, nextId: int)

  /** Every stored id was handed out by the identity column. */
  predicate IdsBelowNext(db: Db)
  {
    forall k :: k in db.rows ==> k < db.nextId
  }

  /** What a handler asks of the ORM, before its arguments are evaluated. */
  datatype Op = FindAll | Create(name: Field) | Update(id: Field, name: Field) | Remove(id: Field)

  /** An ORM call whose arguments passed evaluation and validation. */
  datatype Query = ListAll | Insert(name: string) | SetName(id: int, newName: Option<string>) | DeleteRow(id: int)

  datatype Value = Listed(rows: seq<Row>) | Saved(row: Row) | Removed

  /** The store after one call and what the call returned or threw. */
  datatype Step = Step(db: Db, result: Result<Value, string>)

  /**
   * The connection's behaviour during one request: the error the first ORM
   * call throws, the error the disconnect/reconnect throws, and the error the
   * retried call throws (None: no error).
   */
  datatype Faults = Faults(first: Option<string>, reconnect: Option<string>, retry: Option<string>)

  const Healthy := Faults(None, None, None)

  datatype Outcome = Done(value: Value) | Failed(afterRetry: bool)

  datatype Run = Run(db: Db, outcome: Outcome, attempts: nat)

  datatype Payload = RowList(rows: seq<WireRow>) | OneRow(row: WireRow) | Message(text: string) | Error(text: string)

  datatype Response = Response(status: int, payload: Payload)

  /** The store after a request, the response, and how many times the handler's `try` body ran. */
  datatype Reply = Reply(db: Db, response: Response, attempts: nat)

  /** `BigInt(requestData.id)`, with the engine's error text when it throws. */
  function ToBigInt(f: Field): (r: Result<int, string>)
    ensures f.Num? ==> r == Success(f.n)
    ensures f.Bool? ==> r == Success(if f.b then 1 else 0)
    ensures f.Str? ==> (r.Success? <==> ParseBigInt(f.s).Some?)
    ensures f.Str? && r.Success? ==> ParseBigInt(f.s) == Some(r.value)
    ensures f.Absent? || f.Null? ==> r.Failure?
  {
    match f
    case Absent => Failure("Cannot convert undefined to a BigInt")
    case Null => Failure("Cannot convert null to a BigInt")
    case Bool(b) => Success(if b then 1 else 0)
    case Num(n) => Success(n)
    case Str(s) =>
      match ParseBigInt(s)
      case Some(n) => Success(n)
      case None => Failure("Cannot convert " + s + " to a BigInt")
  }

  /**
   * Evaluating the ORM call's arguments (`BigInt(requestData.id)`) and the
   * ORM's own argument validation, both of which throw before any query.
   */
  function Prepare(op: Op): (r: Result<Query, string>)
    ensures op.Create? && op.name.Str? ==> r == Success(Insert(op.name.s))
    ensures op.Create? && !op.name.Str? ==> r.Failure?
    ensures op.Remove? ==> (r.Success? <==> ToBigInt(op.id).Success?)
    ensures op.Update? ==> (r.Success? <==> ToBigInt(op.id).Success? && (op.name.Str? || op.name.Absent?))
  {
    match op
    case FindAll => Success(ListAll)
    case Create(name) =>
      (match name
       case Absent => Failure(NameMissing)
       case Null => Failure(NameNull)
       case Bool(_) => Failure(NameNotText)
       case Num(_) => Failure(NameNotText)
       case Str(n) => Success(Insert(n)))
    case Update(idField, name) =>
      (match ToBigInt(idField)
       case Failure(e) => Failure(e)
       case Success(id) =>
         (match name
          case Null => Failure(NameNull)
          case Bool(_) => Failure(NameNotText)
          case Num(_) => Failure(NameNotText)
          case Absent => Success(SetName(id, None))
          case Str(n) => Success(SetName(id, Some(n)))))
    case Remove(idField) =>
      (match ToBigInt(idField)
       case Failure(e) => Failure(e)
       case Success(id) => Success(DeleteRow(id)))
  }

  /** The rows of a table ordered by id ascending (`orderBy: { id: "asc" }`). */
  function OrderById(m: map<int, string>): (rs: seq<Row>)
    ensures |rs| == |m|
    ensures forall i :: 0 <= i < |rs| ==> rs[i].id in m && m[rs[i].id] == rs[i].name
    ensures forall i, j :: 0 <= i < j < |rs| ==> rs[i].id < rs[j].id
    decreases |m|
  {
    if m == map[] then []
    else
      var k := MinKey(m.Keys);
      var rest := OrderById(m - {k});
      [Row(k, m[k])] + rest
  }

  /** The least element of a non-empty set of ids. */
  function MinKey(s: set<int>): (k: int)
    requires s != {}
    ensures k in s && forall j :: j in s ==> k <= j
  {
    MinKeyExists(s);
    var k :| k in s && forall j :: j in s ==> k <= j;
    k
  }

  lemma {:induction false} MinKeyExists(s: set<int>)
    requires s != {}
    ensures exists k :: k in s && forall j :: j in s ==> k <= j
    decreases |s|
  {
    if forall y :: y !in s {
      assert false;
    }
    var x :| x in s;
    if s - {x} == {} {
      assert forall j :: j in s ==> j in s - {x} || j == x;
    } else {
      MinKeyExists(s - {x});
      var k :| k in s - {x} && forall j :: j in s - {x} ==> k <= j;
      var least := if x < k then x else k;
      assert forall j :: j in s ==> j == x || j in s - {x};
      assert least in s && forall j :: j in s ==> least <= j;
    }
  }

  /** Every stored row appears in the ordered listing. */
  lemma {:induction false} OrderByIdCovers(m: map<int, string>, k: int)
    requires k in m
    ensures Row(k, m[k]) in OrderById(m)
    decreases |m|
  {
    var least := MinKey(m.Keys);
    if k != least {
      OrderByIdCovers(m - {least}, k);
    }
  }

  /** The database running a validated query on a healthy connection. */
  function Execute(db: Db, q: Query): (st: Step)
    ensures st.result.Failure? ==> st.db == db
    ensures IdsBelowNext(db) ==> IdsBelowNext(st.db)
  {
    match q
    case ListAll => Step(db, Success(Listed(OrderById(db.rows))))
    case Insert(name) =>
      Step(Db(db.rows[db.nextId := name], db.nextId + 1), Success(Saved(Row(db.nextId, name))))
    case SetName(id, name) =>
      if id !in db.rows then Step(db, Failure(UpdateNotFound))
      else
        var newName := if name.Some? then name.value else db.rows[id];
        Step(Db(db.rows[id := newName], db.nextId), Success(Saved(Row(id, newName))))
    case DeleteRow(id) =>
      if id !in db.rows then Step(db, Failure(DeleteNotFound))
      else Step(Db(db.rows - {id}, db.nextId), Success(Removed))
  }

  /** One run of a handler's `try` body: evaluate the arguments, then call the ORM. */
  function Attempt(db: Db, op: Op, fault: Option<string>): (st: Step)
    ensures st.result.Failure? ==> st.db == db
    ensures IdsBelowNext(db) ==> IdsBelowNext(st.db)
  {
    match Prepare(op)
    case Failure(e) => Step(db, Failure(e))
    case Success(q) => if fault.Some? then Step(db, Failure(fault.value)) else Execute(db, q)
  }

  /** The first attempt failed with an error worth a reconnect and a retry. */
  predicate Transient(db: Db, op: Op, f: Faults)
  {
    Attempt(db, op, f.first).result.Failure? && Includes(Attempt(db, op, f.first).result.error, PreparedStatement)
  }

  /**
   * The retry-once policy: a first failure whose text mentions a prepared
   * statement leads to a reconnect and exactly one more attempt of the same
   * operation; any other first failure is final.
   */
  function RunWithRetry(db: Db, op: Op, f: Faults): (r: Run)
    ensures 1 <= r.attempts <= 2
    ensures Attempt(db, op, f.first).result.Success? ==>
      r == Run(Attempt(db, op, f.first).db, Done(Attempt(db, op, f.first).result.value), 1)
    ensures r.attempts == 2 <==> Transient(db, op, f) && f.reconnect.None?
    ensures r.outcome == Failed(true) <==>
      Transient(db, op, f) && (f.reconnect.Some? || Attempt(db, op, f.retry).result.Failure?)
    ensures r.outcome == Failed(false) <==>
      Attempt(db, op, f.first).result.Failure? && !Transient(db, op, f)
    ensures r.outcome.Done? <==>
      Attempt(db, op, f.first).result.Success? ||
      (Transient(db, op, f) && f.reconnect.None? && Attempt(db, op, f.retry).result.Success?)
    ensures r.attempts == 2 && r.outcome.Done? ==>
      r == Run(Attempt(db, op, f.retry).db, Done(Attempt(db, op, f.retry).result.value), 2)
    ensures r.outcome.Failed? ==> r.db == db
    ensures r.outcome == Failed(false) ==> r == Run(db, Failed(false), 1)
  {
    var a := Attempt(db, op, f.first);
    if a.result.Success? then Run(a.db, Done(a.result.value), 1)
    else if !Includes(a.result.error, PreparedStatement) then Run(a.db, Failed(false), 1)
    else if f.reconnect.Some? then Run(a.db, Failed(true), 1)
    else
      var b := Attempt(a.db, op, f.retry);
      if b.result.Success? then Run(b.db, Done(b.result.value), 2) else Run(b.db, Failed(true), 2)
  }

  function ToWire(r: Row): WireRow
  {
    WireRow(ToDecimal(r.id), r.name)
  }

  /** `instruments.map(i => ({...i, id: i.id.toString()}))`. */
  function Serialize(rs: seq<Row>): (ws: seq<WireRow>)
    ensures |ws| == |rs|
    ensures forall i :: 0 <= i < |rs| ==> ws[i] == ToWire(rs[i])
  {
    seq(|rs|, i requires 0 <= i < |rs| => ToWire(rs[i]))
  }

  function Action(op: Op): string
  {
    match op
    case FindAll => "fetch instruments"
    case Create(_) => "create instrument"
    case Update(_, _) => "update instrument"
    case Remove(_) => "delete instrument"
  }

  /** The JSON response a handler sends for the outcome of its store calls. */
  function Render(op: Op, out: Outcome): (resp: Response)
    ensures resp.status == 200 <==> out.Done?
    ensures out == Failed(false) ==> resp == Response(500, Error("Failed to " + Action(op)))
    ensures out == Failed(true) ==> resp == Response(500, Error("Failed to " + Action(op) + " after retry"))
  {
    match out
    case Done(Listed(rs)) => Response(200, RowList(Serialize(rs)))
    case Done(Saved(r)) => Response(200, OneRow(ToWire(r)))
    case Done(Removed) => Response(200, Message("Instrument deleted"))
    case Failed(false) => Response(500, Error("Failed to " + Action(op)))
    case Failed(true) => Response(500, Error("Failed to " + Action(op) + " after retry"))
  }

  const BadRequest := Response(400, Error("Invalid request data"))

  function Respond(db: Db, op: Op, f: Faults): (r: Reply)
    ensures 1 <= r.attempts <= 2
  {
    var run := RunWithRetry(db, op, f);
    Reply(run.db, Render(op, run.outcome), run.attempts)
  }

  /** GET: never changes the table; on success, every row ordered by id with its id as text. */
  function GetReply(db: Db, f: Faults): (r: Reply)
    ensures r.db == db
    ensures f.first.None? ==>
      r.response == Response(200, RowList(Serialize(OrderById(db.rows)))) && r.attempts == 1
    ensures r.response.status == 200 ==> r.response.payload == RowList(Serialize(OrderById(db.rows)))
    ensures r.response.status != 200 ==> r.response.status == 500
  {
    Respond(db, FindAll, f)
  }

  /** POST: on success exactly one row is added under the next id, with the requested name. */
  function PostReply(db: Db, body: Option<Body>, f: Faults): (r: Reply)
    ensures body.None? ==> r == Reply(db, BadRequest, 0)
    ensures r.response.status == 200 ==>
      body.Some? && body.value.name.Str? &&
      r.db == Db(db.rows[db.nextId := body.value.name.s], db.nextId + 1) &&
      r.response.payload == OneRow(WireRow(ToDecimal(db.nextId), body.value.name.s))
    ensures body.Some? && body.value.name.Str? && f.first.None? ==>
      r.response.status == 200 && r.attempts == 1
    ensures r.response.status != 200 ==> r.db == db
  {
    if body.None? then Reply(db, BadRequest, 0) else Respond(db, Create(body.value.name), f)
  }

  /** PUT: on success only the named row changes, and only its name. */
  function PutReply(db: Db, body: Option<Body>, f: Faults): (r: Reply)
    ensures body.None? ==> r == Reply(db, BadRequest, 0)
    ensures r.response.status == 200 ==>
      body.Some? && ToBigInt(body.value.id).Success? &&
      (body.value.name.Str? || body.value.name.Absent?) &&
      var id := ToBigInt(body.value.id).value;
      id in db.rows &&
      var name := if body.value.name.Str? then body.value.name.s else db.rows[id];
      r.db == Db(db.rows[id := name], db.nextId) &&
      r.response.payload == OneRow(WireRow(ToDecimal(id), name))
    ensures r.response.status != 200 ==> r.db == db
  {
    if body.None? then Reply(db, BadRequest, 0) else Respond(db, Update(body.value.id, body.value.name), f)
  }

  /** DELETE: on success exactly the named row is gone. */
  function DeleteReply(db: Db, body: Option<Body>, f: Faults): (r: Reply)
    ensures body.None? ==> r == Reply(db, BadRequest, 0)
    ensures r.response.status == 200 ==>
      body.Some? && ToBigInt(body.value.id).Success? &&
      var id := ToBigInt(body.value.id).value;
      id in db.rows &&
      r.db == Db(db.rows - {id}, db.nextId) &&
      r.response.payload == Message("Instrument deleted")
    ensures r.response.status != 200 ==> r.db == db
  {
    if body.None? then Reply(db, BadRequest, 0) else Respond(db, Remove(body.value.id), f)
  }

  /** The id a successful POST hands out was never used, and every older row is kept. */
  lemma CreatedIdIsFresh(db: Db, body: Option<Body>, f: Faults)
    requires IdsBelowNext(db)
    requires PostReply(db, body, f).response.status == 200
    ensures db.nextId !in db.rows
    ensures forall k :: k in db.rows ==> k in PostReply(db, body, f).db.rows && PostReply(db, body, f).db.rows[k] == db.rows[k]
    ensures IdsBelowNext(PostReply(db, body, f).db)
  {
  }

  /** Every row appears in a successful listing, under the text of its id. */
  lemma ListingIsComplete(db: Db, k: int)
    requires k in db.rows
    ensures WireRow(ToDecimal(k), db.rows[k]) in Serialize(OrderById(db.rows))
  {
    OrderByIdCovers(db.rows, k);
    var rs := OrderById(db.rows);
    var i :| 0 <= i < |rs| && rs[i] == Row(k, db.rows[k]);
    assert Serialize(rs)[i] == WireRow(ToDecimal(k), db.rows[k]);
  }

  /** Each listed id text parses back to a stored id, and the listed name is that row's name. */
  lemma ListingParsesBack(db: Db, i: int)
    requires 0 <= i < |db.rows|
    ensures var ws := Serialize(OrderById(db.rows));
      ParseBigInt(ws[i].id).Some? &&
      ParseBigInt(ws[i].id).value in db.rows && db.rows[ParseBigInt(ws[i].id).value] == ws[i].name
  {
    RoundTrip(OrderById(db.rows)[i].id);
  }

  /** The listed id texts parse back to ascending ids. */
  lemma ListingParsesAscending(db: Db, i: int, j: int)
    requires 0 <= i < j < |db.rows|
    ensures var ws := Serialize(OrderById(db.rows));
      ParseBigInt(ws[i].id).Some? && ParseBigInt(ws[j].id).Some? &&
      ParseBigInt(ws[i].id).value < ParseBigInt(ws[j].id).value
  {
    var rs := OrderById(db.rows);
    RoundTrip(rs[i].id);
    RoundTrip(rs[j].id);
  }

  /** A PUT that echoes an id text from a listing renames that very row. */
  lemma EchoedIdRenamesSameRow(db: Db, k: int, name: string)
    requires k in db.rows
    ensures var r := PutReply(db, Some(Body(Str(ToDecimal(k)), Str(name))), Healthy);
      r.response == Response(200, OneRow(WireRow(ToDecimal(k), name))) &&
      r.db == Db(db.rows[k := name], db.nextId) && r.attempts == 1
  {
    RoundTrip(k);
  }

  /** A DELETE that echoes an id text from a listing removes that very row. */
  lemma EchoedIdDeletesSameRow(db: Db, k: int)
    requires k in db.rows
    ensures var r := DeleteReply(db, Some(Body(Str(ToDecimal(k)), Absent)), Healthy);
      r.response == Response(200, Message("Instrument deleted")) &&
      r.db == Db(db.rows - {k}, db.nextId)
  {
    RoundTrip(k);
  }

  /** Deleting an id that is not stored fails with a 500 whatever the connection does. */
  lemma DeleteMissingRowFails(db: Db, body: Body, f: Faults)
    requires ToBigInt(body.id).Success? && ToBigInt(body.id).value !in db.rows
    ensures DeleteReply(db, Some(body), f).response.status == 500
    ensures DeleteReply(db, Some(body), f).db == db
  {
  }

  /** On a healthy connection a missing row is reported at once, without a retry. */
  lemma UpdateMissingRowNotRetried(db: Db, body: Body)
    requires ToBigInt(body.id).Success? && ToBigInt(body.id).value !in db.rows &&
      (body.name.Str? || body.name.Absent?)
    ensures PutReply(db, Some(body), Healthy) == Reply(db, Response(500, Error("Failed to update instrument")), 1)
  {
    var op := Update(body.id, body.name);
    NotFoundIsNotTransient();
    var id := ToBigInt(body.id).value;
    assert Prepare(op) == Success(SetName(id, if body.name.Str? then Some(body.name.s) else None));
    assert Attempt(db, op, None) == Step(db, Failure(UpdateNotFound));
    assert RunWithRetry(db, op, Healthy) == Run(db, Failed(false), 1);
    assert PutReply(db, Some(body), Healthy) == Respond(db, op, Healthy);
    assert "Failed to " + Action(op) == "Failed to update instrument";
  }

  /** The ORM's not-found errors do not mention a prepared statement. */
  lemma NotFoundIsNotTransient()
    ensures !Includes(UpdateNotFound, PreparedStatement)
    ensures !Includes(DeleteNotFound, PreparedStatement)
  {
    assert PreparedStatement[9] == 's' && PreparedStatement[0] == 'p';
    MissingCharExcludes(UpdateNotFound, PreparedStatement, 's');
    MissingCharExcludes(DeleteNotFound, PreparedStatement, 'p');
  }

  /**
   * The retry test reads the text of any error thrown in the `try` body,
   * including the engine's complaint about an id that is not an integer, and
   * that complaint quotes the id: an id text mentioning a prepared statement
   * makes a PUT reconnect and run its body twice.
   */
  lemma IdTextCanTriggerRetry(db: Db, s: string, name: Field)
    requires ParseBigInt(s).None? && Includes(s, PreparedStatement)
    ensures PutReply(db, Some(Body(Str(s), name)), Healthy) ==
      Reply(db, Response(500, Error("Failed to update instrument after retry")), 2)
  {
    var op := Update(Str(s), name);
    IncludesWidens("Cannot convert ", s, " to a BigInt", PreparedStatement);
    assert Attempt(db, op, None) == Step(db, Failure("Cannot convert " + s + " to a BigInt"));
    assert RunWithRetry(db, op, Healthy) == Run(db, Failed(true), 2);
    assert "Failed to " + Action(op) + " after retry" == "Failed to update instrument after retry";
  }

  /**
   * A prepared-statement error on the first call, followed by a clean
   * reconnect and retry, leaves the same table and the same success as a
   * request that met no fault at all.
   */
  lemma TransientFaultIsInvisible(db: Db, op: Op, m: string)
    requires Includes(m, PreparedStatement)
    ensures var faulty := RunWithRetry(db, op, Faults(Some(m), None, None));
      var clean := RunWithRetry(db, op, Healthy);
      faulty.db == clean.db && (faulty.outcome.Done? <==> clean.outcome.Done?) &&
      (clean.outcome.Done? ==> faulty.outcome == clean.outcome)
  {
  }

  /**
   * The end-to-end scenario: create "Grand Piano", rename it through the id
   * text the create returned, delete it through the same text; the table ends
   * with the rows it started with and the listing shows no row under that id.
   */
  lemma PianoScenario(db: Db)
    requires IdsBelowNext(db)
    ensures var created := PostReply(db, Some(Body(Absent, Str("Grand Piano"))), Healthy);
      var t := ToDecimal(db.nextId);
      created.response == Response(200, OneRow(WireRow(t, "Grand Piano"))) &&
      var renamed := PutReply(created.db, Some(Body(Str(t), Str("Upright Piano"))), Healthy);
      renamed.response == Response(200, OneRow(WireRow(t, "Upright Piano"))) &&
      var deleted := DeleteReply(renamed.db, Some(Body(Str(t), Absent)), Healthy);
      deleted.response == Response(200, Message("Instrument deleted")) &&
      deleted.db.rows == db.rows &&
      forall w :: w in Serialize(OrderById(deleted.db.rows)) ==> w.id != t
  {
    var k := db.nextId;
    RoundTrip(k);
    var created := PostReply(db, Some(Body(Absent, Str("Grand Piano"))), Healthy);
    EchoedIdRenamesSameRow(created.db, k, "Upright Piano");
    var renamed := PutReply(created.db, Some(Body(Str(ToDecimal(k)), Str("Upright Piano"))), Healthy);
    EchoedIdDeletesSameRow(renamed.db, k);
    var deleted := DeleteReply(renamed.db, Some(Body(Str(ToDecimal(k)), Absent)), Healthy);
    assert deleted.db.rows == db.rows;
    var ws := Serialize(OrderById(db.rows));
    forall w | w in ws ensures w.id != ToDecimal(k) {
      var i :| 0 <= i < |ws| && ws[i] == w;
      if w.id == ToDecimal(k) {
        ToDecimalInjective(OrderById(db.rows)[i].id, k);
        assert false;
      }
    }
  }

  /** The route's handlers over the `instruments` table they share. */
  class InstrumentService {
    var rows: map<int, string>
    var nextId: int

    function State(): Db
      reads this
    {
      Db(rows, nextId)
    }

    ghost predicate Valid()
      reads this
    {
      IdsBelowNext(State())
    }

    constructor (db: Db)
      requires IdsBelowNext(db)
      ensures Valid() && State() == db
    {
      rows := db.rows;
      nextId := db.nextId;
    }

    /** The database running a validated query. */
    method RunQuery(q: Query) returns (r: Result<Value, string>)
      requires Valid()
      modifies this
      ensures Valid()
      ensures Step(State(), r) == Execute(old(State()), q)
    {
      match q {
        case ListAll =>
          r := Success(Listed(OrderById(rows)));
        case Insert(name) =>
          var id := nextId;
          rows := rows[id := name];
          nextId := nextId + 1;
          r := Success(Saved(Row(id, name)));
        case SetName(id, name) =>
          if id !in rows {
            r := Failure(UpdateNotFound);
          } else {
            if name.Some? {
              rows := rows[id := name.value];
            }
            r := Success(Saved(Row(id, rows[id])));
          }
        case DeleteRow(id) =>
          if id !in rows {
            r := Failure(DeleteNotFound);
          } else {
            rows := rows - {id};
            r := Success(Removed);
          }
      }
    }

    /** One run of a handler's `try` body. */
    method Call(op: Op, fault: Option<string>) returns (r: Result<Value, string>)
      requires Valid()
      modifies this
      ensures Valid()
      ensures Step(State(), r) == Attempt(old(State()), op, fault)
    {
      var q := Prepare(op);
      if q.Failure? {
        return Failure(q.error);
      }
      if fault.Some? {
        return Failure(fault.value);
      }
      r := RunQuery(q.value);
    }

    /** The `try`/`catch` of every handler: one call, and one retry after a reconnect. */
    method WithRetry(op: Op, f: Faults) returns (out: Outcome, attempts: nat)
      requires Valid()
      modifies this
      ensures Valid()
      ensures Run(State(), out, attempts) == RunWithRetry(old(State()), op, f)
    {
      var r := Call(op, f.first);
      attempts := 1;
      if r.Success? {
        return Done(r.value), attempts;
      }
      if !Includes(r.error, PreparedStatement) {
        return Failed(false), attempts;
      }
      // $disconnect, a one-second pause, $connect
      if f.reconnect.Some? {
        return Failed(true), attempts;
      }
      r := Call(op, f.retry);
      attempts := 2;
      out := if r.Success? then Done(r.value) else Failed(true);
    }

    method Get(f: Faults) returns (response: Response, attempts: nat)
      requires Valid()
      modifies this
      ensures Valid()
      ensures Reply(State(), response, attempts) == GetReply(old(State()), f)
    {
      var out;
      out, attempts := WithRetry(FindAll, f);
      response := Render(FindAll, out);
    }

    method Post(body: Option<Body>, f: Faults) returns (response: Response, attempts: nat)
      requires Valid()
      modifies this
      ensures Valid()
      ensures Reply(State(), response, attempts) == PostReply(old(State()), body, f)
    {
      if body.None? {
        return BadRequest, 0;
      }
      var op := Create(body.value.name);
      var out;
      out, attempts := WithRetry(op, f);
      response := Render(op, out);
    }

    method Put(body: Option<Body>, f: Faults) returns (response: Response, attempts: nat)
      requires Valid()
      modifies this
      ensures Valid()
      ensures Reply(State(), response, attempts) == PutReply(old(State()), body, f)
    {
      if body.None? {
        return BadRequest, 0;
      }
      var op := Update(body.value.id, body.value.name);
      var out;
      out, attempts := WithRetry(op, f);
      response := Render(op, out);
    }

    method Delete(body: Option<Body>, f: Faults) returns (response: Response, attempts: nat)
      requires Valid()
      modifies this
      ensures Valid()
      ensures Reply(State(), response, attempts) == DeleteReply(old(State()), body, f)
    {
      if body.None? {
        return BadRequest, 0;
      }
      var op := Remove(body.value.id);
      var out;
      out, attempts := WithRetry(op, f);
      response := Render(op, out);
    }
  }
}
