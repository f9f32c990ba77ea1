/** The seven request handlers: each builds one query, hands it to the
    backend, and turns the outcome into a status and a JSON body. The backend
    is a parameter `exec`; this layer never looks inside it. */
module Handlers {
  import opened Text
  import opened Events
  import opened Statements

  /** A row the backend returns for `returning *` or `select *`. */
  type Row = map<string, Param>

  /** What awaiting `pool.query` gives: the result rows, or a rejection. */
  datatype Outcome = Rows(rows: seq<Row>) | Failure

  /** The JSON body sent: one row, a list of rows, nothing (`undefined`), or
      the error object `{ message: ... }`. */
  datatype Body = One(row: Row) | Many(rows: seq<Row>) | Absent | ErrorMessage(message: string)

  datatype Response = Response(status: nat, body: Body)

  /** The inbound requests, one per handler, with the fields each reads. */
  datatype Request =
    | AddEvent(event: Event)
    | GetAllEvents
    | UpdateEvent(id: string, event: Event)
    | DeleteEvent(id: string)
    | PostBulk(events: seq<Event>)
    | GetCountry(country: string)
    | GetPaginated(page: int, pageSize: int)

  /** The one response every caught error produces. */
  const InternalError: Response := Response(500, ErrorMessage("Internal Server Error"))

  /** The handlers that answer 201 on success. */
  predicate Creates(r: Request)
  {
    r.AddEvent? || r.PostBulk?
  }

  /** The handlers that answer with `result.rows[0]` rather than all rows. */
  predicate AnswersOneRow(r: Request)
  {
    r.AddEvent? || r.UpdateEvent? || r.DeleteEvent?
  }

  /** The query each handler sends. */
  function QueryOf(r: Request): Query
  {
    match r
    case AddEvent(e) => InsertQuery(e)
    case GetAllEvents => AllQuery()
    case UpdateEvent(id, e) => UpdateQuery(id, e)
    case DeleteEvent(id) => DeleteQuery(id)
    case PostBulk(events) => BulkQuery(events)
    case GetCountry(country) => CountryQuery(country)
    case GetPaginated(page, pageSize) => PageQuery(page, pageSize)
  }

  /** `result.rows[0]`: absent when the statement matched no row. */
  function FirstRow(rows: seq<Row>): (b: Body)
    ensures b.Absent? <==> rows == []
    ensures b.One? ==> b.row == rows[0]
    ensures b.One? || b.Absent?
  {
    if rows == [] then Absent else One(rows[0])
  }

  /** The status and body a handler sends for the outcome of its query. */
  function Respond(r: Request, outcome: Outcome): (resp: Response)
    ensures resp.status == 500 <==> outcome.Failure?
    ensures outcome.Failure? ==> resp == InternalError
    ensures outcome.Rows? ==> resp.status == (if Creates(r) then 201 else 200)
    ensures outcome.Rows? && AnswersOneRow(r) ==> resp.body == FirstRow(outcome.rows)
    ensures outcome.Rows? && !AnswersOneRow(r) ==> resp.body == Many(outcome.rows)
  {
    match outcome
    case Failure => InternalError
    case Rows(rows) =>
      match r
      case AddEvent(_) => Response(201, FirstRow(rows))
      case GetAllEvents => Response(200, Many(rows))
      case UpdateEvent(_, _) => Response(200, FirstRow(rows))
      case DeleteEvent(_) => Response(200, FirstRow(rows))
      case PostBulk(_) => Response(201, Many(rows))
      case GetCountry(_) => Response(200, Many(rows))
      case GetPaginated(_, _) => Response(200, Many(rows))
  }

  /** A handler run against a backend. */
  function Handle(r: Request, exec: Query -> Outcome): Response
  {
    Respond(r, exec(QueryOf(r)))
  }

  /** Every query a handler sends binds `$1` .. `$n` once each, in order,
      where `n` is the length of its parameter array, and every mentioned
      parameter has a target. */
  lemma QueriesNumberTheirParameters(r: Request)
    ensures WellBound(QueryOf(r))
    ensures NumberedInOrder(Placeholders(QueryOf(r).statement), |QueryOf(r).params|)
  {
    match r
    case AddEvent(e) =>
      InsertLayout(e);
    case GetAllEvents =>
      AllQueryLayout();
    case UpdateEvent(id, e) =>
      UpdateNumbering(id, e);
    case DeleteEvent(id) =>
      DeleteLayout(id);
    case PostBulk(events) =>
      BulkLayout(events);
    case GetCountry(country) =>
      CountryLayout(country);
    case GetPaginated(page, pageSize) =>
      PageLayout(page, pageSize);
  }

  /** The text of every query a handler sends mentions exactly the
      parameters its structure binds, in the same order. */
  lemma QueryTextsMentionTheirParameters(r: Request)
    ensures PlaceholderNumbers(Sql(QueryOf(r).statement)) == Placeholders(QueryOf(r).statement)
  {
    var s := QueryOf(r).statement;
    ColumnsPlain();
    if r.UpdateEvent? {
      UpdateColumns(r.id, r.event);
    }
    assert PlainNames(s);
    SqlMentions(s);
  }

  /** Backend failures are indistinguishable to the caller: whatever the
      handler and whatever went wrong, the response is the same. */
  lemma FailuresLookAlike(r1: Request, exec1: Query -> Outcome, r2: Request, exec2: Query -> Outcome)
    requires exec1(QueryOf(r1)).Failure? && exec2(QueryOf(r2)).Failure?
    ensures Handle(r1, exec1) == Handle(r2, exec2) == InternalError
  {
  }

  /** Update and delete of an id that matches no row succeed with status 200
      and an absent body; they are not reported as errors. */
  lemma NoMatchIsAbsentSuccess(id: string, e: Event, exec: Query -> Outcome)
    ensures exec(UpdateQuery(id, e)) == Rows([]) ==> Handle(UpdateEvent(id, e), exec) == Response(200, Absent)
    ensures exec(DeleteQuery(id)) == Rows([]) ==> Handle(DeleteEvent(id), exec) == Response(200, Absent)
  {
  }

  /** A bulk-insert text whose VALUES list is empty. */
  predicate EmptyValues(s: Statement)
  {
    s.InsertMany? && ValuesList(s.groups) == ""
  }

  /** The backend refuses a bulk insert whose VALUES list is empty (it is a
      syntax error). */
  ghost predicate RejectsEmptyValues(exec: Query -> Outcome)
  {
    forall q: Query :: EmptyValues(q.statement) ==> exec(q).Failure?
  }

  /** Nothing guards an empty `events` list: the statement goes out with an
      empty VALUES list, and the only answer is the internal error. */
  lemma EmptyBulkIsInternalError(exec: Query -> Outcome)
    requires RejectsEmptyValues(exec)
    ensures EmptyValues(QueryOf(PostBulk([])).statement)
    ensures Handle(PostBulk([]), exec) == InternalError
  {
    EmptyValuesList([]);
  }

  /** A non-empty bulk insert never has an empty VALUES list, so that failure
      cannot come from the statement's shape. */
  lemma NonEmptyBulkHasValues(events: seq<Event>)
    requires events != []
    ensures !EmptyValues(QueryOf(PostBulk(events)).statement)
  {
    EmptyValuesList(events);
  }
}
