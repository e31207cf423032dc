/** The FastAPI route `GET /api/generate-sql?table_id=…` of the Python backend:
    it runs the generator and turns its outcome into an HTTP answer. */
module PySqlRoute {
  import opened Common
  import opened Ddl
  import opened PyOperations

  /** The state of the database the generator reaches: it answers queries
      over the store; or the driver rejects the query with an exception that
      is a `ValueError` (asyncpg's `DataError`, for instance, for an id
      outside the column's integer range), carrying its message; or the query
      fails with any other exception (a pool that is not open, a lost
      connection, a SQL error). */
  datatype Connection =
    | Available(db: Store)
    | Rejected(message: string)
    | Unavailable(reason: string)

  /** `detail` of the 500 answer for an unexpected exception. */
  function FailureDetail(reason: string): string {
    "Failed to generate SQL: " + reason
  }

  /** The route. `tableId` is the query parameter as FastAPI parsed it: `None`
      when it is missing or is not an integer, in which case FastAPI answers
      422 with its validation report before the handler runs. A `ValueError`
      (the generator's own "Table not found", or one the driver raises)
      becomes 404 with its message; any other exception becomes 500. */
  function GenerateSqlRoute(tableId: Option<int>, conn: Connection): (r: HttpResponse)
    ensures r.status == 422 <==> tableId.None?
    ensures r.status == 422 ==> r.body == ValidationReport
    ensures r.status == 200 <==> tableId.Some? && conn.Available? && tableId.value in conn.db.tables
    ensures r.status == 200 ==> r.body == QueryBody(GenerateSqlSpec(conn.db, tableId.value).value)
    ensures r.status == 404 <==>
              tableId.Some? && ((conn.Available? && tableId.value !in conn.db.tables) || conn.Rejected?)
    ensures r.status == 404 && conn.Available? ==> r.body == DetailBody("Table not found")
    ensures r.status == 404 && conn.Rejected? ==> r.body == DetailBody(conn.message)
    ensures r.status == 500 <==> tableId.Some? && conn.Unavailable?
    ensures r.status == 500 ==> r.body == DetailBody(FailureDetail(conn.reason))
    ensures r.status in {200, 404, 422, 500}
  {
    match tableId
    case None => HttpResponse(422, ValidationReport)
    case Some(id) =>
      match conn
      case Unavailable(reason) => HttpResponse(500, DetailBody(FailureDetail(reason)))
      case Rejected(message) => HttpResponse(404, DetailBody(message))
      case Available(db) =>
        match GenerateSqlSpec(db, id)
        case Ok(sql) => HttpResponse(200, QueryBody(sql))
        case Err(e) => HttpResponse(404, DetailBody(ErrorMessage(e)))
  }

  /** Every 200 answer carries a statement that begins with `CREATE TABLE `,
      the table's own name and ` (`, and every 404 names the missing table
      error; the route adds nothing to the generator's text. */
  lemma SuccessCarriesStatement(tableId: int, db: Store)
    requires tableId in db.tables
    ensures var r := GenerateSqlRoute(Some(tableId), Available(db));
            var header := "CREATE TABLE " + db.tables[tableId] + " (\n";
            && r.body.QueryBody?
            && |header| <= |r.body.query|
            && r.body.query[..|header|] == header
  {
    var header := "CREATE TABLE " + db.tables[tableId] + " (\n";
    var lines := ColumnLines(db, FieldIdsOf(db.fields, tableId));
    var stmt := header + Join(lines, ",\n") + "\n);";
    assert CreateTableStatement(db.tables[tableId], lines) == stmt;
    assert stmt[..|header|] == header;
  }
}
