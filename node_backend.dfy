/** The Express backend: its `GET /api/generate-sql` handler with the
    `getSQLType` lookup, and the normalisation the table and field POST/PUT
    handlers apply to a request body before passing its values to the
    database. Query results are given to the model as values. */
module NodeBackend {
  import opened Common
  import opened Js
  import opened Ddl
  import PyOperations

  /** What a `pool.query` call yields: its rows, in the order the driver
      returns them, or a failure. */
  datatype QueryResult<T> = Rows(rows: seq<T>) | QueryFailed(message: string)

  // ------------------------------------------------------ generate-sql

  /** `getSQLType`: `rows[0]?.datatype_name || 'TEXT'`. `names` maps a
      datatype id to its `datatype_name` column (`None` for NULL); an id
      without a row is absent. Any falsy name (no row, NULL, '') falls back. */
  function NodeSqlType(names: map<int, Option<string>>, datatypeId: int): (t: string)
    ensures t != ""
    ensures t != "TEXT" ==> datatypeId in names && names[datatypeId] == Some(t)
    ensures datatypeId in names && names[datatypeId].Some? && names[datatypeId].value != ""
            ==> t == names[datatypeId].value
  {
    if datatypeId in names && names[datatypeId].Some? && names[datatypeId].value != "" then
      names[datatypeId].value
    else "TEXT"
  }

  /** The line built in the `fields.map` callback for one field row. */
  function NodeColumnLine(f: FieldRow, names: map<int, Option<string>>): string {
    ColumnLine(f, NodeSqlType(names, f.fieldDatatypeId))
  }

  /** `Promise.all(fields.map(...))`: one line per row, in the rows' order. */
  function NodeColumnLines(fields: seq<FieldRow>, names: map<int, Option<string>>): (lines: seq<string>)
    ensures |lines| == |fields|
    ensures forall i :: 0 <= i < |fields| ==> lines[i] == NodeColumnLine(fields[i], names)
  {
    seq(|fields|, i requires 0 <= i < |fields| => NodeColumnLine(fields[i], names))
  }

  /** What the handler answers, as a value. `tableIdParam` is
      `req.query.table_id`; the two query results are those of the table
      and field queries (rows of `all_table` reduced to their `table_name`). */
  function GenerateSqlSpec(tableIdParam: JsValue, tableQuery: QueryResult<string>,
                           fieldsQuery: QueryResult<FieldRow>, names: map<int, Option<string>>): HttpResponse
  {
    if !Truthy(tableIdParam) then HttpResponse(400, ErrorBody("Missing table_id"))
    else if tableQuery.QueryFailed? || fieldsQuery.QueryFailed? || tableQuery.rows == [] then
      HttpResponse(500, ErrorBody("Internal server error"))
    else
      HttpResponse(200, QueryBody(CreateTableStatement(tableQuery.rows[0], NodeColumnLines(fieldsQuery.rows, names))))
  }

  /** The handler: a falsy `table_id` answers 400 before any query; a failed
      query, or a table query with no row (reading `table_name` of
      `undefined` throws), answers 500; otherwise the statement is built by
      appending to `sql`. */
  method GenerateSqlHandler(tableIdParam: JsValue, tableQuery: QueryResult<string>,
                            fieldsQuery: QueryResult<FieldRow>, names: map<int, Option<string>>)
    returns (r: HttpResponse)
    ensures r == GenerateSqlSpec(tableIdParam, tableQuery, fieldsQuery, names)
    ensures r.status == 400 <==> !Truthy(tableIdParam)
    ensures r.status == 400 ==> r.body == ErrorBody("Missing table_id")
    ensures r.status == 500 <==>
              (Truthy(tableIdParam) && (tableQuery.QueryFailed? || fieldsQuery.QueryFailed? || tableQuery.rows == []))
    ensures r.status == 500 ==> r.body == ErrorBody("Internal server error")
    ensures r.status == 200 <==> Truthy(tableIdParam) && tableQuery.Rows? && fieldsQuery.Rows? && tableQuery.rows != []
    ensures r.status == 200 ==>
              r.body == QueryBody(CreateTableStatement(tableQuery.rows[0], NodeColumnLines(fieldsQuery.rows, names)))
  {
    if !Truthy(tableIdParam) {
      return HttpResponse(400, ErrorBody("Missing table_id"));
    }
    if tableQuery.QueryFailed? || fieldsQuery.QueryFailed? {
      return HttpResponse(500, ErrorBody("Internal server error"));
    }
    if tableQuery.rows == [] {
      return HttpResponse(500, ErrorBody("Internal server error"));
    }
    var tableName := tableQuery.rows[0];
    var fields := fieldsQuery.rows;
    var sql := "CREATE TABLE " + tableName + " (\n";
    var columnLines := NodeColumnLines(fields, names);
    sql := sql + Join(columnLines, ",\n") + "\n);";
    r := HttpResponse(200, QueryBody(sql));
  }

  // ---------------------------------------------- generate-sql lemmas

  /** The i-th column row of the answer comes from the i-th row the field
      query returned: the text follows the driver's order. */
  lemma NodeRowsFollowQueryOrder(tableIdParam: JsValue, tableName: string, fields: seq<FieldRow>,
                                 names: map<int, Option<string>>)
    requires Truthy(tableIdParam) && '\n' !in tableName
    requires forall i :: 0 <= i < |fields| ==> '\n' !in fields[i].fieldName
    requires forall d :: d in names && names[d].Some? ==> '\n' !in names[d].value
    ensures var rows := SplitLines(GenerateSqlSpec(tableIdParam, Rows([tableName]), Rows(fields), names).body.query);
            && |rows| == (if fields == [] then 3 else |fields| + 2)
            && forall i :: 0 <= i < |fields| ==>
                 rows[i + 1] == NodeColumnLine(fields[i], names) + (if i < |fields| - 1 then "," else "")
  {
    var lines := NodeColumnLines(fields, names);
    forall i | 0 <= i < |lines| ensures '\n' !in lines[i] {
      var t := NodeSqlType(names, fields[i].fieldDatatypeId);
      assert '\n' !in t;
      ColumnLineIsOneRow(fields[i], t);
    }
    StatementRows(tableName, lines);
  }

  /** The field rows of `fields` with keys `ids`, in that order. */
  function RowsOf(fields: map<int, FieldRow>, ids: seq<int>): (rows: seq<FieldRow>)
    requires forall i :: 0 <= i < |ids| ==> ids[i] in fields
    ensures |rows| == |ids|
    ensures forall i :: 0 <= i < |ids| ==> rows[i] == fields[ids[i]]
  {
    seq(|ids|, i requires 0 <= i < |ids| => fields[ids[i]])
  }

  /** Datatype names that agree with the postgresql types, all non-empty. */
  predicate AgreeingNames(db: PyOperations.Store, names: map<int, Option<string>>) {
    && names.Keys == db.postgresql.Keys
    && forall d :: d in db.postgresql ==>
         (db.postgresql[d].Some? && db.postgresql[d].value != "" && names[d] == db.postgresql[d])
  }

  lemma SameLine(db: PyOperations.Store, names: map<int, Option<string>>, k: int)
    requires AgreeingNames(db, names) && k in db.fields
    ensures PyOperations.FieldLine(db, k) == NodeColumnLine(db.fields[k], names)
  {
    var d := db.fields[k].fieldDatatypeId;
    assert d in db.postgresql <==> d in names;
  }

  /** When the field query happens to return the rows in ascending key order
      and every datatype has a non-empty name that equals its postgresql
      type, both backends produce the same statement. */
  lemma NodeMatchesPython(tableIdParam: JsValue, db: PyOperations.Store, tableId: int,
                          names: map<int, Option<string>>)
    requires Truthy(tableIdParam) && tableId in db.tables && AgreeingNames(db, names)
    ensures var rows := RowsOf(db.fields, PyOperations.FieldIdsOf(db.fields, tableId));
            GenerateSqlSpec(tableIdParam, Rows([db.tables[tableId]]), Rows(rows), names).body
            == QueryBody(PyOperations.GenerateSqlSpec(db, tableId).value)
  {
    var ids := PyOperations.FieldIdsOf(db.fields, tableId);
    var rows := RowsOf(db.fields, ids);
    var nodeLines := NodeColumnLines(rows, names);
    var pyLines := PyOperations.ColumnLines(db, ids);
    forall i | 0 <= i < |ids| ensures nodeLines[i] == pyLines[i] {
      SameLine(db, names, ids[i]);
    }
    assert nodeLines == pyLines;
  }

  /** Where the backends part: a datatype row whose type column is NULL is
      written as `None` by the Python backend and as `TEXT` by this one. */
  lemma NullTypeDiverges(db: PyOperations.Store, k: int, names: map<int, Option<string>>)
    requires k in db.fields
    requires db.fields[k].fieldDatatypeId in db.postgresql && db.postgresql[db.fields[k].fieldDatatypeId] == None
    requires db.fields[k].fieldDatatypeId in names && names[db.fields[k].fieldDatatypeId] == None
    ensures PyOperations.FieldLine(db, k) == ColumnLine(db.fields[k], "None")
    ensures NodeColumnLine(db.fields[k], names) == ColumnLine(db.fields[k], "TEXT")
  {
  }

  /** Where the backends part: a missing table is 404 for the Python route
      but 500 here, since this handler reads `table_name` of a missing row. */
  lemma MissingTableIsInternalError(tableIdParam: JsValue, fieldsQuery: QueryResult<FieldRow>,
                                    names: map<int, Option<string>>)
    requires Truthy(tableIdParam)
    ensures GenerateSqlSpec(tableIdParam, Rows([]), fieldsQuery, names)
         == HttpResponse(500, ErrorBody("Internal server error"))
  {
  }

  // ------------------------------------------- request normalisation

  /** `if (generated_date === '') generated_date = null`. */
  function EmptyDateToNull(v: JsValue): (r: JsValue)
    ensures v == Str("") ==> r == Null
    ensures v != Str("") ==> r == v
    ensures r != Str("")
  {
    if v == Str("") then Null else v
  }

  /** The five values `POST /api/tables` inserts, in column order:
      project_id, table_name, table_description, is_generated, generated_date. */
  method TableCreateParams(body: map<string, JsValue>) returns (params: seq<JsValue>)
    ensures |params| == 5
    ensures params[0] == Prop(body, "project_id")
    ensures params[1] == Prop(body, "table_name")
    ensures params[2] == Prop(body, "table_description")
    ensures params[3] == (if "is_generated" in body && body["is_generated"] != Undefined
                          then body["is_generated"] else Bool(false))
    ensures params[4] == EmptyDateToNull(Prop(body, "generated_date"))
  {
    var isGenerated := DefaultTo(Prop(body, "is_generated"), Bool(false));
    var generatedDate := Prop(body, "generated_date");
    if generatedDate == Str("") {
      generatedDate := Null;
    }
    params := [Prop(body, "project_id"), Prop(body, "table_name"), Prop(body, "table_description"),
               isGenerated, generatedDate];
  }

  /** The five values `PUT /api/tables/:id` writes: table_name,
      table_description, is_generated (no default here), generated_date, and
      the id from the path. */
  method TableUpdateParams(body: map<string, JsValue>, id: string) returns (params: seq<JsValue>)
    ensures |params| == 5
    ensures params[0] == Prop(body, "table_name")
    ensures params[1] == Prop(body, "table_description")
    ensures params[2] == Prop(body, "is_generated")
    ensures params[3] == EmptyDateToNull(Prop(body, "generated_date"))
    ensures params[4] == Str(id)
  {
    var generatedDate := Prop(body, "generated_date");
    if generatedDate == Str("") {
      generatedDate := Null;
    }
    params := [Prop(body, "table_name"), Prop(body, "table_description"), Prop(body, "is_generated"),
               generatedDate, Str(id)];
  }

  /** The keys of a field body, in the order of the ten insert parameters. */
  const FieldKeys: seq<string> := ["table_id", "field_name", "field_datatype_id", "is_primary",
    "field_label", "display_name", "is_auto_increment", "is_foreign_key",
    "reference_table_id", "reference_table_field_id"]

  /** Positions of FieldKeys whose absent value defaults to false. */
  predicate IsFlagPosition(i: int) { i == 3 || i == 6 || i == 7 }

  /** Positions of FieldKeys whose falsy value becomes null. */
  predicate IsNullablePosition(i: int) { i == 4 || i == 5 || i == 8 || i == 9 }

  /** The ten values `POST /api/fields` inserts: the flags default to false
      when absent, a falsy label, display name or reference id becomes null,
      and the other values pass through. */
  function FieldParams(body: map<string, JsValue>): (params: seq<JsValue>)
    ensures |params| == |FieldKeys| == 10
    ensures forall i :: 0 <= i < 10 && IsFlagPosition(i) ==>
              params[i] == (if Prop(body, FieldKeys[i]) == Undefined then Bool(false) else Prop(body, FieldKeys[i]))
    ensures forall i :: 0 <= i < 10 && IsNullablePosition(i) ==>
              (params[i] == Null <==> !Truthy(Prop(body, FieldKeys[i])))
              && (params[i] != Null ==> params[i] == Prop(body, FieldKeys[i]))
    ensures forall i :: 0 <= i < 10 && !IsFlagPosition(i) && !IsNullablePosition(i) ==>
              params[i] == Prop(body, FieldKeys[i])
  {
    [ Prop(body, "table_id"),
      Prop(body, "field_name"),
      Prop(body, "field_datatype_id"),
      DefaultTo(Prop(body, "is_primary"), Bool(false)),
      OrNull(Prop(body, "field_label")),
      OrNull(Prop(body, "display_name")),
      DefaultTo(Prop(body, "is_auto_increment"), Bool(false)),
      DefaultTo(Prop(body, "is_foreign_key"), Bool(false)),
      OrNull(Prop(body, "reference_table_id")),
      OrNull(Prop(body, "reference_table_field_id")) ]
  }

  /** The eleven values `PUT /api/fields/:id` writes: the same ten as on
      insert, then the id from the path. */
  function FieldUpdateParams(body: map<string, JsValue>, id: string): (params: seq<JsValue>)
    ensures |params| == 11
    ensures params[..10] == FieldParams(body) && params[10] == Str(id)
  {
    FieldParams(body) + [Str(id)]
  }

  /** The body a client would send to repeat a request with these values. */
  function BodyOf(keys: seq<string>, values: seq<JsValue>): (body: map<string, JsValue>)
    requires |keys| == |values|
    ensures forall i :: 0 <= i < |keys| && (forall j :: i < j < |keys| ==> keys[j] != keys[i]) ==>
              keys[i] in body && body[keys[i]] == values[i]
    decreases |keys|
  {
    if keys == [] then map[]
    else BodyOf(keys[..|keys| - 1], values[..|values| - 1])[keys[|keys| - 1] := values[|values| - 1]]
  }

  /** Normalising a field body a second time changes nothing: the values the
      database receives, sent back as a body, yield the same values. */
  lemma {:induction false} FieldParamsIdempotent(body: map<string, JsValue>)
    ensures FieldParams(BodyOf(FieldKeys, FieldParams(body))) == FieldParams(body)
  {
    var p := FieldParams(body);
    var b := BodyOf(FieldKeys, p);
    forall i | 0 <= i < 10 ensures Prop(b, FieldKeys[i]) == p[i] {
      assert forall j :: i < j < 10 ==> FieldKeys[j] != FieldKeys[i];
    }
    var q := FieldParams(b);
    forall i | 0 <= i < 10 ensures q[i] == p[i] {
      if IsNullablePosition(i) {
        assert Prop(b, FieldKeys[i]) == p[i];
      }
    }
  }
}
