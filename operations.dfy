/** Ascending order of a finite set of keys, as an `ORDER BY` on a key column yields it. */
module Ordering {

  predicate Ascending(ids: seq<int>) {
    forall i, j :: 0 <= i < j < |ids| ==> ids[i] < ids[j]
  }

  predicate IsMinimum(m: int, s: set<int>) {
    m in s && forall x :: x in s ==> m <= x
  }

  lemma {:induction false} MinimumExists(s: set<int>)
    requires s != {}
    ensures exists m :: IsMinimum(m, s)
    decreases |s|
  {
    if forall x :: x !in s {
      assert false;
    }
    var y :| y in s;
    if s != {y} {
      var rest := s - {y};
      assert forall x :: x in s ==> x == y || x in rest;
      MinimumExists(rest);
      var m :| IsMinimum(m, rest);
      if y < m {
        assert IsMinimum(y, s);
      } else {
        assert IsMinimum(m, s);
      }
    } else {
      assert IsMinimum(y, s);
    }
  }

  /** A finite set of keys in ascending order (what `ORDER BY` yields). */
  function SortedIds(ids: set<int>): (r: seq<int>)
    ensures Ascending(r)
    ensures |r| == |ids|
    ensures forall i :: 0 <= i < |r| ==> r[i] in ids
    ensures forall k :: k in ids ==> k in r
    decreases |ids|
  {
    if ids == {} then []
    else
      MinimumExists(ids);
      var m :| IsMinimum(m, ids);
      [m] + SortedIds(ids - {m})
  }

  /** Two keys come out in ascending order. */
  lemma SortedPair(a: int, b: int)
    requires a < b
    ensures SortedIds({a, b}) == [a, b]
  {
    var ids := SortedIds({a, b});
    assert |ids| == |{a, b}| == 2;
    assert ids[0] in {a, b} && ids[1] in {a, b};
    assert ids[0] < ids[1];
  }
}

/** `DatabaseOperations` of the Python backend: the `CREATE TABLE` generator,
    its datatype lookup, and the check the delete operations make on the
    driver's status string. The metadata store is given as plain maps in
    place of the connection pool and its queries. */
module PyOperations {
  import opened Common
  import opened Ddl
  import opened Ordering

  /** What the generator can read of the metadata store. */
  datatype Store = Store(
    tables: map<int, string>,              // all_table: table_id -> table_name
    fields: map<int, FieldRow>,            // table_wise_field, keyed by table_wise_field_id
    postgresql: map<int, Option<string>>)  // field_datatype: field_datatype_id -> postgresql column (NULL is None)

  /** The one error the generator raises itself: `ValueError("Table not found")`. */
  datatype GenerateError = TableNotFound

  function ErrorMessage(e: GenerateError): string {
    match e
    case TableNotFound => "Table not found"
  }

  /** `SELECT * FROM table_wise_field WHERE table_id = $1 ORDER BY
      table_wise_field_id`: the keys of exactly the rows of the table,
      ascending. */
  function FieldIdsOf(fields: map<int, FieldRow>, tableId: int): (ids: seq<int>)
    ensures Ascending(ids)
    ensures forall i :: 0 <= i < |ids| ==> ids[i] in fields && fields[ids[i]].tableId == tableId
    ensures forall k :: k in fields && fields[k].tableId == tableId ==> k in ids
  {
    SortedIds(set k | k in fields && fields[k].tableId == tableId)
  }

  /** `get_sql_type`: the `postgresql` column of the datatype row, or 'TEXT'
      when there is no row. A row whose column is NULL yields None. */
  function GetSqlType(postgresql: map<int, Option<string>>, datatypeId: int): Option<string> {
    if datatypeId in postgresql then postgresql[datatypeId] else Some("TEXT")
  }

  /** How an f-string renders a `str | None`. */
  function PyStr(v: Option<string>): string {
    match v
    case Some(s) => s
    case None => "None"
  }

  /** The column line the generator writes for the field row with key `id`. */
  function FieldLine(db: Store, id: int): string
    requires id in db.fields
  {
    var f := db.fields[id];
    ColumnLine(f, PyStr(GetSqlType(db.postgresql, f.fieldDatatypeId)))
  }

  /** The column lines for the field keys `ids`, one per key, in that order. */
  function ColumnLines(db: Store, ids: seq<int>): (lines: seq<string>)
    requires forall i :: 0 <= i < |ids| ==> ids[i] in db.fields
    ensures |lines| == |ids|
    ensures forall i :: 0 <= i < |ids| ==> lines[i] == FieldLine(db, ids[i])
    decreases |ids|
  {
    if ids == [] then []
    else ColumnLines(db, ids[..|ids| - 1]) + [FieldLine(db, ids[|ids| - 1])]
  }

  /** `generate_sql` as a value: no SQL at all for a missing table, otherwise
      the statement over the table's fields in ascending key order. */
  function GenerateSqlSpec(db: Store, tableId: int): (r: Result<string, GenerateError>)
    ensures r.Err? <==> tableId !in db.tables
    ensures r.Err? ==> r.error == TableNotFound
  {
    if tableId !in db.tables then Err(TableNotFound)
    else Ok(CreateTableStatement(db.tables[tableId], ColumnLines(db, FieldIdsOf(db.fields, tableId))))
  }

  /** `lines` holds the column line of each key of `ids`, in order. */
  predicate LinesFor(db: Store, ids: seq<int>, lines: seq<string>) {
    && |lines| == |ids|
    && forall j :: 0 <= j < |ids| ==> ids[j] in db.fields && lines[j] == FieldLine(db, ids[j])
  }

  lemma LinesForAppend(db: Store, ids: seq<int>, i: int, lines: seq<string>)
    requires 0 <= i < |ids| && ids[i] in db.fields
    requires LinesFor(db, ids[..i], lines)
    ensures LinesFor(db, ids[..i + 1], lines + [FieldLine(db, ids[i])])
  {
    var next := lines + [FieldLine(db, ids[i])];
    forall j | 0 <= j < i + 1
      ensures ids[..i + 1][j] in db.fields && next[j] == FieldLine(db, ids[..i + 1][j])
    {
      if j < i {
        assert ids[..i][j] == ids[..i + 1][j];
      }
    }
  }

  lemma LinesForIsColumnLines(db: Store, ids: seq<int>, lines: seq<string>)
    requires LinesFor(db, ids, lines)
    ensures lines == ColumnLines(db, ids)
  {
  }

  /** `generate_sql`: look the table up, then build one line per field row
      and append it to the column list, then join and wrap. */
  method GenerateSql(db: Store, tableId: int) returns (r: Result<string, GenerateError>)
    ensures r == GenerateSqlSpec(db, tableId)
  {
    if tableId !in db.tables {
      return Err(TableNotFound);
    }
    var fieldIds := FieldIdsOf(db.fields, tableId);
    var tableName := db.tables[tableId];
    var sql := "CREATE TABLE " + tableName + " (\n";
    var columnLines: seq<string> := [];
    var i := 0;
    while i < |fieldIds|
      invariant 0 <= i <= |fieldIds|
      invariant LinesFor(db, fieldIds[..i], columnLines)
    {
      var field := db.fields[fieldIds[i]];
      var sqlType := GetSqlType(db.postgresql, field.fieldDatatypeId);
      var line := "  " + field.fieldName + " " + PyStr(sqlType);
      if field.isAutoIncrement {
        line := line + " SERIAL";
      }
      if field.isPrimary {
        line := line + " PRIMARY KEY";
      }
      assert line == ColumnLine(field, PyStr(sqlType)) == FieldLine(db, fieldIds[i]);
      LinesForAppend(db, fieldIds, i, columnLines);
      columnLines := columnLines + [line];
      i := i + 1;
    }
    assert fieldIds[..i] == fieldIds;
    LinesForIsColumnLines(db, fieldIds, columnLines);
    sql := sql + Join(columnLines, ",\n") + "\n);";
    r := Ok(sql);
  }

  // ------------------------------------------------------- generator lemmas

  /** The statement holds exactly one column line per field row of the
      table, in ascending key order, each built from that row. */
  lemma GeneratedColumns(db: Store, tableId: int, k: int)
    requires tableId in db.tables
    requires k in db.fields && db.fields[k].tableId == tableId
    ensures var ids := FieldIdsOf(db.fields, tableId);
            var lines := ColumnLines(db, ids);
            && GenerateSqlSpec(db, tableId) == Ok(CreateTableStatement(db.tables[tableId], lines))
            && |lines| == |set j | j in db.fields && db.fields[j].tableId == tableId|
            && exists i :: 0 <= i < |ids| && ids[i] == k && lines[i] == FieldLine(db, k)
  {
    var ids := FieldIdsOf(db.fields, tableId);
    var matching := set j | j in db.fields && db.fields[j].tableId == tableId;
    assert ids == SortedIds(matching);
    assert k in ids;
    var i :| 0 <= i < |ids| && ids[i] == k;
  }

  /** A table without field rows yields `CREATE TABLE name (\n\n);`. */
  lemma EmptyTable(db: Store, tableId: int)
    requires tableId in db.tables
    requires forall k :: k in db.fields ==> db.fields[k].tableId != tableId
    ensures GenerateSqlSpec(db, tableId) == Ok("CREATE TABLE " + db.tables[tableId] + " (\n\n);")
  {
    var matching := set j | j in db.fields && db.fields[j].tableId == tableId;
    assert forall j :: j !in matching;
    assert matching == {};
    var ids := FieldIdsOf(db.fields, tableId);
    assert ids == SortedIds(matching);
    assert ids == [];
    assert ColumnLines(db, ids) == [];
    EmptyStatement(db.tables[tableId]);
  }

  /** A field's column line is one text row when its name and type are. */
  lemma FieldLineIsOneRow(db: Store, k: int)
    requires k in db.fields && '\n' !in db.fields[k].fieldName
    requires forall d :: d in db.postgresql && db.postgresql[d].Some? ==> '\n' !in db.postgresql[d].value
    ensures '\n' !in FieldLine(db, k)
  {
    var f := db.fields[k];
    var t := GetSqlType(db.postgresql, f.fieldDatatypeId);
    assert '\n' !in PyStr(t);
    ColumnLineIsOneRow(f, PyStr(t));
  }

  /** Read as text, the statement has a header row, one row per field row of
      the table (one empty row when there is none) and a closing row. */
  lemma GeneratedRows(db: Store, tableId: int)
    requires tableId in db.tables && '\n' !in db.tables[tableId]
    requires forall k :: k in db.fields ==> '\n' !in db.fields[k].fieldName
    requires forall d :: d in db.postgresql && db.postgresql[d].Some? ==> '\n' !in db.postgresql[d].value
    ensures var ids := FieldIdsOf(db.fields, tableId);
            var lines := ColumnLines(db, ids);
            && GenerateSqlSpec(db, tableId).Ok?
            && SplitLines(GenerateSqlSpec(db, tableId).value)
               == ["CREATE TABLE " + db.tables[tableId] + " ("] + ColumnRows(lines) + [");"]
            && |SplitLines(GenerateSqlSpec(db, tableId).value)| == if ids == [] then 3 else |ids| + 2
  {
    var ids := FieldIdsOf(db.fields, tableId);
    var lines := ColumnLines(db, ids);
    forall i | 0 <= i < |lines| ensures '\n' !in lines[i] {
      FieldLineIsOneRow(db, ids[i]);
    }
    assert GenerateSqlSpec(db, tableId).value == CreateTableStatement(db.tables[tableId], lines);
    StatementRows(db.tables[tableId], lines);
  }

  /** Two rows that agree on what a column line uses. */
  predicate SameColumn(f: FieldRow, g: FieldRow) {
    && f.tableId == g.tableId && f.fieldName == g.fieldName
    && f.fieldDatatypeId == g.fieldDatatypeId
    && f.isAutoIncrement == g.isAutoIncrement && f.isPrimary == g.isPrimary
  }

  /** Foreign-key flags, reference ids, labels and display names never change
      the generated statement. */
  lemma ReferencesDoNotAffectOutput(db1: Store, db2: Store, tableId: int)
    requires db1.tables == db2.tables && db1.postgresql == db2.postgresql
    requires db1.fields.Keys == db2.fields.Keys
    requires forall k :: k in db1.fields ==> SameColumn(db1.fields[k], db2.fields[k])
    ensures GenerateSqlSpec(db1, tableId) == GenerateSqlSpec(db2, tableId)
  {
    if tableId in db1.tables {
      SameFieldIds(db1.fields, db2.fields, tableId);
      var ids := FieldIdsOf(db1.fields, tableId);
      var l1, l2 := ColumnLines(db1, ids), ColumnLines(db2, ids);
      forall i | 0 <= i < |ids| ensures l1[i] == l2[i] {
        SameFieldLine(db1, db2, ids[i]);
      }
      assert l1 == l2;
    }
  }

  lemma SameFieldIds(f1: map<int, FieldRow>, f2: map<int, FieldRow>, tableId: int)
    requires f1.Keys == f2.Keys
    requires forall k :: k in f1 ==> f1[k].tableId == f2[k].tableId
    ensures FieldIdsOf(f1, tableId) == FieldIdsOf(f2, tableId)
  {
    var m1 := set j | j in f1 && f1[j].tableId == tableId;
    var m2 := set j | j in f2 && f2[j].tableId == tableId;
    assert forall j :: j in m1 <==> j in m2;
    assert m1 == m2;
  }

  lemma SameFieldLine(db1: Store, db2: Store, k: int)
    requires db1.postgresql == db2.postgresql
    requires k in db1.fields && k in db2.fields && SameColumn(db1.fields[k], db2.fields[k])
    ensures FieldLine(db1, k) == FieldLine(db2, k)
  {
  }

  /** A field whose datatype has no row gets the type TEXT. */
  lemma MissingDatatypeIsText(db: Store, k: int)
    requires k in db.fields && db.fields[k].fieldDatatypeId !in db.postgresql
    ensures FieldLine(db, k) == ColumnLine(db.fields[k], "TEXT")
  {
  }

  /** A datatype row with a non-NULL postgresql column gives that type
      name verbatim. */
  lemma PresentDatatypeIsVerbatim(db: Store, k: int, sqlType: string)
    requires k in db.fields
    requires db.fields[k].fieldDatatypeId in db.postgresql
    requires db.postgresql[db.fields[k].fieldDatatypeId] == Some(sqlType)
    ensures FieldLine(db, k) == ColumnLine(db.fields[k], sqlType)
  {
  }

  /** A datatype row whose postgresql column is NULL is used as it is, and
      the f-string writes it as the word None: the fallback does not fire. */
  lemma NullDatatypeIsWrittenAsNone(db: Store, k: int)
    requires k in db.fields
    requires db.fields[k].fieldDatatypeId in db.postgresql
    requires db.postgresql[db.fields[k].fieldDatatypeId] == None
    ensures FieldLine(db, k) == ColumnLine(db.fields[k], "None")
  {
  }

  /** The worked example: `users` with an auto-increment primary key `id`
      (datatype 10, INTEGER) and a plain `email` (datatype 20, TEXT). */
  function UsersStore(): Store {
    Store(map[1 := "users"],
          map[1 := FieldRow(1, "id", 10, true, None, None, true, false, None, None),
              2 := FieldRow(1, "email", 20, false, None, None, false, false, None, None)],
          map[10 := Some("INTEGER"), 20 := Some("TEXT")])
  }

  lemma UsersFieldOrder()
    ensures FieldIdsOf(UsersStore().fields, 1) == [1, 2]
  {
    var fields := UsersStore().fields;
    assert fields.Keys == {1, 2};
    var matching := set k | k in fields && fields[k].tableId == 1;
    assert matching == {1, 2} by {
      assert fields[1].tableId == 1 && fields[2].tableId == 1;
    }
    SortedPair(1, 2);
  }

  lemma UsersIdLine()
    ensures FieldLine(UsersStore(), 1) == "  id INTEGER SERIAL PRIMARY KEY"
  {
    var db := UsersStore();
    var f1 := db.fields[1];
    assert PyStr(GetSqlType(db.postgresql, f1.fieldDatatypeId)) == "INTEGER";
    SerialBeforePrimaryKey(f1, "INTEGER");
    assert FieldLine(db, 1) == "  " + "id" + " " + "INTEGER" + " SERIAL PRIMARY KEY";
    IdLineText();
  }

  lemma IdLineText()
    ensures "  " + "id" + " " + "INTEGER" + " SERIAL PRIMARY KEY" == "  id INTEGER SERIAL PRIMARY KEY"
  {
  }

  lemma UsersEmailLine()
    ensures FieldLine(UsersStore(), 2) == "  email TEXT"
  {
    var db := UsersStore();
    var f2 := db.fields[2];
    assert PyStr(GetSqlType(db.postgresql, f2.fieldDatatypeId)) == "TEXT";
    assert ColumnLine(f2, "TEXT") == ColumnHead("email", "TEXT");
  }

  lemma UsersLines()
    ensures ColumnLines(UsersStore(), [1, 2]) == ["  id INTEGER SERIAL PRIMARY KEY", "  email TEXT"]
  {
    UsersIdLine();
    UsersEmailLine();
    var lines := ColumnLines(UsersStore(), [1, 2]);
    assert lines[0] == FieldLine(UsersStore(), 1);
    assert lines[1] == FieldLine(UsersStore(), 2);
  }

  lemma UsersExample()
    ensures GenerateSqlSpec(UsersStore(), 1)
         == Ok("CREATE TABLE users (\n"
               + "  id INTEGER SERIAL PRIMARY KEY" + ",\n"
               + "  email TEXT"
               + "\n);")
  {
    UsersFieldOrder();
    UsersLines();
    UsersStatementText();
  }

  lemma UsersStatementText()
    ensures CreateTableStatement("users", ["  id INTEGER SERIAL PRIMARY KEY", "  email TEXT"])
         == "CREATE TABLE users (\n" + "  id INTEGER SERIAL PRIMARY KEY" + ",\n" + "  email TEXT" + "\n);"
  {
    var l1, l2 := "  id INTEGER SERIAL PRIMARY KEY", "  email TEXT";
    var header := "CREATE TABLE users (\n";
    assert Join([l1, l2], ",\n") == l1 + ",\n" + l2;
    assert "CREATE TABLE " + "users" + " (\n" == header;
    assert header + (l1 + ",\n" + l2) + "\n);" == header + l1 + ",\n" + l2 + "\n);";
  }

  // ------------------------------------------------------------ deletion

  function Digit(d: nat): char
    requires d < 10
  {
    "0123456789"[d]
  }

  /** The decimal text of a row count, as in a command tag. */
  function NatToString(n: nat): (s: string)
    ensures |s| >= 1
    ensures n >= 10 ==> |s| >= 2
    decreases n
  {
    if n < 10 then [Digit(n)] else NatToString(n / 10) + [Digit(n % 10)]
  }

  /** The status string the driver returns for a DELETE that removed `rowCount` rows. */
  function DeleteTag(rowCount: nat): string {
    "DELETE " + NatToString(rowCount)
  }

  /** The result of `delete_project`, `delete_table` and `delete_field`. */
  predicate DeleteSucceeded(status: string) {
    status == "DELETE 1"
  }

  /** A delete reports success exactly when one row went away. */
  lemma DeleteSucceededIffOneRow(rowCount: nat)
    ensures DeleteSucceeded(DeleteTag(rowCount)) <==> rowCount == 1
  {
    var s := NatToString(rowCount);
    if DeleteSucceeded(DeleteTag(rowCount)) {
      assert ("DELETE " + s)[7..] == s;
      assert s == "1";
      if rowCount >= 10 {
        assert false;
      }
    }
  }

  /** Deleting by primary key: the row goes away, and the operation answers
      true exactly when the key was present. */
  function DeleteRow<V>(rows: map<int, V>, key: int): (r: (map<int, V>, bool))
    ensures r.0 == rows - {key}
    ensures r.1 <==> key in rows
  {
    var rowCount := if key in rows then 1 else 0;
    DeleteSucceededIffOneRow(rowCount);
    (rows - {key}, DeleteSucceeded(DeleteTag(rowCount)))
  }
}
