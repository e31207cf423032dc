/** The text of a `CREATE TABLE` statement, as both backends compose it: one
    column line per field, `"  " + name + " " + type`, then `" SERIAL"` when the
    field auto-increments, then `" PRIMARY KEY"` when it is the primary key;
    the lines joined with `",\n"` and wrapped in `CREATE TABLE <name> (\n … \n);`.
    No identifier is quoted or escaped. */
module Ddl {
  import opened Common

  /** A row of `table_wise_field` (its key, `table_wise_field_id`, is kept by
      the store that holds the row). */
  datatype FieldRow = FieldRow(
    tableId: int,
    fieldName: string,
    fieldDatatypeId: int,
    isPrimary: bool,
    fieldLabel: Option<string>,
    displayName: Option<string>,
    isAutoIncrement: bool,
    isForeignKey: bool,
    referenceTableId: Option<int>,
    referenceTableFieldId: Option<int>)

  /** What follows the type on a column line: SERIAL first, PRIMARY KEY second. */
  function Modifiers(isAutoIncrement: bool, isPrimary: bool): string {
    (if isAutoIncrement then " SERIAL" else "") + (if isPrimary then " PRIMARY KEY" else "")
  }

  /** Reads a modifier suffix back into (auto-increment, primary); `None` for
      any other text, in particular for `" PRIMARY KEY SERIAL"`. */
  function ParseModifiers(m: string): Option<(bool, bool)> {
    if m == "" then Some((false, false))
    else if m == " SERIAL" then Some((true, false))
    else if m == " PRIMARY KEY" then Some((false, true))
    else if m == " SERIAL PRIMARY KEY" then Some((true, true))
    else None
  }

  function ColumnHead(fieldName: string, sqlType: string): string {
    "  " + fieldName + " " + sqlType
  }

  /** One column definition. Only the name, the resolved type and the two
      flags take part: foreign-key flag, reference ids, label and display name
      never reach the DDL. */
  function ColumnLine(f: FieldRow, sqlType: string): string {
    var head := ColumnHead(f.fieldName, sqlType);
    var withSerial := if f.isAutoIncrement then head + " SERIAL" else head;
    if f.isPrimary then withSerial + " PRIMARY KEY" else withSerial
  }

  /** The line is the head followed by the modifier suffix. */
  lemma ColumnLineParts(f: FieldRow, sqlType: string)
    ensures ColumnLine(f, sqlType) == ColumnHead(f.fieldName, sqlType) + Modifiers(f.isAutoIncrement, f.isPrimary)
  {
    var head := ColumnHead(f.fieldName, sqlType);
    if f.isAutoIncrement && f.isPrimary {
      assert head + " SERIAL" + " PRIMARY KEY" == head + (" SERIAL" + " PRIMARY KEY");
    } else if f.isAutoIncrement {
      assert head + " SERIAL" == head + (" SERIAL" + "");
    } else if f.isPrimary {
      assert head + " PRIMARY KEY" == head + ("" + " PRIMARY KEY");
    } else {
      assert head == head + ("" + "");
    }
  }

  /** Python's `sep.join(parts)` and JavaScript's `parts.join(sep)`. */
  function Join(parts: seq<string>, sep: string): string
    decreases |parts|
  {
    if |parts| == 0 then ""
    else if |parts| == 1 then parts[0]
    else parts[0] + sep + Join(parts[1..], sep)
  }

  function CreateTableStatement(tableName: string, columnLines: seq<string>): string {
    "CREATE TABLE " + tableName + " (\n" + Join(columnLines, ",\n") + "\n);"
  }

  /** The text split at every line feed (as Python's `s.split("\n")`). */
  function SplitLines(s: string): (rows: seq<string>)
    ensures |rows| >= 1
    ensures forall i :: 0 <= i < |rows| ==> '\n' !in rows[i]
  {
    if s == [] then [""]
    else
      var rest := SplitLines(s[1..]);
      if s[0] == '\n' then [""] + rest else [[s[0]] + rest[0]] + rest[1..]
  }

  /** The text rows the column list occupies: every column line but the last
      carries the separator's comma; an empty list still leaves one empty row. */
  function ColumnRows(lines: seq<string>): (rows: seq<string>)
    ensures |rows| == if lines == [] then 1 else |lines|
  {
    if lines == [] then [""]
    else seq(|lines|, i requires 0 <= i < |lines| => if i < |lines| - 1 then lines[i] + "," else lines[i])
  }

  // ---------------------------------------------------------------- lemmas

  /** ParseModifiers undoes Modifiers, so the suffix of a column line
      identifies both flags, and a line can never read "PRIMARY KEY SERIAL". */
  lemma ModifiersRoundTrip(isAutoIncrement: bool, isPrimary: bool)
    ensures ParseModifiers(Modifiers(isAutoIncrement, isPrimary)) == Some((isAutoIncrement, isPrimary))
    ensures Modifiers(isAutoIncrement, isPrimary) != " PRIMARY KEY SERIAL"
  {
  }

  /** A column line starts with two spaces, the name, a space and the type,
      and what follows is exactly the modifier suffix of the field's two flags. */
  lemma ColumnLineDeterminesFlags(f: FieldRow, sqlType: string)
    ensures var line := ColumnLine(f, sqlType);
            var head := ColumnHead(f.fieldName, sqlType);
            && |head| <= |line| && line[..|head|] == head
            && line[..2] == "  "
            && ParseModifiers(line[|head|..]) == Some((f.isAutoIncrement, f.isPrimary))
  {
    var head := ColumnHead(f.fieldName, sqlType);
    var m := Modifiers(f.isAutoIncrement, f.isPrimary);
    ColumnLineParts(f, sqlType);
    assert ColumnLine(f, sqlType)[|head|..] == m;
    assert head[..2] == "  ";
    ModifiersRoundTrip(f.isAutoIncrement, f.isPrimary);
  }

  /** A column line with both flags ends in "SERIAL PRIMARY KEY". */
  lemma SerialBeforePrimaryKey(f: FieldRow, sqlType: string)
    requires f.isAutoIncrement && f.isPrimary
    ensures ColumnLine(f, sqlType) == "  " + f.fieldName + " " + sqlType + " SERIAL PRIMARY KEY"
  {
  }

  /** A column line is one text row as long as the name and type are. */
  lemma ColumnLineIsOneRow(f: FieldRow, sqlType: string)
    requires '\n' !in f.fieldName && '\n' !in sqlType
    ensures '\n' !in ColumnLine(f, sqlType)
  {
    var line := ColumnLine(f, sqlType);
    var m := Modifiers(f.isAutoIncrement, f.isPrimary);
    ColumnLineParts(f, sqlType);
    assert line == "  " + f.fieldName + " " + sqlType + m;
    forall i | 0 <= i < |line| ensures line[i] != '\n' {
      if i < 2 { assert line[i] == ' '; }
      else if i < 2 + |f.fieldName| { assert line[i] == f.fieldName[i - 2]; }
      else if i == 2 + |f.fieldName| { assert line[i] == ' '; }
      else if i < 3 + |f.fieldName| + |sqlType| { assert line[i] == sqlType[i - 3 - |f.fieldName|]; }
      else { assert line[i] == m[i - 3 - |f.fieldName| - |sqlType|]; }
    }
  }

  lemma {:induction false} SplitWithoutNewline(a: string)
    requires '\n' !in a
    ensures SplitLines(a) == [a]
  {
    if a != [] {
      SplitWithoutNewline(a[1..]);
      assert a == [a[0]] + a[1..];
    }
  }

  lemma {:induction false} SplitAfterFirstRow(a: string, b: string)
    requires '\n' !in a
    ensures SplitLines(a + "\n" + b) == [a] + SplitLines(b)
  {
    var s := a + "\n" + b;
    if a == [] {
      assert s[0] == '\n' && s[1..] == b;
    } else {
      assert s[0] == a[0] && s[1..] == a[1..] + "\n" + b;
      SplitAfterFirstRow(a[1..], b);
      assert [a[0]] + a[1..] == a;
    }
  }

  lemma {:induction false} SplitBeforeLastRow(a: string, c: string)
    requires '\n' !in c
    ensures SplitLines(a + "\n" + c) == SplitLines(a) + [c]
  {
    var s := a + "\n" + c;
    if a == [] {
      SplitAfterFirstRow(a, c);
      SplitWithoutNewline(c);
    } else {
      assert s[0] == a[0] && s[1..] == a[1..] + "\n" + c;
      SplitBeforeLastRow(a[1..], c);
    }
  }

  /** The joined column list splits back into exactly one row per column
      line, in order, each but the last followed by a comma. */
  lemma {:induction false} SplitJoinedColumns(lines: seq<string>)
    requires forall i :: 0 <= i < |lines| ==> '\n' !in lines[i]
    ensures SplitLines(Join(lines, ",\n")) == ColumnRows(lines)
  {
    if |lines| == 0 {
    } else if |lines| == 1 {
      SplitWithoutNewline(lines[0]);
    } else {
      var rest := lines[1..];
      SplitJoinedColumns(rest);
      assert Join(lines, ",\n") == (lines[0] + ",") + "\n" + Join(rest, ",\n");
      assert '\n' !in lines[0] + ",";
      SplitAfterFirstRow(lines[0] + ",", Join(rest, ",\n"));
      assert [lines[0] + ","] + ColumnRows(rest) == ColumnRows(lines);
    }
  }

  /** The whole statement, split into text rows: the header row, one row per
      column line (one empty row when there is none), and the closing row.
      So a table with N fields takes N + 2 rows, and one with none takes 3. */
  lemma StatementRows(tableName: string, lines: seq<string>)
    requires '\n' !in tableName
    requires forall i :: 0 <= i < |lines| ==> '\n' !in lines[i]
    ensures SplitLines(CreateTableStatement(tableName, lines))
         == ["CREATE TABLE " + tableName + " ("] + ColumnRows(lines) + [");"]
    ensures |SplitLines(CreateTableStatement(tableName, lines))|
         == if lines == [] then 3 else |lines| + 2
  {
    var header := "CREATE TABLE " + tableName + " (";
    var body := Join(lines, ",\n");
    assert CreateTableStatement(tableName, lines) == header + "\n" + (body + "\n" + ");");
    assert '\n' !in header;
    SplitAfterFirstRow(header, body + "\n" + ");");
    SplitBeforeLastRow(body, ");");
    SplitJoinedColumns(lines);
  }

  /** With no fields the statement is `CREATE TABLE name (\n\n);`. */
  lemma EmptyStatement(tableName: string)
    ensures CreateTableStatement(tableName, []) == "CREATE TABLE " + tableName + " (\n\n);"
  {
  }
}
