/** The request models of the Python backend (Pydantic `BaseModel`s): which
    keys a JSON object must carry, of which type, up to which length, and what
    an absent key defaults to. Each model is a record, a validity predicate on
    the record, a predicate saying which JSON objects the model accepts, and
    a parser from JSON object to record. */
module Models {
  import opened Common
  import Ddl

  /** A JSON value as far as the models tell values apart. */
  datatype Json = JNull | JBool(b: bool) | JInt(i: int) | JStr(s: string) | JOther

  type Object = map<string, Json>

  datatype ErrorKind = Missing | WrongType | TooLong

  /** The first error Pydantic reports: where, and what kind. */
  datatype ValidationError = ValidationError(loc: string, kind: ErrorKind)

  // ------------------------------------------------ per-attribute rules

  predicate Fits(s: string, maxLen: Option<nat>) {
    maxLen.None? || |s| <= maxLen.value
  }

  /** `name: str = Field(..., max_length=n)`: present, a string, short enough. */
  predicate RequiredStrOk(obj: Object, key: string, maxLen: Option<nat>) {
    key in obj && obj[key].JStr? && Fits(obj[key].s, maxLen)
  }

  /** `name: Optional[str] = Field(None, max_length=n)`: absent, null, or a
      string short enough. */
  predicate OptionalStrOk(obj: Object, key: string, maxLen: Option<nat>) {
    key !in obj || obj[key].JNull? || (obj[key].JStr? && Fits(obj[key].s, maxLen))
  }

  /** `name: int`: present and an integer. */
  predicate RequiredIntOk(obj: Object, key: string) {
    key in obj && obj[key].JInt?
  }

  /** `name: Optional[int] = None`: absent, null, or an integer. */
  predicate OptionalIntOk(obj: Object, key: string) {
    key !in obj || obj[key].JNull? || obj[key].JInt?
  }

  /** `name: bool = False`: absent, or a boolean (null is refused). */
  predicate DefaultedBoolOk(obj: Object, key: string) {
    key !in obj || obj[key].JBool?
  }

  /** `name: Optional[bool] = None`: absent, null, or a boolean. */
  predicate OptionalBoolOk(obj: Object, key: string) {
    key !in obj || obj[key].JNull? || obj[key].JBool?
  }

  function RequiredStr(obj: Object, key: string, maxLen: Option<nat>): (r: Result<string, ValidationError>)
    ensures r.Ok? <==> RequiredStrOk(obj, key, maxLen)
    ensures r.Ok? ==> r.value == obj[key].s
    ensures r.Err? ==> r.error.loc == key && (r.error.kind == Missing <==> key !in obj)
  {
    if key !in obj then Err(ValidationError(key, Missing))
    else if !obj[key].JStr? then Err(ValidationError(key, WrongType))
    else if !Fits(obj[key].s, maxLen) then Err(ValidationError(key, TooLong))
    else Ok(obj[key].s)
  }

  function OptionalStr(obj: Object, key: string, maxLen: Option<nat>): (r: Result<Option<string>, ValidationError>)
    ensures r.Ok? <==> OptionalStrOk(obj, key, maxLen)
    ensures r.Ok? ==> (r.value.None? <==> key !in obj || obj[key].JNull?)
    ensures r.Ok? && r.value.Some? ==> r.value.value == obj[key].s && Fits(r.value.value, maxLen)
    ensures r.Err? ==> r.error.loc == key && r.error.kind != Missing
  {
    if key !in obj || obj[key].JNull? then Ok(None)
    else if !obj[key].JStr? then Err(ValidationError(key, WrongType))
    else if !Fits(obj[key].s, maxLen) then Err(ValidationError(key, TooLong))
    else Ok(Some(obj[key].s))
  }

  function RequiredInt(obj: Object, key: string): (r: Result<int, ValidationError>)
    ensures r.Ok? <==> RequiredIntOk(obj, key)
    ensures r.Ok? ==> r.value == obj[key].i
    ensures r.Err? ==> r.error.loc == key && (r.error.kind == Missing <==> key !in obj)
  {
    if key !in obj then Err(ValidationError(key, Missing))
    else if !obj[key].JInt? then Err(ValidationError(key, WrongType))
    else Ok(obj[key].i)
  }

  function OptionalInt(obj: Object, key: string): (r: Result<Option<int>, ValidationError>)
    ensures r.Ok? <==> OptionalIntOk(obj, key)
    ensures r.Ok? ==> (r.value.None? <==> key !in obj || obj[key].JNull?)
    ensures r.Ok? && r.value.Some? ==> r.value.value == obj[key].i
    ensures r.Err? ==> r.error.loc == key && r.error.kind == WrongType
  {
    if key !in obj || obj[key].JNull? then Ok(None)
    else if !obj[key].JInt? then Err(ValidationError(key, WrongType))
    else Ok(Some(obj[key].i))
  }

  function DefaultedBool(obj: Object, key: string): (r: Result<bool, ValidationError>)
    ensures r.Ok? <==> DefaultedBoolOk(obj, key)
    ensures r.Ok? ==> (r.value <==> key in obj && obj[key] == JBool(true))
    ensures r.Err? ==> r.error.loc == key && r.error.kind == WrongType
  {
    if key !in obj then Ok(false)
    else if !obj[key].JBool? then Err(ValidationError(key, WrongType))
    else Ok(obj[key].b)
  }

  function OptionalBool(obj: Object, key: string): (r: Result<Option<bool>, ValidationError>)
    ensures r.Ok? <==> OptionalBoolOk(obj, key)
    ensures r.Ok? ==> (r.value.None? <==> key !in obj || obj[key].JNull?)
    ensures r.Ok? && r.value.Some? ==> r.value.value == obj[key].b
    ensures r.Err? ==> r.error.loc == key && r.error.kind == WrongType
  {
    if key !in obj || obj[key].JNull? then Ok(None)
    else if !obj[key].JBool? then Err(ValidationError(key, WrongType))
    else Ok(Some(obj[key].b))
  }

  function StrJson(v: Option<string>): Json {
    match v
    case None => JNull
    case Some(s) => JStr(s)
  }

  function IntJson(v: Option<int>): Json {
    match v
    case None => JNull
    case Some(i) => JInt(i)
  }

  function BoolJson(v: Option<bool>): Json {
    match v
    case None => JNull
    case Some(b) => JBool(b)
  }

  /** An optional attribute written as JSON reads back as itself. */
  lemma OptionalStrOf(obj: Object, key: string, maxLen: Option<nat>, v: Option<string>)
    requires key in obj && obj[key] == StrJson(v) && (v.Some? ==> Fits(v.value, maxLen))
    ensures OptionalStr(obj, key, maxLen) == Ok(v)
  {
  }

  lemma OptionalIntOf(obj: Object, key: string, v: Option<int>)
    requires key in obj && obj[key] == IntJson(v)
    ensures OptionalInt(obj, key) == Ok(v)
  {
  }

  lemma OptionalBoolOf(obj: Object, key: string, v: Option<bool>)
    requires key in obj && obj[key] == BoolJson(v)
    ensures OptionalBool(obj, key) == Ok(v)
  {
  }

  const Name255: Option<nat> := Some(255)
  const Name100: Option<nat> := Some(100)
  const Unbounded: Option<nat> := None

  // ------------------------------------------------------ DatabaseBase

  datatype DatabaseBase = DatabaseBase(databaseName: string)

  predicate ValidDatabase(d: DatabaseBase) {
    |d.databaseName| <= 255
  }

  function ParseDatabaseBase(obj: Object): (r: Result<DatabaseBase, ValidationError>)
    ensures r.Ok? <==> RequiredStrOk(obj, "database_name", Name255)
    ensures r.Ok? ==> ValidDatabase(r.value) && r.value.databaseName == obj["database_name"].s
  {
    var name :- RequiredStr(obj, "database_name", Name255);
    Ok(DatabaseBase(name))
  }

  function DatabaseJson(d: DatabaseBase): Object {
    map["database_name" := JStr(d.databaseName)]
  }

  lemma DatabaseRoundTrip(d: DatabaseBase)
    requires ValidDatabase(d)
    ensures ParseDatabaseBase(DatabaseJson(d)) == Ok(d)
  {
  }

  // ------------------------------------------------------- ProjectBase

  datatype ProjectBase = ProjectBase(
    projectName: string,
    projectDescription: Option<string>,
    databaseId: int,
    databasePath: Option<string>,
    projectPath: Option<string>)

  predicate ValidProject(p: ProjectBase) {
    |p.projectName| <= 255
  }

  predicate ProjectBaseAccepts(obj: Object) {
    && RequiredStrOk(obj, "project_name", Name255)
    && OptionalStrOk(obj, "project_description", Unbounded)
    && RequiredIntOk(obj, "database_id")
    && OptionalStrOk(obj, "database_path", Unbounded)
    && OptionalStrOk(obj, "project_path", Unbounded)
  }

  function ParseProjectBase(obj: Object): (r: Result<ProjectBase, ValidationError>)
    ensures r.Ok? <==> ProjectBaseAccepts(obj)
    ensures r.Ok? ==> ValidProject(r.value)
    ensures r.Ok? ==> r.value.projectName == obj["project_name"].s && r.value.databaseId == obj["database_id"].i
    ensures r.Err? && r.error.kind == Missing ==> r.error.loc in {"project_name", "database_id"}
  {
    var name :- RequiredStr(obj, "project_name", Name255);
    var description :- OptionalStr(obj, "project_description", Unbounded);
    var databaseId :- RequiredInt(obj, "database_id");
    var databasePath :- OptionalStr(obj, "database_path", Unbounded);
    var projectPath :- OptionalStr(obj, "project_path", Unbounded);
    Ok(ProjectBase(name, description, databaseId, databasePath, projectPath))
  }

  function ProjectJson(p: ProjectBase): Object {
    map["project_name" := JStr(p.projectName),
        "project_description" := StrJson(p.projectDescription),
        "database_id" := JInt(p.databaseId),
        "database_path" := StrJson(p.databasePath),
        "project_path" := StrJson(p.projectPath)]
  }

  lemma ProjectRoundTrip(p: ProjectBase)
    requires ValidProject(p)
    ensures ParseProjectBase(ProjectJson(p)) == Ok(p)
  {
    var obj := ProjectJson(p);
    assert ProjectBaseAccepts(obj);
  }

  /** Only the name and the database id must be given; the three optional
      attributes then read as None. */
  lemma ProjectMinimalBody(name: string, databaseId: int)
    requires |name| <= 255
    ensures ParseProjectBase(map["project_name" := JStr(name), "database_id" := JInt(databaseId)])
         == Ok(ProjectBase(name, None, databaseId, None, None))
  {
    var obj := map["project_name" := JStr(name), "database_id" := JInt(databaseId)];
    assert ProjectBaseAccepts(obj);
  }

  // ----------------------------------------------------- ProjectUpdate

  datatype ProjectUpdate = ProjectUpdate(
    projectName: Option<string>,
    projectDescription: Option<string>,
    databaseId: Option<int>,
    databasePath: Option<string>,
    projectPath: Option<string>)

  predicate ValidProjectUpdate(p: ProjectUpdate) {
    p.projectName.Some? ==> |p.projectName.value| <= 255
  }

  predicate ProjectUpdateAccepts(obj: Object) {
    && OptionalStrOk(obj, "project_name", Name255)
    && OptionalStrOk(obj, "project_description", Unbounded)
    && OptionalIntOk(obj, "database_id")
    && OptionalStrOk(obj, "database_path", Unbounded)
    && OptionalStrOk(obj, "project_path", Unbounded)
  }

  function ParseProjectUpdate(obj: Object): (r: Result<ProjectUpdate, ValidationError>)
    ensures r.Ok? <==> ProjectUpdateAccepts(obj)
    ensures r.Ok? ==> ValidProjectUpdate(r.value)
    ensures r.Err? ==> r.error.kind != Missing
  {
    var name :- OptionalStr(obj, "project_name", Name255);
    var description :- OptionalStr(obj, "project_description", Unbounded);
    var databaseId :- OptionalInt(obj, "database_id");
    var databasePath :- OptionalStr(obj, "database_path", Unbounded);
    var projectPath :- OptionalStr(obj, "project_path", Unbounded);
    Ok(ProjectUpdate(name, description, databaseId, databasePath, projectPath))
  }

  function ProjectUpdateJson(p: ProjectUpdate): Object {
    map["project_name" := StrJson(p.projectName),
        "project_description" := StrJson(p.projectDescription),
        "database_id" := IntJson(p.databaseId),
        "database_path" := StrJson(p.databasePath),
        "project_path" := StrJson(p.projectPath)]
  }

  lemma ProjectUpdateRoundTrip(p: ProjectUpdate)
    requires ValidProjectUpdate(p)
    ensures ParseProjectUpdate(ProjectUpdateJson(p)) == Ok(p)
  {
    var obj := ProjectUpdateJson(p);
    assert ProjectUpdateAccepts(obj);
  }

  // --------------------------------------------------------- TableBase

  /** `generated_date` is kept as the text the client sent. */
  datatype TableBase = TableBase(
    projectId: int,
    tableName: string,
    tableDescription: Option<string>,
    isGenerated: bool,
    generatedDate: Option<string>)

  predicate ValidTable(t: TableBase) {
    |t.tableName| <= 255
  }

  predicate TableBaseAccepts(obj: Object) {
    && RequiredIntOk(obj, "project_id")
    && RequiredStrOk(obj, "table_name", Name255)
    && OptionalStrOk(obj, "table_description", Unbounded)
    && DefaultedBoolOk(obj, "is_generated")
    && OptionalStrOk(obj, "generated_date", Unbounded)
  }

  function ParseTableBase(obj: Object): (r: Result<TableBase, ValidationError>)
    ensures r.Ok? <==> TableBaseAccepts(obj)
    ensures r.Ok? ==> ValidTable(r.value)
    ensures r.Ok? ==> r.value.tableName == obj["table_name"].s && r.value.projectId == obj["project_id"].i
    ensures r.Ok? ==> (r.value.isGenerated <==> "is_generated" in obj && obj["is_generated"] == JBool(true))
    ensures r.Ok? ==> (r.value.generatedDate.None? <==> "generated_date" !in obj || obj["generated_date"].JNull?)
  {
    var projectId :- RequiredInt(obj, "project_id");
    var name :- RequiredStr(obj, "table_name", Name255);
    var description :- OptionalStr(obj, "table_description", Unbounded);
    var isGenerated :- DefaultedBool(obj, "is_generated");
    var generatedDate :- OptionalStr(obj, "generated_date", Unbounded);
    Ok(TableBase(projectId, name, description, isGenerated, generatedDate))
  }

  function TableJson(t: TableBase): Object {
    map["project_id" := JInt(t.projectId),
        "table_name" := JStr(t.tableName),
        "table_description" := StrJson(t.tableDescription),
        "is_generated" := JBool(t.isGenerated),
        "generated_date" := StrJson(t.generatedDate)]
  }

  lemma TableRoundTrip(t: TableBase)
    requires ValidTable(t)
    ensures ParseTableBase(TableJson(t)) == Ok(t)
  {
    var obj := TableJson(t);
    assert TableBaseAccepts(obj);
  }

  /** A table that does not say otherwise is not generated and has no date. */
  lemma TableDefaults(projectId: int, name: string)
    requires |name| <= 255
    ensures ParseTableBase(map["project_id" := JInt(projectId), "table_name" := JStr(name)])
         == Ok(TableBase(projectId, name, None, false, None))
  {
    var obj := map["project_id" := JInt(projectId), "table_name" := JStr(name)];
    assert TableBaseAccepts(obj);
  }

  // ------------------------------------------------------- TableUpdate

  datatype TableUpdate = TableUpdate(
    tableName: Option<string>,
    tableDescription: Option<string>,
    isGenerated: Option<bool>,
    generatedDate: Option<string>)

  predicate ValidTableUpdate(t: TableUpdate) {
    t.tableName.Some? ==> |t.tableName.value| <= 255
  }

  predicate TableUpdateAccepts(obj: Object) {
    && OptionalStrOk(obj, "table_name", Name255)
    && OptionalStrOk(obj, "table_description", Unbounded)
    && OptionalBoolOk(obj, "is_generated")
    && OptionalStrOk(obj, "generated_date", Unbounded)
  }

  function ParseTableUpdate(obj: Object): (r: Result<TableUpdate, ValidationError>)
    ensures r.Ok? <==> TableUpdateAccepts(obj)
    ensures r.Ok? ==> ValidTableUpdate(r.value)
    ensures r.Err? ==> r.error.kind != Missing
  {
    var name :- OptionalStr(obj, "table_name", Name255);
    var description :- OptionalStr(obj, "table_description", Unbounded);
    var isGenerated :- OptionalBool(obj, "is_generated");
    var generatedDate :- OptionalStr(obj, "generated_date", Unbounded);
    Ok(TableUpdate(name, description, isGenerated, generatedDate))
  }

  function TableUpdateJson(t: TableUpdate): Object {
    map["table_name" := StrJson(t.tableName),
        "table_description" := StrJson(t.tableDescription),
        "is_generated" := BoolJson(t.isGenerated),
        "generated_date" := StrJson(t.generatedDate)]
  }

  lemma TableUpdateRoundTrip(t: TableUpdate)
    requires ValidTableUpdate(t)
    ensures ParseTableUpdate(TableUpdateJson(t)) == Ok(t)
  {
    var obj := TableUpdateJson(t);
    assert TableUpdateAccepts(obj);
  }

  // ------------------------------------------------- FieldDatatypeBase

  datatype FieldDatatypeBase = FieldDatatypeBase(
    displayName: string,
    postgresql: Option<string>,
    mysql: Option<string>,
    mongodb: Option<string>)

  predicate ValidDatatype(d: FieldDatatypeBase) {
    && |d.displayName| <= 100
    && (d.postgresql.Some? ==> |d.postgresql.value| <= 100)
    && (d.mysql.Some? ==> |d.mysql.value| <= 100)
    && (d.mongodb.Some? ==> |d.mongodb.value| <= 100)
  }

  predicate DatatypeAccepts(obj: Object) {
    && RequiredStrOk(obj, "display_name", Name100)
    && OptionalStrOk(obj, "postgresql", Name100)
    && OptionalStrOk(obj, "mysql", Name100)
    && OptionalStrOk(obj, "mongodb", Name100)
  }

  function ParseFieldDatatype(obj: Object): (r: Result<FieldDatatypeBase, ValidationError>)
    ensures r.Ok? <==> DatatypeAccepts(obj)
    ensures r.Ok? ==> ValidDatatype(r.value) && r.value.displayName == obj["display_name"].s
    ensures r.Err? && r.error.kind == Missing ==> r.error.loc == "display_name"
  {
    var displayName :- RequiredStr(obj, "display_name", Name100);
    var postgresql :- OptionalStr(obj, "postgresql", Name100);
    var mysql :- OptionalStr(obj, "mysql", Name100);
    var mongodb :- OptionalStr(obj, "mongodb", Name100);
    Ok(FieldDatatypeBase(displayName, postgresql, mysql, mongodb))
  }

  function DatatypeJson(d: FieldDatatypeBase): Object {
    map["display_name" := JStr(d.displayName),
        "postgresql" := StrJson(d.postgresql),
        "mysql" := StrJson(d.mysql),
        "mongodb" := StrJson(d.mongodb)]
  }

  lemma DatatypeRoundTrip(d: FieldDatatypeBase)
    requires ValidDatatype(d)
    ensures ParseFieldDatatype(DatatypeJson(d)) == Ok(d)
  {
    var obj := DatatypeJson(d);
    assert DatatypeAccepts(obj);
  }

  // ---------------------------------------------------- TableFieldBase

  datatype TableFieldBase = TableFieldBase(
    tableId: int,
    fieldName: string,
    fieldDatatypeId: int,
    isPrimary: bool,
    fieldLabel: Option<string>,
    displayName: Option<string>,
    isAutoIncrement: bool,
    isForeignKey: bool,
    referenceTableId: Option<int>,
    referenceTableFieldId: Option<int>)

  predicate ValidField(f: TableFieldBase) {
    && |f.fieldName| <= 255
    && (f.fieldLabel.Some? ==> |f.fieldLabel.value| <= 255)
    && (f.displayName.Some? ==> |f.displayName.value| <= 255)
  }

  predicate FieldAccepts(obj: Object) {
    && RequiredIntOk(obj, "table_id")
    && RequiredStrOk(obj, "field_name", Name255)
    && RequiredIntOk(obj, "field_datatype_id")
    && DefaultedBoolOk(obj, "is_primary")
    && OptionalStrOk(obj, "field_label", Name255)
    && OptionalStrOk(obj, "display_name", Name255)
    && DefaultedBoolOk(obj, "is_auto_increment")
    && DefaultedBoolOk(obj, "is_foreign_key")
    && OptionalIntOk(obj, "reference_table_id")
    && OptionalIntOk(obj, "reference_table_field_id")
  }

  function ParseTableField(obj: Object): (r: Result<TableFieldBase, ValidationError>)
    ensures r.Ok? <==> FieldAccepts(obj)
    ensures r.Ok? ==> ValidField(r.value)
    ensures r.Ok? ==> r.value.tableId == obj["table_id"].i && r.value.fieldName == obj["field_name"].s
                      && r.value.fieldDatatypeId == obj["field_datatype_id"].i
    ensures r.Ok? ==> (r.value.isPrimary <==> "is_primary" in obj && obj["is_primary"] == JBool(true))
    ensures r.Ok? ==> (r.value.isAutoIncrement <==> "is_auto_increment" in obj && obj["is_auto_increment"] == JBool(true))
    ensures r.Ok? ==> (r.value.isForeignKey <==> "is_foreign_key" in obj && obj["is_foreign_key"] == JBool(true))
    ensures r.Err? && r.error.kind == Missing ==> r.error.loc in {"table_id", "field_name", "field_datatype_id"}
  {
    var tableId :- RequiredInt(obj, "table_id");
    var fieldName :- RequiredStr(obj, "field_name", Name255);
    var datatypeId :- RequiredInt(obj, "field_datatype_id");
    var isPrimary :- DefaultedBool(obj, "is_primary");
    var fieldLabel :- OptionalStr(obj, "field_label", Name255);
    var displayName :- OptionalStr(obj, "display_name", Name255);
    var isAutoIncrement :- DefaultedBool(obj, "is_auto_increment");
    var isForeignKey :- DefaultedBool(obj, "is_foreign_key");
    var referenceTableId :- OptionalInt(obj, "reference_table_id");
    var referenceFieldId :- OptionalInt(obj, "reference_table_field_id");
    Ok(TableFieldBase(tableId, fieldName, datatypeId, isPrimary, fieldLabel, displayName,
                      isAutoIncrement, isForeignKey, referenceTableId, referenceFieldId))
  }

  function FieldJson(f: TableFieldBase): Object {
    map["table_id" := JInt(f.tableId),
        "field_name" := JStr(f.fieldName),
        "field_datatype_id" := JInt(f.fieldDatatypeId),
        "is_primary" := JBool(f.isPrimary),
        "field_label" := StrJson(f.fieldLabel),
        "display_name" := StrJson(f.displayName),
        "is_auto_increment" := JBool(f.isAutoIncrement),
        "is_foreign_key" := JBool(f.isForeignKey),
        "reference_table_id" := IntJson(f.referenceTableId),
        "reference_table_field_id" := IntJson(f.referenceTableFieldId)]
  }

  lemma FieldRoundTrip(f: TableFieldBase)
    requires ValidField(f)
    ensures ParseTableField(FieldJson(f)) == Ok(f)
  {
    var obj := FieldJson(f);
    assert FieldAccepts(obj);
  }

  /** With only the three required attributes, the flags are false and the
      optional attributes None. */
  lemma FieldDefaults(tableId: int, name: string, datatypeId: int)
    requires |name| <= 255
    ensures ParseTableField(map["table_id" := JInt(tableId), "field_name" := JStr(name),
                                "field_datatype_id" := JInt(datatypeId)])
         == Ok(TableFieldBase(tableId, name, datatypeId, false, None, None, false, false, None, None))
  {
    var obj := map["table_id" := JInt(tableId), "field_name" := JStr(name), "field_datatype_id" := JInt(datatypeId)];
    assert FieldAccepts(obj);
  }

  /** The row `create_field` stores for an accepted body: the same ten
      attributes, which is what the DDL generator later reads. */
  function StoredRow(f: TableFieldBase): (row: Ddl.FieldRow)
    ensures row.tableId == f.tableId && row.fieldName == f.fieldName
    ensures row.fieldDatatypeId == f.fieldDatatypeId
    ensures row.isPrimary == f.isPrimary && row.isAutoIncrement == f.isAutoIncrement
  {
    Ddl.FieldRow(f.tableId, f.fieldName, f.fieldDatatypeId, f.isPrimary, f.fieldLabel, f.displayName,
                 f.isAutoIncrement, f.isForeignKey, f.referenceTableId, f.referenceTableFieldId)
  }

  /** The column line of a created field is decided by the request body
      alone: its name, and SERIAL / PRIMARY KEY exactly when the body sent
      `true` for the flag. */
  lemma CreatedFieldColumnLine(obj: Object, sqlType: string)
    requires FieldAccepts(obj)
    ensures ParseTableField(obj).Ok?
    ensures Ddl.ColumnLine(StoredRow(ParseTableField(obj).value), sqlType)
         == Ddl.ColumnHead(obj["field_name"].s, sqlType)
            + Ddl.Modifiers("is_auto_increment" in obj && obj["is_auto_increment"] == JBool(true),
                            "is_primary" in obj && obj["is_primary"] == JBool(true))
  {
    Ddl.ColumnLineParts(StoredRow(ParseTableField(obj).value), sqlType);
  }

  // -------------------------------------------------- TableFieldUpdate

  datatype TableFieldUpdate = TableFieldUpdate(
    tableId: Option<int>,
    fieldName: Option<string>,
    fieldDatatypeId: Option<int>,
    isPrimary: Option<bool>,
    fieldLabel: Option<string>,
    displayName: Option<string>,
    isAutoIncrement: Option<bool>,
    isForeignKey: Option<bool>,
    referenceTableId: Option<int>,
    referenceTableFieldId: Option<int>)

  predicate ValidFieldUpdate(f: TableFieldUpdate) {
    && (f.fieldName.Some? ==> |f.fieldName.value| <= 255)
    && (f.fieldLabel.Some? ==> |f.fieldLabel.value| <= 255)
    && (f.displayName.Some? ==> |f.displayName.value| <= 255)
  }

  predicate FieldUpdateAccepts(obj: Object) {
    && OptionalIntOk(obj, "table_id")
    && OptionalStrOk(obj, "field_name", Name255)
    && OptionalIntOk(obj, "field_datatype_id")
    && OptionalBoolOk(obj, "is_primary")
    && OptionalStrOk(obj, "field_label", Name255)
    && OptionalStrOk(obj, "display_name", Name255)
    && OptionalBoolOk(obj, "is_auto_increment")
    && OptionalBoolOk(obj, "is_foreign_key")
    && OptionalIntOk(obj, "reference_table_id")
    && OptionalIntOk(obj, "reference_table_field_id")
  }

  function ParseTableFieldUpdate(obj: Object): (r: Result<TableFieldUpdate, ValidationError>)
    ensures r.Ok? <==> FieldUpdateAccepts(obj)
    ensures r.Ok? ==> ValidFieldUpdate(r.value)
    ensures r.Err? ==> r.error.kind != Missing
  {
    var tableId :- OptionalInt(obj, "table_id");
    var fieldName :- OptionalStr(obj, "field_name", Name255);
    var datatypeId :- OptionalInt(obj, "field_datatype_id");
    var isPrimary :- OptionalBool(obj, "is_primary");
    var fieldLabel :- OptionalStr(obj, "field_label", Name255);
    var displayName :- OptionalStr(obj, "display_name", Name255);
    var isAutoIncrement :- OptionalBool(obj, "is_auto_increment");
    var isForeignKey :- OptionalBool(obj, "is_foreign_key");
    var referenceTableId :- OptionalInt(obj, "reference_table_id");
    var referenceFieldId :- OptionalInt(obj, "reference_table_field_id");
    Ok(TableFieldUpdate(tableId, fieldName, datatypeId, isPrimary, fieldLabel, displayName,
                        isAutoIncrement, isForeignKey, referenceTableId, referenceFieldId))
  }

  function FieldUpdateJson(f: TableFieldUpdate): Object {
    map["table_id" := IntJson(f.tableId),
        "field_name" := StrJson(f.fieldName),
        "field_datatype_id" := IntJson(f.fieldDatatypeId),
        "is_primary" := BoolJson(f.isPrimary),
        "field_label" := StrJson(f.fieldLabel),
        "display_name" := StrJson(f.displayName),
        "is_auto_increment" := BoolJson(f.isAutoIncrement),
        "is_foreign_key" := BoolJson(f.isForeignKey),
        "reference_table_id" := IntJson(f.referenceTableId),
        "reference_table_field_id" := IntJson(f.referenceTableFieldId)]
  }

  lemma FieldUpdateRoundTrip(f: TableFieldUpdate)
    requires ValidFieldUpdate(f)
    ensures ParseTableFieldUpdate(FieldUpdateJson(f)) == Ok(f)
  {
    var obj := FieldUpdateJson(f);
    OptionalIntOf(obj, "table_id", f.tableId);
    OptionalStrOf(obj, "field_name", Name255, f.fieldName);
    OptionalIntOf(obj, "field_datatype_id", f.fieldDatatypeId);
    OptionalBoolOf(obj, "is_primary", f.isPrimary);
    OptionalStrOf(obj, "field_label", Name255, f.fieldLabel);
    OptionalStrOf(obj, "display_name", Name255, f.displayName);
    OptionalBoolOf(obj, "is_auto_increment", f.isAutoIncrement);
    OptionalBoolOf(obj, "is_foreign_key", f.isForeignKey);
    OptionalIntOf(obj, "reference_table_id", f.referenceTableId);
    OptionalIntOf(obj, "reference_table_field_id", f.referenceTableFieldId);
  }

  // -------------------------------------------------- update models

  /** Every attribute of every update model may be absent: the empty body is
      accepted and reads as all None. */
  lemma EmptyUpdatesAccepted()
    ensures ParseProjectUpdate(map[]) == Ok(ProjectUpdate(None, None, None, None, None))
    ensures ParseTableUpdate(map[]) == Ok(TableUpdate(None, None, None, None))
    ensures ParseTableFieldUpdate(map[])
         == Ok(TableFieldUpdate(None, None, None, None, None, None, None, None, None, None))
  {
  }

  /** An update body accepts any subset of a valid create body's attributes:
      whatever the create model accepts, the matching update model accepts. */
  lemma CreateBodyIsUpdateBody(obj: Object)
    requires FieldAccepts(obj)
    ensures FieldUpdateAccepts(obj)
  {
  }
}
