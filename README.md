# Project Manager: DDL generation, request models, field form and themes

This project models, in Dafny, the parts of the Project Manager application
that carry logic rather than plumbing:

- **The `CREATE TABLE` generator of the Python backend** (`DatabaseOperations.generate_sql` and
  `get_sql_type`). It looks up a table, reads its field rows in ascending
  `table_wise_field_id` order and resolves each field's PostgreSQL type, falling back to `TEXT`
  when the datatype row is missing. It writes one column line per field,
  `"  " + name + " " + type`, then `" SERIAL"`, then `" PRIMARY KEY"`. The lines are joined with
  `",\n"` inside `CREATE TABLE <name> (\n … \n);`. The generator is an imperative method proved
  equal to a specification function. Lemmas state line count, order, modifier order, the fallback,
  the empty table, and that reference attributes never reach the output.
- **The `"DELETE 1"` check** of the three delete operations.
- **The FastAPI route `GET /api/generate-sql`**, which maps the generator's outcome to 200, 404 or 500,
  and a missing or non-integer `table_id` to 422.
- **The Express handler `GET /api/generate-sql` and `getSQLType`** of the Node backend. It answers 400
  for a falsy `table_id`, 500 for a missing table or a failed query, and keeps the field query's own row
  order. `getSQLType` falls back to `TEXT` for any falsy type name. Lemmas show when the two backends
  agree and where they part.
- **The request normalisation of the Node table and field POST/PUT handlers**: `''` dates become
  null, flags default to false, and falsy labels and ids become null.
- **The Pydantic request models**: per-attribute rules, parsers with exact acceptance conditions,
  and round trips.
- **The field editor's state rules** (`handleChange`, `isNumericType`, `resetForm`, `handleEdit`). The
  component is a class. `handleChange` is proved against a specification function, and the reset
  rules are shown to keep the form consistent.
- **The theme provider**: a class with the six state variables, the predefined themes, the mount-time
  restore rule, and `applyTheme`, `updateCustomTheme` and `resetToDefault`.

Files: `common.dfy` (Option, Result, HTTP answers, JavaScript values), `ddl.dfy` (the shared statement
text), `operations.dfy`, `sql_generation.dfy`, `node_backend.dfy`, `database_models.dfy`,
`table_field_form.dfy`, `theme_context.dfy`.

Database queries are not executed. Instead:

- The Python generator reads a `Store` of three maps: tables by id, field rows by
  `table_wise_field_id`, and datatype id to the optional `postgresql` column.
- The Node handler receives its query results as values, in the driver's order.
- The mount effect of the theme provider receives what browser storage held as parameters.

Two behaviours of the code worth knowing, both modelled as written:

- **Python, NULL `postgresql` column.** The Python code falls back to `TEXT` only when no datatype
  row exists. A row whose `postgresql` column is NULL is used as it is, and the f-string writes it as
  the word `None` (`PyOperations.NullDatatypeIsWrittenAsNone`).
- **Node, field order.** The Node field query has no `ORDER BY`, so the rows keep the driver's order
  (`NodeBackend.NodeRowsFollowQueryOrder`).

## Model

| member | source | states |
|---|---|---|
| Js.DefaultTo | Project_manager/Node_Backend/index.js:184-195 | an `undefined` value takes the default; any other value, `null` included, passes through |
| Js.OrNull | Project_manager/Node_Backend/index.js:208-213 | `v \|\| null` is null exactly when `v` is falsy, and `v` itself otherwise |
| Ddl.ColumnLineParts | Project_manager_py/cursor_main_1/Python_Backend/app/database/operations.py:284-289 | the line built by appending " SERIAL" then " PRIMARY KEY" is the head followed by the modifier suffix |
| Ddl.ModifiersRoundTrip | Project_manager_py/cursor_main_1/Python_Backend/app/database/operations.py:286-289 | the modifier suffix determines both flags, and is never "PRIMARY KEY SERIAL" |
| Ddl.ColumnLineDeterminesFlags | Project_manager_py/cursor_main_1/Python_Backend/app/database/operations.py:284-289 | a column line starts with two spaces, the name, a space and the type, and its suffix parses back to (is_auto_increment, is_primary) |
| Ddl.SerialBeforePrimaryKey | Project_manager_py/cursor_main_1/Python_Backend/app/database/operations.py:286-289 | with both flags set the line ends in " SERIAL PRIMARY KEY" |
| Ddl.ColumnLineIsOneRow | Project_manager_py/cursor_main_1/Python_Backend/app/database/operations.py:284 | a column line has no line break when the name and type have none |
| Ddl.SplitJoinedColumns | Project_manager_py/cursor_main_1/Python_Backend/app/database/operations.py:293 | the `",\n"`-joined lines split back into one row per line, in order, each but the last ending in "," |
| Ddl.StatementRows | Project_manager_py/cursor_main_1/Python_Backend/app/database/operations.py:277-294 | when the table name and the column lines contain no line break, the statement reads as a header row, the column rows, and ");", so N fields take N + 2 rows and none takes 3 |
| Ddl.EmptyStatement | Project_manager_py/cursor_main_1/Python_Backend/app/database/operations.py:277-294 | with no column lines the statement is `CREATE TABLE name (\n\n);` |
| Ordering.SortedIds | Project_manager_py/cursor_main_1/Python_Backend/app/database/operations.py:273 | `ORDER BY` on a key: the result is strictly ascending and holds exactly the keys of the set |
| PyOperations.FieldIdsOf | Project_manager_py/cursor_main_1/Python_Backend/app/database/operations.py:272-275 | the field keys read are exactly those of the table's rows, ascending |
| PyOperations.ColumnLines | Project_manager_py/cursor_main_1/Python_Backend/app/database/operations.py:281-291 | one line per key, in the keys' order, each the line of that field row |
| PyOperations.GenerateSqlSpec | Project_manager_py/cursor_main_1/Python_Backend/app/database/operations.py:260-294 | the result is an error exactly when the table has no row, and that error is "Table not found" |
| PyOperations.GenerateSql | Project_manager_py/cursor_main_1/Python_Backend/app/database/operations.py:260-294 | the loop that appends one line per field row and then joins and wraps computes exactly GenerateSqlSpec |
| PyOperations.GeneratedColumns | Project_manager_py/cursor_main_1/Python_Backend/app/database/operations.py:272-293 | the statement has one column line per field row of the table, and every such row's line appears at its key's position |
| PyOperations.EmptyTable | Project_manager_py/cursor_main_1/Python_Backend/app/database/operations.py:281-293 | a table without fields yields `CREATE TABLE name (\n\n);` |
| PyOperations.GeneratedRows | Project_manager_py/cursor_main_1/Python_Backend/app/database/operations.py:277-293 | when the table name, field names and type names contain no line break, the statement read as text has a header row, one row per field in ascending key order, and a closing row |
| PyOperations.ReferencesDoNotAffectOutput | Project_manager_py/cursor_main_1/Python_Backend/app/database/operations.py:281-293 | foreign-key flags, reference ids, labels and display names never change the statement |
| PyOperations.MissingDatatypeIsText | Project_manager_py/cursor_main_1/Python_Backend/app/database/operations.py:249-256 | a field whose datatype has no row is typed TEXT |
| PyOperations.NullDatatypeIsWrittenAsNone | Project_manager_py/cursor_main_1/Python_Backend/app/database/operations.py:249-256 | a datatype row with a NULL `postgresql` column is used as it is and written "None"; the fallback does not fire |
| PyOperations.PresentDatatypeIsVerbatim | Project_manager_py/cursor_main_1/Python_Backend/app/database/operations.py:249-256 | a datatype row with a non-NULL `postgresql` value gives that type name verbatim |
| PyOperations.UsersExample | Project_manager_py/cursor_main_1/Python_Backend/app/database/operations.py:260-294 | a `users` table with `id` (INTEGER, auto-increment, primary) and `email` (TEXT) yields the expected two-column statement |
| PyOperations.DeleteSucceededIffOneRow | Project_manager_py/cursor_main_1/Python_Backend/app/database/operations.py:80-87 | a delete reports success exactly when the driver's tag says one row was deleted |
| PyOperations.DeleteRow | Project_manager_py/cursor_main_1/Python_Backend/app/database/operations.py:80-87 | deleting by key removes that key, and answers true exactly when the key was present |
| PySqlRoute.GenerateSqlRoute | Project_manager_py/cursor_main_1/Python_Backend/app/routes/sql_generation.py:7-16 | 422 exactly when `table_id` is missing or not an integer; 200 with the generator's text exactly when the table exists; 404 exactly when it does not ("Table not found") or the driver raises a `ValueError` (its message); 500 "Failed to generate SQL: " + message exactly when the database fails otherwise |
| PySqlRoute.SuccessCarriesStatement | Project_manager_py/cursor_main_1/Python_Backend/app/routes/sql_generation.py:11-12 | a 200 answer's query begins with `CREATE TABLE <name> (\n`: the route passes the text through |
| NodeBackend.NodeSqlType | Project_manager/Node_Backend/index.js:353-360 | the type is never empty: it is the datatype name when that is present and non-empty, and TEXT otherwise |
| NodeBackend.NodeColumnLines | Project_manager/Node_Backend/index.js:334-341 | one line per returned field row, in the rows' order |
| NodeBackend.GenerateSqlHandler | Project_manager/Node_Backend/index.js:319-350 | 400 "Missing table_id" exactly when `table_id` is falsy; 500 exactly when a query fails or the table query has no row; otherwise 200 with the statement over the returned rows |
| NodeBackend.NodeRowsFollowQueryOrder | Project_manager/Node_Backend/index.js:326-343 | for any truthy `table_id`, the i-th column row of the answer comes from the i-th row the field query returned |
| NodeBackend.NodeMatchesPython | Project_manager/Node_Backend/index.js:319-360 | with the rows in ascending key order and non-empty type names equal to the postgresql types, both backends write the same statement |
| NodeBackend.NullTypeDiverges | Project_manager/Node_Backend/index.js:359 | a NULL type name gives TEXT here, where the Python backend writes None |
| NodeBackend.MissingTableIsInternalError | Project_manager/Node_Backend/index.js:328-349 | a table query with no row answers 500, not 404 |
| NodeBackend.EmptyDateToNull | Project_manager/Node_Backend/index.js:97-100 | `''` becomes null, any other value passes through, and the result is never `''` |
| NodeBackend.TableCreateParams | Project_manager/Node_Backend/index.js:96-107 | the five inserted values are the body's, with `is_generated` defaulting to false when undefined and a `''` date made null |
| NodeBackend.TableUpdateParams | Project_manager/Node_Backend/index.js:116-131 | the four written body values, with no default for `is_generated` and a `''` date made null, followed by the path id |
| NodeBackend.FieldParams | Project_manager/Node_Backend/index.js:183-214 | the three flags default to false when undefined; label, display name and reference ids are null exactly when falsy and unchanged otherwise; every other value passes through |
| NodeBackend.FieldUpdateParams | Project_manager/Node_Backend/index.js:224-266 | the same ten values as on insert, followed by the path id |
| NodeBackend.FieldParamsIdempotent | Project_manager/Node_Backend/index.js:183-214 | normalising the normalised values again changes nothing |
| Models.RequiredStr | Project_manager_py/cursor_main_1/Python_Backend/app/models/database_models.py:7 | a required string is accepted exactly when present, a string and within the length; a missing key is reported as missing |
| Models.OptionalStr | Project_manager_py/cursor_main_1/Python_Backend/app/models/database_models.py:30 | an optional string is accepted when absent, null, or a short-enough string, and reads None exactly for absent or null |
| Models.RequiredInt | Project_manager_py/cursor_main_1/Python_Backend/app/models/database_models.py:22 | a required integer is accepted exactly when present and a JSON integer |
| Models.OptionalInt | Project_manager_py/cursor_main_1/Python_Backend/app/models/database_models.py:91-92 | an optional integer is accepted when absent, null or a JSON integer |
| Models.DefaultedBool | Project_manager_py/cursor_main_1/Python_Backend/app/models/database_models.py:47 | a `bool = False` attribute is true exactly when given as JSON `true`; absent reads false; null is refused |
| Models.OptionalBool | Project_manager_py/cursor_main_1/Python_Backend/app/models/database_models.py:56 | an optional boolean is accepted when absent, null or a JSON boolean |
| Models.ParseDatabaseBase | Project_manager_py/cursor_main_1/Python_Backend/app/models/database_models.py:6-7 | accepted exactly when `database_name` is a string of at most 255 characters |
| Models.DatabaseRoundTrip | Project_manager_py/cursor_main_1/Python_Backend/app/models/database_models.py:6-7 | a valid record written as JSON parses back to itself |
| Models.ParseProjectBase | Project_manager_py/cursor_main_1/Python_Backend/app/models/database_models.py:19-24 | accepted exactly under the five attribute rules; only `project_name` and `database_id` can be missing |
| Models.ProjectRoundTrip | Project_manager_py/cursor_main_1/Python_Backend/app/models/database_models.py:19-24 | a valid project written as JSON parses back to itself |
| Models.ProjectMinimalBody | Project_manager_py/cursor_main_1/Python_Backend/app/models/database_models.py:21-24 | a name and a database id suffice; the rest reads None |
| Models.ParseProjectUpdate | Project_manager_py/cursor_main_1/Python_Backend/app/models/database_models.py:29-34 | accepted exactly under the optional rules, with `database_id` a JSON integer; no attribute can be missing |
| Models.ProjectUpdateRoundTrip | Project_manager_py/cursor_main_1/Python_Backend/app/models/database_models.py:29-34 | a valid update written as JSON parses back to itself |
| Models.ParseTableBase | Project_manager_py/cursor_main_1/Python_Backend/app/models/database_models.py:43-48 | accepted exactly under the five rules; `is_generated` is true only when given as true; the date is None exactly when absent or null |
| Models.TableRoundTrip | Project_manager_py/cursor_main_1/Python_Backend/app/models/database_models.py:43-48 | a valid table written as JSON parses back to itself |
| Models.TableDefaults | Project_manager_py/cursor_main_1/Python_Backend/app/models/database_models.py:46-48 | a table body with only project id and name is not generated and has no date |
| Models.ParseTableUpdate | Project_manager_py/cursor_main_1/Python_Backend/app/models/database_models.py:53-57 | accepted exactly under the optional rules; no attribute can be missing |
| Models.TableUpdateRoundTrip | Project_manager_py/cursor_main_1/Python_Backend/app/models/database_models.py:53-57 | a valid table update written as JSON parses back to itself |
| Models.ParseFieldDatatype | Project_manager_py/cursor_main_1/Python_Backend/app/models/database_models.py:66-70 | accepted exactly when `display_name` is a string of at most 100 and each engine type is absent, null or at most 100 |
| Models.DatatypeRoundTrip | Project_manager_py/cursor_main_1/Python_Backend/app/models/database_models.py:66-70 | a valid datatype written as JSON parses back to itself |
| Models.ParseTableField | Project_manager_py/cursor_main_1/Python_Backend/app/models/database_models.py:82-92 | accepted exactly under the ten rules; only table id, field name and datatype id can be missing; each flag is true only when given as true |
| Models.FieldRoundTrip | Project_manager_py/cursor_main_1/Python_Backend/app/models/database_models.py:82-92 | a valid field written as JSON parses back to itself |
| Models.FieldDefaults | Project_manager_py/cursor_main_1/Python_Backend/app/models/database_models.py:86-92 | with only the three required attributes, the flags are false and the optional attributes None |
| Models.CreatedFieldColumnLine | Project_manager_py/cursor_main_1/Python_Backend/app/database/operations.py:184-204 | the row stored for an accepted field body has a column line decided by the body alone: its name, SERIAL and PRIMARY KEY exactly when the body sent JSON `true` |
| Models.ParseTableFieldUpdate | Project_manager_py/cursor_main_1/Python_Backend/app/models/database_models.py:97-107 | accepted exactly under the optional rules, with integers and flags as JSON integers and booleans; no attribute can be missing |
| Models.FieldUpdateRoundTrip | Project_manager_py/cursor_main_1/Python_Backend/app/models/database_models.py:97-107 | a valid field update written as JSON parses back to itself |
| Models.EmptyUpdatesAccepted | Project_manager_py/cursor_main_1/Python_Backend/app/models/database_models.py:29-107 | every update model accepts the empty body and reads it as all None |
| Models.CreateBodyIsUpdateBody | Project_manager_py/cursor_main_1/Python_Backend/app/models/database_models.py:82-107 | every body the field create model accepts, the field update model accepts too |
| FieldForm.FindDatatype | Project_manager_py/cursor_main_1/React_Frontend/project_manager/src/Components/Field/TableField.jsx:71 | nothing is found exactly when no datatype has the id; what is found is a datatype with that id |
| FieldForm.FindReturnsFirst | Project_manager_py/cursor_main_1/React_Frontend/project_manager/src/Components/Field/TableField.jsx:71 | `find` answers the first datatype with the id |
| FieldForm.IsNumericChoiceIff | Project_manager_py/cursor_main_1/React_Frontend/project_manager/src/Components/Field/TableField.jsx:70-73 | a choice is numeric exactly when the first datatype with that id has the display name Number, Decimal Number or Primary Key |
| FieldForm.TextChangeSetsOnlyItsKey | Project_manager_py/cursor_main_1/React_Frontend/project_manager/src/Components/Field/TableField.jsx:144-192 | a text input sets its own key and leaves the rest of the form alone |
| FieldForm.ForeignKeySwitch | Project_manager_py/cursor_main_1/React_Frontend/project_manager/src/Components/Field/TableField.jsx:153-161 | turning the foreign-key switch off clears both reference ids; turning it on leaves them; nothing else changes |
| FieldForm.DatatypeChoice | Project_manager_py/cursor_main_1/React_Frontend/project_manager/src/Components/Field/TableField.jsx:163-179 | an unknown or non-numeric datatype switches the three flags off and clears both reference ids; a numeric one only records the choice |
| FieldForm.ReferenceTableChoice | Project_manager_py/cursor_main_1/React_Frontend/project_manager/src/Components/Field/TableField.jsx:181-190 | any reference table change clears the reference field |
| FieldForm.EmptyFormConsistent | Project_manager_py/cursor_main_1/React_Frontend/project_manager/src/Components/Field/TableField.jsx:55-65 | the initial form satisfies the consistency rules |
| FieldForm.ChangePreservesConsistency | Project_manager_py/cursor_main_1/React_Frontend/project_manager/src/Components/Field/TableField.jsx:144-193 | every change the rendered inputs allow keeps flags only on numeric types, reference ids only on foreign keys, and a reference field only under a reference table |
| FieldForm.TextOrEmpty | Project_manager_py/cursor_main_1/React_Frontend/project_manager/src/Components/Field/TableField.jsx:221-222 | a null label reads `''`, any other label is kept |
| FieldForm.IdOrEmpty | Project_manager_py/cursor_main_1/React_Frontend/project_manager/src/Components/Field/TableField.jsx:227-228 | a reference id reads as the empty choice exactly when it is null or 0 |
| FieldForm.EditThenSaveKeepsRow | Project_manager_py/cursor_main_1/React_Frontend/project_manager/src/Components/Field/TableField.jsx:199-231 | opening a field and saving it unchanged makes the Node backend, which the form calls, write back the values it had (no empty label, no id 0) |
| FieldForm.EmptyLabelComesBackNull | Project_manager_py/cursor_main_1/React_Frontend/project_manager/src/Components/Field/TableField.jsx:221 | an empty label is saved back as null by the Node backend |
| FieldForm.PythonRefusesEmptyReference | Project_manager_py/cursor_main_1/React_Frontend/project_manager/src/Components/Field/TableField.jsx:199 | a field without a reference table is sent with `reference_table_id: ''`, which both Python field models refuse, so the form cannot save it through the Python backend |
| FieldForm.TableFieldForm.constructor | Project_manager_py/cursor_main_1/React_Frontend/project_manager/src/Components/Field/TableField.jsx:51-65 | the form starts empty, with nothing being edited and the dialog closed |
| FieldForm.TableFieldForm.HandleChange | Project_manager_py/cursor_main_1/React_Frontend/project_manager/src/Components/Field/TableField.jsx:144-193 | the step-by-step update computes ApplyChange of the old form, changes nothing else, and keeps a consistent form consistent under an enabled change |
| FieldForm.TableFieldForm.ResetForm | Project_manager_py/cursor_main_1/React_Frontend/project_manager/src/Components/Field/TableField.jsx:263-277 | nothing is being edited, the dialog is closed, the nine keys are `''` or false, and the form is consistent |
| FieldForm.TableFieldForm.HandleEdit | Project_manager_py/cursor_main_1/React_Frontend/project_manager/src/Components/Field/TableField.jsx:217-231 | the edited id is remembered, the form holds the field's values with null text and null or 0 ids as `''`, and the dialog is open |
| Theme.PredefinedNames | Project_manager_py/cursor_main_1/React_Frontend/project_manager/src/Context/ThemeContext.jsx:6-151 | there are exactly six predefined themes, and "custom" is not one of them |
| Theme.PredefinedThemesShape | Project_manager_py/cursor_main_1/React_Frontend/project_manager/src/Context/ThemeContext.jsx:6-151 | every predefined theme has the same header and row style properties and paints its header in its primary colour |
| Theme.DefaultValues | Project_manager_py/cursor_main_1/React_Frontend/project_manager/src/Context/ThemeContext.jsx:7-30 | the "default" theme is Default Blue: primary #2196F3, secondary #21CBF3, with the common style shape and its header in the primary colour |
| Theme.ThemeProvider.constructor | Project_manager_py/cursor_main_1/React_Frontend/project_manager/src/Context/ThemeContext.jsx:154-164 | the first render shows the default theme, and the custom theme starts as a copy of it |
| Theme.ThemeProvider.Mounted | Project_manager_py/cursor_main_1/React_Frontend/project_manager/src/Context/ThemeContext.jsx:154-182 | a saved theme name is shown only if it is predefined, otherwise the default stays; a saved custom theme replaces `customTheme` without being shown |
| Theme.ThemeProvider.ApplyTheme | Project_manager_py/cursor_main_1/React_Frontend/project_manager/src/Context/ThemeContext.jsx:193-201 | a predefined name is shown; any other name changes nothing; the custom theme is untouched; the shown theme stays the named one |
| Theme.ThemeProvider.UpdateCustomTheme | Project_manager_py/cursor_main_1/React_Frontend/project_manager/src/Context/ThemeContext.jsx:203-210 | the new values become the custom theme, the current theme is "custom", and they are shown |
| Theme.ThemeProvider.ResetToDefault | Project_manager_py/cursor_main_1/React_Frontend/project_manager/src/Context/ThemeContext.jsx:212-214 | the default theme is shown and the custom theme is kept, as `applyTheme('default')` does |

## Left out

- The connection pools, the SQL text of the queries and their execution are left out. The store and the query results are parameters. A failing Python query is either a `ValueError` raised by the driver (`Rejected`, answered 404 with its message) or any other exception (`Unavailable`); which driver errors are `ValueError`s is not modelled, only that both kinds exist.
- `await` and `Promise.all` scheduling in the Node handler is left out. The lines are a sequential map that keeps the order of the rows.
- A failing `getSQLType` query in the Node handler is left out. It would answer 500; the model takes the datatype names as a total map.
- `toString(table_id)` at the head of the Node handler is left out. Its result is never used.
- NULL table names, NULL `field_name` and `field_datatype_id` columns, and NULL flag columns are left out. Table and field names are strings, datatype ids are integers, and the flags are booleans.
- The pg driver's handling of `undefined` parameters is left out. The driver sends them as NULL; the model keeps `Undefined` as the value passed.
- NodeBackend.GenerateSqlHandler: a `table_id` that is not an integer makes the query fail with 500. The model covers this through the query results, not by parsing the parameter.
- Models.ParseTableBase: `generated_date` is accepted as any string or null. Pydantic's datetime parsing, and its acceptance of numbers as timestamps, are not modelled.
- Models.ParseTableUpdate: the same datetime simplification as ParseTableBase.
- Models.ParseProjectBase: Pydantic's lax coercions are not modelled. Examples are numeric strings for integers and "true" for booleans. Only JSON values of the declared type are accepted. The same holds for every parser in the module.
- Models.RequiredInt: numeric strings such as "5", whole floats such as 5.0 and booleans, which Pydantic's lax mode turns into integers, are refused; only JSON integers are accepted.
- Models.OptionalInt: the same lax integer inputs (numeric strings, whole floats, booleans) are refused; only absent, null or a JSON integer is accepted.
- Models.DefaultedBool: the lax boolean inputs 0 and 1 and strings such as "true", "false", "yes" and "no" are refused; only JSON `true` and `false` are accepted.
- Models.OptionalBool: the same lax boolean inputs (0 and 1, "true", "false", "yes", "no") are refused; only absent, null or a JSON boolean is accepted.
- Models.ParseProjectUpdate: a `database_id` sent as a numeric string or a whole float is refused, although Pydantic would coerce it.
- Models.ParseTableFieldUpdate: the lax integer inputs (numeric strings, whole floats) and the lax boolean inputs (0 and 1, "true", "false") are refused, although Pydantic would coerce them.
- Models.CreatedFieldColumnLine: a flag sent as 1 or "true" is refused by the parser here, while the source accepts it and then writes SERIAL or PRIMARY KEY; the lemma covers only bodies whose flags are JSON booleans.
- Models.ParseTableField: Pydantic reports every failing attribute. The parsers report only the first, in declaration order. The same holds for every parser in the module.
- The `Database`, `Project`, `Table`, `FieldDatatype` and `TableField` response models are left out, and so are the `*Create` aliases. They add only an id, or nothing at all.
- FieldForm.TableFieldForm.HandleChange: toasts and the reference-field fetch the effect triggers are left out.
- `handleSubmit`'s HTTP call is left out. Only the payload it builds is modelled (`FieldForm.Payload`).
- The component's other state is left out: loading, the delete dialog, reference tables and field maps.
- The older field form in `Project_manager/React_Frontend` is left out. It has a plain key setter with no reset rules.
- Theme.ThemeProvider: the raw setters `setGridHeaderStyle`, `setSelectedRowStyle`, `setPrimaryColor` and `setSecondaryColor` are left out. The provider also exports them, and a caller using them can show values that belong to no theme. `Valid` holds only for the three operations.
- Theme.ThemeProvider.Mounted: browser storage is left out, and so are the effects that write to it and a `JSON.parse` that throws. A saved custom theme is taken to be well formed.
- A theme name such as "constructor" is left out. It is not a key of the themes object but reads a truthy inherited property in JavaScript; the model treats only the six names as predefined.
- The double response of the Node `/api/datatype` handler, CORS, routing and all rendering are left out.
