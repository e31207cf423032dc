/** The field editor of the React front end (`TableField`): the nine-key form
    record, the reset rules `handleChange` applies when a switch or a select
    changes, the numeric-datatype test that decides whether the switches are
    shown, and the `resetForm` and `handleEdit` state updates. */
module FieldForm {
  import opened Common
  import opened Js
  import opened Ddl
  import NodeBackend
  import Models

  /** The value of a `<Select>`: its empty item `''`, or an id. */
  datatype SelectValue = Unselected | Selected(id: int)

  /** A select value as a JavaScript value: `''` or the number. */
  function SelectJs(v: SelectValue): JsValue {
    match v
    case Unselected => Str("")
    case Selected(n) => Num(n)
  }

  /** `formData`. */
  datatype FormData = FormData(
    fieldName: string,
    fieldLabel: string,
    displayName: string,
    fieldDatatypeId: SelectValue,
    isPrimary: bool,
    isAutoIncrement: bool,
    isForeignKey: bool,
    referenceTableId: SelectValue,
    referenceTableFieldId: SelectValue)

  /** The form as `useState` and `resetForm` set it: every text `''`, every
      select on its empty item, every switch off. */
  const EmptyForm: FormData :=
    FormData("", "", "", Unselected, false, false, false, Unselected, Unselected)

  /** A row of the datatype list the form offers. */
  datatype Datatype = Datatype(fieldDatatypeId: int, displayName: string)

  /** The display names that count as numeric. */
  const NumericNames: set<string> := {"Number", "Decimal Number", "Primary Key"}

  /** `datatypes.find(dt => dt.field_datatype_id === id)`. */
  function FindDatatype(datatypes: seq<Datatype>, id: int): (r: Option<Datatype>)
    ensures r.None? <==> forall i :: 0 <= i < |datatypes| ==> datatypes[i].fieldDatatypeId != id
    ensures r.Some? ==> r.value in datatypes && r.value.fieldDatatypeId == id
    decreases |datatypes|
  {
    if datatypes == [] then None
    else if datatypes[0].fieldDatatypeId == id then Some(datatypes[0])
    else FindDatatype(datatypes[1..], id)
  }

  /** `find` answers the first row with the id. */
  lemma {:induction false} FindReturnsFirst(datatypes: seq<Datatype>, id: int)
    requires FindDatatype(datatypes, id).Some?
    ensures exists i :: 0 <= i < |datatypes| && datatypes[i] == FindDatatype(datatypes, id).value
                        && forall j :: 0 <= j < i ==> datatypes[j].fieldDatatypeId != id
    decreases |datatypes|
  {
    if datatypes[0].fieldDatatypeId != id {
      var rest := datatypes[1..];
      FindReturnsFirst(rest, id);
      var i :| 0 <= i < |rest| && rest[i] == FindDatatype(rest, id).value
               && forall j :: 0 <= j < i ==> rest[j].fieldDatatypeId != id;
      assert datatypes[i + 1] == rest[i];
      assert forall j :: 0 <= j < i + 1 ==> datatypes[j].fieldDatatypeId != id by {
        forall j | 0 <= j < i + 1 ensures datatypes[j].fieldDatatypeId != id {
          if j > 0 { assert datatypes[j] == rest[j - 1]; }
        }
      }
    } else {
      assert datatypes[0] == FindDatatype(datatypes, id).value;
    }
  }

  /** `isNumericType` for a select value: the chosen id resolves to a
      datatype whose display name is numeric. The empty item (`parseInt('')`
      is NaN) never resolves. */
  predicate IsNumericChoice(datatypes: seq<Datatype>, v: SelectValue) {
    v.Selected? && FindDatatype(datatypes, v.id).Some?
    && FindDatatype(datatypes, v.id).value.displayName in NumericNames
  }

  /** The first datatype with the chosen id has a numeric display name,
      and conversely: later rows with the same id play no part. */
  lemma IsNumericChoiceIff(datatypes: seq<Datatype>, v: SelectValue)
    ensures IsNumericChoice(datatypes, v) <==>
              v.Selected? && exists i :: 0 <= i < |datatypes| && datatypes[i].fieldDatatypeId == v.id
                                        && datatypes[i].displayName in NumericNames
                                        && forall j :: 0 <= j < i ==> datatypes[j].fieldDatatypeId != v.id
  {
    if v.Selected? {
      var r := FindDatatype(datatypes, v.id);
      if r.Some? {
        FindReturnsFirst(datatypes, v.id);
      }
      if exists i :: 0 <= i < |datatypes| && datatypes[i].fieldDatatypeId == v.id
                     && datatypes[i].displayName in NumericNames
                     && forall j :: 0 <= j < i ==> datatypes[j].fieldDatatypeId != v.id {
        var i :| 0 <= i < |datatypes| && datatypes[i].fieldDatatypeId == v.id
                 && datatypes[i].displayName in NumericNames
                 && forall j :: 0 <= j < i ==> datatypes[j].fieldDatatypeId != v.id;
        var k :| 0 <= k < |datatypes| && datatypes[k] == r.value && datatypes[k].fieldDatatypeId == v.id
                 && forall j :: 0 <= j < k ==> datatypes[j].fieldDatatypeId != v.id;
        assert k == i;
      }
    }
  }

  // ---------------------------------------------------------- changes

  datatype TextKey = FieldNameKey | FieldLabelKey | DisplayNameKey
  datatype SelectKey = DatatypeKey | ReferenceTableKey | ReferenceFieldKey
  datatype SwitchKey = PrimaryKey | AutoIncrementKey | ForeignKeyKey

  /** An input event: a text field's new `value`, a select's new `value`, or
      a switch's new `checked`. */
  datatype Change =
    | TextChange(textKey: TextKey, text: string)
    | SelectChange(selectKey: SelectKey, choice: SelectValue)
    | SwitchChange(switchKey: SwitchKey, checked: bool)

  /** `{ ...formData, [name]: type === 'checkbox' ? checked : value }`. */
  function SetNamed(form: FormData, change: Change): FormData {
    match change
    case TextChange(FieldNameKey, s) => form.(fieldName := s)
    case TextChange(FieldLabelKey, s) => form.(fieldLabel := s)
    case TextChange(DisplayNameKey, s) => form.(displayName := s)
    case SelectChange(DatatypeKey, v) => form.(fieldDatatypeId := v)
    case SelectChange(ReferenceTableKey, v) => form.(referenceTableId := v)
    case SelectChange(ReferenceFieldKey, v) => form.(referenceTableFieldId := v)
    case SwitchChange(PrimaryKey, b) => form.(isPrimary := b)
    case SwitchChange(AutoIncrementKey, b) => form.(isAutoIncrement := b)
    case SwitchChange(ForeignKeyKey, b) => form.(isForeignKey := b)
  }

  /** The foreign-key switch was turned off. */
  predicate ForeignKeyTurnedOff(change: Change) {
    change == SwitchChange(ForeignKeyKey, false)
  }

  /** A datatype was chosen that is not numeric. */
  predicate NonNumericChosen(datatypes: seq<Datatype>, change: Change) {
    change.SelectChange? && change.selectKey == DatatypeKey && !IsNumericChoice(datatypes, change.choice)
  }

  /** The reference table select changed. */
  predicate ReferenceTableChanged(change: Change) {
    change.SelectChange? && change.selectKey == ReferenceTableKey
  }

  /** The new form after a change, key by key: a key is cleared when one of
      the three reset rules covers it, otherwise it is the new value when it
      is the changed key and the old value when it is not. */
  function ApplyChange(form: FormData, datatypes: seq<Datatype>, change: Change): FormData {
    var named := SetNamed(form, change);
    var resetFlags := NonNumericChosen(datatypes, change);
    var clearReferences := ForeignKeyTurnedOff(change) || resetFlags;
    var clearReferenceField := clearReferences || ReferenceTableChanged(change);
    FormData(
      named.fieldName,
      named.fieldLabel,
      named.displayName,
      named.fieldDatatypeId,
      named.isPrimary && !resetFlags,
      named.isAutoIncrement && !resetFlags,
      named.isForeignKey && !resetFlags,
      if clearReferences then Unselected else named.referenceTableId,
      if clearReferenceField then Unselected else named.referenceTableFieldId)
  }

  // --------------------------------------------------- change lemmas

  /** A text change sets its key and nothing else. */
  lemma TextChangeSetsOnlyItsKey(form: FormData, datatypes: seq<Datatype>, k: TextKey, s: string)
    ensures var r := ApplyChange(form, datatypes, TextChange(k, s));
            && (k == FieldNameKey ==> r == form.(fieldName := s))
            && (k == FieldLabelKey ==> r == form.(fieldLabel := s))
            && (k == DisplayNameKey ==> r == form.(displayName := s))
  {
  }

  /** Turning the foreign-key switch off clears both reference ids; turning
      it on leaves them as they were. */
  lemma ForeignKeySwitch(form: FormData, datatypes: seq<Datatype>, checked: bool)
    ensures var r := ApplyChange(form, datatypes, SwitchChange(ForeignKeyKey, checked));
            && r.isForeignKey == checked
            && (!checked ==> r.referenceTableId == Unselected && r.referenceTableFieldId == Unselected)
            && (checked ==> r.referenceTableId == form.referenceTableId
                            && r.referenceTableFieldId == form.referenceTableFieldId)
            && r.(isForeignKey := form.isForeignKey, referenceTableId := form.referenceTableId,
                  referenceTableFieldId := form.referenceTableFieldId) == form
  {
  }

  /** Choosing a datatype that is unknown or not numeric switches all three
      flags off and clears both reference ids; choosing a numeric one only
      records the choice. */
  lemma DatatypeChoice(form: FormData, datatypes: seq<Datatype>, v: SelectValue)
    ensures var r := ApplyChange(form, datatypes, SelectChange(DatatypeKey, v));
            && r.fieldDatatypeId == v
            && (!IsNumericChoice(datatypes, v) ==>
                  r == form.(fieldDatatypeId := v, isPrimary := false, isAutoIncrement := false,
                             isForeignKey := false, referenceTableId := Unselected,
                             referenceTableFieldId := Unselected))
            && (IsNumericChoice(datatypes, v) ==> r == form.(fieldDatatypeId := v))
  {
  }

  /** Any change of the reference table clears the reference field. */
  lemma ReferenceTableChoice(form: FormData, datatypes: seq<Datatype>, v: SelectValue)
    ensures ApplyChange(form, datatypes, SelectChange(ReferenceTableKey, v))
         == form.(referenceTableId := v, referenceTableFieldId := Unselected)
  {
  }

  /** `!formData.reference_table_id`: the empty item and the id 0 are falsy. */
  predicate ChoiceTruthy(v: SelectValue) {
    Truthy(SelectJs(v))
  }

  /** The inputs the form renders, so the only changes a user can make: the
      switches only while the datatype is numeric, the reference selects only
      while the foreign-key switch is on, and the reference field select only
      while a reference table is chosen. */
  predicate Enabled(form: FormData, datatypes: seq<Datatype>, change: Change) {
    match change
    case TextChange(_, _) => true
    case SelectChange(DatatypeKey, _) => true
    case SelectChange(ReferenceTableKey, _) => form.isForeignKey
    case SelectChange(ReferenceFieldKey, _) => form.isForeignKey && ChoiceTruthy(form.referenceTableId)
    case SwitchChange(_, _) => IsNumericChoice(datatypes, form.fieldDatatypeId)
  }

  /** What the reset rules keep true of a form edited through its inputs: a
      flag is on only for a numeric datatype, reference ids are chosen only
      for a foreign key, and a reference field only under a reference table. */
  predicate Consistent(form: FormData, datatypes: seq<Datatype>) {
    && (form.isPrimary || form.isAutoIncrement || form.isForeignKey ==> IsNumericChoice(datatypes, form.fieldDatatypeId))
    && (!form.isForeignKey ==> form.referenceTableId == Unselected && form.referenceTableFieldId == Unselected)
    && (!ChoiceTruthy(form.referenceTableId) ==> form.referenceTableFieldId == Unselected)
  }

  lemma EmptyFormConsistent(datatypes: seq<Datatype>)
    ensures Consistent(EmptyForm, datatypes)
  {
  }

  /** Every change the rendered inputs allow keeps the form consistent. */
  lemma ChangePreservesConsistency(form: FormData, datatypes: seq<Datatype>, change: Change)
    requires Consistent(form, datatypes) && Enabled(form, datatypes, change)
    ensures Consistent(ApplyChange(form, datatypes, change), datatypes)
  {
    var r := ApplyChange(form, datatypes, change);
    match change
    case TextChange(_, _) =>
    case SelectChange(DatatypeKey, v) =>
      DatatypeChoice(form, datatypes, v);
    case SelectChange(ReferenceTableKey, v) =>
      ReferenceTableChoice(form, datatypes, v);
    case SelectChange(ReferenceFieldKey, v) =>
    case SwitchChange(k, b) =>
      if k == ForeignKeyKey {
        ForeignKeySwitch(form, datatypes, b);
      }
  }

  // ------------------------------------------------------------- edit

  /** `x || ''` for a text column. */
  function TextOrEmpty(v: Option<string>): (s: string)
    ensures v.Some? ==> s == v.value
    ensures v.None? ==> s == ""
  {
    if v.Some? then v.value else ""
  }

  /** `x || ''` for an id column: null and 0 both give the empty item. */
  function IdOrEmpty(v: Option<int>): (s: SelectValue)
    ensures s.Unselected? <==> v.None? || v.value == 0
    ensures s.Selected? ==> s.id == v.value
  {
    if v.Some? && v.value != 0 then Selected(v.value) else Unselected
  }

  /** The form `handleEdit` fills from a field row. */
  function FormFromField(f: FieldRow): FormData {
    FormData(f.fieldName, TextOrEmpty(f.fieldLabel), TextOrEmpty(f.displayName), Selected(f.fieldDatatypeId),
             f.isPrimary, f.isAutoIncrement, f.isForeignKey,
             IdOrEmpty(f.referenceTableId), IdOrEmpty(f.referenceTableFieldId))
  }

  /** `{ ...formData, table_id: tableId }`, the body `handleSubmit` sends. */
  function Payload(form: FormData, tableId: int): map<string, JsValue> {
    map["field_name" := Str(form.fieldName),
        "field_label" := Str(form.fieldLabel),
        "display_name" := Str(form.displayName),
        "field_datatype_id" := SelectJs(form.fieldDatatypeId),
        "is_primary" := Bool(form.isPrimary),
        "is_auto_increment" := Bool(form.isAutoIncrement),
        "is_foreign_key" := Bool(form.isForeignKey),
        "reference_table_id" := SelectJs(form.referenceTableId),
        "reference_table_field_id" := SelectJs(form.referenceTableFieldId),
        "table_id" := Num(tableId)]
  }

  function OptText(v: Option<string>): JsValue {
    match v
    case None => Null
    case Some(s) => Str(s)
  }

  function OptNum(v: Option<int>): JsValue {
    match v
    case None => Null
    case Some(n) => Num(n)
  }

  /** The ten values a field row holds, as the database would receive them. */
  function RowValues(f: FieldRow): seq<JsValue> {
    [Num(f.tableId), Str(f.fieldName), Num(f.fieldDatatypeId), Bool(f.isPrimary),
     OptText(f.fieldLabel), OptText(f.displayName), Bool(f.isAutoIncrement), Bool(f.isForeignKey),
     OptNum(f.referenceTableId), OptNum(f.referenceTableFieldId)]
  }

  /** Opening a field for editing and saving it unchanged makes the Node
      backend (port 3000, which `handleSubmit` calls) write back the values
      the field had, as long as no label is the empty string and no
      reference id is 0 (those come back as null). */
  lemma EditThenSaveKeepsRow(f: FieldRow)
    requires f.fieldLabel != Some("") && f.displayName != Some("")
    requires f.referenceTableId != Some(0) && f.referenceTableFieldId != Some(0)
    ensures NodeBackend.FieldParams(Payload(FormFromField(f), f.tableId)) == RowValues(f)
  {
    var form := FormFromField(f);
    PayloadColumns(form, f.tableId);
    PayloadFlagsAndReferences(form, f.tableId);
    TextComesBack(f.fieldLabel);
    TextComesBack(f.displayName);
    IdComesBack(f.referenceTableId);
    IdComesBack(f.referenceTableFieldId);
  }

  /** What the backend reads from the payload's column attributes. */
  lemma PayloadColumns(form: FormData, tableId: int)
    ensures var body := Payload(form, tableId);
            && Prop(body, "table_id") == Num(tableId)
            && Prop(body, "field_name") == Str(form.fieldName)
            && Prop(body, "field_datatype_id") == SelectJs(form.fieldDatatypeId)
            && Prop(body, "field_label") == Str(form.fieldLabel)
            && Prop(body, "display_name") == Str(form.displayName)
  {
  }

  /** What the backend reads from the payload's flags and references. */
  lemma PayloadFlagsAndReferences(form: FormData, tableId: int)
    ensures var body := Payload(form, tableId);
            && Prop(body, "is_primary") == Bool(form.isPrimary)
            && Prop(body, "is_auto_increment") == Bool(form.isAutoIncrement)
            && Prop(body, "is_foreign_key") == Bool(form.isForeignKey)
            && Prop(body, "reference_table_id") == SelectJs(form.referenceTableId)
            && Prop(body, "reference_table_field_id") == SelectJs(form.referenceTableFieldId)
  {
  }

  lemma TextComesBack(v: Option<string>)
    requires v != Some("")
    ensures OrNull(Str(TextOrEmpty(v))) == OptText(v)
  {
  }

  lemma IdComesBack(v: Option<int>)
    requires v != Some(0)
    ensures OrNull(SelectJs(IdOrEmpty(v))) == OptNum(v)
  {
  }

  /** Where the round trip through the Node backend loses information: an
      empty label is written back as null. */
  lemma EmptyLabelComesBackNull(f: FieldRow)
    requires f.fieldLabel == Some("")
    ensures NodeBackend.FieldParams(Payload(FormFromField(f), f.tableId))[4] == Null
  {
    var body := Payload(FormFromField(f), f.tableId);
    assert Prop(body, "field_label") == Str("");
  }

  /** A payload value as the Python backend's models would read its JSON. */
  function ModelJson(v: JsValue): Models.Json {
    match v
    case Null => Models.JNull
    case Bool(b) => Models.JBool(b)
    case Num(n) => Models.JInt(n)
    case Str(t) => Models.JStr(t)
    case Undefined => Models.JOther
    case Other => Models.JOther
  }

  /** A payload as a JSON object; no payload value is `undefined`. */
  function ModelBody(body: map<string, JsValue>): Models.Object {
    map k | k in body :: ModelJson(body[k])
  }

  /** The form was not written for the Python backend: a field without a
      reference table is sent with `reference_table_id: ''`, which both of
      that backend's field models refuse, so saving it there always fails. */
  lemma PythonRefusesEmptyReference(f: FieldRow)
    requires f.referenceTableId == None || f.referenceTableId == Some(0)
    ensures Models.ParseTableField(ModelBody(Payload(FormFromField(f), f.tableId))).Err?
    ensures Models.ParseTableFieldUpdate(ModelBody(Payload(FormFromField(f), f.tableId))).Err?
  {
    var obj := ModelBody(Payload(FormFromField(f), f.tableId));
    PayloadFlagsAndReferences(FormFromField(f), f.tableId);
    assert obj["reference_table_id"] == Models.JStr("");
    assert !Models.OptionalIntOk(obj, "reference_table_id");
  }

  // ------------------------------------------------------- component

  /** The state of one `TableField` component that these handlers touch.
      `datatypes` is the list fetched when the component mounts. */
  class TableFieldForm {
    var formData: FormData
    var editingFieldId: Option<int>
    var showForm: bool
    var datatypes: seq<Datatype>

    /** The initial state, once the datatype list has arrived. */
    constructor(datatypes: seq<Datatype>)
      ensures this.datatypes == datatypes
      ensures formData == EmptyForm && editingFieldId == None && !showForm
    {
      this.datatypes := datatypes;
      formData := EmptyForm;
      editingFieldId := None;
      showForm := false;
    }

    /** `isNumericType()`: decides whether the three switches are shown. */
    predicate IsNumericType()
      reads this
    {
      IsNumericChoice(datatypes, formData.fieldDatatypeId)
    }

    /** `handleChange`: start from the spread with the named key set, then
      apply each reset rule in turn, then commit. */
    method HandleChange(change: Change)
      modifies this
      ensures formData == ApplyChange(old(formData), datatypes, change)
      ensures datatypes == old(datatypes) && editingFieldId == old(editingFieldId) && showForm == old(showForm)
      ensures Consistent(old(formData), datatypes) && Enabled(old(formData), datatypes, change)
              ==> Consistent(formData, datatypes)
    {
      var newFormData := SetNamed(formData, change);
      if change.SwitchChange? && change.switchKey == ForeignKeyKey && !change.checked {
        newFormData := newFormData.(referenceTableId := Unselected, referenceTableFieldId := Unselected);
      }
      if change.SelectChange? && change.selectKey == DatatypeKey {
        var selected := if change.choice.Selected? then FindDatatype(datatypes, change.choice.id) else None;
        var isNumeric := selected.Some? && selected.value.displayName in NumericNames;
        if !isNumeric {
          newFormData := newFormData.(isPrimary := false, isAutoIncrement := false, isForeignKey := false,
                                      referenceTableId := Unselected, referenceTableFieldId := Unselected);
        }
      }
      if change.SelectChange? && change.selectKey == ReferenceTableKey {
        newFormData := newFormData.(referenceTableFieldId := Unselected);
      }
      ChangePreservesConsistencyIfEnabled(formData, datatypes, change);
      formData := newFormData;
    }

    /** `resetForm`: nothing is being edited, the dialog is closed, and the
      form is empty again. */
    method ResetForm()
      modifies this
      ensures formData == EmptyForm && editingFieldId == None && !showForm
      ensures datatypes == old(datatypes)
      ensures Consistent(formData, datatypes)
    {
      editingFieldId := None;
      showForm := false;
      formData := EmptyForm;
      EmptyFormConsistent(datatypes);
    }

    /** `handleEdit`: remember which field is edited, copy its values into
      the form, and open the dialog. */
    method HandleEdit(tableWiseFieldId: int, field: FieldRow)
      modifies this
      ensures editingFieldId == Some(tableWiseFieldId) && showForm
      ensures formData == FormFromField(field)
      ensures datatypes == old(datatypes)
    {
      editingFieldId := Some(tableWiseFieldId);
      formData := FormFromField(field);
      showForm := true;
    }
  }

  lemma ChangePreservesConsistencyIfEnabled(form: FormData, datatypes: seq<Datatype>, change: Change)
    ensures Consistent(form, datatypes) && Enabled(form, datatypes, change)
            ==> Consistent(ApplyChange(form, datatypes, change), datatypes)
  {
    if Consistent(form, datatypes) && Enabled(form, datatypes, change) {
      ChangePreservesConsistency(form, datatypes, change);
    }
  }
}
