/**
 * The complete-appointment form: the nested field update, the symptom list and the
 * prescription list a doctor builds while completing an appointment. Every handler builds a
 * new form state from the previous one.
 */
module ConsultationForm {
  import opened Common
  import opened Seqs
  import opened Text

  /** A plain field holds the text typed into it, or a checkbox's state. */
  datatype FieldValue = TextValue(text: string) | FlagValue(flag: bool)

  datatype InputKind = TextInput | Checkbox

  /** The parts of a change event the handler reads: `name`, `value`, `type` and `checked`. */
  datatype ChangeEvent = ChangeEvent(name: string, value: string, kind: InputKind, checked: bool)

  /** The prescription line being typed; every field is text, empty until filled in. */
  datatype Draft = Draft(
    medicineId: string,
    dosage: string,
    frequency: string,
    duration: string,
    quantity: string,
    instructions: string)

  const EmptyDraft: Draft := Draft("", "", "", "", "", "")

  /** A line of the prescription list: the draft's fields plus the medicine's name. */
  datatype PrescribedItem = PrescribedItem(
    medicineId: string,
    dosage: string,
    frequency: string,
    duration: string,
    quantity: string,
    instructions: string,
    medicineName: string)

  /** An entry of the medicine catalogue the page loaded. */
  datatype MedicineOption = MedicineOption(id: string, name: string)

  /**
   * The page state: the plain fields by name, the two nested groups, the symptom list and its
   * input box, the prescription list, the draft line and the error message.
   */
  datatype FormState = FormState(
    fields: map<string, FieldValue>,
    vitalSigns: map<string, string>,
    admissionDetails: map<string, string>,
    symptoms: seq<string>,
    symptomInput: string,
    prescription: seq<PrescribedItem>,
    draft: Draft,
    error: string)

  const VitalSignsPrefix: string := "vitalSigns."
  const AdmissionPrefix: string := "admissionDetails."
  const MissingFieldsMessage: string := "Medicine, dosage, and quantity are required"
  const UnknownMedicine: string := "Unknown"

  /** `name.split('.')[1]`: the piece after the first dot (the callers' names always have one). */
  function SubField(name: string): string
  {
    var parts := Split(name, '.');
    if |parts| >= 2 then parts[1] else ""
  }

  /** A nested name picks out the subfield written after the group's prefix. */
  lemma SubFieldOfNestedName(group: string, field: string)
    requires forall i :: 0 <= i < |group| ==> group[i] != '.'
    requires forall i :: 0 <= i < |field| ==> field[i] != '.'
    ensures SubField(group + "." + field) == field
  {
    SplitAtFirstSeparator(group, field, '.');
    SplitNoSeparator(field, '.');
  }

  /**
   * `handleChange`: a `vitalSigns.` or `admissionDetails.` name sets that one subfield of its
   * group; any other name sets the plain field of that name, to `checked` for a checkbox and to
   * the typed value otherwise. Nothing else in the state changes.
   */
  function HandleChange(f: FormState, e: ChangeEvent): (r: FormState)
    ensures StartsWith(e.name, VitalSignsPrefix) ==>
      && r.vitalSigns.Keys == f.vitalSigns.Keys + {SubField(e.name)}
      && r.vitalSigns[SubField(e.name)] == e.value
      && (forall k :: k in f.vitalSigns && k != SubField(e.name) ==> r.vitalSigns[k] == f.vitalSigns[k])
      && r.(vitalSigns := f.vitalSigns) == f
    ensures !StartsWith(e.name, VitalSignsPrefix) && StartsWith(e.name, AdmissionPrefix) ==>
      && r.admissionDetails.Keys == f.admissionDetails.Keys + {SubField(e.name)}
      && r.admissionDetails[SubField(e.name)] == e.value
      && (forall k :: k in f.admissionDetails && k != SubField(e.name) ==>
            r.admissionDetails[k] == f.admissionDetails[k])
      && r.(admissionDetails := f.admissionDetails) == f
    ensures !StartsWith(e.name, VitalSignsPrefix) && !StartsWith(e.name, AdmissionPrefix) ==>
      && r.fields.Keys == f.fields.Keys + {e.name}
      && r.fields[e.name] == (if e.kind == Checkbox then FlagValue(e.checked) else TextValue(e.value))
      && (forall k :: k in f.fields && k != e.name ==> r.fields[k] == f.fields[k])
      && r.(fields := f.fields) == f
  {
    if StartsWith(e.name, VitalSignsPrefix) then
      f.(vitalSigns := f.vitalSigns[SubField(e.name) := e.value])
    else if StartsWith(e.name, AdmissionPrefix) then
      f.(admissionDetails := f.admissionDetails[SubField(e.name) := e.value])
    else
      f.(fields := f.fields[e.name := if e.kind == Checkbox then FlagValue(e.checked) else TextValue(e.value)])
  }

  /** Typing into `vitalSigns.<field>` sets exactly that vital sign and leaves the others alone. */
  lemma EditVitalSign(f: FormState, field: string, value: string, kind: InputKind, checked: bool)
    requires forall i :: 0 <= i < |field| ==> field[i] != '.'
    ensures var r := HandleChange(f, ChangeEvent(VitalSignsPrefix + field, value, kind, checked));
      && field in r.vitalSigns && r.vitalSigns[field] == value
      && (forall k :: k in f.vitalSigns && k != field ==> r.vitalSigns[k] == f.vitalSigns[k])
      && r.admissionDetails == f.admissionDetails && r.fields == f.fields
  {
    var name := VitalSignsPrefix + field;
    assert name == "vitalSigns" + "." + field;
    SubFieldOfNestedName("vitalSigns", field);
    assert name[..|VitalSignsPrefix|] == VitalSignsPrefix;
  }

  /**
   * `addSymptom`: a non-blank input is appended trimmed and the input box cleared; a blank one
   * leaves the whole state unchanged.
   */
  function AddSymptom(f: FormState): (r: FormState)
    ensures Trim(f.symptomInput) == "" ==> r == f
    ensures Trim(f.symptomInput) != "" ==>
      && |r.symptoms| == |f.symptoms| + 1
      && r.symptoms[..|f.symptoms|] == f.symptoms
      && r.symptoms[|f.symptoms|] == Trim(f.symptomInput)
      && r.symptomInput == ""
      && r.(symptoms := f.symptoms, symptomInput := f.symptomInput) == f
  {
    var entry := Trim(f.symptomInput);
    if entry != "" then f.(symptoms := f.symptoms + [entry], symptomInput := "") else f
  }

  /** Every symptom entered through the input box is trimmed and non-empty. */
  lemma AddedSymptomIsTrimmed(f: FormState)
    requires Trim(f.symptomInput) != ""
    ensures var s := AddSymptom(f).symptoms[|f.symptoms|];
      s != "" && Trim(s) == s
  {
    TrimIdempotent(f.symptomInput);
  }

  /** `removeSymptom(index)`: the symptom at `index` is dropped; nothing else changes. */
  function RemoveSymptom(f: FormState, index: int): (r: FormState)
    ensures 0 <= index < |f.symptoms| ==>
      && |r.symptoms| == |f.symptoms| - 1
      && r.symptoms[..index] == f.symptoms[..index] && r.symptoms[index..] == f.symptoms[index + 1..]
      && multiset(r.symptoms) + multiset{f.symptoms[index]} == multiset(f.symptoms)
    ensures !(0 <= index < |f.symptoms|) ==> r == f
    ensures r.(symptoms := f.symptoms) == f
  {
    if 0 <= index < |f.symptoms| then
      RemoveIndexPermutes(f.symptoms, index);
      f.(symptoms := RemoveIndex(f.symptoms, index))
    else f
  }

  /** Adding a symptom and removing it again (at the index it landed on) restores the list. */
  lemma AddThenRemoveSymptom(f: FormState)
    requires Trim(f.symptomInput) != ""
    ensures RemoveSymptom(AddSymptom(f), |f.symptoms|).symptoms == f.symptoms
  {
    RemoveLastAppended(f.symptoms, Trim(f.symptomInput));
  }

  /** `medicines.find(m => m._id === id)`: the position of the first medicine with that id. */
  function FindMedicine(medicines: seq<MedicineOption>, id: string): (r: Option<nat>)
    ensures r.Some? ==>
      && r.value < |medicines| && medicines[r.value].id == id
      && forall j :: 0 <= j < r.value ==> medicines[j].id != id
    ensures r.None? ==> forall j :: 0 <= j < |medicines| ==> medicines[j].id != id
  {
    if medicines == [] then None
    else if medicines[0].id == id then Some(0)
    else match FindMedicine(medicines[1..], id)
      case None => None
      case Some(k) => Some(k + 1)
  }

  /** `medicine?.name || 'Unknown'`: the found medicine's name unless it is missing or empty. */
  function MedicineName(medicines: seq<MedicineOption>, id: string): (name: string)
    ensures name != ""
    ensures (exists j :: 0 <= j < |medicines| && medicines[j].id == id && medicines[j].name == name)
      || name == UnknownMedicine
  {
    match FindMedicine(medicines, id)
    case None => UnknownMedicine
    case Some(k) => if medicines[k].name != "" then medicines[k].name else UnknownMedicine
  }

  /** The draft turned into a line of the list: every field of the draft, plus the medicine's name. */
  function ItemOf(d: Draft, medicineName: string): PrescribedItem
  {
    PrescribedItem(d.medicineId, d.dosage, d.frequency, d.duration, d.quantity, d.instructions, medicineName)
  }

  /** The three draft fields the handler requires. */
  predicate DraftComplete(d: Draft)
  {
    d.medicineId != "" && d.dosage != "" && d.quantity != ""
  }

  /**
   * `addPrescriptionItem`: an incomplete draft only sets the error message; a complete one is
   * appended with its medicine's name, the draft is reset and the error cleared.
   */
  function AddPrescriptionItem(f: FormState, medicines: seq<MedicineOption>): (r: FormState)
    ensures !DraftComplete(f.draft) ==> r == f.(error := MissingFieldsMessage)
    ensures DraftComplete(f.draft) ==>
      && |r.prescription| == |f.prescription| + 1
      && r.prescription[..|f.prescription|] == f.prescription
      && r.prescription[|f.prescription|] == ItemOf(f.draft, MedicineName(medicines, f.draft.medicineId))
      && r.prescription[|f.prescription|].medicineName != ""
      && r.draft == EmptyDraft && r.error == ""
      && r.(prescription := f.prescription, draft := f.draft, error := f.error) == f
  {
    if !DraftComplete(f.draft) then f.(error := MissingFieldsMessage)
    else
      var item := ItemOf(f.draft, MedicineName(medicines, f.draft.medicineId));
      f.(prescription := f.prescription + [item], draft := EmptyDraft, error := "")
  }

  /**
   * The added line names the first catalogue entry with the draft's id when that entry has a
   * name, and "Unknown" when no entry has the id.
   */
  lemma AddedItemName(f: FormState, medicines: seq<MedicineOption>, k: nat)
    requires DraftComplete(f.draft)
    requires k < |medicines| && medicines[k].id == f.draft.medicineId && medicines[k].name != ""
    requires forall j :: 0 <= j < k ==> medicines[j].id != f.draft.medicineId
    ensures AddPrescriptionItem(f, medicines).prescription[|f.prescription|].medicineName == medicines[k].name
  {
    var found := FindMedicine(medicines, f.draft.medicineId);
    assert found.Some?;
    assert found.value == k;
  }

  lemma UnknownMedicineName(f: FormState, medicines: seq<MedicineOption>)
    requires DraftComplete(f.draft)
    requires forall j :: 0 <= j < |medicines| ==> medicines[j].id != f.draft.medicineId
    ensures AddPrescriptionItem(f, medicines).prescription[|f.prescription|].medicineName == UnknownMedicine
  {
  }

  /** `removePrescriptionItem(index)`: the line at `index` is dropped; nothing else changes. */
  function RemovePrescriptionItem(f: FormState, index: int): (r: FormState)
    ensures 0 <= index < |f.prescription| ==>
      && |r.prescription| == |f.prescription| - 1
      && r.prescription[..index] == f.prescription[..index] && r.prescription[index..] == f.prescription[index + 1..]
      && multiset(r.prescription) + multiset{f.prescription[index]} == multiset(f.prescription)
    ensures !(0 <= index < |f.prescription|) ==> r == f
    ensures r.(prescription := f.prescription) == f
  {
    if 0 <= index < |f.prescription| then
      RemoveIndexPermutes(f.prescription, index);
      f.(prescription := RemoveIndex(f.prescription, index))
    else f
  }

  /** Adding a line and removing the last line restores the prescription list. */
  lemma AddThenRemovePrescriptionItem(f: FormState, medicines: seq<MedicineOption>)
    requires DraftComplete(f.draft)
    ensures RemovePrescriptionItem(AddPrescriptionItem(f, medicines), |f.prescription|).prescription == f.prescription
  {
    var item := ItemOf(f.draft, MedicineName(medicines, f.draft.medicineId));
    RemoveLastAppended(f.prescription, item);
  }
}
