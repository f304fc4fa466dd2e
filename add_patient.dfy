/**
 * The add-patient form: the flat form fields regrouped into the nested patient record, and the
 * comma-separated medical-history fields parsed into lists.
 */
module AddPatientForm {
  import opened Text

  /** The flat form, every field as typed. */
  datatype Form = Form(
    name: string,
    patientId: string,
    dateOfBirth: string,
    gender: string,
    phone: string,
    email: string,
    password: string,
    bloodGroup: string,
    street: string,
    city: string,
    state: string,
    zipCode: string,
    emergencyContactName: string,
    emergencyContactRelationship: string,
    emergencyContactPhone: string,
    allergies: string,
    chronicDiseases: string,
    previousSurgeries: string,
    status: string)

  datatype Address = Address(street: string, city: string, state: string, zipCode: string)
  datatype EmergencyContact = EmergencyContact(name: string, relationship: string, phone: string)
  datatype MedicalHistory = MedicalHistory(allergies: seq<string>, chronicDiseases: seq<string>, previousSurgeries: seq<string>)

  /** The record posted to the backend. */
  datatype Payload = Payload(
    name: string,
    patientId: string,
    dateOfBirth: string,
    gender: string,
    phone: string,
    email: string,
    password: string,
    bloodGroup: string,
    address: Address,
    emergencyContact: EmergencyContact,
    medicalHistory: MedicalHistory,
    status: string)

  /** `s.split(',').map(x => x.trim())`, or the empty list for an empty field. */
  function ParseList(s: string): (entries: seq<string>)
    ensures s == "" <==> entries == []
    ensures s != "" ==> |entries| == |Split(s, ',')|
    ensures s != "" ==> forall k :: 0 <= k < |entries| ==> entries[k] == Trim(Split(s, ',')[k])
  {
    if s == "" then []
    else
      var parts := Split(s, ',');
      seq(|parts|, k requires 0 <= k < |parts| => Trim(parts[k]))
  }

  /**
   * A non-empty field gives one entry per comma plus one, each without surrounding whitespace
   * and none containing a comma.
   */
  lemma ParseListShape(s: string)
    requires s != ""
    ensures |ParseList(s)| == Occurrences(s, ',') + 1
    ensures forall k :: 0 <= k < |ParseList(s)| ==> Trim(ParseList(s)[k]) == ParseList(s)[k]
    ensures forall k, i :: 0 <= k < |ParseList(s)| && 0 <= i < |ParseList(s)[k]| ==> ParseList(s)[k][i] != ','
  {
    SplitCount(s, ',');
    var parts := Split(s, ',');
    var entries := ParseList(s);
    forall k | 0 <= k < |entries|
      ensures Trim(entries[k]) == entries[k]
      ensures forall i :: 0 <= i < |entries[k]| ==> entries[k][i] != ','
    {
      TrimIdempotent(parts[k]);
      TrimKeepsAbsent(parts[k], ',');
    }
  }

  /**
   * Empty segments are kept: two commas in a row give an empty entry between the trimmed
   * pieces on either side, as "a,,b" gives "a", "" and "b".
   */
  lemma EmptySegmentKept(p: string, q: string)
    requires forall i :: 0 <= i < |p| ==> p[i] != ','
    requires forall i :: 0 <= i < |q| ==> q[i] != ','
    ensures ParseList(p + ",," + q) == [Trim(p), "", Trim(q)]
  {
    var tail := [','] + q;
    assert p + ",," + q == p + [','] + tail;
    LeadingSeparator(q);
    SplitAtFirstSeparator(p, tail, ',');
    assert Split(p + ",," + q, ',') == [p, [], q];
  }

  /** A leading comma gives an empty first piece. */
  lemma LeadingSeparator(q: string)
    requires forall i :: 0 <= i < |q| ==> q[i] != ','
    ensures Split([','] + q, ',') == [[], q]
  {
    assert ([','] + q)[1..] == q;
    SplitNoSeparator(q, ',');
  }

  /** `handleSubmit`'s payload: the address and contact fields nested, the history fields parsed. */
  function PayloadOf(f: Form): (p: Payload)
    ensures p.address == Address(f.street, f.city, f.state, f.zipCode)
    ensures p.emergencyContact == EmergencyContact(f.emergencyContactName, f.emergencyContactRelationship, f.emergencyContactPhone)
    ensures p.medicalHistory.allergies == ParseList(f.allergies)
    ensures p.medicalHistory.chronicDiseases == ParseList(f.chronicDiseases)
    ensures p.medicalHistory.previousSurgeries == ParseList(f.previousSurgeries)
    ensures p.name == f.name && p.patientId == f.patientId && p.email == f.email && p.password == f.password
    ensures p.dateOfBirth == f.dateOfBirth && p.gender == f.gender && p.phone == f.phone
    ensures p.bloodGroup == f.bloodGroup && p.status == f.status
  {
    Payload(
      f.name, f.patientId, f.dateOfBirth, f.gender, f.phone, f.email, f.password, f.bloodGroup,
      Address(f.street, f.city, f.state, f.zipCode),
      EmergencyContact(f.emergencyContactName, f.emergencyContactRelationship, f.emergencyContactPhone),
      MedicalHistory(ParseList(f.allergies), ParseList(f.chronicDiseases), ParseList(f.previousSurgeries)),
      f.status)
  }

  /**
   * The address and emergency-contact fields reach the payload unchanged: two forms with the
   * same payload agree on all seven of them. (The list fields do not: `ParseList` trims.)
   */
  lemma PayloadDeterminesAddressAndContact(f: Form, g: Form)
    requires PayloadOf(f) == PayloadOf(g)
    ensures f.street == g.street && f.city == g.city && f.state == g.state && f.zipCode == g.zipCode
    ensures f.emergencyContactName == g.emergencyContactName
    ensures f.emergencyContactRelationship == g.emergencyContactRelationship
    ensures f.emergencyContactPhone == g.emergencyContactPhone
  {
  }
}
