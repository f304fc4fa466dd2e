/**
 * The case-insensitive search boxes of the patient and doctor management pages: a row is kept
 * when one of three optional fields contains the search term, ignoring case.
 */
module SearchFilters {
  import opened Common
  import opened Seqs
  import opened Text

  /** A patient row as the pages read it; any field may be absent. */
  datatype PatientRow = PatientRow(name: Option<string>, email: Option<string>, patientId: Option<string>)

  /** A doctor row as the management page reads it; any field may be absent. */
  datatype DoctorRow = DoctorRow(name: Option<string>, email: Option<string>, specialization: Option<string>)

  /**
   * `field?.toLowerCase().includes(term.toLowerCase())`: an absent field yields `undefined`,
   * which is falsy, so it never matches.
   */
  predicate FieldMatches(field: Option<string>, term: string)
  {
    field.Some? && Contains(Lower(field.value), Lower(term))
  }

  predicate PatientMatches(term: string, p: PatientRow)
  {
    FieldMatches(p.name, term) || FieldMatches(p.email, term) || FieldMatches(p.patientId, term)
  }

  /** The patient-management search: name, then e-mail, then patient id. */
  function ManagePatientsFilter(patients: seq<PatientRow>, term: string): (r: seq<PatientRow>)
    ensures IsSubsequence(r, patients)
    ensures forall p :: p in r <==> p in patients && PatientMatches(term, p)
    ensures forall p :: multiset(r)[p] == if PatientMatches(term, p) then multiset(patients)[p] else 0
  {
    var keep := (p: PatientRow) => PatientMatches(term, p);
    forall p ensures p in Filter(patients, keep) <==> p in patients && PatientMatches(term, p) {
      FilterMembership(patients, keep, p);
    }
    FilterCounts(patients, keep);
    Filter(patients, keep)
  }

  /** The doctor's own patient list tests the same fields in another order: name, patient id, e-mail. */
  predicate PatientMatchesByIdFirst(term: string, p: PatientRow)
  {
    FieldMatches(p.name, term) || FieldMatches(p.patientId, term) || FieldMatches(p.email, term)
  }

  function DoctorPatientsFilter(patients: seq<PatientRow>, term: string): (r: seq<PatientRow>)
    ensures IsSubsequence(r, patients)
    ensures forall p :: p in r <==> p in patients && PatientMatchesByIdFirst(term, p)
    ensures forall p :: multiset(r)[p] == if PatientMatchesByIdFirst(term, p) then multiset(patients)[p] else 0
  {
    var keep := (p: PatientRow) => PatientMatchesByIdFirst(term, p);
    forall p ensures p in Filter(patients, keep) <==> p in patients && PatientMatchesByIdFirst(term, p) {
      FilterMembership(patients, keep, p);
    }
    FilterCounts(patients, keep);
    Filter(patients, keep)
  }

  /** The two patient searches return the same rows in the same order. */
  lemma PatientSearchesAgree(patients: seq<PatientRow>, term: string)
    ensures DoctorPatientsFilter(patients, term) == ManagePatientsFilter(patients, term)
  {
    FilterCongruent(patients, (p: PatientRow) => PatientMatchesByIdFirst(term, p),
                              (p: PatientRow) => PatientMatches(term, p));
  }

  predicate DoctorMatches(term: string, d: DoctorRow)
  {
    FieldMatches(d.name, term) || FieldMatches(d.email, term) || FieldMatches(d.specialization, term)
  }

  /** The doctor-management search: name, e-mail, specialization. */
  function ManageDoctorsFilter(doctors: seq<DoctorRow>, term: string): (r: seq<DoctorRow>)
    ensures IsSubsequence(r, doctors)
    ensures forall d :: d in r <==> d in doctors && DoctorMatches(term, d)
    ensures forall d :: multiset(r)[d] == if DoctorMatches(term, d) then multiset(doctors)[d] else 0
  {
    var keep := (d: DoctorRow) => DoctorMatches(term, d);
    forall d ensures d in Filter(doctors, keep) <==> d in doctors && DoctorMatches(term, d) {
      FilterMembership(doctors, keep, d);
    }
    FilterCounts(doctors, keep);
    Filter(doctors, keep)
  }

  /** A field matches the empty term exactly when it is present. */
  lemma EmptyTermMatchesPresentField(field: Option<string>)
    ensures FieldMatches(field, "") <==> field.Some?
  {
    if field.Some? {
      ContainsEmpty(Lower(field.value));
    }
  }

  /** An absent field matches no term. */
  lemma AbsentFieldNeverMatches(term: string)
    ensures !FieldMatches(None, term)
  {
  }

  /** With an empty search box the patient page keeps exactly the rows with some field present. */
  lemma EmptyTermKeepsRowsWithAField(patients: seq<PatientRow>)
    ensures forall p :: p in ManagePatientsFilter(patients, "") <==>
      p in patients && (p.name.Some? || p.email.Some? || p.patientId.Some?)
  {
    forall p: PatientRow
      ensures PatientMatches("", p) <==> p.name.Some? || p.email.Some? || p.patientId.Some?
    {
      EmptyTermMatchesPresentField(p.name);
      EmptyTermMatchesPresentField(p.email);
      EmptyTermMatchesPresentField(p.patientId);
    }
  }

  /** With an empty search box the doctor page keeps exactly the rows with some field present. */
  lemma EmptyTermKeepsDoctorsWithAField(doctors: seq<DoctorRow>)
    ensures forall d :: d in ManageDoctorsFilter(doctors, "") <==>
      d in doctors && (d.name.Some? || d.email.Some? || d.specialization.Some?)
  {
    forall d: DoctorRow
      ensures DoctorMatches("", d) <==> d.name.Some? || d.email.Some? || d.specialization.Some?
    {
      EmptyTermMatchesPresentField(d.name);
      EmptyTermMatchesPresentField(d.email);
      EmptyTermMatchesPresentField(d.specialization);
    }
  }

  /** The search ignores case: a term and its lower-case form select the same rows. */
  lemma SearchIgnoresCase(patients: seq<PatientRow>, term: string)
    ensures ManagePatientsFilter(patients, Lower(term)) == ManagePatientsFilter(patients, term)
  {
    LowerIdempotent(term);
    FilterCongruent(patients, (p: PatientRow) => PatientMatches(Lower(term), p),
                              (p: PatientRow) => PatientMatches(term, p));
  }
}
