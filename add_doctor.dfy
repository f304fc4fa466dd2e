/**
 * The add-doctor form: the weekly availability toggle and the guard chain of its submit
 * handler (doctor e-mail domain, matching passwords, password strength).
 */
module AddDoctorForm {
  import opened Common
  import opened Seqs
  import Text
  import opened Passwords

  /** The form; experience and fee are kept as the text typed into them. */
  datatype Form = Form(
    name: string,
    email: string,
    phone: string,
    password: string,
    confirmPassword: string,
    specialization: string,
    licenseNumber: string,
    department: string,
    experience: string,
    consultationFee: string,
    availability: seq<string>)

  /** What is sent to the backend: the form without `confirmPassword`. */
  datatype Submission = Submission(
    name: string,
    email: string,
    phone: string,
    password: string,
    specialization: string,
    licenseNumber: string,
    department: string,
    experience: string,
    consultationFee: string,
    availability: seq<string>)

  const DoctorDomain: string := "@doctor.com"

  datatype FormError = NotDoctorEmail | Mismatch | Weak(rule: Rule)

  /** `d => d !== day` */
  function IsNot(day: string): string -> bool
  {
    d => d != day
  }

  /**
   * `handleAvailabilityChange`: a day already present is removed wherever it occurs, an absent
   * day is appended at the end.
   */
  function ToggleDay(days: seq<string>, day: string): (r: seq<string>)
    ensures day in days ==> day !in r && IsSubsequence(r, days)
    ensures day in days ==> forall i :: 0 <= i < |days| && days[i] != day ==> days[i] in r
    ensures day !in days ==> r == days + [day]
  {
    if day in days then Filter(days, IsNot(day)) else days + [day]
  }

  /** Toggling an absent day twice gives back the original list. */
  lemma ToggleTwiceRestores(days: seq<string>, day: string)
    requires day !in days
    ensures ToggleDay(ToggleDay(days, day), day) == days
  {
    FilterAppend(days, [day], IsNot(day));
    FilterKeepsAll(days, IsNot(day));
    assert Filter([day], IsNot(day)) == [];
  }

  /** Toggling a present day twice moves it to the end, once. */
  lemma TogglePresentTwice(days: seq<string>, day: string)
    requires day in days
    ensures ToggleDay(ToggleDay(days, day), day) == Filter(days, IsNot(day)) + [day]
  {
  }

  /** The submitted data: every field but the confirmation, unchanged. */
  function SubmissionOf(f: Form): (s: Submission)
    ensures s.password == f.password && s.email == f.email && s.availability == f.availability
    ensures s.name == f.name && s.phone == f.phone && s.specialization == f.specialization
    ensures s.licenseNumber == f.licenseNumber && s.department == f.department
    ensures s.experience == f.experience && s.consultationFee == f.consultationFee
  {
    Submission(f.name, f.email, f.phone, f.password, f.specialization, f.licenseNumber,
               f.department, f.experience, f.consultationFee, f.availability)
  }

  /**
   * `handleSubmit`: a submission exactly when the e-mail ends with the doctor domain, the
   * passwords agree and the password passes every rule; otherwise the first failing check,
   * domain before match before strength.
   */
  function Submit(f: Form): (r: Result<Submission, FormError>)
    ensures r.Ok? <==>
      Text.EndsWith(f.email, DoctorDomain) && f.password == f.confirmPassword
      && forall rule :: Satisfies(f.password, rule)
    ensures r.Ok? ==> r.value == SubmissionOf(f)
    ensures !Text.EndsWith(f.email, DoctorDomain) ==> r == Err(NotDoctorEmail)
    ensures r == Err(Mismatch) ==> Text.EndsWith(f.email, DoctorDomain) && f.password != f.confirmPassword
    ensures r.Err? && r.error.Weak? ==>
      Text.EndsWith(f.email, DoctorDomain) && f.password == f.confirmPassword
      && !Satisfies(f.password, r.error.rule)
      && forall rule :: Rank(rule) < Rank(r.error.rule) ==> Satisfies(f.password, rule)
  {
    if !Text.EndsWith(f.email, DoctorDomain) then Err(NotDoctorEmail)
    else if f.password != f.confirmPassword then Err(Mismatch)
    else match FirstFailure(f.password)
      case Some(rule) => Err(Weak(rule))
      case None => Ok(SubmissionOf(f))
  }

  /** The domain check comes first: a wrong domain hides any password problem. */
  lemma DomainCheckedFirst(f: Form)
    requires !Text.EndsWith(f.email, DoctorDomain)
    ensures Submit(f) == Err(NotDoctorEmail)
    ensures forall pw, confirm :: Submit(f.(password := pw, confirmPassword := confirm)) == Err(NotDoctorEmail)
  {
  }
}
