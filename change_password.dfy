/**
 * The change-password form: its guard chain decides whether a request is sent and, if not,
 * which message is shown.
 */
module ChangePasswordForm {
  import opened Common
  import opened Passwords

  datatype Form = Form(email: string, currentPassword: string, newPassword: string, confirmPassword: string)

  /** What the form posts: the confirmation field is not part of it. */
  datatype Request = Request(email: string, currentPassword: string, newPassword: string)

  datatype FormError = Mismatch | Weak(rule: Rule) | SameAsCurrent

  /**
   * `handleSubmit`: a request exactly when the two new passwords agree, the new password passes
   * every strength rule and differs from the current one; otherwise the first failing check,
   * mismatch before strength before reuse.
   */
  function Submit(f: Form): (r: Result<Request, FormError>)
    ensures r.Ok? <==>
      f.newPassword == f.confirmPassword
      && (forall rule :: Satisfies(f.newPassword, rule))
      && f.currentPassword != f.newPassword
    ensures r.Ok? ==> r.value == Request(f.email, f.currentPassword, f.newPassword)
    ensures f.newPassword != f.confirmPassword ==> r == Err(Mismatch)
    ensures r.Err? && r.error.Weak? ==>
      f.newPassword == f.confirmPassword && !Satisfies(f.newPassword, r.error.rule)
      && forall rule :: Rank(rule) < Rank(r.error.rule) ==> Satisfies(f.newPassword, rule)
    ensures r == Err(SameAsCurrent) ==>
      f.newPassword == f.confirmPassword && f.currentPassword == f.newPassword
      && forall rule :: Satisfies(f.newPassword, rule)
  {
    if f.newPassword != f.confirmPassword then Err(Mismatch)
    else match FirstFailure(f.newPassword)
      case Some(rule) => Err(Weak(rule))
      case None =>
        if f.currentPassword == f.newPassword then Err(SameAsCurrent)
        else Ok(Request(f.email, f.currentPassword, f.newPassword))
  }

  /**
   * Reuse is only reported for a password that is otherwise acceptable: a weak password equal
   * to the current one is reported as weak.
   */
  lemma WeakReuseReportedAsWeak(f: Form, rule: Rule)
    requires f.newPassword == f.confirmPassword && f.currentPassword == f.newPassword
    requires !Satisfies(f.newPassword, rule)
    ensures Submit(f).Err? && Submit(f).error.Weak?
    ensures Rank(Submit(f).error.rule) <= Rank(rule)
  {
    FirstFailureIsEarliest(f.newPassword, rule);
  }
}
