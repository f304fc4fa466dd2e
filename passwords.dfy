/**
 * The password strength rules shared by the change-password and add-doctor forms: a length
 * between 8 and 15, then an upper-case letter, a lower-case letter, a digit and a special
 * character, checked in that order with the first failure reported.
 */
module Passwords {
  import opened Common
  import Text

  const MinLength: nat := 8
  const MaxLength: nat := 15

  /** The character class `[!@#$%^&*(),.?":{}|<>]`. */
  const SpecialChars: string := "!@#$%^&*(),.?\":{}|<>"

  /** `[A-Z]` */
  predicate IsUpper(c: char)
  {
    'A' <= c <= 'Z'
  }

  /** `[a-z]` */
  predicate IsLower(c: char)
  {
    'a' <= c <= 'z'
  }

  predicate IsSpecial(c: char)
  {
    c in SpecialChars
  }

  /** `/[...]/.test(s)`: some character of `s` is in the class. */
  predicate HasChar(s: string, inClass: char -> bool)
  {
    exists i :: 0 <= i < |s| && inClass(s[i])
  }

  /** The strength rules, in the order the forms check them. */
  datatype Rule = LengthInRange | HasUppercase | HasLowercase | HasDigit | HasSpecial

  function Rank(rule: Rule): nat
  {
    match rule
    case LengthInRange => 0
    case HasUppercase => 1
    case HasLowercase => 2
    case HasDigit => 3
    case HasSpecial => 4
  }

  predicate Satisfies(password: string, rule: Rule)
  {
    match rule
    case LengthInRange => MinLength <= |password| <= MaxLength
    case HasUppercase => HasChar(password, IsUpper)
    case HasLowercase => HasChar(password, IsLower)
    case HasDigit => HasChar(password, Text.IsDigit)
    case HasSpecial => HasChar(password, IsSpecial)
  }

  /**
   * The rule the guard chain stops at, if any: `None` exactly when every rule holds, and
   * otherwise a failing rule all of whose predecessors hold.
   */
  function FirstFailure(password: string): (r: Option<Rule>)
    ensures r.Some? ==> !Satisfies(password, r.value)
    ensures r.None? <==> forall rule :: Satisfies(password, rule)
    ensures r.Some? ==> forall rule :: Rank(rule) < Rank(r.value) ==> Satisfies(password, rule)
  {
    if !(MinLength <= |password| <= MaxLength) then Some(LengthInRange)
    else if !HasChar(password, IsUpper) then Some(HasUppercase)
    else if !HasChar(password, IsLower) then Some(HasLowercase)
    else if !HasChar(password, Text.IsDigit) then Some(HasDigit)
    else if !HasChar(password, IsSpecial) then Some(HasSpecial)
    else None
  }

  /** The reported rule is the earliest failing one: any other failing rule comes later. */
  lemma FirstFailureIsEarliest(password: string, rule: Rule)
    requires !Satisfies(password, rule)
    ensures FirstFailure(password).Some?
    ensures Rank(FirstFailure(password).value) <= Rank(rule)
    ensures Rank(FirstFailure(password).value) == Rank(rule) ==> FirstFailure(password).value == rule
  {
  }

  /** Strong passwords exist: "Abcdef1!" passes every rule, and the length bounds are tight. */
  lemma StrongExample()
    ensures FirstFailure("Abcdef1!").None?
    ensures FirstFailure("Abcde1!") == Some(LengthInRange)
    ensures FirstFailure("Abcdefghijkl1!xy") == Some(LengthInRange)
  {
    assert IsUpper("Abcdef1!"[0]);
    assert IsLower("Abcdef1!"[1]);
    assert Text.IsDigit("Abcdef1!"[6]);
    assert IsSpecial("Abcdef1!"[7]);
  }
}
