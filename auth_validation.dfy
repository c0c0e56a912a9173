/**
 * The credential rules of the sign-in, sign-up and password-reset forms
 * (lib/edtech/auth-validation.ts). Each form's schema is a function from the
 * submitted fields to the issues the schema reports, in the order it reports
 * them; a form is accepted exactly when there are none. The e-mail format
 * check is the parameter `isEmail`.
 */
module AuthValidation {
  import opened Text

  const PasswordMinLength: nat := 10
  const PasswordMaxLength: nat := 72

  datatype Field = Email | Password | ConfirmPassword | FullName

  datatype Rule =
    | InvalidEmail
    | TooShort
    | TooLong
    | NoLowercase
    | NoUppercase
    | NoDigit
    | Missing
    | Mismatch

  datatype Issue = Issue(field: Field, rule: Rule)

  /** The e-mail well-formedness test, applied to the trimmed address. */
  type EmailCheck = string -> bool

  predicate HasLowercase(s: string) { exists i :: 0 <= i < |s| && IsAsciiLower(s[i]) }
  predicate HasUppercase(s: string) { exists i :: 0 <= i < |s| && IsAsciiUpper(s[i]) }
  predicate HasDigit(s: string) { exists i :: 0 <= i < |s| && IsAsciiDigit(s[i]) }

  /** `[r]` when the rule fails, else nothing. */
  function Check(ok: bool, field: Field, rule: Rule): (r: seq<Issue>)
    ensures r == [] <==> ok
    ensures !ok ==> r == [Issue(field, rule)]
  {
    if ok then [] else [Issue(field, rule)]
  }

  /** `workEmailSchema`: the trimmed address must be an e-mail address. */
  function EmailIssues(isEmail: EmailCheck, email: string): (r: seq<Issue>)
    ensures r == [] <==> isEmail(Trim(email))
  {
    Check(isEmail(Trim(email)), Email, InvalidEmail)
  }

  /** `passwordSchema`: both length checks and then the three character-class refinements. */
  function PasswordIssues(field: Field, password: string): (r: seq<Issue>)
    ensures forall x :: x in r ==> x.field == field
  {
    Check(|password| >= PasswordMinLength, field, TooShort)
    + Check(|password| <= PasswordMaxLength, field, TooLong)
    + Check(HasLowercase(password), field, NoLowercase)
    + Check(HasUppercase(password), field, NoUppercase)
    + Check(HasDigit(password), field, NoDigit)
  }

  /** A strong password: 10 to 72 characters with a lower-case letter, an upper-case letter and a digit. */
  predicate StrongPassword(password: string) {
    && PasswordMinLength <= |password| <= PasswordMaxLength
    && HasLowercase(password) && HasUppercase(password) && HasDigit(password)
  }

  /** The password schema accepts exactly the strong passwords, and names every rule a password breaks. */
  lemma PasswordRuleIsStrength(field: Field, password: string)
    ensures PasswordIssues(field, password) == [] <==> StrongPassword(password)
    ensures |password| < PasswordMinLength <==> Issue(field, TooShort) in PasswordIssues(field, password)
    ensures |password| > PasswordMaxLength <==> Issue(field, TooLong) in PasswordIssues(field, password)
    ensures !HasLowercase(password) <==> Issue(field, NoLowercase) in PasswordIssues(field, password)
    ensures !HasUppercase(password) <==> Issue(field, NoUppercase) in PasswordIssues(field, password)
    ensures !HasDigit(password) <==> Issue(field, NoDigit) in PasswordIssues(field, password)
  {
  }

  /** The `min(1)` check on a password that is not judged for strength. */
  function PresentIssues(field: Field, value: string): (r: seq<Issue>)
    ensures r == [] <==> value != []
  {
    Check(|value| >= 1, field, Missing)
  }

  /** The refinement run over a password and its confirmation. */
  function MatchIssues(password: string, confirmPassword: string): (r: seq<Issue>)
    ensures r == [] <==> password == confirmPassword
  {
    Check(password == confirmPassword, ConfirmPassword, Mismatch)
  }

  /** `authSignInSchema`: a well-formed address and any non-empty password. */
  function SignInIssues(isEmail: EmailCheck, email: string, password: string): (r: seq<Issue>)
    ensures r == [] <==> isEmail(Trim(email)) && password != []
  {
    EmailIssues(isEmail, email) + PresentIssues(Password, password)
  }

  /** `authMagicLinkSchema` and `authResetRequestSchema`: a well-formed address. */
  function ResetRequestIssues(isEmail: EmailCheck, email: string): (r: seq<Issue>)
    ensures r == [] <==> isEmail(Trim(email))
  {
    EmailIssues(isEmail, email)
  }

  /** `authSignUpSchema`: the four fields in order, then the confirmation must match. */
  function SignUpIssues(isEmail: EmailCheck, fullName: string, email: string, password: string, confirmPassword: string): (r: seq<Issue>)
    ensures r == [] <==>
      && 2 <= |Trim(fullName)| <= 80
      && isEmail(Trim(email))
      && StrongPassword(password)
      && password == confirmPassword
    ensures password != confirmPassword ==> r[|r| - 1] == Issue(ConfirmPassword, Mismatch)
  {
    PasswordRuleIsStrength(Password, password);
    Check(|Trim(fullName)| >= 2, FullName, TooShort)
    + Check(|Trim(fullName)| <= 80, FullName, TooLong)
    + EmailIssues(isEmail, email)
    + PasswordIssues(Password, password)
    + PresentIssues(ConfirmPassword, confirmPassword)
    + MatchIssues(password, confirmPassword)
  }

  /** `authResetPasswordSchema`: the strength rule on the password, then the confirmation must match. */
  function ResetPasswordIssues(password: string, confirmPassword: string): (r: seq<Issue>)
    ensures r == [] <==> StrongPassword(password) && password == confirmPassword
    ensures password != confirmPassword ==> r[|r| - 1] == Issue(ConfirmPassword, Mismatch)
  {
    PasswordRuleIsStrength(Password, password);
    PasswordIssues(Password, password) + PresentIssues(ConfirmPassword, confirmPassword) + MatchIssues(password, confirmPassword)
  }

  /** A matching confirmation is never reported against, and a strong matching pair is accepted on reset. */
  lemma MatchingConfirmationIsNotReported(password: string)
    requires StrongPassword(password)
    ensures ResetPasswordIssues(password, password) == []
    ensures forall x :: x in ResetPasswordIssues(password, password + "x") ==> x == Issue(ConfirmPassword, Mismatch)
  {
    PasswordRuleIsStrength(Password, password);
    assert password + "x" != password by {
      assert |password + "x"| != |password|;
    }
  }

  /** Sign-in applies no strength rule: any non-empty password passes it. */
  lemma SignInIgnoresStrength(isEmail: EmailCheck, email: string, password: string)
    requires isEmail(Trim(email)) && password != []
    ensures SignInIssues(isEmail, email, password) == []
  {
  }

  /** Whitespace around the address does not change any verdict on it. */
  lemma EmailIsTrimmedFirst(isEmail: EmailCheck, w1: string, email: string, w2: string)
    requires AllSpace(w1) && AllSpace(w2)
    ensures ResetRequestIssues(isEmail, w1 + email + w2) == ResetRequestIssues(isEmail, email)
  {
    TrimIgnoresPadding(w1, email, w2);
  }

  /** Sign-up with password and confirmation "weak" is refused: too short, no upper-case letter, no digit. */
  lemma WeakSignUpIsRejected(isEmail: EmailCheck, fullName: string, email: string)
    ensures
      var r := SignUpIssues(isEmail, fullName, email, "weak", "weak");
      && r != []
      && Issue(Password, TooShort) in r && Issue(Password, NoUppercase) in r && Issue(Password, NoDigit) in r
      && Issue(ConfirmPassword, Mismatch) !in r
  {
    var p := "weak";
    assert !HasUppercase(p) && !HasDigit(p);
    assert HasLowercase(p) by { assert IsAsciiLower(p[0]); }
    PasswordRuleIsStrength(Password, p);
  }

  /** "StrongPass123" confirmed as "StrongPass124" is refused on the mismatch alone. */
  lemma MismatchedResetIsRejected()
    ensures ResetPasswordIssues("StrongPass123", "StrongPass124") == [Issue(ConfirmPassword, Mismatch)]
  {
    var p := "StrongPass123";
    assert IsAsciiUpper(p[0]) && IsAsciiLower(p[1]) && IsAsciiDigit(p[10]);
    assert "StrongPass123"[12] != "StrongPass124"[12];
    PasswordRuleIsStrength(Password, p);
  }

  /** An address the e-mail check refuses, such as "not-an-email", fails the reset request. */
  lemma MalformedEmailIsRejected(isEmail: EmailCheck)
    requires !isEmail("not-an-email")
    ensures ResetRequestIssues(isEmail, "not-an-email") == [Issue(Email, InvalidEmail)]
  {
    TrimOfTrimmed("not-an-email");
  }
}
