/** frontend/src/pages/SignupPage.jsx: `validateForm` over the form's three fields. */
module SignupPage {
  import opened JsText
  import opened EmailFormat

  /** The client-side minimum password length, in UTF-16 code units of the untrimmed password. */
  const MinPasswordLength: nat := 8

  /**
   * validateForm: the name, the email and the password must be non-blank, the
   * untrimmed email must match the pattern and the untrimmed password must be
   * long enough, checked in that order; the first failure's message is the verdict.
   */
  function ValidateForm(fullName: string, email: string, password: string): (v: Verdict)
    ensures v.Accepted? <==> !IsBlank(fullName) && !IsBlank(email) && MatchesPattern(email)
                             && !IsBlank(password) && JsLength(password) >= MinPasswordLength
    ensures IsBlank(fullName) ==> v == Refused("Full Name is required")
    ensures !IsBlank(fullName) && IsBlank(email) ==> v == Refused("Email is required")
    ensures !IsBlank(fullName) && !IsBlank(email) && !MatchesPattern(email) ==> v == Refused("Invalid email format")
    ensures !IsBlank(fullName) && MatchesPattern(email) && IsBlank(password) ==> v == Refused("Password is required")
    ensures !IsBlank(fullName) && MatchesPattern(email) && !IsBlank(password) && JsLength(password) < MinPasswordLength
            ==> v == Refused("Password must be at least 8 characters")
  {
    TrimEmptyIffBlank(fullName);
    TrimEmptyIffBlank(email);
    TrimEmptyIffBlank(password);
    EmailFormatMatchesPattern(email);
    if Trim(fullName) == "" then Refused("Full Name is required")
    else if Trim(email) == "" then Refused("Email is required")
    else if !IsEmailFormat(email) then Refused("Invalid email format")
    else if Trim(password) == "" then Refused("Password is required")
    else if JsLength(password) < MinPasswordLength then Refused("Password must be at least 8 characters")
    else Accepted
  }

  /** An email that matches the pattern is never blank, so the format check subsumes the emptiness check. */
  lemma {:induction false} PatternEmailIsNotBlank(email: string)
    requires MatchesPattern(email)
    ensures !IsBlank(email)
  {
    var i, j :| 0 < i && i + 1 < j && j + 1 < |email| && email[i] == '@' && email[j] == '.'
                && Plain(email[..i]) && Plain(email[i + 1..j]) && Plain(email[j + 1..]);
    assert email[..i][0] == email[0];
  }

  /**
   * The length rule counts the untrimmed password: a password with one visible
   * character padded by spaces to eight code units is accepted.
   */
  lemma PaddedPasswordIsLongEnough(fullName: string, email: string)
    requires !IsBlank(fullName) && MatchesPattern(email)
    ensures ValidateForm(fullName, email, "a       ").Accepted?
    ensures ValidateForm(fullName, email, "a      ") == Refused("Password must be at least 8 characters")
  {
    PatternEmailIsNotBlank(email);
    assert !IsWhiteSpace("a       "[0]);
    assert !IsWhiteSpace("a      "[0]);
  }
}
