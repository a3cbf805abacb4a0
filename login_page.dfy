/** frontend/src/pages/LoginPage.jsx: `validateForm` over the email and password. */
module LoginPage {
  import opened JsText
  import opened EmailFormat

  /**
   * validateForm: the email must be non-blank and match the pattern, then the
   * password must be non-blank; there is no length rule. The first failure wins.
   */
  function ValidateForm(email: string, password: string): (v: Verdict)
    ensures v.Accepted? <==> !IsBlank(email) && MatchesPattern(email) && !IsBlank(password)
    ensures IsBlank(email) ==> v == Refused("Email is required")
    ensures !IsBlank(email) && !MatchesPattern(email) ==> v == Refused("Invalid email format")
    ensures !IsBlank(email) && MatchesPattern(email) && IsBlank(password) ==> v == Refused("Password is required")
  {
    TrimEmptyIffBlank(email);
    TrimEmptyIffBlank(password);
    EmailFormatMatchesPattern(email);
    if Trim(email) == "" then Refused("Email is required")
    else if !IsEmailFormat(email) then Refused("Invalid email format")
    else if Trim(password) == "" then Refused("Password is required")
    else Accepted
  }

  /** Both email checks come before the password check: a bad email is reported whatever the password. */
  lemma EmailCheckedBeforePassword(email: string, p1: string, p2: string)
    requires ValidateForm(email, p1).Refused? && ValidateForm(email, p1).message != "Password is required"
    ensures ValidateForm(email, p2) == ValidateForm(email, p1)
  {
  }
}
