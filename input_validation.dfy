/** The shared form validator. Each of its checks is negated with respect to
    the message it records, and the model keeps them as they are written. */
module InputValidation {
  import opened Text
  import opened EmailPattern

  const USERNAME: string := "username"
  const EMAIL: string := "email"
  const PASSWORD: string := "password"

  const USERNAME_REQUIRED: string := "Username is required"
  const EMAIL_INVALID: string := "Please enter a valid Email ID"
  const EMAIL_REQUIRED: string := "Email ID is required"
  const PASSWORD_REQUIRED: string := "Password is required"
  const PASSWORD_TOO_SHORT: string := "Password must have at least 6 characters"

  /** validateEmptyUsername, validateEmptyEmail and validateEmptyPassword
      are all Text.IsBlank. validatePassword compares the untrimmed
      length, counted in UTF-16 code units. */
  predicate IsShortPassword(password: string)
  {
    Utf16Length(password) < 6
  }

  /** Every e-mail is flagged by one of the two e-mail checks: a blank one
      fails the pattern, any other is non-blank. */
  lemma EveryEmailIsFlagged(email: string)
    ensures !IsValidEmail(email) || !IsBlank(email)
  {
    if IsBlank(email) {
      BlankIsNotValidEmail(email);
    }
  }

  /** validateForm: five checks in order, each one overwriting the entry of
      its key; the form is never reported valid. */
  method ValidateForm(username: string, email: string, password: string)
    returns (errors: map<string, string>, isValid: bool)
    ensures isValid <==> errors == map[]
    ensures errors.Keys <= {USERNAME, EMAIL, PASSWORD}
    ensures USERNAME in errors <==> !IsBlank(username)
    ensures USERNAME in errors ==> errors[USERNAME] == USERNAME_REQUIRED
    ensures EMAIL in errors
    ensures errors[EMAIL] == if IsBlank(email) then EMAIL_INVALID else EMAIL_REQUIRED
    ensures PASSWORD in errors <==> !IsBlank(password) || !IsShortPassword(password)
    ensures PASSWORD in errors ==>
      errors[PASSWORD] == if IsShortPassword(password) then PASSWORD_REQUIRED else PASSWORD_TOO_SHORT
    ensures !isValid
  {
    EveryEmailIsFlagged(email);
    assert USERNAME[0] != EMAIL[0] && USERNAME[0] != PASSWORD[0] && EMAIL[0] != PASSWORD[0];

    errors := map[];
    isValid := true;

    if !IsBlank(username) {
      errors := errors[USERNAME := USERNAME_REQUIRED];
      isValid := false;
    }

    if !IsValidEmail(email) {
      errors := errors[EMAIL := EMAIL_INVALID];
      isValid := false;
    }

    if !IsBlank(email) {
      errors := errors[EMAIL := EMAIL_REQUIRED];
      isValid := false;
    }
    assert EMAIL in errors && !isValid;

    if !IsBlank(password) {
      errors := errors[PASSWORD := PASSWORD_REQUIRED];
      isValid := false;
    }

    if !IsShortPassword(password) {
      errors := errors[PASSWORD := PASSWORD_TOO_SHORT];
      isValid := false;
    }
    assert EMAIL in errors;
  }

  /** The sample form below passes every check a sign-up form should pass. */
  lemma WellFormedSample()
    ensures !IsBlank("alice") && !IsBlank("secret1") && !IsShortPassword("secret1")
    ensures IsValidEmail("a@b.co")
  {
    NotBlank("alice");
    NotBlank("secret1");
    Utf16LengthOfBmp("secret1");
    assert IndexOf("a@b.co", '@') == 1;
    assert "a@b.co"[2..] == "b.co" && "b.co"[1] == '.';
  }

  /** A string that starts and ends with a non-space is not blank. */
  lemma NotBlank(s: string)
    requires |s| > 0 && !IsSpace(s[0]) && !IsSpace(s[|s| - 1])
    ensures !IsBlank(s)
  {
    assert LeadingSpaces(s) == 0;
    assert TrailingSpaces(s) == 0;
  }

  /** A well-formed form (a username, a plain address, a seven-character
      password) is rejected by validateForm as written, with the messages
      that the username and the e-mail are missing. */
  method RejectsWellFormedForm() returns (errors: map<string, string>, isValid: bool)
    ensures !isValid
    ensures USERNAME in errors && errors[USERNAME] == USERNAME_REQUIRED
    ensures EMAIL in errors && errors[EMAIL] == EMAIL_REQUIRED
    ensures PASSWORD in errors && errors[PASSWORD] == PASSWORD_TOO_SHORT
  {
    WellFormedSample();
    NotBlank("a@b.co");
    errors, isValid := ValidateForm("alice", "a@b.co", "secret1");
  }

  /** validateForm with the negations its messages call for: each message is
      recorded exactly when what it says holds, the later check of a key
      still overwriting the earlier one. */
  method ValidateFormAsIntended(username: string, email: string, password: string)
    returns (errors: map<string, string>, isValid: bool)
    ensures isValid <==> errors == map[]
    ensures errors.Keys <= {USERNAME, EMAIL, PASSWORD}
    ensures USERNAME in errors <==> IsBlank(username)
    ensures USERNAME in errors ==> errors[USERNAME] == USERNAME_REQUIRED
    ensures EMAIL in errors <==> !IsValidEmail(email)
    ensures EMAIL in errors ==> errors[EMAIL] == if IsBlank(email) then EMAIL_REQUIRED else EMAIL_INVALID
    ensures PASSWORD in errors <==> IsBlank(password) || IsShortPassword(password)
    ensures PASSWORD in errors ==>
      errors[PASSWORD] == if IsShortPassword(password) then PASSWORD_TOO_SHORT else PASSWORD_REQUIRED
    ensures isValid <==>
      !IsBlank(username) && IsValidEmail(email) && !IsBlank(password) && !IsShortPassword(password)
  {
    EveryEmailIsFlagged(email);
    assert USERNAME[0] != EMAIL[0] && USERNAME[0] != PASSWORD[0] && EMAIL[0] != PASSWORD[0];

    errors := map[];
    isValid := true;

    if IsBlank(username) {
      errors := errors[USERNAME := USERNAME_REQUIRED];
      isValid := false;
    }

    if !IsValidEmail(email) {
      errors := errors[EMAIL := EMAIL_INVALID];
      isValid := false;
    }

    if IsBlank(email) {
      errors := errors[EMAIL := EMAIL_REQUIRED];
      isValid := false;
    }

    if IsBlank(password) {
      errors := errors[PASSWORD := PASSWORD_REQUIRED];
      isValid := false;
    }

    if IsShortPassword(password) {
      errors := errors[PASSWORD := PASSWORD_TOO_SHORT];
      isValid := false;
    }
    assert !isValid ==> USERNAME in errors || EMAIL in errors || PASSWORD in errors;
  }

  /** The corrected validator accepts the form the one as written rejects. */
  method IntendedAcceptsWellFormedForm() returns (errors: map<string, string>, isValid: bool)
    ensures isValid && errors == map[]
  {
    WellFormedSample();
    errors, isValid := ValidateFormAsIntended("alice", "a@b.co", "secret1");
  }
}
