/** The decision logic of the login screen's handler: reset both error
    messages, check the e-mail and then the password, and only for a valid
    form look the credentials up in the fetched user list. */
module LoginScreen {
  import opened Text
  import opened EmailPattern
  import opened Values
  import InputValidation

  const EMAIL_REQUIRED: string := "Email is required"
  const EMAIL_INVALID: string := "Please enter a valid email"
  const PASSWORD_REQUIRED: string := "Password is required"
  const PASSWORD_TOO_SHORT: string := "Password must have at least 6 characters"

  /** The screen's state that handleLogin reads or writes. */
  datatype Form = Form(email: string, password: string, emailError: string, passwordError: string)

  /** What one press of the button leads to: the form afterwards, the value
      of the valid flag, whether GET /users was issued, and the user the
      credentials matched. */
  datatype Outcome = Outcome(form: Form, valid: bool, fetched: bool, matched: Option<User>)

  /** users.find's test: both fields equal the inputs exactly, untrimmed. */
  predicate HasCredentials(u: User, email: string, password: string)
  {
    u.email == email && u.password == password
  }

  /** handleLogin. users is what awaiting getAPI("/users") would give; it is
      consulted only when the form is valid. Falsy data makes users.find
      throw, which the handler's catch absorbs like a failed request. */
  method HandleLogin(form: Form, users: Response<seq<User>>) returns (out: Outcome)
    ensures out.form.emailError == EMAIL_REQUIRED <==> IsBlank(form.email)
    ensures out.form.emailError == EMAIL_INVALID <==> !IsBlank(form.email) && !IsValidEmail(form.email)
    ensures out.form.emailError == "" <==> !IsBlank(form.email) && IsValidEmail(form.email)
    ensures out.form.passwordError == PASSWORD_REQUIRED <==> IsBlank(form.password)
    ensures out.form.passwordError == PASSWORD_TOO_SHORT <==>
      !IsBlank(form.password) && TrimmedLength(form.password) < 6
    ensures out.form.passwordError == "" <==> TrimmedLength(form.password) >= 6
    ensures out.valid <==> out.form.emailError == "" && out.form.passwordError == ""
    ensures out.fetched <==> out.valid
    ensures out.matched.Some? <==>
      && out.valid && users.Ok?
      && exists i | 0 <= i < |users.data| :: HasCredentials(users.data[i], form.email, form.password)
    ensures out.matched.Some? ==>
      exists i | 0 <= i < |users.data| ::
        && users.data[i] == out.matched.value
        && HasCredentials(users.data[i], form.email, form.password)
        && forall j | 0 <= j < i :: !HasCredentials(users.data[j], form.email, form.password)
    ensures out.form.email == if out.matched.Some? then "" else form.email
    ensures out.form.password == if out.matched.Some? then "" else form.password
  {
    var valid := true;

    var emailError := "";
    var passwordError := "";

    if IsBlank(form.email) {
      emailError := EMAIL_REQUIRED;
      valid := false;
    } else if !IsValidEmail(form.email) {
      emailError := EMAIL_INVALID;
      valid := false;
    }

    if IsBlank(form.password) {
      passwordError := PASSWORD_REQUIRED;
      valid := false;
    } else if TrimmedLength(form.password) < 6 {
      passwordError := PASSWORD_TOO_SHORT;
      valid := false;
    }

    var email, password := form.email, form.password;
    var fetched := false;
    var matched: Option<User> := None;
    if valid {
      fetched := true;
      if users.Ok? {
        var found := FindIndex(users.data, u => HasCredentials(u, form.email, form.password));
        if found.Some? {
          matched := Some(users.data[found.value]);
          email, password := "", "";
        }
      }
    }
    out := Outcome(Form(email, password, emailError, passwordError), valid, fetched, matched);
  }

  /** A password of three emoji is six UTF-16 code units long, so with a
      plain address the form passes both checks and the user list is
      fetched. */
  method AcceptsAstralPassword(users: Response<seq<User>>) returns (out: Outcome)
    ensures out.valid && out.fetched
    ensures out.form.emailError == "" && out.form.passwordError == ""
  {
    InputValidation.WellFormedSample();
    InputValidation.NotBlank("a@b.co");
    AstralCountsTwice();
    out := HandleLogin(Form("a@b.co", "\U{1F600}\U{1F600}\U{1F600}", "", ""), users);
  }
}
