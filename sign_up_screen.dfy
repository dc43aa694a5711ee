/** The decision logic of the sign-up screen's handler. Every state change
    is a dispatch to the sign-up reducer, applied in order; the fields the
    checks read are those of the state the handler started from. */
module SignUpScreen {
  import opened Text
  import opened EmailPattern
  import opened Values
  import opened SignUpReducer

  const USERNAME_REQUIRED: string := "Username is required"
  const EMAIL_REQUIRED: string := "Email is required"
  const EMAIL_INVALID: string := "Please enter a valid email"
  const PASSWORD_REQUIRED: string := "Password is required"
  const PASSWORD_TOO_SHORT: string := "Password must have at least 6 characters"

  /** The body of POST /users. */
  datatype Body = Body(username: string, email: string, password: string)

  /** What one press of the button leads to: the reducer state afterwards,
      the valid flag, the request sent, and the record handed to the
      session's login. */
  datatype Outcome = Outcome(state: State, valid: bool, request: Option<Body>, loginWith: Option<User>)

  /** The username check: a blank username dispatches its message. */
  method CheckUsername(s: State, username: string) returns (t: State, ok: bool)
    requires s.usernameError == ""
    ensures t == s.(usernameError := t.usernameError)
    ensures t.usernameError == if IsBlank(username) then USERNAME_REQUIRED else ""
    ensures ok <==> !IsBlank(username)
  {
    t, ok := s, true;
    if IsBlank(username) {
      t := Reduce(t, SetUsernameError(USERNAME_REQUIRED));
      ok := false;
    }
  }

  /** The e-mail check: blank, then the pattern. */
  method CheckEmail(s: State, email: string) returns (t: State, ok: bool)
    requires s.emailError == ""
    ensures t == s.(emailError := t.emailError)
    ensures t.emailError ==
      if IsBlank(email) then EMAIL_REQUIRED else if !IsValidEmail(email) then EMAIL_INVALID else ""
    ensures ok <==> !IsBlank(email) && IsValidEmail(email)
  {
    t, ok := s, true;
    if IsBlank(email) {
      t := Reduce(t, SetEmailError(EMAIL_REQUIRED));
      ok := false;
    } else if !IsValidEmail(email) {
      t := Reduce(t, SetEmailError(EMAIL_INVALID));
      ok := false;
    }
  }

  /** The password check: blank, then the trimmed length. */
  method CheckPassword(s: State, password: string) returns (t: State, ok: bool)
    requires s.passwordError == ""
    ensures t == s.(passwordError := t.passwordError)
    ensures t.passwordError ==
      if IsBlank(password) then PASSWORD_REQUIRED
      else if TrimmedLength(password) < 6 then PASSWORD_TOO_SHORT else ""
    ensures ok <==> TrimmedLength(password) >= 6
  {
    t, ok := s, true;
    if IsBlank(password) {
      t := Reduce(t, SetPasswordError(PASSWORD_REQUIRED));
      ok := false;
    } else if TrimmedLength(password) < 6 {
      t := Reduce(t, SetPasswordError(PASSWORD_TOO_SHORT));
      ok := false;
    }
  }

  /** The first half of handleSignUp: clear the three error messages, then
      check the username, the e-mail and the password, each by dispatches
      to the reducer. */
  method CheckForm(state: State) returns (s: State, valid: bool)
    ensures s.usernameError == USERNAME_REQUIRED <==> IsBlank(state.username)
    ensures s.usernameError == "" <==> !IsBlank(state.username)
    ensures s.emailError == EMAIL_REQUIRED <==> IsBlank(state.email)
    ensures s.emailError == EMAIL_INVALID <==> !IsBlank(state.email) && !IsValidEmail(state.email)
    ensures s.emailError == "" <==> !IsBlank(state.email) && IsValidEmail(state.email)
    ensures s.passwordError == PASSWORD_REQUIRED <==> IsBlank(state.password)
    ensures s.passwordError == PASSWORD_TOO_SHORT <==>
      !IsBlank(state.password) && TrimmedLength(state.password) < 6
    ensures s.passwordError == "" <==> TrimmedLength(state.password) >= 6
    ensures valid <==> s.usernameError == "" && s.emailError == "" && s.passwordError == ""
    ensures s == state.(usernameError := s.usernameError, emailError := s.emailError, passwordError := s.passwordError)
  {
    s := state;
    s := Reduce(s, SetUsernameError(""));
    s := Reduce(s, SetEmailError(""));
    s := Reduce(s, SetPasswordError(""));

    var usernameOk, emailOk, passwordOk;
    s, usernameOk := CheckUsername(s, state.username);
    s, emailOk := CheckEmail(s, state.email);
    s, passwordOk := CheckPassword(s, state.password);
    valid := usernameOk && emailOk && passwordOk;
  }

  /** handleSignUp. created is what awaiting postAPI("/users", body) would
      give; it is consulted only when the form is valid. */
  method HandleSignUp(state: State, created: Response<User>) returns (out: Outcome)
    ensures out.state.usernameError == USERNAME_REQUIRED <==> IsBlank(state.username)
    ensures out.state.usernameError == "" <==> !IsBlank(state.username)
    ensures out.state.emailError == EMAIL_REQUIRED <==> IsBlank(state.email)
    ensures out.state.emailError == EMAIL_INVALID <==> !IsBlank(state.email) && !IsValidEmail(state.email)
    ensures out.state.emailError == "" <==> !IsBlank(state.email) && IsValidEmail(state.email)
    ensures out.state.passwordError == PASSWORD_REQUIRED <==> IsBlank(state.password)
    ensures out.state.passwordError == PASSWORD_TOO_SHORT <==>
      !IsBlank(state.password) && TrimmedLength(state.password) < 6
    ensures out.state.passwordError == "" <==> TrimmedLength(state.password) >= 6
    ensures out.valid <==>
      out.state.usernameError == "" && out.state.emailError == "" && out.state.passwordError == ""
    ensures out.request == if out.valid then Some(Body(state.username, state.email, state.password)) else None
    ensures out.loginWith == if out.valid && created.Ok? then Some(created.data) else None
    ensures out.loginWith.Some? ==> out.state == InitialState
    ensures out.loginWith.None? ==>
      out.state == state.(
        usernameError := out.state.usernameError,
        emailError := out.state.emailError,
        passwordError := out.state.passwordError,
        isLoading := if out.valid then false else state.isLoading)
  {
    var s, valid := CheckForm(state);

    var request: Option<Body> := None;
    var loginWith: Option<User> := None;
    if valid {
      s := Reduce(s, SetLoading(true));
      request := Some(Body(state.username, state.email, state.password));
      if created.Ok? {
        loginWith := Some(created.data);
        s := Reduce(s, ClearForm);
      }
      s := Reduce(s, SetLoading(false));
    }
    out := Outcome(s, valid, request, loginWith);
  }
}
