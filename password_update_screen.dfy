/** The decision logic of the password-update screen's handler: three checks
    dispatched to the password-update reducer, then, for a valid form, the
    lookup of the account by e-mail and the PUT of its record with the new
    password. */
module PasswordUpdateScreen {
  import opened Text
  import opened EmailPattern
  import opened Values
  import opened PasswordUpdateReducer

  const USERS_ENDPOINT: string := "/users"

  const EMAIL_REQUIRED: string := "Email is required"
  const EMAIL_INVALID: string := "Please enter a valid email"
  const NEW_PASSWORD_REQUIRED: string := "New password is required"
  const NEW_PASSWORD_TOO_SHORT: string := "New password must have at least 6 characters"
  const CONFIRM_REQUIRED: string := "Confirm new password is required"
  const CONFIRM_TOO_SHORT: string := "Confirm new password must have at least 6 characters"
  const PASSWORDS_DIFFER: string := "Both new password and confirm new password should match"

  /** A PUT request: the endpoint and the body. */
  datatype Update = Update(endpoint: string, record: User)

  /** What one press of the button leads to: the reducer state afterwards,
      the valid flag, whether GET /users was issued, and the PUT sent. */
  datatype Outcome = Outcome(state: State, valid: bool, fetched: bool, update: Option<Update>)

  /** users.find's test: the e-mail equals the input exactly. */
  predicate HasEmail(u: User, email: string)
  {
    u.email == email
  }

  /** The endpoint of one user record, `/users/${userId}`. */
  function UserEndpoint(id: Id): string
  {
    USERS_ENDPOINT + "/" + IdToString(id)
  }

  /** Two ids share an endpoint only when their string forms agree, so the
      PUT reaches the record of the user that was found. */
  lemma UserEndpointInjective(a: Id, b: Id)
    ensures UserEndpoint(a) == UserEndpoint(b) <==> IdToString(a) == IdToString(b)
  {
    var n := |USERS_ENDPOINT| + 1;
    assert UserEndpoint(a)[n..] == IdToString(a);
    assert UserEndpoint(b)[n..] == IdToString(b);
  }

  method CheckEmail(s: State, email: string) returns (t: State, ok: bool)
    requires s.emailError == ""
    ensures t == s.(emailError := t.emailError)
    ensures t.emailError ==
      if IsBlank(email) then EMAIL_REQUIRED else if !IsValidEmail(email) then EMAIL_INVALID else ""
    ensures ok <==> !IsBlank(email) && IsValidEmail(email)
  {
    t, ok := s, true;
    if IsBlank(email) {
      t := Reduce(t, SetEmailError(EMAIL_REQUIRED));
      ok := false;
    } else if !IsValidEmail(email) {
      t := Reduce(t, SetEmailError(EMAIL_INVALID));
      ok := false;
    }
  }

  method CheckNewPassword(s: State, newPassword: string) returns (t: State, ok: bool)
    requires s.newPasswordError == ""
    ensures t == s.(newPasswordError := t.newPasswordError)
    ensures t.newPasswordError ==
      if IsBlank(newPassword) then NEW_PASSWORD_REQUIRED
      else if TrimmedLength(newPassword) < 6 then NEW_PASSWORD_TOO_SHORT else ""
    ensures ok <==> TrimmedLength(newPassword) >= 6
  {
    t, ok := s, true;
    if IsBlank(newPassword) {
      t := Reduce(t, SetNewPasswordError(NEW_PASSWORD_REQUIRED));
      ok := false;
    } else if TrimmedLength(newPassword) < 6 {
      t := Reduce(t, SetNewPasswordError(NEW_PASSWORD_TOO_SHORT));
      ok := false;
    }
  }

  /** The confirmation check; its last branch compares the two untrimmed
      passwords and writes its message into the new password's error. */
  method CheckConfirm(s: State, newPassword: string, confirm: string) returns (t: State, ok: bool)
    requires s.confirmNewPasswordError == ""
    ensures t == s.(confirmNewPasswordError := t.confirmNewPasswordError, newPasswordError := t.newPasswordError)
    ensures t.confirmNewPasswordError ==
      if IsBlank(confirm) then CONFIRM_REQUIRED
      else if TrimmedLength(confirm) < 6 then CONFIRM_TOO_SHORT else ""
    ensures t.newPasswordError ==
      if TrimmedLength(confirm) >= 6 && newPassword != confirm then PASSWORDS_DIFFER else s.newPasswordError
    ensures ok <==> TrimmedLength(confirm) >= 6 && newPassword == confirm
  {
    t, ok := s, true;
    if IsBlank(confirm) {
      t := Reduce(t, SetConfirmNewPasswordError(CONFIRM_REQUIRED));
      ok := false;
    } else if TrimmedLength(confirm) < 6 {
      t := Reduce(t, SetConfirmNewPasswordError(CONFIRM_TOO_SHORT));
      ok := false;
    } else if newPassword != confirm {
      t := Reduce(t, SetNewPasswordError(PASSWORDS_DIFFER));
      ok := false;
    }
  }

  /** The first half of handleUpdatePassword: clear the three error
      messages, then check the e-mail, the new password and its
      confirmation, in that order. */
  method CheckForm(state: State) returns (s: State, valid: bool)
    ensures s.emailError == EMAIL_REQUIRED <==> IsBlank(state.email)
    ensures s.emailError == EMAIL_INVALID <==> !IsBlank(state.email) && !IsValidEmail(state.email)
    ensures s.emailError == "" <==> !IsBlank(state.email) && IsValidEmail(state.email)
    ensures s.newPasswordError == PASSWORDS_DIFFER <==>
      TrimmedLength(state.confirmNewPassword) >= 6 && state.newPassword != state.confirmNewPassword
    ensures s.newPasswordError == NEW_PASSWORD_REQUIRED <==>
      && IsBlank(state.newPassword)
      && !(TrimmedLength(state.confirmNewPassword) >= 6 && state.newPassword != state.confirmNewPassword)
    ensures s.newPasswordError == NEW_PASSWORD_TOO_SHORT <==>
      && !IsBlank(state.newPassword) && TrimmedLength(state.newPassword) < 6
      && !(TrimmedLength(state.confirmNewPassword) >= 6 && state.newPassword != state.confirmNewPassword)
    ensures s.newPasswordError == "" <==>
      && TrimmedLength(state.newPassword) >= 6
      && !(TrimmedLength(state.confirmNewPassword) >= 6 && state.newPassword != state.confirmNewPassword)
    ensures s.confirmNewPasswordError == CONFIRM_REQUIRED <==> IsBlank(state.confirmNewPassword)
    ensures s.confirmNewPasswordError == CONFIRM_TOO_SHORT <==>
      !IsBlank(state.confirmNewPassword) && TrimmedLength(state.confirmNewPassword) < 6
    ensures s.confirmNewPasswordError == "" <==> TrimmedLength(state.confirmNewPassword) >= 6
    ensures valid <==> s.emailError == "" && s.newPasswordError == "" && s.confirmNewPasswordError == ""
    ensures valid ==> state.newPassword == state.confirmNewPassword
    ensures s == state.(
      emailError := s.emailError,
      newPasswordError := s.newPasswordError,
      confirmNewPasswordError := s.confirmNewPasswordError)
  {
    s := state;
    s := Reduce(s, SetEmailError(""));
    s := Reduce(s, SetNewPasswordError(""));
    s := Reduce(s, SetConfirmNewPasswordError(""));

    var emailOk, newOk, confirmOk;
    s, emailOk := CheckEmail(s, state.email);
    s, newOk := CheckNewPassword(s, state.newPassword);
    s, confirmOk := CheckConfirm(s, state.newPassword, state.confirmNewPassword);
    valid := emailOk && newOk && confirmOk;
  }

  /** The second half of handleUpdatePassword, for a valid form: show the
      spinner, find the first user with the form's e-mail, PUT that record
      with only its password replaced, clear the form unless the PUT
      throws, and hide the spinner in the finally block. */
  method Submit(s: State, email: string, newPassword: string, users: Response<seq<User>>, putFails: bool)
    returns (t: State, update: Option<Update>)
    ensures update.Some? <==>
      users.Ok? && exists i | 0 <= i < |users.data| :: HasEmail(users.data[i], email)
    ensures update.Some? ==>
      exists i | 0 <= i < |users.data| ::
        && HasEmail(users.data[i], email)
        && (forall j | 0 <= j < i :: !HasEmail(users.data[j], email))
        && update.value == Update(UserEndpoint(users.data[i].id), users.data[i].(password := newPassword))
    ensures t == if update.Some? && !putFails then InitialState else s.(isLoading := false)
  {
    t := Reduce(s, SetLoading(true));
    update := None;
    if users.Ok? {
      var found := FindIndex(users.data, u => HasEmail(u, email));
      if found.Some? {
        var user := users.data[found.value];
        update := Some(Update(UserEndpoint(user.id), user.(password := newPassword)));
        if !putFails {
          t := Reduce(t, ClearForm);
        }
      }
    }
    t := Reduce(t, SetLoading(false));
  }

  /** handleUpdatePassword. users is what awaiting getAPI("/users") would
      give (falsy data makes users.find throw, which the catch absorbs);
      putFails says whether awaiting putAPI throws. Both are consulted only
      when they are reached. */
  method HandleUpdatePassword(state: State, users: Response<seq<User>>, putFails: bool)
    returns (out: Outcome)
    ensures out.state.emailError == EMAIL_REQUIRED <==> IsBlank(state.email)
    ensures out.state.emailError == EMAIL_INVALID <==> !IsBlank(state.email) && !IsValidEmail(state.email)
    ensures out.state.emailError == "" <==> !IsBlank(state.email) && IsValidEmail(state.email)
    ensures out.state.newPasswordError == PASSWORDS_DIFFER <==>
      TrimmedLength(state.confirmNewPassword) >= 6 && state.newPassword != state.confirmNewPassword
    ensures out.state.newPasswordError == NEW_PASSWORD_REQUIRED <==>
      && IsBlank(state.newPassword)
      && !(TrimmedLength(state.confirmNewPassword) >= 6 && state.newPassword != state.confirmNewPassword)
    ensures out.state.newPasswordError == NEW_PASSWORD_TOO_SHORT <==>
      && !IsBlank(state.newPassword) && TrimmedLength(state.newPassword) < 6
      && !(TrimmedLength(state.confirmNewPassword) >= 6 && state.newPassword != state.confirmNewPassword)
    ensures out.state.newPasswordError == "" <==>
      && TrimmedLength(state.newPassword) >= 6
      && !(TrimmedLength(state.confirmNewPassword) >= 6 && state.newPassword != state.confirmNewPassword)
    ensures out.state.confirmNewPasswordError == CONFIRM_REQUIRED <==> IsBlank(state.confirmNewPassword)
    ensures out.state.confirmNewPasswordError == CONFIRM_TOO_SHORT <==>
      !IsBlank(state.confirmNewPassword) && TrimmedLength(state.confirmNewPassword) < 6
    ensures out.state.confirmNewPasswordError == "" <==> TrimmedLength(state.confirmNewPassword) >= 6
    ensures out.valid <==>
      && out.state.emailError == ""
      && out.state.newPasswordError == ""
      && out.state.confirmNewPasswordError == ""
    ensures out.valid ==> state.newPassword == state.confirmNewPassword
    ensures out.fetched <==> out.valid
    ensures out.update.Some? <==>
      && out.valid && users.Ok?
      && exists i | 0 <= i < |users.data| :: HasEmail(users.data[i], state.email)
    ensures out.update.Some? ==>
      exists i | 0 <= i < |users.data| ::
        && HasEmail(users.data[i], state.email)
        && (forall j | 0 <= j < i :: !HasEmail(users.data[j], state.email))
        && out.update.value == Update(UserEndpoint(users.data[i].id),
                                      users.data[i].(password := state.newPassword))
    ensures out.update.Some? && !putFails ==> out.state == InitialState
    ensures !(out.update.Some? && !putFails) ==>
      out.state == state.(
        emailError := out.state.emailError,
        newPasswordError := out.state.newPasswordError,
        confirmNewPasswordError := out.state.confirmNewPasswordError,
        isLoading := if out.valid then false else state.isLoading)
  {
    var s, valid := CheckForm(state);
    var update: Option<Update> := None;
    if valid {
      s, update := Submit(s, state.email, state.newPassword, users, putFails);
    }
    out := Outcome(s, valid, valid, update);
  }
}
