/** The password-update form reducer: field setters, two independent
    visibility toggles and a reset to the initial form. */
module PasswordUpdateReducer {

  datatype State = State(
    email: string,
    newPassword: string,
    confirmNewPassword: string,
    emailError: string,
    newPasswordError: string,
    confirmNewPasswordError: string,
    isLoading: bool,
    showNewPassword: bool,
    showConfirmNewPassword: bool)

  /** initialState: all six strings empty, all three flags false. */
  const InitialState: State := State("", "", "", "", "", "", false, false, false)

  /** The type strings the reducer's switch names. */
  const ACTION_TYPES: set<string> := {
    "SET_EMAIL", "SET_NEW_PASSWORD", "SET_CONFIRM_NEW_PASSWORD", "SET_EMAIL_ERROR",
    "SET_NEW_PASSWORD_ERROR", "SET_CONFIRM_NEW_PASSWORD_ERROR", "SET_LOADING",
    "TOGGLE_SHOW_NEW_PASSWORD", "TOGGLE_SHOW_CONFIRM_NEW_PASSWORD", "CLEAR_FORM"}

  /** One case for each type the reducer's switch names. Other(kind) stands
      for an action whose type is none of ACTION_TYPES; an action carrying
      one of those types is the constructor of that type, never Other. */
  datatype Action =
    | SetEmail(text: string)
    | SetNewPassword(text: string)
    | SetConfirmNewPassword(text: string)
    | SetEmailError(text: string)
    | SetNewPasswordError(text: string)
    | SetConfirmNewPasswordError(text: string)
    | SetLoading(flag: bool)
    | ToggleShowNewPassword
    | ToggleShowConfirmNewPassword
    | ClearForm
    | Other(kind: string)
  {
    /** The SET_* actions. */
    predicate IsSetter()
    {
      !(ToggleShowNewPassword? || ToggleShowConfirmNewPassword? || ClearForm? || Other?)
    }

    /** The field a SET_* action writes. */
    function Target(): Field
      requires IsSetter()
    {
      match this
      case SetEmail(_) => Email
      case SetNewPassword(_) => NewPassword
      case SetConfirmNewPassword(_) => ConfirmNewPassword
      case SetEmailError(_) => EmailError
      case SetNewPasswordError(_) => NewPasswordError
      case SetConfirmNewPasswordError(_) => ConfirmNewPasswordError
      case SetLoading(_) => IsLoading
    }

    /** The value a SET_* action writes. */
    function Payload(): Value
      requires IsSetter()
    {
      if SetLoading? then Flag(flag) else Text(text)
    }
  }

  /** The fields of the form, and a uniform view of their values. */
  datatype Field =
    | Email | NewPassword | ConfirmNewPassword
    | EmailError | NewPasswordError | ConfirmNewPasswordError
    | IsLoading | ShowNewPassword | ShowConfirmNewPassword
  datatype Value = Text(s: string) | Flag(b: bool)

  function Get(state: State, f: Field): Value
  {
    match f
    case Email => Text(state.email)
    case NewPassword => Text(state.newPassword)
    case ConfirmNewPassword => Text(state.confirmNewPassword)
    case EmailError => Text(state.emailError)
    case NewPasswordError => Text(state.newPasswordError)
    case ConfirmNewPasswordError => Text(state.confirmNewPasswordError)
    case IsLoading => Flag(state.isLoading)
    case ShowNewPassword => Flag(state.showNewPassword)
    case ShowConfirmNewPassword => Flag(state.showConfirmNewPassword)
  }

  /** reducer: each case returns a copy of the state with one field
      replaced, or the initial form, or the state itself. */
  function Reduce(state: State, action: Action): State
  {
    match action
    case SetEmail(t) => state.(email := t)
    case SetNewPassword(t) => state.(newPassword := t)
    case SetConfirmNewPassword(t) => state.(confirmNewPassword := t)
    case SetEmailError(t) => state.(emailError := t)
    case SetNewPasswordError(t) => state.(newPasswordError := t)
    case SetConfirmNewPasswordError(t) => state.(confirmNewPasswordError := t)
    case SetLoading(b) => state.(isLoading := b)
    case ToggleShowNewPassword => state.(showNewPassword := !state.showNewPassword)
    case ToggleShowConfirmNewPassword => state.(showConfirmNewPassword := !state.showConfirmNewPassword)
    case ClearForm => InitialState
    case Other(_) => state
  }

  /** A SET_* action writes its payload into its field and leaves every
      other field as it was. */
  lemma SetterWritesOnlyItsField(s: State, a: Action, f: Field)
    requires a.IsSetter()
    ensures Get(Reduce(s, a), f) == if f == a.Target() then a.Payload() else Get(s, f)
  {
  }

  /** Of two SET_* actions on the same field only the second one counts. */
  lemma LastSetterWins(s: State, a: Action, b: Action)
    requires a.IsSetter() && b.IsSetter() && a.Target() == b.Target()
    ensures Reduce(Reduce(s, a), b) == Reduce(s, b)
  {
  }

  /** Each toggle negates its own flag and nothing else; each undoes
      itself, and the two commute. */
  lemma TogglesAreIndependent(s: State)
    ensures Reduce(s, ToggleShowNewPassword) == s.(showNewPassword := !s.showNewPassword)
    ensures Reduce(s, ToggleShowConfirmNewPassword) == s.(showConfirmNewPassword := !s.showConfirmNewPassword)
    ensures Reduce(Reduce(s, ToggleShowNewPassword), ToggleShowNewPassword) == s
    ensures Reduce(Reduce(s, ToggleShowConfirmNewPassword), ToggleShowConfirmNewPassword) == s
    ensures Reduce(Reduce(s, ToggleShowNewPassword), ToggleShowConfirmNewPassword)
         == Reduce(Reduce(s, ToggleShowConfirmNewPassword), ToggleShowNewPassword)
  {
  }

  /** CLEAR_FORM gives the initial form from any state, so repeating it
      changes nothing. */
  lemma ClearFormResets(s: State)
    ensures Reduce(s, ClearForm) == InitialState
    ensures Reduce(Reduce(s, ClearForm), ClearForm) == Reduce(s, ClearForm)
  {
  }

  lemma UnknownActionIsIgnored(s: State, kind: string)
    requires kind !in ACTION_TYPES
    ensures Reduce(s, Other(kind)) == s
  {
  }

  lemma InitialStateIsBlank(f: Field)
    ensures Get(InitialState, f) == Text("") || Get(InitialState, f) == Flag(false)
  {
  }

  /** Apart from CLEAR_FORM, no action changes two fields. */
  lemma AtMostOneFieldChanges(s: State, a: Action, f: Field, g: Field)
    requires !a.ClearForm?
    requires f != g && Get(Reduce(s, a), f) != Get(s, f)
    ensures Get(Reduce(s, a), g) == Get(s, g)
  {
  }
}
