/** The sign-up form reducer: one case per field setter, a visibility
    toggle and a reset to the initial form. */
module SignUpReducer {

  datatype State = State(
    username: string,
    email: string,
    password: string,
    usernameError: string,
    emailError: string,
    passwordError: string,
    isLoading: bool,
    showPassword: bool)

  /** initialState: every string empty, both flags false. */
  const InitialState: State := State("", "", "", "", "", "", false, false)

  /** The type strings the reducer's switch names. */
  const ACTION_TYPES: set<string> := {
    "SET_USERNAME", "SET_EMAIL", "SET_PASSWORD", "SET_USERNAME_ERROR", "SET_EMAIL_ERROR",
    "SET_PASSWORD_ERROR", "SET_LOADING", "TOGGLE_SHOW_PASSWORD", "CLEAR_FORM"}

  /** One case for each type the reducer's switch names. Other(kind) stands
      for an action whose type is none of ACTION_TYPES; an action carrying
      one of those types is the constructor of that type, never Other. */
  datatype Action =
    | SetUsername(text: string)
    | SetEmail(text: string)
    | SetPassword(text: string)
    | SetUsernameError(text: string)
    | SetEmailError(text: string)
    | SetPasswordError(text: string)
    | SetLoading(flag: bool)
    | ToggleShowPassword
    | ClearForm
    | Other(kind: string)
  {
    /** The SET_* actions. */
    predicate IsSetter()
    {
      !(ToggleShowPassword? || ClearForm? || Other?)
    }

    /** The field a SET_* action writes. */
    function Target(): Field
      requires IsSetter()
    {
      match this
      case SetUsername(_) => Username
      case SetEmail(_) => Email
      case SetPassword(_) => Password
      case SetUsernameError(_) => UsernameError
      case SetEmailError(_) => EmailError
      case SetPasswordError(_) => PasswordError
      case SetLoading(_) => IsLoading
    }

    /** The value a SET_* action writes. */
    function Payload(): Value
      requires IsSetter()
    {
      if SetLoading? then Flag(flag) else Text(text)
    }
  }

  /** The fields of the form, and a uniform view of their values. */
  datatype Field = Username | Email | Password | UsernameError | EmailError | PasswordError | IsLoading | ShowPassword
  datatype Value = Text(s: string) | Flag(b: bool)

  function Get(state: State, f: Field): Value
  {
    match f
    case Username => Text(state.username)
    case Email => Text(state.email)
    case Password => Text(state.password)
    case UsernameError => Text(state.usernameError)
    case EmailError => Text(state.emailError)
    case PasswordError => Text(state.passwordError)
    case IsLoading => Flag(state.isLoading)
    case ShowPassword => Flag(state.showPassword)
  }

  /** reducer: each case returns a copy of the state with one field
      replaced, or the initial form, or the state itself. */
  function Reduce(state: State, action: Action): State
  {
    match action
    case SetUsername(t) => state.(username := t)
    case SetEmail(t) => state.(email := t)
    case SetPassword(t) => state.(password := t)
    case SetUsernameError(t) => state.(usernameError := t)
    case SetEmailError(t) => state.(emailError := t)
    case SetPasswordError(t) => state.(passwordError := t)
    case SetLoading(b) => state.(isLoading := b)
    case ToggleShowPassword => state.(showPassword := !state.showPassword)
    case ClearForm => InitialState
    case Other(_) => state
  }

  /** A SET_* action writes its payload into its field and leaves every
      other field as it was. */
  lemma SetterWritesOnlyItsField(s: State, a: Action, f: Field)
    requires a.IsSetter()
    ensures Get(Reduce(s, a), f) == if f == a.Target() then a.Payload() else Get(s, f)
  {
  }

  /** Of two SET_* actions on the same field only the second one counts. */
  lemma LastSetterWins(s: State, a: Action, b: Action)
    requires a.IsSetter() && b.IsSetter() && a.Target() == b.Target()
    ensures Reduce(Reduce(s, a), b) == Reduce(s, b)
  {
  }

  /** TOGGLE_SHOW_PASSWORD negates showPassword and nothing else. */
  lemma ToggleNegatesShowPassword(s: State)
    ensures Reduce(s, ToggleShowPassword) == s.(showPassword := !s.showPassword)
  {
  }

  lemma ToggleTwiceRestores(s: State)
    ensures Reduce(Reduce(s, ToggleShowPassword), ToggleShowPassword) == s
  {
  }

  /** CLEAR_FORM gives the initial form from any state, so repeating it
      changes nothing. */
  lemma ClearFormResets(s: State)
    ensures Reduce(s, ClearForm) == InitialState
    ensures Reduce(Reduce(s, ClearForm), ClearForm) == Reduce(s, ClearForm)
  {
  }

  lemma UnknownActionIsIgnored(s: State, kind: string)
    requires kind !in ACTION_TYPES
    ensures Reduce(s, Other(kind)) == s
  {
  }

  lemma InitialStateIsBlank(f: Field)
    ensures Get(InitialState, f) == Text("") || Get(InitialState, f) == Flag(false)
    ensures !InitialState.isLoading && !InitialState.showPassword
  {
  }
}
