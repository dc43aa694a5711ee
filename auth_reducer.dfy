/** The session reducer: a pure (state, action) -> state function over a
    state whose only field is the current user. */
module AuthReducer {
  import opened Values

  /** ActionTypes. */
  const LOGIN: string := "LOGIN"
  const LOGOUT: string := "LOGOUT"

  /** A dispatched action: its type string and its payload, None when the
      action carries none. */
  datatype AuthAction<+P> = AuthAction(kind: string, payload: Option<P>)

  function LoginAction<P>(payload: P): AuthAction<P>
  {
    AuthAction(LOGIN, Some(payload))
  }

  function LogoutAction<P>(): AuthAction<P>
  {
    AuthAction(LOGOUT, None)
  }

  /** An action the reducer acts on: a LOGIN or a LOGOUT. */
  predicate IsSessionAction<P>(a: AuthAction<P>)
  {
    a.kind == LOGIN || a.kind == LOGOUT
  }

  datatype AuthState<+P> = AuthState(user: Option<P>)

  /** The state the provider starts from: no user. */
  function InitialState<P>(): AuthState<P>
  {
    AuthState(None)
  }

  /** AuthReducer: LOGIN installs the payload, LOGOUT clears the user, any
      other type leaves the state as it is. */
  function Reduce<P>(state: AuthState<P>, action: AuthAction<P>): AuthState<P>
  {
    if action.kind == LOGIN then state.(user := action.payload)
    else if action.kind == LOGOUT then state.(user := None)
    else state
  }

  /** The state after dispatching the actions in order. */
  function Fold<P>(state: AuthState<P>, actions: seq<AuthAction<P>>): AuthState<P>
    decreases |actions|
  {
    if actions == [] then state else Fold(Reduce(state, actions[0]), actions[1..])
  }

  /** The position of the last LOGIN or LOGOUT of the sequence, if any. */
  function LastSessionAction<P>(actions: seq<AuthAction<P>>): (r: Option<nat>)
    ensures r.Some? ==> r.value < |actions| && IsSessionAction(actions[r.value])
    ensures r.Some? ==> forall j | r.value < j < |actions| :: !IsSessionAction(actions[j])
    ensures r.None? <==> forall j | 0 <= j < |actions| :: !IsSessionAction(actions[j])
    decreases |actions|
  {
    if actions == [] then None
    else if IsSessionAction(actions[|actions| - 1]) then Some(|actions| - 1)
    else LastSessionAction(actions[..|actions| - 1])
  }

  lemma LoginSetsUser<P>(state: AuthState<P>, payload: P)
    ensures Reduce(state, LoginAction(payload)).user == Some(payload)
  {
  }

  lemma LogoutClearsUser<P>(state: AuthState<P>)
    ensures Reduce(state, LogoutAction()).user == None
  {
  }

  lemma LogoutIsIdempotent<P>(state: AuthState<P>)
    ensures Reduce(Reduce(state, LogoutAction()), LogoutAction()) == Reduce(state, LogoutAction())
  {
  }

  lemma UnknownActionIsIgnored<P>(state: AuthState<P>, action: AuthAction<P>)
    requires !IsSessionAction(action)
    ensures Reduce(state, action) == state
  {
  }

  /** Dispatching one more action extends the fold by one step. */
  lemma FoldSnoc<P>(state: AuthState<P>, actions: seq<AuthAction<P>>, a: AuthAction<P>)
    ensures Fold(state, actions + [a]) == Reduce(Fold(state, actions), a)
    decreases |actions|
  {
    if actions != [] {
      assert (actions + [a])[1..] == actions[1..] + [a];
      FoldSnoc(Reduce(state, actions[0]), actions[1..], a);
    }
  }

  /** After any sequence of actions the user is the payload of the last
      LOGIN not followed by a LOGOUT, None when a LOGOUT comes after every
      LOGIN, and the starting user when neither type occurs. */
  lemma {:induction false} FoldKeepsLastSession<P>(state: AuthState<P>, actions: seq<AuthAction<P>>)
    ensures Fold(state, actions).user ==
      match LastSessionAction(actions)
      case None => state.user
      case Some(i) => if actions[i].kind == LOGIN then actions[i].payload else None
    decreases |actions|
  {
    if actions != [] {
      var init, last := actions[..|actions| - 1], actions[|actions| - 1];
      assert actions == init + [last];
      FoldSnoc(state, init, last);
      FoldKeepsLastSession(state, init);
    }
  }

  /** From the initial state, the user is set exactly when some LOGIN has no
      LOGOUT after it, and it is that LOGIN's payload. */
  lemma SessionFromInitialState<P>(actions: seq<AuthAction<P>>)
    ensures Fold(InitialState(), actions).user.Some? ==>
      exists i | 0 <= i < |actions| ::
        && actions[i].kind == LOGIN && actions[i].payload == Fold(InitialState(), actions).user
        && forall j | i < j < |actions| :: !IsSessionAction(actions[j])
    ensures (forall i | 0 <= i < |actions| && actions[i].kind == LOGIN ::
               exists j | i < j < |actions| :: actions[j].kind == LOGOUT)
            ==> Fold(InitialState(), actions).user == None
  {
    FoldKeepsLastSession(InitialState(), actions);
  }
}
