/** The session provider: the reducer's in-memory state plus the device's
    string-keyed storage, restored on start-up and written by login and
    logout. Each await is one sequential step. */
module AuthContext {
  import opened Values
  import opened AuthReducer

  const USER_ID: string := "userId"
  const USER_NAME: string := "userName"

  /** The payload the provider dispatches: a record with an id and a name. */
  datatype UserData = UserData(id: Id, name: string)

  /** One observable step of the provider, in the order it happens. */
  datatype Effect =
    | Dispatched(action: AuthAction<UserData>)
    | ItemSet(key: string, value: string)
    | ItemRemoved(key: string)

  /** The value getItem resolves to: the stored string, or null. */
  function GetItem(store: map<string, string>, key: string): Option<string>
  {
    if key in store then Some(store[key]) else None
  }

  /** The user checkAuthStatus restores from a store: built from both stored
      strings when both are present and non-empty (JavaScript truthiness),
      none otherwise. */
  function Restored(store: map<string, string>): Option<UserData>
  {
    var userId, userName := GetItem(store, USER_ID), GetItem(store, USER_NAME);
    if userId.Some? && userId.value != "" && userName.Some? && userName.value != "" then
      Some(UserData(Str(userId.value), userName.value))
    else
      None
  }

  /** The store after login's two writes, in order. */
  function StoreAfterLogin(store: map<string, string>, u: UserData): map<string, string>
  {
    store[USER_ID := IdToString(u.id)][USER_NAME := u.name]
  }

  /** The store after logout's only write. */
  function StoreAfterLogout(store: map<string, string>): map<string, string>
  {
    store - {USER_ID}
  }

  /** The two stored strings are present and non-empty exactly when a user
      is restored, and then it carries them; a missing or empty key gives
      no user. */
  lemma RestoreNeedsBothKeys(store: map<string, string>)
    ensures Restored(store).Some? <==>
      USER_ID in store && store[USER_ID] != "" && USER_NAME in store && store[USER_NAME] != ""
    ensures Restored(store).Some? ==>
      Restored(store).value == UserData(Str(store[USER_ID]), store[USER_NAME])
  {
  }

  /** A restart after login restores the id as its string form and the
      name, provided both strings are non-empty. */
  lemma LoginThenRestore(store: map<string, string>, u: UserData)
    requires IdToString(u.id) != "" && u.name != ""
    ensures Restored(StoreAfterLogin(store, u)) == Some(UserData(Str(IdToString(u.id)), u.name))
  {
  }

  /** A numeric id always has a non-empty string form, so only the name
      matters for the round trip. */
  lemma LoginThenRestoreNumericId(store: map<string, string>, n: int, name: string)
    requires name != ""
    ensures Restored(StoreAfterLogin(store, UserData(Num(n), name))) == Some(UserData(Str(IdToString(Num(n))), name))
  {
    LoginThenRestore(store, UserData(Num(n), name));
  }

  /** A restart after logout restores no user, although the name is still
      stored. */
  lemma LogoutThenRestore(store: map<string, string>)
    ensures Restored(StoreAfterLogout(store)) == None
    ensures USER_NAME in store ==>
      (USER_NAME in StoreAfterLogout(store) && StoreAfterLogout(store)[USER_NAME] == store[USER_NAME])
  {
  }

  /** login writes both session keys and logout removes userId; neither
      touches any other key. */
  lemma WritesOnlySessionKeys(store: map<string, string>, u: UserData, k: string)
    requires k != USER_ID && k != USER_NAME
    ensures k in StoreAfterLogin(store, u) <==> k in store
    ensures k in StoreAfterLogout(store) <==> k in store
    ensures k in store ==> StoreAfterLogin(store, u)[k] == store[k] && StoreAfterLogout(store)[k] == store[k]
    ensures StoreAfterLogin(store, u)[USER_ID] == IdToString(u.id)
    ensures StoreAfterLogin(store, u)[USER_NAME] == u.name
  {
  }

  /** What getItem reads back after each operation: login's two values,
      null for userId after logout, and whatever userName held before. */
  lemma SessionKeysReadBack(store: map<string, string>, u: UserData)
    ensures GetItem(StoreAfterLogin(store, u), USER_ID) == Some(IdToString(u.id))
    ensures GetItem(StoreAfterLogin(store, u), USER_NAME) == Some(u.name)
    ensures GetItem(StoreAfterLogout(store), USER_ID) == None
    ensures GetItem(StoreAfterLogout(store), USER_NAME) == GetItem(store, USER_NAME)
  {
    assert USER_ID[4] != USER_NAME[4];
  }

  /** Logging out twice leaves the store as logging out once. */
  lemma LogoutStoreIdempotent(store: map<string, string>)
    ensures StoreAfterLogout(StoreAfterLogout(store)) == StoreAfterLogout(store)
  {
  }

  /** AuthProvider: the reducer state, the device storage, and (as ghost
      state) the steps taken so far. */
  class AuthProvider {
    var state: AuthState<UserData>
    var store: map<string, string>
    ghost var effects: seq<Effect>

    /** The provider as first rendered over the device's storage. */
    constructor (device: map<string, string>)
      ensures state == InitialState() && store == device && effects == []
    {
      state := InitialState();
      store := device;
      effects := [];
    }

    method Dispatch(action: AuthAction<UserData>)
      modifies this
      ensures state == Reduce(old(state), action)
      ensures store == old(store)
      ensures effects == old(effects) + [Dispatched(action)]
    {
      state := Reduce(state, action);
      effects := effects + [Dispatched(action)];
    }

    /** AsyncStorage.setItem. */
    method SetItem(key: string, value: string)
      modifies this
      ensures store == old(store)[key := value]
      ensures state == old(state)
      ensures effects == old(effects) + [ItemSet(key, value)]
    {
      store := store[key := value];
      effects := effects + [ItemSet(key, value)];
    }

    /** AsyncStorage.removeItem: removing an absent key changes nothing. */
    method RemoveItem(key: string)
      modifies this
      ensures store == old(store) - {key}
      ensures state == old(state)
      ensures effects == old(effects) + [ItemRemoved(key)]
    {
      store := store - {key};
      effects := effects + [ItemRemoved(key)];
    }

    /** checkAuthStatus: read both keys and dispatch LOGIN with them when
      both are present and non-empty. readFails stands for a getItem that
      throws; the error is caught and nothing is dispatched. */
    method CheckAuthStatus(readFails: bool)
      modifies this
      ensures store == old(store)
      ensures readFails || Restored(old(store)).None? ==>
        state == old(state) && effects == old(effects)
      ensures !readFails && Restored(old(store)).Some? ==>
        && state == Reduce(old(state), LoginAction(Restored(old(store)).value))
        && effects == old(effects) + [Dispatched(LoginAction(Restored(old(store)).value))]
    {
      if !readFails {
        var userId := GetItem(store, USER_ID);
        var userName := GetItem(store, USER_NAME);
        if userId.Some? && userId.value != "" && userName.Some? && userName.value != "" {
          Dispatch(LoginAction(UserData(Str(userId.value), userName.value)));
        }
      }
    }

    /** login: the user is set first, then userId and userName are written. */
    method Login(userData: UserData)
      modifies this
      ensures state.user == Some(userData)
      ensures store == StoreAfterLogin(old(store), userData)
      ensures effects == old(effects) + [
        Dispatched(LoginAction(userData)),
        ItemSet(USER_ID, IdToString(userData.id)),
        ItemSet(USER_NAME, userData.name)]
    {
      Dispatch(LoginAction(userData));
      SetItem(USER_ID, IdToString(userData.id));
      SetItem(USER_NAME, userData.name);
    }

    /** logout: the user is cleared first, then only userId is removed. */
    method Logout()
      modifies this
      ensures state.user == None
      ensures store == StoreAfterLogout(old(store))
      ensures effects == old(effects) + [Dispatched(LogoutAction()), ItemRemoved(USER_ID)]
    {
      Dispatch(LogoutAction());
      RemoveItem(USER_ID);
    }
  }

  /** A process restart after login: a fresh provider over the same storage
      restores the logged-in user, with its id in string form. */
  method RestartAfterLogin(device: map<string, string>, u: UserData) returns (restored: Option<UserData>)
    requires IdToString(u.id) != "" && u.name != ""
    ensures restored == Some(UserData(Str(IdToString(u.id)), u.name))
  {
    var before := new AuthProvider(device);
    before.Login(u);
    var after := new AuthProvider(before.store);
    after.CheckAuthStatus(false);
    LoginThenRestore(device, u);
    restored := after.state.user;
  }

  /** A process restart after logout restores no user, whatever the store
      held before. */
  method RestartAfterLogout(device: map<string, string>) returns (restored: Option<UserData>)
    ensures restored == None
  {
    var before := new AuthProvider(device);
    before.CheckAuthStatus(false);
    before.Logout();
    var after := new AuthProvider(before.store);
    after.CheckAuthStatus(false);
    LogoutThenRestore(device);
    restored := after.state.user;
  }
}
