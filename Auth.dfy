/**
 * The authentication context: a two-action reducer over the session state,
 * and the three operations that keep the cached "user" entry in step with it.
 */
module Auth {
  import opened Storage

  const SetUser: string := "SET_USER"
  const RemoveUser: string := "REMOVE_USER"

  /** `{isLoggedIn, user}`; `user` is `JNull` when there is none. */
  datatype AuthState = AuthState(isLoggedIn: bool, user: Json)

  /** `{type, payload}`; an action without a payload carries `JNull`. */
  datatype Action = Action(kind: string, payload: Json)

  const InitialState: AuthState := AuthState(false, JNull)

  /** authReducer. */
  function Reduce(state: AuthState, action: Action): (r: AuthState)
    ensures action.kind == SetUser ==> r.isLoggedIn && r.user == action.payload
    ensures action.kind == RemoveUser ==> !r.isLoggedIn && r.user == JNull
    ensures action.kind != SetUser && action.kind != RemoveUser ==> r == state
  {
    if action.kind == SetUser then state.(isLoggedIn := true, user := action.payload)
    else if action.kind == RemoveUser then state.(isLoggedIn := false, user := JNull)
    else state
  }

  /** The flag says logged in exactly when there is a user. */
  predicate Consistent(s: AuthState)
  {
    s.isLoggedIn <==> s.user != JNull
  }

  lemma InitialStateConsistent()
    ensures Consistent(InitialState)
  {
  }

  /** Every action whose payload is not null keeps the state consistent. */
  lemma ReducePreservesConsistent(s: AuthState, a: Action)
    requires Consistent(s)
    requires a.kind == SetUser ==> a.payload != JNull
    ensures Consistent(Reduce(s, a))
  {
  }

  /** A SET_USER with a null payload is the one transition that breaks consistency. */
  lemma SetUserNullBreaksConsistency(s: AuthState)
    ensures !Consistent(Reduce(s, Action(SetUser, JNull)))
  {
  }

  /** Applying an action twice is the same as applying it once. */
  lemma ReduceIdempotent(s: AuthState, a: Action)
    ensures Reduce(Reduce(s, a), a) == Reduce(s, a)
  {
  }

  /** The state agrees with the cache: logged in exactly when "user" is cached, and with the cached user. */
  predicate AgreesWithCache(s: AuthState, items: map<string, Serialised>)
  {
    && (s.isLoggedIn <==> UserKey in items)
    && (UserKey in items ==> s.user == Parse(items[UserKey]))
  }

  /** AuthProvider: the reducer's state and the cache it keeps in step. */
  class AuthProvider {
    var state: AuthState
    const cache: KeyValueCache

    constructor (cache: KeyValueCache)
      ensures state == InitialState && this.cache == cache
    {
      state := InitialState;
      this.cache := cache;
    }

    method Dispatch(action: Action)
      modifies this`state
      ensures state == Reduce(old(state), action)
    {
      state := Reduce(state, action);
    }

    /** checkUserLogin: dispatch SET_USER with the parsed cached user, if any; otherwise change nothing. */
    method CheckUserLogin()
      modifies this`state
      ensures UserKey !in cache.items ==> state == old(state)
      ensures UserKey in cache.items ==> state == Reduce(old(state), Action(SetUser, Parse(cache.items[UserKey])))
      ensures UserKey in cache.items ==> AgreesWithCache(state, cache.items)
    {
      var user := cache.GetItem(UserKey);
      if user.Some? {
        Dispatch(Action(SetUser, Parse(user.value)));
      }
    }

    /** loginUser: cache the serialised user, then dispatch SET_USER with it. */
    method LoginUser(user: Json)
      modifies this`state, cache
      ensures cache.items == old(cache.items)[UserKey := Stringify(user)]
      ensures state == Reduce(old(state), Action(SetUser, user))
      ensures AgreesWithCache(state, cache.items)
    {
      cache.SetItem(UserKey, Stringify(user));
      Dispatch(Action(SetUser, user));
    }

    /** logoutUser: drop the cached user (no other key), then dispatch REMOVE_USER. */
    method LogoutUser()
      modifies this`state, cache
      ensures cache.items == old(cache.items) - {UserKey}
      ensures state == Reduce(old(state), Action(RemoveUser, JNull))
      ensures AgreesWithCache(state, cache.items) && Consistent(state)
    {
      cache.RemoveItem(UserKey);
      Dispatch(Action(RemoveUser, JNull));
    }
  }
}
