/** The app root: the startup login flag, logout, and the screens offered for the flag. */
module Navigation {
  import opened Storage

  datatype ScreenName = Home | Chat | Login

  /**
   * The stack's screens in declaration order (the first is the initial route):
   * Home and Chat when logged in, Login alone otherwise.
   */
  function Screens(isLoggedIn: bool): (r: seq<ScreenName>)
    ensures |r| > 0 && r[0] == (if isLoggedIn then Home else Login)
    ensures (Home in r) == isLoggedIn && (Chat in r) == isLoggedIn && (Login in r) == !isLoggedIn
  {
    if isLoggedIn then [Home, Chat] else [Login]
  }

  /**
   * Whether the cache marks a session. A cached value is always a non-empty
   * serialisation and so truthy; an absent key reads as null.
   */
  predicate HasStoredSession(items: map<string, Serialised>)
  {
    UserKey in items
  }

  class App {
    var isLoggedIn: bool
    const cache: KeyValueCache

    constructor (cache: KeyValueCache)
      ensures !isLoggedIn && this.cache == cache
    {
      isLoggedIn := false;
      this.cache := cache;
    }

    /** checkLoginStatus: the flag becomes whether the cache holds "user". */
    method CheckLoginStatus()
      modifies this`isLoggedIn
      ensures isLoggedIn == HasStoredSession(cache.items)
    {
      var user := cache.GetItem(UserKey);
      if user.Some? {
        isLoggedIn := true;
      } else {
        isLoggedIn := false;
      }
    }

    /**
     * handleLogout: "user" is removed (no other key), then the flag is cleared;
     * afterwards the flag agrees with what checkLoginStatus would read.
     */
    method HandleLogout()
      modifies this`isLoggedIn, cache
      ensures cache.items == old(cache.items) - {UserKey}
      ensures !isLoggedIn && isLoggedIn == HasStoredSession(cache.items)
    {
      cache.RemoveItem(UserKey);
      isLoggedIn := false;
    }
  }
}
