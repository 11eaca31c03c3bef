/** The roster screen: every other user's profile, and opening a chat with one of them. */
module Roster {
  import opened Wrappers
  import opened Profiles

  /** The server-side query `where("uid", "!=", uid)` over the profiles in the order the store returns them. */
  function Others(docs: seq<Profile>, uid: string): (r: seq<Profile>)
    ensures |r| <= |docs|
    ensures forall p | p in r :: p.uid != uid
  {
    if docs == [] then []
    else
      var last := docs[|docs| - 1];
      Others(docs[..|docs| - 1], uid) + (if last.uid != uid then [last] else [])
  }

  /**
   * The roster holds no profile of the current user, and holds every other
   * profile of the store, unmodified; it is never longer than the store.
   */
  lemma {:induction false} OthersMembership(docs: seq<Profile>, uid: string, p: Profile)
    ensures |Others(docs, uid)| <= |docs|
    ensures p in Others(docs, uid) <==> p in docs && p.uid != uid
  {
    if docs != [] {
      var n := |docs| - 1;
      OthersMembership(docs[..n], uid, p);
      assert docs == docs[..n] + [docs[n]];
    }
  }

  /**
   * The query keeps the store's relative order: the roster of two runs of
   * documents is the roster of the first followed by the roster of the second.
   */
  lemma {:induction false} OthersAppend(a: seq<Profile>, b: seq<Profile>, uid: string)
    ensures Others(a + b, uid) == Others(a, uid) + Others(b, uid)
  {
    if b != [] {
      var n := |b| - 1;
      OthersAppend(a, b[..n], uid);
      assert (a + b)[..|a + b| - 1] == a + b[..n];
    } else {
      assert a + b == a;
    }
  }

  /** The navigation parameters for the Chat screen. */
  datatype ChatParams = ChatParams(userId: string, userName: string)

  /** handleUserPress: open the chat with the pressed user's uid and name. */
  function HandleUserPress(user: Profile): (params: ChatParams)
    ensures params.userId == user.uid && params.userName == user.name
  {
    ChatParams(user.uid, user.name)
  }

  /** A chat opened from the roster is never with the current user. */
  lemma SelectedPeerIsOther(docs: seq<Profile>, uid: string, user: Profile)
    requires user in Others(docs, uid)
    ensures HandleUserPress(user).userId != uid
  {
  }

  class ChatListScreen {
    var users: seq<Profile>

    constructor ()
      ensures users == []
    {
      users := [];
    }

    /**
     * fetchUsers. `currentUid` is `auth.currentUser`'s uid, None when no user
     * is signed in (reading it then throws inside the try); `fetched` is the
     * "users" collection in store order, or the error getDocs throws. Success
     * replaces the list wholesale; any error leaves it as it was.
     */
    method FetchUsers(currentUid: Option<string>, fetched: Result<seq<Profile>>)
      modifies this`users
      ensures currentUid.Some? && fetched.Success? ==> users == Others(fetched.value, currentUid.value)
      ensures currentUid.None? || fetched.Failure? ==> users == old(users)
    {
      if currentUid.None? || fetched.Failure? {
        return;
      }
      var snapshot := Others(fetched.value, currentUid.value);
      var usersArray := [];
      var i := 0;
      while i < |snapshot|
        invariant 0 <= i <= |snapshot|
        invariant usersArray == snapshot[..i]
      {
        usersArray := usersArray + [snapshot[i]];
        i := i + 1;
      }
      users := usersArray;
    }
  }
}
