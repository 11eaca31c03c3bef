/**
 * The conversation screen: the message list rebuilt from each snapshot of the
 * "chats" collection, and sending a message into that collection.
 */
module Chat {
  import opened Wrappers
  import JsText

  /** A message time as the screen may see it: a store-native Timestamp, or a plain JavaScript Date. */
  datatype Timestamp = StoreTimestamp(seconds: int, nanoseconds: int) | JsDate(millis: int)

  /** A document of the "chats" collection. */
  datatype ChatRecord = ChatRecord(
    senderId: string,
    receiverId: string,
    text: string,
    timestamp: Timestamp,
    users: seq<string>)

  /** The local pair filter: the record goes from `selfId` to `peerId` or from `peerId` to `selfId`. */
  predicate InThread(selfId: string, peerId: string, r: ChatRecord): (b: bool)
    ensures b ==> r.senderId in {selfId, peerId} && r.receiverId in {selfId, peerId}
    ensures b ==> selfId == peerId || r.senderId != r.receiverId
  {
    || (r.senderId == selfId && r.receiverId == peerId)
    || (r.senderId == peerId && r.receiverId == selfId)
  }

  /** The message list materialised from one snapshot: the records passing the pair filter, in snapshot order. */
  function Thread(snapshot: seq<ChatRecord>, selfId: string, peerId: string): (t: seq<ChatRecord>)
    ensures |t| <= |snapshot|
    ensures forall r | r in t :: InThread(selfId, peerId, r)
  {
    if snapshot == [] then []
    else
      var last := snapshot[|snapshot| - 1];
      Thread(snapshot[..|snapshot| - 1], selfId, peerId) + (if InThread(selfId, peerId, last) then [last] else [])
  }

  /** The snapshot positions whose records pass the pair filter, in increasing order. */
  function KeptPositions(snapshot: seq<ChatRecord>, selfId: string, peerId: string): seq<nat>
  {
    if snapshot == [] then []
    else
      var n := |snapshot| - 1;
      KeptPositions(snapshot[..n], selfId, peerId) + (if InThread(selfId, peerId, snapshot[n]) then [n] else [])
  }

  /**
   * The list is the snapshot with exactly the non-matching records taken out:
   * its k-th record is the snapshot's record at the k-th kept position, the
   * kept positions increase (no reordering, nothing sorted), and a position is
   * kept exactly when its record passes the pair filter.
   */
  lemma {:induction false} ThreadIsOrderedSelection(snapshot: seq<ChatRecord>, selfId: string, peerId: string)
    ensures var t, ks := Thread(snapshot, selfId, peerId), KeptPositions(snapshot, selfId, peerId);
      && |ks| == |t| <= |snapshot|
      && (forall k | 0 <= k < |ks| :: ks[k] < |snapshot| && t[k] == snapshot[ks[k]])
      && (forall k, l | 0 <= k < l < |ks| :: ks[k] < ks[l])
      && (forall i | 0 <= i < |snapshot| :: InThread(selfId, peerId, snapshot[i]) <==> i in ks)
  {
    if snapshot != [] {
      var n := |snapshot| - 1;
      var prefix := snapshot[..n];
      ThreadIsOrderedSelection(prefix, selfId, peerId);
      var t0, ks0 := Thread(prefix, selfId, peerId), KeptPositions(prefix, selfId, peerId);
      var t, ks := Thread(snapshot, selfId, peerId), KeptPositions(snapshot, selfId, peerId);
      forall k | 0 <= k < |ks| ensures ks[k] < |snapshot| && t[k] == snapshot[ks[k]] {
        if k < |ks0| {
          assert ks[k] == ks0[k] && t[k] == t0[k];
          assert prefix[ks0[k]] == snapshot[ks0[k]];
        }
      }
      forall i | 0 <= i < |snapshot| ensures InThread(selfId, peerId, snapshot[i]) <==> i in ks {
        if i < n {
          assert snapshot[i] == prefix[i];
          assert n !in ks0;
        }
      }
    }
  }

  /** A record is in the list exactly when it is in the snapshot and passes the pair filter. */
  lemma {:induction false} ThreadMembership(snapshot: seq<ChatRecord>, selfId: string, peerId: string, r: ChatRecord)
    ensures r in Thread(snapshot, selfId, peerId) <==> r in snapshot && InThread(selfId, peerId, r)
  {
    if snapshot != [] {
      var n := |snapshot| - 1;
      ThreadMembership(snapshot[..n], selfId, peerId, r);
      assert snapshot == snapshot[..n] + [snapshot[n]];
    }
  }

  /** Filtering the materialised list again gives the same list. */
  lemma {:induction false} ThreadIdempotent(snapshot: seq<ChatRecord>, selfId: string, peerId: string)
    ensures Thread(Thread(snapshot, selfId, peerId), selfId, peerId) == Thread(snapshot, selfId, peerId)
  {
    if snapshot != [] {
      var n := |snapshot| - 1;
      var t0 := Thread(snapshot[..n], selfId, peerId);
      ThreadIdempotent(snapshot[..n], selfId, peerId);
      if InThread(selfId, peerId, snapshot[n]) {
        var t := t0 + [snapshot[n]];
        assert t[..|t| - 1] == t0 && t[|t| - 1] == snapshot[n];
        assert Thread(t, selfId, peerId) == Thread(t0, selfId, peerId) + [snapshot[n]];
      } else {
        assert Thread(snapshot, selfId, peerId) == t0 + [] == t0;
      }
    }
  }

  /** Both participants see the same list: the filter depends only on the unordered pair. */
  lemma {:induction false} ThreadSymmetric(snapshot: seq<ChatRecord>, selfId: string, peerId: string)
    ensures Thread(snapshot, selfId, peerId) == Thread(snapshot, peerId, selfId)
  {
    if snapshot != [] {
      ThreadSymmetric(snapshot[..|snapshot| - 1], selfId, peerId);
    }
  }

  /** The snapshot callback's forEach/push loop. */
  method Materialise(snapshot: seq<ChatRecord>, selfId: string, peerId: string) returns (fetched: seq<ChatRecord>)
    ensures fetched == Thread(snapshot, selfId, peerId)
  {
    fetched := [];
    var i := 0;
    while i < |snapshot|
      invariant 0 <= i <= |snapshot|
      invariant fetched == Thread(snapshot[..i], selfId, peerId)
    {
      var data := snapshot[i];
      assert snapshot[..i + 1][..i] == snapshot[..i];
      if InThread(selfId, peerId, data) {
        fetched := fetched + [data];
      }
      i := i + 1;
    }
    assert snapshot[..i] == snapshot;
  }

  /**
   * What a press of Send would append: nothing for a blank input, otherwise a
   * record from `selfId` to `peerId` carrying the untrimmed text and both ids.
   */
  function ComposeMessage(message: string, selfId: string, peerId: string, now: int): (r: Option<ChatRecord>)
    ensures r.None? <==> JsText.IsBlank(message)
    ensures r.Some? ==>
      && r.value.senderId == selfId && r.value.receiverId == peerId
      && r.value.text == message && r.value.timestamp == JsDate(now)
      && r.value.users == [selfId, peerId]
  {
    JsText.TrimEmptyIffBlank(message);
    if JsText.Trim(message) != [] then
      Some(ChatRecord(selfId, peerId, message, JsDate(now), [selfId, peerId]))
    else
      None
  }

  /** The server-side query `where("users", "array-contains", uid)` over the records in the order given. */
  function ArrayContains(docs: seq<ChatRecord>, uid: string): (q: seq<ChatRecord>)
    ensures |q| <= |docs|
    ensures forall r | r in q :: uid in r.users
  {
    if docs == [] then []
    else
      var last := docs[|docs| - 1];
      ArrayContains(docs[..|docs| - 1], uid) + (if uid in last.users then [last] else [])
  }

  lemma {:induction false} ArrayContainsMembership(docs: seq<ChatRecord>, uid: string, r: ChatRecord)
    ensures r in ArrayContains(docs, uid) <==> r in docs && uid in r.users
  {
    if docs != [] {
      var n := |docs| - 1;
      ArrayContainsMembership(docs[..n], uid, r);
      assert docs == docs[..n] + [docs[n]];
    }
  }

  /**
   * A sent record, once in the store, is delivered by both participants'
   * array-contains queries and passes both participants' pair filters; what
   * it carries is what ComposeMessage promises (the sent text, sender and
   * receiver).
   */
  lemma SentRecordReachesBothViews(docs: seq<ChatRecord>, message: string, selfId: string, peerId: string, now: int, r: ChatRecord)
    requires ComposeMessage(message, selfId, peerId, now) == Some(r)
    requires r in docs
    ensures r in Thread(ArrayContains(docs, selfId), selfId, peerId)
    ensures r in Thread(ArrayContains(docs, peerId), peerId, selfId)
  {
    ArrayContainsMembership(docs, selfId, r);
    ArrayContainsMembership(docs, peerId, r);
    ThreadMembership(ArrayContains(docs, selfId), selfId, peerId, r);
    ThreadMembership(ArrayContains(docs, peerId), peerId, selfId, r);
  }

  /** The "chats" collection: an append-only sequence of records. */
  class ChatCollection {
    var docs: seq<ChatRecord>

    constructor (initial: seq<ChatRecord>)
      ensures docs == initial
    {
      docs := initial;
    }

    /** addDoc: the record is appended; nothing already stored changes. */
    method AddDoc(r: ChatRecord)
      modifies this
      ensures docs == old(docs) + [r]
    {
      docs := docs + [r];
    }
  }

  /** One open conversation between the signed-in user and the peer chosen on the roster. */
  class ChatScreen {
    /** `auth.currentUser`'s uid, or None when no user is signed in (reading `.uid` then throws). */
    const currentUid: Option<string>
    /** `route.params.userId` and `route.params.userName`. */
    const userId: string
    const userName: string
    const chats: ChatCollection
    /** The text input. */
    var message: string
    /** The materialised message list. */
    var messages: seq<ChatRecord>

    constructor (currentUid: Option<string>, userId: string, userName: string, chats: ChatCollection)
      ensures this.currentUid == currentUid && this.userId == userId && this.userName == userName
      ensures this.chats == chats
      ensures message == "" && messages == []
    {
      this.currentUid := currentUid;
      this.userId := userId;
      this.userName := userName;
      this.chats := chats;
      message := "";
      messages := [];
    }

    /** onChangeText. */
    method SetMessage(text: string)
      modifies this`message
      ensures message == text
    {
      message := text;
    }

    /**
     * A snapshot delivery: the list is replaced by the snapshot's thread,
     * whatever it held before. With no signed-in user the effect throws while
     * building the query, nothing is subscribed, and the list stays as it was.
     */
    method OnSnapshot(snapshot: seq<ChatRecord>)
      modifies this`messages
      ensures currentUid.Some? ==> messages == Thread(snapshot, currentUid.value, userId)
      ensures currentUid.None? ==> messages == old(messages)
    {
      if currentUid.Some? {
        var fetched := Materialise(snapshot, currentUid.value, userId);
        messages := fetched;
      }
    }

    /**
     * handleSendMessage. `now` is `new Date()`; `accepted` says whether addDoc
     * resolved. A blank input or a rejected addDoc leaves the store and the
     * input as they were; so does a missing signed-in user, since building
     * the record then throws before addDoc. Otherwise the composed record is
     * appended and then the input is cleared.
     */
    method SendMessage(now: int, accepted: bool)
      modifies this`message, chats
      ensures currentUid.None? ==> chats.docs == old(chats.docs) && message == old(message)
      ensures currentUid.Some? ==>
        var r := ComposeMessage(old(message), currentUid.value, userId, now);
        if r.Some? && accepted then
          chats.docs == old(chats.docs) + [r.value] && message == ""
        else
          chats.docs == old(chats.docs) && message == old(message)
    {
      if JsText.Trim(message) == [] || currentUid.None? {
        return;
      }
      var r := ComposeMessage(message, currentUid.value, userId, now);
      if r.Some? && accepted {
        chats.AddDoc(r.value);
        message := "";
      }
    }
  }
}
