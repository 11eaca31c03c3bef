/**
 * The login screen: requesting a verification code for a phone number, and
 * confirming the code, which records the profile and the session marker.
 */
module Login {
  import opened Wrappers
  import opened Storage
  import opened Profiles
  import JsText
  import Auth
  import Navigation

  /** `auth.currentUser` after a successful sign-in. */
  datatype AuthUser = AuthUser(uid: string, phoneNumber: string, photoURL: Option<string>)

  /** What the screen reports after Send Code. */
  datatype SendCodeAlert = PhoneNotE164 | NameMissing | CodeSent | SendFailed(message: string)

  /** What the screen reports after Verify Code. */
  datatype VerifyAlert = CodeMissing | LoggedIn | VerifyFailed(message: string)

  /**
   * The guards of sendVerificationCode, in order: the phone must start with
   * "+", then the name must be non-empty. Nothing else about either is checked.
   */
  function SendCodeGuard(phoneNumber: string, name: string): (r: Option<SendCodeAlert>)
    ensures r.None? <==> JsText.StartsWith(phoneNumber, "+") && name != ""
    ensures !JsText.StartsWith(phoneNumber, "+") ==> r == Some(PhoneNotE164)
    ensures JsText.StartsWith(phoneNumber, "+") && name == "" ==> r == Some(NameMissing)
  {
    if !JsText.StartsWith(phoneNumber, "+") then Some(PhoneNotE164)
    else if name == "" then Some(NameMissing)
    else None
  }

  /** The profile verifyCode writes for the signed-in user; a missing photo URL becomes "". */
  function ProfileOf(user: AuthUser, name: string): (p: Profile)
    ensures p.uid == user.uid && p.phoneNumber == user.phoneNumber && p.name == name
    ensures p.profilePic == (if user.photoURL.Some? then user.photoURL.value else "")
  {
    Profile(user.uid, user.phoneNumber, name, if user.photoURL.Some? then user.photoURL.value else "")
  }

  /** The session marker `{uid}` cached under "user". */
  function SessionMarker(uid: string): (v: Json)
    ensures v.JObject? && v.fields.Keys == {"uid"} && v.fields["uid"] == JString(uid)
  {
    JObject(map["uid" := JString(uid)])
  }

  /** The profile write is a whole-document overwrite: doing it twice leaves what doing it once leaves. */
  lemma RepeatedProfileWrite(docs: map<string, Profile>, user: AuthUser, name: string)
    ensures docs[user.uid := ProfileOf(user, name)][user.uid := ProfileOf(user, name)]
         == docs[user.uid := ProfileOf(user, name)]
  {
  }

  /**
   * The marker a successful verification caches is what the app root reads
   * back at startup, and what the authentication context would read back:
   * the root's startup check finds a session, and checkUserLogin, were it
   * called, would move any state to a consistent logged-in state whose user
   * is `{uid}`.
   */
  lemma MarkerStartsSession(items: map<string, Serialised>, uid: string, s: Auth.AuthState)
    ensures var after := items[UserKey := Stringify(SessionMarker(uid))];
      && Navigation.HasStoredSession(after)
      && var next := Auth.Reduce(s, Auth.Action(Auth.SetUser, Parse(after[UserKey])));
         next.isLoggedIn && next.user == SessionMarker(uid) && Auth.Consistent(next)
         && Auth.AgreesWithCache(next, after)
  {
  }

  class LoginScreen {
    var phoneNumber: string
    var verificationCode: string
    var name: string
    /** null until a code has been sent. */
    var verificationId: Option<string>
    const users: ProfileCollection
    const cache: KeyValueCache

    constructor (users: ProfileCollection, cache: KeyValueCache)
      ensures phoneNumber == "" && verificationCode == "" && name == "" && verificationId.None?
      ensures this.users == users && this.cache == cache
    {
      phoneNumber, verificationCode, name := "", "", "";
      verificationId := None;
      this.users := users;
      this.cache := cache;
    }

    /** onChangeText of the phone number input. */
    method SetPhoneNumber(text: string)
      modifies this`phoneNumber
      ensures phoneNumber == text
    {
      phoneNumber := text;
    }

    /** onChangeText of the name input. */
    method SetName(text: string)
      modifies this`name
      ensures name == text
    {
      name := text;
    }

    /** onChangeText of the verification code input. */
    method SetVerificationCode(text: string)
      modifies this`verificationCode
      ensures verificationCode == text
    {
      verificationCode := text;
    }

    /**
     * sendVerificationCode. `request` is what signInWithPhoneNumber resolves
     * to (the verification id) or the error it throws; it is consulted only
     * when both guards pass. Only a resolved request changes verificationId.
     */
    method SendVerificationCode(request: Result<string>) returns (alert: SendCodeAlert)
      modifies this`verificationId
      ensures var guard := SendCodeGuard(phoneNumber, name);
        && (guard.Some? ==> alert == guard.value && verificationId == old(verificationId))
        && (guard.None? && request.Failure? ==> alert == SendFailed(request.message) && verificationId == old(verificationId))
        && (guard.None? && request.Success? ==> alert == CodeSent && verificationId == Some(request.value))
    {
      var guard := SendCodeGuard(phoneNumber, name);
      if guard.Some? {
        return guard.value;
      }
      match request
      case Success(id) =>
        verificationId := Some(id);
        alert := CodeSent;
      case Failure(msg) =>
        alert := SendFailed(msg);
    }

    /**
     * verifyCode. `signIn` is what the credential exchange resolves to (the
     * signed-in user) or the error it throws; `profileWrite` is how setDoc
     * completes. An empty code is rejected before either is used. The cache
     * marker is written only after the profile write has succeeded; any
     * failure leaves both the profiles and the cache as they were.
     */
    method VerifyCode(signIn: Result<AuthUser>, profileWrite: Completion) returns (alert: VerifyAlert)
      modifies users, cache
      ensures verificationCode == "" ==>
        alert == CodeMissing && users.docs == old(users.docs) && cache.items == old(cache.items)
      ensures verificationCode != "" && signIn.Failure? ==>
        alert == VerifyFailed(signIn.message) && users.docs == old(users.docs) && cache.items == old(cache.items)
      ensures verificationCode != "" && signIn.Success? && profileWrite.Failed? ==>
        alert == VerifyFailed(profileWrite.message) && users.docs == old(users.docs) && cache.items == old(cache.items)
      ensures verificationCode != "" && signIn.Success? && profileWrite.Done? ==>
        && alert == LoggedIn
        && users.docs == old(users.docs)[signIn.value.uid := ProfileOf(signIn.value, name)]
        && cache.items == old(cache.items)[UserKey := Stringify(SessionMarker(signIn.value.uid))]
      ensures cache.items != old(cache.items) ==> alert == LoggedIn && profileWrite.Done?
    {
      if verificationCode == "" {
        return CodeMissing;
      }
      if signIn.Failure? {
        return VerifyFailed(signIn.message);
      }
      var user := signIn.value;
      if profileWrite.Failed? {
        return VerifyFailed(profileWrite.message);
      }
      users.SetDoc(user.uid, ProfileOf(user, name));
      cache.SetItem(UserKey, Stringify(SessionMarker(user.uid)));
      alert := LoggedIn;
    }
  }
}
