/** The "users" collection: one profile document per uid. */
module Profiles {

  /** A document of the "users" collection. */
  datatype Profile = Profile(uid: string, phoneNumber: string, name: string, profilePic: string)

  class ProfileCollection {
    var docs: map<string, Profile>

    constructor (initial: map<string, Profile>)
      ensures docs == initial
    {
      docs := initial;
    }

    /** setDoc on `users/<uid>`: the document under `uid` is overwritten whole; no other document changes. */
    method SetDoc(uid: string, p: Profile)
      modifies this
      ensures docs == old(docs)[uid := p]
    {
      docs := docs[uid := p];
    }
  }
}
