/** Properties of the handlers' decisions, over every store and request. */
module HandlerProperties {
  import opened Wrappers
  import opened Errors
  import opened Auth
  import opened Validation
  import opened Handlers

  /**
   * Profile creation succeeds exactly for a signed-in caller with a
   * `{user: string}` payload, who owns no profile yet, asking for a free
   * username.
   */
  lemma ProfileAcceptsIff(profiles: map<string, Uid>, auth: Option<Uid>, data: Payload)
    ensures ProfileDecision(profiles, auth, data).Pass? <==>
      && auth.Some?
      && Conforms(data, ProfileSchema())
      && auth.value !in profiles.Values
      && data["user"].s !in profiles
  {
  }

  /**
   * An unauthenticated or malformed profile request fails the same way on
   * every store: the two guards run before the store is read.
   */
  lemma ProfileGuardsPrecedeStore(profiles1: map<string, Uid>, profiles2: map<string, Uid>, auth: Option<Uid>, data: Payload)
    requires auth.None? || !Conforms(data, ProfileSchema())
    ensures ProfileDecision(profiles1, auth, data) == ProfileDecision(profiles2, auth, data)
    ensures ProfileDecision(profiles1, auth, data).Fail?
    ensures ProfileDecision(profiles1, auth, data).error.code == if auth.None? then Unauthenticated else InvalidArgument
  {
  }

  /** A caller who already owns a profile is refused with `already-exists`. */
  lemma ExistingOwnerRejected(profiles: map<string, Uid>, uid: Uid, data: Payload)
    requires Conforms(data, ProfileSchema())
    requires uid in profiles.Values
    ensures ProfileDecision(profiles, Some(uid), data) == Fail(HttpsError(AlreadyExists, HasProfileMessage))
  {
  }

  /**
   * A username that is already a key is refused with `already-exists`, also
   * when the caller is its owner (then the ownership query reports it first).
   */
  lemma TakenUsernameRejected(profiles: map<string, Uid>, uid: Uid, data: Payload)
    requires Conforms(data, ProfileSchema())
    requires "user" in data && data["user"].StringValue? && data["user"].s in profiles
    ensures ProfileDecision(profiles, Some(uid), data).Fail?
    ensures ProfileDecision(profiles, Some(uid), data).error.code == AlreadyExists
    ensures profiles[data["user"].s] == uid ==>
      ProfileDecision(profiles, Some(uid), data).error.message == HasProfileMessage
  {
  }

  /**
   * After a successful profile creation, every further request by the same
   * caller is refused: the first profile stays the only one.
   */
  lemma SecondProfileRejected(profiles: map<string, Uid>, uid: Uid, first: Payload, second: Payload)
    requires ProfileDecision(profiles, Some(uid), first).Pass?
    requires Conforms(second, ProfileSchema())
    ensures "user" in first && first["user"].StringValue?
    ensures ProfileDecision(profiles[first["user"].s := uid], Some(uid), second)
      == Fail(HttpsError(AlreadyExists, HasProfileMessage))
  {
    assert "user" in ProfileSchema();
    var after := profiles[first["user"].s := uid];
    assert after[first["user"].s] == uid;
  }

  /**
   * A successful profile creation keeps "each uid owns at most one profile"
   * and maps the requested username to the caller.
   */
  lemma ProfileCreationKeepsOneProfilePerUid(profiles: map<string, Uid>, uid: Uid, data: Payload)
    requires OneProfilePerUid(profiles)
    requires ProfileDecision(profiles, Some(uid), data).Pass?
    ensures "user" in data && data["user"].StringValue?
    ensures OneProfilePerUid(profiles[data["user"].s := uid])
    ensures profiles[data["user"].s := uid].Keys == profiles.Keys + {data["user"].s}
  {
  }

  /** Granting the admin claim to a caller who already holds it changes nothing. */
  lemma GrantAdminIdempotent(admins: set<Uid>, uid: Uid)
    ensures GrantAdmin(GrantAdmin(admins, uid), uid) == GrantAdmin(admins, uid)
    ensures uid in admins ==> GrantAdmin(admins, uid) == admins
  {
  }

  /**
   * With no admin email configured, a caller whose account has no email is
   * granted the admin claim: both sides of the comparison are undefined.
   */
  lemma UnsetAdminEmailMatchesEmaillessCaller()
    ensures AdminClaimGranted(None, None)
  {
  }

  /**
   * Posting a comment succeeds exactly for a signed-in caller with a
   * `{bookId: string, text: string}` payload who owns a profile.
   */
  lemma CommentAcceptsIff(profiles: map<string, Uid>, auth: Option<Uid>, data: Payload)
    ensures CommentDecision(profiles, auth, data).Pass? <==>
      && auth.Some?
      && Conforms(data, CommentSchema())
      && auth.value in profiles.Values
  {
  }

  /**
   * An unauthenticated or malformed comment request fails the same way on
   * every store: the two guards run before the store is read.
   */
  lemma CommentGuardsPrecedeStore(profiles1: map<string, Uid>, profiles2: map<string, Uid>, auth: Option<Uid>, data: Payload)
    requires auth.None? || !Conforms(data, CommentSchema())
    ensures CommentDecision(profiles1, auth, data) == CommentDecision(profiles2, auth, data)
    ensures CommentDecision(profiles1, auth, data).Fail?
    ensures CommentDecision(profiles1, auth, data).error.code == if auth.None? then Unauthenticated else InvalidArgument
  {
  }

  /**
   * Under "each uid owns at most one profile", the username a comment is
   * attributed to is determined by the caller: it is their one profile.
   */
  lemma CommentAuthorDetermined(profiles: map<string, Uid>, uid: Uid)
    requires OneProfilePerUid(profiles)
    requires uid in profiles.Values
    ensures exists user :: user in profiles && profiles[user] == uid
    ensures forall user1, user2 :: user1 in profiles && user2 in profiles && profiles[user1] == uid && profiles[user2] == uid ==> user1 == user2
  {
  }
}
