/**
 * The two callable handlers whose behaviour is visible: creating a caller's
 * public profile and posting a comment. The document store and the
 * authentication service's custom claims are the fields of `Backend`.
 */
module Handlers {
  import opened Wrappers
  import opened Errors
  import opened Auth
  import opened Validation

  /** A server-observed creation time, supplied by the caller of the model. */
  type Timestamp = int

  /** A document reference: collection name and document id. */
  datatype DocRef = DocRef(collection: string, id: string)

  /** A record of the `comments` collection. */
  datatype Comment = Comment(text: string, user: string, dateCreated: Timestamp, book: DocRef)

  /** The payload shape `createPublicProfile` accepts. */
  function ProfileSchema(): Schema {
    map["user" := StringType]
  }

  /** The payload shape `postComment` accepts. */
  function CommentSchema(): Schema {
    map["bookId" := StringType, "text" := StringType]
  }

  /** The `publicProfiles` invariant: no uid owns two usernames. */
  predicate OneProfilePerUid(profiles: map<string, Uid>) {
    forall user1, user2 :: user1 in profiles && user2 in profiles && profiles[user1] == profiles[user2] ==> user1 == user2
  }

  /**
   * Whether profile creation grants the admin claim. The comparison is
   * JavaScript's `===` on the caller's email and the configured admin email,
   * either of which may be undefined.
   */
  function AdminClaimGranted(callerEmail: Option<string>, adminEmail: Option<string>): (granted: bool)
    ensures adminEmail.Some? && callerEmail == adminEmail ==> granted
    ensures granted && adminEmail.Some? ==> callerEmail == adminEmail
    ensures adminEmail.None? && callerEmail.Some? ==> !granted
  {
    callerEmail == adminEmail
  }

  /** Setting the `{admin: true}` custom claims on `uid`. */
  function GrantAdmin(admins: set<Uid>, uid: Uid): (after: set<Uid>)
    ensures uid in after
    ensures forall other :: other != uid ==> (other in after <==> other in admins)
  {
    admins + {uid}
  }

  /**
   * The decision `createPublicProfile` reaches on a store, before it writes:
   * authentication, then the payload shape, then "the caller already owns a
   * profile", then "the username is taken".
   */
  function ProfileDecision(profiles: map<string, Uid>, auth: Option<Uid>, data: Payload): (o: Outcome<HttpsError>)
    ensures o.Fail? ==> o.error.code in {Unauthenticated, InvalidArgument, AlreadyExists}
    ensures o.Pass? ==> auth.Some? && Conforms(data, ProfileSchema())
  {
    if auth.None? then CheckAuthentication(auth)
    else if Validate(data, ProfileSchema()).Fail? then Validate(data, ProfileSchema())
    else if auth.value in profiles.Values then Fail(HttpsError(AlreadyExists, HasProfileMessage))
    else if data["user"].s in profiles then Fail(HttpsError(AlreadyExists, UsernameTakenMessage))
    else Pass
  }

  /**
   * The decision `postComment` reaches on a store, before it writes:
   * authentication, then the payload shape, then the lookup of the caller's
   * profile, whose absence surfaces as an internal error.
   */
  function CommentDecision(profiles: map<string, Uid>, auth: Option<Uid>, data: Payload): (o: Outcome<HttpsError>)
    ensures o.Fail? ==> o.error.code in {Unauthenticated, InvalidArgument, Internal}
    ensures o.Pass? ==> auth.Some? && Conforms(data, CommentSchema())
  {
    if auth.None? then CheckAuthentication(auth)
    else if Validate(data, CommentSchema()).Fail? then Validate(data, CommentSchema())
    else if auth.value !in profiles.Values then Fail(HttpsError(Internal, InternalMessage))
    else Pass
  }

  /** The document store and the claims the handlers touch. */
  class Backend {
    /** `publicProfiles`: username (the document id) to the owner's uid. */
    var publicProfiles: map<string, Uid>
    /** The uids whose custom claims are `{admin: true}`. */
    var admins: set<Uid>
    /** `comments`, in the order they were added. */
    var comments: seq<Comment>

    ghost predicate Valid()
      reads this
    {
      OneProfilePerUid(publicProfiles)
    }

    /** An empty store. */
    constructor ()
      ensures Valid()
      ensures publicProfiles == map[] && admins == {} && comments == []
    {
      publicProfiles := map[];
      admins := {};
      comments := [];
    }

    /**
     * `createPublicProfile`: on success the caller's uid is written under the
     * requested username, and the admin claim is granted when the emails
     * match; on failure nothing changes.
     */
    method CreatePublicProfile(auth: Option<Uid>, data: Payload, callerEmail: Option<string>, adminEmail: Option<string>)
      returns (r: Outcome<HttpsError>)
      modifies this`publicProfiles, this`admins
      ensures r == ProfileDecision(old(publicProfiles), auth, data)
      ensures r.Fail? ==> publicProfiles == old(publicProfiles) && admins == old(admins)
      ensures r.Pass? ==>
        && publicProfiles == old(publicProfiles)[data["user"].s := auth.value]
        && admins == if AdminClaimGranted(callerEmail, adminEmail) then GrantAdmin(old(admins), auth.value) else old(admins)
      ensures old(Valid()) ==> Valid()
    {
      r := CheckAuthentication(auth);
      if r.Fail? {
        return;
      }
      var uid := auth.value;
      r := DataValidator(data, ProfileSchema());
      if r.Fail? {
        return;
      }
      if uid in publicProfiles.Values {
        return Fail(HttpsError(AlreadyExists, HasProfileMessage));
      }
      var user := data["user"].s;
      if user in publicProfiles {
        return Fail(HttpsError(AlreadyExists, UsernameTakenMessage));
      }
      if AdminClaimGranted(callerEmail, adminEmail) {
        admins := GrantAdmin(admins, uid);
      }
      if OneProfilePerUid(publicProfiles) {
        NewOwnerKeepsOneProfilePerUid(publicProfiles, user, uid);
      }
      publicProfiles := publicProfiles[user := uid];
    }

    /**
     * `postComment`: on success exactly one comment is appended, carrying the
     * payload's text, the username of a profile the caller owns, the given
     * time and a reference to the payload's book; on failure nothing changes.
     */
    method PostComment(auth: Option<Uid>, data: Payload, now: Timestamp) returns (r: Outcome<HttpsError>)
      modifies this`comments
      ensures r == CommentDecision(publicProfiles, auth, data)
      ensures r.Fail? ==> comments == old(comments)
      ensures r.Pass? ==>
        && |comments| == |old(comments)| + 1
        && comments[..|old(comments)|] == old(comments)
        && var c := comments[|old(comments)|];
           && c.text == data["text"].s
           && c.user in publicProfiles && publicProfiles[c.user] == auth.value
           && c.dateCreated == now
           && c.book == DocRef("books", data["bookId"].s)
      ensures old(Valid()) && r.Pass? ==>
        forall user :: user in publicProfiles && publicProfiles[user] == auth.value ==> user == comments[|old(comments)|].user
    {
      r := CheckAuthentication(auth);
      if r.Fail? {
        return;
      }
      var uid := auth.value;
      r := DataValidator(data, CommentSchema());
      if r.Fail? {
        return;
      }
      if uid !in publicProfiles.Values {
        return Fail(HttpsError(Internal, InternalMessage));
      }
      var user :| user in publicProfiles && publicProfiles[user] == uid;
      comments := comments + [Comment(data["text"].s, user, now, DocRef("books", data["bookId"].s))];
    }
  }

  /** Writing a fresh username for a uid that owns none keeps one profile per uid. */
  lemma NewOwnerKeepsOneProfilePerUid(profiles: map<string, Uid>, user: string, uid: Uid)
    requires OneProfilePerUid(profiles)
    requires uid !in profiles.Values && user !in profiles
    ensures OneProfilePerUid(profiles[user := uid])
  {
  }
}
