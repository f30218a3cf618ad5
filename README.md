# Book-community callable functions: a verified model

This project models the request logic of the Firebase callable functions in
`functions/index.js` of a book-review community site:

- `checkAuthentication`, the guard that refuses a request without a caller
  identity (`unauthenticated`);
- `dataValidator`, the strict payload validator: the payload must have exactly
  as many fields as the schema, and every payload field must be declared by the
  schema with the `typeof` of its value (`invalid-argument` otherwise);
- `createPublicProfile`, which maps a chosen username to the caller's uid in
  the `publicProfiles` collection, refuses a caller who already owns a profile
  or a username that is taken (`already-exists`), and grants the `admin`
  custom claim when the caller's email equals the configured admin email;
- `postComment`, which appends a comment carrying the text, the caller's
  profile username, the creation time and a reference to the book.

The Firestore collections and the custom claims are the fields of the class
`Handlers.Backend`: `publicProfiles` (username to uid), `admins` (the uids
whose claims are `{admin: true}`) and `comments` (a sequence). The two
handlers are methods of that class; each is proved against a pure decision
function (`ProfileDecision`, `CommentDecision`) and states exactly how the
store changes. The validator is a loop over the payload's fields
(`DataValidator`) proved equal to the function `Validate`, whose acceptance is
characterised by the independent predicate `Conforms` (exact key set, matching
types). The store invariant is "each uid owns at most one profile"
(`OneProfilePerUid`), which profile creation preserves.

The caller's email (from the authentication service) and the configured admin
email are inputs of type `Option<string>`: either may be undefined. The source
compares them with `===`, so with no admin email configured, a caller whose
account has no email is granted the admin claim; the model keeps this and
states it in `UnsetAdminEmailMatchesEmaillessCaller`.

When the caller of `postComment` owns no profile, the source reads
`snapshot.docs[0].id` on an empty result and throws a `TypeError`; the callable
runtime reports any such exception as an `internal` error. The model makes that
an explicit `Fail(HttpsError(Internal, "INTERNAL"))` that leaves the store
unchanged. A typed `failed-precondition` error would be the cleaner contract;
the model keeps the code's `internal`.

A JavaScript object looked up by a key it does not own may find a property of
`Object.prototype` (`validKeys["toString"]`, `validKeys["__proto__"]`); such a
property is a function or an object, never one of the strings `typeof`
returns, so the validator rejects those keys just as it rejects undeclared
ones, and the model treats them as undeclared.

## Model

| member | source | states |
|---|---|---|
| `Auth.CheckAuthentication` | functions/index.js:60-64 | fails exactly when no caller identity is present, and then with `unauthenticated` and the sign-in message |
| `Validation.TypeOf` | functions/index.js:71 | the `typeof` tag of a payload value is "string", "number" or "boolean" exactly for strings, numbers and booleans (null, arrays and objects are "object") |
| `Validation.Validate` | functions/index.js:66-76 | accepts exactly the payloads that `Conforms` to the schema (same key set, every value of the declared type); every rejection is `invalid-argument`, with the key-count message when the counts differ and the properties message otherwise |
| `Validation.DataValidator` | functions/index.js:66-76 | the count check followed by a loop over the payload's fields with an early reject returns exactly `Validate`'s outcome |
| `Validation.ExtraFieldRejected` | functions/index.js:67-72 | a payload field the schema does not declare makes the payload invalid, whatever the other fields are |
| `Validation.MissingFieldRejected` | functions/index.js:67-72 | a declared field missing from the payload makes it invalid (equal counts then force an undeclared field) |
| `Validation.MistypedFieldRejected` | functions/index.js:67-72 | a field whose value has another type than declared makes the payload invalid, with the message chosen by the count check |
| `Handlers.AdminClaimGranted` | functions/index.js:24-25 | a caller whose email equals the configured admin email is granted the admin claim, and with an admin email configured only such a caller is; with none configured, a caller with an email is never granted it |
| `Handlers.GrantAdmin` | functions/index.js:26 | setting the admin claims on a uid makes it an admin and changes no other uid's claim |
| `Handlers.ProfileDecision` | functions/index.js:6-22 | `createPublicProfile` fails only with `unauthenticated`, `invalid-argument` or `already-exists`, and passes only for a signed-in caller with a conforming `{user: string}` payload |
| `Handlers.CommentDecision` | functions/index.js:37-53 | `postComment` fails only with `unauthenticated`, `invalid-argument` or `internal`, and passes only for a signed-in caller with a conforming `{bookId: string, text: string}` payload |
| `Handlers.Backend.CreatePublicProfile` | functions/index.js:6-33 | the outcome is `ProfileDecision` on the old store; on failure neither profiles nor claims change; on success the username maps to the caller's uid, the caller gains the admin claim iff the emails match, comments are untouched, and one profile per uid is preserved |
| `Handlers.Backend.PostComment` | functions/index.js:37-58 | the outcome is `CommentDecision`; on failure comments are unchanged; on success exactly one comment is appended whose text is the payload's, whose user is a username the caller owns, whose time is the given one and whose book is `books/<bookId>`, and on a store with one profile per uid that username is the caller's only profile; profiles and claims never change |
| `Handlers.NewOwnerKeepsOneProfilePerUid` | functions/index.js:10-30 | writing a free username for a uid that owns no profile keeps each uid owning at most one profile |
| `HandlerProperties.ProfileAcceptsIff` | functions/index.js:7-22 | profile creation passes iff the caller is signed in, the payload is exactly `{user: string}`, the caller owns no profile and the username is free |
| `HandlerProperties.ProfileGuardsPrecedeStore` | functions/index.js:7-8 | an unauthenticated or malformed request fails with `unauthenticated` resp. `invalid-argument`, identically on every store (the guards run before any read) |
| `HandlerProperties.ExistingOwnerRejected` | functions/index.js:10-17 | a caller who already owns a profile is refused with `already-exists` and the "already has a public profile" message |
| `HandlerProperties.TakenUsernameRejected` | functions/index.js:10-22 | a taken username is refused with `already-exists`, also when the caller is its owner, in which case the ownership check reports it |
| `HandlerProperties.SecondProfileRejected` | functions/index.js:10-32 | after a successful creation, any further well-formed request by the same caller on the new store is refused with `already-exists` |
| `HandlerProperties.ProfileCreationKeepsOneProfilePerUid` | functions/index.js:10-32 | a successful creation on a store with one profile per uid yields a store with one profile per uid that has exactly one more username |
| `HandlerProperties.GrantAdminIdempotent` | functions/index.js:26 | granting the admin claim twice is the same as once, and granting it to an admin changes nothing |
| `HandlerProperties.UnsetAdminEmailMatchesEmaillessCaller` | functions/index.js:24-25 | with no admin email configured, a caller without an email is granted the admin claim (`undefined === undefined`) |
| `HandlerProperties.CommentAcceptsIff` | functions/index.js:38-53 | posting passes iff the caller is signed in, the payload is exactly `{bookId: string, text: string}` and the caller owns a profile |
| `HandlerProperties.CommentGuardsPrecedeStore` | functions/index.js:38-42 | an unauthenticated or malformed comment request fails with `unauthenticated` resp. `invalid-argument`, identically on every store |
| `HandlerProperties.CommentAuthorDetermined` | functions/index.js:47-53 | under one profile per uid, the caller's profile username the comment is attributed to is unique |

## Left out

- Firebase SDK plumbing (`admin.initializeApp`, `where`/`limit`/`get`, `doc().set`, `collection().add`) and all async handling: the collections are fields of `Backend` and each handler is one sequential method.
- Concurrency: the uniqueness checks of `createPublicProfile` are a read followed by a write, not atomic across invocations; two concurrent requests can both pass them. The sequential model cannot show this race.
- `admin.auth().getUser` and `functions.config().accounts.admin`: the caller's email and the configured admin email are inputs; failures of those lookups (an unknown uid, a missing `accounts` section) are not modelled.
- `new Date()`: the comment's creation time is an input `Timestamp`.
- Firestore's order of query results: `limit(1)` returns the first profile in document-id order; `Handlers.Backend.PostComment` picks some username the caller owns, which `CommentAuthorDetermined` shows is the only one when each uid owns at most one profile.
- The handlers' success values (the write result of `set`, the new comment's document reference and its generated id) are not modelled; the methods return only pass or the error.
- Firestore's document paths: in the model every username and every `bookId` is one opaque document id. The SDK's `doc(...)` takes a slash-separated path instead: it throws on an empty path, on `//` or on a path that does not name a document; it drops leading and trailing slashes (`"/alice"` addresses `alice`); and a path like `"a/b/c"` addresses a document in a subcollection, which the `userId` query on `publicProfiles` never sees. So `OneProfilePerUid`, `SecondProfileRejected` and the `already-exists` lemmas describe the source only for usernames without `/`, and `PostComment` describes it only for a `bookId` without `/` (an empty or one-slash `bookId` makes the source fail with `internal` where the model appends a comment).
- Custom claims are modelled as the set of admin uids: `setCustomUserClaims` replaces the whole claims object with `{admin: true}`, and no other claim appears in this code.
- Payloads that are not plain JSON objects (a string, an array or `null` as the whole payload) are not modelled: the payload is a map from field names to values. Numbers are reals (no NaN or floating-point rounding), and `typeof` results that JSON cannot produce (`undefined`, `function`, `symbol`, `bigint`) are not among the tags.
- The "sanitize" comment in `postComment`: no sanitisation is implemented, so none is modelled.
- `createAuthor`, `createBook` (data-URI parsing, cover upload, signed URLs) and the elevated-privilege check they use: their code is not part of this model.
