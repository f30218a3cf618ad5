/**
 * The callable functions' error channel: every failure reaches the client as an
 * `HttpsError` with a code and a human-readable message.
 */
module Errors {

  /** The error codes the handlers produce. */
  datatype ErrorCode =
    | Unauthenticated
    | InvalidArgument
    | AlreadyExists
      /** What the callable runtime reports for an exception that is not an `HttpsError`. */
    | Internal

  datatype HttpsError = HttpsError(code: ErrorCode, message: string)

  const NotSignedInMessage := "You must be signed in to use this feature."
  const KeyCountMessage := "Data object contains invalid number of keys."
  const PropertiesMessage := "Data object contains invalid properties."
  const HasProfileMessage := "This user already has a public profile."
  const UsernameTakenMessage := "This username already belongs to an existing user."
  const InternalMessage := "INTERNAL"
}
