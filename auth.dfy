/** The authentication guard every handler runs first. */
module Auth {
  import opened Wrappers
  import opened Errors

  /** The caller's identifier, issued by the authentication service. */
  type Uid = string

  /**
   * Fails with `unauthenticated` exactly when the request carries no caller
   * identity; otherwise it passes and has no other effect.
   */
  function CheckAuthentication(auth: Option<Uid>): (o: Outcome<HttpsError>)
    ensures o.Fail? <==> auth.None?
    ensures o.Fail? ==> o.error == HttpsError(Unauthenticated, NotSignedInMessage)
  {
    if auth.None? then Fail(HttpsError(Unauthenticated, NotSignedInMessage)) else Pass
  }
}
