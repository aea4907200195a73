/** middleware/verifyFirebaseToken.js: the authentication gate in front of
    the checkout and verification routes. It either hands the decoded token
    on to the next handler (as `req.user`) or ends the request with a 401.
    The identity provider's check is the parameter `verifier`: the decoded
    token, or the message it rejected the token with. */
module FirebaseMiddleware {
  import opened Wrappers
  import opened Http
  import opened Bearer

  /** `Next(user)`: `req.user := user` and `next()` called once.
      `Reject(response)`: the reply sent, `next` never called. */
  datatype Outcome = Next(user: Decoded) | Reject(response: Response)

  const Unauthorized := ErrorReply(401, "Unauthorized")

  function VerifyFirebaseToken(header: Option<string>, verifier: string -> Result<Decoded, string>): (o: Outcome)
    ensures !HasBearerPrefix(header) ==> o == Reject(NoToken)
    ensures o.Next? <==> HasBearerPrefix(header) && verifier(BearerToken(header.value)).Success?
    ensures o.Next? ==> o.user == verifier(BearerToken(header.value)).value
    ensures o.Reject? ==> o.response.status == 401
    ensures HasBearerPrefix(header) && verifier(BearerToken(header.value)).Failure? ==> o == Reject(Unauthorized)
  {
    if !HasBearerPrefix(header) then Reject(NoToken)
    else
      match verifier(BearerToken(header.value))
      case Failure(_) => Reject(Unauthorized)
      case Success(decoded) => Next(decoded)
  }
}
