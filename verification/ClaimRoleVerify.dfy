/** userVerify.js: the `/verifyUser` route that takes the user's role from
    the `admin` custom claim of the verified token. */
module ClaimRoleVerify {
  import opened Wrappers
  import opened JsValue
  import opened Http
  import opened Bearer

  /** `decoded.admin ? "admin" : "user"`: any truthy claim makes an admin. */
  function RoleFromClaim(claim: Option<Json>): (role: Role)
    ensures role == Admin <==> claim.Some? && Truthy(claim.value)
  {
    match claim
    case Some(v) => if Truthy(v) then Admin else User
    case None => User
  }

  /** The route handler; `verifier` is the identity provider's check. */
  function VerifyUser(header: Option<string>, verifier: string -> Result<Decoded, string>): (r: Response)
    ensures !HasBearerPrefix(header) ==> r == NoToken
    ensures r.status == 200 <==> HasBearerPrefix(header) && verifier(BearerToken(header.value)).Success?
    ensures r.status == 200 ==>
              var decoded := verifier(BearerToken(header.value)).value;
              && r.body == UserBody(true, decoded.uid, decoded.email, RoleName(RoleFromClaim(decoded.admin)))
              && r.cacheControl == Some("no-store")
    ensures HasBearerPrefix(header) && verifier(BearerToken(header.value)).Failure? ==> r == InvalidToken
  {
    if !HasBearerPrefix(header) then NoToken
    else
      match verifier(BearerToken(header.value))
      case Failure(_) => InvalidToken
      case Success(decoded) => UserReply(decoded, RoleFromClaim(decoded.admin))
  }
}
