/** routes/userVerify.js: the `/verifyUser` route that takes the user's role
    from the user's record in the document store rather than from a token
    claim. The record lookup is the parameter `lookup`: for a uid, the
    record's fields (`None` when no record exists) or the lookup's error. */
module DocRoleVerify {
  import opened Wrappers
  import opened JsValue
  import opened Http
  import opened Bearer
  import ClaimRoleVerify

  /** `userDoc.exists && userDoc.data().admin === true`: only the boolean
      `true` makes an admin. */
  function RoleFromDoc(doc: Option<map<string, Json>>): (role: Role)
    ensures role == Admin <==> doc.Some? && "admin" in doc.value && doc.value["admin"] == Bool(true)
  {
    match doc
    case None => User
    case Some(fields) => if "admin" in fields && fields["admin"] == Bool(true) then Admin else User
  }

  function VerifyUser(header: Option<string>, verifier: string -> Result<Decoded, string>,
                      lookup: string -> Result<Option<map<string, Json>>, string>): (r: Response)
    ensures !HasBearerPrefix(header) ==> r == NoToken
    ensures r.status == 200 <==>
              && HasBearerPrefix(header)
              && verifier(BearerToken(header.value)).Success?
              && lookup(verifier(BearerToken(header.value)).value.uid).Success?
    ensures r.status == 200 ==>
              var decoded := verifier(BearerToken(header.value)).value;
              && r.body == UserBody(true, decoded.uid, decoded.email, RoleName(RoleFromDoc(lookup(decoded.uid).value)))
              && r.cacheControl == Some("no-store")
    // a failure of either external call is the same 401
    ensures HasBearerPrefix(header) && r.status != 200 ==> r == InvalidToken
  {
    if !HasBearerPrefix(header) then NoToken
    else
      match verifier(BearerToken(header.value))
      case Failure(_) => InvalidToken
      case Success(decoded) =>
        match lookup(decoded.uid)
        case Failure(_) => InvalidToken
        case Success(doc) => UserReply(decoded, RoleFromDoc(doc))
  }

  /** The record's strict test is stronger than the claim's truthiness test:
      a value that makes an admin here makes one under the claim route too,
      and on boolean values the two routes agree. */
  lemma DocRoleImpliesClaimRole(fields: map<string, Json>)
    ensures RoleFromDoc(Some(fields)) == Admin ==>
              ClaimRoleVerify.RoleFromClaim(if "admin" in fields then Some(fields["admin"]) else None) == Admin
    ensures "admin" in fields && fields["admin"].Bool? ==>
              RoleFromDoc(Some(fields)) == ClaimRoleVerify.RoleFromClaim(Some(fields["admin"]))
  {
  }

  /** The routes differ on a truthy non-boolean flag: the string "yes" is an
      admin claim but not an admin record. */
  lemma RoutesDisagreeOnTruthyString()
    ensures ClaimRoleVerify.RoleFromClaim(Some(Str("yes"))) == Admin
    ensures RoleFromDoc(Some(map["admin" := Str("yes")])) == User
  {
  }
}
