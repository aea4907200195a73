/** How the three bearer-token handlers relate to one another: the checkout
    gate of middleware/verifyFirebaseToken.js, the claim-based `/verifyUser`
    of userVerify.js and the record-based `/verifyUser` of
    routes/userVerify.js all read the same header the same way. */
module AuthAgreement {
  import opened Wrappers
  import opened JsValue
  import opened Bearer
  import FirebaseMiddleware
  import ClaimRoleVerify
  import DocRoleVerify

  /** The gate lets a request through exactly when the claim route would
      answer 200 for the same header and identity provider, and the route
      then reports the user the gate attached. */
  lemma GateAdmitsExactlyClaimRouteSuccess(header: Option<string>, verifier: string -> Result<Decoded, string>)
    ensures var o := FirebaseMiddleware.VerifyFirebaseToken(header, verifier);
            var r := ClaimRoleVerify.VerifyUser(header, verifier);
            && (o.Next? <==> r.status == 200)
            && (o.Next? ==> r.body.uid == o.user.uid && r.body.email == o.user.email)
  {
  }

  /** The record route adds a second external call to the claim route's
      steps: whenever it answers 200, the claim route does too, with the same
      uid and email; only the role may differ. */
  lemma RecordRouteSuccessImpliesClaimRouteSuccess(header: Option<string>,
                                                   verifier: string -> Result<Decoded, string>,
                                                   lookup: string -> Result<Option<map<string, Json>>, string>)
    requires DocRoleVerify.VerifyUser(header, verifier, lookup).status == 200
    ensures var claim := ClaimRoleVerify.VerifyUser(header, verifier);
            var record := DocRoleVerify.VerifyUser(header, verifier, lookup);
            && claim.status == 200
            && claim.body.uid == record.body.uid
            && claim.body.email == record.body.email
            && claim.cacheControl == record.cacheControl
  {
  }

  /** A header without the "Bearer " prefix gets the same 401 from both
      routes and never passes the gate; every refusal of any of the three is
      a 401. */
  lemma RefusalsAre401(header: Option<string>, verifier: string -> Result<Decoded, string>,
                       lookup: string -> Result<Option<map<string, Json>>, string>)
    ensures !HasBearerPrefix(header) ==>
              && FirebaseMiddleware.VerifyFirebaseToken(header, verifier).Reject?
              && ClaimRoleVerify.VerifyUser(header, verifier) == DocRoleVerify.VerifyUser(header, verifier, lookup)
    ensures ClaimRoleVerify.VerifyUser(header, verifier).status in {200, 401}
    ensures DocRoleVerify.VerifyUser(header, verifier, lookup).status in {200, 401}
  {
  }
}
