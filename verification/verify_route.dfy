/**
 * `src/app/api/admin/verify/route.ts`: the endpoint the login page calls to
 * ask whether the signed-in account is an administrator. It demands the
 * literal, case-sensitive `Bearer ` prefix and takes the token as the rest of
 * the header (`substring(7)`).
 */
module VerifyRoute {
  import opened Common
  import opened AdminAuth
  import opened RequestAuth

  /**
   * GET: 401 without a header or without the prefix, 403 when
   * `verifyAdminToken` answers null, otherwise `{ user }`.
   */
  function Get(env: Option<string>, header: Option<string>, verify: string -> TokenCheck): (r: Response<AdminUser>)
    ensures !HasBearerPrefix(header) <==> r == Err(401, "Missing authorization header")
    ensures HasBearerPrefix(header) ==>
      var admin := VerifyAdminToken(env, header.value[|BearerPrefix|..], verify);
      (admin.None? <==> r == Err(403, "Not authorized")) && (admin.Some? ==> r == Ok(admin.value))
  {
    if !Truthy(header) || !IsPrefix(BearerPrefix, header.value) then Err(401, "Missing authorization header")
    else
      var admin := VerifyAdminToken(env, header.value[|BearerPrefix|..], verify);
      if admin.None? then Err(403, "Not authorized") else Ok(admin.value)
  }

  /**
   * For a header of the form `Bearer <t>` with a non-empty token free of a
   * second `Bearer `, this endpoint and the admin gate of the other handlers
   * reach the same decision.
   */
  lemma AgreesWithAdminGate(env: Option<string>, t: string, verify: string -> TokenCheck)
    requires t != "" && !Contains(t, BearerPrefix)
    ensures var h := Some(BearerPrefix + t);
      (Get(env, h, verify).Ok? <==> AdminGate(env, h, verify).Ok?)
      && (Get(env, h, verify).Ok? ==> Get(env, h, verify) == AdminGate(env, h, verify))
  {
    SplitTokenOfBearer(t);
    assert (BearerPrefix + t)[|BearerPrefix|..] == t;
  }
}
