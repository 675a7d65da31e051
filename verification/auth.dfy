/**
 * `src/lib/auth.ts`: the admin allow-list read from the `ADMIN_EMAILS`
 * environment variable, `verifyAdminToken` and `checkIsAdmin`.
 *
 * The environment variable is a parameter (`env`, None when unset) and the
 * identity provider's `verifyIdToken` is a function from a token to what it
 * answers: an exception, or the decoded claims.
 */
module AdminAuth {
  import opened Common

  /** What `adminAuth.verifyIdToken(token)` yields. */
  datatype TokenCheck = Threw | Decoded(uid: string, email: Option<string>, name: Option<string>)

  datatype AdminUser = AdminUser(uid: string, email: string, displayName: Option<string>, isAdmin: bool)

  /** One allow-list entry as stored: trimmed and lower-cased. */
  function Normalize(entry: string): string {
    ToLower(Trim(entry))
  }

  /** `ADMIN_EMAILS?.split(',').map(e => e.trim().toLowerCase()) || []` */
  function AllowList(env: Option<string>): (r: seq<string>)
    ensures env.None? <==> r == []
    ensures env.Some? ==> |r| == |Split(env.value, ",")|
    ensures env.Some? ==> forall i :: 0 <= i < |r| ==> r[i] == Normalize(Split(env.value, ",")[i])
  {
    if env.None? then []
    else
      var pieces := Split(env.value, ",");
      seq(|pieces|, i requires 0 <= i < |pieces| => Normalize(pieces[i]))
  }

  /** The email claim as `verifyAdminToken` compares it: lower-cased, if present. */
  function ClaimedEmail(email: Option<string>): Option<string> {
    if email.Some? then Some(ToLower(email.value)) else None
  }

  /**
   * `verifyAdminToken(token)`: null for an empty allow-list (before the token
   * is looked at), for a token the provider rejects, for a token without an
   * email claim, and for an email not on the list; otherwise the admin user.
   */
  function VerifyAdminToken(env: Option<string>, token: string, verify: string -> TokenCheck): (r: Option<AdminUser>)
    ensures r.Some? <==>
      env.Some? && verify(token).Decoded? && Truthy(verify(token).email)
      && ToLower(verify(token).email.value) in AllowList(env)
    ensures r.Some? ==>
      r.value == AdminUser(verify(token).uid, ToLower(verify(token).email.value), verify(token).name, true)
  {
    var list := AllowList(env);
    var check := verify(token);
    if list == [] then None
    else if check.Threw? then None
    else if !Truthy(ClaimedEmail(check.email)) then None
    else if ClaimedEmail(check.email).value !in list then None
    else Some(AdminUser(check.uid, ClaimedEmail(check.email).value, check.name, true))
  }

  /** `checkIsAdmin(email)`: exact membership, without trimming or lower-casing. */
  function CheckIsAdmin(env: Option<string>, email: string): bool {
    email in AllowList(env)
  }

  /** `s` holds a capital letter that `toLowerCase` folds. */
  predicate HasUpper(s: string) {
    exists i :: 0 <= i < |s| && IsUpper(s[i])
  }

  lemma ToLowerHasNoUpper(s: string)
    ensures !HasUpper(ToLower(s))
  {
  }

  /** Every stored entry is lower-case, so `checkIsAdmin` rejects any mixed-case address. */
  lemma CheckIsAdminRejectsUpper(env: Option<string>, email: string)
    requires HasUpper(email)
    ensures !CheckIsAdmin(env, email)
  {
  }

  /** The comparison is case-insensitive: claims that differ only in case are treated alike. */
  lemma VerifyIgnoresCase(env: Option<string>, token: string, verify1: string -> TokenCheck, verify2: string -> TokenCheck)
    requires verify1(token).Decoded? && verify2(token).Decoded?
    requires verify1(token).uid == verify2(token).uid && verify1(token).name == verify2(token).name
    requires verify1(token).email.Some? && verify2(token).email.Some?
    requires ToLower(verify1(token).email.value) == ToLower(verify2(token).email.value)
    ensures VerifyAdminToken(env, token, verify1) == VerifyAdminToken(env, token, verify2)
  {
  }

  /** A listed address is admitted whatever the case and padding of its allow-list entry. */
  lemma ListedEntryAdmits(env: string, i: nat, token: string, verify: string -> TokenCheck)
    requires i < |Split(env, ",")|
    requires verify(token).Decoded? && verify(token).email.Some?
    requires ToLower(verify(token).email.value) == Normalize(Split(env, ",")[i]) != ""
    ensures VerifyAdminToken(Some(env), token, verify).Some?
  {
    assert AllowList(Some(env))[i] == ToLower(verify(token).email.value);
  }

  /** An unset variable denies everybody, whatever the identity provider would say. */
  lemma UnsetDeniesAll(token: string, verify: string -> TokenCheck)
    ensures VerifyAdminToken(None, token, verify) == None
  {
  }
}
