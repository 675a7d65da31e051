/**
 * How the API handlers read the `Authorization` header and decide 401/403
 * before doing any work. Two variants exist in the handlers:
 *
 *  - the admin gate: `header?.split('Bearer ')[1]`, then `verifyAdminToken`
 *    (rooms, reports, message-reports, premium, analytics, notifications,
 *    dashboard recent lists);
 *  - the inline gate: a literal `startsWith('Bearer ')` test, then the
 *    identity provider directly and an exact, untrimmed comparison against
 *    the raw comma-split allow-list (users, stats, dashboard activity).
 */
module RequestAuth {
  import opened Common
  import opened AdminAuth

  const BearerPrefix: string := "Bearer "

  /** `header?.split('Bearer ')[1]`: undefined when there is no header or no occurrence. */
  function SplitToken(header: Option<string>): Option<string> {
    if header.None? then None
    else
      var pieces := Split(header.value, BearerPrefix);
      if |pieces| >= 2 then Some(pieces[1]) else None
  }

  /** A header that starts with the prefix splits into an empty piece and the rest. */
  lemma PrefixedSplit(h: string)
    requires IsPrefix(BearerPrefix, h)
    ensures Split(h, BearerPrefix) == [""] + Split(h[|BearerPrefix|..], BearerPrefix)
  {
  }

  /** For a well-formed header the token is everything after the prefix. */
  lemma SplitTokenOfBearer(t: string)
    requires !Contains(t, BearerPrefix)
    ensures SplitToken(Some(BearerPrefix + t)) == Some(t)
  {
    var h := BearerPrefix + t;
    assert IsPrefix(BearerPrefix, h);
    assert h[|BearerPrefix|..] == t;
    PrefixedSplit(h);
    SplitWithout(t, BearerPrefix);
  }

  /** A header without the word `Bearer ` anywhere yields no token. */
  lemma SplitTokenAbsent(h: string)
    requires !Contains(h, BearerPrefix)
    ensures SplitToken(Some(h)) == None
  {
    SplitWithout(h, BearerPrefix);
  }

  /** The split does not require the prefix at the start: text before it is skipped. */
  lemma SplitTokenSkipsLeadingText(a: string, t: string)
    requires Lacks(a, 'B') && !Contains(t, BearerPrefix)
    ensures SplitToken(Some(a + BearerPrefix + t)) == Some(t)
  {
    SplitAfterFree(a, BearerPrefix, t);
    SplitWithout(t, BearerPrefix);
  }

  /**
   * The admin gate: 401 when the split yields no token or an empty one,
   * 403 when `verifyAdminToken` answers null, otherwise the admin user.
   */
  function AdminGate(env: Option<string>, header: Option<string>, verify: string -> TokenCheck): (r: Response<AdminUser>)
    ensures r.Err? ==> r.status == 401 || r.status == 403
    ensures (r.Err? && r.status == 401) <==> !Truthy(SplitToken(header))
    ensures r.Ok? <==> Truthy(SplitToken(header)) && VerifyAdminToken(env, SplitToken(header).value, verify).Some?
    ensures r.Ok? ==> r.body == VerifyAdminToken(env, SplitToken(header).value, verify).value
  {
    var token := SplitToken(header);
    if !Truthy(token) then Err(401, "Unauthorized")
    else
      var admin := VerifyAdminToken(env, token.value, verify);
      if admin.None? then Err(403, "Forbidden") else Ok(admin.value)
  }

  /** `!authHeader || !authHeader.startsWith('Bearer ')` fails. */
  predicate HasBearerPrefix(header: Option<string>) {
    header.Some? && IsPrefix(BearerPrefix, header.value)
  }

  /** `process.env.ADMIN_EMAILS?.split(',') || []`, with no trimming or lower-casing. */
  function RawAllowList(env: Option<string>): seq<string> {
    if env.None? then [] else Split(env.value, ",")
  }

  /** The token of a prefixed header, `authHeader.split('Bearer ')[1]`. */
  function PrefixedToken(header: Option<string>): (t: string)
    requires HasBearerPrefix(header)
    ensures SplitToken(header) == Some(t)
  {
    PrefixedSplit(header.value);
    Split(header.value, BearerPrefix)[1]
  }

  /**
   * The inline gate as written: a token whose claims carry no email is
   * compared as `''`, so it passes whenever the raw list has an empty entry.
   */
  function InlineAdminCheck(env: Option<string>, header: Option<string>, verify: string -> TokenCheck): (r: Response<string>)
    ensures !HasBearerPrefix(header) ==> r == Err(401, "Unauthorized")
    ensures HasBearerPrefix(header) && verify(PrefixedToken(header)).Threw? ==> r == Err(401, "Invalid token")
    ensures r.Ok? <==> (HasBearerPrefix(header) && verify(PrefixedToken(header)).Decoded?
      && Or(verify(PrefixedToken(header)).email, "") in RawAllowList(env))
    ensures r.Ok? ==> r.body == Or(verify(PrefixedToken(header)).email, "")
    ensures r.Err? ==> r.status in {401, 403}
    ensures (HasBearerPrefix(header) && verify(PrefixedToken(header)).Decoded?
      && Or(verify(PrefixedToken(header)).email, "") !in RawAllowList(env)) ==> r == Err(403, "Forbidden")
  {
    if !HasBearerPrefix(header) then Err(401, "Unauthorized")
    else
      var check := verify(PrefixedToken(header));
      if check.Threw? then Err(401, "Invalid token")
      else if Or(check.email, "") !in RawAllowList(env) then Err(403, "Forbidden")
      else Ok(Or(check.email, ""))
  }

  /**
   * The inline gate as evidently intended: a token must carry a non-empty
   * email claim that is on the list, as `verifyAdminToken` also demands.
   */
  function InlineAdminCheckFixed(env: Option<string>, header: Option<string>, verify: string -> TokenCheck): (r: Response<string>)
    ensures !HasBearerPrefix(header) ==> r == Err(401, "Unauthorized")
    ensures HasBearerPrefix(header) && verify(PrefixedToken(header)).Threw? ==> r == Err(401, "Invalid token")
    ensures r.Ok? <==> (HasBearerPrefix(header) && verify(PrefixedToken(header)).Decoded?
      && Truthy(verify(PrefixedToken(header)).email)
      && verify(PrefixedToken(header)).email.value in RawAllowList(env))
    ensures r.Ok? ==> r.body == verify(PrefixedToken(header)).email.value
    ensures r.Err? ==> r.status == 401 || r.status == 403
  {
    if !HasBearerPrefix(header) then Err(401, "Unauthorized")
    else
      var check := verify(PrefixedToken(header));
      if check.Threw? then Err(401, "Invalid token")
      else if !Truthy(check.email) || check.email.value !in RawAllowList(env) then Err(403, "Forbidden")
      else Ok(check.email.value)
  }

  /**
   * With a trailing comma in the variable, the inline gate as written admits
   * a token that has no email claim at all.
   */
  lemma InlineAdmitsTokenWithoutEmail()
    ensures var verify := (t: string) => Decoded("uid-1", None, None);
      InlineAdminCheck(Some("admin@x.com,"), Some("Bearer tok"), verify) == Ok("")
      && InlineAdminCheckFixed(Some("admin@x.com,"), Some("Bearer tok"), verify) == Err(403, "Forbidden")
  {
    assert Lacks("admin@x.com", ',');
    SplitAfterFree("admin@x.com", ",", "");
    assert "admin@x.com" + "," + "" == "admin@x.com,";
    assert Split("", ",") == [""];
    assert RawAllowList(Some("admin@x.com,")) == ["admin@x.com", ""];
  }

  /** Both gates agree whenever the token carries a non-empty email claim. */
  lemma InlineFixedAgreesWithEmail(env: Option<string>, header: Option<string>, verify: string -> TokenCheck)
    requires HasBearerPrefix(header) && verify(PrefixedToken(header)).Decoded?
    requires Truthy(verify(PrefixedToken(header)).email)
    ensures InlineAdminCheckFixed(env, header, verify) == InlineAdminCheck(env, header, verify)
  {
  }
}
