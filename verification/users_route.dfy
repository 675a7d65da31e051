/**
 * `/api/admin/users`: the paged, filtered user list (GET) and the
 * per-user moderation actions (PATCH). Both are behind the inline gate.
 *
 * The query runner is a parameter: given the query a filter selects, it
 * yields the matching `users` documents newest first.
 */
module UsersRoute {
  import opened Common
  import opened TtlCache
  import opened AdminAuth
  import opened RequestAuth
  import opened Records
  import opened Listing

  /** The Firestore query a `filter` value selects. */
  datatype UserQuery = AllUsers | PremiumOnly | BannedOnly | CreatedAfter(cutoff: int)

  /** `premium`, `banned` and `recent` select a query; any other value selects every user. */
  function FilterQuery(filter: string, now: int): (q: UserQuery)
    ensures q == PremiumOnly <==> filter == "premium"
    ensures q == BannedOnly <==> filter == "banned"
    ensures q.CreatedAfter? <==> filter == "recent"
    ensures q.CreatedAfter? ==> q.cutoff == now - 7 * DayMs
    ensures q == AllUsers <==> filter !in {"premium", "banned", "recent"}
  {
    if filter == "premium" then PremiumOnly
    else if filter == "banned" then BannedOnly
    else if filter == "recent" then CreatedAfter(now - 7 * 24 * 60 * 60 * 1000)
    else AllUsers
  }

  /** `users_{filter}_{search}_{page}_{limit}` */
  function CacheKey(filter: string, search: string, page: int, limit: int): string {
    "users_" + filter + "_" + search + "_" + IntToString(page) + "_" + IntToString(limit)
  }

  /**
   * The key does not separate its parts unambiguously: two requests that
   * select different queries can share one entry.
   */
  lemma CacheKeyCollision(now: int)
    ensures CacheKey("premium", "_", 1, 20) == CacheKey("premium_", "", 1, 20)
    ensures FilterQuery("premium", now) != FilterQuery("premium_", now)
  {
  }

  /** One list row: a document with its missing fields defaulted. */
  function ToDto(d: UserDoc): (r: UserDto)
    ensures r.id == d.id && r.email == d.email && r.photoURL == d.photoURL
    ensures r.displayName != ""
    ensures Truthy(d.displayName) ==> r.displayName == d.displayName.value
    ensures r.isPremium <==> d.isPremium == Some(true)
    ensures r.isBanned <==> d.isBanned == Some(true)
    ensures d.totalMinutes.None? ==> r.totalMinutes == 0
    ensures d.totalMinutes.Some? ==> r.totalMinutes == d.totalMinutes.value
    ensures r.createdAt == d.createdAt && r.lastActiveAt == d.lastActiveAt
  {
    UserDto(d.id, d.email, Or(d.displayName, "Unnamed"), d.photoURL,
      OrFalse(d.isPremium), OrFalse(d.isBanned), OrNum(d.totalMinutes, 0),
      OrDate(d.createdAt, None), OrDate(d.lastActiveAt, None))
  }

  /** `{ users, totalUsers, currentPage, totalPages }` for one page of the query's results. */
  function Body(results: seq<UserDoc>, page: int, limit: int): (r: Page<UserDto>)
    requires page >= 1 && limit >= 1
    ensures r.total == |results| && r.currentPage == page && r.totalPages == TotalPages(|results|, limit)
    ensures |r.items| == |PageOf(results, page, limit)| <= limit
    ensures forall i :: 0 <= i < |r.items| ==> r.items[i] == ToDto(results[Offset(page, limit) + i])
    ensures r.items != [] ==> page <= r.totalPages
  {
    ListPage(results, page, limit, ToDto)
  }

  /**
   * GET: 401/403 from the inline gate, otherwise the page for the filter,
   * from the cache when a live entry exists (2-minute TTL).
   */
  method Get(cache: SmartCache<Payload>, env: Option<string>, header: Option<string>, verify: string -> TokenCheck,
             filter: Option<string>, search: Option<string>, page: int, limit: int, now: int,
             run: UserQuery -> seq<UserDoc>)
    returns (r: Response<Served>)
    requires page >= 1 && limit >= 1
    modifies cache
    ensures var gate := InlineAdminCheck(env, header, verify);
      gate.Err? ==> r == Err(gate.status, gate.error) && cache.entries == old(cache.entries)
    ensures var gate := InlineAdminCheck(env, header, verify);
      var key := CacheKey(Or(filter, "all"), Or(search, ""), page, limit);
      var body := UsersList(Body(run(FilterQuery(Or(filter, "all"), now)), page, limit));
      gate.Ok? ==> (r == Ok(Serve(old(cache.entries), key, now, 2, body).0)
        && cache.entries == Serve(old(cache.entries), key, now, 2, body).1)
  {
    var gate := InlineAdminCheck(env, header, verify);
    if gate.Err? {
      return Err(gate.status, gate.error);
    }
    var f := Or(filter, "all");
    var query := FilterQuery(f, now);
    var key := CacheKey(f, Or(search, ""), page, limit);
    var served := CachedFetch(cache, key, now, 2, UsersList(Body(run(query), page, limit)));
    r := Ok(served);
  }

  // -----------------------------------------------------------------------
  // PATCH
  // -----------------------------------------------------------------------

  /** The `data` object that `setPremium` reads. */
  datatype PremiumData = PremiumData(isPremium: Option<bool>, premiumUntil: Option<int>)

  /** The writes PATCH issues, in order. */
  datatype UserOp =
    | SetBanned(userId: string, isBanned: bool, bannedAt: Option<int>)
    | SetAuthDisabled(userId: string, disabled: bool)
    | SetPremium(userId: string, isPremium: Option<bool>, premiumUntil: Option<int>)
    | DeleteUserDoc(userId: string)
    | DeleteAuthUser(userId: string)

  const UserActions: set<string> := {"ban", "unban", "setPremium", "delete"}

  /**
   * PATCH `{ userId, action, data }`: the writes issued on success; every
   * error answer issues none. A `setPremium` without `data` fails reading
   * `data.isPremium`, which the handler answers with 500.
   */
  function Patch(env: Option<string>, header: Option<string>, verify: string -> TokenCheck,
                 userId: Option<string>, action: Option<string>, data: Option<PremiumData>, now: int)
    : (r: Response<seq<UserOp>>)
    ensures InlineAdminCheck(env, header, verify).Err? ==> r.Err? && r.status in {401, 403}
    ensures InlineAdminCheck(env, header, verify).Ok? ==>
      ((r.Err? && r.status == 400) <==> !Truthy(userId) || !Truthy(action) || action.value !in UserActions)
    ensures r.Err? && r.status == 500 <==>
      InlineAdminCheck(env, header, verify).Ok? && Truthy(userId) && action == Some("setPremium") && data.None?
    ensures r.Ok? && action == Some("ban") ==> r.body == [SetBanned(userId.value, true, Some(now)), SetAuthDisabled(userId.value, true)]
    ensures r.Ok? && action == Some("unban") ==> r.body == [SetBanned(userId.value, false, None), SetAuthDisabled(userId.value, false)]
    ensures r.Ok? && action == Some("setPremium") ==> r.body == [SetPremium(userId.value, data.value.isPremium, data.value.premiumUntil)]
    ensures r.Ok? && action == Some("delete") ==> r.body == [DeleteUserDoc(userId.value), DeleteAuthUser(userId.value)]
  {
    var gate := InlineAdminCheck(env, header, verify);
    if gate.Err? then Err(gate.status, gate.error)
    else if !Truthy(userId) || !Truthy(action) then Err(400, "Missing userId or action")
    else
      var id := userId.value;
      match action.value
      case "ban" => Ok([SetBanned(id, true, Some(now)), SetAuthDisabled(id, true)])
      case "unban" => Ok([SetBanned(id, false, None), SetAuthDisabled(id, false)])
      case "setPremium" =>
        if data.None? then Err(500, "Internal server error")
        else Ok([SetPremium(id, data.value.isPremium, OrDate(data.value.premiumUntil, None))])
      case "delete" => Ok([DeleteUserDoc(id), DeleteAuthUser(id)])
      case _ => Err(400, "Invalid action")
  }

  /** The `isBanned` flag a user ends with after a sequence of PATCH writes. */
  function BannedAfter(banned: bool, ops: seq<UserOp>, id: string): bool
    decreases |ops|
  {
    if ops == [] then banned
    else
      var b := if ops[0].SetBanned? && ops[0].userId == id then ops[0].isBanned else banned;
      BannedAfter(b, ops[1..], id)
  }

  /** `ban` and `unban` set the flag whatever it was, and leave every other user's alone. */
  lemma BanUnbanEffect(env: Option<string>, header: Option<string>, verify: string -> TokenCheck, id: string, other: string, banned: bool, now: int)
    requires InlineAdminCheck(env, header, verify).Ok? && id != "" && other != id
    ensures var ops := Patch(env, header, verify, Some(id), Some("ban"), None, now).body;
      BannedAfter(banned, ops, id) && BannedAfter(banned, ops, other) == banned
    ensures var ops := Patch(env, header, verify, Some(id), Some("unban"), None, now).body;
      !BannedAfter(banned, ops, id) && BannedAfter(banned, ops, other) == banned
  {
    var ban := Patch(env, header, verify, Some(id), Some("ban"), None, now).body;
    assert ban == [SetBanned(id, true, Some(now)), SetAuthDisabled(id, true)];
    assert ban[1..][1..] == [];
    assert BannedAfter(banned, ban, other) == BannedAfter(banned, ban[1..], other) == BannedAfter(banned, ban[1..][1..], other);
    var unban := Patch(env, header, verify, Some(id), Some("unban"), None, now).body;
    assert unban == [SetBanned(id, false, None), SetAuthDisabled(id, false)];
    assert unban[1..][1..] == [];
    assert BannedAfter(banned, unban, id) == BannedAfter(false, unban[1..], id) == BannedAfter(false, unban[1..][1..], id);
    assert BannedAfter(banned, unban, other) == BannedAfter(banned, unban[1..], other) == BannedAfter(banned, unban[1..][1..], other);
  }
}
