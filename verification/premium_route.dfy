/**
 * `/api/admin/premium`: the paged list of premium users with a revenue
 * estimate (GET), granting or extending premium (POST) and cancelling it
 * (PATCH). All three sit behind the admin gate.
 */
module PremiumRoute {
  import opened Common
  import opened TtlCache
  import opened AdminAuth
  import opened RequestAuth
  import opened Records
  import opened Listing
  import opened Sorting

  /** Price of a monthly plan, per month. */
  const MonthlyPrice: int := 29
  /** Price of a yearly plan, per year. */
  const YearlyPrice: int := 200

  /** `premium_{page}_{limit}` */
  function CacheKey(page: int, limit: int): string {
    "premium_" + IntToString(page) + "_" + IntToString(limit)
  }

  /** One list row: a premium user's document with its missing fields defaulted. */
  function ToDto(d: UserDoc): (r: PremiumDto)
    ensures r.id == d.id && r.displayName != "" && r.premiumType != ""
    ensures r.email == Or(d.email, "")
    ensures !Truthy(d.displayName) ==> r.displayName == "Unnamed"
    ensures r.photoURL.Some? <==> Truthy(d.photoURL)
    ensures r.isPremium <==> d.isPremium == Some(true)
    ensures r.premiumStartedAt == (if d.premiumStartedAt.Some? then d.premiumStartedAt else d.createdAt)
    ensures r.premiumUntil == d.premiumUntil
    ensures Truthy(d.premiumType) ==> r.premiumType == d.premiumType.value
    ensures !Truthy(d.premiumType) ==> r.premiumType == "monthly"
    ensures r.totalMinutes == OrNum(d.totalMinutes, OrNum(d.totalWorkMinutes, 0))
  {
    PremiumDto(d.id, Or(d.email, ""), Or(d.displayName, "Unnamed"),
      if Truthy(d.photoURL) then d.photoURL else None,
      OrFalse(d.isPremium), OrDate(d.premiumStartedAt, OrDate(d.createdAt, None)),
      OrDate(d.premiumUntil, None), Or(d.premiumType, "monthly"),
      OrNum(d.totalMinutes, OrNum(d.totalWorkMinutes, 0)))
  }

  // -----------------------------------------------------------------------
  // The in-page sort: newest premium start first
  // -----------------------------------------------------------------------

  /** The sort key `premiumStartedAt?.getTime() || 0`. */
  function StartKey(p: PremiumDto): int {
    if p.premiumStartedAt.Some? then p.premiumStartedAt.value else 0
  }

  /**
   * `.sort((a, b) => key(b) - key(a))` over the page: newest start first,
   * with the same elements. The sort covers the fetched page only.
   */
  function SortByStart(s: seq<PremiumDto>): (r: seq<PremiumDto>)
    ensures SortedDesc(r, StartKey)
    ensures multiset(r) == multiset(s)
  {
    SortDesc(s, StartKey)
  }

  // -----------------------------------------------------------------------
  // The revenue estimate
  // -----------------------------------------------------------------------

  /** `items.filter(u => u.premiumType === t).length` */
  function CountType(items: seq<PremiumDto>, t: string): (n: nat)
    ensures n <= |items|
  {
    if items == [] then 0
    else (if items[0].premiumType == t then 1 else 0) + CountType(items[1..], t)
  }

  lemma {:induction false} CountInsert(x: PremiumDto, s: seq<PremiumDto>, t: string)
    ensures CountType(InsertDesc(x, s, StartKey), t) == CountType([x] + s, t)
  {
    if s == [] || StartKey(x) >= StartKey(s[0]) {
    } else {
      CountInsert(x, s[1..], t);
      assert ([s[0]] + InsertDesc(x, s[1..], StartKey))[1..] == InsertDesc(x, s[1..], StartKey);
      assert ([x] + s[1..])[1..] == s[1..];
      assert ([x] + s)[1..] == s;
      assert s[1..] == s[1..];
    }
  }

  /** Sorting does not change how many users of each plan type a page holds. */
  lemma {:induction false} SortKeepsCounts(s: seq<PremiumDto>, t: string)
    ensures CountType(SortByStart(s), t) == CountType(s, t)
  {
    if s != [] {
      SortKeepsCounts(s[1..], t);
      CountInsert(s[0], SortByStart(s[1..]), t);
      assert ([s[0]] + SortByStart(s[1..]))[1..] == SortByStart(s[1..]);
      assert SortByStart(s) == InsertDesc(s[0], SortByStart(s[1..]), StartKey);
    }
  }

  /**
   * `analytics`: subscribers of each plan on the page, the monthly estimate
   * `round(29 * monthly + 200 * yearly / 12)` and the yearly estimate, which
   * is twelve times the unrounded monthly figure. Plan types other than
   * `monthly` and `yearly` count in neither.
   */
  function Revenue(items: seq<PremiumDto>, newLast30Days: int): (r: RevenueAnalytics)
    ensures r.monthlySubscribers == CountType(items, "monthly")
    ensures r.yearlySubscribers == CountType(items, "yearly")
    ensures r.newPremiumLast30Days == newLast30Days
    ensures r.totalYearlyRevenue == 12 * MonthlyPrice * r.monthlySubscribers + YearlyPrice * r.yearlySubscribers
    ensures 12 * r.totalMonthlyRevenue - 6 <= r.totalYearlyRevenue < 12 * r.totalMonthlyRevenue + 6
  {
    var m := CountType(items, "monthly");
    var y := CountType(items, "yearly");
    var twelveMonths := 12 * MonthlyPrice * m + YearlyPrice * y;
    RevenueAnalytics(RoundDiv(twelveMonths, 12), twelveMonths, newLast30Days, m, y)
  }

  /** Sorting the rows leaves the revenue estimate as it was. */
  lemma SortKeepsRevenue(rows: seq<PremiumDto>, newLast30Days: int)
    ensures Revenue(SortByStart(rows), newLast30Days) == Revenue(rows, newLast30Days)
  {
    SortKeepsCounts(rows, "monthly");
    SortKeepsCounts(rows, "yearly");
  }

  /** The fetched page's rows, in the order the query yielded them. */
  function PageRows(results: seq<UserDoc>, page: int, limit: int): (r: seq<PremiumDto>)
    requires page >= 1 && limit >= 1
    ensures |r| == |PageOf(results, page, limit)| <= limit
    ensures forall i :: 0 <= i < |r| ==> r[i] == ToDto(results[Offset(page, limit) + i])
  {
    MapPage(results, page, limit, ToDto)
  }

  /** The GET body: the page's rows sorted, the counts, and the revenue of that page alone. */
  function Body(results: seq<UserDoc>, page: int, limit: int, newLast30Days: int): (r: Payload)
    requires page >= 1 && limit >= 1
    ensures r.PremiumList?
    ensures r.premium.total == |results| && r.premium.currentPage == page
    ensures r.premium.totalPages == TotalPages(|results|, limit)
    ensures SortedDesc(r.premium.items, StartKey)
    ensures multiset(r.premium.items) == multiset(PageRows(results, page, limit))
    ensures r.revenue == Revenue(PageRows(results, page, limit), newLast30Days)
  {
    var rows := PageRows(results, page, limit);
    var items := SortByStart(rows);
    SortKeepsRevenue(rows, newLast30Days);
    PremiumList(Page(items, |results|, page, TotalPages(|results|, limit)), Revenue(items, newLast30Days))
  }

  /** GET: 401/403 from the admin gate, otherwise the body, cached for 3 minutes. */
  method Get(cache: SmartCache<Payload>, env: Option<string>, header: Option<string>, verify: string -> TokenCheck,
             page: int, limit: int, now: int, premiumUsers: seq<UserDoc>, newLast30Days: int)
    returns (r: Response<Served>)
    requires page >= 1 && limit >= 1
    modifies cache
    ensures var gate := AdminGate(env, header, verify);
      gate.Err? ==> r == Err(gate.status, gate.error) && cache.entries == old(cache.entries)
    ensures var gate := AdminGate(env, header, verify);
      var body := Body(premiumUsers, page, limit, newLast30Days);
      gate.Ok? ==> (r == Ok(Serve(old(cache.entries), CacheKey(page, limit), now, 3, body).0)
        && cache.entries == Serve(old(cache.entries), CacheKey(page, limit), now, 3, body).1)
  {
    var gate := AdminGate(env, header, verify);
    if gate.Err? {
      return Err(gate.status, gate.error);
    }
    var served := CachedFetch(cache, CacheKey(page, limit), now, 3, Body(premiumUsers, page, limit, newLast30Days));
    r := Ok(served);
  }

  // -----------------------------------------------------------------------
  // POST and PATCH
  // -----------------------------------------------------------------------

  /**
   * The new end date: `duration` days after the later of the current end
   * date and now; a missing end date counts as now.
   */
  function ExtendedUntil(until: Option<int>, now: int, duration: int): (r: int)
    ensures r >= now + duration * DayMs
    ensures until.Some? ==> r >= until.value + duration * DayMs
    ensures r == now + duration * DayMs || (until.Some? && r == until.value + duration * DayMs)
  {
    var current := if until.Some? then until.value else now;
    var start := if current > now then current else now;
    start + duration * 24 * 60 * 60 * 1000
  }

  /** The writes POST and PATCH issue. */
  datatype PremiumOp =
    | GrantPremium(userId: string, premiumStartedAt: int, premiumUntil: int, premiumType: string)
    | CancelPremium(userId: string, cancelledAt: int)

  /**
   * POST `{ userId, premiumType, duration }` once the admin gate has
   * answered `gate`, where `stored` is the user's document if it exists:
   * 400 without an id, 404 for an unknown user, otherwise one grant that
   * keeps an existing start date.
   */
  function Post(gate: Response<AdminUser>, userId: Option<string>, premiumType: Option<string>, duration: int,
                stored: Option<UserDoc>, now: int)
    : (r: Response<seq<PremiumOp>>)
    ensures gate.Err? ==> r == Err(gate.status, gate.error)
    ensures gate.Ok? ==> (r == Err(400, "Missing userId") <==> !Truthy(userId))
    ensures gate.Ok? ==> (r == Err(404, "User not found") <==> Truthy(userId) && stored.None?)
    ensures gate.Ok? ==> (r.Ok? <==> Truthy(userId) && stored.Some?)
    ensures r.Ok? ==> |r.body| == 1 && r.body[0].GrantPremium? && r.body[0].userId == userId.value
    ensures r.Ok? ==> r.body[0].premiumUntil == ExtendedUntil(stored.value.premiumUntil, now, duration)
    ensures r.Ok? && stored.value.premiumStartedAt.Some? ==> r.body[0].premiumStartedAt == stored.value.premiumStartedAt.value
    ensures r.Ok? && stored.value.premiumStartedAt.None? ==> r.body[0].premiumStartedAt == now
    ensures r.Ok? ==> r.body[0].premiumType == Or(premiumType, Or(stored.value.premiumType, "monthly"))
  {
    if gate.Err? then Err(gate.status, gate.error)
    else if !Truthy(userId) then Err(400, "Missing userId")
    else if stored.None? then Err(404, "User not found")
    else
      var d := stored.value;
      var started := if d.premiumStartedAt.Some? then d.premiumStartedAt.value else now;
      Ok([GrantPremium(userId.value, started, ExtendedUntil(d.premiumUntil, now, duration),
        Or(premiumType, Or(d.premiumType, "monthly")))])
  }

  /** An extension never ends before `duration` days from now, and never shortens a running plan. */
  lemma ExtensionNeverShortens(until: Option<int>, now: int, duration: nat)
    ensures ExtendedUntil(until, now, duration) >= now + duration * DayMs
    ensures until.Some? ==> ExtendedUntil(until, now, duration) >= until.value
  {
  }

  /** PATCH `{ userId, action }` after the gate: only `cancel` is accepted. */
  function Patch(gate: Response<AdminUser>, userId: Option<string>, action: Option<string>, now: int)
    : (r: Response<seq<PremiumOp>>)
    ensures gate.Err? ==> r == Err(gate.status, gate.error)
    ensures gate.Ok? ==> (r.Err? <==> !Truthy(userId) || action != Some("cancel"))
    ensures r.Ok? ==> r.body == [CancelPremium(userId.value, now)]
  {
    if gate.Err? then Err(gate.status, gate.error)
    else if !Truthy(userId) || !Truthy(action) then Err(400, "Missing userId or action")
    else if action.value == "cancel" then Ok([CancelPremium(userId.value, now)])
    else Err(400, "Invalid action")
  }
}
