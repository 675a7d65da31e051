/**
 * `/api/admin/stats`: the dashboard's headline counters, from count
 * queries and a 1000-user sample of study minutes, cached for 5 minutes.
 *
 * The `users` and `reports` collections come in as sequences in the order
 * the store yields them; the room and message counts, whose documents are
 * not part of this model, come in as numbers.
 */
module AdminStatsRoute {
  import opened Common
  import opened TtlCache
  import opened AdminAuth
  import opened RequestAuth
  import opened Records
  import opened Listing
  import opened CostOptimizer

  /** What the nine queries read. */
  datatype StatsStore = StatsStore(
    users: seq<UserDoc>, totalRooms: nat, activeRooms: nat, totalMessages: nat, reports: seq<ReportDoc>)

  /** At most this many users are read for the minutes sample. */
  const SampleSize: nat := 1000

  /** `where('lastActiveAt', '>', cutoff)`: a user without the field never matches. */
  predicate ActiveSince(u: UserDoc, cutoff: int) {
    u.lastActiveAt.Some? && u.lastActiveAt.value > cutoff
  }

  predicate PremiumUser(u: UserDoc) {
    u.isPremium == Some(true)
  }

  predicate PendingReport(r: ReportDoc) {
    r.status == Some("pending")
  }

  /** `select('totalMinutes').limit(1000)`: the first users' minutes. */
  function Sample(users: seq<UserDoc>): (s: seq<Option<int>>)
    ensures |s| == Min(SampleSize, |users|)
    ensures forall i :: 0 <= i < |s| ==> s[i] == users[i].totalMinutes
  {
    seq(Min(SampleSize, |users|), i requires 0 <= i < Min(SampleSize, |users|) => users[i].totalMinutes)
  }

  /** The counters at time `now`; the minutes are extrapolated only from a non-empty sample. */
  function Stats(store: StatsStore, now: int): (s: AdminStats)
    ensures s.totalUsers == |store.users|
    ensures s.activeUsers24h == CountIf(store.users, u => ActiveSince(u, now - DayMs))
    ensures s.activeUsers7d == CountIf(store.users, u => ActiveSince(u, now - 7 * DayMs))
    ensures s.totalPremiumUsers == CountIf(store.users, PremiumUser)
    ensures s.pendingReports == CountIf(store.reports, PendingReport)
    ensures s.totalRooms == store.totalRooms && s.activeRooms == store.activeRooms
    ensures s.totalMessages == store.totalMessages
    ensures |store.users| > 0 ==>
      (s.totalStudyMinutes == Extrapolate(SampleSum(Sample(store.users)), |store.users|, |Sample(store.users)|))
    ensures |store.users| == 0 ==> s.totalStudyMinutes == 0
  {
    var users := store.users;
    var sample := Sample(users);
    AdminStats(
      |users|,
      CountIf(users, u => ActiveSince(u, now - DayMs)),
      CountIf(users, u => ActiveSince(u, now - 7 * DayMs)),
      CountIf(users, PremiumUser),
      EstimateMinutes(SampleSum(sample), |users|, |sample|),
      store.totalRooms, store.activeRooms, store.totalMessages,
      CountIf(store.reports, PendingReport))
  }

  /** Every user active in the last day is active in the last week, and no count exceeds the users. */
  lemma ActiveCountsNest(store: StatsStore, now: int)
    ensures var s := Stats(store, now);
      0 <= s.activeUsers24h <= s.activeUsers7d <= s.totalUsers && 0 <= s.totalPremiumUsers <= s.totalUsers
  {
    CountIfMonotone(store.users, u => ActiveSince(u, now - DayMs), u => ActiveSince(u, now - 7 * DayMs));
  }

  /** With at most 1000 users the sample is every user, and the minutes are their exact sum. */
  lemma SmallUserBaseIsExact(store: StatsStore, now: int)
    requires |store.users| <= SampleSize
    ensures Stats(store, now).totalStudyMinutes == SampleSum(Sample(store.users))
    ensures |Sample(store.users)| == |store.users|
  {
    if |store.users| > 0 {
      ExtrapolateFullSample(SampleSum(Sample(store.users)), |store.users|);
    }
  }

  /** GET: the inline admin check, then the counters through the cache under `admin_stats`. */
  method Get(cache: SmartCache<Payload>, env: Option<string>, header: Option<string>, verify: string -> TokenCheck,
             now: int, store: StatsStore)
    returns (r: Response<Served>)
    modifies cache
    ensures var gate := InlineAdminCheck(env, header, verify);
      gate.Err? ==> r == Err(gate.status, gate.error) && cache.entries == old(cache.entries)
    ensures var gate := InlineAdminCheck(env, header, verify);
      var body := AdminStatsData(Stats(store, now));
      gate.Ok? ==> (r == Ok(Serve(old(cache.entries), "admin_stats", now, 5, body).0)
        && cache.entries == Serve(old(cache.entries), "admin_stats", now, 5, body).1)
  {
    var gate := InlineAdminCheck(env, header, verify);
    if gate.Err? {
      return Err(gate.status, gate.error);
    }
    var sample := Sample(store.users);
    var minutes := SumSample(sample);
    var n := |sample|;
    if n > 0 {
      minutes := Extrapolate(minutes, |store.users|, n);
    }
    var stats := AdminStats(
      |store.users|,
      CountIf(store.users, u => ActiveSince(u, now - DayMs)),
      CountIf(store.users, u => ActiveSince(u, now - 7 * DayMs)),
      CountIf(store.users, PremiumUser),
      minutes,
      store.totalRooms, store.activeRooms, store.totalMessages,
      CountIf(store.reports, PendingReport));
    var served := CachedFetch(cache, "admin_stats", now, 5, AdminStatsData(stats));
    r := Ok(served);
  }
}
