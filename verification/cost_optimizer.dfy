/**
 * The query helpers of `firebase-cost-optimizer.ts` that sit on the shared
 * cache (`getTotalUsersCount`, `getPublicStats`), the cursor-paged user
 * list (`getPaginatedUsers`) and the read/write counters.
 *
 * Query results come in as values: counts as integers, the
 * `totalMinutes` sample (at most 1000 users) as a sequence of optional
 * numbers, the `users` collection in `createdAt`-descending order as a
 * sequence of documents.
 */
module CostOptimizer {
  import opened Common
  import opened TtlCache
  import opened Records

  // -----------------------------------------------------------------------
  // The total-minutes estimate
  // -----------------------------------------------------------------------

  /** The sample's minutes, a missing value counting as 0. */
  function SampleSum(sample: seq<Option<int>>): int {
    if sample == [] then 0 else SampleSum(sample[..|sample| - 1]) + OrNum(sample[|sample| - 1], 0)
  }

  /** The `forEach` that adds up the sample. */
  method SumSample(sample: seq<Option<int>>) returns (total: int)
    ensures total == SampleSum(sample)
  {
    total := 0;
    var i := 0;
    while i < |sample|
      invariant i <= |sample|
      invariant total == SampleSum(sample[..i])
    {
      assert sample[..i + 1][..i] == sample[..i];
      total := total + OrNum(sample[i], 0);
      i := i + 1;
    }
    assert sample[..i] == sample;
  }

  /** A sample of non-negative values sums to a non-negative total. */
  lemma {:induction false} SampleSumNonNegative(sample: seq<Option<int>>)
    requires forall i :: 0 <= i < |sample| ==> OrNum(sample[i], 0) >= 0
    ensures SampleSum(sample) >= 0
  {
    if sample != [] {
      SampleSumNonNegative(sample[..|sample| - 1]);
    }
  }

  /**
   * `floor(sum * (totalUsers / n))`, computed exactly: the largest whole
   * number of minutes not above the sample's average times the user count.
   */
  function Extrapolate(sum: int, totalUsers: int, n: int): (r: int)
    requires n > 0
    ensures r * n <= sum * totalUsers < r * n + n
  {
    FloorDiv(sum * totalUsers, n)
  }

  /** A sample that covers every user is its own estimate. */
  lemma ExtrapolateFullSample(sum: int, n: int)
    requires n > 0
    ensures Extrapolate(sum, n, n) == sum
  {
    var r := Extrapolate(sum, n, n);
    assert (r + 1) * n == r * n + n && (r - 1) * n == r * n - n;
    FactorLess(sum, r + 1, n);
    FactorLess(r - 1, sum, n);
  }

  /**
   * `getPublicStats`' estimate as written: with an empty sample the ratio
   * is a division by zero and the result is NaN (None here).
   */
  function PublicMinutesAsWritten(sum: int, totalUsers: int, n: nat): Option<int> {
    if n == 0 then None else Some(Extrapolate(sum, totalUsers, n))
  }

  /** With no users there is no sample, and the estimate as written is NaN. */
  lemma EmptySampleIsNaN(totalUsers: int)
    ensures PublicMinutesAsWritten(SampleSum([]), totalUsers, 0).None?
  {
  }

  /**
   * The estimate guarded as the admin stats route guards it: extrapolated
   * only from a non-empty sample, otherwise the plain sum.
   */
  function EstimateMinutes(sum: int, totalUsers: int, n: nat): (r: int)
    ensures n > 0 ==> r == Extrapolate(sum, totalUsers, n)
    ensures n == 0 ==> r == sum
  {
    if n > 0 then Extrapolate(sum, totalUsers, n) else sum
  }

  /** The guard changes nothing when the sample is non-empty, and yields a number otherwise. */
  lemma GuardAgreesOnSamples(sum: int, totalUsers: int, n: nat)
    ensures n > 0 ==> PublicMinutesAsWritten(sum, totalUsers, n) == Some(EstimateMinutes(sum, totalUsers, n))
    ensures n == 0 ==> PublicMinutesAsWritten(sum, totalUsers, n).None? && EstimateMinutes(sum, totalUsers, n) == sum
  {
  }

  // -----------------------------------------------------------------------
  // Cached counts
  // -----------------------------------------------------------------------

  /**
   * `getTotalUsersCount` against the store `m`: any live cached count is
   * returned (the test is `!== null`, so a cached 0 counts); otherwise the
   * fresh count is returned and cached for 5 minutes.
   */
  function CountLookup(m: map<string, CacheItem<Payload>>, now: int, count: int): (int, map<string, CacheItem<Payload>>) {
    var hit := Lookup(m, "total_users_count", now);
    var m1 := AfterGet(m, "total_users_count", now);
    if hit.Some? && hit.value.TotalUsers? then (hit.value.count, m1)
    else (count, m1["total_users_count" := CacheItem(TotalUsers(count), now, TtlMs(5))])
  }

  /** A cached zero is a hit for the count, though every other cached read treats it as a miss. */
  lemma CachedZeroIsHit(m: map<string, CacheItem<Payload>>, now: int, count: int)
    requires Lookup(m, "total_users_count", now) == Some(TotalUsers(0))
    ensures CountLookup(m, now, count) == (0, m)
    ensures !PayloadTruthy(TotalUsers(0))
  {
  }

  /** After a miss the count is cached: asking again within 5 minutes answers the same count. */
  lemma CountCachedFor5Minutes(m: map<string, CacheItem<Payload>>, now: int, later: int, count: int, other: int)
    requires Lookup(m, "total_users_count", now).None?
    requires now <= later <= now + 5 * MinuteMs
    ensures var (c, m1) := CountLookup(m, now, count);
      c == count && CountLookup(m1, later, other) == (count, m1)
  {
  }

  method GetTotalUsersCount(cache: SmartCache<Payload>, now: int, count: int) returns (r: int)
    modifies cache
    ensures (r, cache.entries) == CountLookup(old(cache.entries), now, count)
  {
    var cached := cache.Get("total_users_count", now);
    if cached.Some? && cached.value.TotalUsers? {
      return cached.value.count;
    }
    cache.Set("total_users_count", TotalUsers(count), now, 5);
    r := count;
  }

  /** The inputs `getPublicStats` reads on a miss. */
  datatype PublicInputs = PublicInputs(users: int, rooms: int, sessions: int, sample: seq<Option<int>>)

  /**
   * The stats computed from fresh inputs, as written: the counts are copied,
   * and the minutes are NaN (None) exactly when the sample is empty.
   */
  function ComputePublicStats(inp: PublicInputs): (s: PublicStats)
    ensures s.totalUsers == inp.users && s.totalRooms == inp.rooms && s.completedSessions == inp.sessions
    ensures s.totalMinutes.None? <==> inp.sample == []
    ensures inp.sample != [] ==> s.totalMinutes == Some(Extrapolate(SampleSum(inp.sample), inp.users, |inp.sample|))
  {
    PublicStats(inp.users, inp.rooms, inp.sessions, PublicMinutesAsWritten(SampleSum(inp.sample), inp.users, |inp.sample|))
  }

  /** The stats with the empty-sample guard the admin stats route has: the minutes are always a number. */
  function ComputePublicStatsGuarded(inp: PublicInputs): (s: PublicStats)
    ensures s.totalUsers == inp.users && s.totalRooms == inp.rooms && s.completedSessions == inp.sessions
    ensures s.totalMinutes == Some(EstimateMinutes(SampleSum(inp.sample), inp.users, |inp.sample|))
    ensures inp.sample != [] ==> s == ComputePublicStats(inp)
  {
    PublicStats(inp.users, inp.rooms, inp.sessions, Some(EstimateMinutes(SampleSum(inp.sample), inp.users, |inp.sample|)))
  }

  /**
   * `getPublicStats` against the store `m`: a live cached object is a hit
   * (every object is truthy); otherwise the fresh stats, cached for 10
   * minutes. `inp` is None when the queries fail: the error propagates
   * (None) and nothing is stored.
   */
  function PublicLookup(m: map<string, CacheItem<Payload>>, now: int, inp: Option<PublicInputs>)
    : (Option<PublicStats>, map<string, CacheItem<Payload>>)
  {
    var hit := Lookup(m, "public_stats", now);
    var m1 := AfterGet(m, "public_stats", now);
    if hit.Some? && hit.value.PublicStatsData? then (Some(hit.value.publicStats), m1)
    else if inp.None? then (None, m1)
    else
      var s := ComputePublicStats(inp.value);
      (Some(s), m1["public_stats" := CacheItem(PublicStatsData(s), now, TtlMs(10))])
  }

  /**
   * A miss stores what it answers, and the answer is then served for 10
   * minutes whatever the store would say, even when it fails.
   */
  lemma PublicCachedFor10Minutes(m: map<string, CacheItem<Payload>>, now: int, later: int, inp: PublicInputs, inp2: Option<PublicInputs>)
    requires Lookup(m, "public_stats", now).None?
    requires now <= later <= now + 10 * MinuteMs
    ensures var (s, m1) := PublicLookup(m, now, Some(inp));
      s == Some(ComputePublicStats(inp)) && PublicLookup(m1, later, inp2) == (s, m1)
  {
  }

  /** A failure on a miss answers nothing and stores nothing. */
  lemma PublicFailureStoresNothing(m: map<string, CacheItem<Payload>>, now: int)
    requires Lookup(m, "public_stats", now).None?
    ensures PublicLookup(m, now, None) == (None, AfterGet(m, "public_stats", now))
    ensures "public_stats" !in PublicLookup(m, now, None).1
  {
  }

  method GetPublicStats(cache: SmartCache<Payload>, now: int, inp: Option<PublicInputs>) returns (r: Option<PublicStats>)
    modifies cache
    ensures (r, cache.entries) == PublicLookup(old(cache.entries), now, inp)
  {
    var cached := cache.Get("public_stats", now);
    if cached.Some? && cached.value.PublicStatsData? {
      return Some(cached.value.publicStats);
    }
    if inp.None? {
      return None;
    }
    var total := SumSample(inp.value.sample);
    var i := inp.value;
    var s := PublicStats(i.users, i.rooms, i.sessions, PublicMinutesAsWritten(total, i.users, |i.sample|));
    cache.Set("public_stats", PublicStatsData(s), now, 10);
    r := Some(s);
  }

  // -----------------------------------------------------------------------
  // Cursor paging
  // -----------------------------------------------------------------------

  /** `{ users, lastDocId, hasMore }` */
  datatype UsersCursorPage = UsersCursorPage(users: seq<UserDoc>, lastDocId: Option<string>, hasMore: bool)

  /** The position of the first document with id `id`, if any. */
  function IndexOfId(all: seq<UserDoc>, id: string): (r: Option<nat>)
    ensures r.Some? ==> r.value < |all| && all[r.value].id == id
    ensures r.None? ==> forall i :: 0 <= i < |all| ==> all[i].id != id
    ensures r.Some? ==> forall i :: 0 <= i < r.value ==> all[i].id != id
  {
    if all == [] then None
    else if all[0].id == id then Some(0)
    else
      var r := IndexOfId(all[1..], id);
      if r.None? then None else Some(r.value + 1)
  }

  /**
   * Where the query starts reading: at the beginning without a cursor,
   * just after the cursor's document with one. A cursor that names no
   * document makes the query fail (None).
   */
  function CursorStart(all: seq<UserDoc>, lastDocId: Option<string>): (r: Option<nat>)
    ensures r.Some? ==> r.value <= |all|
    ensures !Truthy(lastDocId) ==> r == Some(0)
    ensures Truthy(lastDocId) && r.Some? ==> r.value >= 1 && all[r.value - 1].id == lastDocId.value
  {
    if !Truthy(lastDocId) then Some(0)
    else
      var k := IndexOfId(all, lastDocId.value);
      if k.None? then None else Some(k.value + 1)
  }

  /** The documents the query reads: at most `limit` of them, from the cursor on. */
  function QueryAfter(all: seq<UserDoc>, lastDocId: Option<string>, limit: int): (r: Option<seq<UserDoc>>)
    requires limit >= 1
    ensures r.Some? <==> CursorStart(all, lastDocId).Some?
    ensures r.Some? ==> var st := CursorStart(all, lastDocId).value;
      |r.value| == Min(limit, |all| - st) && r.value == all[st..st + |r.value|]
  {
    var st := CursorStart(all, lastDocId);
    if st.None? then None
    else Some(all[st.value..st.value + Min(limit, |all| - st.value)])
  }

  /** `getPaginatedUsers(lastDocId, limit = 20)`: one page and the cursor for the next. */
  function GetPaginatedUsers(all: seq<UserDoc>, lastDocId: Option<string>, limit: int): (r: Option<UsersCursorPage>)
    requires limit >= 1
    ensures r.Some? <==> QueryAfter(all, lastDocId, limit).Some?
    ensures r.Some? ==> r.value.users == QueryAfter(all, lastDocId, limit).value && |r.value.users| <= limit
    ensures r.Some? ==> (r.value.hasMore <==> |r.value.users| == limit)
    ensures r.Some? ==> (r.value.lastDocId.None? <==> r.value.users == [])
    ensures r.Some? && r.value.users != [] ==> r.value.lastDocId == Some(r.value.users[|r.value.users| - 1].id)
  {
    var docs := QueryAfter(all, lastDocId, limit);
    if docs.None? then None
    else
      var d := docs.value;
      Some(UsersCursorPage(d, if d == [] then None else Some(d[|d| - 1].id), |d| == limit))
  }

  /** Document ids are non-empty and unique within the collection. */
  predicate ValidIds(all: seq<UserDoc>) {
    (forall i :: 0 <= i < |all| ==> all[i].id != "")
    && (forall i, j :: 0 <= i < j < |all| ==> all[i].id != all[j].id)
  }

  /**
   * Following the cursor continues exactly where a page ended: the next
   * query starts with the document after the last one returned.
   */
  lemma CursorContinues(all: seq<UserDoc>, lastDocId: Option<string>, limit: int)
    requires limit >= 1 && ValidIds(all)
    requires GetPaginatedUsers(all, lastDocId, limit).Some?
    requires GetPaginatedUsers(all, lastDocId, limit).value.users != []
    ensures var p := GetPaginatedUsers(all, lastDocId, limit).value;
      CursorStart(all, p.lastDocId) == Some(CursorStart(all, lastDocId).value + |p.users|)
  {
    var p := GetPaginatedUsers(all, lastDocId, limit).value;
    var st := CursorStart(all, lastDocId).value;
    var last := st + |p.users| - 1;
    assert all[last] == p.users[|p.users| - 1];
    var k := IndexOfId(all, all[last].id);
    assert k == Some(last);
  }

  /** A short page is the last one: it reaches the end of the collection. */
  lemma ShortPageIsLast(all: seq<UserDoc>, lastDocId: Option<string>, limit: int)
    requires limit >= 1
    requires GetPaginatedUsers(all, lastDocId, limit).Some? && !GetPaginatedUsers(all, lastDocId, limit).value.hasMore
    ensures CursorStart(all, lastDocId).value + |GetPaginatedUsers(all, lastDocId, limit).value.users| == |all|
  {
  }

  /** A full page reports more even when nothing follows it: the next page can be empty. */
  lemma FullLastPageSaysMore(u: UserDoc)
    requires u.id != ""
    ensures GetPaginatedUsers([u], None, 1) == Some(UsersCursorPage([u], Some(u.id), true))
    ensures GetPaginatedUsers([u], Some(u.id), 1) == Some(UsersCursorPage([], None, false))
  {
    assert IndexOfId([u], u.id) == Some(0);
    assert [u][0..1] == [u];
    assert [u][1..1] == [];
  }

  // -----------------------------------------------------------------------
  // Read and write counters
  // -----------------------------------------------------------------------

  /** The module-level `readCount` and `writeCount`. */
  class CostTracker {
    var readCount: int
    var writeCount: int

    constructor ()
      ensures readCount == 0 && writeCount == 0
    {
      readCount, writeCount := 0, 0;
    }

    /** `trackRead(count = 1)` */
    method TrackRead(count: int := 1)
      modifies this
      ensures readCount == old(readCount) + count && writeCount == old(writeCount)
    {
      readCount := readCount + count;
    }

    /** `trackWrite(count = 1)` */
    method TrackWrite(count: int := 1)
      modifies this
      ensures writeCount == old(writeCount) + count && readCount == old(readCount)
    {
      writeCount := writeCount + count;
    }

    /** `resetCostTracking()` */
    method Reset()
      modifies this
      ensures readCount == 0 && writeCount == 0
    {
      readCount, writeCount := 0, 0;
    }

    /** The counts `getCostEstimate()` reports. */
    method Estimate() returns (r: int, w: int)
      ensures r == readCount && w == writeCount
    {
      r, w := readCount, writeCount;
    }
  }
}
