/**
 * `/api/public/stats`: the landing page's figures, with no authentication.
 * The figures come from the cached `getPublicStats`; when it fails, fixed
 * fallback labels are answered instead.
 */
module PublicStatsRoute {
  import opened Common
  import opened TtlCache
  import opened Records
  import opened CostOptimizer

  /** The four rounded labels the landing page shows. */
  datatype Labels = Labels(users: string, sessions: string, minutes: string, rooms: string)

  datatype PublicStatsResponse =
    | Success(totalUsers: int, activeUsers: int, completedSessions: int, totalMinutes: Option<int>,
              totalHours: Option<int>, totalRooms: int, labels: Labels, cached: bool)
    | Fallback(labels: Labels)

  /** `${Math.floor(n / 1000)}K+` */
  function Thousands(n: int): string {
    IntToString(FloorDiv(n, 1000)) + "K+"
  }

  /** `${Math.floor(m / 1000000)}M+`, where a NaN minute count prints as `NaNM+`. */
  function Millions(m: Option<int>): string {
    if m.Some? then IntToString(FloorDiv(m.value, 1000000)) + "M+" else "NaNM+"
  }

  /** `Math.floor(m / 60)`, NaN staying NaN. */
  function Hours(m: Option<int>): (h: Option<int>)
    ensures h.Some? <==> m.Some?
    ensures m.Some? ==> h.value * 60 <= m.value < h.value * 60 + 60
  {
    if m.Some? then Some(FloorDiv(m.value, 60)) else None
  }

  /** The labels shown when the figures cannot be read. */
  const FallbackLabels := Labels("10K+", "500K+", "1M+", "50K+")

  /**
   * The body built from the stats, or the fallback when they could not be
   * read. Active users are assumed to be 15% of all users.
   */
  function Answer(stats: Option<PublicStats>): (r: PublicStatsResponse)
    ensures stats.None? <==> r == Fallback(FallbackLabels)
    ensures stats.Some? ==> r.Success? && r.cached
    ensures stats.Some? ==> var s := stats.value;
      r.totalUsers == s.totalUsers && r.completedSessions == s.completedSessions
      && r.totalRooms == s.totalRooms && r.totalMinutes == s.totalMinutes
      && r.activeUsers * 100 <= 15 * s.totalUsers < r.activeUsers * 100 + 100
      && r.totalHours == Hours(s.totalMinutes)
  {
    if stats.None? then Fallback(FallbackLabels)
    else
      var s := stats.value;
      Success(s.totalUsers, FloorDiv(s.totalUsers * 15, 100), s.completedSessions, s.totalMinutes,
        Hours(s.totalMinutes), s.totalRooms,
        Labels(Thousands(s.totalUsers), Thousands(s.completedSessions), Millions(s.totalMinutes), Thousands(s.totalRooms)),
        true)
  }

  /** The digits of a `K+` label. */
  lemma ThousandsShape(n: nat)
    ensures var l := Thousands(n);
      |l| >= 3 && l[|l| - 2..] == "K+" && l[..|l| - 2] == NatToString(n / 1000)
  {
  }

  /**
   * A `K+` label never overstates: the number it shows, times 1000, is at
   * most the count, and the next thousand is above it.
   */
  lemma ThousandsNeverOverstates(n: nat)
    ensures var d := Thousands(n)[..|Thousands(n)| - 2];
      (forall i :: 0 <= i < |d| ==> IsDigit(d[i]))
      && ParseDigits(d) * 1000 <= n < ParseDigits(d) * 1000 + 1000
  {
    ThousandsShape(n);
    ParseNatToString(n / 1000);
  }

  /**
   * The route as written on an empty sample: `getPublicStats` estimates the
   * minutes as NaN (a division by zero), and the page shows `NaNM+` and NaN
   * hours.
   */
  lemma EmptySampleShowsNaN(users: int, rooms: int, sessions: int)
    ensures var r := Answer(Some(ComputePublicStats(PublicInputs(users, rooms, sessions, []))));
      r.labels.minutes == "NaNM+" && r.totalHours.None?
  {
  }

  /** A miss on an empty sample stores NaN minutes, and every answer for the next 10 minutes shows `NaNM+`. */
  lemma EmptySampleCachedAsNaN(m: map<string, CacheItem<Payload>>, now: int, later: int, inp: PublicInputs, inp2: Option<PublicInputs>)
    requires Lookup(m, "public_stats", now).None? && inp.sample == []
    requires now <= later <= now + 10 * MinuteMs
    ensures var (s, m1) := PublicLookup(m, now, Some(inp));
      Answer(s).labels.minutes == "NaNM+" && Answer(PublicLookup(m1, later, inp2).0).labels.minutes == "NaNM+"
  {
    PublicCachedFor10Minutes(m, now, later, inp, inp2);
  }

  /** With the guarded estimate every label is a number, whatever the sample. */
  lemma LabelsAreNumbers(inp: PublicInputs)
    ensures var r := Answer(Some(ComputePublicStatsGuarded(inp)));
      r.totalMinutes.Some? && r.totalHours.Some? && r.labels.minutes != "NaNM+"
  {
    var r := Answer(Some(ComputePublicStatsGuarded(inp)));
    assert r.labels.minutes[0] != 'N';
  }

  /**
   * GET: the stats through the cache, or the fallback labels when they
   * cannot be read. With no users the stored minutes are NaN, so the body
   * carries null minutes and hours and the label `NaNM+`.
   */
  method Get(cache: SmartCache<Payload>, now: int, inp: Option<PublicInputs>) returns (r: PublicStatsResponse)
    modifies cache
    ensures var (stats, m) := PublicLookup(old(cache.entries), now, inp);
      r == Answer(stats) && cache.entries == m
  {
    var stats := GetPublicStats(cache, now, inp);
    r := Answer(stats);
  }
}
