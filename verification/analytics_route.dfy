/**
 * `/api/admin/analytics`: the daily series (user growth, active users,
 * study hours) over a 7-, 30- or 90-day range and the five largest room
 * categories, cached for 10 minutes per range.
 *
 * Days are counted back from today: `dateKey(i)` is the ISO 8601 calendar
 * date (YYYY-MM-DD) `i` days before today, and `daily_stats` documents
 * carry such a date.
 */
module AnalyticsRoute {
  import opened Common
  import opened TtlCache
  import opened AdminAuth
  import opened RequestAuth
  import opened Records
  import opened Listing
  import opened Sorting

  /** `7d` is 7 days, `30d` 30, anything else 90. */
  function RangeDays(range: string): (days: nat)
    ensures range == "7d" ==> days == 7
    ensures range == "30d" ==> days == 30
    ensures range != "7d" && range != "30d" ==> days == 90
  {
    if range == "7d" then 7 else if range == "30d" then 30 else 90
  }

  /** `analytics_{range}` */
  function CacheKey(range: string): string {
    "analytics_" + range
  }

  // -----------------------------------------------------------------------
  // daily_stats aggregation
  // -----------------------------------------------------------------------

  /** A `daily_stats` document: one active user on one date. */
  datatype DailyStat = DailyStat(date: string, totalMinutes: Option<int>)

  /** The `where('date', '>=', start)` filter, with a date key compared as the day it names. */
  function OnOrAfter(dayOf: string -> int, start: int): DailyStat -> bool {
    (s: DailyStat) => dayOf(s.date) >= start
  }

  /** The `orderBy('date', 'asc')` key, negated for the descending sort. */
  function EarliestFirst(dayOf: string -> int): DailyStat -> int {
    (s: DailyStat) => -dayOf(s.date)
  }

  /**
   * The `daily_stats` query: the documents dated on or after the start,
   * oldest first, and only the first `days` of them. Each document is one
   * user's day, so the limit caps user-days, not dates.
   */
  function DailyQuery(collection: seq<DailyStat>, dayOf: string -> int, start: int, days: nat): (r: seq<DailyStat>)
    ensures |r| == Min(days, |Keep(collection, OnOrAfter(dayOf, start))|) && |r| <= days
    ensures forall s :: s in r ==> s in collection && dayOf(s.date) >= start
    ensures forall i, j :: 0 <= i < j < |r| ==> dayOf(r[i].date) <= dayOf(r[j].date)
  {
    var r := Newest(collection, OnOrAfter(dayOf, start), EarliestFirst(dayOf), days);
    assert forall i, j :: 0 <= i < j < |r| ==> EarliestFirst(dayOf)(r[i]) >= EarliestFirst(dayOf)(r[j]);
    r
  }

  /** A document in range that the limit leaves out is no earlier than any the query returns. */
  lemma DailyQueryTakesOldest(collection: seq<DailyStat>, dayOf: string -> int, start: int, days: nat, x: DailyStat)
    requires x in collection && dayOf(x.date) >= start && x !in DailyQuery(collection, dayOf, start, days)
    ensures forall i :: 0 <= i < |DailyQuery(collection, dayOf, start, days)| ==>
      dayOf(DailyQuery(collection, dayOf, start, days)[i].date) <= dayOf(x.date)
  {
    NewestAreNewest(collection, OnOrAfter(dayOf, start), EarliestFirst(dayOf), days, x);
  }

  /** One date's totals. */
  datatype DayTotals = DayTotals(activeUsers: nat, studyMinutes: int)

  /**
   * A date's totals over the documents: one active user per document of
   * that date, plus its minutes (missing counts as 0). A date no document
   * carries totals zero.
   */
  function Totals(stats: seq<DailyStat>, d: string): (t: DayTotals)
    ensures t.activeUsers <= |stats|
    ensures t.activeUsers == 0 ==> t.studyMinutes == 0
  {
    if stats == [] then DayTotals(0, 0)
    else
      var t := Totals(stats[..|stats| - 1], d);
      var s := stats[|stats| - 1];
      if s.date == d then DayTotals(t.activeUsers + 1, t.studyMinutes + OrNum(s.totalMinutes, 0)) else t
  }

  /** The dates the documents carry. */
  function Dates(stats: seq<DailyStat>): set<string> {
    if stats == [] then {} else Dates(stats[..|stats| - 1]) + {stats[|stats| - 1].date}
  }

  /** A date is among `Dates` exactly when some document carries it. */
  lemma {:induction false} DatesCarried(stats: seq<DailyStat>, d: string)
    ensures d in Dates(stats) <==> exists i :: 0 <= i < |stats| && stats[i].date == d
  {
    if stats != [] {
      var init := stats[..|stats| - 1];
      DatesCarried(init, d);
      if d in Dates(init) {
        var i :| 0 <= i < |init| && init[i].date == d;
        assert stats[i].date == d;
      }
      if exists i :: 0 <= i < |stats| && stats[i].date == d {
        var i :| 0 <= i < |stats| && stats[i].date == d;
        if i < |init| {
          assert init[i].date == d;
        }
      }
    }
  }

  /** A date no document carries totals zero. */
  lemma {:induction false} UndatedTotalsZero(stats: seq<DailyStat>, d: string)
    requires d !in Dates(stats)
    ensures Totals(stats, d) == DayTotals(0, 0)
  {
    if stats != [] {
      UndatedTotalsZero(stats[..|stats| - 1], d);
    }
  }

  /** `byDate` has an entry for each date of `stats`, holding that date's totals. */
  ghost predicate Summarises(byDate: map<string, DayTotals>, stats: seq<DailyStat>) {
    byDate.Keys == Dates(stats) && forall d :: d in byDate ==> byDate[d] == Totals(stats, d)
  }

  /** The map after one document is counted into its date's entry, created at zero when missing. */
  function Counted(byDate: map<string, DayTotals>, s: DailyStat): map<string, DayTotals> {
    var t := if s.date in byDate then byDate[s.date] else DayTotals(0, 0);
    byDate[s.date := DayTotals(t.activeUsers + 1, t.studyMinutes + OrNum(s.totalMinutes, 0))]
  }

  /**
   * The `forEach` callback: create the date's entry at zero when missing,
   * then add one active user and the document's minutes to it.
   */
  method CountDoc(byDate: map<string, DayTotals>, s: DailyStat) returns (b: map<string, DayTotals>)
    ensures b == Counted(byDate, s)
  {
    b := byDate;
    if s.date !in b {
      b := b[s.date := DayTotals(0, 0)];
    }
    var t := b[s.date];
    b := b[s.date := DayTotals(t.activeUsers + 1, t.studyMinutes + OrNum(s.totalMinutes, 0))];
  }

  /** Counting one more document keeps the map a summary of the documents counted so far. */
  lemma CountedSummarises(byDate: map<string, DayTotals>, stats: seq<DailyStat>, s: DailyStat)
    requires Summarises(byDate, stats)
    ensures Summarises(Counted(byDate, s), stats + [s])
  {
    var next := stats + [s];
    assert next[..|stats|] == stats;
    if s.date !in byDate {
      UndatedTotalsZero(stats, s.date);
    }
  }

  /** `statsByDate`: an entry for each date some document carries, holding that date's totals. */
  method Aggregate(stats: seq<DailyStat>) returns (byDate: map<string, DayTotals>)
    ensures forall d :: d in byDate <==> exists i :: 0 <= i < |stats| && stats[i].date == d
    ensures forall d :: d in byDate ==> byDate[d] == Totals(stats, d)
  {
    byDate := map[];
    var j := 0;
    while j < |stats|
      invariant j <= |stats|
      invariant Summarises(byDate, stats[..j])
    {
      var s := stats[j];
      CountedSummarises(byDate, stats[..j], s);
      assert stats[..j] + [s] == stats[..j + 1];
      byDate := CountDoc(byDate, s);
      j := j + 1;
    }
    assert stats[..j] == stats;
    forall d {
      DatesCarried(stats, d);
    }
  }

  /** `statsByDate.get(d) || zeros`: what a day of the series reads. */
  function DayOf(byDate: map<string, DayTotals>, d: string): DayTotals {
    if d in byDate then byDate[d] else DayTotals(0, 0)
  }

  /** Reading the aggregated map gives a date's totals, present or not. */
  lemma DayOfIsTotals(stats: seq<DailyStat>, byDate: map<string, DayTotals>, d: string)
    requires forall d :: d in byDate <==> exists i :: 0 <= i < |stats| && stats[i].date == d
    requires forall d :: d in byDate ==> byDate[d] == Totals(stats, d)
    ensures DayOf(byDate, d) == Totals(stats, d)
  {
    if d !in byDate {
      DatesCarried(stats, d);
      UndatedTotalsZero(stats, d);
    }
  }

  // -----------------------------------------------------------------------
  // The daily series
  // -----------------------------------------------------------------------

  /**
   * The user-growth count as written for the day `i` days ago:
   * `max(100, totalUsers - (days - i) * 10)`.
   */
  function GrowthCountAsWritten(totalUsers: int, days: int, i: int): int {
    Max(100, totalUsers - (days - i) * 10)
  }

  /** The user-growth estimate for the day `i` days ago: ten fewer users per day back, never under 100. */
  function GrowthCount(totalUsers: int, i: int): int {
    Max(100, totalUsers - i * 10)
  }

  /**
   * As written, the estimate falls towards today: the oldest day shows more
   * users than today, and today shows fewer than the current total.
   */
  lemma GrowthAsWrittenFalls(totalUsers: int, days: int)
    requires days >= 2 && totalUsers >= 100 + 10 * days
    ensures GrowthCountAsWritten(totalUsers, days, days - 1) > GrowthCountAsWritten(totalUsers, days, 0)
    ensures GrowthCountAsWritten(totalUsers, days, 0) < totalUsers
  {
  }

  /** The estimate never falls from one day to the next and reaches the current total today. */
  lemma GrowthRisesToTotal(totalUsers: int, i: int, j: int)
    requires 0 <= j <= i
    ensures GrowthCount(totalUsers, i) <= GrowthCount(totalUsers, j)
    ensures GrowthCount(totalUsers, 0) == Max(100, totalUsers)
  {
  }

  /** The `n`-th day of a `days`-long series, oldest first, is `days - 1 - n` days ago. */
  function DaysAgo(days: nat, n: int): int {
    days - 1 - n
  }

  /**
   * The `userGrowth` series as the handler builds it: oldest day first, each
   * day's count from the estimate as written.
   */
  function GrowthSeries(days: nat, totalUsers: int, dateKey: int -> string): (s: seq<DatedCount>)
    ensures |s| == days
    ensures forall n :: 0 <= n < days ==> s[n].count == GrowthCountAsWritten(totalUsers, days, DaysAgo(days, n))
  {
    seq(days, n requires 0 <= n < days =>
      DatedCount(dateKey(DaysAgo(days, n)), GrowthCountAsWritten(totalUsers, days, DaysAgo(days, n))))
  }

  /**
   * The series as served never rises: every later day shows at most as many
   * users as an earlier one, none shows more than the current total (or
   * 100), and today shows `days * 10` fewer than the total while that stays
   * above 100.
   */
  lemma GrowthSeriesNeverRises(days: nat, totalUsers: int, dateKey: int -> string, m: nat, n: nat)
    requires m <= n < days
    ensures var s := GrowthSeries(days, totalUsers, dateKey);
      s[n].count <= s[m].count <= Max(100, totalUsers)
    ensures GrowthSeries(days, totalUsers, dateKey)[days - 1].count == Max(100, totalUsers - days * 10)
  {
  }

  function ActiveSeries(days: nat, stats: seq<DailyStat>, dateKey: int -> string): (s: seq<DatedCount>)
    ensures |s| == days
  {
    seq(days, n requires 0 <= n < days =>
      var d := dateKey(DaysAgo(days, n));
      DatedCount(d, Totals(stats, d).activeUsers))
  }

  /** Study hours per day: whole hours of the day's minutes, rounded down. */
  function StudySeries(days: nat, stats: seq<DailyStat>, dateKey: int -> string): (s: seq<DatedCount>)
    ensures |s| == days
  {
    seq(days, n requires 0 <= n < days =>
      var d := dateKey(DaysAgo(days, n));
      DatedCount(d, FloorDiv(Totals(stats, d).studyMinutes, 60)))
  }

  /** The dates of the range, oldest first. */
  function SeriesDates(days: nat, dateKey: int -> string): (ds: seq<string>)
    ensures |ds| == days
  {
    seq(days, n requires 0 <= n < days => dateKey(DaysAgo(days, n)))
  }

  /** The sum of a series' counts. */
  function SumCounts(s: seq<DatedCount>): int {
    if s == [] then 0 else s[0].count + SumCounts(s[1..])
  }

  /** The active users of the documents, added up over the dates `ds`. */
  function ActiveOver(stats: seq<DailyStat>, ds: seq<string>): nat {
    if ds == [] then 0 else Totals(stats, ds[0]).activeUsers + ActiveOver(stats, ds[1..])
  }

  /** How often `d` occurs in `ds`. */
  function Mentions(ds: seq<string>, d: string): (n: nat)
    ensures d !in ds ==> n == 0
  {
    if ds == [] then 0 else (if ds[0] == d then 1 else 0) + Mentions(ds[1..], d)
  }

  /** A list without repeats mentions a date at most once. */
  lemma {:induction false} MentionsOnce(ds: seq<string>, d: string)
    requires forall i, j :: 0 <= i < j < |ds| ==> ds[i] != ds[j]
    ensures Mentions(ds, d) <= 1
  {
    if ds != [] {
      MentionsOnce(ds[1..], d);
      if ds[0] == d {
        assert d !in ds[1..];
      }
    }
  }

  /** One more document adds one active user to each mention of its date. */
  lemma {:induction false} ActiveOverSnoc(stats: seq<DailyStat>, s: DailyStat, ds: seq<string>)
    ensures ActiveOver(stats + [s], ds) == ActiveOver(stats, ds) + Mentions(ds, s.date)
  {
    if ds != [] {
      ActiveOverSnoc(stats, s, ds[1..]);
      assert (stats + [s])[..|stats|] == stats;
    }
  }

  /** Over distinct dates, the active users add up to at most the number of documents. */
  lemma {:induction false} ActiveOverBounded(stats: seq<DailyStat>, ds: seq<string>)
    requires forall i, j :: 0 <= i < j < |ds| ==> ds[i] != ds[j]
    ensures ActiveOver(stats, ds) <= |stats|
  {
    if stats == [] {
      ActiveOverEmpty(ds);
    } else {
      var init, s := stats[..|stats| - 1], stats[|stats| - 1];
      ActiveOverBounded(init, ds);
      assert init + [s] == stats;
      ActiveOverSnoc(init, s, ds);
      MentionsOnce(ds, s.date);
    }
  }

  lemma {:induction false} ActiveOverEmpty(ds: seq<string>)
    ensures ActiveOver([], ds) == 0
  {
    if ds != [] {
      ActiveOverEmpty(ds[1..]);
    }
  }

  /** Two series that agree count by count on the active users of the dates add up alike. */
  lemma {:induction false} SumsAlike(stats: seq<DailyStat>, a: seq<DatedCount>, ds: seq<string>)
    requires |a| == |ds|
    requires forall k :: 0 <= k < |a| ==> a[k].count == Totals(stats, ds[k]).activeUsers
    ensures SumCounts(a) == ActiveOver(stats, ds)
  {
    if a != [] {
      SumsAlike(stats, a[1..], ds[1..]);
    }
  }

  /** The active-users chart adds up the active users of the range's dates. */
  lemma ActiveSeriesSums(days: nat, stats: seq<DailyStat>, dateKey: int -> string)
    ensures SumCounts(ActiveSeries(days, stats, dateKey)) == ActiveOver(stats, SeriesDates(days, dateKey))
  {
    SumsAlike(stats, ActiveSeries(days, stats, dateKey), SeriesDates(days, dateKey));
  }

  /** Distinct day keys give distinct range dates. */
  lemma SeriesDatesDistinct(days: nat, dateKey: int -> string)
    requires forall a, b :: 0 <= a < b < days ==> dateKey(a) != dateKey(b)
    ensures var ds := SeriesDates(days, dateKey); forall i, j :: 0 <= i < j < |ds| ==> ds[i] != ds[j]
  {
    var ds := SeriesDates(days, dateKey);
    forall i, j | 0 <= i < j < |ds| ensures ds[i] != ds[j] {
      assert ds[i] == dateKey(DaysAgo(days, i));
      assert ds[j] == dateKey(DaysAgo(days, j));
    }
  }

  /**
   * The active-users chart of a range adds up to at most `days`: the
   * query's limit caps the user-days read over the whole range.
   */
  lemma ActiveChartCapped(days: nat, collection: seq<DailyStat>, dayOf: string -> int, start: int, dateKey: int -> string)
    requires forall a, b :: 0 <= a < b < days ==> dateKey(a) != dateKey(b)
    ensures SumCounts(ActiveSeries(days, DailyQuery(collection, dayOf, start, days), dateKey)) <= days
  {
    var stats := DailyQuery(collection, dayOf, start, days);
    ActiveSeriesSums(days, stats, dateKey);
    SeriesDatesDistinct(days, dateKey);
    ActiveOverBounded(stats, SeriesDates(days, dateKey));
  }

  /**
   * The three series run over the same dates, oldest first and ending
   * today; a day without documents has no active users and no hours.
   */
  lemma SeriesShape(days: nat, totalUsers: int, stats: seq<DailyStat>, dateKey: int -> string, n: nat)
    requires n < days
    ensures GrowthSeries(days, totalUsers, dateKey)[n].date == ActiveSeries(days, stats, dateKey)[n].date
      == StudySeries(days, stats, dateKey)[n].date == dateKey(days - 1 - n)
    ensures GrowthSeries(days, totalUsers, dateKey)[days - 1].date == dateKey(0)
    ensures (forall i :: 0 <= i < |stats| ==> stats[i].date != dateKey(days - 1 - n)) ==>
      ActiveSeries(days, stats, dateKey)[n].count == 0 && StudySeries(days, stats, dateKey)[n].count == 0
  {
    assert DaysAgo(days, n) == days - 1 - n && DaysAgo(days, days - 1) == 0;
    var t := Totals(stats, dateKey(days - 1 - n));
    if forall i :: 0 <= i < |stats| ==> stats[i].date != dateKey(days - 1 - n) {
      DatesCarried(stats, dateKey(days - 1 - n));
      UndatedTotalsZero(stats, dateKey(days - 1 - n));
      assert FloorDiv(0, 60) == 0;
    }
  }

  lemma PrefixSnoc<T>(s: seq<T>, n: nat)
    requires n < |s|
    ensures s[..n + 1] == s[..n] + [s[n]]
  {
  }

  /** The countdown loop from `days - 1` days ago to today, filling the three series. */
  method BuildSeries(days: nat, totalUsers: int, stats: seq<DailyStat>, byDate: map<string, DayTotals>, dateKey: int -> string)
    returns (growth: seq<DatedCount>, active: seq<DatedCount>, study: seq<DatedCount>)
    requires forall d :: d in byDate <==> exists i :: 0 <= i < |stats| && stats[i].date == d
    requires forall d :: d in byDate ==> byDate[d] == Totals(stats, d)
    ensures growth == GrowthSeries(days, totalUsers, dateKey)
    ensures active == ActiveSeries(days, stats, dateKey)
    ensures study == StudySeries(days, stats, dateKey)
  {
    growth, active, study := [], [], [];
    var i: int := days - 1;
    while i >= 0
      invariant -1 <= i < days
      invariant |growth| == |active| == |study| == days - 1 - i
      invariant growth == GrowthSeries(days, totalUsers, dateKey)[..days - 1 - i]
      invariant active == ActiveSeries(days, stats, dateKey)[..days - 1 - i]
      invariant study == StudySeries(days, stats, dateKey)[..days - 1 - i]
    {
      var d := dateKey(i);
      DayOfIsTotals(stats, byDate, d);
      var day := DayOf(byDate, d);
      var n := days - 1 - i;
      assert DaysAgo(days, n) == i;
      PrefixSnoc(GrowthSeries(days, totalUsers, dateKey), n);
      PrefixSnoc(ActiveSeries(days, stats, dateKey), n);
      PrefixSnoc(StudySeries(days, stats, dateKey), n);
      growth := growth + [DatedCount(d, GrowthCountAsWritten(totalUsers, days, i))];
      active := active + [DatedCount(d, day.activeUsers)];
      study := study + [DatedCount(d, FloorDiv(day.studyMinutes, 60))];
      i := i - 1;
    }
  }

  // -----------------------------------------------------------------------
  // Room categories
  // -----------------------------------------------------------------------

  /** A room's category; a missing or empty one is `Diğer`. */
  function CategoryOf(c: Option<string>): string {
    Or(c, "Diğer")
  }

  /** How many rooms have category `c`. */
  function Occurrences(cats: seq<Option<string>>, c: string): (n: nat)
    ensures n <= |cats|
  {
    if cats == [] then 0
    else Occurrences(cats[..|cats| - 1], c) + (if CategoryOf(cats[|cats| - 1]) == c then 1 else 0)
  }

  /** The distinct categories in order of first appearance, as the `Map`'s keys are listed. */
  function Categories(cats: seq<Option<string>>): (r: seq<string>)
    ensures forall i, j :: 0 <= i < j < |r| ==> r[i] != r[j]
  {
    if cats == [] then []
    else
      var r := Categories(cats[..|cats| - 1]);
      var c := CategoryOf(cats[|cats| - 1]);
      if c in r then r else r + [c]
  }

  /** A category is listed exactly when some room has it, and then it has at least one room. */
  lemma {:induction false} ListedIffPresent(cats: seq<Option<string>>, c: string)
    ensures c in Categories(cats) <==> exists i :: 0 <= i < |cats| && CategoryOf(cats[i]) == c
    ensures c in Categories(cats) <==> Occurrences(cats, c) > 0
  {
    if cats != [] {
      var p := cats[..|cats| - 1];
      ListedIffPresent(p, c);
      assert forall i :: 0 <= i < |p| ==> p[i] == cats[i];
      if CategoryOf(cats[|cats| - 1]) == c {
        assert CategoryOf(cats[|cats| - 1]) == c;
      }
    }
  }

  /** `[...categoryCount.entries()]`: each category with its room count. */
  function Entries(cats: seq<Option<string>>): (r: seq<CategoryCount>)
    ensures |r| == |Categories(cats)|
  {
    var cs := Categories(cats);
    seq(|cs|, k requires 0 <= k < |cs| => CategoryCount(cs[k], Occurrences(cats, cs[k])))
  }

  /** `categoryCount` after the first `j` rooms: its keys in insertion order and their counts. */
  ghost predicate CountedUpTo(cats: seq<Option<string>>, j: nat, order: seq<string>, counts: map<string, nat>)
    requires j <= |cats|
  {
    && order == Categories(cats[..j])
    && (forall c :: c in counts <==> c in order)
    && (forall c :: c in counts ==> counts[c] == Occurrences(cats[..j], c))
  }

  /** `categoryCount.set(c, (categoryCount.get(c) || 0) + 1)` for the next room. */
  lemma CountNext(cats: seq<Option<string>>, j: nat, order: seq<string>, counts: map<string, nat>)
    requires j < |cats| && CountedUpTo(cats, j, order, counts)
    ensures var c := CategoryOf(cats[j]);
      if c in counts then CountedUpTo(cats, j + 1, order, counts[c := counts[c] + 1])
      else CountedUpTo(cats, j + 1, order + [c], counts[c := 1])
  {
    var c := CategoryOf(cats[j]);
    var p := cats[..j];
    assert cats[..j + 1] == p + [cats[j]];
    CategoriesAfter(p, cats[j]);
    var counts' := if c in counts then counts[c := counts[c] + 1] else counts[c := 1];
    if c !in counts {
      ListedIffPresent(p, c);
    }
    forall x | x in counts'
      ensures counts'[x] == Occurrences(p + [cats[j]], x)
    {
      OccurrencesAfter(p, cats[j], x);
    }
  }

  /** `categoryCount`: a `Map` from category to room count, kept as its insertion order and its counts. */
  method CountByCategory(cats: seq<Option<string>>) returns (order: seq<string>, counts: map<string, nat>)
    ensures CountedUpTo(cats, |cats|, order, counts)
  {
    order, counts := [], map[];
    var j := 0;
    while j < |cats|
      invariant j <= |cats|
      invariant CountedUpTo(cats, j, order, counts)
    {
      var c := CategoryOf(cats[j]);
      CountNext(cats, j, order, counts);
      if c in counts {
        counts := counts[c := counts[c] + 1];
      } else {
        order := order + [c];
        counts := counts[c := 1];
      }
      j := j + 1;
    }
  }

  /** `Array.from(categoryCount.entries())`: each category with its room count, in insertion order. */
  method CountCategories(cats: seq<Option<string>>) returns (entries: seq<CategoryCount>)
    ensures entries == Entries(cats)
  {
    var order, counts := CountByCategory(cats);
    assert cats[..|cats|] == cats;
    entries := seq(|order|, k requires 0 <= k < |order| => CategoryCount(order[k], counts[order[k]]));
  }

  /** One more room: its category is listed after the others when it is new. */
  lemma CategoriesAfter(p: seq<Option<string>>, room: Option<string>)
    ensures var c := CategoryOf(room);
      Categories(p + [room]) == (if c in Categories(p) then Categories(p) else Categories(p) + [c])
  {
    assert (p + [room])[..|p|] == p;
  }

  /** One more room: the count of its category goes up by one, every other count stays. */
  lemma OccurrencesAfter(p: seq<Option<string>>, room: Option<string>, c: string)
    ensures Occurrences(p + [room], c) == Occurrences(p, c) + (if CategoryOf(room) == c then 1 else 0)
  {
    assert (p + [room])[..|p|] == p;
  }

  /** How often `c` is listed in `cs`. */
  function CountIn(cs: seq<string>, c: string): nat {
    if cs == [] then 0 else (if cs[0] == c then 1 else 0) + CountIn(cs[1..], c)
  }

  /** The room counts of the categories in `cs`, summed. */
  function SumOccurrences(cs: seq<string>, cats: seq<Option<string>>): nat {
    if cs == [] then 0 else Occurrences(cats, cs[0]) + SumOccurrences(cs[1..], cats)
  }

  lemma {:induction false} SumAfterRoom(cs: seq<string>, p: seq<Option<string>>, room: Option<string>)
    ensures SumOccurrences(cs, p + [room]) == SumOccurrences(cs, p) + CountIn(cs, CategoryOf(room))
  {
    if cs != [] {
      SumAfterRoom(cs[1..], p, room);
      assert (p + [room])[..|p|] == p;
    }
  }

  lemma {:induction false} SumAfterCategory(cs: seq<string>, c: string, cats: seq<Option<string>>)
    ensures SumOccurrences(cs + [c], cats) == SumOccurrences(cs, cats) + Occurrences(cats, c)
  {
    if cs != [] {
      SumAfterCategory(cs[1..], c, cats);
      assert (cs + [c])[1..] == cs[1..] + [c];
    }
  }

  lemma {:induction false} CountInDistinct(cs: seq<string>, c: string)
    requires forall i, j :: 0 <= i < j < |cs| ==> cs[i] != cs[j]
    ensures CountIn(cs, c) == if c in cs then 1 else 0
  {
    if cs != [] {
      CountInDistinct(cs[1..], c);
      if cs[0] == c {
        assert c !in cs[1..];
      }
    }
  }

  /** Every room is counted exactly once: the category counts add up to the number of rooms. */
  lemma {:induction false} CountsCoverRooms(cats: seq<Option<string>>)
    ensures SumOccurrences(Categories(cats), cats) == |cats|
  {
    if cats != [] {
      var p := cats[..|cats| - 1];
      var room := cats[|cats| - 1];
      var c := CategoryOf(room);
      var cs := Categories(p);
      assert cats == p + [room];
      CountsCoverRooms(p);
      SumAfterRoom(cs, p, room);
      CountInDistinct(cs, c);
      if c !in cs {
        SumAfterCategory(cs, c, cats);
        ListedIffPresent(p, c);
      }
    }
  }

  /** The sort key: the room count. */
  function ByCount(e: CategoryCount): int {
    e.count
  }

  /** `.sort(by count, descending).slice(0, 5)` */
  function TopCategories(entries: seq<CategoryCount>): (r: seq<CategoryCount>)
    ensures |r| == Min(5, |entries|)
    ensures SortedDesc(r, ByCount)
    ensures forall i :: 0 <= i < |r| ==> r[i] in entries
  {
    var sorted := SortDesc(entries, ByCount);
    var r := sorted[..Min(5, |entries|)];
    assert forall i :: 0 <= i < |r| ==> r[i] == sorted[i] && sorted[i] in multiset(entries);
    r
  }

  /** No category left out of the five has more rooms than any category kept. */
  lemma TopCategoriesAreLargest(entries: seq<CategoryCount>, x: CategoryCount)
    requires x in entries && x !in TopCategories(entries)
    ensures forall i :: 0 <= i < |TopCategories(entries)| ==> TopCategories(entries)[i].count >= x.count
  {
    var sorted := SortDesc(entries, ByCount);
    assert x in multiset(sorted);
    TakeIsLargest(sorted, ByCount, Min(5, |entries|), x);
  }

  // -----------------------------------------------------------------------
  // GET
  // -----------------------------------------------------------------------

  /** The cached charts for a `days`-long range. */
  function Body(days: nat, totalUsers: int, stats: seq<DailyStat>, cats: seq<Option<string>>, dateKey: int -> string): Analytics {
    Analytics(GrowthSeries(days, totalUsers, dateKey), StudySeries(days, stats, dateKey),
      ActiveSeries(days, stats, dateKey), TopCategories(Entries(cats)))
  }

  /**
   * GET `?range=` (default `30d`): 401/403 from the admin gate, otherwise
   * the charts, from the cache when a live entry exists; a cached answer
   * carries no `fromCache` flag. `collection` is the `daily_stats`
   * collection, `dayOf` the day a date key names and `startDay(days)` the
   * day `days` days before today; `rooms` the categories of the first 500
   * rooms.
   */
  method Get(cache: SmartCache<Payload>, env: Option<string>, header: Option<string>, verify: string -> TokenCheck,
             range: Option<string>, now: int, collection: seq<DailyStat>, dayOf: string -> int,
             startDay: nat -> int, totalUsers: int, rooms: seq<Option<string>>, dateKey: int -> string)
    returns (r: Response<Payload>)
    modifies cache
    ensures var gate := AdminGate(env, header, verify);
      gate.Err? ==> r == Err(gate.status, gate.error) && cache.entries == old(cache.entries)
    ensures var gate := AdminGate(env, header, verify);
      var rg := Or(range, "30d");
      var days := RangeDays(rg);
      var stats := DailyQuery(collection, dayOf, startDay(days), days);
      var body := AnalyticsData(Body(days, totalUsers, stats, rooms, dateKey));
      gate.Ok? ==> (r == Ok(Serve(old(cache.entries), CacheKey(rg), now, 10, body).0.payload)
        && cache.entries == Serve(old(cache.entries), CacheKey(rg), now, 10, body).1)
  {
    var gate := AdminGate(env, header, verify);
    if gate.Err? {
      return Err(gate.status, gate.error);
    }
    var rg := Or(range, "30d");
    var days := RangeDays(rg);
    var stats := DailyQuery(collection, dayOf, startDay(days), days);
    var byDate := Aggregate(stats);
    var growth, active, study := BuildSeries(days, totalUsers, stats, byDate, dateKey);
    var entries := CountCategories(rooms);
    var body := AnalyticsData(Analytics(growth, study, active, TopCategories(entries)));
    var served := CachedFetch(cache, CacheKey(rg), now, 10, body);
    r := Ok(served.payload);
  }
}
