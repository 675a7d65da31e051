/**
 * `/api/admin/premium/analytics`: premium subscriptions per calendar month
 * for the last `months` months, with the revenue they bring.
 *
 * Months are counted as one integer, `12 * year + monthOfYear` with the
 * month of year from 0; the calendar month a timestamp falls in, and the
 * short Turkish month names, come in as parameters (`monthOf`, `monthName`).
 * The current date is `nowMonth` and its day of month `nowDay`.
 */
module PremiumAnalytics {
  import opened Common
  import opened AdminAuth
  import opened RequestAuth
  import opened Records
  import PremiumRoute

  /** `months` when given, else 6. */
  function MonthsParam(p: Option<int>): (n: int)
    ensures p.None? ==> n == 6
    ensures p.Some? ==> n == p.value
  {
    if p.Some? then p.value else 6
  }

  /** The number of days in month `m`, with the Gregorian leap years. */
  function DaysInMonth(m: int): (n: int)
    ensures 28 <= n <= 31
  {
    var y, k := m / 12, m % 12;
    if k == 1 then (if (y % 4 == 0 && y % 100 != 0) || y % 400 == 0 then 29 else 28)
    else if k == 3 || k == 5 || k == 8 || k == 10 then 30
    else 31
  }

  /**
   * `setMonth(target)` on a date whose day of month is `day`: the day is
   * kept, so a day past the end of the target month runs on into the next.
   */
  function SetMonth(target: int, day: int): (m: int)
    requires 1 <= day <= 31
    ensures target <= m <= target + 1
    ensures m == target <==> day <= DaysInMonth(target)
  {
    if day <= DaysInMonth(target) then target else target + 1
  }

  /** The day is kept when it exists in the target month, and runs on when it does not. */
  lemma SetMonthRollsOver()
    ensures SetMonth(12 * 2024 + 10, 31) == 12 * 2024 + 11
    ensures SetMonth(12 * 2024 + 10, 30) == 12 * 2024 + 10
    ensures SetMonth(12 * 2024 + 1, 29) == 12 * 2024 + 1
    ensures SetMonth(12 * 2025 + 1, 29) == 12 * 2025 + 2
    ensures SetMonth(12 * 2000 + 1, 29) == 12 * 2000 + 1
    ensures SetMonth(12 * 1900 + 1, 29) == 12 * 1900 + 2
  {
  }

  /** The `i`-th month of the range, oldest first; the last one is the current month. */
  function CalendarMonth(nowMonth: int, months: int, i: int): int {
    nowMonth - (months - 1 - i)
  }

  /** The `i`-th bucket's month: `now` moved back by `setMonth`, keeping the day of month. */
  function BucketMonth(nowMonth: int, nowDay: int, months: int, i: int): int
    requires 1 <= nowDay <= 31
  {
    SetMonth(CalendarMonth(nowMonth, months, i), nowDay)
  }

  /** The bucket months in the loop's order; each is its calendar month or the one after. */
  function BucketMonths(nowMonth: int, nowDay: int, months: nat): (ms: seq<int>)
    requires 1 <= nowDay <= 31
    ensures |ms| == months
    ensures forall i :: 0 <= i < months ==>
      CalendarMonth(nowMonth, months, i) <= ms[i] <= CalendarMonth(nowMonth, months, i) + 1
  {
    seq(months, i requires 0 <= i < months => BucketMonth(nowMonth, nowDay, months, i))
  }

  /** The months of the range: consecutive, ending with the current month. */
  function CalendarMonths(nowMonth: int, months: nat): (ms: seq<int>)
    ensures |ms| == months
    ensures months > 0 ==> ms[months - 1] == nowMonth
    ensures forall i :: 0 < i < months ==> ms[i] == ms[i - 1] + 1
  {
    seq(months, i requires 0 <= i < months => CalendarMonth(nowMonth, months, i))
  }

  /** `YYYY-MM` with a zero-padded month number from 01 to 12. */
  function MonthKey(m: int): (k: string)
    ensures |k| >= 4 && k[|k| - 3] == '-'
  {
    IntToString(m / 12) + "-" + Pad2(m % 12 + 1)
  }

  /** Distinct months never share a bucket key. */
  lemma MonthKeyInjective(a: int, b: int)
    requires MonthKey(a) == MonthKey(b)
    ensures a == b
  {
    var ka, kb := MonthKey(a), MonthKey(b);
    assert ka[..|ka| - 3] == IntToString(a / 12);
    assert kb[..|kb| - 3] == IntToString(b / 12);
    IntToStringInjective(a / 12, b / 12);
    assert ka[|ka| - 2..] == Pad2(a % 12 + 1);
    assert kb[|kb| - 2..] == Pad2(b % 12 + 1);
    Pad2Injective(a % 12 + 1, b % 12 + 1);
  }

  /** One month's counters. */
  datatype Bucket = Bucket(revenue: int, subscriptions: nat, monthly: nat, yearly: nat)

  /** One chart point: the month's short name and its counters. */
  datatype ChartEntry = ChartEntry(month: string, revenue: int, subscriptions: nat, monthly: nat, yearly: nat)

  /** The month key a user's subscription start falls in, if it has one. */
  function StartKey(u: UserDoc, monthOf: int -> int): Option<string> {
    if u.premiumStartedAt.Some? then Some(MonthKey(monthOf(u.premiumStartedAt.value))) else None
  }

  /**
   * Adds one user to a bucket: a missing plan type counts as monthly, and
   * every type other than `monthly` counts as yearly.
   */
  function AddUser(b: Bucket, u: UserDoc): Bucket {
    if Or(u.premiumType, "monthly") == "monthly" then
      Bucket(b.revenue + PremiumRoute.MonthlyPrice, b.subscriptions + 1, b.monthly + 1, b.yearly)
    else
      Bucket(b.revenue + PremiumRoute.YearlyPrice, b.subscriptions + 1, b.monthly, b.yearly + 1)
  }

  /**
   * The counters of the bucket keyed `key` after the users in order. Every
   * bucket splits its subscriptions into the two plans and earns 29 per
   * monthly and 200 per yearly one.
   */
  function Tally(users: seq<UserDoc>, key: string, monthOf: int -> int): (b: Bucket)
    ensures b.subscriptions == b.monthly + b.yearly
    ensures b.revenue == PremiumRoute.MonthlyPrice * b.monthly + PremiumRoute.YearlyPrice * b.yearly
    ensures b.subscriptions <= |users|
  {
    if users == [] then Bucket(0, 0, 0, 0)
    else
      var b := Tally(users[..|users| - 1], key, monthOf);
      var u := users[|users| - 1];
      if StartKey(u, monthOf) == Some(key) then AddUser(b, u) else b
  }

  /** A user without a start date, or starting in another month, leaves a bucket alone. */
  lemma TallyIgnores(users: seq<UserDoc>, u: UserDoc, key: string, monthOf: int -> int)
    requires StartKey(u, monthOf) != Some(key)
    ensures Tally(users + [u], key, monthOf) == Tally(users, key, monthOf)
  {
    assert (users + [u])[..|users|] == users;
  }

  /** The chart entry of month `m`: its short name and the tally of its key. */
  function Entry(users: seq<UserDoc>, m: int, monthOf: int -> int, monthName: int -> string): (e: ChartEntry)
    ensures e.month == monthName(m % 12)
    ensures e.subscriptions == e.monthly + e.yearly && e.revenue == 29 * e.monthly + 200 * e.yearly
  {
    var b := Tally(users, MonthKey(m), monthOf);
    ChartEntry(monthName(m % 12), b.revenue, b.subscriptions, b.monthly, b.yearly)
  }

  /** One entry per month of `ms`, in order. */
  function ChartOf(users: seq<UserDoc>, ms: seq<int>, monthOf: int -> int, monthName: int -> string)
    : (c: seq<ChartEntry>)
    ensures |c| == |ms|
    ensures forall i :: 0 <= i < |ms| ==> c[i] == Entry(users, ms[i], monthOf, monthName)
  {
    seq(|ms|, i requires 0 <= i < |ms| => Entry(users, ms[i], monthOf, monthName))
  }

  /**
   * The chart as served: one entry per distinct bucket key, in the order
   * the keys were first added. Two buckets that roll over into the same
   * month share one entry, so the chart can be shorter than the range.
   */
  function Chart(users: seq<UserDoc>, nowMonth: int, nowDay: int, months: nat, monthOf: int -> int,
                 monthName: int -> string): (c: seq<ChartEntry>)
    requires 1 <= nowDay <= 31
    ensures |c| <= months
    ensures |c| == |Distinct(BucketMonths(nowMonth, nowDay, months))|
  {
    ChartOf(users, Distinct(BucketMonths(nowMonth, nowDay, months)), monthOf, monthName)
  }

  /** The chart the range evidently means: one entry per calendar month, oldest first. */
  function ChartFixed(users: seq<UserDoc>, nowMonth: int, months: nat, monthOf: int -> int, monthName: int -> string)
    : (c: seq<ChartEntry>)
    ensures |c| == months
    ensures forall i :: 0 <= i < months ==> c[i] == Entry(users, CalendarMonths(nowMonth, months)[i], monthOf, monthName)
  {
    ChartOf(users, CalendarMonths(nowMonth, months), monthOf, monthName)
  }

  /** The months of the range are distinct. */
  lemma CalendarMonthsDistinct(nowMonth: int, months: nat)
    ensures var ms := CalendarMonths(nowMonth, months); forall i, j :: 0 <= i < j < |ms| ==> ms[i] != ms[j]
  {
    var ms := CalendarMonths(nowMonth, months);
    forall i, j | 0 <= i < j < |ms| ensures ms[i] != ms[j] {
      assert ms[i] == CalendarMonth(nowMonth, months, i);
      assert ms[j] == CalendarMonth(nowMonth, months, j);
    }
  }

  /** The served chart always holds the current month, and only months of the range. */
  lemma ChartHoldsCurrentMonth(nowMonth: int, nowDay: int, months: nat)
    requires 1 <= nowDay <= DaysInMonth(nowMonth) && months > 0
    ensures nowMonth in Distinct(BucketMonths(nowMonth, nowDay, months))
    ensures forall m :: m in Distinct(BucketMonths(nowMonth, nowDay, months)) ==> nowMonth - months < m <= nowMonth
  {
    var ms := BucketMonths(nowMonth, nowDay, months);
    DistinctMembers(ms);
    assert ms[months - 1] == SetMonth(nowMonth, nowDay) == nowMonth;
    forall m | m in Distinct(ms) ensures nowMonth - months < m <= nowMonth {
      var i :| 0 <= i < months && ms[i] == m;
    }
  }

  /** Up to the 28th of a month every bucket is its own calendar month, so the served chart is the intended one. */
  lemma EarlyInMonthShowsEveryMonth(users: seq<UserDoc>, nowMonth: int, nowDay: int, months: nat,
                                    monthOf: int -> int, monthName: int -> string)
    requires 1 <= nowDay <= 28
    ensures Chart(users, nowMonth, nowDay, months, monthOf, monthName) == ChartFixed(users, nowMonth, months, monthOf, monthName)
  {
    var ms, cs := BucketMonths(nowMonth, nowDay, months), CalendarMonths(nowMonth, months);
    forall i | 0 <= i < months ensures ms[i] == cs[i] {
      assert ms[i] == SetMonth(CalendarMonth(nowMonth, months, i), nowDay);
    }
    assert ms == cs;
    CalendarMonthsDistinct(nowMonth, months);
    DistinctKeeps(cs);
  }

  /**
   * On 31 March 2025 with six months, November and February roll over into
   * the next month: the chart has four entries instead of six.
   */
  lemma MonthEndLosesMonths(users: seq<UserDoc>, monthOf: int -> int, monthName: int -> string)
    ensures |Chart(users, 12 * 2025 + 2, 31, 6, monthOf, monthName)| == 4
    ensures |ChartFixed(users, 12 * 2025 + 2, 6, monthOf, monthName)| == 6
  {
    var ms := BucketMonths(12 * 2025 + 2, 31, 6);
    var oct, dec, jan, mar := 12 * 2024 + 9, 12 * 2024 + 11, 12 * 2025, 12 * 2025 + 2;
    MonthEndBuckets();
    assert (set m | m in ms) == {oct, dec, jan, mar};
    DistinctCount(ms);
  }

  /** The bucket months on 31 March 2025 with six months: October, December twice, January, March twice. */
  lemma MonthEndBuckets()
    ensures BucketMonths(12 * 2025 + 2, 31, 6)
      == [12 * 2024 + 9, 12 * 2024 + 11, 12 * 2024 + 11, 12 * 2025, 12 * 2025 + 2, 12 * 2025 + 2]
  {
    var ms := BucketMonths(12 * 2025 + 2, 31, 6);
    var oct, dec, jan, mar := 12 * 2024 + 9, 12 * 2024 + 11, 12 * 2025, 12 * 2025 + 2;
    assert ms[0] == oct by { assert DaysInMonth(oct) == 31; }
    assert ms[1] == dec by { assert DaysInMonth(oct + 1) == 30; }
    assert ms[2] == dec by { assert DaysInMonth(dec) == 31; }
    assert ms[3] == jan by { assert DaysInMonth(jan) == 31; }
    assert ms[4] == mar by { assert DaysInMonth(jan + 1) == 28; }
    assert ms[5] == mar by { assert DaysInMonth(mar) == 31; }
  }

  /** The keys of the months, in order. */
  function KeysOf(order: seq<int>): (ks: seq<string>)
    ensures |ks| == |order|
    ensures forall i :: 0 <= i < |order| ==> ks[i] == MonthKey(order[i])
  {
    seq(|order|, i requires 0 <= i < |order| => MonthKey(order[i]))
  }

  /** A month whose key is among the keys of `order` is in `order`. */
  lemma KeyFound(order: seq<int>, m: int)
    requires MonthKey(m) in KeysOf(order)
    ensures m in order
  {
    var i :| 0 <= i < |order| && KeysOf(order)[i] == MonthKey(m);
    MonthKeyInjective(order[i], m);
  }

  /** One zeroed bucket per month of `order`. */
  function Zeroed(order: seq<int>): (data: map<string, Bucket>)
    ensures forall k :: k in data <==> k in KeysOf(order)
    ensures forall k :: k in data ==> data[k] == Bucket(0, 0, 0, 0)
  {
    map k | k in KeysOf(order) :: Bucket(0, 0, 0, 0)
  }

  /** Setting the key of `m` adds it to the buckets unless it is there already, in which case `m` is in `order`. */
  lemma ZeroedStep(order: seq<int>, m: int)
    ensures MonthKey(m) in Zeroed(order) <==> m in order
    ensures Zeroed(order)[MonthKey(m) := Bucket(0, 0, 0, 0)] == Zeroed(if m in order then order else order + [m])
  {
    if MonthKey(m) in Zeroed(order) {
      KeyFound(order, m);
    } else {
      assert KeysOf(order + [m]) == KeysOf(order) + [MonthKey(m)];
    }
  }

  /**
   * The initialising loop: one zeroed bucket per month key. `order` is the
   * object's key order, recorded as the months whose key was added first;
   * a key set again keeps its place.
   */
  method InitBuckets(nowMonth: int, nowDay: int, months: int) returns (order: seq<int>, data: map<string, Bucket>)
    requires 1 <= nowDay <= 31
    ensures order == Distinct(BucketMonths(nowMonth, nowDay, Max(months, 0)))
    ensures data == Zeroed(order)
  {
    order, data := [], map[];
    ghost var all := BucketMonths(nowMonth, nowDay, Max(months, 0));
    var i := 0;
    while i < months
      invariant 0 <= i <= Max(months, 0)
      invariant order == Distinct(all[..i])
      invariant data == Zeroed(order)
    {
      var m := BucketMonth(nowMonth, nowDay, months, i);
      var key := MonthKey(m);
      assert all[..i + 1] == all[..i] + [m];
      DistinctSnoc(all[..i], m);
      assert m in order <==> m in all[..i] by { DistinctMembers(all[..i]); }
      ZeroedStep(order, m);
      if key !in data {
        order := order + [m];
      }
      data := data[key := Bucket(0, 0, 0, 0)];
      i := i + 1;
    }
    assert all[..i] == all;
  }

  /** The buckets after one user is counted into the bucket of its start month, when there is one. */
  function Counted(data: map<string, Bucket>, u: UserDoc, monthOf: int -> int): map<string, Bucket> {
    var key := StartKey(u, monthOf);
    if key.Some? && key.value in data then data[key.value := AddUser(data[key.value], u)] else data
  }

  /** The `forEach` callback: a user with a start date whose month has a bucket is added to it. */
  method CountUser(data: map<string, Bucket>, u: UserDoc, monthOf: int -> int) returns (d: map<string, Bucket>)
    ensures d == Counted(data, u, monthOf)
  {
    d := data;
    if u.premiumStartedAt.Some? {
      var key := MonthKey(monthOf(u.premiumStartedAt.value));
      if key in d {
        d := d[key := AddUser(d[key], u)];
      }
    }
  }

  /** Counting one more user keeps every bucket equal to its tally of the users counted so far. */
  lemma CountedTallies(data: map<string, Bucket>, users: seq<UserDoc>, u: UserDoc, monthOf: int -> int)
    requires forall k :: k in data ==> data[k] == Tally(users, k, monthOf)
    ensures Counted(data, u, monthOf).Keys == data.Keys
    ensures forall k :: k in Counted(data, u, monthOf) ==> Counted(data, u, monthOf)[k] == Tally(users + [u], k, monthOf)
  {
    assert (users + [u])[..|users|] == users;
  }

  /** Counts every user into the bucket of its start month, when there is one. */
  method CountUsers(users: seq<UserDoc>, empty: map<string, Bucket>, monthOf: int -> int) returns (data: map<string, Bucket>)
    requires forall k :: k in empty ==> empty[k] == Bucket(0, 0, 0, 0)
    ensures data.Keys == empty.Keys
    ensures forall k :: k in data ==> data[k] == Tally(users, k, monthOf)
  {
    data := empty;
    var j := 0;
    while j < |users|
      invariant j <= |users|
      invariant data.Keys == empty.Keys
      invariant forall k :: k in data ==> data[k] == Tally(users[..j], k, monthOf)
    {
      CountedTallies(data, users[..j], users[j], monthOf);
      assert users[..j] + [users[j]] == users[..j + 1];
      data := CountUser(data, users[j], monthOf);
      j := j + 1;
    }
    assert users[..j] == users;
  }

  /**
   * Builds the buckets, then counts every user into the bucket of its start
   * month, and lists the buckets in the object's key order. Buckets whose
   * months coincide share one key, so the chart has one entry per distinct
   * key.
   */
  method ChartData(users: seq<UserDoc>, nowMonth: int, nowDay: int, months: int, monthOf: int -> int,
                   monthName: int -> string)
    returns (chart: seq<ChartEntry>)
    requires 1 <= nowDay <= 31
    ensures months <= 0 ==> chart == []
    ensures months > 0 ==> chart == Chart(users, nowMonth, nowDay, months, monthOf, monthName)
  {
    var order, empty := InitBuckets(nowMonth, nowDay, months);
    var data := CountUsers(users, empty, monthOf);
    ListedTallies(users, order, data, monthOf, monthName);
    chart := Listed(order, data, monthName);
  }

  /** The `Object.entries(...).map(...)` step: one entry per key of `order`, read from its bucket. */
  function Listed(order: seq<int>, data: map<string, Bucket>, monthName: int -> string): (c: seq<ChartEntry>)
    requires forall k :: 0 <= k < |order| ==> MonthKey(order[k]) in data
    ensures |c| == |order|
  {
    seq(|order|, k requires 0 <= k < |order| =>
      var b := data[MonthKey(order[k])];
      ChartEntry(monthName(order[k] % 12), b.revenue, b.subscriptions, b.monthly, b.yearly))
  }

  /** Listing buckets that hold the tallies of `users` gives the chart of those months. */
  lemma ListedTallies(users: seq<UserDoc>, order: seq<int>, data: map<string, Bucket>, monthOf: int -> int,
                      monthName: int -> string)
    requires data.Keys == Zeroed(order).Keys
    requires forall k :: k in data ==> data[k] == Tally(users, k, monthOf)
    ensures forall k :: 0 <= k < |order| ==> MonthKey(order[k]) in data
    ensures Listed(order, data, monthName) == ChartOf(users, order, monthOf, monthName)
  {
    assert forall k :: 0 <= k < |order| ==> KeysOf(order)[k] in Zeroed(order);
  }

  /** Every chart entry's subscriptions split into its two plans, and its revenue is priced from them. */
  lemma ChartEntriesPriced(users: seq<UserDoc>, nowMonth: int, nowDay: int, months: nat, monthOf: int -> int,
                           monthName: int -> string, i: nat)
    requires 1 <= nowDay <= 31
    requires i < |Chart(users, nowMonth, nowDay, months, monthOf, monthName)|
    ensures var e := Chart(users, nowMonth, nowDay, months, monthOf, monthName)[i];
      e.subscriptions == e.monthly + e.yearly && e.revenue == 29 * e.monthly + 200 * e.yearly
  {
  }

  /**
   * A plan type other than `monthly` and `yearly` is priced as yearly here,
   * while the list's revenue estimate counts it in neither plan.
   */
  lemma OtherPlanTypesDisagree(u: UserDoc, key: string, monthOf: int -> int, p: PremiumDto)
    requires StartKey(u, monthOf) == Some(key) && u.premiumType == Some("lifetime")
    requires p.premiumType == "lifetime"
    ensures Tally([u], key, monthOf).yearly == 1
    ensures PremiumRoute.Revenue([p], 0).yearlySubscribers == 0 && PremiumRoute.Revenue([p], 0).monthlySubscribers == 0
  {
    assert [u][..0] == [];
    assert [p][1..] == [];
  }

  /**
   * GET `?months=`: 401/403 from the admin gate, otherwise the chart.
   * Nothing is cached. Today is `nowMonth`, day `nowDay`.
   */
  method Get(env: Option<string>, header: Option<string>, verify: string -> TokenCheck, monthsParam: Option<int>,
             users: seq<UserDoc>, nowMonth: int, nowDay: int, monthOf: int -> int, monthName: int -> string)
    returns (r: Response<seq<ChartEntry>>)
    requires 1 <= nowDay <= DaysInMonth(nowMonth)
    ensures var gate := AdminGate(env, header, verify);
      gate.Err? ==> r == Err(gate.status, gate.error)
    ensures var gate := AdminGate(env, header, verify);
      var months := MonthsParam(monthsParam);
      gate.Ok? ==> r == Ok(if months <= 0 then [] else Chart(users, nowMonth, nowDay, months, monthOf, monthName))
  {
    var gate := AdminGate(env, header, verify);
    if gate.Err? {
      return Err(gate.status, gate.error);
    }
    var months := MonthsParam(monthsParam);
    var chart := ChartData(users, nowMonth, nowDay, months, monthOf, monthName);
    r := Ok(chart);
  }
}
