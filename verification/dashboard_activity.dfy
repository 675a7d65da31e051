/**
 * `/api/admin/dashboard/activity`: for each of the last seven calendar
 * days, oldest first, how many users were last active on that day and how
 * many signed up on it. Cached for 5 minutes under `dashboard_activity`.
 *
 * The local calendar comes in as parameters: `midnight(i)` is the start of
 * the day `i` days before today (so `midnight(i - 1)` is the start of the
 * day after it), and `dateKey(i)` is the date string shown for that day.
 */
module DashboardActivity {
  import opened Common
  import opened TtlCache
  import opened AdminAuth
  import opened RequestAuth
  import opened Records
  import opened Listing

  /** The two timestamps the day queries filter on. */
  datatype Field = LastActive | Created

  function Stamp(u: UserDoc, f: Field): Option<int> {
    match f
    case LastActive => u.lastActiveAt
    case Created => u.createdAt
  }

  /** `where(f, '>=', lo).where(f, '<', hi)`: a user without the field never matches. */
  predicate InWindow(u: UserDoc, f: Field, lo: int, hi: int) {
    Stamp(u, f).Some? && lo <= Stamp(u, f).value < hi
  }

  /** The `count()` of such a query. */
  function WindowCount(users: seq<UserDoc>, f: Field, lo: int, hi: int): (n: nat)
    ensures n <= |users|
    ensures hi <= lo ==> n == 0
  {
    if users == [] then 0
    else WindowCount(users[..|users| - 1], f, lo, hi) + (if InWindow(users[|users| - 1], f, lo, hi) then 1 else 0)
  }

  /** Two adjacent windows count exactly what the window spanning both counts. */
  lemma {:induction false} WindowSplit(users: seq<UserDoc>, f: Field, a: int, b: int, c: int)
    requires a <= b <= c
    ensures WindowCount(users, f, a, c) == WindowCount(users, f, a, b) + WindowCount(users, f, b, c)
  {
    if users != [] {
      WindowSplit(users[..|users| - 1], f, a, b, c);
    }
  }

  /** The entry for the day `i` days before today: the window from its midnight to the next one. */
  function DayEntry(users: seq<UserDoc>, i: int, midnight: int -> int, dateKey: int -> string): (d: DayActivity) {
    DayActivity(dateKey(i),
      WindowCount(users, LastActive, midnight(i), midnight(i - 1)),
      WindowCount(users, Created, midnight(i), midnight(i - 1)))
  }

  /** The seven entries, oldest first: entry `k` is the day `6 - k` days ago. */
  function Activity(users: seq<UserDoc>, midnight: int -> int, dateKey: int -> string): (days: seq<DayActivity>)
    ensures |days| == 7
    ensures forall k :: 0 <= k < 7 ==> days[k] == DayEntry(users, 6 - k, midnight, dateKey)
  {
    seq(7, k requires 0 <= k < 7 => DayEntry(users, 6 - k, midnight, dateKey))
  }

  /** The loop `for (i = 6; i >= 0; i--)`, pushing one entry per day. */
  method BuildActivity(users: seq<UserDoc>, midnight: int -> int, dateKey: int -> string)
    returns (days: seq<DayActivity>)
    ensures days == Activity(users, midnight, dateKey)
  {
    days := [];
    var i := 6;
    while i >= 0
      invariant -1 <= i <= 6
      invariant |days| == 6 - i
      invariant forall k :: 0 <= k < |days| ==> days[k] == DayEntry(users, 6 - k, midnight, dateKey)
    {
      var active := WindowCount(users, LastActive, midnight(i), midnight(i - 1));
      var joined := WindowCount(users, Created, midnight(i), midnight(i - 1));
      days := days + [DayActivity(dateKey(i), active, joined)];
      i := i - 1;
    }
  }

  /** An entry's active count, or its sign-up count. */
  function FieldOf(d: DayActivity, f: Field): nat {
    if f == LastActive then d.activeUsers else d.newUsers
  }

  /** The entries' active counts, or their sign-up counts, added up. */
  function Total(days: seq<DayActivity>, f: Field): nat {
    if days == [] then 0 else Total(days[..|days| - 1], f) + FieldOf(days[|days| - 1], f)
  }

  /** Adding one more entry to a prefix adds that entry's count. */
  lemma TotalStep(days: seq<DayActivity>, f: Field, n: nat)
    requires 0 < n <= |days|
    ensures Total(days[..n], f) == Total(days[..n - 1], f) + FieldOf(days[n - 1], f)
  {
    assert days[..n][..n - 1] == days[..n - 1];
  }

  /**
   * For seven entries where entry `k` counts the day `6 - k` days ago, the
   * first `n` together count the window from the oldest midnight to the end
   * of their last day.
   */
  lemma {:induction false} PrefixTotal(users: seq<UserDoc>, midnight: int -> int, days: seq<DayActivity>, f: Field, n: nat)
    requires n <= |days| == 7
    requires forall k :: 0 <= k < 7 ==> FieldOf(days[k], f) == WindowCount(users, f, midnight(6 - k), midnight(5 - k))
    requires forall i :: -1 <= i < 6 ==> midnight(i + 1) <= midnight(i)
    ensures Total(days[..n], f) == WindowCount(users, f, midnight(6), midnight(6 - n))
  {
    if n > 0 {
      PrefixTotal(users, midnight, days, f, n - 1);
      TotalStep(days, f, n);
      MidnightsOrdered(midnight, 7 - n, 6);
      MidnightsOrdered(midnight, 6 - n, 7 - n);
      WindowSplit(users, f, midnight(6), midnight(7 - n), midnight(6 - n));
    }
  }

  /** Midnights further back come no later. */
  lemma {:induction false} MidnightsOrdered(midnight: int -> int, i: int, j: int)
    requires -1 <= i <= j <= 6
    requires forall k :: -1 <= k < 6 ==> midnight(k + 1) <= midnight(k)
    ensures midnight(j) <= midnight(i)
    decreases j - i
  {
    if i < j {
      MidnightsOrdered(midnight, i, j - 1);
    }
  }

  /**
   * Each user counts on at most one day for activity (the day of its last
   * activity) and on at most one day for sign-up, so the week's totals
   * never exceed the number of users; they are exactly the users whose
   * stamp falls in the week.
   */
  lemma WeekCountsEachUserOnce(users: seq<UserDoc>, midnight: int -> int, dateKey: int -> string, f: Field)
    requires forall i :: -1 <= i < 6 ==> midnight(i + 1) <= midnight(i)
    ensures Total(Activity(users, midnight, dateKey), f) == WindowCount(users, f, midnight(6), midnight(-1))
    ensures Total(Activity(users, midnight, dateKey), f) <= |users|
  {
    var days := Activity(users, midnight, dateKey);
    PrefixTotal(users, midnight, days, f, 7);
    assert days[..7] == days;
  }

  /** GET: the inline admin check, then the seven days through the cache. */
  method Get(cache: SmartCache<Payload>, env: Option<string>, header: Option<string>, verify: string -> TokenCheck,
             now: int, users: seq<UserDoc>, midnight: int -> int, dateKey: int -> string)
    returns (r: Response<Served>)
    modifies cache
    ensures var gate := InlineAdminCheck(env, header, verify);
      gate.Err? ==> r == Err(gate.status, gate.error) && cache.entries == old(cache.entries)
    ensures var gate := InlineAdminCheck(env, header, verify);
      var body := ActivityData(Activity(users, midnight, dateKey));
      gate.Ok? ==> (r == Ok(Serve(old(cache.entries), "dashboard_activity", now, 5, body).0)
        && cache.entries == Serve(old(cache.entries), "dashboard_activity", now, 5, body).1)
  {
    var gate := InlineAdminCheck(env, header, verify);
    if gate.Err? {
      return Err(gate.status, gate.error);
    }
    var days := BuildActivity(users, midnight, dateKey);
    var served := CachedFetch(cache, "dashboard_activity", now, 5, ActivityData(days));
    r := Ok(served);
  }
}
