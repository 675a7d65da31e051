/**
 * `/api/admin/dashboard/recent-reports` and `/recent-users`: the five
 * newest reports and the five newest users, with missing fields defaulted,
 * each cached for 2 minutes behind the admin gate.
 *
 * `orderBy('createdAt', 'desc').limit(5)` is modelled over the whole
 * collection: documents without `createdAt` are left out, the rest are
 * sorted newest first and the first five kept.
 */
module DashboardRecent {
  import opened Common
  import opened TtlCache
  import opened AdminAuth
  import opened RequestAuth
  import opened Records
  import opened Listing
  import opened Sorting

  /** How many documents each list shows. */
  const RecentLimit: nat := 5

  predicate ReportHasCreated(d: ReportDoc) {
    d.createdAt.Some?
  }

  function ReportCreated(d: ReportDoc): int {
    if d.createdAt.Some? then d.createdAt.value else 0
  }

  predicate UserHasCreated(d: UserDoc) {
    d.createdAt.Some?
  }

  function UserCreated(d: UserDoc): int {
    if d.createdAt.Some? then d.createdAt.value else 0
  }

  /** One recent-report row: anonymous reporter, unknown user, `user` type and `pending` status by default. */
  function ReportRow(d: ReportDoc): (r: RecentReportDto)
    ensures r.id == d.id && r.createdAt == d.createdAt
    ensures r.reporterName == Or(d.reporterName, "Anonim") && r.reporterName != ""
    ensures r.reportedUserName == Or(d.reportedUserName, "Bilinmeyen") && r.reportedUserName != ""
    ensures r.reportType == Or(d.reportType, "user") && r.reportType != ""
    ensures r.reason == Or(d.reason, "")
    ensures r.status == Or(d.status, "pending") && r.status != ""
  {
    RecentReportDto(d.id, Or(d.reporterName, "Anonim"), Or(d.reportedUserName, "Bilinmeyen"),
      Or(d.reportType, "user"), Or(d.reason, ""), Or(d.status, "pending"), OrDate(d.createdAt, None))
  }

  /** One recent-user row: `Unnamed`, no email, no photo and not premium by default. */
  function UserRow(d: UserDoc): (r: RecentUserDto)
    ensures r.id == d.id && r.createdAt == d.createdAt
    ensures r.displayName == Or(d.displayName, "Unnamed") && r.displayName != ""
    ensures r.email == Or(d.email, "")
    ensures r.photoURL.Some? <==> Truthy(d.photoURL)
    ensures r.photoURL.Some? ==> r.photoURL == d.photoURL
    ensures r.isPremium <==> d.isPremium == Some(true)
  {
    RecentUserDto(d.id, Or(d.displayName, "Unnamed"), Or(d.email, ""),
      if Truthy(d.photoURL) then d.photoURL else None, OrFalse(d.isPremium), OrDate(d.createdAt, None))
  }

  /** The recent-reports body: the rows of the five newest reports, newest first. */
  function ReportsBody(reports: seq<ReportDoc>): (r: seq<RecentReportDto>)
    ensures |r| == Min(RecentLimit, |Keep(reports, ReportHasCreated)|)
    ensures forall i :: 0 <= i < |r| ==> r[i] == ReportRow(Newest(reports, ReportHasCreated, ReportCreated, RecentLimit)[i])
  {
    var docs := Newest(reports, ReportHasCreated, ReportCreated, RecentLimit);
    seq(|docs|, i requires 0 <= i < |docs| => ReportRow(docs[i]))
  }

  /** The recent-users body: the rows of the five newest users, newest first. */
  function UsersBody(users: seq<UserDoc>): (r: seq<RecentUserDto>)
    ensures |r| == Min(RecentLimit, |Keep(users, UserHasCreated)|)
    ensures forall i :: 0 <= i < |r| ==> r[i] == UserRow(Newest(users, UserHasCreated, UserCreated, RecentLimit)[i])
  {
    var docs := Newest(users, UserHasCreated, UserCreated, RecentLimit);
    seq(|docs|, i requires 0 <= i < |docs| => UserRow(docs[i]))
  }

  /** The rows come newest first, and none is older than a dated report left off the list. */
  lemma ReportsNewestFirst(reports: seq<ReportDoc>, d: ReportDoc)
    requires d in reports && d.createdAt.Some?
    requires d !in Newest(reports, ReportHasCreated, ReportCreated, RecentLimit)
    ensures var rows := ReportsBody(reports);
      forall i :: 0 <= i < |rows| ==> rows[i].createdAt.Some? && rows[i].createdAt.value >= d.createdAt.value
    ensures var rows := ReportsBody(reports);
      forall i, j :: 0 <= i < j < |rows| ==> rows[i].createdAt.value >= rows[j].createdAt.value
  {
    var docs := Newest(reports, ReportHasCreated, ReportCreated, RecentLimit);
    NewestAreNewest(reports, ReportHasCreated, ReportCreated, RecentLimit, d);
    assert forall i :: 0 <= i < |docs| ==> docs[i] in docs;
  }

  /** GET recent-reports: 401/403 from the admin gate, otherwise the rows, cached for 2 minutes. */
  method GetRecentReports(cache: SmartCache<Payload>, env: Option<string>, header: Option<string>,
                          verify: string -> TokenCheck, now: int, reports: seq<ReportDoc>)
    returns (r: Response<Served>)
    modifies cache
    ensures var gate := AdminGate(env, header, verify);
      gate.Err? ==> r == Err(gate.status, gate.error) && cache.entries == old(cache.entries)
    ensures var gate := AdminGate(env, header, verify);
      var body := RecentReports(ReportsBody(reports));
      gate.Ok? ==> (r == Ok(Serve(old(cache.entries), "dashboard_recent_reports", now, 2, body).0)
        && cache.entries == Serve(old(cache.entries), "dashboard_recent_reports", now, 2, body).1)
  {
    var gate := AdminGate(env, header, verify);
    if gate.Err? {
      return Err(gate.status, gate.error);
    }
    var served := CachedFetch(cache, "dashboard_recent_reports", now, 2, RecentReports(ReportsBody(reports)));
    r := Ok(served);
  }

  /** GET recent-users: 401/403 from the admin gate, otherwise the rows, cached for 2 minutes. */
  method GetRecentUsers(cache: SmartCache<Payload>, env: Option<string>, header: Option<string>,
                        verify: string -> TokenCheck, now: int, users: seq<UserDoc>)
    returns (r: Response<Served>)
    modifies cache
    ensures var gate := AdminGate(env, header, verify);
      gate.Err? ==> r == Err(gate.status, gate.error) && cache.entries == old(cache.entries)
    ensures var gate := AdminGate(env, header, verify);
      var body := RecentUsers(UsersBody(users));
      gate.Ok? ==> (r == Ok(Serve(old(cache.entries), "dashboard_recent_users", now, 2, body).0)
        && cache.entries == Serve(old(cache.entries), "dashboard_recent_users", now, 2, body).1)
  {
    var gate := AdminGate(env, header, verify);
    if gate.Err? {
      return Err(gate.status, gate.error);
    }
    var served := CachedFetch(cache, "dashboard_recent_users", now, 2, RecentUsers(UsersBody(users)));
    r := Ok(served);
  }
}
