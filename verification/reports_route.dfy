/**
 * `/api/admin/reports`: the legacy `reports` collection. GET lists it by
 * status; PATCH resolves, rejects or deletes one report. Both sit behind
 * the admin gate.
 */
module ReportsRoute {
  import opened Common
  import opened TtlCache
  import opened AdminAuth
  import opened RequestAuth
  import opened Records
  import opened Listing

  /** The status a list is restricted to; `all` restricts nothing. */
  function StatusFilter(status: string): (f: Option<string>)
    ensures f.None? <==> status == "all"
    ensures f.Some? ==> f.value == status
  {
    if status != "all" then Some(status) else None
  }

  /** `reports_{status}_{page}_{limit}` */
  function CacheKey(status: string, page: int, limit: int): string {
    "reports_" + status + "_" + IntToString(page) + "_" + IntToString(limit)
  }

  /** `{ reports, totalReports, currentPage, totalPages }`: the documents are passed through as stored. */
  function Body(results: seq<ReportDoc>, page: int, limit: int): (r: Page<ReportDoc>)
    requires page >= 1 && limit >= 1
    ensures r.total == |results| && r.currentPage == page && r.totalPages == TotalPages(|results|, limit)
    ensures |r.items| <= limit
    ensures forall i :: 0 <= i < |r.items| ==> Offset(page, limit) + i < |results| && r.items[i] == results[Offset(page, limit) + i]
    ensures r.items != [] ==> page <= r.totalPages
  {
    var docs := PageOf(results, page, limit);
    var r := Page(docs, |results|, page, TotalPages(|results|, limit));
    if docs == [] then r else NonEmptyPageWithinTotal(results, page, limit); r
  }

  /** GET: 401/403 from the admin gate, otherwise the page, cached for 2 minutes. */
  method Get(cache: SmartCache<Payload>, env: Option<string>, header: Option<string>, verify: string -> TokenCheck,
             status: Option<string>, page: int, limit: int, now: int, run: Option<string> -> seq<ReportDoc>)
    returns (r: Response<Served>)
    requires page >= 1 && limit >= 1
    modifies cache
    ensures var gate := AdminGate(env, header, verify);
      gate.Err? ==> r == Err(gate.status, gate.error) && cache.entries == old(cache.entries)
    ensures var gate := AdminGate(env, header, verify);
      var key := CacheKey(Or(status, "all"), page, limit);
      var body := ReportsList(Body(run(StatusFilter(Or(status, "all"))), page, limit));
      gate.Ok? ==> (r == Ok(Serve(old(cache.entries), key, now, 2, body).0)
        && cache.entries == Serve(old(cache.entries), key, now, 2, body).1)
  {
    var gate := AdminGate(env, header, verify);
    if gate.Err? {
      return Err(gate.status, gate.error);
    }
    var s := Or(status, "all");
    var key := CacheKey(s, page, limit);
    var served := CachedFetch(cache, key, now, 2, ReportsList(Body(run(StatusFilter(s)), page, limit)));
    r := Ok(served);
  }

  /** The writes PATCH issues. */
  datatype ReportOp =
    | CloseReport(reportId: string, status: string, resolvedAt: int, resolvedBy: string, notes: string)
    | DeleteReport(reportId: string)

  /**
   * PATCH `{ reportId, action, adminId, notes }` once the admin gate has
   * answered `gate`, where `stored` is what reading the report answered
   * (None when it does not exist): 400 without an id or an action, 404 for
   * a missing report, 400 for an unknown action, otherwise the one write
   * for the action. The report's current status is never looked at.
   */
  function Patch(gate: Response<AdminUser>,
                 reportId: Option<string>, action: Option<string>, adminId: Option<string>, notes: Option<string>,
                 stored: Option<ReportDoc>, now: int)
    : (r: Response<seq<ReportOp>>)
    ensures gate.Err? ==> r == Err(gate.status, gate.error)
    ensures gate.Ok? ==> (r == Err(400, "Missing reportId or action") <==> !Truthy(reportId) || !Truthy(action))
    ensures gate.Ok? ==> ((r.Err? && r.status == 404) <==> Truthy(reportId) && Truthy(action) && stored.None?)
    ensures gate.Ok? ==> (r.Ok? <==> (Truthy(reportId) && stored.Some?
      && action.Some? && action.value in {"resolve", "reject", "delete"}))
    ensures r.Ok? && action.value == "resolve" ==>
      r.body == [CloseReport(reportId.value, "resolved", now, Or(adminId, "admin"), Or(notes, ""))]
    ensures r.Ok? && action.value == "reject" ==>
      r.body == [CloseReport(reportId.value, "rejected", now, Or(adminId, "admin"), Or(notes, ""))]
    ensures r.Ok? && action.value == "delete" ==> r.body == [DeleteReport(reportId.value)]
  {
    if gate.Err? then Err(gate.status, gate.error)
    else if !Truthy(reportId) || !Truthy(action) then Err(400, "Missing reportId or action")
    else if stored.None? then Err(404, "Report not found")
    else
      var id := reportId.value;
      match action.value
      case "resolve" => Ok([CloseReport(id, "resolved", now, Or(adminId, "admin"), Or(notes, ""))])
      case "reject" => Ok([CloseReport(id, "rejected", now, Or(adminId, "admin"), Or(notes, ""))])
      case "delete" => Ok([DeleteReport(id)])
      case _ => Err(400, "Invalid action")
  }

  /**
   * Only existence matters: two stored reports, whatever their statuses,
   * get the same answer and the same writes. A rejected report can be
   * resolved and a resolved one rejected.
   */
  lemma PatchIgnoresCurrentStatus(gate: Response<AdminUser>,
                                  reportId: Option<string>, action: Option<string>, adminId: Option<string>, notes: Option<string>,
                                  d1: ReportDoc, d2: ReportDoc, now: int)
    ensures Patch(gate, reportId, action, adminId, notes, Some(d1), now)
         == Patch(gate, reportId, action, adminId, notes, Some(d2), now)
  {
  }
}
