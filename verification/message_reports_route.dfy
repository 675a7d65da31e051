/**
 * `/api/admin/message-reports`: the `messageReports` collection. GET lists
 * it by status and room; PATCH sets a report's review status; DELETE
 * removes a report. A successful PATCH or DELETE empties the whole shared
 * cache. All three sit behind the admin gate.
 */
module MessageReportsRoute {
  import opened Common
  import opened TtlCache
  import opened AdminAuth
  import opened RequestAuth
  import opened Records
  import opened Listing

  /** The query: an optional status and an optional room. */
  datatype MessageReportQuery = MessageReportQuery(status: Option<string>, roomId: Option<string>)

  /** `status` other than `all` and a non-empty `roomId` each restrict the query. */
  function Query(status: string, roomId: Option<string>): (q: MessageReportQuery)
    ensures q.status.None? <==> status == "all"
    ensures q.status.Some? ==> q.status.value == status
    ensures q.roomId.Some? <==> Truthy(roomId)
    ensures q.roomId.Some? ==> q.roomId == roomId
  {
    MessageReportQuery(if status != "all" then Some(status) else None, if Truthy(roomId) then roomId else None)
  }

  /** `message_reports_{status}_{page}_{limit}_{roomId or 'all'}` */
  function CacheKey(status: string, page: int, limit: int, roomId: Option<string>): string {
    "message_reports_" + status + "_" + IntToString(page) + "_" + IntToString(limit) + "_" + Or(roomId, "all")
  }

  /** One list row: optional text fields that are empty become null, a missing message list `[]`. */
  function ToDto(d: MessageReportDoc): (r: MessageReportDto)
    ensures r.id == d.id && r.roomId == d.roomId && r.status == d.status && r.reason == d.reason
    ensures r.reportedMessages == (if d.reportedMessages.Some? then d.reportedMessages.value else [])
    ensures r.description.Some? <==> Truthy(d.description)
    ensures r.reviewedBy.Some? <==> Truthy(d.reviewedBy)
    ensures r.adminNotes.Some? <==> Truthy(d.adminNotes)
    ensures r.description.Some? ==> r.description == d.description
    ensures r.reviewedBy.Some? ==> r.reviewedBy == d.reviewedBy
    ensures r.adminNotes.Some? ==> r.adminNotes == d.adminNotes
    ensures r.createdAt == d.createdAt && r.reviewedAt == d.reviewedAt
  {
    MessageReportDto(d.id, d.roomId,
      if d.reportedMessages.Some? then d.reportedMessages.value else [],
      d.reportedUserId, d.reportedUserName, d.reportedUserAvatar,
      d.reporterUserId, d.reporterUserName, d.reporterUserAvatar,
      d.reason, OrNull(d.description), d.status,
      OrDate(d.createdAt, None), OrDate(d.reviewedAt, None),
      OrNull(d.reviewedBy), OrNull(d.adminNotes))
  }

  /** `s || null` */
  function OrNull(s: Option<string>): Option<string> {
    if Truthy(s) then s else None
  }

  /** `{ reports, totalReports, currentPage, totalPages }` for one page of the query's results. */
  function Body(results: seq<MessageReportDoc>, page: int, limit: int): (r: Page<MessageReportDto>)
    requires page >= 1 && limit >= 1
    ensures r.total == |results| && r.currentPage == page && r.totalPages == TotalPages(|results|, limit)
    ensures |r.items| == |PageOf(results, page, limit)| <= limit
    ensures forall i :: 0 <= i < |r.items| ==> r.items[i] == ToDto(results[Offset(page, limit) + i])
    ensures r.items != [] ==> page <= r.totalPages
  {
    ListPage(results, page, limit, ToDto)
  }

  /** GET: 401/403 from the admin gate, otherwise the page, cached for 1 minute. */
  method Get(cache: SmartCache<Payload>, env: Option<string>, header: Option<string>, verify: string -> TokenCheck,
             status: Option<string>, roomId: Option<string>, page: int, limit: int, now: int,
             run: MessageReportQuery -> seq<MessageReportDoc>)
    returns (r: Response<Served>)
    requires page >= 1 && limit >= 1
    modifies cache
    ensures var gate := AdminGate(env, header, verify);
      gate.Err? ==> r == Err(gate.status, gate.error) && cache.entries == old(cache.entries)
    ensures var gate := AdminGate(env, header, verify);
      var key := CacheKey(Or(status, "all"), page, limit, roomId);
      var body := MessageReportsList(Body(run(Query(Or(status, "all"), roomId)), page, limit));
      gate.Ok? ==> (r == Ok(Serve(old(cache.entries), key, now, 1, body).0)
        && cache.entries == Serve(old(cache.entries), key, now, 1, body).1)
  {
    var gate := AdminGate(env, header, verify);
    if gate.Err? {
      return Err(gate.status, gate.error);
    }
    var s := Or(status, "all");
    var key := CacheKey(s, page, limit, roomId);
    var served := CachedFetch(cache, key, now, 1, MessageReportsList(Body(run(Query(s, roomId)), page, limit)));
    r := Ok(served);
  }

  const ValidStatuses: seq<string> := ["pending", "reviewing", "resolved", "rejected"]

  /** The writes PATCH and DELETE issue. */
  datatype MessageReportOp =
    | Review(reportId: string, status: string, reviewedAt: int, reviewedBy: string, adminNotes: string)
    | DeleteMessageReport(reportId: string)

  /**
   * What PATCH `{ reportId, status, adminId, notes }` answers and writes once
   * the admin gate has answered `gate`, where `stored` is what reading the
   * report answered: 400 without an id or a status, 400 for a status
   * outside the four known ones, 404 for a missing report, otherwise one
   * review write.
   */
  function PatchResult(gate: Response<AdminUser>,
                       reportId: Option<string>, status: Option<string>, adminId: Option<string>, notes: Option<string>,
                       stored: Option<MessageReportDoc>, now: int)
    : (r: Response<seq<MessageReportOp>>)
    ensures gate.Err? ==> r == Err(gate.status, gate.error)
    ensures gate.Ok? ==> ((r.Err? && r.status == 400) <==> !Truthy(reportId) || !Truthy(status) || status.value !in ValidStatuses)
    ensures gate.Ok? ==> ((r.Err? && r.status == 404) <==>
      Truthy(reportId) && Truthy(status) && status.value in ValidStatuses && stored.None?)
    ensures gate.Ok? ==> (r.Ok? <==> Truthy(reportId) && Truthy(status) && status.value in ValidStatuses && stored.Some?)
    ensures r.Ok? ==> (|r.body| == 1 && r.body[0].Review?
      && r.body[0].reportId == reportId.value && r.body[0].status == status.value && r.body[0].reviewedAt == now)
    ensures r.Ok? ==> r.body[0].adminNotes == Or(notes, Or(stored.value.adminNotes, ""))
    ensures r.Ok? ==> r.body[0].reviewedBy == Or(adminId, Or(Some(gate.body.email), "admin"))
  {
    if gate.Err? then Err(gate.status, gate.error)
    else if !Truthy(reportId) || !Truthy(status) then Err(400, "Missing reportId or status")
    else if status.value !in ValidStatuses then Err(400, "Invalid status")
    else if stored.None? then Err(404, "Report not found")
    else
      var reviewer := Or(adminId, Or(Some(gate.body.email), "admin"));
      var adminNotes := Or(notes, Or(stored.value.adminNotes, ""));
      Ok([Review(reportId.value, status.value, now, reviewer, adminNotes)])
  }

  /**
   * The reviewer recorded is the given `adminId` or else the admin's own
   * email: the gate only admits a non-empty email, so the `'admin'`
   * fallback is never used.
   */
  lemma ReviewerIsAdminIdOrEmail(env: Option<string>, header: Option<string>, verify: string -> TokenCheck,
                                 reportId: Option<string>, status: Option<string>, adminId: Option<string>, notes: Option<string>,
                                 stored: Option<MessageReportDoc>, now: int)
    requires PatchResult(AdminGate(env, header, verify), reportId, status, adminId, notes, stored, now).Ok?
    ensures var gate := AdminGate(env, header, verify);
      var w := PatchResult(gate, reportId, status, adminId, notes, stored, now).body[0];
      w.reviewedBy == (if Truthy(adminId) then adminId.value else gate.body.email) && w.reviewedBy != ""
  {
    var email := AdminGate(env, header, verify).body.email;
    var t := SplitToken(header).value;
    assert email == ToLower(verify(t).email.value);
    assert |email| >= |verify(t).email.value| > 0;
  }

  /**
   * Any of the four statuses is written whatever the stored status is,
   * including a move from `resolved` back to `pending`.
   */
  lemma AnyStatusFromAnyStatus(admin: AdminUser, reportId: string, target: string, d: MessageReportDoc, now: int)
    requires reportId != "" && target in ValidStatuses
    ensures var r := PatchResult(Ok(admin), Some(reportId), Some(target), None, None, Some(d), now);
      r.Ok? && r.body[0].status == target
  {
    assert target == "pending" || target == "reviewing" || target == "resolved" || target == "rejected";
  }

  /** PATCH: the answer of `PatchResult`; on success the whole cache is emptied. */
  method Patch(cache: SmartCache<Payload>, env: Option<string>, header: Option<string>, verify: string -> TokenCheck,
               reportId: Option<string>, status: Option<string>, adminId: Option<string>, notes: Option<string>,
               stored: Option<MessageReportDoc>, now: int)
    returns (r: Response<seq<MessageReportOp>>)
    modifies cache
    ensures r == PatchResult(AdminGate(env, header, verify), reportId, status, adminId, notes, stored, now)
    ensures r.Ok? ==> cache.entries == map[]
    ensures r.Err? ==> cache.entries == old(cache.entries)
  {
    var gate := AdminGate(env, header, verify);
    r := PatchResult(gate, reportId, status, adminId, notes, stored, now);
    if r.Ok? {
      cache.Clear(None);
    }
  }

  /** What DELETE `?reportId=` answers and writes after the gate: 400 without an id, 404 for a missing report. */
  function DeleteResult(gate: Response<AdminUser>, reportId: Option<string>, stored: Option<MessageReportDoc>)
    : (r: Response<seq<MessageReportOp>>)
    ensures gate.Err? ==> r == Err(gate.status, gate.error)
    ensures gate.Ok? ==> ((r.Err? && r.status == 400) <==> !Truthy(reportId))
    ensures gate.Ok? ==> ((r.Err? && r.status == 404) <==> Truthy(reportId) && stored.None?)
    ensures gate.Ok? ==> (r.Ok? <==> Truthy(reportId) && stored.Some?)
    ensures r.Ok? ==> r.body == [DeleteMessageReport(reportId.value)]
  {
    if gate.Err? then Err(gate.status, gate.error)
    else if !Truthy(reportId) then Err(400, "Missing reportId")
    else if stored.None? then Err(404, "Report not found")
    else Ok([DeleteMessageReport(reportId.value)])
  }

  /** DELETE: the answer of `DeleteResult`; on success the whole cache is emptied. */
  method Delete(cache: SmartCache<Payload>, env: Option<string>, header: Option<string>, verify: string -> TokenCheck,
                reportId: Option<string>, stored: Option<MessageReportDoc>)
    returns (r: Response<seq<MessageReportOp>>)
    modifies cache
    ensures r == DeleteResult(AdminGate(env, header, verify), reportId, stored)
    ensures r.Ok? ==> cache.entries == map[]
    ensures r.Err? ==> cache.entries == old(cache.entries)
  {
    var gate := AdminGate(env, header, verify);
    r := DeleteResult(gate, reportId, stored);
    if r.Ok? {
      cache.Clear(None);
    }
  }
}
