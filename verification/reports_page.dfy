/**
 * The admin reports page. It lists three kinds of report side by side:
 * - legacy user reports from `/api/admin/reports`;
 * - message reports from `/api/admin/message-reports`;
 * - room-based user reports from `/api/admin/user-reports`.
 *
 * A type filter and a status filter choose what is fetched. The detail
 * modals offer only the status moves the page allows.
 */
module ReportsPage {
  import opened Common
  import opened AdminAuth
  import opened RequestAuth
  import opened Records
  import opened AdminPaging
  import ReportsRoute
  import MessageReportsRoute

  /** Rows per request. */
  const PageLimit: int := 20

  datatype ReportKind = Legacy | Message | Room

  /** The value of the type filter that shows only this kind. */
  function TypeName(kind: ReportKind): string {
    match kind
    case Legacy => "user"
    case Message => "message"
    case Room => "userReport"
  }

  /** A listed report, reduced to what the page's logic reads. */
  datatype Row = Row(id: string, status: string)

  /**
   * An answered list request. `rows` is `data.reports || []` and
   * `totalPages` is the count the endpoint announced, zero when absent.
   */
  datatype Fetched = Fetched(rows: seq<Row>, totalPages: nat)

  // -----------------------------------------------------------------------
  // What a fetch asks for and what it keeps
  // -----------------------------------------------------------------------

  /** Whether the type filter fetches `kind`: `all` fetches every kind. */
  predicate Requested(typeFilter: string, kind: ReportKind) {
    typeFilter == "all" || typeFilter == TypeName(kind)
  }

  datatype Request = Request(kind: ReportKind, page: int, limit: int, status: string)

  /**
   * The list requests one fetch sends, in order. Each carries the current
   * page, 20 rows and the status filter.
   */
  function Requests(typeFilter: string, page: int, status: string): (rs: seq<Request>)
    ensures Request(Legacy, page, PageLimit, status) in rs <==> Requested(typeFilter, Legacy)
    ensures Request(Message, page, PageLimit, status) in rs <==> Requested(typeFilter, Message)
    ensures Request(Room, page, PageLimit, status) in rs <==> Requested(typeFilter, Room)
    ensures forall i :: 0 <= i < |rs| ==> rs[i] == Request(rs[i].kind, page, PageLimit, status)
    ensures |rs| <= 3
  {
    var a := if Requested(typeFilter, Legacy) then [Request(Legacy, page, PageLimit, status)] else [];
    var b := if Requested(typeFilter, Message) then [Request(Message, page, PageLimit, status)] else [];
    var c := if Requested(typeFilter, Room) then [Request(Room, page, PageLimit, status)] else [];
    assert forall x :: x in a + b + c <==> x in a || x in b || x in c;
    a + b + c
  }

  /**
   * A kind's list after a fetch: emptied when the filter does not fetch it,
   * replaced when its request succeeded, kept when it failed.
   */
  function ListAfter(typeFilter: string, kind: ReportKind, before: seq<Row>, response: Option<Fetched>)
    : (after: seq<Row>)
    ensures !Requested(typeFilter, kind) ==> after == []
    ensures Requested(typeFilter, kind) && response.Some? ==> after == response.value.rows
    ensures Requested(typeFilter, kind) && response.None? ==> after == before
  {
    if !Requested(typeFilter, kind) then []
    else if response.Some? then response.value.rows
    else before
  }

  /** A specific type shows only its own kind: the other two lists are empty. */
  lemma SpecificTypeShowsOnlyItsOwn(kind: ReportKind, other: ReportKind, before: seq<Row>, response: Option<Fetched>)
    requires other != kind
    ensures ListAfter(TypeName(kind), other, before, response) == []
    ensures Requested(TypeName(kind), kind)
  {
  }

  // -----------------------------------------------------------------------
  // The page count after a fetch
  // -----------------------------------------------------------------------

  /** The page count a response announces, or `before` when the request failed. */
  function Announced(response: Option<Fetched>, before: int): int {
    if response.Some? then PagesShown(response.value.totalPages) else before
  }

  /**
   * The page count under `all` as the page computes it. The message fetch
   * and then the room fetch each set `max(their count || 1, totalPages)`.
   * `totalPages` there is the value from before the fetch, because the
   * state update is not visible inside the running fetch. So the room
   * answer overwrites the message one, and the legacy count is never
   * consulted.
   */
  function AllPagesAsWritten(before: int, legacy: Option<Fetched>, message: Option<Fetched>, room: Option<Fetched>)
    : int
  {
    var afterMessage := if message.Some? then Max(PagesShown(message.value.totalPages), before) else before;
    if room.Some? then Max(PagesShown(room.value.totalPages), before) else afterMessage
  }

  /**
   * Message reports that fill five pages become unreachable when the room
   * endpoint announces one page: Next is disabled on page 1.
   */
  lemma AllPagesAsWrittenHidesMessagePages()
    ensures AllPagesAsWritten(1, Some(Fetched([], 3)), Some(Fetched([], 5)), Some(Fetched([], 1))) == 1
    ensures NextDisabled(1, AllPagesAsWritten(1, Some(Fetched([], 3)), Some(Fetched([], 5)), Some(Fetched([], 1))))
  {
  }

  /** As written, the count under `all` never drops below the count it had before. */
  lemma AllPagesAsWrittenNeverShrinks(before: int, legacy: Option<Fetched>, message: Option<Fetched>, room: Option<Fetched>)
    ensures AllPagesAsWritten(before, legacy, message, room) >= before
  {
  }

  function OkPages(response: Option<Fetched>): int {
    if response.Some? then PagesShown(response.value.totalPages) else 1
  }

  /**
   * The page count under `all` as evidently intended: the largest count
   * among the endpoints that answered. It keeps `before` only when all
   * three failed.
   */
  function AllPages(before: int, legacy: Option<Fetched>, message: Option<Fetched>, room: Option<Fetched>): (n: int)
    ensures legacy.Some? ==> n >= PagesShown(legacy.value.totalPages)
    ensures message.Some? ==> n >= PagesShown(message.value.totalPages)
    ensures room.Some? ==> n >= PagesShown(room.value.totalPages)
    ensures legacy.None? && message.None? && room.None? ==> n == before
    ensures legacy.Some? || message.Some? || room.Some? ==>
      (n == 1 || (legacy.Some? && n == PagesShown(legacy.value.totalPages))
              || (message.Some? && n == PagesShown(message.value.totalPages))
              || (room.Some? && n == PagesShown(room.value.totalPages)))
  {
    if legacy.None? && message.None? && room.None? then before
    else Max(Max(OkPages(legacy), OkPages(message)), OkPages(room))
  }

  /**
   * The page count after a fetch. A specific type takes its own endpoint's
   * count, or keeps the old one when that request failed. `all` takes the
   * count as the page computes it, `AllPagesAsWritten`.
   */
  function TotalPagesAfter(typeFilter: string, before: int,
                           legacy: Option<Fetched>, message: Option<Fetched>, room: Option<Fetched>)
    : (n: int)
    ensures before >= 1 ==> n >= 1
    ensures typeFilter == "all" ==> n == AllPagesAsWritten(before, legacy, message, room)
    ensures typeFilter == "all" && room.Some? ==> n == Max(PagesShown(room.value.totalPages), before)
    ensures typeFilter == TypeName(Legacy) && legacy.Some? ==> n == PagesShown(legacy.value.totalPages)
    ensures typeFilter == TypeName(Message) && message.Some? ==> n == PagesShown(message.value.totalPages)
    ensures typeFilter == TypeName(Room) && room.Some? ==> n == PagesShown(room.value.totalPages)
    ensures typeFilter !in {"all", "user", "message", "userReport"} ==> n == before
  {
    if typeFilter == "all" then AllPagesAsWritten(before, legacy, message, room)
    else if typeFilter == "user" then Announced(legacy, before)
    else if typeFilter == "message" then Announced(message, before)
    else if typeFilter == "userReport" then Announced(room, before)
    else before
  }

  /**
   * Once some endpoint answers, the count under `all` no longer depends on
   * the count from before; every announced page stays reachable.
   */
  lemma AllPagesForgetsBefore(b1: int, b2: int, legacy: Option<Fetched>, message: Option<Fetched>, room: Option<Fetched>)
    requires legacy.Some? || message.Some? || room.Some?
    ensures AllPages(b1, legacy, message, room) == AllPages(b2, legacy, message, room)
  {
  }

  // -----------------------------------------------------------------------
  // The pending badge
  // -----------------------------------------------------------------------

  predicate IsPending(r: Row) {
    r.status == "pending"
  }

  /**
   * The header badge: pending legacy reports plus pending message reports.
   * Room-based reports are not counted.
   */
  function PendingCount(legacy: seq<Row>, message: seq<Row>): (n: nat)
    ensures n <= |legacy| + |message|
    ensures n == 0 <==>
      (forall i :: 0 <= i < |legacy| ==> legacy[i].status != "pending")
      && (forall i :: 0 <= i < |message| ==> message[i].status != "pending")
  {
    CountIfZero(legacy, IsPending);
    CountIfZero(message, IsPending);
    CountIf(legacy, IsPending) + CountIf(message, IsPending)
  }

  // -----------------------------------------------------------------------
  // Labels
  // -----------------------------------------------------------------------

  const ReasonLabels: map<string, string> := map[
    "spam" := "Spam/Reklam",
    "harassment" := "Taciz/Tehdit",
    "inappropriate" := "Uygunsuz İçerik",
    "insult" := "Hakaret",
    "fraud" := "Dolandırıcılık",
    "other" := "Diğer"]

  /** `getReasonLabel`: the label of a known code; any other reason unchanged. */
  function ReasonLabel(reason: string): (shown: string)
    ensures reason !in ReasonLabels ==> shown == reason
    ensures reason in ReasonLabels ==> shown == ReasonLabels[reason] && shown != reason
    ensures shown == "" <==> reason == ""
  {
    if reason in ReasonLabels then ReasonLabels[reason] else reason
  }

  /** The six known codes get six different labels. */
  lemma KnownReasonsLabelledApart(a: string, b: string)
    requires a in ReasonLabels && b in ReasonLabels && ReasonLabel(a) == ReasonLabel(b)
    ensures a == b
  {
  }

  /** An unknown reason that happens to spell a label reads exactly like that label. */
  lemma RawReasonCanPassForLabel()
    ensures ReasonLabel("Hakaret") == ReasonLabel("insult")
  {
  }

  datatype Badge = Badge(style: string, text: string)

  /** `getStatusBadge`: four known statuses in colour; anything else raw and grey. */
  function StatusBadge(status: string): (b: Badge)
    ensures status in MessageReportsRoute.ValidStatuses ==> b.style != "badge-gray" && b.text != status
    ensures status !in MessageReportsRoute.ValidStatuses ==> b == Badge("badge-gray", status)
  {
    match status
    case "pending" => Badge("badge-warning", "Beklemede")
    case "reviewing" => Badge("badge-primary", "İnceleniyor")
    case "resolved" => Badge("badge-success", "Çözüldü")
    case "rejected" => Badge("badge-danger", "Reddedildi")
    case _ => Badge("badge-gray", status)
  }

  /** The statuses the server writes get four different badges. */
  lemma KnownStatusesBadgedApart(a: string, b: string)
    requires a in MessageReportsRoute.ValidStatuses && b in MessageReportsRoute.ValidStatuses
    requires StatusBadge(a) == StatusBadge(b)
    ensures a == b
  {
  }

  // -----------------------------------------------------------------------
  // The status moves each detail modal offers
  // -----------------------------------------------------------------------

  /** How far a status is along review: pending, then reviewing, then closed. */
  function Rank(status: string): int {
    match status
    case "reviewing" => 1
    case "resolved" => 2
    case "rejected" => 2
    case _ => 0
  }

  /**
   * The status an action leads to. Legacy reports send the actions
   * `resolve`/`reject`; the other two kinds send the target status itself.
   */
  function Target(kind: ReportKind, action: string): string {
    if kind == Legacy && action == "resolve" then "resolved"
    else if kind == Legacy && action == "reject" then "rejected"
    else action
  }

  /**
   * The buttons a detail modal shows for a report in `status`. Legacy
   * reports offer Reject and Approve while pending. Message and room
   * reports offer reviewing, rejected or resolved while pending, and
   * rejected or resolved while reviewing. Closed reports offer nothing, and
   * every move offered goes forward.
   */
  function Offered(kind: ReportKind, status: string): (actions: seq<string>)
    ensures status == "resolved" || status == "rejected" ==> actions == []
    ensures kind == Legacy ==> (actions != [] <==> status == "pending")
    ensures kind != Legacy ==> (actions != [] <==> status == "pending" || status == "reviewing")
    ensures forall a :: a in actions ==> Rank(Target(kind, a)) > Rank(status)
    ensures forall a :: a in actions ==> Target(kind, a) in MessageReportsRoute.ValidStatuses
  {
    if kind == Legacy then (if status == "pending" then ["reject", "resolve"] else [])
    else if status == "pending" then ["reviewing", "rejected", "resolved"]
    else if status == "reviewing" then ["rejected", "resolved"]
    else []
  }

  /**
   * Every action a legacy modal offers is one the legacy PATCH accepts, and
   * it closes the report with the status `Target` names.
   */
  lemma LegacyOfferAccepted(admin: AdminUser, id: string, status: string, action: string,
                            adminId: Option<string>, notes: Option<string>, d: ReportDoc, now: int)
    requires id != "" && action in Offered(Legacy, status)
    ensures ReportsRoute.Patch(Ok(admin), Some(id), Some(action), adminId, notes, Some(d), now)
         == Ok([ReportsRoute.CloseReport(id, Target(Legacy, action), now, Or(adminId, "admin"), Or(notes, ""))])
  {
    assert action == "reject" || action == "resolve";
  }

  /** Every status a message-report modal offers is one the message-report PATCH writes. */
  lemma MessageOfferAccepted(admin: AdminUser, id: string, status: string, target: string,
                             adminId: Option<string>, notes: Option<string>, d: MessageReportDoc, now: int)
    requires id != "" && target in Offered(Message, status)
    ensures var r := MessageReportsRoute.PatchResult(Ok(admin), Some(id), Some(target), adminId, notes, Some(d), now);
      r.Ok? && r.body[0].status == Target(Message, target)
  {
  }

  /**
   * The server is looser than the page: it reopens a resolved message
   * report, a move no modal offers.
   */
  lemma ServerAllowsUnofferedReopen(admin: AdminUser, id: string, d: MessageReportDoc, now: int)
    requires id != ""
    ensures Offered(Message, "resolved") == []
    ensures MessageReportsRoute.PatchResult(Ok(admin), Some(id), Some("pending"), None, None, Some(d), now).Ok?
  {
    MessageReportsRoute.AnyStatusFromAnyStatus(admin, id, "pending", d, now);
  }

  // -----------------------------------------------------------------------
  // The page's state
  // -----------------------------------------------------------------------

  class ReportsView {
    var page: int
    var totalPages: int
    var statusFilter: string
    var typeFilter: string
    var reports: seq<Row>
    var messageReports: seq<Row>
    var userReports: seq<Row>

    /** The page and the page count are both at least one. */
    ghost predicate Valid()
      reads this
    {
      page >= 1 && totalPages >= 1
    }

    constructor ()
      ensures Valid()
      ensures page == 1 && totalPages == 1 && statusFilter == "all" && typeFilter == "all"
      ensures reports == [] && messageReports == [] && userReports == []
    {
      page := 1;
      totalPages := 1;
      statusFilter := "all";
      typeFilter := "all";
      reports := [];
      messageReports := [];
      userReports := [];
    }

    /** The number on the header badge. */
    function Pending(): nat
      reads this
    {
      PendingCount(reports, messageReports)
    }

    method Previous()
      requires Valid()
      modifies this
      ensures Valid()
      ensures page == PrevPage(old(page))
      ensures totalPages == old(totalPages) && statusFilter == old(statusFilter) && typeFilter == old(typeFilter)
      ensures reports == old(reports) && messageReports == old(messageReports) && userReports == old(userReports)
    {
      page := PrevPage(page);
    }

    method Next()
      requires Valid()
      modifies this
      ensures Valid()
      ensures page == NextPage(old(page), old(totalPages))
      ensures totalPages == old(totalPages) && statusFilter == old(statusFilter) && typeFilter == old(typeFilter)
      ensures reports == old(reports) && messageReports == old(messageReports) && userReports == old(userReports)
    {
      page := NextPage(page, totalPages);
    }

    /** Choosing a report type starts again from the first page. */
    method ChangeType(value: string)
      requires Valid()
      modifies this
      ensures Valid()
      ensures typeFilter == value && page == 1
      ensures totalPages == old(totalPages) && statusFilter == old(statusFilter)
      ensures reports == old(reports) && messageReports == old(messageReports) && userReports == old(userReports)
    {
      typeFilter := value;
      page := 1;
    }

    /** Choosing a status starts again from the first page. */
    method ChangeStatus(value: string)
      requires Valid()
      modifies this
      ensures Valid()
      ensures statusFilter == value && page == 1
      ensures totalPages == old(totalPages) && typeFilter == old(typeFilter)
      ensures reports == old(reports) && messageReports == old(messageReports) && userReports == old(userReports)
    {
      statusFilter := value;
      page := 1;
    }

    /**
     * `fetchReports`, given what each request answered (None for a failed
     * request; the answer to a request the filter does not send is
     * ignored).
     */
    method Fetch(legacy: Option<Fetched>, message: Option<Fetched>, room: Option<Fetched>)
      requires Valid()
      modifies this
      ensures Valid()
      ensures reports == ListAfter(old(typeFilter), Legacy, old(reports), legacy)
      ensures messageReports == ListAfter(old(typeFilter), Message, old(messageReports), message)
      ensures userReports == ListAfter(old(typeFilter), Room, old(userReports), room)
      ensures totalPages == TotalPagesAfter(old(typeFilter), old(totalPages), legacy, message, room)
      ensures page == old(page) && statusFilter == old(statusFilter) && typeFilter == old(typeFilter)
    {
      // The count the running fetch sees: its own updates are not visible to it.
      var before := totalPages;
      if Requested(typeFilter, Legacy) {
        if legacy.Some? {
          reports := legacy.value.rows;
          if typeFilter == "user" {
            totalPages := PagesShown(legacy.value.totalPages);
          }
        }
      } else {
        reports := [];
      }
      if Requested(typeFilter, Message) {
        if message.Some? {
          messageReports := message.value.rows;
          if typeFilter == "message" {
            totalPages := PagesShown(message.value.totalPages);
          } else if typeFilter == "all" {
            totalPages := Max(PagesShown(message.value.totalPages), before);
          }
        }
      } else {
        messageReports := [];
      }
      if Requested(typeFilter, Room) {
        if room.Some? {
          userReports := room.value.rows;
          if typeFilter == "userReport" {
            totalPages := PagesShown(room.value.totalPages);
          } else if typeFilter == "all" {
            totalPages := Max(PagesShown(room.value.totalPages), before);
          }
        }
      } else {
        userReports := [];
      }
    }
  }
}
