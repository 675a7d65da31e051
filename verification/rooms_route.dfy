/**
 * `/api/admin/rooms`: the paged, filtered study-room list (GET), room
 * deletion (DELETE) and disabling (PATCH). All three sit behind the admin
 * gate.
 */
module RoomsRoute {
  import opened Common
  import opened TtlCache
  import opened AdminAuth
  import opened RequestAuth
  import opened Records
  import opened Listing

  /** The Firestore query a `filter` value selects. */
  datatype RoomQuery = AllRooms | ActiveSince(cutoff: int) | PrivateOnly | ReportedOnly

  /** `active`, `private` and `reported` select a query; any other value selects every room. */
  function FilterQuery(filter: string, now: int): (q: RoomQuery)
    ensures q.ActiveSince? <==> filter == "active"
    ensures q.ActiveSince? ==> q.cutoff == now - DayMs
    ensures q == PrivateOnly <==> filter == "private"
    ensures q == ReportedOnly <==> filter == "reported"
    ensures q == AllRooms <==> filter !in {"active", "private", "reported"}
  {
    if filter == "active" then ActiveSince(now - 24 * 60 * 60 * 1000)
    else if filter == "private" then PrivateOnly
    else if filter == "reported" then ReportedOnly
    else AllRooms
  }

  /** `rooms_{filter}_{page}_{limit}` */
  function CacheKey(filter: string, page: int, limit: int): string {
    "rooms_" + filter + "_" + IntToString(page) + "_" + IntToString(limit)
  }

  /** `arr?.length || fallback`: an absent or empty array falls through. */
  function LengthOr(a: Option<seq<string>>, fallback: int): int {
    if a.Some? && |a.value| != 0 then |a.value| else fallback
  }

  /** The member count: `memberIds`, else `members`, else 0; an empty `memberIds` defers to `members`. */
  function MemberCount(d: RoomDoc): (n: nat)
    ensures d.memberIds.Some? && d.memberIds.value != [] ==> n == |d.memberIds.value|
    ensures (d.memberIds.None? || d.memberIds.value == []) && d.members.Some? ==> n == |d.members.value|
    ensures (d.memberIds.None? || d.memberIds.value == []) && d.members.None? ==> n == 0
  {
    LengthOr(d.memberIds, LengthOr(d.members, 0))
  }

  /** One list row: a document with its missing fields defaulted. */
  function ToDto(d: RoomDoc): (r: RoomDto)
    ensures r.id == d.id && r.memberCount == MemberCount(d)
    ensures r.name != "" && r.hostName != "" && r.category != ""
    ensures Truthy(d.name) ==> r.name == d.name.value
    ensures !Truthy(d.name) ==> r.name == "Unnamed Room"
    ensures Truthy(d.hostId) ==> r.hostId == d.hostId.value
    ensures !Truthy(d.hostId) ==> r.hostId == Or(d.createdBy, "")
    ensures Truthy(d.hostName) ==> r.hostName == d.hostName.value
    ensures !Truthy(d.hostName) ==> r.hostName == "Unknown"
    ensures Truthy(d.category) ==> r.category == d.category.value
    ensures !Truthy(d.category) ==> r.category == "Diğer"
    ensures Truthy(d.description) ==> r.description == d.description.value
    ensures !Truthy(d.description) ==> r.description == ""
    ensures r.isPrivate <==> d.isPrivate == Some(true)
    ensures r.hasReports <==> d.hasReports == Some(true)
    ensures r.lastActivityAt == (if d.lastActivityAt.Some? then d.lastActivityAt else d.lastActivity)
  {
    RoomDto(d.id, Or(d.name, "Unnamed Room"), Or(d.description, ""),
      Or(d.hostId, Or(d.createdBy, "")), Or(d.hostName, "Unknown"), MemberCount(d),
      OrFalse(d.isPrivate), Or(d.category, "Diğer"),
      OrDate(d.createdAt, None), OrDate(d.lastActivityAt, OrDate(d.lastActivity, None)),
      OrFalse(d.hasReports))
  }

  /** `{ rooms, totalRooms, currentPage, totalPages }` for one page of the query's results. */
  function Body(results: seq<RoomDoc>, page: int, limit: int): (r: Page<RoomDto>)
    requires page >= 1 && limit >= 1
    ensures r.total == |results| && r.currentPage == page && r.totalPages == TotalPages(|results|, limit)
    ensures |r.items| == |PageOf(results, page, limit)| <= limit
    ensures forall i :: 0 <= i < |r.items| ==> r.items[i] == ToDto(results[Offset(page, limit) + i])
    ensures r.items != [] ==> page <= r.totalPages
  {
    ListPage(results, page, limit, ToDto)
  }

  /** GET: 401/403 from the admin gate, otherwise the page, cached for 3 minutes. */
  method Get(cache: SmartCache<Payload>, env: Option<string>, header: Option<string>, verify: string -> TokenCheck,
             filter: Option<string>, page: int, limit: int, now: int, run: RoomQuery -> seq<RoomDoc>)
    returns (r: Response<Served>)
    requires page >= 1 && limit >= 1
    modifies cache
    ensures var gate := AdminGate(env, header, verify);
      gate.Err? ==> r == Err(gate.status, gate.error) && cache.entries == old(cache.entries)
    ensures var gate := AdminGate(env, header, verify);
      var key := CacheKey(Or(filter, "all"), page, limit);
      var body := RoomsList(Body(run(FilterQuery(Or(filter, "all"), now)), page, limit));
      gate.Ok? ==> (r == Ok(Serve(old(cache.entries), key, now, 3, body).0)
        && cache.entries == Serve(old(cache.entries), key, now, 3, body).1)
  {
    var gate := AdminGate(env, header, verify);
    if gate.Err? {
      return Err(gate.status, gate.error);
    }
    var f := Or(filter, "all");
    var key := CacheKey(f, page, limit);
    var served := CachedFetch(cache, key, now, 3, RoomsList(Body(run(FilterQuery(f, now)), page, limit)));
    r := Ok(served);
  }

  /** The writes DELETE and PATCH issue. */
  datatype RoomOp =
    | DeleteRoom(roomId: string)
    | SetDisabled(roomId: string, isDisabled: bool, disabledAt: Option<int>)

  /**
   * DELETE `?roomId=`: 400 without an id; otherwise the room document is
   * deleted, without checking first that it exists.
   */
  function Delete(env: Option<string>, header: Option<string>, verify: string -> TokenCheck, roomId: Option<string>)
    : (r: Response<seq<RoomOp>>)
    ensures AdminGate(env, header, verify).Err? ==> r.Err? && r.status in {401, 403}
    ensures AdminGate(env, header, verify).Ok? ==> (r.Err? <==> !Truthy(roomId))
    ensures r.Err? && r.status == 400 ==> r.error == "Missing roomId"
    ensures r.Ok? ==> r.body == [DeleteRoom(roomId.value)]
  {
    var gate := AdminGate(env, header, verify);
    if gate.Err? then Err(gate.status, gate.error)
    else if !Truthy(roomId) then Err(400, "Missing roomId")
    else Ok([DeleteRoom(roomId.value)])
  }

  /** PATCH `{ roomId, action }`: `disable`/`enable` toggle `isDisabled`; anything else is 400. */
  function Patch(env: Option<string>, header: Option<string>, verify: string -> TokenCheck,
                 roomId: Option<string>, action: Option<string>, now: int)
    : (r: Response<seq<RoomOp>>)
    ensures AdminGate(env, header, verify).Err? ==> r.Err? && r.status in {401, 403}
    ensures AdminGate(env, header, verify).Ok? ==>
      (r.Err? <==> !Truthy(roomId) || !Truthy(action) || action.value !in {"disable", "enable"})
    ensures r.Ok? && action == Some("disable") ==> r.body == [SetDisabled(roomId.value, true, Some(now))]
    ensures r.Ok? && action == Some("enable") ==> r.body == [SetDisabled(roomId.value, false, None)]
  {
    var gate := AdminGate(env, header, verify);
    if gate.Err? then Err(gate.status, gate.error)
    else if !Truthy(roomId) || !Truthy(action) then Err(400, "Missing roomId or action")
    else if action.value == "disable" then Ok([SetDisabled(roomId.value, true, Some(now))])
    else if action.value == "enable" then Ok([SetDisabled(roomId.value, false, None)])
    else Err(400, "Invalid action")
  }

  /** Any admin request naming a room deletes it: there is no 404 answer. */
  lemma DeleteNeverNotFound(env: Option<string>, header: Option<string>, verify: string -> TokenCheck, roomId: string)
    requires AdminGate(env, header, verify).Ok? && roomId != ""
    ensures Delete(env, header, verify, Some(roomId)) == Ok([DeleteRoom(roomId)])
  {
  }
}
