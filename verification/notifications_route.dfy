/**
 * `/api/admin/notifications`: the list of sent notifications (GET) and the
 * fan-out of a new one (POST).
 *
 * POST resolves the audience to a list of user ids, writes one
 * notification record, and for an immediate notification sends push
 * messages to the users holding a device token in batches of 500, clears
 * the tokens the push service reports as invalid, writes one in-app copy
 * per target in write batches of 500, and records the send counters.
 *
 * The `users` collection comes in as a sequence in store order; the push
 * service is the parameter `send`, answering each batch of tokens; the
 * new record's id is the parameter `docId`.
 */
module NotificationsRoute {
  import opened Common
  import opened TtlCache
  import opened AdminAuth
  import opened RequestAuth
  import opened Records
  import opened Listing
  import opened Sorting

  /** The request body. */
  datatype NotificationRequest = NotificationRequest(
    title: Option<string>, message: Option<string>, targetType: Option<string>, priority: Option<string>,
    scheduleType: Option<string>, scheduledTime: Option<int>, targetUsers: Option<string>,
    deepLink: Option<string>, deepLinkData: Option<string>)

  // -----------------------------------------------------------------------
  // The audience
  // -----------------------------------------------------------------------

  /** The `targetType` values the handler knows, and everything else. */
  datatype Audience = Everyone | PremiumUsers | FreeUsers | ActiveUsers | InactiveUsers | Specific | UnknownAudience

  function AudienceOf(targetType: Option<string>): Audience {
    if targetType == Some("all") then Everyone
    else if targetType == Some("premium") then PremiumUsers
    else if targetType == Some("free") then FreeUsers
    else if targetType == Some("active") then ActiveUsers
    else if targetType == Some("inactive") then InactiveUsers
    else if targetType == Some("specific") then Specific
    else UnknownAudience
  }

  /**
   * Whether a user matches one of the query audiences. `weekAgo` and
   * `monthAgo` are the same time of day 7 and 30 calendar days back.
   * Stored comparisons never match a user without the field.
   */
  predicate Matches(a: Audience, u: UserDoc, weekAgo: int, monthAgo: int) {
    match a
    case Everyone => true
    case PremiumUsers => u.isPremium == Some(true)
    case FreeUsers => u.isPremium == Some(false)
    case ActiveUsers => u.lastActiveAt.Some? && u.lastActiveAt.value >= weekAgo
    case InactiveUsers => u.lastActiveAt.Some? && u.lastActiveAt.value < monthAgo
    case Specific => false
    case UnknownAudience => false
  }

  function IdsOf(docs: seq<UserDoc>): (ids: seq<string>)
    ensures |ids| == |docs| && forall k :: 0 <= k < |docs| ==> ids[k] == docs[k].id
  {
    seq(|docs|, k requires 0 <= k < |docs| => docs[k].id)
  }

  /** The users a query audience selects, in store order. */
  function Selected(a: Audience, users: seq<UserDoc>, weekAgo: int, monthAgo: int): (r: seq<UserDoc>)
    ensures forall u :: u in r <==> u in users && Matches(a, u, weekAgo, monthAgo)
  {
    Keep(users, u => Matches(a, u, weekAgo, monthAgo))
  }

  /**
   * Premium and free split the users that have the flag; a user whose flag
   * is missing is in neither. Likewise a user with no recorded activity is
   * neither active nor inactive, and neither is one last seen between 30
   * and 7 days ago.
   */
  lemma AudiencesMissUnflaggedUsers(users: seq<UserDoc>, u: UserDoc, weekAgo: int, monthAgo: int)
    requires u in users
    ensures u.isPremium.Some? <==>
      (u in Selected(PremiumUsers, users, weekAgo, monthAgo) || u in Selected(FreeUsers, users, weekAgo, monthAgo))
    ensures !(u in Selected(PremiumUsers, users, weekAgo, monthAgo) && u in Selected(FreeUsers, users, weekAgo, monthAgo))
    ensures u.lastActiveAt.None? || monthAgo <= u.lastActiveAt.value < weekAgo ==>
      (u !in Selected(ActiveUsers, users, weekAgo, monthAgo) && u !in Selected(InactiveUsers, users, weekAgo, monthAgo))
  {
    var p := Selected(PremiumUsers, users, weekAgo, monthAgo);
    var f := Selected(FreeUsers, users, weekAgo, monthAgo);
    assert u in p <==> u.isPremium == Some(true);
    assert u in f <==> u.isPremium == Some(false);
    if u.isPremium.Some? {
      if u.isPremium.value {
        assert u.isPremium == Some(true);
      } else {
        assert u.isPremium == Some(false);
      }
    }
  }

  /** `s.trim()` is non-empty. */
  predicate NonEmpty(s: string) {
    s != ""
  }

  /** `targetUsers.split(',').map(e => e.trim()).filter(e => e)` */
  function ParseEmailList(s: string): seq<string> {
    Keep(TrimAll(Split(s, ",")), NonEmpty)
  }

  /** `.map(e => e.trim())` */
  function TrimAll(pieces: seq<string>): (r: seq<string>)
    ensures |r| == |pieces| && forall k :: 0 <= k < |pieces| ==> r[k] == Trim(pieces[k])
  {
    seq(|pieces|, k requires 0 <= k < |pieces| => Trim(pieces[k]))
  }

  /** A non-empty trimmed piece has no surrounding whitespace. */
  lemma TrimmedEdges(x: string, e: string)
    requires e == Trim(x) && e != ""
    ensures !IsSpace(e[0]) && !IsSpace(e[|e| - 1])
  {
    TrimShape(x);
  }

  /** Every parsed address is non-empty and carries no surrounding whitespace. */
  lemma ParsedEmailsTrimmed(s: string, e: string)
    requires e in ParseEmailList(s)
    ensures e != "" && !IsSpace(e[0]) && !IsSpace(e[|e| - 1])
  {
    var pieces := Split(s, ",");
    assert e in TrimAll(pieces);
    var k :| 0 <= k < |pieces| && e == Trim(pieces[k]);
    TrimmedEdges(pieces[k], e);
  }

  /** `where('email', '==', email).limit(1)`: the first user with that address. */
  function FirstWithEmail(users: seq<UserDoc>, email: string): (r: Option<UserDoc>)
    ensures r.Some? ==> r.value in users && r.value.email == Some(email)
    ensures r.None? ==> forall k :: 0 <= k < |users| ==> users[k].email != Some(email)
  {
    if users == [] then None
    else if users[0].email == Some(email) then Some(users[0])
    else FirstWithEmail(users[1..], email)
  }

  /** The ids found for the addresses, in order; addresses with no user are dropped. */
  function SpecificIds(users: seq<UserDoc>, emails: seq<string>): (ids: seq<string>)
    ensures |ids| <= |emails|
    ensures forall id :: id in ids ==> exists u :: u in users && u.id == id && u.email.Some?
  {
    if emails == [] then []
    else
      var found := FirstWithEmail(users, emails[0]);
      (if found.Some? then [found.value.id] else []) + SpecificIds(users, emails[1..])
  }

  /** What one lookup contributes: the found user's id, or nothing for an empty snapshot. */
  function FoundId(users: seq<UserDoc>, email: string): seq<string> {
    var found := FirstWithEmail(users, email);
    if found.Some? then [found.value.id] else []
  }

  /** Looking up one more address appends that address's id, if it finds a user. */
  lemma {:induction false} SpecificIdsSnoc(users: seq<UserDoc>, emails: seq<string>, e: string)
    ensures SpecificIds(users, emails + [e]) == SpecificIds(users, emails) + FoundId(users, e)
    decreases |emails|
  {
    if emails == [] {
      assert [e][1..] == [];
    } else {
      var longer := emails + [e];
      assert longer[0] == emails[0] && longer[1..] == emails[1..] + [e];
      SpecificIdsSnoc(users, emails[1..], e);
      assert SpecificIds(users, longer) == FoundId(users, emails[0]) + SpecificIds(users, longer[1..]);
      assert SpecificIds(users, emails) == FoundId(users, emails[0]) + SpecificIds(users, emails[1..]);
    }
  }

  /** The positions `0, 1, ..., n - 1`. */
  function Positions(n: nat): (r: seq<nat>)
    ensures |r| == n && forall k :: 0 <= k < n ==> r[k] == k
  {
    seq(n, k requires 0 <= k < n => k as nat)
  }

  /**
   * `Promise.all(emails.map(...))` followed by `.filter(s => !s.empty)`:
   * the positions, in increasing order, of the addresses whose lookup finds
   * a user.
   */
  function FoundAt(users: seq<UserDoc>, emails: seq<string>): seq<nat> {
    Keep(Positions(|emails|), Finds(users, emails))
  }

  /** Whether the lookup of the address at position `k` finds a user. */
  function Finds(users: seq<UserDoc>, emails: seq<string>): nat -> bool {
    (k: nat) => k < |emails| && FirstWithEmail(users, emails[k]).Some?
  }

  /** One more address adds its own position when its lookup finds a user. */
  lemma FoundAtSnoc(users: seq<UserDoc>, init: seq<string>, e: string)
    ensures FoundAt(users, init + [e]) ==
      FoundAt(users, init) + (if FirstWithEmail(users, e).Some? then [|init|] else [])
  {
    var emails := init + [e];
    var n: nat := |init|;
    var p := Finds(users, emails);
    var q := Finds(users, init);
    assert Positions(|emails|) == Positions(n) + [n];
    KeepAppend<nat>(Positions(n), [n], p);
    KeepAgree(Positions(n), p, q);
    assert Keep([n], p) == (if p(n) then [n] else []) by {
      assert [n][1..] == [];
    }
  }

  /**
   * The specific audience is exactly `.map(s => s.docs[0].id)` over the
   * lookups that found a user: the k-th id is the id of the first user
   * carrying the k-th address that was found, so the ids follow the order
   * of the addresses and an address that finds nobody adds nothing.
   */
  lemma {:induction false} SpecificIdsFollowAddresses(users: seq<UserDoc>, emails: seq<string>)
    ensures var pos := FoundAt(users, emails);
      var ids := SpecificIds(users, emails);
      |ids| == |pos|
      && forall k :: 0 <= k < |pos| ==>
        pos[k] < |emails| && FirstWithEmail(users, emails[pos[k]]).Some?
        && ids[k] == FirstWithEmail(users, emails[pos[k]]).value.id
    decreases |emails|
  {
    var pos := FoundAt(users, emails);
    var ids := SpecificIds(users, emails);
    assert forall k :: 0 <= k < |pos| ==> pos[k] in pos;
    if emails != [] {
      var n := |emails| - 1;
      var init := emails[..n];
      var e := emails[n];
      assert emails == init + [e];
      SpecificIdsFollowAddresses(users, init);
      SpecificIdsSnoc(users, init, e);
      FoundAtSnoc(users, init, e);
      var posInit := FoundAt(users, init);
      var idsInit := SpecificIds(users, init);
      forall k | 0 <= k < |pos|
        ensures ids[k] == FirstWithEmail(users, emails[pos[k]]).value.id
      {
        if k < |posInit| {
          assert posInit[k] in posInit;
          assert pos[k] == posInit[k] && ids[k] == idsInit[k];
          assert emails[posInit[k]] == init[posInit[k]];
        } else {
          assert pos[k] == n && ids[k] == FoundId(users, e)[0];
        }
      }
    }
  }

  /** A string without commas, listed twice, splits into two copies. */
  lemma SplitTwice(e: string)
    requires Lacks(e, ',')
    ensures Split(e + "," + e, ",") == [e, e]
  {
    SplitAfterFree(e, ",", e);
    LacksNotContains(e, ",");
    SplitWithout(e, ",");
  }

  /** A string with no surrounding whitespace trims to itself. */
  lemma TrimmedIsItself(e: string)
    requires e != "" && !IsSpace(e[0]) && !IsSpace(e[|e| - 1])
    ensures Trim(e) == e
  {
    assert TrimStart(e) == e;
  }

  /** Two copies of an address that trims to itself trim to the same two copies. */
  lemma TrimsBoth(e: string)
    requires Trim(e) == e
    ensures TrimAll([e, e]) == [e, e]
  {
    TrimAllPair(e);
  }

  lemma TrimAllPair(x: string)
    ensures TrimAll([x, x]) == [Trim(x), Trim(x)]
  {
  }

  /** Two non-empty addresses both pass the non-empty filter. */
  lemma KeepsBoth(e: string)
    requires e != ""
    ensures Keep([e, e], NonEmpty) == [e, e]
  {
    assert [e, e][1..] == [e];
    assert [e][1..] == [];
  }

  /** An address listed twice parses into two copies of itself. */
  lemma ParsedTwice(e: string)
    requires e != "" && Lacks(e, ',') && !IsSpace(e[0]) && !IsSpace(e[|e| - 1])
    ensures ParseEmailList(e + "," + e) == [e, e]
  {
    SplitTwice(e);
    TrimmedIsItself(e);
    TrimsBoth(e);
    KeepsBoth(e);
  }

  /** An address given twice finds its user twice. */
  lemma FoundTwice(users: seq<UserDoc>, e: string)
    requires FirstWithEmail(users, e).Some?
    ensures SpecificIds(users, [e, e]) == [FirstWithEmail(users, e).value.id, FirstWithEmail(users, e).value.id]
  {
    assert [e, e][1..] == [e];
    assert SpecificIds(users, [e]) == [FirstWithEmail(users, e).value.id] by {
      assert [e][1..] == [];
    }
  }

  /** An address listed twice reaches its user twice: duplicates are kept. */
  lemma DuplicatesKept(users: seq<UserDoc>, e: string)
    requires e != "" && Lacks(e, ',') && !IsSpace(e[0]) && !IsSpace(e[|e| - 1])
    requires FirstWithEmail(users, e).Some?
    ensures var id := FirstWithEmail(users, e).value.id;
      SpecificIds(users, ParseEmailList(e + "," + e)) == [id, id]
  {
    ParsedTwice(e);
    FoundTwice(users, e);
  }

  /**
   * The target ids: a query audience's users, or the users found for a
   * specific list; none for an unknown `targetType`. A specific audience
   * without `targetUsers` fails (500).
   */
  function Targets(req: NotificationRequest, users: seq<UserDoc>, weekAgo: int, monthAgo: int): (r: Response<seq<string>>)
    ensures r.Err? <==> AudienceOf(req.targetType) == Specific && req.targetUsers.None?
    ensures r.Err? ==> r == Err(500, "Internal server error")
    ensures AudienceOf(req.targetType) == UnknownAudience ==> r == Ok([])
    ensures AudienceOf(req.targetType) in {Everyone, PremiumUsers, FreeUsers, ActiveUsers, InactiveUsers} ==>
      r == Ok(IdsOf(Selected(AudienceOf(req.targetType), users, weekAgo, monthAgo)))
    ensures AudienceOf(req.targetType) == Specific && req.targetUsers.Some? ==>
      r == Ok(SpecificIds(users, ParseEmailList(req.targetUsers.value)))
    ensures r.Ok? ==> forall id :: id in r.body ==> exists u :: u in users && u.id == id
  {
    var a := AudienceOf(req.targetType);
    if a == UnknownAudience then Ok([])
    else if a == Specific then
      if req.targetUsers.None? then Err(500, "Internal server error")
      else Ok(SpecificIds(users, ParseEmailList(req.targetUsers.value)))
    else
      var docs := Selected(a, users, weekAgo, monthAgo);
      var ids := IdsOf(docs);
      assert forall k :: 0 <= k < |ids| ==> docs[k] in users && docs[k].id == ids[k];
      Ok(ids)
  }

  // -----------------------------------------------------------------------
  // The notification record
  // -----------------------------------------------------------------------

  /** The deep link fields, written only when `deepLink` is truthy. */
  datatype DeepLink = DeepLink(link: string, data: string)

  function DeepLinkOf(req: NotificationRequest): (d: Option<DeepLink>)
    ensures d.Some? <==> Truthy(req.deepLink)
    ensures d.Some? ==> d.value == DeepLink(req.deepLink.value, Or(req.deepLinkData, ""))
  {
    if Truthy(req.deepLink) then Some(DeepLink(req.deepLink.value, Or(req.deepLinkData, ""))) else None
  }

  datatype NotificationRecord = NotificationRecord(
    title: Option<string>, message: Option<string>, targetType: Option<string>, priority: Option<string>,
    sentAt: Option<int>, scheduledFor: Option<int>, recipientCount: nat, status: string, sentBy: string,
    deepLink: Option<DeepLink>)

  /**
   * The record: sent now or scheduled, for `recipients` targets, by the
   * admin's email.
   */
  function Record(req: NotificationRequest, recipients: nat, sentBy: string, now: int): (r: NotificationRecord)
    ensures r.recipientCount == recipients && r.sentBy == sentBy
    ensures r.title == req.title && r.message == req.message && r.targetType == req.targetType && r.priority == req.priority
    ensures r.status == "sent" <==> req.scheduleType == Some("now")
    ensures r.status != "sent" ==> r.status == "scheduled"
    ensures r.sentAt.Some? <==> req.scheduleType == Some("now")
    ensures r.sentAt.Some? ==> r.sentAt.value == now
    ensures r.scheduledFor.Some? ==> req.scheduleType == Some("scheduled") && r.scheduledFor == req.scheduledTime
    ensures r.deepLink == DeepLinkOf(req)
  {
    var immediate := req.scheduleType == Some("now");
    NotificationRecord(req.title, req.message, req.targetType, req.priority,
      if immediate then Some(now) else None,
      if req.scheduleType == Some("scheduled") then req.scheduledTime else None,
      recipients, if immediate then "sent" else "scheduled", sentBy, DeepLinkOf(req))
  }

  // -----------------------------------------------------------------------
  // Batches of 500
  // -----------------------------------------------------------------------

  /** Push messages per multicast, and writes per write batch. */
  const BatchSize: nat := 500

  /** Consecutive slices of 500, the last one shorter. */
  function Chunks<T>(s: seq<T>): (cs: seq<seq<T>>)
    ensures forall k :: 0 <= k < |cs| ==> 0 < |cs[k]| <= BatchSize
    ensures |cs| == CeilDiv(|s|, BatchSize)
    decreases |s|
  {
    if s == [] then []
    else if |s| <= BatchSize then [s]
    else [s[..BatchSize]] + Chunks(s[BatchSize..])
  }

  /** The chunks, put back together in order, are the whole sequence: nothing lost, nothing repeated. */
  lemma {:induction false} ChunksCoverAll<T>(s: seq<T>)
    ensures Flatten(Chunks(s)) == s
    decreases |s|
  {
    if |s| > BatchSize {
      var rest := Chunks(s[BatchSize..]);
      ChunksCoverAll(s[BatchSize..]);
      assert ([s[..BatchSize]] + rest)[1..] == rest;
      assert s == s[..BatchSize] + s[BatchSize..];
    } else if s != [] {
      assert [s][1..] == [];
    }
  }

  /** The `k`-th chunk is `s.slice(500 * k, 500 * k + 500)`. */
  lemma {:induction false} ChunkIsSlice<T>(s: seq<T>, k: nat)
    requires k < |Chunks(s)|
    ensures Chunks(s)[k] == Slice(s, BatchSize * k, BatchSize * k + BatchSize)
    ensures BatchSize * k < |s|
    decreases k
  {
    if |s| <= BatchSize {
      assert Chunks(s) == [s] && k == 0;
      assert Slice(s, 0, BatchSize) == s[0..|s|] == s;
    } else {
      var t := s[BatchSize..];
      ChunksUnfold(s);
      if k == 0 {
        assert Slice(s, 0, BatchSize) == s[..BatchSize];
      } else {
        var m := BatchSize * (k - 1);
        assert BatchSize * k == m + BatchSize;
        ChunkIsSlice(t, k - 1);
        SliceOfRest(s, BatchSize, m, m + BatchSize);
        calc {
          Chunks(s)[k];
          Chunks(t)[k - 1];
          Slice(t, m, m + BatchSize);
          Slice(s, m + BatchSize, m + BatchSize + BatchSize);
        }
      }
    }
  }

  /** Past the first 500, the first chunk is the first 500 and the others are the chunks of the rest. */
  lemma ChunksUnfold<T>(s: seq<T>)
    requires |s| > BatchSize
    ensures Chunks(s)[0] == s[..BatchSize] && |Chunks(s)| == |Chunks(s[BatchSize..])| + 1
    ensures forall k :: 0 < k < |Chunks(s)| ==> Chunks(s)[k] == Chunks(s[BatchSize..])[k - 1]
  {
  }

  /** Slicing what follows the first `d` elements is slicing `s` itself, shifted by `d`. */
  lemma SliceOfRest<T>(s: seq<T>, d: nat, from: nat, to: nat)
    requires d <= |s|
    ensures Slice(s[d..], from, to) == Slice(s, from + d, to + d)
  {
    var hi := if to + d <= |s| then to + d else |s|;
    if from + d < hi {
      assert s[d..][from..hi - d] == s[from + d..hi];
    }
  }

  // -----------------------------------------------------------------------
  // Push delivery
  // -----------------------------------------------------------------------

  /** A target user whose document holds a device token. */
  datatype Holder = Holder(id: string, token: string)

  /** `doc(id).get()`: the first document with that id, if any. */
  function UserById(users: seq<UserDoc>, id: string): (r: Option<UserDoc>)
    ensures r.Some? ==> r.value in users && r.value.id == id
  {
    if users == [] then None
    else if users[0].id == id then Some(users[0])
    else UserById(users[1..], id)
  }

  /** The targets, in order, whose document exists and has a truthy `fcmToken`. */
  function Holders(targets: seq<string>, users: seq<UserDoc>): (hs: seq<Holder>)
    ensures |hs| <= |targets|
    ensures forall k :: 0 <= k < |hs| ==> hs[k].id in targets && hs[k].token != ""
  {
    if targets == [] then []
    else
      var u := UserById(users, targets[0]);
      (if u.Some? && Truthy(u.value.fcmToken) then [Holder(targets[0], u.value.fcmToken.value)] else [])
        + Holders(targets[1..], users)
  }

  /** One token's answer from the push service. */
  datatype SendResult = SendResult(success: bool, errorCode: Option<string>)

  /**
   * A batch's fate: the send threw, or it answered one result per token,
   * where `cleanupFails` says whether committing the token cleanup throws.
   */
  datatype BatchOutcome = Threw | Delivered(results: seq<SendResult>, cleanupFails: bool)

  /** The push service answers one result per token whenever it answers. */
  ghost predicate WellFormedService(send: seq<string> -> BatchOutcome) {
    forall tokens :: send(tokens).Delivered? ==> |send(tokens).results| == |tokens|
  }

  function Tokens(batch: seq<Holder>): (ts: seq<string>)
    ensures |ts| == |batch|
  {
    seq(|batch|, k requires 0 <= k < |batch| => batch[k].token)
  }

  /** The two error codes that mean a token is dead. */
  predicate InvalidToken(r: SendResult) {
    !r.success && (r.errorCode == Some("messaging/invalid-registration-token")
      || r.errorCode == Some("messaging/registration-token-not-registered"))
  }

  /** The ids of the batch users, by position, whose result `dead` picks out. */
  function IdsWhere(batch: seq<Holder>, results: seq<SendResult>, dead: SendResult -> bool): (ids: seq<string>)
    requires |results| == |batch|
    ensures |ids| <= |batch|
    decreases |batch|
  {
    if batch == [] then []
    else
      var n := |batch| - 1;
      IdsWhere(batch[..n], results[..n], dead) + (if dead(results[n]) then [batch[n].id] else [])
  }

  /** A user is picked exactly when some position holds their id and a result `dead` picks out. */
  lemma {:induction false} IdsWhereExact(batch: seq<Holder>, results: seq<SendResult>, dead: SendResult -> bool, id: string)
    requires |results| == |batch|
    ensures id in IdsWhere(batch, results, dead) <==> exists k :: 0 <= k < |batch| && batch[k].id == id && dead(results[k])
    decreases |batch|
  {
    if batch != [] {
      var n := |batch| - 1;
      IdsWhereExact(batch[..n], results[..n], dead, id);
      if id in IdsWhere(batch[..n], results[..n], dead) {
        var k :| 0 <= k < n && batch[..n][k].id == id && dead(results[..n][k]);
        assert batch[k].id == id && dead(results[k]);
      }
      if exists k :: 0 <= k < |batch| && batch[k].id == id && dead(results[k]) {
        var k :| 0 <= k < |batch| && batch[k].id == id && dead(results[k]);
        if k < n {
          assert batch[..n][k].id == id && dead(results[..n][k]);
        }
      }
    }
  }

  /** The ids of the batch users, by position, whose result says their token is dead. */
  function InvalidIds(batch: seq<Holder>, results: seq<SendResult>): (ids: seq<string>)
    requires |results| == |batch|
  {
    IdsWhere(batch, results, InvalidToken)
  }

  /** Exactly the holders whose result carries one of the two codes are selected. */
  lemma InvalidIdsExact(batch: seq<Holder>, results: seq<SendResult>, id: string)
    requires |results| == |batch|
    ensures id in InvalidIds(batch, results) <==> exists k :: 0 <= k < |batch| && batch[k].id == id && InvalidToken(results[k])
  {
    IdsWhereExact(batch, results, InvalidToken, id);
  }

  /** The `forEach` that collects the dead tokens' users. */
  method SelectInvalid(batch: seq<Holder>, results: seq<SendResult>) returns (ids: seq<string>)
    requires |results| == |batch|
    ensures ids == InvalidIds(batch, results)
  {
    ids := [];
    var k := 0;
    while k < |results|
      invariant k <= |results|
      invariant ids == InvalidIds(batch[..k], results[..k])
    {
      assert batch[..k + 1][..k] == batch[..k];
      assert results[..k + 1][..k] == results[..k];
      if InvalidToken(results[k]) {
        ids := ids + [batch[k].id];
      }
      k := k + 1;
    }
    assert batch[..k] == batch;
    assert results[..k] == results;
  }

  function Successes(results: seq<SendResult>): nat {
    CountIf(results, (r: SendResult) => r.success)
  }

  function Failures(results: seq<SendResult>): nat {
    CountIf(results, (r: SendResult) => !r.success)
  }

  /** Every result is a success or a failure. */
  lemma {:induction false} ResultsSplit(results: seq<SendResult>)
    ensures Successes(results) + Failures(results) == |results|
  {
    if results != [] {
      ResultsSplit(results[..|results| - 1]);
    }
  }

  /** The running counters and the users whose tokens were cleared. */
  datatype PushTally = PushTally(success: nat, failure: nat, cleared: seq<string>)

  /**
   * One batch's effect on the counters. A batch that throws counts all its
   * tokens as failures. When the cleanup commit throws after the counters
   * were already added, the same handler adds the whole batch to the
   * failures a second time and clears nothing.
   */
  function BatchStep(t: PushTally, batch: seq<Holder>, outcome: BatchOutcome): (r: PushTally)
    requires outcome.Delivered? ==> |outcome.results| == |batch|
  {
    match outcome
    case Threw => PushTally(t.success, t.failure + |batch|, t.cleared)
    case Delivered(results, cleanupFails) =>
      var s := t.success + Successes(results);
      var f := t.failure + Failures(results);
      if Failures(results) == 0 then PushTally(s, f, t.cleared)
      else
        var dead := InvalidIds(batch, results);
        if dead != [] && cleanupFails then PushTally(s, f + |batch|, t.cleared)
        else PushTally(s, f, t.cleared + dead)
  }

  /** The counters after the given batches, in order. */
  function PushTotals(batches: seq<seq<Holder>>, send: seq<string> -> BatchOutcome): PushTally
    requires WellFormedService(send)
  {
    if batches == [] then PushTally(0, 0, [])
    else
      var b := batches[|batches| - 1];
      BatchStep(PushTotals(batches[..|batches| - 1], send), b, send(Tokens(b)))
  }

  /** The counters after one more batch. */
  lemma PushTotalsSnoc(cs: seq<seq<Holder>>, b: nat, send: seq<string> -> BatchOutcome)
    requires WellFormedService(send) && b < |cs|
    ensures PushTotals(cs[..b + 1], send) == BatchStep(PushTotals(cs[..b], send), cs[b], send(Tokens(cs[b])))
  {
    assert cs[..b + 1][..b] == cs[..b];
  }

  /** Another batch remains exactly while the slice start is inside the sequence. */
  lemma ChunkCount(n: nat, b: nat)
    ensures b < CeilDiv(n, BatchSize) <==> BatchSize * b < n
  {
  }

  /** One iteration: send a batch, add its counts, and clear its dead tokens. */
  method RunBatch(t: PushTally, batch: seq<Holder>, outcome: BatchOutcome) returns (t': PushTally)
    requires outcome.Delivered? ==> |outcome.results| == |batch|
    ensures t' == BatchStep(t, batch, outcome)
  {
    match outcome {
      case Threw =>
        t' := PushTally(t.success, t.failure + |batch|, t.cleared);
      case Delivered(results, cleanupFails) =>
        t' := PushTally(t.success + Successes(results), t.failure + Failures(results), t.cleared);
        if Failures(results) > 0 {
          var dead := SelectInvalid(batch, results);
          if dead != [] {
            if cleanupFails {
              t' := PushTally(t'.success, t'.failure + |batch|, t'.cleared);
            } else {
              t' := PushTally(t'.success, t'.failure, t'.cleared + dead);
            }
          }
        }
    }
  }

  /** The `for` loop over 500-token slices, accumulating the counters and clearing dead tokens. */
  method SendPush(holders: seq<Holder>, send: seq<string> -> BatchOutcome) returns (t: PushTally)
    requires WellFormedService(send)
    ensures t == PushTotals(Chunks(holders), send)
  {
    var cs := Chunks(holders);
    t := PushTally(0, 0, []);
    var i := 0;
    var b := 0;
    while i < |holders|
      invariant 0 <= b <= |cs| && i == BatchSize * b
      invariant b < |cs| <==> i < |holders|
      invariant t == PushTotals(cs[..b], send)
    {
      ChunkIsSlice(holders, b);
      var batch := Slice(holders, i, i + BatchSize);
      assert batch == cs[b];
      PushTotalsSnoc(cs, b, send);
      ChunkCount(|holders|, b + 1);
      var outcome := send(Tokens(batch));
      assert outcome.Delivered? ==> |outcome.results| == |batch|;
      t := RunBatch(t, batch, outcome);
      i := i + BatchSize;
      b := b + 1;
    }
    assert cs[..b] == cs;
  }

  /**
   * One batch adds between its size and twice its size to the two
   * counters, and exactly its size unless its cleanup commit throws.
   */
  lemma BatchCounts(t: PushTally, batch: seq<Holder>, outcome: BatchOutcome)
    requires outcome.Delivered? ==> |outcome.results| == |batch|
    ensures var r := BatchStep(t, batch, outcome);
      t.success + t.failure + |batch| <= r.success + r.failure <= t.success + t.failure + 2 * |batch|
    ensures !(outcome.Delivered? && outcome.cleanupFails) ==>
      BatchStep(t, batch, outcome).success + BatchStep(t, batch, outcome).failure == t.success + t.failure + |batch|
  {
    if outcome.Delivered? {
      ResultsSplit(outcome.results);
    }
  }

  /** No batch's cleanup commit throws. */
  predicate CleanCommits(batches: seq<seq<Holder>>, send: seq<string> -> BatchOutcome) {
    forall k :: 0 <= k < |batches| ==> !(send(Tokens(batches[k])).Delivered? && send(Tokens(batches[k])).cleanupFails)
  }

  /**
   * Every token is counted once as a success or a failure, unless a
   * cleanup commit throws, which counts that batch's tokens a second time:
   * the counters add up to between the number of tokens and twice it.
   */
  lemma {:induction false} CountersCoverTokens(batches: seq<seq<Holder>>, send: seq<string> -> BatchOutcome)
    requires WellFormedService(send)
    ensures var t := PushTotals(batches, send);
      |Flatten(batches)| <= t.success + t.failure <= 2 * |Flatten(batches)|
    ensures CleanCommits(batches, send) ==>
      PushTotals(batches, send).success + PushTotals(batches, send).failure == |Flatten(batches)|
  {
    if batches != [] {
      var n := |batches| - 1;
      var b := batches[n];
      CountersCoverTokens(batches[..n], send);
      assert batches == batches[..n] + [b];
      FlattenAppend(batches[..n], b);
      var outcome := send(Tokens(b));
      BatchCounts(PushTotals(batches[..n], send), b, outcome);
      if CleanCommits(batches, send) {
        assert CleanCommits(batches[..n], send) by {
          forall k | 0 <= k < n ensures !(send(Tokens(batches[..n][k])).Delivered? && send(Tokens(batches[..n][k])).cleanupFails) {
            assert batches[..n][k] == batches[k];
          }
        }
        assert !(outcome.Delivered? && outcome.cleanupFails) by {
          assert batches[n] == b;
        }
      }
    }
  }

  /** A single dead token whose cleanup commit throws is counted as two failures. */
  lemma FailedCleanupCountsTwice(h: Holder, send: seq<string> -> BatchOutcome)
    requires WellFormedService(send)
    requires send([h.token]) == Delivered([SendResult(false, Some("messaging/invalid-registration-token"))], true)
    ensures PushTotals(Chunks([h]), send) == PushTally(0, 2, [])
  {
    var batches := Chunks([h]);
    assert batches == [[h]];
    assert Tokens([h]) == [h.token];
    assert batches[..0] == [];
    var results := [SendResult(false, Some("messaging/invalid-registration-token"))];
    assert results[..0] == [];
    assert Failures(results) == 1;
    assert Successes(results) == 0;
    assert InvalidIds([h], results) == [h.id] by {
      assert [h][..0] == [];
    }
  }

  /** Every cleared token belonged to a holder that the push service reported dead. */
  lemma {:induction false} ClearedAreDead(batches: seq<seq<Holder>>, send: seq<string> -> BatchOutcome, id: string)
    requires WellFormedService(send)
    requires id in PushTotals(batches, send).cleared
    ensures exists k, j :: (0 <= k < |batches| && 0 <= j < |batches[k]| && batches[k][j].id == id
      && send(Tokens(batches[k])).Delivered? && InvalidToken(send(Tokens(batches[k])).results[j]))
  {
    var n := |batches| - 1;
    var b := batches[n];
    var outcome := send(Tokens(b));
    var before := PushTotals(batches[..n], send);
    if id in before.cleared {
      ClearedAreDead(batches[..n], send, id);
      var k, j :| 0 <= k < n && 0 <= j < |batches[..n][k]| && batches[..n][k][j].id == id
        && send(Tokens(batches[..n][k])).Delivered? && InvalidToken(send(Tokens(batches[..n][k])).results[j]);
      assert batches[..n][k] == batches[k];
    } else {
      InvalidIdsExact(b, outcome.results, id);
      var j :| 0 <= j < |b| && b[j].id == id && InvalidToken(outcome.results[j]);
      assert batches[n][j].id == id;
    }
  }

  // -----------------------------------------------------------------------
  // In-app copies
  // -----------------------------------------------------------------------

  datatype InAppRecord = InAppRecord(
    userId: string, title: Option<string>, message: Option<string>, priority: Option<string>,
    read: bool, createdAt: int, deepLink: Option<DeepLink>)

  function InAppFor(id: string, req: NotificationRequest, now: int): InAppRecord {
    InAppRecord(id, req.title, req.message, req.priority, false, now, DeepLinkOf(req))
  }

  /** One unread copy per target, in target order. */
  function InAppRecords(ids: seq<string>, req: NotificationRequest, now: int): (recs: seq<InAppRecord>)
    ensures |recs| == |ids|
    ensures forall k :: 0 <= k < |ids| ==> recs[k].userId == ids[k] && !recs[k].read && recs[k].createdAt == now
  {
    seq(|ids|, k requires 0 <= k < |ids| => InAppFor(ids[k], req, now))
  }

  /** The `forEach` that fills one write batch. */
  method FillBatch(ids: seq<string>, req: NotificationRequest, now: int) returns (recs: seq<InAppRecord>)
    ensures recs == InAppRecords(ids, req, now)
  {
    recs := [];
    var k := 0;
    while k < |ids|
      invariant k <= |ids|
      invariant recs == InAppRecords(ids[..k], req, now)
    {
      recs := recs + [InAppFor(ids[k], req, now)];
      k := k + 1;
    }
    assert ids[..k] == ids;
  }

  /**
   * The first write batch of up to 500 targets, then one more batch per
   * further 500: every target gets exactly one copy, in `ceil(n / 500)`
   * commits.
   */
  method WriteInApp(targets: seq<string>, req: NotificationRequest, now: int) returns (recs: seq<InAppRecord>, commits: nat)
    requires targets != []
    ensures recs == InAppRecords(targets, req, now)
    ensures commits == |Chunks(targets)| == CeilDiv(|targets|, BatchSize)
  {
    var first := Slice(targets, 0, BatchSize);
    recs := FillBatch(first, req, now);
    commits := 1;
    var i := BatchSize;
    while i < |targets|
      invariant i == BatchSize * commits
      invariant 1 <= commits && (i < |targets| || commits == CeilDiv(|targets|, BatchSize))
      invariant recs == InAppRecords(targets[..Min(i, |targets|)], req, now)
    {
      var more := FillBatch(Slice(targets, i, i + BatchSize), req, now);
      assert targets[..Min(i + BatchSize, |targets|)] == targets[..i] + Slice(targets, i, i + BatchSize);
      recs := recs + more;
      i := i + BatchSize;
      commits := commits + 1;
    }
    assert targets[..Min(i, |targets|)] == targets;
  }

  // -----------------------------------------------------------------------
  // POST
  // -----------------------------------------------------------------------

  /** The counters written back onto the record. */
  datatype SendStats = SendStats(fcmSuccessCount: nat, fcmFailureCount: nat, totalRecipients: nat, tokensFound: nat)

  /** What an immediate notification does beyond its record. */
  datatype Delivery = Delivery(push: PushTally, inApp: seq<InAppRecord>, stats: SendStats)

  /** The writes of a successful POST. */
  datatype Effects = Effects(record: NotificationRecord, delivery: Option<Delivery>)

  /** `{ success, notificationId, recipientCount, message }` */
  datatype PostBody = PostBody(notificationId: string, recipientCount: nat, message: string)

  function Confirmation(immediate: bool, n: nat): string {
    if immediate then "Bildirim " + IntToString(n) + " kullanıcıya gönderildi"
    else "Bildirim " + IntToString(n) + " kullanıcı için zamanlandı"
  }

  /** The delivery of an immediate notification to `targets`. */
  function Deliver(targets: seq<string>, users: seq<UserDoc>, req: NotificationRequest, now: int,
                   send: seq<string> -> BatchOutcome): (d: Delivery)
    requires WellFormedService(send)
    ensures d.stats.totalRecipients == |targets| && d.stats.tokensFound == |Holders(targets, users)|
    ensures d.stats.fcmSuccessCount == d.push.success && d.stats.fcmFailureCount == d.push.failure
    ensures d.inApp == InAppRecords(targets, req, now)
  {
    var holders := Holders(targets, users);
    var push := PushTotals(Chunks(holders), send);
    Delivery(push, InAppRecords(targets, req, now), SendStats(push.success, push.failure, |targets|, |holders|))
  }

  /**
   * An accepted notification for a non-empty audience: the record, the
   * delivery when it is sent now, and the confirmation.
   */
  function Accept(admin: AdminUser, req: NotificationRequest, ids: seq<string>, users: seq<UserDoc>, now: int,
                  docId: string, send: seq<string> -> BatchOutcome)
    : (out: (Response<PostBody>, Option<Effects>))
    requires WellFormedService(send)
    ensures out.0.Ok? && out.1.Some?
    ensures out.0.body.notificationId == docId
    ensures out.0.body.recipientCount == |ids| == out.1.value.record.recipientCount
    ensures out.1.value.record == Record(req, |ids|, admin.email, now)
    ensures out.1.value.delivery.Some? <==> req.scheduleType == Some("now")
    ensures out.1.value.delivery.Some? ==> out.1.value.delivery.value == Deliver(ids, users, req, now, send)
  {
    var immediate := req.scheduleType == Some("now");
    var record := Record(req, |ids|, admin.email, now);
    var delivery := if immediate then Some(Deliver(ids, users, req, now, send)) else None;
    (Ok(PostBody(docId, |ids|, Confirmation(immediate, |ids|))), Some(Effects(record, delivery)))
  }

  /**
   * POST: 401/403 from the admin gate (with this handler's own messages),
   * 500 for a specific audience without addresses, 400 for an empty
   * audience, none of which writes anything; otherwise the accepted
   * notification.
   */
  function PostSpec(env: Option<string>, header: Option<string>, verify: string -> TokenCheck, req: NotificationRequest,
                    users: seq<UserDoc>, weekAgo: int, monthAgo: int, now: int, docId: string,
                    send: seq<string> -> BatchOutcome)
    : (out: (Response<PostBody>, Option<Effects>))
    requires WellFormedService(send)
    ensures out.0.Err? <==> out.1.None?
    ensures var gate := AdminGate(env, header, verify);
      gate.Err? ==> out.0 == Err(gate.status, if gate.status == 401 then "Unauthorized - Token eksik" else "Forbidden - Admin yetkisi yok")
    ensures var gate := AdminGate(env, header, verify);
      var targets := Targets(req, users, weekAgo, monthAgo);
      gate.Ok? && targets.Ok? && targets.body == [] ==> out.0 == Err(400, "Hedef kullanıcı bulunamadı")
    ensures var gate := AdminGate(env, header, verify);
      var targets := Targets(req, users, weekAgo, monthAgo);
      gate.Ok? && targets.Ok? && targets.body != [] ==> out == Accept(gate.body, req, targets.body, users, now, docId, send)
  {
    var gate := AdminGate(env, header, verify);
    if gate.Err? then
      (Err(gate.status, if gate.status == 401 then "Unauthorized - Token eksik" else "Forbidden - Admin yetkisi yok"), None)
    else
      var targets := Targets(req, users, weekAgo, monthAgo);
      if targets.Err? then (Err(targets.status, targets.error), None)
      else if targets.body == [] then (Err(400, "Hedef kullanıcı bulunamadı"), None)
      else Accept(gate.body, req, targets.body, users, now, docId, send)
  }

  /** The handler, step by step. */
  method Post(env: Option<string>, header: Option<string>, verify: string -> TokenCheck, req: NotificationRequest,
              users: seq<UserDoc>, weekAgo: int, monthAgo: int, now: int, docId: string,
              send: seq<string> -> BatchOutcome)
    returns (r: Response<PostBody>, effects: Option<Effects>)
    requires WellFormedService(send)
    ensures (r, effects) == PostSpec(env, header, verify, req, users, weekAgo, monthAgo, now, docId, send)
  {
    var gate := AdminGate(env, header, verify);
    if gate.Err? {
      var msg := if gate.status == 401 then "Unauthorized - Token eksik" else "Forbidden - Admin yetkisi yok";
      return Err(gate.status, msg), None;
    }
    var targets := Targets(req, users, weekAgo, monthAgo);
    if targets.Err? {
      return Err(targets.status, targets.error), None;
    }
    var ids := targets.body;
    if |ids| == 0 {
      return Err(400, "Hedef kullanıcı bulunamadı"), None;
    }
    var record := Record(req, |ids|, gate.body.email, now);
    var delivery: Option<Delivery> := None;
    var immediate := req.scheduleType == Some("now");
    if immediate {
      var holders := Holders(ids, users);
      var push := SendPush(holders, send);
      var inApp, _ := WriteInApp(ids, req, now);
      delivery := Some(Delivery(push, inApp, SendStats(push.success, push.failure, |ids|, |holders|)));
    }
    r := Ok(PostBody(docId, |ids|, Confirmation(immediate, |ids|)));
    effects := Some(Effects(record, delivery));
  }

  // -----------------------------------------------------------------------
  // GET
  // -----------------------------------------------------------------------

  /** At most this many notifications are listed. */
  const ListLimit: nat := 50

  /** Sent: `sentAt` holds a time. */
  predicate IsDated(n: NotificationSummary) {
    n.sentAt.At?
  }

  /** Scheduled: `sentAt` was written as `null`. */
  predicate IsUndated(n: NotificationSummary) {
    n.sentAt.Null?
  }

  function SentAt(n: NotificationSummary): int {
    if n.sentAt.At? then n.sentAt.ms else 0
  }

  /** The sent notifications, newest first, 50 at most. */
  function Dated(docs: seq<NotificationSummary>): (r: seq<NotificationSummary>)
    ensures |r| == Min(ListLimit, |Keep(docs, IsDated)|)
    ensures SortedDesc(r, SentAt)
    ensures forall n :: n in r ==> n in docs && IsDated(n)
  {
    Newest(docs, IsDated, SentAt, ListLimit)
  }

  /** The scheduled notifications, in the store's order. */
  function Undated(docs: seq<NotificationSummary>): (r: seq<NotificationSummary>)
    ensures forall n :: n in r <==> n in docs && IsUndated(n)
  {
    Keep(docs, IsUndated)
  }

  /**
   * `orderBy('sentAt', 'desc').limit(50)`: documents without the field are
   * left out; the sent ones come newest first, then the ones stored with a
   * null `sentAt`, which sort below every time; 50 at most.
   */
  function ListBody(docs: seq<NotificationSummary>): (r: seq<NotificationSummary>)
    ensures |r| == Min(ListLimit, |Dated(docs)| + |Undated(docs)|)
    ensures forall n :: n in r ==> n in docs && !n.sentAt.Absent?
  {
    var dated := Dated(docs);
    var undated := Undated(docs);
    ConcatPrefix(dated, undated, Min(ListLimit - |dated|, |undated|));
    dated + undated[..Min(ListLimit - |dated|, |undated|)]
  }

  /** The list is the sent notifications newest first, followed by the scheduled ones in the store's order. */
  lemma ListBodyOrder(docs: seq<NotificationSummary>)
    ensures |Dated(docs)| <= |ListBody(docs)| && ListBody(docs)[..|Dated(docs)|] == Dated(docs)
    ensures forall i :: |Dated(docs)| <= i < |ListBody(docs)| ==> ListBody(docs)[i] == Undated(docs)[i - |Dated(docs)|]
  {
    var dated := Dated(docs);
    var undated := Undated(docs);
    ConcatPrefix(dated, undated, Min(ListLimit - |dated|, |undated|));
  }

  /** Shape of a sequence followed by a prefix of another. */
  lemma ConcatPrefix<T>(a: seq<T>, b: seq<T>, k: nat)
    requires k <= |b|
    ensures |a + b[..k]| == |a| + k && (a + b[..k])[..|a|] == a
    ensures forall i :: |a| <= i < |a| + k ==> (a + b[..k])[i] == b[i - |a|]
    ensures forall x :: x in a + b[..k] ==> x in a || x in b
  {
    assert (a + b[..k])[..|a|] == a;
    forall x | x in a + b[..k] ensures x in a || x in b {
      if x !in a {
        var j :| 0 <= j < |a| + k && (a + b[..k])[j] == x;
        assert b[j - |a|] == x;
      }
    }
  }

  /**
   * A notification stored with a null `sentAt` is listed as long as the
   * documents that carry the field fit in one list.
   */
  lemma UndatedListed(docs: seq<NotificationSummary>, n: NotificationSummary)
    requires n in docs && n.sentAt.Null?
    requires |Dated(docs)| + |Undated(docs)| <= ListLimit
    ensures n in ListBody(docs)
  {
    var undated := Undated(docs);
    var r := ListBody(docs);
    var d := |Dated(docs)|;
    ListBodyOrder(docs);
    assert n in undated;
    var j :| 0 <= j < |undated| && undated[j] == n;
    assert r[d + j] == undated[j];
  }

  /** The listed form of a stored record: `sentAt` is a time when sent now, `null` when scheduled. */
  function Summary(id: string, rec: NotificationRecord): (n: NotificationSummary)
    ensures n.id == id && !n.sentAt.Absent?
    ensures n.sentAt.Null? <==> rec.sentAt.None?
    ensures rec.sentAt.Some? ==> n.sentAt.At? && n.sentAt.ms == rec.sentAt.value
  {
    NotificationSummary(id, if rec.sentAt.Some? then At(rec.sentAt.value) else Null)
  }

  /**
   * A notification that POST stores without sending now is listed by GET
   * after the dated ones, while fewer than 50 listable documents precede it.
   */
  lemma ScheduledListed(docs: seq<NotificationSummary>, id: string, req: NotificationRequest,
                        recipients: nat, sentBy: string, now: int)
    requires req.scheduleType != Some("now")
    requires |Dated(docs)| + |Undated(docs)| < ListLimit
    ensures Summary(id, Record(req, recipients, sentBy, now)) in ListBody(docs + [Summary(id, Record(req, recipients, sentBy, now))])
    ensures !IsDated(Summary(id, Record(req, recipients, sentBy, now)))
  {
    var n := Summary(id, Record(req, recipients, sentBy, now));
    KeepAppend(docs, [n], IsDated);
    KeepAppend(docs, [n], IsUndated);
    assert Keep([n], IsDated) == [];
    assert Keep([n], IsUndated) == [n];
    assert |Dated(docs + [n])| == |Dated(docs)|;
    UndatedListed(docs + [n], n);
  }

  /** GET: 401/403 from the admin gate, otherwise the list, cached for 1 minute. */
  method Get(cache: SmartCache<Payload>, env: Option<string>, header: Option<string>, verify: string -> TokenCheck,
             now: int, docs: seq<NotificationSummary>)
    returns (r: Response<Served>)
    modifies cache
    ensures var gate := AdminGate(env, header, verify);
      gate.Err? ==> r == Err(gate.status, gate.error) && cache.entries == old(cache.entries)
    ensures var gate := AdminGate(env, header, verify);
      var body := NotificationList(ListBody(docs));
      gate.Ok? ==> (r == Ok(Serve(old(cache.entries), "notifications_list", now, 1, body).0)
        && cache.entries == Serve(old(cache.entries), "notifications_list", now, 1, body).1)
  {
    var gate := AdminGate(env, header, verify);
    if gate.Err? {
      return Err(gate.status, gate.error);
    }
    var served := CachedFetch(cache, "notifications_list", now, 1, NotificationList(ListBody(docs)));
    r := Ok(served);
  }
}
