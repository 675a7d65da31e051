/**
 * The admin users page: one fetched page of users, narrowed in place by a
 * search box, with a status badge, an action menu and a detail modal per
 * user.
 */
module UsersPage {
  import opened Common
  import opened AdminAuth
  import opened RequestAuth
  import opened Records
  import opened AdminPaging
  import UsersRoute
  import PremiumRoute

  // -----------------------------------------------------------------------
  // Study time
  // -----------------------------------------------------------------------

  /**
   * `formatMinutes`: whole hours, then the remaining minutes, as
   * `${Math.floor(m / 60)}s ${m % 60}dk`. The remainder keeps the sign of
   * `m`, as JavaScript's `%` does.
   */
  function FormatMinutes(m: int): string {
    IntToString(FloorDiv(m, 60)) + "s " + IntToString(JsRem(m, 60)) + "dk"
  }

  /** For a non-negative count the text reads off the hours and the minutes under 60. */
  lemma FormatMinutesReads(m: int, h: nat, mm: nat)
    requires mm < 60 && m == 60 * h + mm
    ensures FormatMinutes(m) == NatToString(h) + "s " + NatToString(mm) + "dk"
  {
    assert FloorDiv(m, 60) == h;
    assert JsRem(m, 60) == mm;
  }

  /** A negative count shows a minus sign on both parts. */
  lemma NegativeMinutesShowTwoSigns()
    ensures FormatMinutes(-1) == "-1s -1dk"
  {
    assert FloorDiv(-1, 60) == -1;
    assert JsRem(-1, 60) == -1;
    assert NatToString(1) == "1";
  }

  /** Two digit strings each followed by the same non-digit split alike. */
  lemma DigitsBeforeMark(x: string, y: string, u: string, v: string, mark: char)
    requires forall i :: 0 <= i < |x| ==> IsDigit(x[i])
    requires forall i :: 0 <= i < |y| ==> IsDigit(y[i])
    requires !IsDigit(mark) && x + [mark] + u == y + [mark] + v
    ensures x == y && u == v
  {
    var s, t := x + [mark] + u, y + [mark] + v;
    assert s[|x|] == mark && t[|y|] == mark;
    assert forall i :: 0 <= i < |x| ==> s[i] == x[i];
    assert forall i :: 0 <= i < |y| ==> t[i] == y[i];
    assert |x| == |y|;
    assert x == s[..|x|] && y == t[..|y|];
    assert u == s[|x| + 1..] && v == t[|y| + 1..];
  }

  /** The text of a non-negative count, cut at the `s` that ends the hours. */
  lemma FormatMinutesShape(m: nat)
    ensures FormatMinutes(m) == NatToString(m / 60) + ['s'] + ([' '] + NatToString(m % 60) + "dk")
  {
    FormatMinutesReads(m, m / 60, m % 60);
  }

  /** The minutes part, cut at the `d` that ends it. */
  lemma MinutesPartShape(t: string)
    ensures ([' '] + t + "dk")[1..] == t + ['d'] + "k"
  {
  }

  /** Different non-negative study times never show the same text. */
  lemma FormatMinutesInjective(a: nat, b: nat)
    requires FormatMinutes(a) == FormatMinutes(b)
    ensures a == b
  {
    FormatMinutesShape(a);
    FormatMinutesShape(b);
    var ma, mb := NatToString(a % 60), NatToString(b % 60);
    DigitsBeforeMark(NatToString(a / 60), NatToString(b / 60), [' '] + ma + "dk", [' '] + mb + "dk", 's');
    MinutesPartShape(ma);
    MinutesPartShape(mb);
    DigitsBeforeMark(ma, mb, "k", "k", 'd');
    NatToStringInjective(a / 60, b / 60);
    NatToStringInjective(a % 60, b % 60);
  }

  // -----------------------------------------------------------------------
  // The search box
  // -----------------------------------------------------------------------

  /**
   * A user matches when the lower-cased name or the lower-cased email
   * contains the lower-cased term. A missing email matches nothing.
   */
  predicate Matches(u: UserDto, term: string) {
    Contains(ToLower(u.displayName), ToLower(term))
    || (u.email.Some? && Contains(ToLower(u.email.value), ToLower(term)))
  }

  /** `filteredUsers`: the fetched page's users that match, in their order. */
  function Search(users: seq<UserDto>, term: string): (r: seq<UserDto>)
    ensures |r| <= |users|
    ensures forall u :: u in r <==> u in users && Matches(u, term)
  {
    Keep(users, u => Matches(u, term))
  }

  /** The empty term keeps every user. */
  lemma SearchEmptyKeepsAll(users: seq<UserDto>)
    ensures Search(users, "") == users
  {
    forall i | 0 <= i < |users|
      ensures Matches(users[i], "")
    {
      assert OccursAt(ToLower(users[i].displayName), "", 0);
    }
    KeepAll(users, u => Matches(u, ""));
  }

  /** The search does not see case: a term and its lower-cased form keep the same users. */
  lemma SearchIgnoresCase(users: seq<UserDto>, term: string)
    ensures Search(users, ToLower(term)) == Search(users, term)
  {
    ToLowerIdempotent(term);
    KeepAgree(users, u => Matches(u, ToLower(term)), u => Matches(u, term));
  }

  lemma ContainsLonger(s: string, a: string, b: string)
    requires Contains(s, a + b)
    ensures Contains(s, a)
  {
    var k: nat :| k <= |s| && OccursAt(s, a + b, k);
    assert s[k..k + |a|] == (a + b)[..|a|] == a;
    assert OccursAt(s, a, k);
  }

  /** Typing more only narrows the list: a match for `a + b` is a match for `a`. */
  lemma LongerTermNarrows(users: seq<UserDto>, a: string, b: string)
    ensures forall u :: u in Search(users, a + b) ==> u in Search(users, a)
  {
    ToLowerAppend(a, b);
    forall u | u in Search(users, a + b)
      ensures u in Search(users, a)
    {
      if Contains(ToLower(u.displayName), ToLower(a + b)) {
        ContainsLonger(ToLower(u.displayName), ToLower(a), ToLower(b));
      } else {
        ContainsLonger(ToLower(u.email.value), ToLower(a), ToLower(b));
      }
    }
  }

  // -----------------------------------------------------------------------
  // Badges, the action menu and the detail modal
  // -----------------------------------------------------------------------

  datatype UserBadge = PremiumBadge | BannedBadge | FreeBadge

  /** The status column: Premium, Yasaklı, or Ücretsiz when neither applies. */
  function Badges(u: UserDto): (r: seq<UserBadge>)
    ensures PremiumBadge in r <==> u.isPremium
    ensures BannedBadge in r <==> u.isBanned
    ensures FreeBadge in r <==> !u.isPremium && !u.isBanned
    ensures 1 <= |r| <= 2
  {
    (if u.isPremium then [PremiumBadge] else [])
    + (if u.isBanned then [BannedBadge] else [])
    + (if !u.isPremium && !u.isBanned then [FreeBadge] else [])
  }

  datatype MenuItem = ShowDetails | Ban | Unban | Delete

  /** The PATCH action a menu item sends; showing the details sends none. */
  function ActionOf(item: MenuItem): Option<string> {
    match item
    case ShowDetails => None
    case Ban => Some("ban")
    case Unban => Some("unban")
    case Delete => Some("delete")
  }

  /** Ban for a user who is not banned, Unban for one who is. */
  function BanToggle(u: UserDto): (item: MenuItem)
    ensures item == Ban <==> !u.isBanned
    ensures item == Unban <==> u.isBanned
  {
    if u.isBanned then Unban else Ban
  }

  /** The row's menu: details, exactly one of Ban and Unban, and delete. */
  function Menu(u: UserDto): (r: seq<MenuItem>)
    ensures |r| == 3 && ShowDetails in r && Delete in r
    ensures Ban in r <==> !u.isBanned
    ensures Unban in r <==> u.isBanned
  {
    [ShowDetails, BanToggle(u), Delete]
  }

  /** The ban item always flips the flag, and only for that user. */
  lemma BanToggleFlips(env: Option<string>, header: Option<string>, verify: string -> TokenCheck,
                       u: UserDto, other: string, otherBanned: bool, now: int)
    requires InlineAdminCheck(env, header, verify).Ok? && u.id != "" && other != u.id
    ensures var ops := UsersRoute.Patch(env, header, verify, Some(u.id), ActionOf(BanToggle(u)), None, now).body;
      UsersRoute.BannedAfter(u.isBanned, ops, u.id) == !u.isBanned
      && UsersRoute.BannedAfter(otherBanned, ops, other) == otherBanned
  {
    UsersRoute.BanUnbanEffect(env, header, verify, u.id, other, u.isBanned, now);
    UsersRoute.BanUnbanEffect(env, header, verify, u.id, other, otherBanned, now);
  }

  /** The detail modal offers "Premium Ver" only to a user who is not premium. */
  predicate OffersPremium(u: UserDto) {
    !u.isPremium
  }

  /** The `data` "Premium Ver" sends: premium, until 30 days after the browser's clock. */
  function PremiumGrant(now: int): (data: UsersRoute.PremiumData)
    ensures data.isPremium == Some(true)
    ensures data.premiumUntil.Some? && data.premiumUntil.value - now == 30 * DayMs
  {
    UsersRoute.PremiumData(Some(true), Some(now + 30 * 24 * 60 * 60 * 1000))
  }

  /**
   * The server writes that grant as sent: premium, ending 30 days after
   * the browser's clock, and nothing about the plan or its start.
   */
  lemma PremiumGrantWritten(env: Option<string>, header: Option<string>, verify: string -> TokenCheck,
                            id: string, browserNow: int, serverNow: int)
    requires InlineAdminCheck(env, header, verify).Ok? && id != ""
    ensures UsersRoute.Patch(env, header, verify, Some(id), Some("setPremium"), Some(PremiumGrant(browserNow)), serverNow)
         == Ok([UsersRoute.SetPremium(id, Some(true), Some(browserNow + 30 * DayMs))])
  {
  }

  /**
   * A user made premium this way has no plan type and no start date, so
   * the premium list shows a monthly plan that started when the account was
   * created.
   */
  lemma GrantedUserListedAsMonthly(d: UserDoc)
    requires d.premiumType.None? && d.premiumStartedAt.None?
    ensures PremiumRoute.ToDto(d).premiumType == "monthly"
    ensures PremiumRoute.ToDto(d).premiumStartedAt == d.createdAt
  {
  }

  // -----------------------------------------------------------------------
  // The page's state
  // -----------------------------------------------------------------------

  /** What `fetchUsers` ran into. */
  datatype FetchOutcome =
    | NoSession
    | Loaded(users: seq<UserDto>, totalPages: nat)
    | Rejected
    | Unreachable

  /** The error line a fetch leaves, None after a successful fetch. */
  function FetchError(outcome: FetchOutcome): (e: Option<string>)
    ensures e.None? <==> outcome.Loaded?
  {
    match outcome
    case NoSession => Some("Oturum açmanız gerekiyor.")
    case Loaded(_, _) => None
    case Rejected => Some("Kullanıcılar yüklenirken bir hata oluştu.")
    case Unreachable => Some("Bağlantı hatası. Lütfen tekrar deneyin.")
  }

  class UsersView {
    var page: int
    var totalPages: int
    var filter: string
    var searchTerm: string
    var users: seq<UserDto>
    var error: Option<string>

    ghost predicate Valid()
      reads this
    {
      page >= 1 && totalPages >= 1
    }

    constructor ()
      ensures Valid()
      ensures page == 1 && totalPages == 1 && filter == "all" && searchTerm == "" && users == [] && error.None?
    {
      page := 1;
      totalPages := 1;
      filter := "all";
      searchTerm := "";
      users := [];
      error := None;
    }

    /** The rows on screen. */
    function Visible(): seq<UserDto>
      reads this
    {
      Search(users, searchTerm)
    }

    method Previous()
      requires Valid()
      modifies this
      ensures Valid()
      ensures page == PrevPage(old(page))
      ensures totalPages == old(totalPages) && filter == old(filter) && searchTerm == old(searchTerm)
      ensures users == old(users) && error == old(error)
    {
      page := PrevPage(page);
    }

    method Next()
      requires Valid()
      modifies this
      ensures Valid()
      ensures page == NextPage(old(page), old(totalPages))
      ensures totalPages == old(totalPages) && filter == old(filter) && searchTerm == old(searchTerm)
      ensures users == old(users) && error == old(error)
    {
      page := NextPage(page, totalPages);
    }

    /** Choosing a filter keeps the current page number. */
    method ChangeFilter(value: string)
      requires Valid()
      modifies this
      ensures Valid()
      ensures filter == value
      ensures page == old(page) && totalPages == old(totalPages) && searchTerm == old(searchTerm)
      ensures users == old(users) && error == old(error)
    {
      filter := value;
    }

    /** Typing in the search box narrows what is on screen and fetches nothing. */
    method ChangeSearch(value: string)
      requires Valid()
      modifies this
      ensures Valid()
      ensures searchTerm == value && Visible() == Search(old(users), value)
      ensures page == old(page) && totalPages == old(totalPages) && filter == old(filter)
      ensures users == old(users) && error == old(error)
    {
      searchTerm := value;
    }

    /**
     * `fetchUsers`: a successful answer replaces the users and sets the page
     * count (`|| 1`); any other outcome keeps the list and sets the error.
     */
    method Fetch(outcome: FetchOutcome)
      requires Valid()
      modifies this
      ensures Valid()
      ensures error == FetchError(outcome)
      ensures outcome.Loaded? ==> users == outcome.users && totalPages == PagesShown(outcome.totalPages)
      ensures !outcome.Loaded? ==> users == old(users) && totalPages == old(totalPages)
      ensures page == old(page) && filter == old(filter) && searchTerm == old(searchTerm)
    {
      error := None;
      match outcome {
        case NoSession =>
          error := Some("Oturum açmanız gerekiyor.");
        case Loaded(list, count) =>
          users := list;
          totalPages := PagesShown(count);
        case Rejected =>
          error := Some("Kullanıcılar yüklenirken bir hata oluştu.");
        case Unreachable =>
          error := Some("Bağlantı hatası. Lütfen tekrar deneyin.");
      }
    }
  }
}
