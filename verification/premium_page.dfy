/**
 * The admin premium page: one fetched page of premium users with the
 * revenue figures of that page, a plan badge and the time left per user,
 * and an extend dialog that previews the new end date before it sends the
 * extension.
 */
module PremiumPage {
  import opened Common
  import opened AdminAuth
  import opened Records
  import opened AdminPaging
  import PremiumRoute

  // -----------------------------------------------------------------------
  // Time left
  // -----------------------------------------------------------------------

  /**
   * `getDaysRemaining`: '-' without an end date; otherwise the whole days
   * left, `Math.floor((until - now) / day)`, as "N gün" when positive and
   * 'Süresi dolmuş' when not.
   */
  function DaysRemaining(until: Option<int>, now: int): string {
    if until.None? then "-"
    else
      var days := FloorDiv(until.value - now, DayMs);
      if days > 0 then IntToString(days) + " gün" else "Süresi dolmuş"
  }

  /** Two day counts read alike only when they are equal. */
  lemma DayCountsReadApart(a: nat, b: nat)
    requires NatToString(a) + " gün" == NatToString(b) + " gün"
    ensures a == b
  {
    var s, t := NatToString(a) + " gün", NatToString(b) + " gün";
    assert NatToString(a) == s[..|s| - 4];
    assert NatToString(b) == t[..|t| - 4];
    NatToStringInjective(a, b);
  }

  /** The whole days in `diff` are `n` exactly when `diff` lies in `[n, n + 1)` days. */
  lemma WholeDays(diff: int, n: int)
    ensures FloorDiv(diff, DayMs) == n <==> n * DayMs <= diff < (n + 1) * DayMs
  {
  }

  /**
   * "N gün" is shown exactly when between N and N + 1 whole days are left;
   * distinct day counts never read alike.
   */
  lemma DaysRemainingCounts(until: int, now: int, n: nat)
    requires n >= 1
    ensures DaysRemaining(Some(until), now) == NatToString(n) + " gün"
        <==> n * DayMs <= until - now < (n + 1) * DayMs
  {
    var days := FloorDiv(until - now, DayMs);
    WholeDays(until - now, n);
    if DaysRemaining(Some(until), now) == NatToString(n) + " gün" {
      assert (NatToString(n) + " gün")[0] != 'S';
      if days > 0 {
        DayCountsReadApart(days, n);
      }
    }
  }

  /** Less than one whole day left already reads as expired. */
  lemma UnderOneDayReadsExpired(until: int, now: int)
    requires until - now < DayMs
    ensures DaysRemaining(Some(until), now) == "Süresi dolmuş"
  {
  }

  /**
   * Right after an extension by `d` days, the same clock reads at least `d`
   * days left.
   */
  lemma ExtensionShowsItsDays(until: Option<int>, now: int, d: nat)
    requires d >= 1
    ensures var k := FloorDiv(PremiumRoute.ExtendedUntil(until, now, d) - now, DayMs);
      k >= d && DaysRemaining(Some(PremiumRoute.ExtendedUntil(until, now, d)), now) == NatToString(k) + " gün"
  {
    var e := PremiumRoute.ExtendedUntil(until, now, d);
    var k := FloorDiv(e - now, DayMs);
    assert e - now >= d * DayMs;
    assert k * DayMs > e - now - DayMs >= (d - 1) * DayMs;
    assert k > d - 1;
  }

  // -----------------------------------------------------------------------
  // Plan badge and revenue breakdown
  // -----------------------------------------------------------------------

  /** The plan column: `monthly` shows the monthly badge, any other type the yearly one. */
  function PlanBadge(premiumType: string): string {
    if premiumType == "monthly" then "Aylık (29₺)" else "Yıllık (200₺)"
  }

  /**
   * A plan type other than `monthly` and `yearly` is badged yearly, yet the
   * revenue counts it in neither plan.
   */
  lemma UnknownPlanBadgedYearlyNotCounted(u: PremiumDto)
    requires u.premiumType != "monthly" && u.premiumType != "yearly"
    ensures PlanBadge(u.premiumType) == PlanBadge("yearly")
    ensures PremiumRoute.CountType([u], "yearly") == 0 && PremiumRoute.CountType([u], "monthly") == 0
  {
  }

  /** The figures the page shows from `analytics`. */
  datatype Breakdown = Breakdown(premiumUsers: int, monthlyRow: int, yearlyRow: int, totalMonthly: int)

  /**
   * The premium-user card is the two subscriber counts added; the monthly
   * row is 29 per monthly subscriber; the yearly row is `round(200 y / 12)`;
   * the total is the server's monthly revenue.
   */
  function BreakdownOf(a: RevenueAnalytics): (b: Breakdown)
    ensures b.premiumUsers == a.monthlySubscribers + a.yearlySubscribers
    ensures b.totalMonthly == a.totalMonthlyRevenue
    ensures 12 * b.yearlyRow - 6 <= PremiumRoute.YearlyPrice * a.yearlySubscribers < 12 * b.yearlyRow + 6
    ensures b.monthlyRow == PremiumRoute.MonthlyPrice * a.monthlySubscribers
  {
    Breakdown(a.monthlySubscribers + a.yearlySubscribers, a.monthlySubscribers * 29,
      RoundDiv(a.yearlySubscribers * 200, 12), a.totalMonthlyRevenue)
  }

  /** Whole units taken out of a rounded number of twelfths. */
  lemma RoundTwelfthsShift(k: int, n: int)
    ensures RoundDiv(12 * k + n, 12) == k + RoundDiv(n, 12)
  {
    assert 2 * (12 * k + n) + 12 == 24 * k + (2 * n + 12);
  }

  /** Monthly and yearly plans counted on a page never exceed the page's users. */
  lemma {:induction false} PlansWithinPage(items: seq<PremiumDto>)
    ensures PremiumRoute.CountType(items, "monthly") + PremiumRoute.CountType(items, "yearly") <= |items|
  {
    if items != [] {
      PlansWithinPage(items[1..]);
    }
  }

  /**
   * For figures the premium list computed, the two rows add up exactly to
   * the total, and the premium-user card counts at most the page's users.
   */
  lemma RowsAddUpToTotal(items: seq<PremiumDto>, newLast30Days: int)
    ensures var b := BreakdownOf(PremiumRoute.Revenue(items, newLast30Days));
      b.monthlyRow + b.yearlyRow == b.totalMonthly && b.premiumUsers <= |items|
  {
    var a := PremiumRoute.Revenue(items, newLast30Days);
    var m, y := a.monthlySubscribers, a.yearlySubscribers;
    RoundTwelfthsShift(29 * m, 200 * y);
    PlansWithinPage(items);
  }

  // -----------------------------------------------------------------------
  // The extend dialog
  // -----------------------------------------------------------------------

  /** The presets offered under the duration input. */
  const Presets: seq<int> := [30, 60, 90, 365]

  /**
   * `parseInt(value) || 30`, where `parsed` is None when the text is not a
   * number: a non-number and zero both fall back to 30 days.
   */
  function DurationInput(parsed: Option<int>): (d: int)
    ensures d != 0
    ensures parsed.Some? && parsed.value != 0 ==> d == parsed.value
    ensures parsed.None? || parsed.value == 0 ==> d == 30
  {
    if parsed.None? || parsed.value == 0 then 30 else parsed.value
  }

  /**
   * A negative number typed into the field passes through and the server
   * applies it: the plan of a user whose end lies ahead is shortened.
   */
  lemma NegativeDurationShortens(until: int, now: int)
    requires until >= now
    ensures DurationInput(Some(-5)) == -5
    ensures PremiumRoute.ExtendedUntil(Some(until), now, DurationInput(Some(-5))) < until
  {
  }

  /**
   * The dialog's preview of the new end: the current end, or now when there
   * is none, plus the chosen days.
   */
  function Preview(until: Option<int>, now: int, duration: int): (r: int)
    ensures until.Some? ==> r - until.value == duration * DayMs
    ensures until.None? ==> r - now == duration * DayMs
  {
    (if until.Some? then until.value else now) + duration * 24 * 60 * 60 * 1000
  }

  /**
   * The preview agrees with what the server writes exactly when the plan
   * has not lapsed; for a lapsed plan it shows an earlier date, since the
   * server counts from now.
   */
  lemma PreviewMatchesServerUnlessLapsed(until: Option<int>, now: int, duration: int)
    ensures Preview(until, now, duration) <= PremiumRoute.ExtendedUntil(until, now, duration)
    ensures Preview(until, now, duration) == PremiumRoute.ExtendedUntil(until, now, duration)
        <==> until.None? || until.value >= now
  {
  }

  /** The POST body "Uzat" sends. */
  datatype ExtendBody = ExtendBody(userId: string, premiumType: string, duration: int)

  /** The PATCH body "İptal" sends. */
  datatype CancelBody = CancelBody(userId: string, action: string)

  function CancelRequest(u: PremiumDto): (b: CancelBody)
    ensures b.userId == u.id && b.action == "cancel"
  {
    CancelBody(u.id, "cancel")
  }

  /**
   * An extension keeps the plan type the page shows, and the new end is the
   * server's rule applied to the stored end date.
   */
  lemma ExtensionKeepsPlan(admin: AdminUser, u: PremiumDto, duration: int, stored: UserDoc, now: int)
    requires u.id != "" && u.premiumType != ""
    ensures var r := PremiumRoute.Post(Ok(admin), Some(u.id), Some(u.premiumType), duration, Some(stored), now);
      r.Ok? && r.body[0].premiumType == u.premiumType
      && r.body[0].premiumUntil == PremiumRoute.ExtendedUntil(stored.premiumUntil, now, duration)
  {
  }

  /** The cancel button's request is always accepted and writes one cancellation. */
  lemma CancelAccepted(admin: AdminUser, u: PremiumDto, now: int)
    requires u.id != ""
    ensures var b := CancelRequest(u);
      PremiumRoute.Patch(Ok(admin), Some(b.userId), Some(b.action), now) == Ok([PremiumRoute.CancelPremium(u.id, now)])
  {
  }

  // -----------------------------------------------------------------------
  // The page count
  // -----------------------------------------------------------------------

  /** As written, the page count is taken from the response with no fallback. */
  function PagesAsWritten(totalPages: nat): int {
    totalPages
  }

  /**
   * With no premium users the server announces zero pages. Next is then
   * enabled on page 1 and moves to page 0, which the list endpoint cannot
   * serve.
   */
  lemma EmptyListNextReachesPageZero()
    ensures !NextDisabled(1, PagesAsWritten(0)) && NextPage(1, PagesAsWritten(0)) == 0
  {
  }

  /**
   * With the `|| 1` fallback the other admin pages use, an empty list reads
   * as one page: Next is disabled on page 1 and no button leaves page 1.
   */
  lemma EmptyListFixedStaysOnPageOne(t: nat)
    ensures t == 0 ==> NextDisabled(1, PagesShown(t)) && NextPage(1, PagesShown(t)) == 1
    ensures NextPage(1, PagesShown(t)) >= 1 && PrevPage(1) == 1
  {
  }

  /** The answer of a successful list request. */
  datatype Listed = Listed(premiumUsers: seq<PremiumDto>, analytics: RevenueAnalytics, totalPages: nat)

  // -----------------------------------------------------------------------
  // The page's state
  // -----------------------------------------------------------------------

  class PremiumView {
    var page: int
    var totalPages: int
    var premiumUsers: seq<PremiumDto>
    var analytics: RevenueAnalytics
    var selected: Option<PremiumDto>
    var showExtendModal: bool
    var extendDuration: int

    /**
     * The page and the page count are never negative (the count is what the
     * server announced, zero for an empty list, and Next can then reach
     * page 0); the chosen duration is never zero.
     */
    ghost predicate Valid()
      reads this
    {
      page >= 0 && totalPages >= 0 && extendDuration != 0
    }

    constructor ()
      ensures Valid()
      ensures page == 1 && totalPages == 1 && premiumUsers == [] && analytics == RevenueAnalytics(0, 0, 0, 0, 0)
      ensures selected.None? && !showExtendModal && extendDuration == 30
    {
      page := 1;
      totalPages := 1;
      premiumUsers := [];
      analytics := RevenueAnalytics(0, 0, 0, 0, 0);
      selected := None;
      showExtendModal := false;
      extendDuration := 30;
    }

    method Previous()
      requires Valid()
      modifies this
      ensures Valid()
      ensures page == PrevPage(old(page))
      ensures totalPages == old(totalPages) && premiumUsers == old(premiumUsers) && analytics == old(analytics)
      ensures selected == old(selected) && showExtendModal == old(showExtendModal) && extendDuration == old(extendDuration)
    {
      page := PrevPage(page);
    }

    method Next()
      requires Valid()
      modifies this
      ensures Valid()
      ensures page == NextPage(old(page), old(totalPages))
      ensures totalPages == old(totalPages) && premiumUsers == old(premiumUsers) && analytics == old(analytics)
      ensures selected == old(selected) && showExtendModal == old(showExtendModal) && extendDuration == old(extendDuration)
    {
      page := NextPage(page, totalPages);
    }

    /**
     * `fetchPremiumUsers`: a successful answer replaces the users, the
     * figures and the page count, taken as announced with no `|| 1`
     * fallback; a failed one changes nothing.
     */
    method Fetch(response: Option<Listed>)
      requires Valid()
      modifies this
      ensures Valid()
      ensures response.Some? ==>
        premiumUsers == response.value.premiumUsers && analytics == response.value.analytics
        && totalPages == response.value.totalPages
      ensures response.None? ==> premiumUsers == old(premiumUsers) && analytics == old(analytics) && totalPages == old(totalPages)
      ensures page == old(page) && selected == old(selected) && showExtendModal == old(showExtendModal)
      ensures extendDuration == old(extendDuration)
    {
      if response.Some? {
        premiumUsers := response.value.premiumUsers;
        analytics := response.value.analytics;
        totalPages := PagesAsWritten(response.value.totalPages);
      }
    }

    /** "Uzat" on a row: that user is selected and the dialog opens; the last duration stays. */
    method OpenExtend(u: PremiumDto)
      requires Valid()
      modifies this
      ensures Valid()
      ensures selected == Some(u) && showExtendModal
      ensures page == old(page) && totalPages == old(totalPages) && premiumUsers == old(premiumUsers)
      ensures analytics == old(analytics) && extendDuration == old(extendDuration)
    {
      selected := Some(u);
      showExtendModal := true;
    }

    /** Typing into the duration field. */
    method TypeDuration(parsed: Option<int>)
      requires Valid()
      modifies this
      ensures Valid()
      ensures extendDuration == DurationInput(parsed)
      ensures page == old(page) && totalPages == old(totalPages) && premiumUsers == old(premiumUsers)
      ensures analytics == old(analytics) && selected == old(selected) && showExtendModal == old(showExtendModal)
    {
      extendDuration := DurationInput(parsed);
    }

    /** Clicking one of the presets. */
    method ChoosePreset(days: int)
      requires Valid() && days in Presets
      modifies this
      ensures Valid()
      ensures extendDuration == days
      ensures page == old(page) && totalPages == old(totalPages) && premiumUsers == old(premiumUsers)
      ensures analytics == old(analytics) && selected == old(selected) && showExtendModal == old(showExtendModal)
    {
      extendDuration := days;
    }

    /**
     * `handleExtendPremium`: with a selected user, a confirmation and a
     * session, it sends the user's id, the plan type the page shows and the
     * chosen duration. A success closes the dialog and clears the selection.
     */
    method Extend(confirmed: bool, signedIn: bool, succeeded: bool) returns (sent: Option<ExtendBody>)
      requires Valid()
      modifies this
      ensures Valid()
      ensures sent.Some? <==> old(selected).Some? && confirmed && signedIn
      ensures sent.Some? ==> sent.value == ExtendBody(old(selected).value.id, old(selected).value.premiumType, old(extendDuration))
      ensures sent.Some? && succeeded ==> selected.None? && !showExtendModal
      ensures !(sent.Some? && succeeded) ==> selected == old(selected) && showExtendModal == old(showExtendModal)
      ensures page == old(page) && totalPages == old(totalPages) && premiumUsers == old(premiumUsers)
      ensures analytics == old(analytics) && extendDuration == old(extendDuration)
    {
      sent := None;
      if selected.None? || !confirmed || !signedIn {
        return;
      }
      sent := Some(ExtendBody(selected.value.id, selected.value.premiumType, extendDuration));
      if succeeded {
        showExtendModal := false;
        selected := None;
      }
    }
  }
}
