/**
 * The documents the handlers read from the database, the JSON bodies they
 * return, and the union of every body that is kept in the shared cache.
 *
 * Document fields that may be missing are `Option`s; dates are milliseconds
 * since the epoch (`toDate()` of a stored timestamp).
 */
module Records {
  import opened Common

  /** A `users` document. */
  datatype UserDoc = UserDoc(
    id: string,
    email: Option<string>,
    displayName: Option<string>,
    photoURL: Option<string>,
    isPremium: Option<bool>,
    isBanned: Option<bool>,
    totalMinutes: Option<int>,
    totalWorkMinutes: Option<int>,
    createdAt: Option<int>,
    lastActiveAt: Option<int>,
    premiumType: Option<string>,
    premiumStartedAt: Option<int>,
    premiumUntil: Option<int>,
    fcmToken: Option<string>)

  /** A `study_rooms` document. */
  datatype RoomDoc = RoomDoc(
    id: string,
    name: Option<string>,
    description: Option<string>,
    hostId: Option<string>,
    createdBy: Option<string>,
    hostName: Option<string>,
    memberIds: Option<seq<string>>,
    members: Option<seq<string>>,
    isPrivate: Option<bool>,
    category: Option<string>,
    createdAt: Option<int>,
    lastActivityAt: Option<int>,
    lastActivity: Option<int>,
    hasReports: Option<bool>)

  /** A legacy `reports` document; the list handler passes its fields through unchanged. */
  datatype ReportDoc = ReportDoc(
    id: string,
    reporterId: Option<string>,
    reporterName: Option<string>,
    reportedUserId: Option<string>,
    reportedUserName: Option<string>,
    reportType: Option<string>,
    reason: Option<string>,
    description: Option<string>,
    status: Option<string>,
    createdAt: Option<int>,
    resolvedAt: Option<int>,
    resolvedBy: Option<string>,
    roomId: Option<string>,
    messageId: Option<string>)

  /** A `messageReports` document. */
  datatype MessageReportDoc = MessageReportDoc(
    id: string,
    roomId: Option<string>,
    reportedMessages: Option<seq<string>>,
    reportedUserId: Option<string>,
    reportedUserName: Option<string>,
    reportedUserAvatar: Option<string>,
    reporterUserId: Option<string>,
    reporterUserName: Option<string>,
    reporterUserAvatar: Option<string>,
    reason: Option<string>,
    description: Option<string>,
    status: Option<string>,
    createdAt: Option<int>,
    reviewedAt: Option<int>,
    reviewedBy: Option<string>,
    adminNotes: Option<string>)

  // -----------------------------------------------------------------------
  // Response bodies
  // -----------------------------------------------------------------------

  /** One page of a list handler: `{ items, total, currentPage, totalPages }`. */
  datatype Page<T> = Page(items: seq<T>, total: int, currentPage: int, totalPages: int)

  datatype UserDto = UserDto(
    id: string, email: Option<string>, displayName: string, photoURL: Option<string>,
    isPremium: bool, isBanned: bool, totalMinutes: int,
    createdAt: Option<int>, lastActiveAt: Option<int>)

  datatype RoomDto = RoomDto(
    id: string, name: string, description: string, hostId: string, hostName: string,
    memberCount: int, isPrivate: bool, category: string,
    createdAt: Option<int>, lastActivityAt: Option<int>, hasReports: bool)

  datatype MessageReportDto = MessageReportDto(
    id: string, roomId: Option<string>, reportedMessages: seq<string>,
    reportedUserId: Option<string>, reportedUserName: Option<string>, reportedUserAvatar: Option<string>,
    reporterUserId: Option<string>, reporterUserName: Option<string>, reporterUserAvatar: Option<string>,
    reason: Option<string>, description: Option<string>, status: Option<string>,
    createdAt: Option<int>, reviewedAt: Option<int>,
    reviewedBy: Option<string>, adminNotes: Option<string>)

  datatype PremiumDto = PremiumDto(
    id: string, email: string, displayName: string, photoURL: Option<string>,
    isPremium: bool, premiumStartedAt: Option<int>, premiumUntil: Option<int>,
    premiumType: string, totalMinutes: int)

  datatype RevenueAnalytics = RevenueAnalytics(
    totalMonthlyRevenue: int, totalYearlyRevenue: int, newPremiumLast30Days: int,
    monthlySubscribers: nat, yearlySubscribers: nat)

  datatype RecentReportDto = RecentReportDto(
    id: string, reporterName: string, reportedUserName: string, reportType: string,
    reason: string, status: string, createdAt: Option<int>)

  datatype RecentUserDto = RecentUserDto(
    id: string, displayName: string, email: string, photoURL: Option<string>,
    isPremium: bool, createdAt: Option<int>)

  /** `getPublicStats()`; `totalMinutes` is None where the source computes NaN. */
  datatype PublicStats = PublicStats(totalUsers: int, totalRooms: int, completedSessions: int, totalMinutes: Option<int>)

  datatype AdminStats = AdminStats(
    totalUsers: int, activeUsers24h: int, activeUsers7d: int, totalPremiumUsers: int,
    totalStudyMinutes: int, totalRooms: int, activeRooms: int, totalMessages: int,
    pendingReports: int)

  datatype DayActivity = DayActivity(date: string, activeUsers: nat, newUsers: nat)

  datatype DatedCount = DatedCount(date: string, count: int)

  datatype CategoryCount = CategoryCount(category: string, count: nat)

  datatype Analytics = Analytics(
    userGrowth: seq<DatedCount>, studyTime: seq<DatedCount>, activeUsers: seq<DatedCount>,
    topCategories: seq<CategoryCount>)

  /**
   * A timestamp field that a document may lack, may hold as `null`, or may
   * hold as a time. Ordering by the field leaves out only the documents
   * that lack it; `null` sorts below every time.
   */
  datatype Stamp = Absent | Null | At(ms: int)

  /** A `notifications` document as listed: its id and its `sentAt`. */
  datatype NotificationSummary = NotificationSummary(id: string, sentAt: Stamp)

  /** Every body that some handler stores in the shared cache. */
  datatype Payload =
    | TotalUsers(count: int)
    | PublicStatsData(publicStats: PublicStats)
    | UsersList(users: Page<UserDto>)
    | RoomsList(rooms: Page<RoomDto>)
    | ReportsList(reports: Page<ReportDoc>)
    | MessageReportsList(messageReports: Page<MessageReportDto>)
    | PremiumList(premium: Page<PremiumDto>, revenue: RevenueAnalytics)
    | AnalyticsData(charts: Analytics)
    | AdminStatsData(stats: AdminStats)
    | ActivityData(days: seq<DayActivity>)
    | RecentReports(recentReports: seq<RecentReportDto>)
    | RecentUsers(recentUsers: seq<RecentUserDto>)
    | NotificationList(notifications: seq<NotificationSummary>)

  /** `if (cached)`: every cached body is an object (truthy) except the number 0. */
  predicate PayloadTruthy(p: Payload) {
    !(p.TotalUsers? && p.count == 0)
  }

  /** A list handler's 200 body: the payload, plus `fromCache: true` on a hit. */
  datatype Served = Served(payload: Payload, fromCache: bool)
}
