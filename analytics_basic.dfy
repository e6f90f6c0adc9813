/**
 * The basic admin analytics endpoint (frontend/app/api/admin/analytics/route.ts): a subset of
 * the enhanced report, with the conversion rate formatted and parsed back and without the
 * accumulators the enhanced tables add.
 */
module AnalyticsBasic {
  import opened Wrappers
  import opened Events
  import opened Collections
  import opened Aggregate
  import Reporting
  import Http
  import E = AnalyticsEnhanced

  datatype Summary = Summary(
    totalPageViews: nat, totalSessions: nat, totalClicks: nat, totalFormSubmissions: nat,
    conversions: nat, conversionRate: Option<real>, avgPagesPerSession: string)

  /**
   * `parseFloat` of `((conversions / totalSessions) * 100).toFixed(2)`, or of `'0'` without
   * sessions: the same figure the enhanced endpoint reports.
   */
  function ConversionRate(conversions: nat, sessions: nat): (r: Option<real>)
    requires conversions <= sessions
    ensures r == Some(Reporting.Rate(conversions, sessions))
  {
    if sessions > 0 then
      var x := (conversions as real / sessions as real) * 100.0;
      ParseFloatToFixed2(x);
      ParseFloat(ToFixed2(x))
    else
      ParseFloatZero();
      ParseFloat("0")
  }

  function SummaryOf(db: Reporting.Db, start: int): (s: Summary)
    ensures var c := Reporting.CountsSince(db, start);
      && s.totalPageViews == c.totalPageViews && s.totalSessions == c.totalSessions
      && s.totalClicks == c.totalClicks && s.totalFormSubmissions == c.totalFormSubmissions
      && s.conversions == c.conversions <= s.totalSessions
    ensures s.conversionRate == ConversionRate(s.conversions, s.totalSessions)
    ensures s.conversionRate.Some? && 0.0 <= s.conversionRate.value <= 100.0
    ensures s.avgPagesPerSession == E.AvgPages(Reporting.SessionsSince(db, start))
  {
    var c := Reporting.CountsSince(db, start);
    Summary(
      c.totalPageViews, c.totalSessions, c.totalClicks, c.totalFormSubmissions, c.conversions,
      ConversionRate(c.conversions, c.totalSessions),
      E.AvgPages(Reporting.SessionsSince(db, start)))
  }

  /** The summary figures both endpoints report agree. */
  lemma SummariesAgree(db: Reporting.Db, start: int, now: int)
    ensures var b := SummaryOf(db, start); var e := E.SummaryOf(db, start, now);
      && b.totalPageViews == e.totalPageViews && b.totalSessions == e.totalSessions
      && b.totalClicks == e.totalClicks && b.totalFormSubmissions == e.totalFormSubmissions
      && b.conversions == e.conversions && b.conversionRate == Some(e.conversionRate)
      && b.avgPagesPerSession == e.avgPagesPerSession
  {
  }

  function NoStats<T>(ms: seq<T>): () { () }

  function PageViewsByPage(pvs: seq<PageViewDoc>): (r: seq<Row<string, ()>>)
    ensures TopGroups(RowKeys(r), RowCounts(r), pvs, E.PageOf, E.TOP)
  {
    RankedTable(pvs, E.PageOf, E.TOP, NoStats)
  }

  function TopClickedElements(clicks: seq<ClickDoc>): (r: seq<Row<(Option<string>, Option<string>), ()>>)
    ensures TopGroups(RowKeys(r), RowCounts(r), clicks, E.ClickKey, E.TOP)
  {
    RankedTable(clicks, E.ClickKey, E.TOP, NoStats)
  }

  function DailyStats(pvs: seq<PageViewDoc>, day: int -> string): (r: seq<Row<string, ()>>)
    ensures Groups(RowKeys(r), RowCounts(r), pvs, E.DayOfView(day))
    ensures forall i, j :: 0 <= i < j < |r| ==> LexLe(r[i].key, r[j].key)
  {
    DailyTable(pvs, E.DayOfView(day), NoStats)
  }

  function DailyVisitors(sessions: seq<UserSession>, day: int -> string): (r: seq<Row<string, ()>>)
    ensures Groups(RowKeys(r), RowCounts(r), sessions, E.DayOfSession(day))
    ensures forall i, j :: 0 <= i < j < |r| ==> LexLe(r[i].key, r[j].key)
  {
    DailyTable(sessions, E.DayOfSession(day), NoStats)
  }

  function TopReferrers(sessions: seq<UserSession>): (r: seq<Row<string, ()>>)
    ensures TopGroups(RowKeys(r), RowCounts(r), E.Referred(sessions), E.ReferrerOf, E.TOP)
  {
    RankedTable(E.Referred(sessions), E.ReferrerOf, E.TOP, NoStats)
  }

  /** The tables both endpoints report list the same groups in the same order with the same counts. */
  lemma TablesAgree(pvs: seq<PageViewDoc>, sessions: seq<UserSession>, clicks: seq<ClickDoc>, day: int -> string)
    ensures RowKeys(PageViewsByPage(pvs)) == RowKeys(E.PageViewsByPage(pvs))
    ensures RowCounts(PageViewsByPage(pvs)) == RowCounts(E.PageViewsByPage(pvs))
    ensures RowKeys(TopClickedElements(clicks)) == RowKeys(E.TopClickedElements(clicks))
    ensures RowCounts(TopClickedElements(clicks)) == RowCounts(E.TopClickedElements(clicks))
    ensures RowKeys(DailyVisitors(sessions, day)) == RowKeys(E.DailyVisitors(sessions, day))
    ensures RowCounts(DailyVisitors(sessions, day)) == RowCounts(E.DailyVisitors(sessions, day))
    ensures RowKeys(TopReferrers(sessions)) == RowKeys(E.TopReferrers(sessions))
    ensures RowCounts(TopReferrers(sessions)) == RowCounts(E.TopReferrers(sessions))
  {
    RankedTableShape(pvs, E.PageOf, E.TOP, NoStats, (ms: seq<PageViewDoc>) => E.MeanSeconds(E.Present(ms, E.TimeOnPage)));
    RankedTableShape(clicks, E.ClickKey, E.TOP, NoStats, E.FirstText);
    DailyTableShape(sessions, E.DayOfSession(day), NoStats, E.ConvertedCount);
    RankedTableShape(E.Referred(sessions), E.ReferrerOf, E.TOP, NoStats, E.ConvertedCount);
  }

  /** A page view as the basic `recentActivity` projects it. */
  datatype Activity = Activity(sessionId: string, page: string, timestamp: int, device: Option<string>, country: Option<string>)

  function Brief(a: E.Activity): Activity {
    Activity(a.sessionId, a.page, a.timestamp, a.device, a.country)
  }

  function Project(v: PageViewDoc): Activity {
    Activity(v.fields.sessionId, v.fields.page, v.timestamp, v.fields.device, v.fields.country)
  }

  /** The same twenty page views as the enhanced endpoint shows, in the same order, without city and browser. */
  function RecentActivity(pvs: seq<PageViewDoc>): (r: seq<Activity>)
    ensures |r| == |E.RecentActivity(pvs)| == if |pvs| < 20 then |pvs| else 20
    ensures forall i :: 0 <= i < |r| ==> r[i] == Brief(E.RecentActivity(pvs)[i])
  {
    var top := TopN(pvs, E.ViewTime, 20);
    seq(|top|, i requires 0 <= i < |top| => Project(top[i]))
  }

  datatype Report = Report(
    summary: Summary,
    pageViewsByPage: seq<Row<string, ()>>,
    topClickedElements: seq<Row<(Option<string>, Option<string>), ()>>,
    deviceBreakdown: map<string, nat>,
    dailyStats: seq<Row<string, ()>>,
    dailyVisitors: seq<Row<string, ()>>,
    topReferrers: seq<Row<string, ()>>,
    recentActivity: seq<Activity>)

  function ReportOf(db: Reporting.Db, start: int, day: int -> string): Report {
    var pvs := Reporting.PageViewsSince(db, start);
    var sessions := Reporting.SessionsSince(db, start);
    Report(
      SummaryOf(db, start),
      PageViewsByPage(pvs),
      TopClickedElements(Reporting.ClicksSince(db, start)),
      E.DeviceBreakdown(sessions),
      DailyStats(pvs, day),
      DailyVisitors(sessions, day),
      TopReferrers(sessions),
      RecentActivity(pvs))
  }

  /** GET: 401 without a session, otherwise the report for the window the `period` parameter selects. */
  function Get(session: Http.ServerSession, period: Option<string>, db: Reporting.Db, now: int, day: int -> string): (r: Http.Reply<Report>)
    ensures r.Failure? <==> session.NoSession?
    ensures r.Failure? ==> r.status == Http.UNAUTHORIZED
    ensures r.Success? ==> r.status == Http.OK && r.body == ReportOf(db, Reporting.WindowStart(period, now), day)
  {
    Reporting.Guarded(session, ReportOf(db, Reporting.WindowStart(period, now), day))
  }
}
