/**
 * The enhanced admin analytics endpoint (frontend/app/api/admin/analytics-enhanced/route.ts):
 * every figure it reports, computed from the collections (`Reporting.Db`), the window start,
 * the request time `now` and the `$dateToString` day key `day`. Tables are `Aggregate.Row`s:
 * `key` is the `_id`, `count` the `$sum: 1` field (views, visitors, clicks, count or sessions)
 * and `stats` the other accumulators.
 */
module AnalyticsEnhanced {
  import opened Wrappers
  import opened Events
  import opened Collections
  import opened Aggregate
  import Reporting
  import Track
  import Http

  /** The real-time window: the last five minutes. */
  const REALTIME_MS := 5 * 60 * 1000

  /** Each ranked table shows at most this many rows. */
  const TOP := 10

  // ---------------------------------------------------------------------------
  // Keys and accumulators

  function PageOf(v: PageViewDoc): string { v.fields.page }
  function ViewSession(v: PageViewDoc): string { v.fields.sessionId }
  function ViewTime(v: PageViewDoc): int { v.timestamp }
  function TimeOnPage(v: PageViewDoc): Option<int> { v.timeOnPage }
  function EntryPageOf(s: UserSession): string { s.entryPage }
  function ExitPageOf(s: UserSession): string { s.exitPage.GetOr("") }
  function BrowserOf(s: UserSession): Option<string> { s.browser }
  function OsOf(s: UserSession): Option<string> { s.os }
  function DeviceOf(s: UserSession): Option<string> { s.device }
  function CountryOf(s: UserSession): Option<string> { s.country }
  function CityOf(s: UserSession): (Option<string>, Option<string>) { (s.city, s.country) }
  function UtmSourceOf(s: UserSession): string { s.utmSource.GetOr("") }
  function UtmCampaignOf(s: UserSession): string { s.utmCampaign.GetOr("") }
  function ReferrerOf(s: UserSession): string { s.referrer.GetOr("") }
  function DurationOf(s: UserSession): Option<int> { s.sessionDuration }
  function PageViewsOf(s: UserSession): int { s.pageViews }
  /** `$slice: ['$pagesVisited', 5]`. */
  function FlowOf(s: UserSession): seq<string> { Prefix(s.pagesVisited, 5) }
  function ClickKey(c: ClickDoc): (Option<string>, Option<string>) { (c.fields.elementId, c.fields.elementType) }
  function ScrollPage(d: ScrollDoc): string { d.page }
  function MaxScroll(d: ScrollDoc): Option<int> { Some(d.maxScrollDepth) }
  function FormIdOf(f: FormInteractionDoc): Option<string> { f.fields.formId }
  function InteractionSession(f: FormInteractionDoc): string { f.fields.sessionId }
  function FormTypeOf(f: FormSubmissionDoc): Option<string> { f.fields.formType }
  function TimeTaken(f: FormSubmissionDoc): Option<int> { f.fields.timeTaken }
  function SubmissionTime(f: FormSubmissionDoc): int { f.timestamp }

  function DayOfView(day: int -> string): PageViewDoc -> string { (v: PageViewDoc) => day(v.timestamp) }
  function DayOfSession(day: int -> string): UserSession -> string { (s: UserSession) => day(s.firstSeen) }

  /** The numeric values of a field that `$avg` reads: documents without it are skipped. */
  function Present<T>(xs: seq<T>, f: T -> Option<int>): (r: seq<int>)
    ensures |r| <= |xs|
    ensures (forall i :: 0 <= i < |xs| ==> f(xs[i]).None?) ==> r == []
    ensures forall j :: 0 <= j < |r| ==> exists i :: 0 <= i < |xs| && f(xs[i]) == Some(r[j])
    ensures forall i :: 0 <= i < |xs| && f(xs[i]).Some? ==> f(xs[i]).value in r
  {
    if xs == [] then []
    else
      var rest := Present(xs[1..], f);
      PresentSound(xs, f, rest);
      PresentComplete(xs, f, rest);
      match f(xs[0])
      case Some(x) => [x] + rest
      case None => rest
  }

  /** The documents that carry the field. */
  function HasValue<T>(f: T -> Option<int>): T -> bool { (x: T) => f(x).Some? }

  /** Present takes one value from each document that carries the field, and from no other. */
  lemma {:induction false} PresentCount<T>(xs: seq<T>, f: T -> Option<int>)
    ensures |Present(xs, f)| == Count(xs, HasValue(f))
    decreases |xs|
  {
    if xs != [] {
      PresentCount(xs[1..], f);
    }
  }

  /** Each value Present takes from the tail comes from some document of the whole sequence. */
  lemma PresentSound<T>(xs: seq<T>, f: T -> Option<int>, rest: seq<int>)
    requires xs != []
    requires forall j :: 0 <= j < |rest| ==> exists i :: 0 <= i < |xs[1..]| && f(xs[1..][i]) == Some(rest[j])
    ensures forall j :: 0 <= j < |rest| ==> exists i :: 0 <= i < |xs| && f(xs[i]) == Some(rest[j])
  {
    forall j | 0 <= j < |rest| ensures exists i :: 0 <= i < |xs| && f(xs[i]) == Some(rest[j]) {
      var i :| 0 <= i < |xs[1..]| && f(xs[1..][i]) == Some(rest[j]);
      assert xs[1..][i] == xs[i + 1];
    }
  }

  /** Every value the tail carries is among the values Present takes from the tail. */
  lemma PresentComplete<T>(xs: seq<T>, f: T -> Option<int>, rest: seq<int>)
    requires xs != []
    requires forall i :: 0 <= i < |xs[1..]| && f(xs[1..][i]).Some? ==> f(xs[1..][i]).value in rest
    ensures forall i :: 1 <= i < |xs| && f(xs[i]).Some? ==> f(xs[i]).value in rest
  {
    forall i | 1 <= i < |xs| && f(xs[i]).Some? ensures f(xs[i]).value in rest {
      assert xs[i] == xs[1..][i - 1];
    }
  }

  /** `avg ? Math.round(avg / 1000) : 0`: a mean in milliseconds shown in seconds, 0 when absent. */
  function MeanSeconds(xs: seq<int>): (r: int)
    ensures xs == [] ==> r == 0
    ensures xs != [] ==> r == Round(Sum(xs) as real / |xs| as real / 1000.0)
  {
    match Avg(xs)
    case None => 0
    case Some(a) => if a == 0.0 then 0 else Round(a / 1000.0)
  }

  /** The mean in seconds lies between the shortest and the longest value, each rounded to seconds. */
  lemma MeanSecondsBounds(xs: seq<int>, lo: int, hi: int)
    requires xs != []
    requires forall i :: 0 <= i < |xs| ==> lo <= xs[i] <= hi
    ensures Round(lo as real / 1000.0) <= MeanSeconds(xs) <= Round(hi as real / 1000.0)
  {
    AvgBounds(xs, lo, hi);
    var a := Avg(xs).value;
    RoundMonotone(lo as real / 1000.0, a / 1000.0);
    RoundMonotone(a / 1000.0, hi as real / 1000.0);
    if a == 0.0 {
      RoundMonotone(lo as real / 1000.0, 0.0);
      RoundMonotone(0.0, hi as real / 1000.0);
    }
  }

  /**
   * `((part / total) * 100).toFixed(2)`: the percentage as text, which reads back as the
   * rounded rate; "NaN" without a total.
   */
  function RateText(part: nat, total: nat): (t: string)
    requires part <= total
    ensures total == 0 ==> t == "NaN"
    ensures total > 0 ==> ParseFloat(t) == Some(Reporting.Rate(part, total))
  {
    if total == 0 then "NaN"
    else
      var x := (part as real / total as real) * 100.0;
      ParseFloatToFixed2(x);
      ToFixed2(x)
  }

  /** The `conversions` accumulator of a UTM table and its `toFixed(2)` rate. */
  datatype UtmStats = UtmStats(conversions: nat, conversionRate: string)

  function UtmStatsOf(ms: seq<UserSession>): (u: UtmStats)
    ensures u.conversions == Count(ms, Reporting.Converted) <= |ms|
    ensures ms == [] ==> u.conversionRate == "NaN"
    ensures ms != [] ==> ParseFloat(u.conversionRate) == Some(Reporting.Rate(u.conversions, |ms|))
  {
    var c := Count(ms, Reporting.Converted);
    UtmStats(c, RateText(c, |ms|))
  }

  /** `conversions: { $sum: { $cond: ['$converted', 1, 0] } }`, the group accumulator of both `dailyVisitors` and `topReferrers`. */
  function ConvertedCount(ms: seq<UserSession>): (c: nat)
    ensures c == Count(ms, Reporting.Converted) <= |ms|
  {
    Count(ms, Reporting.Converted)
  }

  /** `$first: '$elementText'`. */
  function FirstText(ms: seq<ClickDoc>): Option<string> {
    if ms == [] then None else ms[0].fields.elementText
  }

  /** `Math.round` of the mean of the maximum scroll depths. */
  function AvgMaxScroll(ms: seq<ScrollDoc>): int {
    match Avg(Present(ms, MaxScroll))
    case None => 0
    case Some(a) => Round(a)
  }

  /** `uniqueSessions.length` of a form: the number of distinct sessions that touched it. */
  function UniqueSessions(ms: seq<FormInteractionDoc>): (n: nat)
    ensures n == |KeySet(ms, InteractionSession)| <= |ms|
    ensures n == 0 <==> ms == []
  {
    DistinctCountIsKeySetSize(ms, InteractionSession);
    DistinctCount(ms, InteractionSession)
  }

  datatype SubmissionStats = SubmissionStats(successful: nat, successRate: string, avgTimeTaken: int)

  function SubmissionStatsOf(ms: seq<FormSubmissionDoc>): (s: SubmissionStats)
    ensures s.successful == Count(ms, Reporting.Succeeded) <= |ms|
    ensures ms == [] ==> s.successRate == "NaN"
    ensures ms != [] ==> ParseFloat(s.successRate) == Some(Reporting.Rate(s.successful, |ms|))
    ensures s.avgTimeTaken == MeanSeconds(Present(ms, TimeTaken))
  {
    var ok := Count(ms, Reporting.Succeeded);
    SubmissionStats(ok, RateText(ok, |ms|), MeanSeconds(Present(ms, TimeTaken)))
  }

  // ---------------------------------------------------------------------------
  // The summary

  datatype Summary = Summary(
    totalPageViews: nat, totalSessions: nat, totalClicks: nat, totalFormSubmissions: nat,
    conversions: nat, conversionRate: real, bounceRate: real,
    avgSessionDuration: int, avgPagesPerSession: string,
    returningVisitors: nat, newVisitors: int, activeVisitors: nat)

  /** The page counts of the sessions, as `$avg: '$pageViews'` reads them. */
  function SessionPages(sessions: seq<UserSession>): (pages: seq<int>)
    ensures |pages| == |sessions|
    ensures forall i :: 0 <= i < |pages| ==> pages[i] == sessions[i].pageViews
  {
    seq(|sessions|, i requires 0 <= i < |sessions| => sessions[i].pageViews as int)
  }

  /** The `avgPagesPerSession` figure: `avgPages?.toFixed(2) || '0'`. */
  function AvgPages(sessions: seq<UserSession>): (r: string)
    ensures sessions == [] <==> r == "0"
  {
    var pages := SessionPages(sessions);
    match Avg(pages)
    case None => "0"
    case Some(a) =>
      AvgBounds(pages, 0, MaxOf(pages));
      ToFixed2(a)
  }

  /** The `avgPagesPerSession` string reads back as the mean page count rounded to hundredths. */
  lemma AvgPagesReadsBack(sessions: seq<UserSession>)
    requires sessions != []
    ensures Avg(SessionPages(sessions)).value >= 0.0
    ensures ParseFloat(AvgPages(sessions)) == Some(Round2(Avg(SessionPages(sessions)).value))
  {
    var pages := SessionPages(sessions);
    AvgBounds(pages, 0, MaxOf(pages));
    ParseFloatToFixed2(Avg(pages).value);
  }

  function RecentViews(pvs: seq<PageViewDoc>, since: int): seq<PageViewDoc> {
    Filter(pvs, (v: PageViewDoc) => v.timestamp >= since)
  }

  /** The number of distinct sessions with a page view at or after `since`. */
  function ActiveVisitors(pvs: seq<PageViewDoc>, since: int): (n: nat)
    ensures n <= |pvs|
    ensures n == |KeySet(RecentViews(pvs, since), ViewSession)|
  {
    DistinctCountIsKeySetSize(RecentViews(pvs, since), ViewSession);
    DistinctCount(RecentViews(pvs, since), ViewSession)
  }

  function IsReturning(s: UserSession): bool { s.isReturning }
  function Bounced(s: UserSession): bool { s.bounced }

  function SummaryOf(db: Reporting.Db, start: int, now: int): (s: Summary)
    ensures var c := Reporting.CountsSince(db, start);
      && s.totalPageViews == c.totalPageViews && s.totalSessions == c.totalSessions
      && s.totalClicks == c.totalClicks && s.totalFormSubmissions == c.totalFormSubmissions
      && s.conversions == c.conversions
    ensures s.conversionRate == Reporting.Rate(s.conversions, s.totalSessions)
    ensures s.bounceRate == Reporting.Rate(Count(Reporting.SessionsSince(db, start), Bounced), s.totalSessions)
    ensures s.returningVisitors == Count(Reporting.SessionsSince(db, start), IsReturning) <= s.totalSessions
    ensures s.newVisitors == s.totalSessions - s.returningVisitors >= 0
    ensures s.activeVisitors <= |db.pageViews|
    ensures 0.0 <= s.conversionRate <= 100.0 && 0.0 <= s.bounceRate <= 100.0
    ensures s.totalSessions == 0 ==> s.conversionRate == 0.0 && s.bounceRate == 0.0 && s.avgPagesPerSession == "0"
  {
    var c := Reporting.CountsSince(db, start);
    var sessions := Reporting.SessionsSince(db, start);
    var bounced := Count(sessions, Bounced);
    var returning := Count(sessions, IsReturning);
    Summary(
      c.totalPageViews, c.totalSessions, c.totalClicks, c.totalFormSubmissions, c.conversions,
      Reporting.Rate(c.conversions, c.totalSessions),
      Reporting.Rate(bounced, c.totalSessions),
      MeanSeconds(Present(sessions, DurationOf)),
      AvgPages(sessions),
      returning, c.totalSessions - returning,
      ActiveVisitors(db.pageViews, now - REALTIME_MS))
  }

  /** The averaged and real-time figures of the summary, each over the documents it reads. */
  lemma SummaryFigures(db: Reporting.Db, start: int, now: int)
    ensures var s := SummaryOf(db, start, now);
      var sessions := Reporting.SessionsSince(db, start);
      && s.avgSessionDuration == MeanSeconds(Present(sessions, DurationOf))
      && s.avgPagesPerSession == AvgPages(sessions)
      && s.activeVisitors == ActiveVisitors(db.pageViews, now - REALTIME_MS)
  {
  }

  /** The daily page-view table and the summary agree: the days' counts add up to `totalPageViews`. */
  lemma DailyViewsAddUp(db: Reporting.Db, start: int, now: int, day: int -> string)
    ensures Sum(RowCounts(DailyStats(Reporting.PageViewsSince(db, start), day))) == SummaryOf(db, start, now).totalPageViews
  {
  }

  // ---------------------------------------------------------------------------
  // The tables

  function PageViewsByPage(pvs: seq<PageViewDoc>): (r: seq<Row<string, int>>)
    ensures TopGroups(RowKeys(r), RowCounts(r), pvs, PageOf, TOP)
    ensures forall i :: 0 <= i < |r| ==> r[i].stats == MeanSeconds(Present(Select(pvs, PageOf, r[i].key), TimeOnPage))
  {
    RankedTable(pvs, PageOf, TOP, (ms: seq<PageViewDoc>) => MeanSeconds(Present(ms, TimeOnPage)))
  }

  function EntryPages(sessions: seq<UserSession>): (r: seq<Row<string, ()>>)
    ensures TopGroups(RowKeys(r), RowCounts(r), sessions, EntryPageOf, TOP)
  {
    RankedTable(sessions, EntryPageOf, TOP, (ms: seq<UserSession>) => ())
  }

  function Exited(sessions: seq<UserSession>): seq<UserSession> {
    Filter(sessions, (s: UserSession) => s.exitPage.Some?)
  }

  /** Only sessions that recorded an exit take part (`exitPage: { $exists: true }`). */
  function ExitPages(sessions: seq<UserSession>): (r: seq<Row<string, ()>>)
    ensures TopGroups(RowKeys(r), RowCounts(r), Exited(sessions), ExitPageOf, TOP)
  {
    RankedTable(Exited(sessions), ExitPageOf, TOP, (ms: seq<UserSession>) => ())
  }

  function TopClickedElements(clicks: seq<ClickDoc>): (r: seq<Row<(Option<string>, Option<string>), Option<string>>>)
    ensures TopGroups(RowKeys(r), RowCounts(r), clicks, ClickKey, TOP)
    ensures forall i :: 0 <= i < |r| ==> r[i].stats == FirstText(Select(clicks, ClickKey, r[i].key))
  {
    RankedTable(clicks, ClickKey, TOP, FirstText)
  }

  function BrowserBreakdown(sessions: seq<UserSession>): (r: seq<Row<Option<string>, ()>>)
    ensures TopGroups(RowKeys(r), RowCounts(r), sessions, BrowserOf, TOP)
  {
    RankedTable(sessions, BrowserOf, TOP, (ms: seq<UserSession>) => ())
  }

  function OsBreakdown(sessions: seq<UserSession>): (r: seq<Row<Option<string>, ()>>)
    ensures TopGroups(RowKeys(r), RowCounts(r), sessions, OsOf, TOP)
  {
    RankedTable(sessions, OsOf, TOP, (ms: seq<UserSession>) => ())
  }

  function CountryBreakdown(sessions: seq<UserSession>): (r: seq<Row<Option<string>, ()>>)
    ensures TopGroups(RowKeys(r), RowCounts(r), sessions, CountryOf, TOP)
  {
    RankedTable(sessions, CountryOf, TOP, (ms: seq<UserSession>) => ())
  }

  function CityBreakdown(sessions: seq<UserSession>): (r: seq<Row<(Option<string>, Option<string>), ()>>)
    ensures TopGroups(RowKeys(r), RowCounts(r), sessions, CityOf, TOP)
  {
    RankedTable(sessions, CityOf, TOP, (ms: seq<UserSession>) => ())
  }

  function WithUtmSource(sessions: seq<UserSession>): seq<UserSession> {
    Filter(sessions, (s: UserSession) => s.utmSource.Some?)
  }

  function WithUtmCampaign(sessions: seq<UserSession>): seq<UserSession> {
    Filter(sessions, (s: UserSession) => s.utmCampaign.Some?)
  }

  function UtmSources(sessions: seq<UserSession>): (r: seq<Row<string, UtmStats>>)
    ensures TopGroups(RowKeys(r), RowCounts(r), WithUtmSource(sessions), UtmSourceOf, TOP)
    ensures forall i :: 0 <= i < |r| ==> r[i].stats.conversions <= r[i].count
    ensures forall i :: 0 <= i < |r| ==> r[i].stats == UtmStatsOf(Select(WithUtmSource(sessions), UtmSourceOf, r[i].key))
  {
    RankedTable(WithUtmSource(sessions), UtmSourceOf, TOP, UtmStatsOf)
  }

  function UtmCampaigns(sessions: seq<UserSession>): (r: seq<Row<string, UtmStats>>)
    ensures TopGroups(RowKeys(r), RowCounts(r), WithUtmCampaign(sessions), UtmCampaignOf, TOP)
    ensures forall i :: 0 <= i < |r| ==> r[i].stats.conversions <= r[i].count
    ensures forall i :: 0 <= i < |r| ==> r[i].stats == UtmStatsOf(Select(WithUtmCampaign(sessions), UtmCampaignOf, r[i].key))
  {
    RankedTable(WithUtmCampaign(sessions), UtmCampaignOf, TOP, UtmStatsOf)
  }

  function DailyStats(pvs: seq<PageViewDoc>, day: int -> string): (r: seq<Row<string, ()>>)
    ensures Groups(RowKeys(r), RowCounts(r), pvs, DayOfView(day))
    ensures forall i, j :: 0 <= i < j < |r| ==> LexLe(r[i].key, r[j].key)
  {
    DailyTable(pvs, DayOfView(day), (ms: seq<PageViewDoc>) => ())
  }

  function DailyVisitors(sessions: seq<UserSession>, day: int -> string): (r: seq<Row<string, nat>>)
    ensures Groups(RowKeys(r), RowCounts(r), sessions, DayOfSession(day))
    ensures forall i, j :: 0 <= i < j < |r| ==> LexLe(r[i].key, r[j].key)
    ensures forall i :: 0 <= i < |r| ==> r[i].stats <= r[i].count
  {
    DailyTable(sessions, DayOfSession(day), ConvertedCount)
  }

  /** `referrer: { $exists: true, $nin: [null, ''] }`. */
  function Referred(sessions: seq<UserSession>): seq<UserSession> {
    Filter(sessions, (s: UserSession) => s.referrer.Some? && s.referrer.value != "")
  }

  function TopReferrers(sessions: seq<UserSession>): (r: seq<Row<string, nat>>)
    ensures TopGroups(RowKeys(r), RowCounts(r), Referred(sessions), ReferrerOf, TOP)
    ensures forall i :: 0 <= i < |r| ==> r[i].key != "" && r[i].stats <= r[i].count
  {
    var xs := Referred(sessions);
    var r := RankedTable(xs, ReferrerOf, TOP, ConvertedCount);
    ReferredKeys(sessions);
    TopReferrersFacts(xs, r);
    r
  }

  lemma ReferredKeys(sessions: seq<UserSession>)
    ensures forall n :: 0 <= n < |Referred(sessions)| ==> ReferrerOf(Referred(sessions)[n]) != ""
  {
    var xs := Referred(sessions);
    forall n | 0 <= n < |xs| ensures ReferrerOf(xs[n]) != "" {
      assert xs[n].referrer.Some? && xs[n].referrer.value != "";
    }
  }

  lemma TopReferrersFacts(xs: seq<UserSession>, r: seq<Row<string, nat>>)
    requires TopGroups(RowKeys(r), RowCounts(r), xs, ReferrerOf, TOP)
    requires forall i :: 0 <= i < |r| ==> r[i].stats == ConvertedCount(Select(xs, ReferrerOf, r[i].key))
    requires forall n :: 0 <= n < |xs| ==> ReferrerOf(xs[n]) != ""
    ensures forall i :: 0 <= i < |r| ==> r[i].key != "" && r[i].stats <= r[i].count
  {
    RowKeysSatisfy(xs, ReferrerOf, r, (k: string) => k != "");
    forall i | 0 <= i < |r| ensures r[i].stats <= r[i].count {
      assert RowKeys(r)[i] == r[i].key && RowCounts(r)[i] == r[i].count;
    }
  }

  /** `pagesVisited: { $exists: true, $ne: [] }`. */
  function Travelled(sessions: seq<UserSession>): seq<UserSession> {
    Filter(sessions, (s: UserSession) => s.pagesVisited != [])
  }

  lemma TravelledFlows(sessions: seq<UserSession>)
    ensures forall n :: 0 <= n < |Travelled(sessions)| ==> 1 <= |FlowOf(Travelled(sessions)[n])| <= 5
  {
  }

  /** Paths of the first five pages: each shown path is one to five pages long. */
  function UserFlows(sessions: seq<UserSession>): (r: seq<Row<seq<string>, ()>>)
    ensures TopGroups(RowKeys(r), RowCounts(r), Travelled(sessions), FlowOf, TOP)
    ensures forall i :: 0 <= i < |r| ==> 1 <= |r[i].key| <= 5
  {
    var r := RankedTable(Travelled(sessions), FlowOf, TOP, (ms: seq<UserSession>) => ());
    TravelledFlows(sessions);
    RowKeysSatisfy(Travelled(sessions), FlowOf, r, (k: seq<string>) => 1 <= |k| <= 5);
    r
  }

  /** A group the table shows has a document with its key. */
  lemma RowWitness<T, K>(xs: seq<T>, key: T -> K, k: K) returns (n: nat)
    requires |Select(xs, key, k)| > 0
    ensures n < |xs| && key(xs[n]) == k
  {
    var m := Select(xs, key, k)[0];
    SelectMember(xs, key, k, m);
    n :| n < |xs| && xs[n] == m;
  }

  /** When every document's key has property p, so does every key the table shows. */
  lemma RowKeysSatisfy<T, K, S>(xs: seq<T>, key: T -> K, r: seq<Row<K, S>>, p: K -> bool)
    requires TopGroups(RowKeys(r), RowCounts(r), xs, key, TOP)
    requires forall n :: 0 <= n < |xs| ==> p(key(xs[n]))
    ensures forall i :: 0 <= i < |r| ==> p(r[i].key)
  {
    forall i | 0 <= i < |r| ensures p(r[i].key) {
      assert RowKeys(r)[i] == r[i].key && RowCounts(r)[i] == r[i].count;
      var n := RowWitness(xs, key, r[i].key);
    }
  }

  function ScrollDepth(scrolls: seq<ScrollDoc>): (r: seq<Row<string, int>>)
    ensures TopGroups(RowKeys(r), RowCounts(r), scrolls, ScrollPage, TOP)
    ensures forall i :: 0 <= i < |r| ==> r[i].stats == AvgMaxScroll(Select(scrolls, ScrollPage, r[i].key))
  {
    RankedTable(scrolls, ScrollPage, TOP, AvgMaxScroll)
  }

  /** Depths reported as percentages average to a percentage. */
  lemma AvgMaxScrollPercent(ms: seq<ScrollDoc>)
    requires ms != []
    requires forall i :: 0 <= i < |ms| ==> 0 <= ms[i].maxScrollDepth <= 100
    ensures 0 <= AvgMaxScroll(ms) <= 100
  {
    var xs := Present(ms, MaxScroll);
    assert ms[0].maxScrollDepth in xs by {
      assert xs == [ms[0].maxScrollDepth] + Present(ms[1..], MaxScroll);
    }
    forall j | 0 <= j < |xs| ensures 0 <= xs[j] <= 100 {
      var i :| 0 <= i < |ms| && MaxScroll(ms[i]) == Some(xs[j]);
    }
    AvgBounds(xs, 0, 100);
    RoundMonotone(0.0, Avg(xs).value);
    RoundMonotone(Avg(xs).value, 100.0);
    RoundInt(0);
    RoundInt(100);
  }

  /** Per form: its interactions, and how many distinct sessions they come from. */
  function FormAbandonments(interactions: seq<FormInteractionDoc>): (r: seq<Row<Option<string>, nat>>)
    ensures Groups(RowKeys(r), RowCounts(r), interactions, FormIdOf)
    ensures forall i :: 0 <= i < |r| ==> r[i].stats == |KeySet(Select(interactions, FormIdOf, r[i].key), InteractionSession)|
    ensures forall i :: 0 <= i < |r| ==> 1 <= r[i].stats <= r[i].count
  {
    var r := GroupTable(interactions, FormIdOf, UniqueSessions);
    AbandonmentRows(interactions, r);
    r
  }

  lemma AbandonmentRows(interactions: seq<FormInteractionDoc>, r: seq<Row<Option<string>, nat>>)
    requires Groups(RowKeys(r), RowCounts(r), interactions, FormIdOf)
    requires forall i :: 0 <= i < |r| ==> r[i].stats == UniqueSessions(Select(interactions, FormIdOf, r[i].key))
    ensures forall i :: 0 <= i < |r| ==> r[i].stats == |KeySet(Select(interactions, FormIdOf, r[i].key), InteractionSession)|
    ensures forall i :: 0 <= i < |r| ==> 1 <= r[i].stats <= r[i].count
  {
    forall i | 0 <= i < |r|
      ensures r[i].stats == |KeySet(Select(interactions, FormIdOf, r[i].key), InteractionSession)|
      ensures 1 <= r[i].stats <= r[i].count
    {
      var ms := Select(interactions, FormIdOf, r[i].key);
      assert RowKeys(r)[i] == r[i].key && RowCounts(r)[i] == r[i].count;
      assert r[i].count == |ms| > 0;
    }
  }

  /** Per form type: its submissions, how many succeeded, the success rate and the mean time taken. */
  function FormSubmissionRate(submissions: seq<FormSubmissionDoc>): (r: seq<Row<Option<string>, SubmissionStats>>)
    ensures Groups(RowKeys(r), RowCounts(r), submissions, FormTypeOf)
    ensures forall i :: 0 <= i < |r| ==> r[i].stats.successful == Count(Select(submissions, FormTypeOf, r[i].key), Reporting.Succeeded)
    ensures forall i :: 0 <= i < |r| ==> r[i].stats.avgTimeTaken == MeanSeconds(Present(Select(submissions, FormTypeOf, r[i].key), TimeTaken))
    ensures forall i :: 0 <= i < |r| ==> r[i].stats.successful <= r[i].count
    ensures forall i :: 0 <= i < |r| ==>
      ParseFloat(r[i].stats.successRate) == Some(Reporting.Rate(r[i].stats.successful, r[i].count))
  {
    var r := GroupTable(submissions, FormTypeOf, SubmissionStatsOf);
    SubmissionRows(submissions, r);
    r
  }

  lemma SubmissionRows(submissions: seq<FormSubmissionDoc>, r: seq<Row<Option<string>, SubmissionStats>>)
    requires Groups(RowKeys(r), RowCounts(r), submissions, FormTypeOf)
    requires forall i :: 0 <= i < |r| ==> r[i].stats == SubmissionStatsOf(Select(submissions, FormTypeOf, r[i].key))
    ensures forall i :: 0 <= i < |r| ==> r[i].stats.successful == Count(Select(submissions, FormTypeOf, r[i].key), Reporting.Succeeded)
    ensures forall i :: 0 <= i < |r| ==> r[i].stats.avgTimeTaken == MeanSeconds(Present(Select(submissions, FormTypeOf, r[i].key), TimeTaken))
    ensures forall i :: 0 <= i < |r| ==> r[i].stats.successful <= r[i].count
    ensures forall i :: 0 <= i < |r| ==>
      ParseFloat(r[i].stats.successRate) == Some(Reporting.Rate(r[i].stats.successful, r[i].count))
  {
    forall i | 0 <= i < |r|
      ensures r[i].stats.successful == Count(Select(submissions, FormTypeOf, r[i].key), Reporting.Succeeded)
      ensures r[i].stats.avgTimeTaken == MeanSeconds(Present(Select(submissions, FormTypeOf, r[i].key), TimeTaken))
      ensures r[i].stats.successful <= r[i].count
      ensures ParseFloat(r[i].stats.successRate) == Some(Reporting.Rate(r[i].stats.successful, r[i].count))
    {
      var ms := Select(submissions, FormTypeOf, r[i].key);
      assert RowKeys(r)[i] == r[i].key && RowCounts(r)[i] == r[i].count;
      assert r[i].count == |ms| > 0;
    }
  }

  // ---------------------------------------------------------------------------
  // Recent documents

  /** A form submission as `recentConversions` shows it. */
  datatype Conversion = Conversion(formType: Option<string>, timestamp: int)

  function IsRecentConversion(f: FormSubmissionDoc, now: int): bool {
    f.timestamp >= now - REALTIME_MS && f.fields.success
  }

  function Converts(f: FormSubmissionDoc): Conversion {
    Conversion(f.fields.formType, f.timestamp)
  }

  /**
   * Up to five successful submissions of the last five minutes, newest first: each shown is one,
   * and none left out is newer than one shown.
   */
  function RecentConversions(submissions: seq<FormSubmissionDoc>, now: int): (r: seq<Conversion>)
    ensures |r| == if |RecentSubmissions(submissions, now)| < 5 then |RecentSubmissions(submissions, now)| else 5
    ensures multiset(r) <= multiset(Conversions(RecentSubmissions(submissions, now)))
    ensures forall i, j :: 0 <= i < j < |r| ==> r[i].timestamp >= r[j].timestamp
    ensures forall i :: 0 <= i < |r| ==> RecordsConversion(submissions, now, r[i])
    ensures forall f :: f in submissions && IsRecentConversion(f, now) && Converts(f) !in r ==>
      |r| == 5 && forall i :: 0 <= i < |r| ==> f.timestamp <= r[i].timestamp
  {
    var top := TopN(RecentSubmissions(submissions, now), SubmissionTime, 5);
    var r := Conversions(top);
    RecentConversionsFacts(submissions, now, top, r);
    r
  }

  lemma RecentConversionsFacts(submissions: seq<FormSubmissionDoc>, now: int, top: seq<FormSubmissionDoc>, r: seq<Conversion>)
    requires |top| <= 5 && SortedDesc(top, SubmissionTime)
    requires multiset(top) <= multiset(RecentSubmissions(submissions, now))
    requires |RecentSubmissions(submissions, now)| <= 5 ==> multiset(top) == multiset(RecentSubmissions(submissions, now))
    requires |RecentSubmissions(submissions, now)| >= 5 ==> |top| == 5
    requires forall y :: y in multiset(RecentSubmissions(submissions, now)) - multiset(top) ==>
      forall i :: 0 <= i < |top| ==> SubmissionTime(y) <= SubmissionTime(top[i])
    requires |r| == |top| && forall i :: 0 <= i < |top| ==> r[i] == Converts(top[i])
    ensures |r| == if |RecentSubmissions(submissions, now)| < 5 then |RecentSubmissions(submissions, now)| else 5
    ensures multiset(r) <= multiset(Conversions(RecentSubmissions(submissions, now)))
    ensures forall i, j :: 0 <= i < j < |r| ==> r[i].timestamp >= r[j].timestamp
    ensures forall i :: 0 <= i < |r| ==> RecordsConversion(submissions, now, r[i])
    ensures forall f :: f in submissions && IsRecentConversion(f, now) && Converts(f) !in r ==>
      |r| == 5 && forall i :: 0 <= i < |r| ==> f.timestamp <= r[i].timestamp
  {
    var recent := RecentSubmissions(submissions, now);
    assert |recent| <= 5 ==> |multiset(top)| == |multiset(recent)|;
    MapSubMultiset(top, recent, r, Conversions(recent), Converts);
    RecentConversionsSorted(top, r);
    RecentConversionsShown(submissions, now, top, r);
    RecentConversionsLeftOut(submissions, now, top, r);
  }

  lemma RecentConversionsSorted(top: seq<FormSubmissionDoc>, r: seq<Conversion>)
    requires SortedDesc(top, SubmissionTime)
    requires |r| == |top| && forall i :: 0 <= i < |top| ==> r[i] == Converts(top[i])
    ensures forall i, j :: 0 <= i < j < |r| ==> r[i].timestamp >= r[j].timestamp
  {
  }

  /** c shows a successful submission of the last five minutes. */
  ghost predicate RecordsConversion(submissions: seq<FormSubmissionDoc>, now: int, c: Conversion) {
    exists f :: f in submissions && IsRecentConversion(f, now) && c == Converts(f)
  }

  function RecentSubmissions(submissions: seq<FormSubmissionDoc>, now: int): seq<FormSubmissionDoc> {
    Filter(submissions, (f: FormSubmissionDoc) => IsRecentConversion(f, now))
  }

  function Conversions(top: seq<FormSubmissionDoc>): (r: seq<Conversion>)
    ensures |r| == |top| && forall i :: 0 <= i < |top| ==> r[i] == Converts(top[i])
  {
    seq(|top|, i requires 0 <= i < |top| => Converts(top[i]))
  }

  lemma RecentConversionsShown(submissions: seq<FormSubmissionDoc>, now: int, top: seq<FormSubmissionDoc>, r: seq<Conversion>)
    requires multiset(top) <= multiset(RecentSubmissions(submissions, now))
    requires |r| == |top| && forall i :: 0 <= i < |top| ==> r[i] == Converts(top[i])
    ensures forall i :: 0 <= i < |r| ==> RecordsConversion(submissions, now, r[i])
  {
    forall i | 0 <= i < |r| ensures RecordsConversion(submissions, now, r[i]) {
      assert top[i] in multiset(top);
      var f := top[i];
      assert f in RecentSubmissions(submissions, now) && r[i] == Converts(f);
    }
  }

  lemma RecentConversionsLeftOut(submissions: seq<FormSubmissionDoc>, now: int, top: seq<FormSubmissionDoc>, r: seq<Conversion>)
    requires |RecentSubmissions(submissions, now)| <= 5 ==> multiset(top) == multiset(RecentSubmissions(submissions, now))
    requires |RecentSubmissions(submissions, now)| >= 5 ==> |top| == 5
    requires forall y :: y in multiset(RecentSubmissions(submissions, now)) - multiset(top) ==>
      forall i :: 0 <= i < |top| ==> SubmissionTime(y) <= SubmissionTime(top[i])
    requires |r| == |top| && forall i :: 0 <= i < |top| ==> r[i] == Converts(top[i])
    ensures forall f :: f in submissions && IsRecentConversion(f, now) && Converts(f) !in r ==>
      |r| == 5 && forall i :: 0 <= i < |r| ==> f.timestamp <= r[i].timestamp
  {
    var recent := RecentSubmissions(submissions, now);
    forall f | f in submissions && IsRecentConversion(f, now) && Converts(f) !in r
      ensures |r| == 5 && forall i :: 0 <= i < |r| ==> f.timestamp <= r[i].timestamp
    {
      var k := Position(submissions, f);
      assert f in recent;
      forall j | 0 <= j < |top| ensures top[j] != f { assert r[j] == Converts(top[j]); }
      assert multiset(top)[f] == 0;
      assert f in multiset(recent) - multiset(top);
    }
  }

  /** A page view as `recentActivity` projects it. */
  datatype Activity = Activity(
    sessionId: string, page: string, timestamp: int,
    device: Option<string>, country: Option<string>, city: Option<string>, browser: Option<string>)

  function Project(v: PageViewDoc): Activity {
    Activity(v.fields.sessionId, v.fields.page, v.timestamp, v.fields.device, v.fields.country, v.fields.city, v.fields.browser)
  }

  /** a is the projection of one of the page views. */
  ghost predicate ProjectsView(pvs: seq<PageViewDoc>, a: Activity) {
    exists v :: v in pvs && a == Project(v)
  }

  /**
   * The twenty newest page views of the window, newest first: each shown is one of them, and
   * none left out is newer than one shown.
   */
  function RecentActivity(pvs: seq<PageViewDoc>): (r: seq<Activity>)
    ensures |r| == if |pvs| < 20 then |pvs| else 20
    ensures multiset(r) <= multiset(Projected(pvs))
    ensures forall i, j :: 0 <= i < j < |r| ==> r[i].timestamp >= r[j].timestamp
    ensures forall i :: 0 <= i < |r| ==> ProjectsView(pvs, r[i])
    ensures forall v :: v in pvs && Project(v) !in r ==> forall i :: 0 <= i < |r| ==> v.timestamp <= r[i].timestamp
  {
    var top := TopN(pvs, ViewTime, 20);
    var r := Projected(top);
    RecentActivityFacts(pvs, top, r);
    r
  }

  lemma RecentActivityFacts(pvs: seq<PageViewDoc>, top: seq<PageViewDoc>, r: seq<Activity>)
    requires |top| <= 20 && (|pvs| >= 20 ==> |top| == 20)
    requires |pvs| <= 20 ==> multiset(top) == multiset(pvs)
    requires SortedDesc(top, ViewTime) && multiset(top) <= multiset(pvs)
    requires forall y :: y in multiset(pvs) - multiset(top) ==> forall i :: 0 <= i < |top| ==> ViewTime(y) <= ViewTime(top[i])
    requires |r| == |top| && forall i :: 0 <= i < |top| ==> r[i] == Project(top[i])
    ensures |r| == if |pvs| < 20 then |pvs| else 20
    ensures multiset(r) <= multiset(Projected(pvs))
    ensures forall i, j :: 0 <= i < j < |r| ==> r[i].timestamp >= r[j].timestamp
    ensures forall i :: 0 <= i < |r| ==> ProjectsView(pvs, r[i])
    ensures forall v :: v in pvs && Project(v) !in r ==> forall i :: 0 <= i < |r| ==> v.timestamp <= r[i].timestamp
  {
    assert |pvs| <= 20 ==> |multiset(top)| == |multiset(pvs)|;
    MapSubMultiset(top, pvs, r, Projected(pvs), Project);
    RecentActivitySorted(top, r);
    RecentActivityShown(pvs, top, r);
    RecentActivityLeftOut(pvs, top, r);
  }

  lemma RecentActivitySorted(top: seq<PageViewDoc>, r: seq<Activity>)
    requires SortedDesc(top, ViewTime)
    requires |r| == |top| && forall i :: 0 <= i < |top| ==> r[i] == Project(top[i])
    ensures forall i, j :: 0 <= i < j < |r| ==> r[i].timestamp >= r[j].timestamp
  {
  }

  function Projected(top: seq<PageViewDoc>): (r: seq<Activity>)
    ensures |r| == |top| && forall i :: 0 <= i < |top| ==> r[i] == Project(top[i])
  {
    seq(|top|, i requires 0 <= i < |top| => Project(top[i]))
  }

  lemma RecentActivityShown(pvs: seq<PageViewDoc>, top: seq<PageViewDoc>, r: seq<Activity>)
    requires multiset(top) <= multiset(pvs)
    requires |r| == |top| && forall i :: 0 <= i < |top| ==> r[i] == Project(top[i])
    ensures forall i :: 0 <= i < |r| ==> ProjectsView(pvs, r[i])
  {
    forall i | 0 <= i < |r| ensures ProjectsView(pvs, r[i]) {
      assert top[i] in multiset(top);
      var v := top[i];
      assert v in pvs && r[i] == Project(v);
    }
  }

  lemma RecentActivityLeftOut(pvs: seq<PageViewDoc>, top: seq<PageViewDoc>, r: seq<Activity>)
    requires forall y :: y in multiset(pvs) - multiset(top) ==> forall i :: 0 <= i < |top| ==> ViewTime(y) <= ViewTime(top[i])
    requires |r| == |top| && forall i :: 0 <= i < |top| ==> r[i] == Project(top[i])
    ensures forall v :: v in pvs && Project(v) !in r ==> forall i :: 0 <= i < |r| ==> v.timestamp <= r[i].timestamp
  {
    forall v | v in pvs && Project(v) !in r ensures forall i :: 0 <= i < |r| ==> v.timestamp <= r[i].timestamp {
      forall j | 0 <= j < |top| ensures top[j] != v { assert r[j] == Project(top[j]); }
      assert multiset(top)[v] == 0;
      assert v in multiset(pvs) - multiset(top);
    }
  }

  // ---------------------------------------------------------------------------
  // The response

  /** The `deviceBreakdown` object: `acc[item._id || 'unknown'] = item.count` over the groups. */
  function DeviceLabel(device: Option<string>): string {
    if device.None? || device.value == "" then "unknown" else device.value
  }

  /**
   * The one label an assignment on a plain `{}` does not store: `acc['__proto__'] = n` calls the
   * prototype setter, which ignores a number, so the object gets no such key.
   */
  const PROTO_KEY := "__proto__"

  function Tally<S>(rows: seq<Row<Option<string>, S>>): (m: map<string, nat>)
    ensures forall k :: k in m <==> k != PROTO_KEY && exists i :: 0 <= i < |rows| && DeviceLabel(rows[i].key) == k
    ensures forall k :: k in m ==> exists i :: 0 <= i < |rows| && DeviceLabel(rows[i].key) == k && m[k] == rows[i].count
  {
    if rows == [] then map[]
    else
      var last := rows[|rows| - 1];
      var m := Tally(rows[..|rows| - 1]);
      var k := DeviceLabel(last.key);
      if k == PROTO_KEY then m else m[k := last.count]
  }

  /**
   * Every named device present in the window appears under its own name with its session count;
   * sessions without a device name are reported under "unknown". A device named "__proto__" is
   * dropped, as the object the source builds drops it.
   */
  function DeviceBreakdown(sessions: seq<UserSession>): (m: map<string, nat>)
    ensures "" !in m && PROTO_KEY !in m
    ensures forall d :: d != "" && d != "unknown" && d != PROTO_KEY ==>
      (d in m <==> exists i :: 0 <= i < |sessions| && sessions[i].device == Some(d))
    ensures forall d :: d in m && d != "unknown" ==> m[d] == |Select(sessions, DeviceOf, Some(d))|
    ensures "unknown" in m <==> exists i :: 0 <= i < |sessions| && DeviceLabel(sessions[i].device) == "unknown"
  {
    var rows := GroupTable(sessions, DeviceOf, (ms: seq<UserSession>) => ());
    DeviceRows(sessions, rows);
    DeviceBreakdownFacts(sessions, rows);
    Tally(rows)
  }

  lemma DeviceBreakdownFacts(sessions: seq<UserSession>, rows: seq<Row<Option<string>, ()>>)
    requires DeviceRowsCount(sessions, rows) && DeviceRowsCover(sessions, rows)
    ensures "" !in Tally(rows) && PROTO_KEY !in Tally(rows)
    ensures forall d :: d != "" && d != "unknown" && d != PROTO_KEY ==>
      (d in Tally(rows) <==> exists i :: 0 <= i < |sessions| && sessions[i].device == Some(d))
    ensures forall d :: d in Tally(rows) && d != "unknown" ==> Tally(rows)[d] == |Select(sessions, DeviceOf, Some(d))|
    ensures "unknown" in Tally(rows) <==> exists i :: 0 <= i < |sessions| && DeviceLabel(sessions[i].device) == "unknown"
  {
    DeviceBreakdownNamed(sessions, rows);
    DeviceBreakdownPresent(sessions, rows);
    DeviceBreakdownUnknown(sessions, rows);
  }

  lemma DeviceBreakdownNamed(sessions: seq<UserSession>, rows: seq<Row<Option<string>, ()>>)
    requires DeviceRowsCount(sessions, rows)
    ensures forall d :: d in Tally(rows) ==> d != "" && (d != "unknown" ==> DeviceNamed(sessions, d))
    ensures forall d :: d in Tally(rows) && d != "unknown" ==> Tally(rows)[d] == |Select(sessions, DeviceOf, Some(d))|
  {
    forall d | d in Tally(rows) ensures d != "" && (d != "unknown" ==> DeviceNamed(sessions, d) && Tally(rows)[d] == |Select(sessions, DeviceOf, Some(d))|) {
      DeviceRowNamed(sessions, rows, d);
    }
  }

  lemma DeviceBreakdownPresent(sessions: seq<UserSession>, rows: seq<Row<Option<string>, ()>>)
    requires DeviceRowsCount(sessions, rows) && DeviceRowsCover(sessions, rows)
    ensures forall d :: d != "" && d != "unknown" && d != PROTO_KEY ==>
      (d in Tally(rows) <==> exists i :: 0 <= i < |sessions| && sessions[i].device == Some(d))
  {
    forall d | d != "" && d != "unknown" && d != PROTO_KEY
      ensures d in Tally(rows) <==> exists i :: 0 <= i < |sessions| && sessions[i].device == Some(d)
    {
      if exists i :: 0 <= i < |sessions| && sessions[i].device == Some(d) {
        var i :| 0 <= i < |sessions| && sessions[i].device == Some(d);
        DeviceListed(sessions, rows, i);
      }
      if d in Tally(rows) {
        DeviceRowNamed(sessions, rows, d);
      }
    }
  }

  lemma DeviceBreakdownUnknown(sessions: seq<UserSession>, rows: seq<Row<Option<string>, ()>>)
    requires DeviceRowsCount(sessions, rows) && DeviceRowsCover(sessions, rows)
    ensures "unknown" in Tally(rows) <==> exists i :: 0 <= i < |sessions| && DeviceLabel(sessions[i].device) == "unknown"
  {
    if exists i :: 0 <= i < |sessions| && DeviceLabel(sessions[i].device) == "unknown" {
      var i :| 0 <= i < |sessions| && DeviceLabel(sessions[i].device) == "unknown";
      DeviceListed(sessions, rows, i);
    }
    if "unknown" in Tally(rows) {
      DeviceRowNamed(sessions, rows, "unknown");
    }
  }

  /** Some session of the window has device d, and d's group counts exactly those sessions. */
  ghost predicate DeviceNamed(sessions: seq<UserSession>, d: string) {
    exists i :: 0 <= i < |sessions| && sessions[i].device == Some(d)
  }

  /** The rows of a device `$group`: each counts the sessions with its key, and every session's key has a row. */
  ghost predicate DeviceRowsCount<S>(sessions: seq<UserSession>, rows: seq<Row<Option<string>, S>>) {
    forall i :: 0 <= i < |rows| ==> rows[i].count == |Select(sessions, DeviceOf, rows[i].key)| && rows[i].count > 0
  }

  ghost predicate DeviceRowsCover<S>(sessions: seq<UserSession>, rows: seq<Row<Option<string>, S>>) {
    forall n :: 0 <= n < |sessions| ==> DeviceOf(sessions[n]) in RowKeys(rows)
  }

  lemma DeviceRows<S>(sessions: seq<UserSession>, rows: seq<Row<Option<string>, S>>)
    requires Groups(RowKeys(rows), RowCounts(rows), sessions, DeviceOf)
    ensures DeviceRowsCount(sessions, rows) && DeviceRowsCover(sessions, rows)
  {
    forall i | 0 <= i < |rows| ensures rows[i].count == |Select(sessions, DeviceOf, rows[i].key)| && rows[i].count > 0 {
      assert RowKeys(rows)[i] == rows[i].key && RowCounts(rows)[i] == rows[i].count;
    }
  }

  lemma TallyIndex<S>(rows: seq<Row<Option<string>, S>>, d: string) returns (i: nat)
    requires d in Tally(rows)
    ensures i < |rows| && DeviceLabel(rows[i].key) == d && Tally(rows)[d] == rows[i].count
  {
    i :| i < |rows| && DeviceLabel(rows[i].key) == d && Tally(rows)[d] == rows[i].count;
  }

  lemma DeviceRowNamed<S>(sessions: seq<UserSession>, rows: seq<Row<Option<string>, S>>, d: string)
    requires DeviceRowsCount(sessions, rows) && d in Tally(rows)
    ensures d != ""
    ensures d != "unknown" ==> DeviceNamed(sessions, d) && Tally(rows)[d] == |Select(sessions, DeviceOf, Some(d))|
    ensures d == "unknown" ==> exists n :: 0 <= n < |sessions| && DeviceLabel(sessions[n].device) == "unknown"
  {
    var i := TallyIndex(rows, d);
    var k := rows[i].key;
    assert rows[i].count == |Select(sessions, DeviceOf, k)| > 0;
    var n := RowWitness(sessions, DeviceOf, k);
    assert DeviceLabel(sessions[n].device) == d;
    if d != "unknown" {
      assert k == Some(d);
    }
  }

  lemma DeviceListed<S>(sessions: seq<UserSession>, rows: seq<Row<Option<string>, S>>, n: nat)
    requires DeviceRowsCover(sessions, rows) && n < |sessions| && DeviceLabel(sessions[n].device) != PROTO_KEY
    ensures DeviceLabel(sessions[n].device) in Tally(rows)
  {
    assert DeviceOf(sessions[n]) in RowKeys(rows);
    var i :| 0 <= i < |RowKeys(rows)| && RowKeys(rows)[i] == DeviceOf(sessions[n]);
    assert DeviceLabel(rows[i].key) == DeviceLabel(sessions[n].device);
  }

  datatype Report = Report(
    summary: Summary,
    pageViewsByPage: seq<Row<string, int>>,
    entryPages: seq<Row<string, ()>>,
    exitPages: seq<Row<string, ()>>,
    topClickedElements: seq<Row<(Option<string>, Option<string>), Option<string>>>,
    deviceBreakdown: map<string, nat>,
    browserBreakdown: seq<Row<Option<string>, ()>>,
    osBreakdown: seq<Row<Option<string>, ()>>,
    countryBreakdown: seq<Row<Option<string>, ()>>,
    cityBreakdown: seq<Row<(Option<string>, Option<string>), ()>>,
    utmSources: seq<Row<string, UtmStats>>,
    utmCampaigns: seq<Row<string, UtmStats>>,
    dailyStats: seq<Row<string, ()>>,
    dailyVisitors: seq<Row<string, nat>>,
    topReferrers: seq<Row<string, nat>>,
    userFlows: seq<Row<seq<string>, ()>>,
    scrollDepth: seq<Row<string, int>>,
    abandonments: seq<Row<Option<string>, nat>>,
    submissions: seq<Row<Option<string>, SubmissionStats>>,
    recentConversions: seq<Conversion>,
    recentActivity: seq<Activity>)

  function ReportOf(db: Reporting.Db, start: int, now: int, day: int -> string): Report {
    var pvs := Reporting.PageViewsSince(db, start);
    var sessions := Reporting.SessionsSince(db, start);
    Report(
      SummaryOf(db, start, now),
      PageViewsByPage(pvs),
      EntryPages(sessions),
      ExitPages(sessions),
      TopClickedElements(Reporting.ClicksSince(db, start)),
      DeviceBreakdown(sessions),
      BrowserBreakdown(sessions),
      OsBreakdown(sessions),
      CountryBreakdown(sessions),
      CityBreakdown(sessions),
      UtmSources(sessions),
      UtmCampaigns(sessions),
      DailyStats(pvs, day),
      DailyVisitors(sessions, day),
      TopReferrers(sessions),
      UserFlows(sessions),
      ScrollDepth(Reporting.ScrollsSince(db, start)),
      FormAbandonments(Reporting.InteractionsSince(db, start)),
      FormSubmissionRate(Reporting.SubmissionsSince(db, start)),
      RecentConversions(db.formSubmissions, now),
      RecentActivity(pvs))
  }

  /** GET: 401 without a session, otherwise the report for the window the `period` parameter selects. */
  function Get(session: Http.ServerSession, period: Option<string>, db: Reporting.Db, now: int, day: int -> string): (r: Http.Reply<Report>)
    ensures r.Failure? <==> session.NoSession?
    ensures r.Failure? ==> r.status == Http.UNAUTHORIZED
    ensures r.Success? ==> r.status == Http.OK && r.body == ReportOf(db, Reporting.WindowStart(period, now), now, day)
  {
    Reporting.Guarded(session, ReportOf(db, Reporting.WindowStart(period, now), now, day))
  }

  // ---------------------------------------------------------------------------
  // Against the ingestion store

  /**
   * Nothing the ingestion endpoint does marks a session returning, so on a store it built
   * every visitor in the window is new.
   */
  lemma NoReturningVisitors(st: Track.StoreState, db: Reporting.Db, start: int, now: int)
    requires Track.WellFormed(st) && Reporting.Lists(st, db)
    ensures SummaryOf(db, start, now).returningVisitors == 0
    ensures SummaryOf(db, start, now).newVisitors == SummaryOf(db, start, now).totalSessions
  {
    NoneReturning(st, db, start);
  }

  lemma NoneReturning(st: Track.StoreState, db: Reporting.Db, start: int)
    requires Track.WellFormed(st) && Reporting.Lists(st, db)
    ensures Count(Reporting.SessionsSince(db, start), IsReturning) == 0
  {
    var sessions := Reporting.SessionsSince(db, start);
    forall n | 0 <= n < |sessions| ensures !IsReturning(sessions[n]) {
      var x := sessions[n];
      var j := Position(db.userSessions, x);
      assert Track.SessionWellFormed(st, x.sessionId);
    }
    CountNone(sessions, IsReturning);
  }
}
