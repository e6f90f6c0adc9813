# KandaMarkets analytics and lead intake, modelled in Dafny

This project models the visitor-analytics pipeline and the lead-intake path of the KandaMarkets
marketing site (a Next.js front end over MongoDB). It proves properties about that model.

**The browser side**
- `ClientAnalytics` models `lib/analytics.ts`. It covers:
  - the session id kept in session storage;
  - the version-4 UUID;
  - the device class;
  - the three event senders.
- `ClickTracker` models the automatic click tracker: which element a click is attributed to and how that element is named.
- `Theme` models the light and dark theme provider.

**Ingestion**
- `Track` models the `POST /api/analytics/track` handler.
- The six Mongo collections it writes are the fields of the `EventStore` class.
- Each event kind is a method that updates the collections the way the handler's inserts and upserts do.

**Reporting**
- `Reporting`, `Aggregate`, `AnalyticsEnhanced` and `AnalyticsBasic` model the two admin reporting endpoints as pure functions over the stored documents. They cover:
  - the `period` window;
  - `countDocuments`;
  - `$group` / `$sort` / `$limit` tables;
  - `$avg`;
  - `Math.round` and `toFixed(2)`.
- `StatsPanel` models the two display helpers of the enhanced dashboard panel.

**Referrers and geolocation**
- `Referrer` models the referrer categorisation helpers.
- `Geolocation` models client-IP extraction, flags, country names and the two lookup services. The network reply is an input.

**Leads**
- `LeadIntake` models the public lead form endpoint. The `leads` collection is the field of a `LeadStore` class.
- `AdminLeads` models the admin listing.
- `Dashboard` models the dashboard's search, filter and "New" count.
- `Testimonials` models the testimonial highlighter.

**Shared modules**
- `Wrappers`: `Option`, JavaScript truthiness, and `Outcome` for throwing calls.
- `Collections`: filter, group, sort and top-N.
- `Text`: JavaScript string operations on `seq<char>`.
- `Http`: the auth session and the reply shape.
- `Events`: event payloads and stored document shapes.

**Inputs the code reads from its environment**

The model takes these as parameters:
- the clock (`now`);
- `Math.random` (`ns`, `random`);
- the parsed URL (`Option<Url>`: `None` where `new URL` throws);
- request headers;
- the `$dateToString` day key (`day`);
- the network replies of the geolocation services;
- the browser's storage and media query.

## Model

| member | source | states |
|---|---|---|
| Track.AddToSet | frontend/app/api/analytics/track/route.ts:60 | `$addToSet`: the result holds exactly the old elements plus the new one, keeps the old list as a prefix, and adds no duplicate |
| Track.UpsertSession | frontend/app/api/analytics/track/route.ts:43-72 | the page-view session upsert, field by field: a new session is seeded from the view with one page view; an existing one keeps its first-seen data, counts one more view, takes the latest device and location, overwrites UTM fields only with truthy values, and records the page once |
| Track.CloseSession | frontend/app/api/analytics/track/route.ts:93-108 | page exit sets exit page and duration; bounced iff at most one page view and under 30 000 ms (30 s) since first seen; nothing else changes |
| Track.UpsertScroll | frontend/app/api/analytics/track/route.ts:113-130 | the scroll upsert keyed by (session, page): latest depth and time, running `$max` of the maximum depth |
| Track.LastOpen | frontend/app/api/analytics/track/route.ts:81-90 | finds the newest page view of that session and page not yet exited, or none exists |
| Track.MarkExit | frontend/app/api/analytics/track/route.ts:81-90 | `updateOne` with sort: at most one view changes, it is the newest open match, it gets the exit flag and time on page, and some view changes whenever one matches |
| Events.WireName | frontend/app/api/analytics/track/route.ts:13-191 | the `eventType` of an event is one of the six names the switch dispatches on exactly when the event is not an unrecognised one |
| Track.Handle | frontend/app/api/analytics/track/route.ts:13-196 | 400 `Invalid event type` exactly for unrecognised events, that is exactly when the `eventType` is none of the six accepted names; those leave the store untouched |
| Track.EmptyWellFormed | frontend/app/api/analytics/track/route.ts:13-196 | the empty database satisfies the store invariant |
| Track.PageViewPreservesWellFormed | frontend/app/api/analytics/track/route.ts:14-75 | a page view keeps every session's view count equal to its stored views, its page list duplicate-free and containing the entry page, and never marks it returning |
| Track.PageViewKeepsSession | frontend/app/api/analytics/track/route.ts:14-75 | after a page view each stored session is still well formed, whether it is the viewed one, a fresh one or another one |
| Track.PageExitPreservesWellFormed | frontend/app/api/analytics/track/route.ts:77-111 | a page exit keeps the store invariant |
| Track.PageExitKeepsSession | frontend/app/api/analytics/track/route.ts:77-111 | after a page exit each stored session is still well formed, the closed one included |
| Track.FormSubmissionPreservesWellFormed | frontend/app/api/analytics/track/route.ts:165-187 | a form submission keeps the store invariant |
| Track.HandlePreservesWellFormed | frontend/app/api/analytics/track/route.ts:13-196 | every event kind keeps the store invariant |
| Track.RunWellFormed | frontend/app/api/analytics/track/route.ts:13-196 | any sequence of requests keeps the store invariant |
| Track.EvolvesTransitive | frontend/app/api/analytics/track/route.ts:13-196 | "never undoes" composes over successive requests |
| Track.HandleEvolves | frontend/app/api/analytics/track/route.ts:13-196 | one request never undoes anything. Sessions keep their id, first-seen time, referrer and entry page; conversions stick; view counts and page sets only grow. The max scroll depth never falls. Append-only collections only grow. An exited page view never changes |
| Track.RunEvolves | frontend/app/api/analytics/track/route.ts:13-196 | the same for any sequence of requests |
| Track.FreshSessionReplay | frontend/app/api/analytics/track/route.ts:43-72 | n page views of a new session give it n page views, the first view's time, entry page and referrer, and exactly the visited pages, without repeats |
| Track.ScrollReplay | frontend/app/api/analytics/track/route.ts:113-130 | after scroll events for one (session, page), the document holds the last depth and time, and a maximum depth that is one of the events' maximum depths and no smaller than any of them |
| Track.ConvertIdempotent | frontend/app/api/analytics/track/route.ts:179-184 | a second successful submission changes no session |
| Track.ConvertNeedsSession | frontend/app/api/analytics/track/route.ts:179-184 | a submission for an unknown session creates none |
| Track.BounceScenario | frontend/app/api/analytics/track/route.ts:93-108 | a one-page visit left within 30 s bounces; a two-page visit does not |
| Track.ViewThenExit | frontend/app/api/analytics/track/route.ts:22-40 | a view followed by its exit appends exactly one exited view carrying the time on page |
| Track.EventStore.constructor | frontend/app/api/analytics/track/route.ts:13-196 | the collections start empty and valid |
| Track.EventStore.RecordPageView | frontend/app/api/analytics/track/route.ts:14-75 | inserts the view and upserts the session; the invariant is kept |
| Track.EventStore.RecordPageExit | frontend/app/api/analytics/track/route.ts:77-111 | marks the open view and closes the session; the invariant is kept |
| Track.EventStore.RecordScroll | frontend/app/api/analytics/track/route.ts:113-130 | upserts the scroll document |
| Track.EventStore.RecordClick | frontend/app/api/analytics/track/route.ts:132-147 | appends the click |
| Track.EventStore.RecordFormInteraction | frontend/app/api/analytics/track/route.ts:149-163 | appends the interaction |
| Track.EventStore.RecordFormSubmission | frontend/app/api/analytics/track/route.ts:165-187 | appends the submission and, on success, converts an existing session |
| Track.EventStore.Post | frontend/app/api/analytics/track/route.ts:13-196 | the dispatching handler: its new state and response are those of `Handle` |
| Reporting.Gate | frontend/app/api/admin/analytics-enhanced/route.ts:9-12 | 401 exactly when there is no session |
| Reporting.Guarded | frontend/app/api/admin/analytics/route.ts:9-12 | either endpoint answers 401 "Unauthorized" exactly when there is no session, otherwise 200 with the body it was given |
| Reporting.PeriodDefault | frontend/app/api/admin/analytics-enhanced/route.ts:17-19 | a missing or empty `period` means 7 days |
| Reporting.ParseIntDecimal | frontend/app/api/admin/analytics-enhanced/route.ts:19 | `parseInt` reads back any decimal numeral, whatever follows it |
| Reporting.StartDate | frontend/app/api/admin/analytics-enhanced/route.ts:21-22 | the window start is never after now for a non-negative period; 7 days back by default |
| Reporting.WindowStart | frontend/app/api/admin/analytics-enhanced/route.ts:17-22 | start = now − period days; an unparseable period gives the epoch |
| Reporting.WindowDefault | frontend/app/api/admin/analytics-enhanced/route.ts:17-22 | without `period` the window is the last 7 days |
| Reporting.CountsSince | frontend/app/api/admin/analytics-enhanced/route.ts:25-45 | the page views, sessions and clicks of the window; the successful submissions of the window; the converted sessions of the window. Each is within its collection, and conversions never exceed sessions |
| Reporting.CountsShrink | frontend/app/api/admin/analytics-enhanced/route.ts:25-27 | a later window start never counts more |
| Reporting.Rate | frontend/app/api/admin/analytics-enhanced/route.ts:47-59 | a percentage in [0, 100], 0 without sessions, within 0.005 of the exact ratio |
| Aggregate.Ranked | frontend/app/api/admin/analytics-enhanced/route.ts:88-93 | `$group`/`$sort: -1`/`$limit`. At most n groups, each with a distinct key, holding exactly the matching documents, largest first. Every key is listed unless the limit is reached. A key left out is no larger than any listed group |
| Aggregate.RankedTop | frontend/app/api/admin/analytics-enhanced/route.ts:88-93 | the ranked keys and sizes are a top-n grouping of the input |
| Aggregate.SortAsc | frontend/app/api/admin/analytics-enhanced/route.ts:189-210 | `$sort: { _id: 1 }`: sorted by key, a permutation of the groups |
| Aggregate.GroupedAsc | frontend/app/api/admin/analytics-enhanced/route.ts:189-210 | a full grouping with distinct keys in ascending order covering every document |
| Aggregate.RankedTable | frontend/app/api/admin/analytics-enhanced/route.ts:88-93 | ranked rows whose statistics are computed from exactly their group's documents |
| Aggregate.GroupTable | frontend/app/api/admin/analytics-enhanced/route.ts:260-269 | unsorted, unlimited `$group` rows: every key once, with its count and statistics |
| Aggregate.DailyTable | frontend/app/api/admin/analytics-enhanced/route.ts:189-210 | day rows sorted ascending, with counts and statistics from their day's documents |
| Aggregate.RankedTableShape | frontend/app/api/admin/analytics/route.ts:52-65 | keys and counts of a ranked table do not depend on the extra statistics computed |
| Aggregate.DailyTableShape | frontend/app/api/admin/analytics/route.ts:74-95 | the same for day tables |
| Aggregate.SumSizes | frontend/app/api/admin/analytics-enhanced/route.ts:88-93 | the group counts add up to the documents grouped |
| Aggregate.Avg | frontend/app/api/admin/analytics-enhanced/route.ts:61-65 | `$avg` is absent exactly for no values |
| Aggregate.AvgBounds | frontend/app/api/admin/analytics-enhanced/route.ts:61-65 | an average lies between any bounds of its values |
| Aggregate.Round | frontend/app/api/admin/analytics-enhanced/route.ts:67-69 | `Math.round`: the nearest integer, halves upward |
| Aggregate.RoundMonotone | frontend/app/api/admin/analytics-enhanced/route.ts:67-69 | rounding is monotone |
| Aggregate.RoundInt | frontend/app/api/admin/analytics-enhanced/route.ts:67-69 | integers are fixed by rounding |
| Aggregate.Round2 | frontend/app/api/admin/analytics-enhanced/route.ts:47-49 | `toFixed(2)` as a number: within half a hundredth |
| Aggregate.Round2Percent | frontend/app/api/admin/analytics-enhanced/route.ts:47-49 | a rounded percentage stays in [0, 100] |
| Aggregate.ToFixed2 | frontend/app/api/admin/analytics-enhanced/route.ts:72-77 | digits, a point, two decimals |
| Aggregate.ParseFloatToFixed2 | frontend/app/api/admin/analytics-enhanced/route.ts:47-49 | `parseFloat(x.toFixed(2))` is x rounded to hundredths |
| AnalyticsEnhanced.Present | frontend/app/api/admin/analytics-enhanced/route.ts:61-65 | `$avg` skips missing fields: every value kept comes from a document, every document carrying the field has its value kept, nothing is kept when no document has the field |
| AnalyticsEnhanced.PresentCount | frontend/app/api/admin/analytics-enhanced/route.ts:61-65 | one value is kept per document carrying the field |
| AnalyticsEnhanced.MeanSeconds | frontend/app/api/admin/analytics-enhanced/route.ts:67-69 | 0 when nothing is averaged, otherwise the mean in milliseconds divided by 1000 and rounded half up |
| AnalyticsEnhanced.MeanSecondsBounds | frontend/app/api/admin/analytics-enhanced/route.ts:61-69 | the mean in seconds lies between the rounded bounds of the milliseconds |
| AnalyticsEnhanced.RateText | frontend/app/api/admin/analytics-enhanced/route.ts:375 | `((part / total) * 100).toFixed(2)` reads back as the rounded rate; "NaN" when the total is 0 |
| AnalyticsEnhanced.UtmStatsOf | frontend/app/api/admin/analytics-enhanced/route.ts:371-382 | conversions are the converted sessions of the group; the rate string reads back as the rounded percentage of them |
| AnalyticsEnhanced.ConvertedCount | frontend/app/api/admin/analytics-enhanced/route.ts:200-229 | the `conversions` accumulator of the daily-visitors and top-referrers groupings: the number of converted sessions of the group, at most its size |
| AnalyticsEnhanced.UniqueSessions | frontend/app/api/admin/analytics-enhanced/route.ts:260-269 | the size of the set of session ids of the group (`$addToSet`), at most the group size and zero only for an empty group |
| AnalyticsEnhanced.SubmissionStatsOf | frontend/app/api/admin/analytics-enhanced/route.ts:412-418 | successes are the successful submissions of the group; the rate string reads back as their rounded percentage; `avgTimeTaken` is the rounded mean of the present `timeTaken` values, in seconds |
| AnalyticsEnhanced.SessionPages | frontend/app/api/admin/analytics-enhanced/route.ts:72-75 | one page count per session, in order |
| AnalyticsEnhanced.AvgPages | frontend/app/api/admin/analytics-enhanced/route.ts:72-77 | the `|| '0'` fallback holds exactly for no sessions |
| AnalyticsEnhanced.AvgPagesReadsBack | frontend/app/api/admin/analytics-enhanced/route.ts:72-77 | the average-pages string parses to the rounded average |
| AnalyticsEnhanced.ActiveVisitors | frontend/app/api/admin/analytics-enhanced/route.ts:284-290 | the number of distinct sessions with a view in the last five minutes |
| AnalyticsEnhanced.SummaryOf | frontend/app/api/admin/analytics-enhanced/route.ts:25-85 | the five counts of the window. The conversion rate is the rounded percentage of conversions, the bounce rate that of bounced sessions. Returning visitors are the returning sessions, new visitors the rest. A window without sessions gives 0 rates and "0" pages |
| AnalyticsEnhanced.SummaryFigures | frontend/app/api/admin/analytics-enhanced/route.ts:61-77 | the mean session duration in seconds over the sessions that recorded one, the average pages per session, and the distinct sessions seen in the last five minutes |
| AnalyticsEnhanced.DailyViewsAddUp | frontend/app/api/admin/analytics-enhanced/route.ts:189-198 | the daily page-view counts add up to the summary's `totalPageViews` |
| AnalyticsEnhanced.PageViewsByPage | frontend/app/api/admin/analytics-enhanced/route.ts:88-93 | top 10 pages by views with the rounded mean time on page |
| AnalyticsEnhanced.EntryPages | frontend/app/api/admin/analytics-enhanced/route.ts:96-101 | top 10 entry pages |
| AnalyticsEnhanced.ExitPages | frontend/app/api/admin/analytics-enhanced/route.ts:103-108 | top 10 exit pages among sessions that have one |
| AnalyticsEnhanced.TopClickedElements | frontend/app/api/admin/analytics-enhanced/route.ts:111-122 | top 10 (element id, type) pairs with the first text seen |
| AnalyticsEnhanced.BrowserBreakdown | frontend/app/api/admin/analytics-enhanced/route.ts:131-137 | top 10 browsers |
| AnalyticsEnhanced.OsBreakdown | frontend/app/api/admin/analytics-enhanced/route.ts:138-144 | top 10 operating systems |
| AnalyticsEnhanced.CountryBreakdown | frontend/app/api/admin/analytics-enhanced/route.ts:147-152 | top 10 countries |
| AnalyticsEnhanced.CityBreakdown | frontend/app/api/admin/analytics-enhanced/route.ts:153-159 | top 10 (city, country) pairs |
| AnalyticsEnhanced.UtmSources | frontend/app/api/admin/analytics-enhanced/route.ts:162-173 | top 10 UTM sources among sessions that have one, with per-source conversions and rate |
| AnalyticsEnhanced.UtmCampaigns | frontend/app/api/admin/analytics-enhanced/route.ts:175-186 | the same per campaign |
| AnalyticsEnhanced.DailyStats | frontend/app/api/admin/analytics-enhanced/route.ts:189-198 | one row per day with that day's views, days ascending |
| AnalyticsEnhanced.DailyVisitors | frontend/app/api/admin/analytics-enhanced/route.ts:200-210 | one row per day with its sessions, conversions at most sessions, days ascending |
| AnalyticsEnhanced.TopReferrers | frontend/app/api/admin/analytics-enhanced/route.ts:213-229 | top 10 non-empty referrers, conversions within each |
| AnalyticsEnhanced.TravelledFlows | frontend/app/api/admin/analytics-enhanced/route.ts:232-243 | every flow of a session with a non-empty page list holds 1 to 5 pages |
| AnalyticsEnhanced.UserFlows | frontend/app/api/admin/analytics-enhanced/route.ts:232-243 | top 10 flows of the sessions with at least one visited page, each a 1-5 page prefix |
| AnalyticsEnhanced.ScrollDepth | frontend/app/api/admin/analytics-enhanced/route.ts:246-257 | top 10 pages by scroll documents with the rounded mean maximum depth |
| AnalyticsEnhanced.AvgMaxScrollPercent | frontend/app/api/admin/analytics-enhanced/route.ts:401-405 | that mean stays a percentage when depths are percentages |
| AnalyticsEnhanced.FormAbandonments | frontend/app/api/admin/analytics-enhanced/route.ts:260-269 | interactions per form, each form with the number of distinct sessions among its interactions (1 to its count) |
| AnalyticsEnhanced.FormSubmissionRate | frontend/app/api/admin/analytics-enhanced/route.ts:271-281 | submissions per form type, each with its successful submissions, their rounded percentage and the mean time taken in seconds |
| AnalyticsEnhanced.RecentConversions | frontend/app/api/admin/analytics-enhanced/route.ts:292-295 | min(5, n) of the n successful submissions from the last five minutes, each shown at most as often as it occurs (multiset inclusion), newest first; any left out is no newer than those shown |
| AnalyticsEnhanced.Conversions | frontend/app/api/admin/analytics-enhanced/route.ts:420-423 | the projection keeps order and one entry per submission |
| AnalyticsEnhanced.RecentActivity | frontend/app/api/admin/analytics-enhanced/route.ts:298-313 | min(20, n) of the n page views of the window, each shown at most as often as it occurs (multiset inclusion), newest first, projected; any left out is no newer |
| AnalyticsEnhanced.Projected | frontend/app/api/admin/analytics-enhanced/route.ts:305-312 | `$project` keeps order and one entry per view |
| AnalyticsEnhanced.Tally | frontend/app/api/admin/analytics-enhanced/route.ts:350-353 | the reduce into an object: one key per device label other than "__proto__" (which the prototype setter swallows), with that row's count |
| AnalyticsEnhanced.DeviceBreakdown | frontend/app/api/admin/analytics-enhanced/route.ts:125-128 | every named device gets exactly its session count; "unknown" appears iff some session has no device; no empty key and no "__proto__" key |
| AnalyticsEnhanced.Get | frontend/app/api/admin/analytics-enhanced/route.ts:9-12 | 401 without a session; otherwise 200 with the report of the `period` window |
| AnalyticsEnhanced.NoReturningVisitors | frontend/app/api/analytics/track/route.ts:52-58 | on any store the ingestion endpoint builds, no visitor is returning and all are new |
| AnalyticsBasic.ConversionRate | frontend/app/api/admin/analytics/route.ts:47-49 | the basic endpoint's rate is the same rounded percentage |
| AnalyticsBasic.SummaryOf | frontend/app/api/admin/analytics/route.ts:25-49 | the five counts of the window; the rate is the parsed rounded percentage of conversions, and the average pages per session the enhanced figure |
| AnalyticsBasic.SummariesAgree | frontend/app/api/admin/analytics/route.ts:25-49 | both endpoints report the same counts and conversion rate |
| AnalyticsBasic.PageViewsByPage | frontend/app/api/admin/analytics/route.ts:52-57 | top 10 pages |
| AnalyticsBasic.TopClickedElements | frontend/app/api/admin/analytics/route.ts:60-65 | top 10 elements |
| AnalyticsBasic.DailyStats | frontend/app/api/admin/analytics/route.ts:74-83 | views per day, ascending |
| AnalyticsBasic.DailyVisitors | frontend/app/api/admin/analytics/route.ts:86-95 | sessions per day, ascending |
| AnalyticsBasic.TopReferrers | frontend/app/api/admin/analytics/route.ts:98-108 | top 10 referrers |
| AnalyticsBasic.TablesAgree | frontend/app/api/admin/analytics/route.ts:52-108 | the basic tables list the same keys and counts as the enhanced ones |
| AnalyticsBasic.RecentActivity | frontend/app/api/admin/analytics/route.ts:117-130 | the enhanced recent activity with fewer fields: min(20, n) entries, in the same order |
| AnalyticsBasic.Get | frontend/app/api/admin/analytics/route.ts:9-12 | 401 without a session; otherwise 200 with the basic report |
| Referrer.QueryGet | frontend/lib/referrerUtils.ts:104-134 | `searchParams.get`: none iff the name is absent, else the first value |
| Referrer.LineEnd | frontend/lib/referrerUtils.ts:40-55 | the end of the current line, where `.` stops matching |
| Referrer.LastWithin | frontend/lib/referrerUtils.ts:40-55 | whether the second literal occurs within a range |
| Referrer.SpreadFrom | frontend/lib/referrerUtils.ts:40-55 | `/a.*b/` matches from a position iff some occurrence pair on one line exists |
| Referrer.SpreadNotHere | frontend/lib/referrerUtils.ts:40-55 | a match at a given start lies on that start's line |
| Referrer.Test | frontend/lib/referrerUtils.ts:40-55 | `RegExp.test` agrees with the pattern's meaning |
| Referrer.FirstMatch | frontend/lib/referrerUtils.ts:40-55 | the first table entry that matches, or none matches |
| Referrer.FirstMatchFacts | frontend/lib/referrerUtils.ts:51-55 | a `for...of` over a pattern table finds an entry exactly when some entry matches, and the one it finds is the first that matches |
| Referrer.Classify | frontend/lib/referrerUtils.ts:35-100 | internal iff same host. Otherwise search iff a search engine matches; social iff no search engine does and a network does; email next; else referral with the bare domain. Each category has its source name |
| Referrer.External | frontend/lib/referrerUtils.ts:39-100 | on a referrer from another site: search iff a search engine matches, with the first such engine's name; social iff none does and a network matches, with the first network's name; email next, with source "Email"; otherwise referral named by the bare domain |
| Referrer.Categorize | frontend/lib/referrerUtils.ts:19-101 | direct iff no referrer; campaign iff a truthy UTM source; an unparseable URL throws; otherwise the classification |
| Referrer.YahooMailIsSearch | frontend/lib/referrerUtils.ts:40-93 | a Yahoo Mail referrer is reported as Yahoo search, since search is tried before email |
| Referrer.XDotIsSocial | frontend/lib/referrerUtils.ts:58-78 | a referrer containing `x.` that names no search engine is social |
| Referrer.KeywordParam | frontend/lib/referrerUtils.ts:104-134 | tested in the order Google, Bing, Yahoo, DuckDuckGo: `p` iff Yahoo matches and Google and Bing do not, `q` iff Google or Bing matches or DuckDuckGo matches without Yahoo, none otherwise |
| Referrer.SearchKeywords | frontend/lib/referrerUtils.ts:104-134 | for a non-empty, parseable referrer, the value of the parameter KeywordParam picks; none otherwise |
| Referrer.Param | frontend/lib/referrerUtils.ts:137-175 | `get(name) \|\| undefined`: a present, non-empty value |
| Referrer.SocialCampaignOf | frontend/lib/referrerUtils.ts:137-175 | platform by the first match in the order Facebook or Instagram (Instagram if it matches), LinkedIn, Twitter/X, each an if-and-only-if; its click-id parameter (`fbclid`, `li_fat_id`, `twclid`) when non-empty |
| Referrer.FormatReferrer | frontend/lib/referrerUtils.ts:178-187 | "Direct", the bare domain, or the raw referrer when unparseable |
| Referrer.FormatMatchesDomain | frontend/lib/referrerUtils.ts:178-187 | the formatted referrer is the categorised domain |
| Referrer.DomainKeepsPlainHost | frontend/lib/referrerUtils.ts:32 | a host without `www.` is unchanged |
| Referrer.DomainDropsLeadingWww | frontend/lib/referrerUtils.ts:32 | a leading `www.` is removed |
| Referrer.Color | frontend/lib/referrerUtils.ts:205-217 | a `#rrggbb` colour |
| Referrer.ColorsDistinct | frontend/lib/referrerUtils.ts:205-217 | categories have distinct colours |
| Referrer.IconAsWritten | frontend/lib/referrerUtils.ts:190-202 | the icon strings as stored: 3-4 characters starting "ğŸ" |
| Referrer.IconAsWrittenIsMojibake | frontend/lib/referrerUtils.ts:190-202 | each stored icon is the intended emoji's UTF-8 bytes read as Windows-1254 |
| Referrer.DirectIconIsNotTheEmoji | frontend/lib/referrerUtils.ts:192 | the stored direct icon is four characters, not the emoji |
| Referrer.Icon | frontend/lib/referrerUtils.ts:190-202 | one pictograph character per category |
| Referrer.IconsDistinct | frontend/lib/referrerUtils.ts:190-202 | categories have distinct icons |
| Referrer.Utf8 | frontend/lib/referrerUtils.ts:190-202 | one to four bytes per character |
| Referrer.Cp1254 | frontend/lib/referrerUtils.ts:190-202 | Windows-1254 decoding: ASCII unchanged, the seven unassigned bytes undefined |
| Referrer.MojibakeKeepsAscii | frontend/lib/referrerUtils.ts:190-202 | ASCII text survives the mis-decoding |
| Geolocation.FirstEntry | frontend/lib/geolocation.ts:111-114 | `split(',')[0]`: a comma-free prefix up to the first comma |
| Geolocation.ClientIP | frontend/lib/geolocation.ts:102-124 | the first truthy of cf-connecting-ip, the first trimmed x-forwarded-for entry, x-real-ip and x-client-ip |
| Geolocation.ClientIPNone | frontend/lib/geolocation.ts:102-124 | no IP iff none of the four headers is truthy |
| Geolocation.ForwardedIsOneEntry | frontend/lib/geolocation.ts:111-114 | a forwarded IP has no comma and no leading space |
| Geolocation.ForwardedMayBeEmpty | frontend/lib/geolocation.ts:111-114 | a list starting with a comma yields an empty IP |
| Geolocation.Units | frontend/lib/geolocation.ts:129-138 | UTF-16 code units, at least one per character |
| Geolocation.Indicator | frontend/lib/geolocation.ts:129-138 | 127397 plus the upper-cased code unit |
| Geolocation.Flag | frontend/lib/geolocation.ts:129-138 | the globe unless the code has two units, else two indicator characters |
| Geolocation.FlagIgnoresCase | frontend/lib/geolocation.ts:129-138 | lower-case codes give the same flag |
| Geolocation.FlagRoundTrip | frontend/lib/geolocation.ts:129-138 | for two ASCII letters the flag is two regional indicators that read back as the upper-cased code |
| Geolocation.CountryName | frontend/lib/geolocation.ts:143-189 | the table's name, or the code itself |
| Geolocation.CountryNamesAreNames | frontend/lib/geolocation.ts:143-189 | every listed code maps to a different, longer name |
| Geolocation.CountryNameIsCaseSensitive | frontend/lib/geolocation.ts:143-189 | a lower-case code is not translated |
| Geolocation.IpapiUrl | frontend/lib/geolocation.ts:22-24 | the ipapi.co URL with or without the IP |
| Geolocation.IpApiUrl | frontend/lib/geolocation.ts:60-62 | the ip-api.com URL with or without the IP |
| Geolocation.FromIpapi | frontend/lib/geolocation.ts:19-52 | all fields empty on a failure or non-ok reply, else the mapped fields |
| Geolocation.FromIpApi | frontend/lib/geolocation.ts:58-97 | all fields empty on a failure; the local placeholder for a failed local lookup; else the mapped fields |
| Geolocation.LookupsInventOnlyThePlaceholder | frontend/lib/geolocation.ts:73-81 | "Local"/"Development" appears only for a failed lookup of a local address |
| ClientAnalytics.Xs | frontend/lib/analytics.ts:6-12 | a run of `x` slots |
| ClientAnalytics.VariantNibble | frontend/lib/analytics.ts:6-12 | `(r & 0x3) \| 0x8` lies in 8..11 |
| ClientAnalytics.Fill | frontend/lib/analytics.ts:6-12 | the template replace: fixed characters kept, `x` becomes a hex digit, `y` one of 8, 9, a, b |
| ClientAnalytics.FillReadsBack | frontend/lib/analytics.ts:6-12 | each slot takes the nibble of its own index |
| ClientAnalytics.Uuid | frontend/lib/analytics.ts:6-12 | a 36-character version-4, variant-1 UUID: dashes at 8, 13, 18 and 23, `4` at 14, one of 8, 9, a, b at 19, hex elsewhere |
| ClientAnalytics.TemplateShape | frontend/lib/analytics.ts:7 | the template has 36 characters and 31 random slots |
| ClientAnalytics.TemplateIsLiteral | frontend/lib/analytics.ts:7 | the template is the source's literal |
| ClientAnalytics.DeviceType | frontend/lib/analytics.ts:27-34 | mobile below 768, tablet below 1024, desktop otherwise or without a window |
| ClientAnalytics.DeviceTypeMonotone | frontend/lib/analytics.ts:27-34 | a wider window never gives a smaller device class |
| ClientAnalytics.PageViewEvent | frontend/lib/analytics.ts:37-59 | the `pageview` payload carries the session, page, agent, referrer and device |
| ClientAnalytics.ClickEvent | frontend/lib/analytics.ts:62-82 | the `click` payload |
| ClientAnalytics.FormSubmissionEvent | frontend/lib/analytics.ts:85-105 | the `form_submission` payload |
| ClientAnalytics.Tab.constructor | frontend/lib/analytics.ts:15-24 | a tab with the given storage and width |
| ClientAnalytics.Tab.GetSessionId | frontend/lib/analytics.ts:15-24 | empty outside a browser; the stored id when truthy; otherwise a fresh UUID that is stored |
| ClientAnalytics.Tab.TrackPageView | frontend/lib/analytics.ts:37-59 | in a browser, sends the page view under the tab's session id, with the device class of the unchanged width; the stored id is kept when truthy, otherwise becomes the fresh UUID; nothing sent outside a browser |
| ClientAnalytics.Tab.TrackClick | frontend/lib/analytics.ts:62-82 | in a browser, sends the click under the tab's session id; the stored id is kept when truthy, otherwise becomes the fresh UUID; the width is unchanged; nothing sent outside a browser |
| ClientAnalytics.Tab.TrackFormSubmission | frontend/lib/analytics.ts:85-105 | in a browser, sends the submission under the tab's session id; the stored id is kept when truthy, otherwise becomes the fresh UUID; the width is unchanged; nothing sent outside a browser |
| ClientAnalytics.SameSessionAcrossEvents | frontend/lib/analytics.ts:15-24 | two events sent from one tab carry the same non-empty session id, the stored one if present |
| ClickTracker.Closest | frontend/components/AutoClickTracker.tsx:16-18 | `closest`: the innermost clickable ancestor-or-self, or none exists |
| ClickTracker.ElementType | frontend/components/AutoClickTracker.tsx:23-28 | the truthy `role`, else the lower-cased tag |
| ClickTracker.TextPrefix | frontend/components/AutoClickTracker.tsx:36 | a prefix of the trimmed text of at most n characters |
| ClickTracker.FirstNonEmpty | frontend/components/AutoClickTracker.tsx:31-38 | the `\|\|` chain: the first non-empty candidate, else the fallback |
| ClickTracker.ElementId | frontend/components/AutoClickTracker.tsx:31-38 | never empty; the first non-empty of track name, id, track id, aria-label, 50-character text prefix and class, else tag plus random token |
| ClickTracker.FirstNonEmptyCons | frontend/components/AutoClickTracker.tsx:31-38 | the chain tries candidates left to right |
| ClickTracker.CandidatesInOrder | frontend/components/AutoClickTracker.tsx:31-38 | the candidate order of the source |
| ClickTracker.TrackNameWins | frontend/components/AutoClickTracker.tsx:32 | a non-empty `data-track-name` is the id |
| ClickTracker.ElementText | frontend/components/AutoClickTracker.tsx:41 | at most 100 characters of the trimmed text |
| ClickTracker.TextIdIsPrefixOfText | frontend/components/AutoClickTracker.tsx:36-41 | a text-derived id is a prefix of the reported text |
| ClickTracker.HandleClick | frontend/components/AutoClickTracker.tsx:12-47 | a call iff some element in the chain is clickable, for the innermost one and the current path |
| ClickTracker.InnermostWins | frontend/components/AutoClickTracker.tsx:16-18 | non-clickable inner elements are skipped and outer ones ignored |
| LeadIntake.Field | frontend/app/api/submit-lead/route.ts:9-27 | reading a field of `null` throws; of an object, gives the field or undefined |
| LeadIntake.FirstMissing | frontend/app/api/submit-lead/route.ts:9-27 | the first required field that is falsy, or all are truthy |
| LeadIntake.Rejection | frontend/app/api/submit-lead/route.ts:9-35 | the first missing field's message, else the services message; none iff every field is present and services is a non-empty array |
| LeadIntake.EmptyNameIsMissing | frontend/app/api/submit-lead/route.ts:20-27 | an empty name is reported before anything else |
| LeadIntake.ServicesCheckedLast | frontend/app/api/submit-lead/route.ts:30-35 | a missing field wins over missing services |
| LeadIntake.LeadOf | frontend/app/api/submit-lead/route.ts:43-55 | the stored lead has status "new", the submission time, each of the eight required fields and the non-empty services list exactly as submitted |
| LeadIntake.OtherFieldsDropped | frontend/app/api/submit-lead/route.ts:43-55 | fields outside the lead's list never reach the database |
| LeadIntake.Response | frontend/app/api/submit-lead/route.ts:9-75 | 201 with the new id iff the body is valid. 400 with the rejection for a readable but invalid body. 500 for an unparseable or null body |
| LeadIntake.LeadStore.constructor | frontend/app/api/submit-lead/route.ts:58-67 | an empty collection |
| LeadIntake.LeadStore.Post | frontend/app/api/submit-lead/route.ts:9-75 | replies as `Response`; stores exactly one lead on success and nothing otherwise; ids stay unique |
| AdminLeads.Format | frontend/app/api/admin/leads/route.ts:30-33 | `_id` becomes its string, the rest is kept |
| AdminLeads.FormatAll | frontend/app/api/admin/leads/route.ts:30-33 | one formatted lead per lead, in order |
| AdminLeads.Newest | frontend/app/api/admin/leads/route.ts:24-27 | sorted newest first, a permutation of the stored leads |
| AdminLeads.Get | frontend/app/api/admin/leads/route.ts:11-38 | 401 iff no session or no user. Otherwise every lead newest first, with a total equal to their number |
| AdminLeads.ListsEveryLead | frontend/app/api/admin/leads/route.ts:24-38 | a lead is listed iff it is stored |
| AdminLeads.NewestFirst | frontend/app/api/admin/leads/route.ts:24-27 | the first listed lead is at least as recent as any stored one |
| Dashboard.FilteredLeads | frontend/app/theauthadminkanda/dashboard/page.tsx:67-77 | exactly the leads matching search and status filter |
| Dashboard.ShownInOrder | frontend/app/theauthadminkanda/dashboard/page.tsx:67-77 | in their original order |
| Dashboard.EmptySearchMatches | frontend/app/theauthadminkanda/dashboard/page.tsx:67-77 | an empty search matches every lead |
| Dashboard.EverythingShown | frontend/app/theauthadminkanda/dashboard/page.tsx:379 | no search and "all" show every lead |
| Dashboard.SearchIgnoresCase | frontend/app/theauthadminkanda/dashboard/page.tsx:67-77 | search is case-insensitive |
| Dashboard.NewCount | frontend/app/theauthadminkanda/dashboard/page.tsx:133-135 | the "New" card equals the leads the "new" filter shows |
| Dashboard.NewIsFilter | frontend/app/theauthadminkanda/dashboard/page.tsx:133-135 | counting status "new" is that filter |
| Dashboard.NewLeadCounts | frontend/app/theauthadminkanda/dashboard/page.tsx:133-135 | one more new lead raises the count by one |
| StatsPanel.FormatDuration | frontend/components/EnhancedStatsPanel.tsx:92-97 | "<s>s" under a minute (negative values included, with their sign); ends in `s` and reads back as the seconds it shows |
| StatsPanel.ReadsUnderAMinute | frontend/components/EnhancedStatsPanel.tsx:93-94 | `Ns` reads back as N |
| StatsPanel.ReadsMinutes | frontend/components/EnhancedStatsPanel.tsx:94-96 | `Mm Ss` reads back as 60M + S |
| StatsPanel.MinutesAndSeconds | frontend/components/EnhancedStatsPanel.tsx:94-96 | from a minute on: whole minutes and the remaining seconds |
| StatsPanel.LiveBanner | frontend/components/EnhancedStatsPanel.tsx:186-195 | shown iff some visitor is active, with the count and the plural only above one |
| StatsPanel.BannerWhenRecentViews | frontend/components/EnhancedStatsPanel.tsx:187 | the banner shows iff a page was viewed in the last five minutes |
| StatsPanel.SingleVisitor | frontend/components/EnhancedStatsPanel.tsx:195 | one visitor reads "1 active visitor right now" |
| Testimonials.Split | frontend/components/ClientTestimonials.tsx:78 | `split`: at least one part, exactly one iff the separator is absent |
| Testimonials.JoinSplit | frontend/components/ClientTestimonials.tsx:78 | joining the parts restores the text |
| Testimonials.SplitAt | frontend/components/ClientTestimonials.tsx:78 | splitting at the first occurrence |
| Testimonials.JoinCons | frontend/components/ClientTestimonials.tsx:78 | joining one more part |
| Testimonials.HighlightText | frontend/components/ClientTestimonials.tsx:75-85 | plain without a highlight; else the text before the first occurrence, the mark, and the second part if any |
| Testimonials.OnceReadsTheSame | frontend/components/ClientTestimonials.tsx:75-85 | with exactly one occurrence the visible text is the original |
| Testimonials.RepeatedLosesTail | frontend/components/ClientTestimonials.tsx:75-85 | with more occurrences everything after the second is lost |
| Testimonials.AbsentIsAppended | frontend/components/ClientTestimonials.tsx:75-85 | an absent highlight is still shown, after the text |
| Theme.Name | frontend/components/ThemeProvider.tsx:17-26 | "light" or "dark" |
| Theme.PreferredTheme | frontend/components/ThemeProvider.tsx:29-40 | a stored theme wins, else the system preference, and light if storage throws |
| Theme.StoredThemeReadsBack | frontend/components/ThemeProvider.tsx:29-40 | a stored theme is read back as itself |
| Theme.Toggled | frontend/components/ThemeProvider.tsx:53-55 | toggling changes the theme |
| Theme.ToggleTwice | frontend/components/ThemeProvider.tsx:53-55 | toggling twice restores it |
| Theme.UseTheme | frontend/components/ThemeProvider.tsx:66-71 | throws exactly outside a provider |
| Theme.Page.constructor | frontend/components/ThemeProvider.tsx:15 | a page before mount: no theme, no dark class |
| Theme.Page.ApplyTheme | frontend/components/ThemeProvider.tsx:17-26 | sets the dark class and colour scheme, and stores the name when storage works |
| Theme.Page.Mount | frontend/components/ThemeProvider.tsx:42-57 | adopts and applies the preferred theme, then renders children |
| Theme.Page.ToggleTheme | frontend/components/ThemeProvider.tsx:47-55 | flips and applies the theme |
| Theme.ToggleSurvivesReload | frontend/components/ThemeProvider.tsx:29-55 | with working storage, a reload after a toggle mounts the toggled theme |

## Left out

**Environment and infrastructure**
- MongoDB itself: connection, indexes and concurrency. Requests are handled one at a time, in order.
- Network failures: every `catch` that returns 500 is left out, except the lead endpoint's 500 for a null or unparseable body, which is modelled.
- Time zones: `setDate` on local time and daylight-saving shifts are not modelled. A day is 86 400 000 ms.
- The `$dateToString` day key is a parameter, not a date formatter.
- `Math.random` and `Date.now` are inputs.
- React rendering, effects, event-listener registration and `fetch`: the trackers return the payload they would send. Outside a browser they send nothing.

**Case mapping and parsing**
- Case mapping is ASCII only (`toLowerCase`/`toUpperCase` on letters A-Z). Non-ASCII case pairs such as `İ` or the Kelvin sign are not modelled.
- `new URL` parsing is an input: `None` where it throws.
- The query string is a list of decoded pairs. Percent-decoding is not modelled.
- The JSON body of a lead is a parsed value: `None` where `request.json()` throws.
- Events.Event: the track payload's fields are taken at the types the client sends. `success` is a boolean, the labels such as `device` and `page` are strings, and times, positions and depths are integers. `sessionId`, `page`, `success` and the scroll depths are always present. The body is not checked (analytics/track/route.ts:8-9), so a missing field or another JSON type is accepted there and stored as sent; those payloads are not modelled. With a truthy non-boolean `success` such as 1, the three tests of it would differ. The session is converted (`if (success)`, track/route.ts:179). The per-form table counts it (`$cond: ['$success', 1, 0]`). The summary and the recent conversions skip it (`success: true`). For a boolean the three agree, and the model has one `success`.

**Reporting**
- `$group` output order before `$sort` is unspecified in MongoDB. The model fixes one order. Ties in `$sort` are kept in that order.
- Reporting.WindowStart: an unparseable `period` yields an Invalid Date in the source. The model takes it as the epoch, so every document is counted.
- The lead PATCH endpoint (`admin/leads/[id]`) is not part of this model.
- `calculateDistance` and the rest of `geolocation.ts` after `getCountryName` are not modelled. They are not called by the core.

**Dashboard and lookups**
- Dashboard.MatchesSearch assumes name, email and business name are strings. The page would throw on a missing field.
- Geolocation.CountryName: keys inherited from `Object.prototype` (such as "constructor") are not modelled as table hits.

**Theme and click tracking**
- Theme.Page: only the dark class and `color-scheme` of the document element are modelled, not the rest of the class list.
- ClickTracker.Element: the `className` of SVG elements and DOM traversal beyond an ancestor chain are not modelled.

**Numbers and text units**
- Aggregate.Round2, Aggregate.ToFixed2, Reporting.Rate, AnalyticsEnhanced.RateText, AnalyticsEnhanced.AvgPages: rates and averages are computed on exact reals, not IEEE doubles. `toFixed(2)` of a double can round the other way at a half: `(1.005).toFixed(2)` is "1.00", because the stored double lies just below 1.005, while Round2 gives 1.01.
- ClickTracker.TextPrefix, ClickTracker.ElementText: lengths (and Text.Truncate beneath them) count Unicode characters, while `substring` in AutoClickTracker.tsx:36 and :41 counts UTF-16 code units. They differ for text outside the Basic Multilingual Plane, such as emoji.
- Track.LastOpen, Track.MarkExit: the view chosen is the last one appended among the open matches. The source sorts by `timestamp` descending; the two agree as long as the server clock never goes back between requests.

**Where the contracts are stated**
- AnalyticsEnhanced.SummaryOf: the counts, rates and visitor counts are in its contract. Its mean session duration, average pages and active visitors are stated by the lemma AnalyticsEnhanced.SummaryFigures.
- AnalyticsEnhanced.Present: its contract says which values are kept; how many is stated by AnalyticsEnhanced.PresentCount. Their order is not stated, which `$avg` does not depend on.

## Findings

| source | as written | input that shows it | evidently intended | confidence | as-written member | corrected member |
|---|---|---|---|---|---|---|
| frontend/lib/referrerUtils.ts:190-202 | the icon literals are the UTF-8 bytes of each emoji decoded as Windows-1254 (e.g. "ğŸ”—" for direct traffic) | `getReferrerIcon('direct')` returns a 4-character string starting "ğŸ", not 🔗 | one pictograph emoji per category | not executed | Referrer.IconAsWritten | Referrer.Icon |
