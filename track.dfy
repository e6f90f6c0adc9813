/**
 * The ingestion endpoint (frontend/app/api/analytics/track/route.ts): one POST handler that
 * dispatches on the event type and applies inserts and upserts to the analytics collections.
 *
 * `StoreState` is the abstract content of the six collections and `Handle` says what one
 * request does to it; `EventStore` is the store as the handler mutates it, one method per
 * event type, each proved to move the store exactly as `Handle` says. The request time `now`
 * (milliseconds) is a parameter.
 */
module Track {
  import opened Wrappers
  import opened Events
  import Collections

  /** A session that exited within this many milliseconds of its first view, after one view, bounced. */
  const BOUNCE_WINDOW_MS := 30000

  // ---------------------------------------------------------------------------
  // The update operators of the handler's writes

  /** `$addToSet`: append x unless it is already present. */
  function AddToSet(xs: seq<string>, x: string): (r: seq<string>)
    ensures forall y :: y in r <==> y in xs || y == x
    ensures Collections.NoDup(xs) ==> Collections.NoDup(r)
    ensures xs <= r
  {
    if x in xs then xs else xs + [x]
  }

  /** A UTM field under `if (utm) $set.utm = utm`: a falsy incoming value keeps the stored one. */
  function SetIfTruthy(stored: Option<string>, incoming: Option<string>): Option<string> {
    if Truthy(incoming) then incoming else stored
  }

  /** The document an upsert inserts before `$set`, `$inc` and `$addToSet` apply: the `$setOnInsert` defaults. */
  function Inserted(d: PageViewData, now: int): UserSession {
    UserSession(
      sessionId := d.sessionId,
      firstSeen := now, referrer := d.referrer, converted := false, bounced := false, entryPage := d.page,
      lastSeen := now,
      device := None, country := None, city := None, browser := None, os := None,
      utmSource := None, utmMedium := None, utmCampaign := None,
      pageViews := 0, pagesVisited := [],
      exitPage := None, sessionDuration := None,
      isReturning := false)
  }

  /** The `userSessions` upsert of a pageview, applied to the stored session (if any). */
  function UpsertSession(prior: Option<UserSession>, d: PageViewData, now: int): (s: UserSession)
    ensures s.sessionId == if prior.Some? then prior.value.sessionId else d.sessionId
    // fields written only when the session is created
    ensures prior.None? ==>
      && s.firstSeen == now && s.referrer == d.referrer && !s.converted && !s.bounced
      && s.entryPage == d.page && s.pageViews == 1 && s.pagesVisited == [d.page]
      && s.exitPage.None? && s.sessionDuration.None? && !s.isReturning
    ensures prior.Some? ==>
      var p := prior.value;
      && s.firstSeen == p.firstSeen && s.referrer == p.referrer && s.converted == p.converted
      && s.bounced == p.bounced && s.entryPage == p.entryPage && s.exitPage == p.exitPage
      && s.sessionDuration == p.sessionDuration && s.isReturning == p.isReturning
      && s.pageViews == p.pageViews + 1
    // fields overwritten on every pageview
    ensures s.lastSeen == now && s.device == d.device && s.country == d.country
    ensures s.city == d.city && s.browser == d.browser && s.os == d.os
    // UTM fields: replaced only by a truthy incoming value
    ensures s.utmSource == if Truthy(d.utmSource) then d.utmSource else if prior.Some? then prior.value.utmSource else None
    ensures s.utmMedium == if Truthy(d.utmMedium) then d.utmMedium else if prior.Some? then prior.value.utmMedium else None
    ensures s.utmCampaign == if Truthy(d.utmCampaign) then d.utmCampaign else if prior.Some? then prior.value.utmCampaign else None
    // pages visited: a set that gains the page
    ensures forall p :: p in s.pagesVisited <==> p == d.page || (prior.Some? && p in prior.value.pagesVisited)
    ensures prior.Some? && Collections.NoDup(prior.value.pagesVisited) ==> Collections.NoDup(s.pagesVisited)
  {
    var base := if prior.Some? then prior.value else Inserted(d, now);
    base.(
      lastSeen := now, device := d.device, country := d.country, city := d.city,
      browser := d.browser, os := d.os,
      utmSource := SetIfTruthy(base.utmSource, d.utmSource),
      utmMedium := SetIfTruthy(base.utmMedium, d.utmMedium),
      utmCampaign := SetIfTruthy(base.utmCampaign, d.utmCampaign),
      pageViews := base.pageViews + 1,
      pagesVisited := AddToSet(base.pagesVisited, d.page))
  }

  /** The session update of a page_exit: duration since the first view and the bounce verdict. */
  function CloseSession(s: UserSession, page: string, now: int): (r: UserSession)
    ensures r.exitPage == Some(page)
    ensures r.sessionDuration == Some(now - s.firstSeen)
    ensures r.bounced <==> s.pageViews <= 1 && now - s.firstSeen < BOUNCE_WINDOW_MS
    ensures r == s.(exitPage := r.exitPage, sessionDuration := r.sessionDuration, bounced := r.bounced)
  {
    var duration := now - s.firstSeen;
    s.(exitPage := Some(page), sessionDuration := Some(duration),
       bounced := s.pageViews <= 1 && duration < BOUNCE_WINDOW_MS)
  }

  /** The `scrollEvents` upsert: latest depth and time, and `$max` on the maximum depth. */
  function UpsertScroll(prior: Option<ScrollDoc>, d: ScrollData, now: int): (r: ScrollDoc)
    ensures r.scrollDepth == d.scrollDepth && r.timestamp == now
    ensures prior.None? ==> r.sessionId == d.sessionId && r.page == d.page
    ensures prior.Some? ==> r.sessionId == prior.value.sessionId && r.page == prior.value.page
    ensures r.maxScrollDepth >= d.maxScrollDepth
    ensures prior.Some? ==> r.maxScrollDepth >= prior.value.maxScrollDepth
    ensures r.maxScrollDepth == d.maxScrollDepth || (prior.Some? && r.maxScrollDepth == prior.value.maxScrollDepth)
  {
    match prior
    case None => ScrollDoc(d.sessionId, d.page, d.scrollDepth, d.maxScrollDepth, now)
    case Some(p) =>
      p.(scrollDepth := d.scrollDepth, timestamp := now,
         maxScrollDepth := if p.maxScrollDepth >= d.maxScrollDepth then p.maxScrollDepth else d.maxScrollDepth)
  }

  /** The page_exit filter `{ sessionId, page, exitPage: { $ne: true } }`. */
  predicate OpenMatch(v: PageViewDoc, sessionId: string, page: string) {
    v.SessionId() == sessionId && v.Page() == page && !v.exitPage
  }

  /** The newest (last inserted) document among the first n that the page_exit filter matches. */
  function LastOpen(pvs: seq<PageViewDoc>, sessionId: string, page: string, n: nat): (r: Option<nat>)
    requires n <= |pvs|
    ensures r.Some? ==> r.value < n && OpenMatch(pvs[r.value], sessionId, page)
    ensures r.Some? ==> forall j :: r.value < j < n ==> !OpenMatch(pvs[j], sessionId, page)
    ensures r.None? ==> forall j :: 0 <= j < n ==> !OpenMatch(pvs[j], sessionId, page)
  {
    if n == 0 then None
    else if OpenMatch(pvs[n - 1], sessionId, page) then Some(n - 1)
    else LastOpen(pvs, sessionId, page, n - 1)
  }

  /** The page_exit `updateOne` on `pageViews`: mark one open view of (sessionId, page) as exited. */
  function MarkExit(pvs: seq<PageViewDoc>, d: PageExitData): (r: seq<PageViewDoc>)
    ensures |r| == |pvs|
    ensures forall j :: 0 <= j < |pvs| && r[j] != pvs[j] ==>
      OpenMatch(pvs[j], d.sessionId, d.page) && r[j] == pvs[j].(exitPage := true, timeOnPage := d.timeOnPage)
    ensures forall i, j :: 0 <= i < |pvs| && 0 <= j < |pvs| && r[i] != pvs[i] && r[j] != pvs[j] ==> i == j
    ensures forall i, j :: 0 <= i < j < |pvs| && r[i] != pvs[i] ==> !OpenMatch(pvs[j], d.sessionId, d.page)
    ensures (exists j :: 0 <= j < |pvs| && OpenMatch(pvs[j], d.sessionId, d.page)) ==>
      exists j :: 0 <= j < |pvs| && r[j] != pvs[j]
  {
    match LastOpen(pvs, d.sessionId, d.page, |pvs|)
    case None => pvs
    case Some(i) => pvs[i := pvs[i].(exitPage := true, timeOnPage := d.timeOnPage)]
  }

  // ---------------------------------------------------------------------------
  // The store and the handler

  datatype StoreState = StoreState(
    pageViews: seq<PageViewDoc>,
    clickEvents: seq<ClickDoc>,
    scrollEvents: map<(string, string), ScrollDoc>,
    formInteractions: seq<FormInteractionDoc>,
    formSubmissions: seq<FormSubmissionDoc>,
    userSessions: map<string, UserSession>)

  const Empty := StoreState([], [], map[], [], [], map[])

  /** `{ success: true }` with status 200, or `{ error: 'Invalid event type' }` with status 400. */
  datatype TrackResponse = Tracked | InvalidEventType

  function SessionOf(st: StoreState, id: string): Option<UserSession> {
    if id in st.userSessions then Some(st.userSessions[id]) else None
  }

  function AfterPageView(st: StoreState, d: PageViewData, now: int): StoreState {
    st.(pageViews := st.pageViews + [PageViewDoc(d, now, false, None)],
        userSessions := st.userSessions[d.sessionId := UpsertSession(SessionOf(st, d.sessionId), d, now)])
  }

  function AfterPageExit(st: StoreState, d: PageExitData, now: int): StoreState {
    var pvs := MarkExit(st.pageViews, d);
    if d.sessionId in st.userSessions then
      st.(pageViews := pvs,
          userSessions := st.userSessions[d.sessionId := CloseSession(st.userSessions[d.sessionId], d.page, now)])
    else st.(pageViews := pvs)
  }

  function AfterScroll(st: StoreState, d: ScrollData, now: int): StoreState {
    var key := (d.sessionId, d.page);
    var prior := if key in st.scrollEvents then Some(st.scrollEvents[key]) else None;
    st.(scrollEvents := st.scrollEvents[key := UpsertScroll(prior, d, now)])
  }

  function AfterClick(st: StoreState, d: ClickData, now: int): StoreState {
    st.(clickEvents := st.clickEvents + [ClickDoc(d, now)])
  }

  function AfterFormInteraction(st: StoreState, d: FormInteractionData, now: int): StoreState {
    st.(formInteractions := st.formInteractions + [FormInteractionDoc(d, now)])
  }

  function AfterFormSubmission(st: StoreState, d: FormSubmissionData, now: int): StoreState {
    var st1 := st.(formSubmissions := st.formSubmissions + [FormSubmissionDoc(d, now)]);
    if d.success && d.sessionId in st.userSessions then
      st1.(userSessions := st.userSessions[d.sessionId := st.userSessions[d.sessionId].(converted := true)])
    else st1
  }

  /** One POST to the ingestion endpoint: the new store and the response. */
  function Handle(st: StoreState, e: Event, now: int): (r: (StoreState, TrackResponse))
    ensures r.1 == InvalidEventType <==> e.Unrecognised?
    ensures r.1 == InvalidEventType <==> WireName(e) !in EVENT_TYPES
    ensures e.Unrecognised? ==> r.0 == st
  {
    match e
    case PageView(d) => (AfterPageView(st, d, now), Tracked)
    case PageExit(d) => (AfterPageExit(st, d, now), Tracked)
    case Scroll(d) => (AfterScroll(st, d, now), Tracked)
    case Click(d) => (AfterClick(st, d, now), Tracked)
    case FormInteraction(d) => (AfterFormInteraction(st, d, now), Tracked)
    case FormSubmission(d) => (AfterFormSubmission(st, d, now), Tracked)
    case Unrecognised(_) => (st, InvalidEventType)
  }

  /** A sequence of requests, the i-th handled at time ts[i]. */
  function Run(st: StoreState, es: seq<Event>, ts: seq<int>): StoreState
    requires |es| == |ts|
  {
    if es == [] then st
    else Handle(Run(st, es[..|es| - 1], ts[..|ts| - 1]), es[|es| - 1], ts[|ts| - 1]).0
  }

  // ---------------------------------------------------------------------------
  // The store invariant

  /** Number of stored page views of session id. */
  function ViewsOf(pvs: seq<PageViewDoc>, id: string): nat {
    if pvs == [] then 0
    else ViewsOf(pvs[..|pvs| - 1], id) + (if pvs[|pvs| - 1].SessionId() == id then 1 else 0)
  }

  ghost predicate SessionWellFormed(st: StoreState, id: string)
    requires id in st.userSessions
  {
    var s := st.userSessions[id];
    && s.sessionId == id
    && s.pageViews == ViewsOf(st.pageViews, id)
    && s.pageViews >= 1
    && Collections.NoDup(s.pagesVisited)
    && s.entryPage in s.pagesVisited
    && !s.isReturning
  }

  /**
   * What holds of every store the handler builds from the empty one: each session is stored
   * under its own id, counts exactly the page views stored for it, lists its pages without
   * repetition starting from its entry page, and is never marked returning; every page view
   * belongs to a stored session; every scroll document sits under its own (sessionId, page).
   */
  ghost predicate WellFormed(st: StoreState) {
    && (forall id :: id in st.userSessions ==> SessionWellFormed(st, id))
    && (forall i :: 0 <= i < |st.pageViews| ==> st.pageViews[i].SessionId() in st.userSessions)
    && (forall k :: k in st.scrollEvents ==> st.scrollEvents[k].sessionId == k.0 && st.scrollEvents[k].page == k.1)
  }

  lemma {:induction false} ViewsOfAbsent(pvs: seq<PageViewDoc>, id: string)
    requires forall i :: 0 <= i < |pvs| ==> pvs[i].SessionId() != id
    ensures ViewsOf(pvs, id) == 0
    decreases |pvs|
  {
    if pvs != [] { ViewsOfAbsent(pvs[..|pvs| - 1], id); }
  }

  lemma {:induction false} ViewsOfUpdate(pvs: seq<PageViewDoc>, i: nat, v: PageViewDoc, id: string)
    requires i < |pvs| && v.SessionId() == pvs[i].SessionId()
    ensures ViewsOf(pvs[i := v], id) == ViewsOf(pvs, id)
    decreases |pvs|
  {
    var n := |pvs| - 1;
    if i < n {
      assert pvs[i := v][..n] == pvs[..n][i := v];
      ViewsOfUpdate(pvs[..n], i, v, id);
    } else {
      assert pvs[i := v][..n] == pvs[..n];
    }
  }

  lemma ViewsOfAppend(pvs: seq<PageViewDoc>, v: PageViewDoc, id: string)
    ensures ViewsOf(pvs + [v], id) == ViewsOf(pvs, id) + (if v.SessionId() == id then 1 else 0)
  {
    assert (pvs + [v])[..|pvs|] == pvs;
  }

  lemma ViewsOfMarkExit(pvs: seq<PageViewDoc>, d: PageExitData, id: string)
    ensures ViewsOf(MarkExit(pvs, d), id) == ViewsOf(pvs, id)
  {
    match LastOpen(pvs, d.sessionId, d.page, |pvs|)
    case None =>
    case Some(i) => ViewsOfUpdate(pvs, i, pvs[i].(exitPage := true, timeOnPage := d.timeOnPage), id);
  }

  lemma EmptyWellFormed()
    ensures WellFormed(Empty)
  {
  }

  lemma PageViewPreservesWellFormed(st: StoreState, d: PageViewData, now: int)
    requires WellFormed(st)
    ensures WellFormed(AfterPageView(st, d, now))
  {
    var st' := AfterPageView(st, d, now);
    forall id | id in st'.userSessions ensures SessionWellFormed(st', id) {
      PageViewKeepsSession(st, d, now, id);
    }
    forall i | 0 <= i < |st'.pageViews| ensures st'.pageViews[i].SessionId() in st'.userSessions {
      if i < |st.pageViews| { assert st'.pageViews[i] == st.pageViews[i]; }
    }
  }

  lemma PageViewKeepsSession(st: StoreState, d: PageViewData, now: int, id: string)
    requires WellFormed(st) && id in AfterPageView(st, d, now).userSessions
    ensures SessionWellFormed(AfterPageView(st, d, now), id)
  {
    var v := PageViewDoc(d, now, false, None);
    ViewsOfAppend(st.pageViews, v, id);
    if id == d.sessionId && id !in st.userSessions {
      ViewsOfAbsent(st.pageViews, id);
    }
    if id != d.sessionId {
      assert SessionWellFormed(st, id);
    }
  }

  lemma PageExitPreservesWellFormed(st: StoreState, d: PageExitData, now: int)
    requires WellFormed(st)
    ensures WellFormed(AfterPageExit(st, d, now))
  {
    var st' := AfterPageExit(st, d, now);
    forall id | id in st'.userSessions ensures SessionWellFormed(st', id) {
      PageExitKeepsSession(st, d, now, id);
    }
    MarkExitKeepsSessions(st.pageViews, d);
    forall i | 0 <= i < |st'.pageViews| ensures st'.pageViews[i].SessionId() in st'.userSessions {
      assert st'.pageViews[i].SessionId() == st.pageViews[i].SessionId();
    }
  }

  lemma PageExitKeepsSession(st: StoreState, d: PageExitData, now: int, id: string)
    requires WellFormed(st) && id in AfterPageExit(st, d, now).userSessions
    ensures SessionWellFormed(AfterPageExit(st, d, now), id)
  {
    var st' := AfterPageExit(st, d, now);
    var s := st.userSessions[id];
    assert st'.pageViews == MarkExit(st.pageViews, d);
    assert st'.userSessions[id] == if id == d.sessionId then CloseSession(s, d.page, now) else s;
    ViewsOfMarkExit(st.pageViews, d, id);
    assert SessionWellFormed(st, id);
  }

  /** Marking an exit changes no page view's session. */
  lemma MarkExitKeepsSessions(pvs: seq<PageViewDoc>, d: PageExitData)
    ensures |MarkExit(pvs, d)| == |pvs|
    ensures forall i :: 0 <= i < |pvs| ==> MarkExit(pvs, d)[i].SessionId() == pvs[i].SessionId()
  {
    match LastOpen(pvs, d.sessionId, d.page, |pvs|)
    case None =>
    case Some(j) =>
      var r := pvs[j := pvs[j].(exitPage := true, timeOnPage := d.timeOnPage)];
      assert MarkExit(pvs, d) == r;
      forall i | 0 <= i < |pvs| ensures r[i].SessionId() == pvs[i].SessionId() {
      }
  }

  lemma FormSubmissionPreservesWellFormed(st: StoreState, d: FormSubmissionData, now: int)
    requires WellFormed(st)
    ensures WellFormed(AfterFormSubmission(st, d, now))
  {
    var st' := AfterFormSubmission(st, d, now);
    forall id | id in st'.userSessions ensures SessionWellFormed(st', id) {
      assert SessionWellFormed(st, id);
    }
  }

  /** Every request keeps the store invariant. */
  lemma HandlePreservesWellFormed(st: StoreState, e: Event, now: int)
    requires WellFormed(st)
    ensures WellFormed(Handle(st, e, now).0)
  {
    match e
    case PageView(d) => PageViewPreservesWellFormed(st, d, now);
    case PageExit(d) => PageExitPreservesWellFormed(st, d, now);
    case Scroll(d) =>
    case Click(d) =>
    case FormInteraction(d) =>
    case FormSubmission(d) => FormSubmissionPreservesWellFormed(st, d, now);
    case Unrecognised(_) =>
  }

  /** Every store reachable from the empty one by a sequence of requests satisfies the invariant. */
  lemma {:induction false} RunWellFormed(st: StoreState, es: seq<Event>, ts: seq<int>)
    requires |es| == |ts| && WellFormed(st)
    ensures WellFormed(Run(st, es, ts))
    decreases |es|
  {
    if es != [] {
      RunWellFormed(st, es[..|es| - 1], ts[..|ts| - 1]);
      HandlePreservesWellFormed(Run(st, es[..|es| - 1], ts[..|ts| - 1]), es[|es| - 1], ts[|ts| - 1]);
    }
  }

  // ---------------------------------------------------------------------------
  // What requests never undo

  /** A session only grows: identity, first view, referrer and entry page are fixed, a conversion sticks. */
  predicate SessionEvolves(s: UserSession, t: UserSession) {
    && t.sessionId == s.sessionId && t.firstSeen == s.firstSeen
    && t.referrer == s.referrer && t.entryPage == s.entryPage
    && (s.converted ==> t.converted)
    && s.pageViews <= t.pageViews
    && (forall p :: p in s.pagesVisited ==> p in t.pagesVisited)
  }

  /** A stored page view keeps its fields and time; once exited it never changes again. */
  predicate DocEvolves(v: PageViewDoc, w: PageViewDoc) {
    w.fields == v.fields && w.timestamp == v.timestamp && (v.exitPage ==> w == v)
  }

  ghost predicate Evolves(a: StoreState, b: StoreState) {
    && (forall id :: id in a.userSessions ==> id in b.userSessions && SessionEvolves(a.userSessions[id], b.userSessions[id]))
    && (forall k :: k in a.scrollEvents ==>
          k in b.scrollEvents && a.scrollEvents[k].maxScrollDepth <= b.scrollEvents[k].maxScrollDepth)
    && a.clickEvents <= b.clickEvents
    && a.formInteractions <= b.formInteractions
    && a.formSubmissions <= b.formSubmissions
    && |a.pageViews| <= |b.pageViews|
    && (forall i :: 0 <= i < |a.pageViews| ==> DocEvolves(a.pageViews[i], b.pageViews[i]))
  }

  lemma EvolvesTransitive(a: StoreState, b: StoreState, c: StoreState)
    requires Evolves(a, b) && Evolves(b, c)
    ensures Evolves(a, c)
  {
    forall id | id in a.userSessions
      ensures id in c.userSessions && SessionEvolves(a.userSessions[id], c.userSessions[id])
    {
      assert id in b.userSessions;
    }
    forall k | k in a.scrollEvents
      ensures k in c.scrollEvents && a.scrollEvents[k].maxScrollDepth <= c.scrollEvents[k].maxScrollDepth
    {
      assert k in b.scrollEvents;
    }
    forall i | 0 <= i < |a.pageViews| ensures DocEvolves(a.pageViews[i], c.pageViews[i]) {
      assert DocEvolves(a.pageViews[i], b.pageViews[i]);
      assert DocEvolves(b.pageViews[i], c.pageViews[i]);
    }
  }

  /**
   * No request removes a session or a scroll record, lowers a maximum scroll depth, undoes a
   * conversion, rewrites a session's first view, or deletes or rewrites a stored event.
   */
  lemma HandleEvolves(st: StoreState, e: Event, now: int)
    ensures Evolves(st, Handle(st, e, now).0)
  {
    match e
    case PageView(d) => PageViewEvolves(st, d, now);
    case PageExit(d) => PageExitEvolves(st, d, now);
    case Scroll(d) => ScrollEvolves(st, d, now);
    case Click(d) =>
    case FormInteraction(d) =>
    case FormSubmission(d) => FormSubmissionEvolves(st, d, now);
    case Unrecognised(_) =>
  }

  lemma PageViewEvolves(st: StoreState, d: PageViewData, now: int)
    ensures Evolves(st, AfterPageView(st, d, now))
  {
    var st' := AfterPageView(st, d, now);
    forall i | 0 <= i < |st.pageViews| ensures DocEvolves(st.pageViews[i], st'.pageViews[i]) {
      assert st'.pageViews[i] == st.pageViews[i];
    }
  }

  lemma PageExitEvolves(st: StoreState, d: PageExitData, now: int)
    ensures Evolves(st, AfterPageExit(st, d, now))
  {
  }

  lemma ScrollEvolves(st: StoreState, d: ScrollData, now: int)
    ensures Evolves(st, AfterScroll(st, d, now))
  {
  }

  lemma FormSubmissionEvolves(st: StoreState, d: FormSubmissionData, now: int)
    ensures Evolves(st, AfterFormSubmission(st, d, now))
  {
  }

  lemma {:induction false} RunEvolves(st: StoreState, es: seq<Event>, ts: seq<int>)
    requires |es| == |ts|
    ensures Evolves(st, Run(st, es, ts))
    decreases |es|
  {
    if es == [] {
      assert Run(st, es, ts) == st;
    } else {
      var mid := Run(st, es[..|es| - 1], ts[..|ts| - 1]);
      RunEvolves(st, es[..|es| - 1], ts[..|ts| - 1]);
      HandleEvolves(mid, es[|es| - 1], ts[|ts| - 1]);
      EvolvesTransitive(st, mid, Run(st, es, ts));
    }
  }

  // ---------------------------------------------------------------------------
  // Scenarios

  function PageViewEvents(ds: seq<PageViewData>): (es: seq<Event>)
    ensures |es| == |ds|
  {
    seq(|ds|, i requires 0 <= i < |ds| => PageView(ds[i]))
  }

  function ScrollEvents(ds: seq<ScrollData>): (es: seq<Event>)
    ensures |es| == |ds|
  {
    seq(|ds|, i requires 0 <= i < |ds| => Scroll(ds[i]))
  }

  /**
   * n page views of a session the store has never seen create one session whose view count is n,
   * whose first view, referrer and entry page come from the first request, and whose visited
   * pages are exactly the pages viewed, each once.
   */
  lemma {:induction false} FreshSessionReplay(st: StoreState, id: string, ds: seq<PageViewData>, ts: seq<int>)
    requires id !in st.userSessions
    requires |ds| == |ts| && |ds| > 0
    requires forall i :: 0 <= i < |ds| ==> ds[i].sessionId == id
    ensures var ss := Run(st, PageViewEvents(ds), ts).userSessions;
      && id in ss
      && ss[id].pageViews == |ds|
      && ss[id].firstSeen == ts[0]
      && ss[id].entryPage == ds[0].page
      && ss[id].referrer == ds[0].referrer
      && !ss[id].converted
      && Collections.NoDup(ss[id].pagesVisited)
      && (forall p :: p in ss[id].pagesVisited <==> exists i :: 0 <= i < |ds| && ds[i].page == p)
    decreases |ds|
  {
    var n := |ds| - 1;
    var es := PageViewEvents(ds);
    assert es[..n] == PageViewEvents(ds[..n]);
    var mid := Run(st, es[..n], ts[..n]);
    assert Run(st, es, ts) == AfterPageView(mid, ds[n], ts[n]);
    if n == 0 {
      assert mid == st;
    } else {
      FreshSessionReplay(st, id, ds[..n], ts[..n]);
      var s := mid.userSessions[id];
      assert SessionOf(mid, id) == Some(s);
      var s' := UpsertSession(Some(s), ds[n], ts[n]);
      assert Run(st, es, ts).userSessions[id] == s';
      PagesVisitedStep(s, s', ds, n);
    }
  }

  lemma PagesVisitedStep(s: UserSession, s': UserSession, ds: seq<PageViewData>, n: nat)
    requires n < |ds|
    requires forall p :: p in s.pagesVisited <==> exists i :: 0 <= i < n && ds[..n][i].page == p
    requires forall p :: p in s'.pagesVisited <==> p == ds[n].page || p in s.pagesVisited
    ensures forall p :: p in s'.pagesVisited <==> exists i :: 0 <= i <= n && ds[i].page == p
  {
    forall p ensures p in s'.pagesVisited <==> exists i :: 0 <= i <= n && ds[i].page == p {
      if p in s.pagesVisited {
        var i :| 0 <= i < n && ds[..n][i].page == p;
        assert ds[i].page == p;
      }
      if exists i :: 0 <= i <= n && ds[i].page == p {
        var i :| 0 <= i <= n && ds[i].page == p;
        if i < n { assert ds[..n][i].page == p; }
      }
    }
  }

  /** The maximum depths the scroll reports carry, in order. */
  function MaxDepths(ds: seq<ScrollData>): (ms: seq<int>)
    ensures |ms| == |ds| && forall i :: 0 <= i < |ds| ==> ms[i] == ds[i].maxScrollDepth
  {
    seq(|ds|, i requires 0 <= i < |ds| => ds[i].maxScrollDepth)
  }

  /**
   * Scroll reports for one (session, page) leave one record holding the latest depth and the
   * largest reported maximum.
   */
  lemma {:induction false} ScrollReplay(st: StoreState, sid: string, page: string, ds: seq<ScrollData>, ts: seq<int>)
    requires (sid, page) !in st.scrollEvents
    requires |ds| == |ts| && |ds| > 0
    requires forall i :: 0 <= i < |ds| ==> ds[i].sessionId == sid && ds[i].page == page
    ensures var se := Run(st, ScrollEvents(ds), ts).scrollEvents;
      && (sid, page) in se
      && se[(sid, page)].scrollDepth == ds[|ds| - 1].scrollDepth
      && se[(sid, page)].timestamp == ts[|ts| - 1]
      && IsMaxOf(MaxDepths(ds), se[(sid, page)].maxScrollDepth)
    decreases |ds|
  {
    var n := |ds| - 1;
    var es := ScrollEvents(ds);
    assert es[..n] == ScrollEvents(ds[..n]);
    assert es[n] == Scroll(ds[n]);
    var mid := Run(st, es[..n], ts[..n]);
    assert Run(st, es, ts) == AfterScroll(mid, ds[n], ts[n]);
    if n > 0 {
      ScrollReplay(st, sid, page, ds[..n], ts[..n]);
      assert MaxDepths(ds[..n]) == MaxDepths(ds)[..n];
      MaxOfStep(MaxDepths(ds), mid.scrollEvents[(sid, page)].maxScrollDepth,
        Run(st, es, ts).scrollEvents[(sid, page)].maxScrollDepth);
    } else {
      assert mid == st;
      assert MaxDepths(ds)[0] == ds[0].maxScrollDepth;
    }
  }

  /** m is the largest element of ms. */
  ghost predicate IsMaxOf(ms: seq<int>, m: int) {
    m in ms && forall i :: 0 <= i < |ms| ==> ms[i] <= m
  }

  /** The maximum of a sequence is the larger of its last element and the maximum before it. */
  lemma MaxOfStep(ms: seq<int>, pm: int, r: int)
    requires |ms| >= 2
    requires IsMaxOf(ms[..|ms| - 1], pm)
    requires r >= ms[|ms| - 1] && r >= pm && (r == ms[|ms| - 1] || r == pm)
    ensures IsMaxOf(ms, r)
  {
    var n := |ms| - 1;
    var pre := ms[..n];
    forall i | 0 <= i < |ms| ensures ms[i] <= r {
      if i < n { assert ms[i] == pre[i]; }
    }
    if r == pm {
      var j :| 0 <= j < n && pre[j] == pm;
      assert ms[j] == pm;
    } else {
      assert ms[n] == r;
    }
  }

  /** A second successful submission for a session changes no session: conversion is idempotent. */
  lemma ConvertIdempotent(st: StoreState, d: FormSubmissionData, t1: int, t2: int)
    requires d.success
    ensures var once := AfterFormSubmission(st, d, t1);
      AfterFormSubmission(once, d, t2).userSessions == once.userSessions
  {
  }

  /** A successful submission for a session the store has never seen creates no session. */
  lemma ConvertNeedsSession(st: StoreState, d: FormSubmissionData, now: int)
    requires d.sessionId !in st.userSessions
    ensures AfterFormSubmission(st, d, now).userSessions == st.userSessions
  {
  }

  /** A single view left within the bounce window marks the session bounced; a second view before leaving does not. */
  lemma BounceScenario(st: StoreState, d: PageViewData, d2: PageViewData, t0: int, t1: int, t2: int)
    requires d.sessionId !in st.userSessions && d2.sessionId == d.sessionId
    requires t0 <= t2 < t0 + BOUNCE_WINDOW_MS
    ensures var one := AfterPageView(st, d, t0);
      AfterPageExit(one, PageExitData(d.sessionId, d.page, None), t2).userSessions[d.sessionId].bounced
    ensures var two := AfterPageView(AfterPageView(st, d, t0), d2, t1);
      !AfterPageExit(two, PageExitData(d.sessionId, d2.page, None), t2).userSessions[d.sessionId].bounced
  {
  }

  /** A page view followed by its exit leaves that view marked exited with the reported time on page. */
  lemma ViewThenExit(st: StoreState, d: PageViewData, t0: int, timeOnPage: Option<int>, t1: int)
    ensures var st2 := AfterPageExit(AfterPageView(st, d, t0), PageExitData(d.sessionId, d.page, timeOnPage), t1);
      && |st2.pageViews| == |st.pageViews| + 1
      && st2.pageViews[|st.pageViews|] == PageViewDoc(d, t0, true, timeOnPage)
      && st2.pageViews[..|st.pageViews|] == st.pageViews
  {
    var pvs := AfterPageView(st, d, t0).pageViews;
    assert OpenMatch(pvs[|st.pageViews|], d.sessionId, d.page);
    assert pvs[..|st.pageViews|] == st.pageViews;
  }

  // ---------------------------------------------------------------------------
  // The collections as the handler mutates them

  class EventStore {
    var pageViews: seq<PageViewDoc>
    var clickEvents: seq<ClickDoc>
    var scrollEvents: map<(string, string), ScrollDoc>
    var formInteractions: seq<FormInteractionDoc>
    var formSubmissions: seq<FormSubmissionDoc>
    var userSessions: map<string, UserSession>

    function State(): StoreState
      reads this
    {
      StoreState(pageViews, clickEvents, scrollEvents, formInteractions, formSubmissions, userSessions)
    }

    ghost predicate Valid()
      reads this
    {
      WellFormed(State())
    }

    constructor ()
      ensures Valid() && State() == Empty
    {
      pageViews, clickEvents, scrollEvents := [], [], map[];
      formInteractions, formSubmissions, userSessions := [], [], map[];
    }

    method RecordPageView(d: PageViewData, now: int)
      requires Valid()
      modifies this
      ensures Valid() && State() == AfterPageView(old(State()), d, now)
    {
      PageViewPreservesWellFormed(State(), d, now);
      pageViews := pageViews + [PageViewDoc(d, now, false, None)];
      var prior := if d.sessionId in userSessions then Some(userSessions[d.sessionId]) else None;
      userSessions := userSessions[d.sessionId := UpsertSession(prior, d, now)];
    }

    method RecordPageExit(d: PageExitData, now: int)
      requires Valid()
      modifies this
      ensures Valid() && State() == AfterPageExit(old(State()), d, now)
    {
      PageExitPreservesWellFormed(State(), d, now);
      pageViews := MarkExit(pageViews, d);
      if d.sessionId in userSessions {
        userSessions := userSessions[d.sessionId := CloseSession(userSessions[d.sessionId], d.page, now)];
      }
    }

    method RecordScroll(d: ScrollData, now: int)
      requires Valid()
      modifies this
      ensures Valid() && State() == AfterScroll(old(State()), d, now)
    {
      var key := (d.sessionId, d.page);
      var prior := if key in scrollEvents then Some(scrollEvents[key]) else None;
      scrollEvents := scrollEvents[key := UpsertScroll(prior, d, now)];
    }

    method RecordClick(d: ClickData, now: int)
      requires Valid()
      modifies this
      ensures Valid() && State() == AfterClick(old(State()), d, now)
    {
      clickEvents := clickEvents + [ClickDoc(d, now)];
    }

    method RecordFormInteraction(d: FormInteractionData, now: int)
      requires Valid()
      modifies this
      ensures Valid() && State() == AfterFormInteraction(old(State()), d, now)
    {
      formInteractions := formInteractions + [FormInteractionDoc(d, now)];
    }

    method RecordFormSubmission(d: FormSubmissionData, now: int)
      requires Valid()
      modifies this
      ensures Valid() && State() == AfterFormSubmission(old(State()), d, now)
    {
      FormSubmissionPreservesWellFormed(State(), d, now);
      formSubmissions := formSubmissions + [FormSubmissionDoc(d, now)];
      if d.success && d.sessionId in userSessions {
        userSessions := userSessions[d.sessionId := userSessions[d.sessionId].(converted := true)];
      }
    }

    /** The POST handler: dispatch on the event type. */
    method Post(e: Event, now: int) returns (response: TrackResponse)
      requires Valid()
      modifies this
      ensures Valid()
      ensures (State(), response) == Handle(old(State()), e, now)
    {
      match e
      case PageView(d) => RecordPageView(d, now); response := Tracked;
      case PageExit(d) => RecordPageExit(d, now); response := Tracked;
      case Scroll(d) => RecordScroll(d, now); response := Tracked;
      case Click(d) => RecordClick(d, now); response := Tracked;
      case FormInteraction(d) => RecordFormInteraction(d, now); response := Tracked;
      case FormSubmission(d) => RecordFormSubmission(d, now); response := Tracked;
      case Unrecognised(_) => response := InvalidEventType;
    }
  }
}
