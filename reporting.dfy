/**
 * What the two admin analytics endpoints (frontend/app/api/admin/analytics/route.ts and
 * frontend/app/api/admin/analytics-enhanced/route.ts) share: the session gate, the `period`
 * query parameter, the start of the reporting window, the collections as the endpoints read
 * them, and the windowed counts.
 */
module Reporting {
  import opened Wrappers
  import opened Events
  import opened Collections
  import Text
  import Track
  import Aggregate
  import Http

  // ---------------------------------------------------------------------------
  // The session gate

  /** Both endpoints refuse a request without a server session (401) and accept any session. */
  function Gate(session: Http.ServerSession): (r: Option<nat>)
    ensures r == Some(Http.UNAUTHORIZED) <==> session.NoSession?
    ensures r.None? <==> session.Session?
  {
    if session.NoSession? then Some(Http.UNAUTHORIZED) else None
  }

  /** The reply of either endpoint: 401 "Unauthorized" without a session, otherwise 200 with the body. */
  function Guarded<B>(session: Http.ServerSession, body: B): (r: Http.Reply<B>)
    ensures r.Failure? <==> session.NoSession?
    ensures r.Failure? ==> r.status == Http.UNAUTHORIZED
    ensures r.Success? ==> r.status == Http.OK && r.body == body
  {
    match Gate(session)
    case Some(status) => Http.Failure(status, "Unauthorized")
    case None => Http.Success(Http.OK, body)
  }

  // ---------------------------------------------------------------------------
  // `parseInt(searchParams.get('period') || '7')`

  /** Length of the run of decimal digits at the start of s. */
  function DigitRun(s: string): (n: nat)
    ensures n <= |s| && Text.AllDigits(s[..n])
    ensures n < |s| ==> !Text.IsDigit(s[n])
  {
    if s == [] || !Text.IsDigit(s[0]) then 0
    else
      var n := 1 + DigitRun(s[1..]);
      assert s[..n] == [s[0]] + s[1..][..n - 1];
      n
  }

  predicate IsHexDigit(c: char) {
    Text.IsDigit(c) || 'a' <= c <= 'f' || 'A' <= c <= 'F'
  }

  function HexDigitValue(c: char): (v: nat)
    requires IsHexDigit(c)
    ensures v < 16
  {
    if Text.IsDigit(c) then c as int - '0' as int
    else if 'a' <= c <= 'f' then c as int - 'a' as int + 10
    else c as int - 'A' as int + 10
  }

  /** Length of the run of hexadecimal digits at the start of s. */
  function HexRun(s: string): (n: nat)
    ensures n <= |s| && forall i :: 0 <= i < n ==> IsHexDigit(s[i])
    ensures n < |s| ==> !IsHexDigit(s[n])
  {
    if s == [] || !IsHexDigit(s[0]) then 0 else 1 + HexRun(s[1..])
  }

  function HexValue(s: string): nat
    requires forall i :: 0 <= i < |s| ==> IsHexDigit(s[i])
  {
    if s == [] then 0 else HexValue(s[..|s| - 1]) * 16 + HexDigitValue(s[|s| - 1])
  }

  /**
   * `parseInt(s)` without a radix: leading white space and one sign are skipped; `0x` or `0X`
   * selects hexadecimal; the longest run of digits is read and the rest ignored. None is NaN,
   * when no digit follows.
   */
  function ParseInt(s: string): (r: Option<int>)
  {
    var t := s[Text.LeadingSpaces(s)..];
    var negative := t != [] && t[0] == '-';
    var u := if t != [] && (t[0] == '-' || t[0] == '+') then t[1..] else t;
    var magnitude :=
      if |u| >= 2 && u[0] == '0' && (u[1] == 'x' || u[1] == 'X') then
        var h := HexRun(u[2..]);
        if h == 0 then None else Some(HexValue(u[2..][..h]))
      else
        var d := DigitRun(u);
        if d == 0 then None else Some(Text.ParseDecimal(u[..d]) as int);
    match magnitude
    case None => None
    case Some(m) => Some(if negative then -m else m)
  }

  /** The reporting period in days; a missing or empty parameter means 7. */
  function PeriodDays(param: Option<string>): Option<int> {
    ParseInt(if param.Some? && param.value != "" then param.value else "7")
  }

  lemma PeriodDefault()
    ensures PeriodDays(None) == Some(7)
    ensures PeriodDays(Some("")) == Some(7)
  {
    assert Text.LeadingSpaces("7") == 0;
    assert DigitRun("7") == 1;
    assert "7"[..1] == "7";
    assert "7"[..0] == [];
  }

  /** A number written in decimal reads back as itself, whatever non-digit text follows it. */
  lemma {:induction false} ParseIntDecimal(n: nat, rest: string)
    requires rest == [] || !Text.IsDigit(rest[0])
    requires n == 0 ==> rest == [] || (rest[0] != 'x' && rest[0] != 'X')
    ensures ParseInt(Text.Decimal(n) + rest) == Some(n)
  {
    var d := Text.Decimal(n);
    var s := d + rest;
    assert s[0] == d[0];
    assert Text.LeadingSpaces(s) == 0;
    assert s[0..] == s;
    DigitRunPrefix(d, rest);
    assert s[..|d|] == d;
    Text.ParseDecimalOfDecimal(n);
    if |s| >= 2 && s[0] == '0' && (s[1] == 'x' || s[1] == 'X') {
      DecimalLeadingZero(n);
      assert false;
    }
  }

  lemma {:induction false} DigitRunPrefix(d: string, rest: string)
    requires Text.AllDigits(d)
    requires rest == [] || !Text.IsDigit(rest[0])
    ensures DigitRun(d + rest) == |d|
    decreases |d|
  {
    if d != [] {
      assert (d + rest)[1..] == d[1..] + rest;
      DigitRunPrefix(d[1..], rest);
    } else {
      assert d + rest == rest;
    }
  }

  /** Only zero is written with a leading zero. */
  lemma {:induction false} DecimalLeadingZero(n: nat)
    requires Text.Decimal(n)[0] == '0'
    ensures n == 0 && Text.Decimal(n) == "0"
    decreases n
  {
    if n >= 10 {
      assert Text.Decimal(n)[0] == Text.Decimal(n / 10)[0];
      DecimalLeadingZero(n / 10);
      assert false;
    }
  }

  const DAY_MS := 86400000

  /** `startDate.setDate(startDate.getDate() - periodDays)`, in milliseconds. */
  function StartDate(now: int, days: int): (start: int)
    ensures days >= 0 ==> start <= now
    ensures days == 7 ==> now - start == 7 * DAY_MS
  {
    now - days * DAY_MS
  }

  /**
   * The start of the reporting window for the `period` parameter at time `now`. A period that
   * does not parse (NaN) makes an invalid date, which the driver sends as the epoch, 0.
   */
  function WindowStart(period: Option<string>, now: int): (start: int)
    ensures PeriodDays(period).None? ==> start == 0
    ensures PeriodDays(period).Some? ==> start == now - PeriodDays(period).value * DAY_MS
  {
    match PeriodDays(period)
    case None => 0
    case Some(days) => StartDate(now, days)
  }

  /** Without a `period` parameter the window is the last seven days. */
  lemma WindowDefault(now: int)
    ensures WindowStart(None, now) == now - 7 * DAY_MS
  {
    PeriodDefault();
  }

  // ---------------------------------------------------------------------------
  // The collections as the endpoints read them

  /** The collections in their natural order, as a query sees them. */
  datatype Db = Db(
    pageViews: seq<PageViewDoc>,
    clickEvents: seq<ClickDoc>,
    scrollEvents: seq<ScrollDoc>,
    formInteractions: seq<FormInteractionDoc>,
    formSubmissions: seq<FormSubmissionDoc>,
    userSessions: seq<UserSession>)

  /** db lists exactly the documents of the ingestion store st, each once. */
  ghost predicate Lists(st: Track.StoreState, db: Db) {
    && db.pageViews == st.pageViews
    && db.clickEvents == st.clickEvents
    && db.formInteractions == st.formInteractions
    && db.formSubmissions == st.formSubmissions
    && |db.userSessions| == |st.userSessions|
    && (forall i :: 0 <= i < |db.userSessions| ==>
          db.userSessions[i].sessionId in st.userSessions
          && st.userSessions[db.userSessions[i].sessionId] == db.userSessions[i])
    && (forall i, j :: 0 <= i < j < |db.userSessions| ==> db.userSessions[i].sessionId != db.userSessions[j].sessionId)
    && |db.scrollEvents| == |st.scrollEvents|
    && (forall i :: 0 <= i < |db.scrollEvents| ==>
          var k := (db.scrollEvents[i].sessionId, db.scrollEvents[i].page);
          k in st.scrollEvents && st.scrollEvents[k] == db.scrollEvents[i])
    && (forall i, j :: 0 <= i < j < |db.scrollEvents| ==>
          (db.scrollEvents[i].sessionId, db.scrollEvents[i].page) != (db.scrollEvents[j].sessionId, db.scrollEvents[j].page))
  }

  // ---------------------------------------------------------------------------
  // The reporting window

  function PageViewsSince(db: Db, start: int): seq<PageViewDoc> {
    Filter(db.pageViews, (v: PageViewDoc) => v.timestamp >= start)
  }

  function SessionsSince(db: Db, start: int): seq<UserSession> {
    Filter(db.userSessions, (s: UserSession) => s.firstSeen >= start)
  }

  function ClicksSince(db: Db, start: int): seq<ClickDoc> {
    Filter(db.clickEvents, (c: ClickDoc) => c.timestamp >= start)
  }

  function ScrollsSince(db: Db, start: int): seq<ScrollDoc> {
    Filter(db.scrollEvents, (c: ScrollDoc) => c.timestamp >= start)
  }

  function InteractionsSince(db: Db, start: int): seq<FormInteractionDoc> {
    Filter(db.formInteractions, (f: FormInteractionDoc) => f.timestamp >= start)
  }

  function SubmissionsSince(db: Db, start: int): seq<FormSubmissionDoc> {
    Filter(db.formSubmissions, (f: FormSubmissionDoc) => f.timestamp >= start)
  }

  /** The `converted: true` filter on sessions. */
  predicate Converted(s: UserSession) { s.converted }

  /** The `'fields.success': true` filter on form submissions. */
  predicate Succeeded(f: FormSubmissionDoc) { f.fields.success }

  /** The five `countDocuments` both endpoints run. */
  datatype Counts = Counts(
    totalPageViews: nat, totalSessions: nat, totalClicks: nat, totalFormSubmissions: nat, conversions: nat)

  /**
   * Each count is the number of documents of its collection in the window: page views, sessions
   * and clicks, then only the successful submissions and only the converted sessions.
   */
  function CountsSince(db: Db, start: int): (c: Counts)
    ensures c.totalPageViews == |PageViewsSince(db, start)| <= |db.pageViews|
    ensures c.totalSessions == |SessionsSince(db, start)| <= |db.userSessions|
    ensures c.totalClicks == |ClicksSince(db, start)| <= |db.clickEvents|
    ensures c.totalFormSubmissions == Count(SubmissionsSince(db, start), Succeeded) <= |SubmissionsSince(db, start)|
    ensures c.conversions == Count(SessionsSince(db, start), Converted) <= c.totalSessions
  {
    var sessions := SessionsSince(db, start);
    Counts(
      |PageViewsSince(db, start)|,
      |sessions|,
      |ClicksSince(db, start)|,
      Count(SubmissionsSince(db, start), Succeeded),
      Count(sessions, Converted))
  }

  /** Only documents at or after the start are counted: moving the start later never adds any. */
  lemma {:induction false} CountsShrink(xs: seq<PageViewDoc>, a: int, b: int)
    requires a <= b
    ensures |Filter(xs, (v: PageViewDoc) => v.timestamp >= b)| <= |Filter(xs, (v: PageViewDoc) => v.timestamp >= a)|
    decreases |xs|
  {
    if xs != [] { CountsShrink(xs[1..], a, b); }
  }

  /**
   * `parseFloat(((part / total) * 100).toFixed(2))`, or 0 without a total: a percentage
   * rounded to hundredths.
   */
  function Rate(part: nat, total: nat): (r: real)
    requires part <= total
    ensures 0.0 <= r <= 100.0
    ensures total == 0 ==> r == 0.0
    ensures total > 0 ==> -0.005 < r - (part as real / total as real) * 100.0 <= 0.005
  {
    if total > 0 then
      var x := (part as real / total as real) * 100.0;
      Aggregate.MeanBetween(part, total, 1);
      Aggregate.Round2Percent(x);
      Aggregate.Round2(x)
    else 0.0
  }
}
