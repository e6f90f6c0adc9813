/**
 * The browser-side tracking helpers (frontend/lib/analytics.ts): the per-tab session id kept in
 * `sessionStorage`, the device bucket of the window width, the random version-4 UUID, and the
 * event each tracker posts to the ingestion endpoint. `Math.random` is an input: the sequence of
 * nibbles (`Math.random() * 16 | 0`) the UUID template consumes.
 */
module ClientAnalytics {
  import opened Wrappers
  import opened Events

  // ---------------------------------------------------------------------------
  // generateUUID

  /** n placeholders `x`. */
  function Xs(n: nat): (r: string)
    ensures |r| == n && forall i :: 0 <= i < n ==> r[i] == 'x'
  {
    seq(n, _ => 'x')
  }

  /** `'xxxxxxxx-xxxx-4xxx-yxxx-xxxxxxxxxxxx'`. */
  const TEMPLATE: string := Xs(8) + "-" + Xs(4) + "-4" + Xs(3) + "-y" + Xs(3) + "-" + Xs(12)

  /** The number of `x`/`y` placeholders in t: how many random nibbles filling it takes. */
  function Slots(t: string): nat {
    if t == [] then 0 else (if t[0] == 'x' || t[0] == 'y' then 1 else 0) + Slots(t[1..])
  }

  predicate IsNibble(n: int) {
    0 <= n < 16
  }

  const HEX := "0123456789abcdef"

  /** `v.toString(16)` for 0 <= v < 16. */
  function HexDigit(v: int): char
    requires IsNibble(v)
  {
    HEX[v]
  }

  predicate IsHexDigit(c: char) {
    '0' <= c <= '9' || 'a' <= c <= 'f'
  }

  /** `r & 0x3 | 0x8`: the nibble of a `y`, one of 8, 9, a and b. */
  function VariantNibble(r: int): (v: int)
    requires IsNibble(r)
    ensures 8 <= v <= 11
  {
    8 + r % 4
  }

  /** `t.replace(/[xy]/g, ...)`: each placeholder in turn takes the next random nibble. */
  function Fill(t: string, ns: seq<int>): (r: string)
    requires |ns| == Slots(t)
    requires forall k :: 0 <= k < |ns| ==> IsNibble(ns[k])
    ensures |r| == |t|
    ensures forall i :: 0 <= i < |t| && t[i] != 'x' && t[i] != 'y' ==> r[i] == t[i]
    ensures forall i :: 0 <= i < |t| && t[i] == 'x' ==> IsHexDigit(r[i])
    ensures forall i :: 0 <= i < |t| && t[i] == 'y' ==> r[i] in "89ab"
  {
    if t == [] then []
    else
      var c := if t[0] == 'x' then HexDigit(ns[0]) else if t[0] == 'y' then HexDigit(VariantNibble(ns[0])) else t[0];
      var rest := if t[0] == 'x' || t[0] == 'y' then Fill(t[1..], ns[1..]) else Fill(t[1..], ns);
      FillStep(t, c, rest);
      [c] + rest
  }

  /** One character filled in front of a filled tail keeps the shape of the template. */
  lemma FillStep(t: string, c: char, rest: string)
    requires t != [] && |rest| == |t| - 1
    requires forall i :: 0 <= i < |rest| && t[i + 1] != 'x' && t[i + 1] != 'y' ==> rest[i] == t[i + 1]
    requires forall i :: 0 <= i < |rest| && t[i + 1] == 'x' ==> IsHexDigit(rest[i])
    requires forall i :: 0 <= i < |rest| && t[i + 1] == 'y' ==> rest[i] in "89ab"
    requires t[0] != 'x' && t[0] != 'y' ==> c == t[0]
    requires t[0] == 'x' ==> IsHexDigit(c)
    requires t[0] == 'y' ==> c in "89ab"
    ensures var r := [c] + rest;
      && |r| == |t|
      && (forall i :: 0 <= i < |t| && t[i] != 'x' && t[i] != 'y' ==> r[i] == t[i])
      && (forall i :: 0 <= i < |t| && t[i] == 'x' ==> IsHexDigit(r[i]))
      && (forall i :: 0 <= i < |t| && t[i] == 'y' ==> r[i] in "89ab")
  {
    var r := [c] + rest;
    assert forall i :: 0 < i < |t| ==> r[i] == rest[i - 1];
  }

  /** The x placeholders copy their nibbles: filling is injective in the nibbles that land on an x. */
  lemma {:induction false} FillReadsBack(t: string, ns: seq<int>, i: nat)
    requires |ns| == Slots(t) && forall k :: 0 <= k < |ns| ==> IsNibble(ns[k])
    requires i < |t| && t[i] == 'x'
    ensures Slots(t[..i]) < |ns|
    ensures Fill(t, ns)[i] == HexDigit(ns[Slots(t[..i])])
  {
    if i > 0 {
      assert t[1..][..i - 1] == t[..i][1..];
      var tail := if t[0] == 'x' || t[0] == 'y' then ns[1..] else ns;
      FillReadsBack(t[1..], tail, i - 1);
      assert Slots(t[..i]) == (if t[0] == 'x' || t[0] == 'y' then 1 else 0) + Slots(t[..i][1..]);
    } else {
      assert t[..0] == [];
    }
  }

  /** `generateUUID`: the template with 31 random nibbles. */
  function Uuid(ns: seq<int>): (r: string)
    requires |ns| == 31 && forall k :: 0 <= k < 31 ==> IsNibble(ns[k])
    ensures |r| == 36
    ensures r[8] == '-' && r[13] == '-' && r[18] == '-' && r[23] == '-'
    ensures r[14] == '4' && r[19] in "89ab"
    ensures forall i :: 0 <= i < 36 && i !in {8, 13, 18, 23} ==> IsHexDigit(r[i])
  {
    TemplateShape();
    var r := Fill(TEMPLATE, ns);
    assert forall i :: 0 <= i < 36 && i !in {8, 13, 18, 23} ==> IsHexDigit(r[i]) by {
      forall i | 0 <= i < 36 && i !in {8, 13, 18, 23} ensures IsHexDigit(r[i]) {
        if i == 14 {} else if i == 19 {} else { assert TEMPLATE[i] == 'x'; }
      }
    }
    r
  }

  lemma TemplateShape()
    ensures |TEMPLATE| == 36 && Slots(TEMPLATE) == 31
    ensures TEMPLATE[8] == '-' && TEMPLATE[13] == '-' && TEMPLATE[18] == '-' && TEMPLATE[23] == '-'
    ensures TEMPLATE[14] == '4' && TEMPLATE[19] == 'y'
    ensures forall i :: 0 <= i < 36 && i !in {8, 13, 18, 23, 14, 19} ==> TEMPLATE[i] == 'x'
  {
    TemplateSlots();
  }

  lemma TemplateSlots()
    ensures Slots(TEMPLATE) == 31
  {
    var p1 := Xs(8) + "-";
    SlotsOfXs(8); SlotsAppend(Xs(8), "-");
    assert Slots(p1) == 8;
    var p2 := p1 + Xs(4);
    SlotsOfXs(4); SlotsAppend(p1, Xs(4));
    var p3 := p2 + "-4";
    SlotsAppend(p2, "-4");
    assert Slots(p3) == 12;
    var p4 := p3 + Xs(3);
    SlotsOfXs(3); SlotsAppend(p3, Xs(3));
    var p5 := p4 + "-y";
    SlotsAppend(p4, "-y");
    assert Slots(p5) == 16;
    var p6 := p5 + Xs(3);
    SlotsAppend(p5, Xs(3));
    var p7 := p6 + "-";
    SlotsAppend(p6, "-");
    assert Slots(p7) == 19;
    SlotsOfXs(12); SlotsAppend(p7, Xs(12));
  }

  /** The template spelled out is the one the source writes. */
  lemma TemplateIsLiteral()
    ensures TEMPLATE == "xxxxxxxx-xxxx-4xxx-yxxx-xxxxxxxxxxxx"
  {
    TemplateShape();
  }

  lemma {:induction false} SlotsOfXs(n: nat)
    ensures Slots(Xs(n)) == n
  {
    if n > 0 {
      assert Xs(n)[1..] == Xs(n - 1);
      SlotsOfXs(n - 1);
    }
  }

  lemma {:induction false} SlotsAppend(a: string, b: string)
    ensures Slots(a + b) == Slots(a) + Slots(b)
  {
    if a == [] {
      assert a + b == b;
    } else {
      assert (a + b)[0] == a[0];
      assert (a + b)[1..] == a[1..] + b;
      SlotsAppend(a[1..], b);
    }
  }

  // ---------------------------------------------------------------------------
  // getDeviceType

  /** `getDeviceType`, given `window.innerWidth` (None where there is no window). */
  function DeviceType(width: Option<int>): (r: string)
    ensures width.None? ==> r == "desktop"
    ensures width.Some? ==> (r == "mobile" <==> width.value < 768)
    ensures width.Some? ==> (r == "tablet" <==> 768 <= width.value < 1024)
    ensures width.Some? ==> (r == "desktop" <==> 1024 <= width.value)
  {
    match width
    case None => "desktop"
    case Some(w) => if w < 768 then "mobile" else if w < 1024 then "tablet" else "desktop"
  }

  function DeviceRank(d: string): nat {
    if d == "mobile" then 0 else if d == "tablet" then 1 else 2
  }

  /** A wider window never falls in a smaller bucket. */
  lemma DeviceTypeMonotone(w1: int, w2: int)
    requires w1 <= w2
    ensures DeviceRank(DeviceType(Some(w1))) <= DeviceRank(DeviceType(Some(w2)))
  {
  }

  // ---------------------------------------------------------------------------
  // The trackers' events

  /** `trackPageView`'s body: the page, the browser's user agent and referrer, and the device. */
  function PageViewEvent(sessionId: string, page: string, userAgent: string, referrer: string, device: string): (e: Event)
    ensures WireName(e) == "pageview"
    ensures e.PageView? && e.pageView.sessionId == sessionId && e.pageView.page == page
    ensures e.pageView.device == Some(device) && e.pageView.referrer == Some(referrer)
    ensures e.pageView.utmSource.None? && e.pageView.country.None? && e.pageView.entryPage.None?
  {
    PageView(PageViewData(sessionId, page, Some(userAgent), Some(referrer), None, None, Some(device),
      None, None, None, None, None, None, None, None, None))
  }

  /** `trackClick`'s body: identifier, type and page only. */
  function ClickEvent(sessionId: string, elementId: string, elementType: string, page: string): (e: Event)
    ensures WireName(e) == "click"
    ensures e.Click? && e.click == ClickData(sessionId, Some(elementId), Some(elementType), Some(page), None, None, None)
  {
    Click(ClickData(sessionId, Some(elementId), Some(elementType), Some(page), None, None, None))
  }

  /** `trackFormSubmission`'s body. */
  function FormSubmissionEvent(sessionId: string, formType: string, page: string, success: bool): (e: Event)
    ensures WireName(e) == "form_submission"
    ensures e.FormSubmission? && e.submission == FormSubmissionData(sessionId, Some(formType), Some(page), success, None, None)
  {
    FormSubmission(FormSubmissionData(sessionId, Some(formType), Some(page), success, None, None))
  }

  // ---------------------------------------------------------------------------
  // The browser tab

  const SESSION_KEY := "analytics_session_id"

  /**
   * What the helpers see of the page they run in: whether there is a `window` at all (not during
   * server rendering), its inner width, and the `sessionStorage` item under `SESSION_KEY`.
   */
  class Tab {
    const inBrowser: bool
    var innerWidth: int
    var sessionItem: Option<string>

    constructor (inBrowser: bool, innerWidth: int, sessionItem: Option<string>)
      ensures this.inBrowser == inBrowser && this.innerWidth == innerWidth && this.sessionItem == sessionItem
    {
      this.inBrowser := inBrowser;
      this.innerWidth := innerWidth;
      this.sessionItem := sessionItem;
    }

    /** The width `getDeviceType` reads. */
    function Width(): Option<int>
      reads this
    {
      if inBrowser then Some(innerWidth) else None
    }

    /**
     * `getSessionId`: "" outside a browser; the stored id when there is a non-empty one; otherwise
     * a fresh UUID, which is stored. After a call in a browser the stored id is the returned one.
     */
    method GetSessionId(ns: seq<int>) returns (id: string)
      requires |ns| == 31 && forall k :: 0 <= k < 31 ==> IsNibble(ns[k])
      modifies this
      ensures !inBrowser ==> id == "" && sessionItem == old(sessionItem)
      ensures inBrowser && Truthy(old(sessionItem)) ==> id == old(sessionItem).value && sessionItem == old(sessionItem)
      ensures inBrowser && !Truthy(old(sessionItem)) ==> id == Uuid(ns) && sessionItem == Some(id)
      ensures inBrowser ==> Truthy(sessionItem) && sessionItem == Some(id)
      ensures innerWidth == old(innerWidth)
    {
      if !inBrowser {
        return "";
      }
      var stored := sessionItem;
      if !Truthy(stored) {
        var generated := Uuid(ns);
        sessionItem := Some(generated);
        return generated;
      }
      return stored.value;
    }

    /** `trackPageView`; outside a browser `document.referrer` throws and nothing is sent. */
    method TrackPageView(page: string, userAgent: string, referrer: string, ns: seq<int>) returns (sent: Option<Event>)
      requires |ns| == 31 && forall k :: 0 <= k < 31 ==> IsNibble(ns[k])
      modifies this
      ensures !inBrowser ==> sent.None? && sessionItem == old(sessionItem)
      ensures inBrowser ==> (Truthy(sessionItem)
        && sent == Some(PageViewEvent(sessionItem.value, page, userAgent, referrer, DeviceType(Some(old(innerWidth))))))
      ensures inBrowser && Truthy(old(sessionItem)) ==> sessionItem == old(sessionItem)
      ensures inBrowser && !Truthy(old(sessionItem)) ==> sessionItem == Some(Uuid(ns))
      ensures innerWidth == old(innerWidth)
    {
      var sessionId := GetSessionId(ns);
      var device := DeviceType(Width());
      if !inBrowser {
        return None;
      }
      return Some(PageViewEvent(sessionId, page, userAgent, referrer, device));
    }

    /** `trackClick`; outside a browser the relative request URL is rejected and nothing is sent. */
    method TrackClick(elementId: string, elementType: string, page: string, ns: seq<int>) returns (sent: Option<Event>)
      requires |ns| == 31 && forall k :: 0 <= k < 31 ==> IsNibble(ns[k])
      modifies this
      ensures !inBrowser ==> sent.None? && sessionItem == old(sessionItem)
      ensures inBrowser ==> Truthy(sessionItem) && sent == Some(ClickEvent(sessionItem.value, elementId, elementType, page))
      ensures inBrowser && Truthy(old(sessionItem)) ==> sessionItem == old(sessionItem)
      ensures inBrowser && !Truthy(old(sessionItem)) ==> sessionItem == Some(Uuid(ns))
      ensures innerWidth == old(innerWidth)
    {
      var sessionId := GetSessionId(ns);
      if !inBrowser {
        return None;
      }
      return Some(ClickEvent(sessionId, elementId, elementType, page));
    }

    /** `trackFormSubmission`; as `TrackClick` outside a browser. */
    method TrackFormSubmission(formType: string, page: string, success: bool, ns: seq<int>) returns (sent: Option<Event>)
      requires |ns| == 31 && forall k :: 0 <= k < 31 ==> IsNibble(ns[k])
      modifies this
      ensures !inBrowser ==> sent.None? && sessionItem == old(sessionItem)
      ensures inBrowser ==> Truthy(sessionItem) && sent == Some(FormSubmissionEvent(sessionItem.value, formType, page, success))
      ensures inBrowser && Truthy(old(sessionItem)) ==> sessionItem == old(sessionItem)
      ensures inBrowser && !Truthy(old(sessionItem)) ==> sessionItem == Some(Uuid(ns))
      ensures innerWidth == old(innerWidth)
    {
      var sessionId := GetSessionId(ns);
      if !inBrowser {
        return None;
      }
      return Some(FormSubmissionEvent(sessionId, formType, page, success));
    }
  }

  /** Every event a tab sends carries the same session id, whatever randomness later calls draw. */
  method SameSessionAcrossEvents(tab: Tab, ns1: seq<int>, ns2: seq<int>) returns (first: Event, second: Event)
    requires tab.inBrowser
    requires |ns1| == 31 && forall k :: 0 <= k < 31 ==> IsNibble(ns1[k])
    requires |ns2| == 31 && forall k :: 0 <= k < 31 ==> IsNibble(ns2[k])
    modifies tab
    ensures first.PageView? && second.Click?
    ensures first.pageView.sessionId == second.click.sessionId != ""
    ensures old(tab.sessionItem) != Some("") && old(tab.sessionItem).Some? ==> first.pageView.sessionId == old(tab.sessionItem).value
  {
    var a := tab.TrackPageView("/", "agent", "", ns1);
    var b := tab.TrackClick("cta", "button", "/", ns2);
    first, second := a.value, b.value;
  }
}
