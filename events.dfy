/**
 * The ingestion endpoint's input events and the documents it stores
 * (frontend/app/api/analytics/track/route.ts). Payload fields that the client may omit are
 * `Option`s; `sessionId` and `page`, which every branch keys on, are plain strings.
 */
module Events {
  import opened Wrappers

  datatype PageViewData = PageViewData(
    sessionId: string, page: string,
    userAgent: Option<string>, referrer: Option<string>,
    country: Option<string>, city: Option<string>,
    device: Option<string>, browser: Option<string>, os: Option<string>,
    screenResolution: Option<string>,
    utmSource: Option<string>, utmMedium: Option<string>, utmCampaign: Option<string>,
    utmTerm: Option<string>, utmContent: Option<string>,
    entryPage: Option<bool>)

  datatype PageExitData = PageExitData(sessionId: string, page: string, timeOnPage: Option<int>)

  datatype ScrollData = ScrollData(sessionId: string, page: string, scrollDepth: int, maxScrollDepth: int)

  datatype ClickData = ClickData(
    sessionId: string, elementId: Option<string>, elementType: Option<string>,
    page: Option<string>, elementText: Option<string>,
    xPosition: Option<int>, yPosition: Option<int>)

  datatype FormInteractionData = FormInteractionData(
    sessionId: string, formId: Option<string>, fieldName: Option<string>,
    action: Option<string>, timeSpent: Option<int>, page: Option<string>)

  datatype FormSubmissionData = FormSubmissionData(
    sessionId: string, formType: Option<string>, page: Option<string>,
    success: bool, timeTaken: Option<int>, fieldErrors: Option<seq<string>>)

  /** The six `eventType` strings the ingestion endpoint dispatches on. */
  const EVENT_TYPES: set<string> := {"pageview", "page_exit", "scroll", "click", "form_interaction", "form_submission"}

  /** Any other `eventType` string. */
  type UnknownEventType = t: string | t !in EVENT_TYPES witness ""

  /**
   * The `{eventType, data}` envelope after dispatch on `eventType`: one case per accepted
   * type, and `Unrecognised` for any other type string.
   */
  datatype Event =
    | PageView(pageView: PageViewData)
    | PageExit(exit: PageExitData)
    | Scroll(scroll: ScrollData)
    | Click(click: ClickData)
    | FormInteraction(interaction: FormInteractionData)
    | FormSubmission(submission: FormSubmissionData)
    | Unrecognised(eventType: UnknownEventType)

  /** The `eventType` string that selects each case: one of the six exactly for an accepted event. */
  function WireName(e: Event): (r: string)
    ensures r in EVENT_TYPES <==> !e.Unrecognised?
  {
    match e
    case PageView(_) => "pageview"
    case PageExit(_) => "page_exit"
    case Scroll(_) => "scroll"
    case Click(_) => "click"
    case FormInteraction(_) => "form_interaction"
    case FormSubmission(_) => "form_submission"
    case Unrecognised(t) => t
  }

  /** A `pageViews` document: the payload, the server timestamp, and the exit annotation. */
  datatype PageViewDoc = PageViewDoc(fields: PageViewData, timestamp: int, exitPage: bool, timeOnPage: Option<int>) {
    function SessionId(): string { fields.sessionId }
    function Page(): string { fields.page }
  }

  datatype ClickDoc = ClickDoc(fields: ClickData, timestamp: int)

  /** A `scrollEvents` document; there is one per (sessionId, page). */
  datatype ScrollDoc = ScrollDoc(sessionId: string, page: string, scrollDepth: int, maxScrollDepth: int, timestamp: int)

  datatype FormInteractionDoc = FormInteractionDoc(fields: FormInteractionData, timestamp: int)

  datatype FormSubmissionDoc = FormSubmissionDoc(fields: FormSubmissionData, timestamp: int)

  /**
   * A `userSessions` document. `isReturning` is read by the reporting layer; nothing in the
   * ingestion endpoint writes it.
   */
  datatype UserSession = UserSession(
    sessionId: string,
    firstSeen: int, referrer: Option<string>, converted: bool, bounced: bool, entryPage: string,
    lastSeen: int,
    device: Option<string>, country: Option<string>, city: Option<string>,
    browser: Option<string>, os: Option<string>,
    utmSource: Option<string>, utmMedium: Option<string>, utmCampaign: Option<string>,
    pageViews: nat, pagesVisited: seq<string>,
    exitPage: Option<string>, sessionDuration: Option<int>,
    isReturning: bool)
}
