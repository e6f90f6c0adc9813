/**
 * The lead form endpoint (frontend/app/api/submit-lead/route.ts): the request body is checked
 * field by field, then one lead document is inserted into the `leads` collection. The document
 * store is `LeadStore`; the new document's `_id`, which the database driver generates, is an input.
 */
module LeadIntake {
  import opened Wrappers
  import Http

  /** A JSON value as `request.json()` yields it. */
  datatype Json = Null | Bool(b: bool) | Num(n: real) | Str(s: string) | Arr(items: seq<Json>) | Obj(fields: map<string, Json>)

  /** `!v`: undefined, null, false, 0 and "" are falsy; arrays and objects never are. */
  predicate Falsy(v: Option<Json>) {
    match v
    case None => true
    case Some(j) => j == Null || j == Bool(false) || j == Num(0.0) || j == Str("")
  }

  /** `body[name]`; null has no properties (reading one throws), any other non-object has none of these. */
  function Field(body: Json, name: string): (r: Outcome<Option<Json>>)
    ensures r.Throws? <==> body == Null
    ensures body.Obj? ==> r == Returns(if name in body.fields then Some(body.fields[name]) else None)
  {
    match body
    case Null => Throws
    case Obj(fields) => Returns(if name in fields then Some(fields[name]) else None)
    case _ => Returns(None)
  }

  /** The fields every lead must carry, in the order they are checked. */
  const REQUIRED: seq<string> := ["fullName", "email", "phone", "businessName", "instagramHandle", "businessType", "budget", "biggestGoal"]

  /** A body other than null, whose fields can be read. */
  predicate Readable(body: Json) {
    body != Null
  }

  function Get(body: Json, name: string): Option<Json>
    requires Readable(body)
  {
    Field(body, name).value
  }

  /** The `for...of` loop from index k: the first required field that is missing, if any. */
  function FirstMissing(body: Json, k: nat): (r: Option<nat>)
    requires Readable(body) && k <= |REQUIRED|
    ensures r.Some? ==> k <= r.value < |REQUIRED| && Falsy(Get(body, REQUIRED[r.value]))
    ensures r.Some? ==> forall j :: k <= j < r.value ==> !Falsy(Get(body, REQUIRED[j]))
    ensures r.None? <==> forall j :: k <= j < |REQUIRED| ==> !Falsy(Get(body, REQUIRED[j]))
    decreases |REQUIRED| - k
  {
    if k == |REQUIRED| then None
    else if Falsy(Get(body, REQUIRED[k])) then Some(k)
    else FirstMissing(body, k + 1)
  }

  /** `body.services` passes when it is a non-empty array. */
  predicate HasServices(body: Json)
    requires Readable(body)
  {
    var s := Get(body, "services");
    s.Some? && s.value.Arr? && |s.value.items| > 0
  }

  /** The validation verdict: None when the body may be stored, otherwise the 400 message. */
  function Rejection(body: Json): (r: Option<string>)
    requires Readable(body)
    ensures FirstMissing(body, 0).Some? ==> r == Some("Missing required field: " + REQUIRED[FirstMissing(body, 0).value])
    ensures FirstMissing(body, 0).None? && !HasServices(body) ==> r == Some("Please select at least one service")
    ensures r.None? <==> (forall j :: 0 <= j < |REQUIRED| ==> !Falsy(Get(body, REQUIRED[j]))) && HasServices(body)
  {
    match FirstMissing(body, 0)
    case Some(k) => Some("Missing required field: " + REQUIRED[k])
    case None => if !HasServices(body) then Some("Please select at least one service") else None
  }

  /** Any falsy value, the empty string among them, counts as missing. */
  lemma EmptyNameIsMissing(fields: map<string, Json>)
    requires "fullName" in fields && (fields["fullName"] == Str("") || fields["fullName"] == Num(0.0))
    ensures Rejection(Obj(fields)) == Some("Missing required field: fullName")
  {
    assert REQUIRED[0] == "fullName";
    assert Falsy(Get(Obj(fields), REQUIRED[0]));
    assert FirstMissing(Obj(fields), 0) == Some(0);
    assert "Missing required field: " + "fullName" == "Missing required field: fullName";
  }

  /** Services are looked at only once every required field is present. */
  lemma ServicesCheckedLast(body: Json)
    requires Readable(body) && !HasServices(body)
    requires exists j :: 0 <= j < |REQUIRED| && Falsy(Get(body, REQUIRED[j]))
    ensures Rejection(body).Some? && Rejection(body).value != "Please select at least one service"
  {
  }

  /** The database identifier of a document (`ObjectId`), by its hexadecimal text. */
  datatype ObjectId = ObjectId(hex: string)

  /** A stored lead: the nine body fields, the time of submission and the tracking status. */
  datatype LeadDoc = LeadDoc(
    fullName: Json, email: Json, phone: Json, businessName: Json, instagramHandle: Json,
    services: seq<Json>, businessType: Json, budget: Json, biggestGoal: Json,
    submittedAt: int, status: string)

  datatype Lead = Lead(id: ObjectId, doc: LeadDoc)

  /** The document built from an accepted body. */
  function LeadOf(body: Json, now: int): (d: LeadDoc)
    requires Readable(body) && Rejection(body).None?
    ensures d.status == "new" && d.submittedAt == now
    ensures Get(body, "fullName") == Some(d.fullName) && Get(body, "email") == Some(d.email)
    ensures Get(body, "phone") == Some(d.phone) && Get(body, "businessName") == Some(d.businessName)
    ensures Get(body, "instagramHandle") == Some(d.instagramHandle) && Get(body, "businessType") == Some(d.businessType)
    ensures Get(body, "budget") == Some(d.budget) && Get(body, "biggestGoal") == Some(d.biggestGoal)
    ensures Some(Arr(d.services)) == Get(body, "services") && |d.services| > 0
  {
    assert forall j :: 0 <= j < |REQUIRED| ==> !Falsy(Get(body, REQUIRED[j]));
    assert !Falsy(Get(body, REQUIRED[0])) && !Falsy(Get(body, REQUIRED[1])) && !Falsy(Get(body, REQUIRED[2]));
    assert !Falsy(Get(body, REQUIRED[3])) && !Falsy(Get(body, REQUIRED[4])) && !Falsy(Get(body, REQUIRED[5]));
    assert !Falsy(Get(body, REQUIRED[6])) && !Falsy(Get(body, REQUIRED[7]));
    LeadDoc(
      Get(body, "fullName").value, Get(body, "email").value, Get(body, "phone").value,
      Get(body, "businessName").value, Get(body, "instagramHandle").value,
      Get(body, "services").value.items,
      Get(body, "businessType").value, Get(body, "budget").value, Get(body, "biggestGoal").value,
      now, "new")
  }

  /** The nine listed fields decide the document: anything else in the body is dropped. */
  lemma OtherFieldsDropped(a: map<string, Json>, b: map<string, Json>, now: int)
    requires Rejection(Obj(a)).None? && Rejection(Obj(b)).None?
    requires forall name :: name in REQUIRED || name == "services" ==> Get(Obj(a), name) == Get(Obj(b), name)
    ensures LeadOf(Obj(a), now) == LeadOf(Obj(b), now)
  {
    assert forall j :: 0 <= j < |REQUIRED| ==> Get(Obj(a), REQUIRED[j]) == Get(Obj(b), REQUIRED[j]);
    assert REQUIRED[2] == "phone" && REQUIRED[3] == "businessName" && REQUIRED[4] == "instagramHandle";
    assert REQUIRED[5] == "businessType" && REQUIRED[6] == "budget" && REQUIRED[7] == "biggestGoal";
  }

  /** The 201 reply's body. */
  datatype Submitted = Submitted(success: bool, message: string, leadId: ObjectId)

  const SERVER_ERROR := 500

  /** The reply to a body, given the store's new identifier. */
  function Response(body: Option<Json>, newId: ObjectId): (r: Http.Reply<Submitted>)
    ensures body.None? || body == Some(Null) ==> r == Http.Failure(SERVER_ERROR, "Failed to submit form. Please try again.")
    ensures r.Success? <==> body.Some? && Readable(body.value) && Rejection(body.value).None?
    ensures r.Success? ==> r.status == Http.CREATED && r.body.success && r.body.leadId == newId
    ensures r.Failure? && body.Some? && Readable(body.value) ==> r == Http.Failure(Http.BAD_REQUEST, Rejection(body.value).value)
  {
    match body
    case None => Http.Failure(SERVER_ERROR, "Failed to submit form. Please try again.")
    case Some(b) =>
      if !Readable(b) then Http.Failure(SERVER_ERROR, "Failed to submit form. Please try again.")
      else
        match Rejection(b)
        case Some(msg) => Http.Failure(Http.BAD_REQUEST, msg)
        case None => Http.Success(Http.CREATED, Submitted(true, "Your request has been submitted successfully!", newId))
  }

  /** The `leads` collection. */
  class LeadStore {
    var leads: seq<Lead>

    /** Document identifiers are unique. */
    ghost predicate Valid()
      reads this
    {
      forall i, j :: 0 <= i < j < |leads| ==> leads[i].id != leads[j].id
    }

    constructor ()
      ensures leads == [] && Valid()
    {
      leads := [];
    }

    /**
     * `POST`: `body` is the parsed request body (None when it is not JSON). A body that fails
     * validation, or cannot be read, leaves the collection as it was; an accepted one adds exactly
     * one lead, with status "new" and the time of the request.
     */
    method Post(body: Option<Json>, now: int, newId: ObjectId) returns (reply: Http.Reply<Submitted>)
      requires Valid()
      requires forall i :: 0 <= i < |leads| ==> leads[i].id != newId
      modifies this
      ensures Valid()
      ensures reply == Response(body, newId)
      ensures reply.Failure? ==> leads == old(leads)
      ensures reply.Success? ==> leads == old(leads) + [Lead(newId, LeadOf(body.value, now))]
    {
      reply := Response(body, newId);
      if reply.Success? {
        leads := leads + [Lead(newId, LeadOf(body.value, now))];
      }
    }
  }
}
