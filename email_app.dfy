/**
 * The email service's HTTP endpoints: a health check, and two POST endpoints
 * that check the required fields in a fixed order, hand the data to the
 * matching sender and map its result to a status code.
 *
 * The request body is given already decoded: `Ok(v)` for the JSON value
 * `request.get_json()` returned, `Err(e)` for the text of the exception it
 * raised.
 */
module EmailApp {
  import opened Common
  import opened Text
  import opened JsonData
  import opened EmailService
  import Schema
  import Storage

  /** An HTTP status and a JSON body. Framework error pages carry no JSON and are given `JNull`. */
  datatype Reply = Reply(status: nat, body: Json)

  /** `jsonify({"success": ..., "message": ...})`. */
  function ResultJson(r: SendResult): Json {
    JObj(map["success" := JBool(r.success), "message" := JStr(r.message)])
  }

  /** `health_check`. */
  function HealthCheck(): (r: Reply)
    ensures r.status == 200 && r.body.JObj?
    ensures Member(r.body, "status") == Some(JStr("healthy")) && Member(r.body, "service") == Some(JStr("email-service"))
  {
    Reply(200, JObj(map["status" := JStr("healthy"), "service" := JStr("email-service")]))
  }

  // ---------------------------------------------------------------------------
  // The required-field check

  /**
   * Python's `field in data`: a key of a dictionary, an element of a list, a
   * substring of a string; any other value raises `TypeError`.
   */
  function Contains(data: Json, field: string): (r: Result<bool, string>)
    ensures data.JObj? ==> r == Ok(field in data.fields)
    ensures data.JArr? ==> r == Ok(JStr(field) in data.items)
    ensures data.JStr? ==> r.Ok? && (r.value <==> exists j :: OccursAt(data.s, field, j))
    ensures r.Err? <==> data.JNum? || data.JBool? || data.JNull?
  {
    match data
    case JObj(f) => Ok(field in f)
    case JArr(items) => Ok(JStr(field) in items)
    case JStr(s) => Ok(IndexOf(s, field).Some?)
    case _ => Err("argument of type '" + PyTypeName(data) + "' is not iterable")
  }

  /**
   * The outcome of checking `fields` in order: the first one not in `data`,
   * `None` when all are there, or the error the first check raised.
   */
  function FirstMissing(data: Json, fields: seq<string>): (r: Result<Option<string>, string>)
    ensures r.Ok? && r.value.Some? ==> r.value.value in fields
    decreases |fields|
  {
    if fields == [] then Ok(None)
    else
      match Contains(data, fields[0])
      case Err(e) => Err(e)
      case Ok(present) => if present then FirstMissing(data, fields[1..]) else Ok(Some(fields[0]))
  }

  /**
   * For a dictionary, the check names the first listed field that is not a
   * key, every field before it being a key; it names none exactly when all
   * the fields are keys.
   */
  lemma {:induction false} FirstMissingInObject(f: map<string, Json>, fields: seq<string>)
    ensures FirstMissing(JObj(f), fields).Ok?
    ensures FirstMissing(JObj(f), fields).value.None? <==> forall i :: 0 <= i < |fields| ==> fields[i] in f
    ensures FirstMissing(JObj(f), fields).value.Some? ==>
      exists i :: 0 <= i < |fields| && fields[i] == FirstMissing(JObj(f), fields).value.value &&
        fields[i] !in f && forall j :: 0 <= j < i ==> fields[j] in f
    decreases |fields|
  {
    if fields != [] && fields[0] in f {
      FirstMissingInObject(f, fields[1..]);
      var r := FirstMissing(JObj(f), fields[1..]);
      if r.value.Some? {
        var i :| 0 <= i < |fields[1..]| && fields[1..][i] == r.value.value &&
          fields[1..][i] !in f && forall j :: 0 <= j < i ==> fields[1..][j] in f;
        assert fields[i + 1] == r.value.value && forall j :: 0 <= j < i + 1 ==> fields[j] in f;
      } else {
        forall i | 0 <= i < |fields| ensures fields[i] in f {
          if i > 0 {
            assert fields[i] == fields[1..][i - 1];
          }
        }
      }
    }
  }

  // ---------------------------------------------------------------------------
  // The two POST endpoints

  /** Which of the two sending endpoints. */
  datatype Endpoint = BookingEndpoint | ContactEndpoint

  const BookingRequired: seq<string> := ["name", "email", "date", "time", "projectType"]
  const ContactRequired: seq<string> := ["name", "email", "subject", "message"]

  function Required(e: Endpoint): seq<string> {
    match e
    case BookingEndpoint => BookingRequired
    case ContactEndpoint => ContactRequired
  }

  /** The sender the endpoint calls. */
  function Send(e: Endpoint, data: Json, send: Message -> Delivery): SendResult {
    match e
    case BookingEndpoint => SendBookingConfirmation(data, send).result
    case ContactEndpoint => SendContactNotification(data, send).result
  }

  /** The reply of an endpoint, as a function of the decoded body and the transport. */
  function EndpointReply(e: Endpoint, body: Result<Json, string>, send: Message -> Delivery): Reply {
    match body
    case Err(err) => Reply(500, ResultJson(SendResult(false, "Error processing request: " + err)))
    case Ok(data) =>
      match FirstMissing(data, Required(e))
      case Err(err) => Reply(500, ResultJson(SendResult(false, "Error processing request: " + err)))
      case Ok(Some(field)) => Reply(400, ResultJson(SendResult(false, "Missing required field: " + field)))
      case Ok(None) =>
        var r := Send(e, data, send);
        Reply(if r.success then 200 else 500, ResultJson(r))
  }

  /** The shared body of `booking_email` and `contact_email`: the field loop with early return, then the status mapping. */
  method HandleEndpoint(e: Endpoint, body: Result<Json, string>, send: Message -> Delivery) returns (reply: Reply)
    ensures reply == EndpointReply(e, body, send)
  {
    if body.Err? {
      return Reply(500, ResultJson(SendResult(false, "Error processing request: " + body.error)));
    }
    var data := body.value;
    var required := Required(e);
    for i := 0 to |required|
      invariant FirstMissing(data, required) == FirstMissing(data, required[i..])
    {
      assert required[i..][1..] == required[i + 1..];
      var present := Contains(data, required[i]);
      if present.Err? {
        return Reply(500, ResultJson(SendResult(false, "Error processing request: " + present.error)));
      }
      if !present.value {
        return Reply(400, ResultJson(SendResult(false, "Missing required field: " + required[i])));
      }
    }
    var result := Send(e, data, send);
    if result.success {
      reply := Reply(200, ResultJson(result));
    } else {
      reply := Reply(500, ResultJson(result));
    }
  }

  /** `booking_email`. */
  method BookingEmail(body: Result<Json, string>, send: Message -> Delivery) returns (reply: Reply)
    ensures reply == EndpointReply(BookingEndpoint, body, send)
  {
    reply := HandleEndpoint(BookingEndpoint, body, send);
  }

  /** `contact_email`. */
  method ContactEmail(body: Result<Json, string>, send: Message -> Delivery) returns (reply: Reply)
    ensures reply == EndpointReply(ContactEndpoint, body, send)
  {
    reply := HandleEndpoint(ContactEndpoint, body, send);
  }

  /**
   * For a JSON object the endpoint answers 400 naming the first required
   * field, in the listed order, that is missing; with all present it answers
   * 200 when the sender succeeded and 500 with the sender's result otherwise.
   */
  lemma EndpointStatus(e: Endpoint, f: map<string, Json>, send: Message -> Delivery)
    ensures var reply := EndpointReply(e, Ok(JObj(f)), send);
      reply.status == 400 <==> exists k :: k in Required(e) && k !in f
    ensures var reply := EndpointReply(e, Ok(JObj(f)), send);
      reply.status == 400 ==>
        exists i :: 0 <= i < |Required(e)| && Required(e)[i] !in f && (forall j :: 0 <= j < i ==> Required(e)[j] in f) &&
                    reply.body == ResultJson(SendResult(false, "Missing required field: " + Required(e)[i]))
    ensures var reply := EndpointReply(e, Ok(JObj(f)), send);
      reply.status != 400 ==>
        reply.body == ResultJson(Send(e, JObj(f), send)) &&
        (reply.status == 200 <==> Send(e, JObj(f), send).success) &&
        (reply.status == 500 <==> !Send(e, JObj(f), send).success)
  {
    FirstMissingInObject(f, Required(e));
  }

  /** A body that is not a container, or that could not be decoded, is answered 500 with the error. */
  lemma EndpointErrors(e: Endpoint, body: Result<Json, string>, send: Message -> Delivery)
    requires body.Err? || body.value.JNum? || body.value.JBool? || body.value.JNull?
    ensures EndpointReply(e, body, send).status == 500
    ensures EndpointReply(e, body, send).body.fields["success"] == JBool(false)
    ensures StartsWith(EndpointReply(e, body, send).body.fields["message"].s, "Error processing request: ")
  {
  }

  /** The booking endpoint does not require `phone` or `message`. */
  lemma PhoneAndMessageOptional(f: map<string, Json>, send: Message -> Delivery)
    requires forall k :: k in BookingRequired ==> k in f
    ensures EndpointReply(BookingEndpoint, Ok(JObj(f - {"phone", "message"})), send).status != 400
  {
    EndpointStatus(BookingEndpoint, f - {"phone", "message"}, send);
  }

  /**
   * A booking the server stored passes the required-field check, and its
   * confirmation is answered 200 exactly when the message to its address is
   * delivered.
   */
  lemma StoredBookingAccepted(b: Storage.Booking, send: Message -> Delivery)
    ensures var reply := EndpointReply(BookingEndpoint, Ok(Storage.BookingJson(b)), send);
      (reply.status == 200 || reply.status == 500) &&
      (reply.status == 200 <==> send(BookingMessage(Storage.BookingJson(b).fields)) == Delivered) &&
      reply.body == ResultJson(SendBookingConfirmation(Storage.BookingJson(b), send).result)
  {
    var f := Storage.BookingJson(b).fields;
    assert "name" in f && "email" in f && "date" in f && "time" in f;
    assert f["projectType"] == JStr(b.projectType);
    assert forall k :: k in BookingRequired ==> k in f;
    EndpointStatus(BookingEndpoint, f, send);
  }

  /**
   * A contact the server stored passes the required-field check, and is
   * answered 200 exactly when both the notification and the auto-reply are
   * delivered.
   */
  lemma StoredContactAccepted(c: Storage.Contact, send: Message -> Delivery)
    ensures var reply := EndpointReply(ContactEndpoint, Ok(Storage.ContactJson(c)), send);
      var f := Storage.ContactJson(c).fields;
      (reply.status == 200 || reply.status == 500) &&
      (reply.status == 200 <==> send(NotificationMessage(f)) == Delivered && send(AutoReplyMessage(f)) == Delivered) &&
      reply.body == ResultJson(SendContactNotification(Storage.ContactJson(c), send).result)
  {
    var f := Storage.ContactJson(c).fields;
    assert forall k :: k in ContactRequired ==> k in f;
    EndpointStatus(ContactEndpoint, f, send);
  }

  // ---------------------------------------------------------------------------
  // The route table

  /**
   * The service's routes. An unknown path is 404 and a known path with a
   * method it does not accept is 405; `OPTIONS` is answered by the framework.
   */
  function Route(verb: string, path: string, body: Result<Json, string>, send: Message -> Delivery): (r: Reply)
    ensures path !in {"/health", "/api/send-email/booking", "/api/send-email/contact"} ==> r.status == 404
  {
    if path == "/health" then
      if verb == "GET" || verb == "HEAD" then HealthCheck()
      else if verb == "OPTIONS" then Reply(200, JNull)
      else Reply(405, JNull)
    else if path == "/api/send-email/booking" || path == "/api/send-email/contact" then
      if verb == "POST" then
        EndpointReply(if path == "/api/send-email/booking" then BookingEndpoint else ContactEndpoint, body, send)
      else if verb == "OPTIONS" then Reply(200, JNull)
      else Reply(405, JNull)
    else Reply(404, JNull)
  }
}
