/**
 * The web server's submission endpoints. Each validates the body with the
 * insert schema, stores the record, asks the email service to send its
 * message and answers; the email helpers turn every failure into a fixed
 * result, so whether a submission succeeds is decided by validation alone.
 *
 * An HTTP POST to the email service is a parameter, `post`, from the full
 * URL and the JSON body to what came back: a status and body, or an error
 * before any answer.
 */
module Routes {
  import opened Common
  import opened Text
  import opened JsonData
  import opened Schema
  import opened Storage
  import EmailService
  import EmailApp

  /** What one HTTP request to another service gave. */
  datatype HttpOutcome = Answered(status: nat, data: Json) | Unreachable(error: string)

  /** A request sent to another service. */
  datatype Request = Request(url: string, body: Json)

  /** The email service's address when no override is configured. */
  const EmailServiceUrl: string := "http://localhost:5001"

  const BookingEmailUrl: string := EmailServiceUrl + "/api/send-email/booking"
  const ContactEmailUrl: string := EmailServiceUrl + "/api/send-email/contact"
  const TestEmailUrl: string := EmailServiceUrl + "/api/send-test-email"

  /** axios resolves only for a 2xx status and throws for every other outcome. */
  predicate Resolves(o: HttpOutcome) {
    o.Answered? && 200 <= o.status < 300
  }

  /** The text of the error axios throws. */
  function AxiosError(o: HttpOutcome): string {
    match o
    case Answered(status, _) => "Request failed with status code " + Decimal(status)
    case Unreachable(e) => e
  }

  /** `{ success: false, message }`. */
  function SoftFailure(message: string): Json {
    JObj(map["success" := JBool(false), "message" := JStr(message)])
  }

  /**
   * `sendBookingConfirmationEmail`: never throws. It returns what the email
   * service answered when the call succeeded, and a fixed failure otherwise.
   */
  function SendBookingConfirmationEmail(b: Booking, post: (string, Json) -> HttpOutcome): (r: Json)
    ensures Resolves(post(BookingEmailUrl, BookingJson(b))) ==> r == post(BookingEmailUrl, BookingJson(b)).data
    ensures !Resolves(post(BookingEmailUrl, BookingJson(b))) ==>
      r == SoftFailure("Failed to send email but booking was stored")
  {
    var o := post(BookingEmailUrl, BookingJson(b));
    if Resolves(o) then o.data else SoftFailure("Failed to send email but booking was stored")
  }

  /** `sendContactNotificationEmail`: never throws; the same shape for contacts. */
  function SendContactNotificationEmail(c: Contact, post: (string, Json) -> HttpOutcome): (r: Json)
    ensures Resolves(post(ContactEmailUrl, ContactJson(c))) ==> r == post(ContactEmailUrl, ContactJson(c)).data
    ensures !Resolves(post(ContactEmailUrl, ContactJson(c))) ==>
      r == SoftFailure("Failed to send email but contact was stored")
  {
    var o := post(ContactEmailUrl, ContactJson(c));
    if Resolves(o) then o.data else SoftFailure("Failed to send email but contact was stored")
  }

  // ---------------------------------------------------------------------------
  // Responses

  /** The JSON bodies the endpoints answer with. */
  datatype ApiBody =
    | Created(message: string, data: Json)          // { message, data }
    | ValidationError(errors: seq<Issue>)           // { message: "Validation error", errors }
    | Failure(message: string)                      // { message }
    | Forwarded(data: Json)                         // the email service's body, passed on
    | Refused(message: string)                      // { success: false, message }
    | RefusedWithError(message: string, error: string) // { success: false, message, error }

  datatype ApiResponse = ApiResponse(status: nat, body: ApiBody)

  /** What a handler's `try` block can throw. */
  datatype Thrown = Invalid(issues: seq<Issue>) | OtherError

  /** The booking handler's `catch`: a schema failure is 400 with its issues, anything else 500. */
  function BookingCatch(e: Thrown): (r: ApiResponse)
    ensures r.status == 400 <==> e.Invalid?
    ensures e.Invalid? ==> r.body == ValidationError(e.issues)
    ensures e.OtherError? ==> r == ApiResponse(500, Failure("Failed to create booking"))
  {
    match e
    case Invalid(issues) => ApiResponse(400, ValidationError(issues))
    case OtherError => ApiResponse(500, Failure("Failed to create booking"))
  }

  /** The contact handler's `catch`. */
  function ContactCatch(e: Thrown): (r: ApiResponse)
    ensures r.status == 400 <==> e.Invalid?
    ensures e.Invalid? ==> r.body == ValidationError(e.issues)
    ensures e.OtherError? ==> r == ApiResponse(500, Failure("Failed to send message"))
  {
    match e
    case Invalid(issues) => ApiResponse(400, ValidationError(issues))
    case OtherError => ApiResponse(500, Failure("Failed to send message"))
  }

  // ---------------------------------------------------------------------------
  // POST /api/bookings and POST /api/contacts

  /**
   * `POST /api/bookings`. A body the insert schema rejects is answered 400
   * with the schema's issues and leaves the store as it was, with no email
   * request. Otherwise the booking is stored once under the next id, its
   * confirmation is requested, and, once that request settles, the answer is
   * 201 with the stored record whatever the email service did. The handler
   * never answers 500: the store cannot fail and the email helper absorbs
   * every failure. The `post` parameter always returns an outcome: a request
   * that never settles is not modelled.
   */
  method PostBooking(store: MemStorage, body: Json, now: string, post: (string, Json) -> HttpOutcome)
    returns (res: ApiResponse, calls: seq<Request>)
    requires store.Valid()
    modifies store
    ensures store.Valid()
    ensures res.status == 201 || res.status == 400
    ensures ParseInsertBooking(body).Err? ==>
      res == BookingCatch(Invalid(ParseInsertBooking(body).error)) && calls == [] &&
      store.bookings == old(store.bookings) && store.bookingId == old(store.bookingId)
    ensures ParseInsertBooking(body).Ok? ==>
      var b := NewBooking(ParseInsertBooking(body).value, old(store.bookingId), now);
      res == ApiResponse(201, Created("Booking created successfully", BookingJson(b))) &&
      calls == [Request(BookingEmailUrl, BookingJson(b))] &&
      store.bookings == old(store.bookings)[b.id := b] &&
      store.Bookings() == old(store.Bookings()) + [b] && store.bookingId == old(store.bookingId) + 1
    ensures store.contacts == old(store.contacts) && store.contactId == old(store.contactId)
  {
    var parsed := ParseInsertBooking(body);
    if parsed.Err? {
      res := BookingCatch(Invalid(parsed.error));
      calls := [];
      return;
    }
    var booking := store.CreateBooking(parsed.value, now);
    var emailResult := SendBookingConfirmationEmail(booking, post);
    calls := [Request(BookingEmailUrl, BookingJson(booking))];
    res := ApiResponse(201, Created("Booking created successfully", BookingJson(booking)));
  }

  /**
   * `POST /api/contacts`: 400 with the issues and no change for a body the
   * insert schema rejects; otherwise the contact is stored once, its
   * notification is requested, and, once that request settles, the answer is
   * 201 with the stored record.
   */
  method PostContact(store: MemStorage, body: Json, now: string, post: (string, Json) -> HttpOutcome)
    returns (res: ApiResponse, calls: seq<Request>)
    requires store.Valid()
    modifies store
    ensures store.Valid()
    ensures res.status == 201 || res.status == 400
    ensures ParseInsertContact(body).Err? ==>
      res == ContactCatch(Invalid(ParseInsertContact(body).error)) && calls == [] &&
      store.contacts == old(store.contacts) && store.contactId == old(store.contactId)
    ensures ParseInsertContact(body).Ok? ==>
      var c := NewContact(ParseInsertContact(body).value, old(store.contactId), now);
      res == ApiResponse(201, Created("Message sent successfully", ContactJson(c))) &&
      calls == [Request(ContactEmailUrl, ContactJson(c))] &&
      store.contacts == old(store.contacts)[c.id := c] &&
      store.Contacts() == old(store.Contacts()) + [c] && store.contactId == old(store.contactId) + 1
    ensures store.bookings == old(store.bookings) && store.bookingId == old(store.bookingId)
  {
    var parsed := ParseInsertContact(body);
    if parsed.Err? {
      res := ContactCatch(Invalid(parsed.error));
      calls := [];
      return;
    }
    var contact := store.CreateContact(parsed.value, now);
    var emailResult := SendContactNotificationEmail(contact, post);
    calls := [Request(ContactEmailUrl, ContactJson(contact))];
    res := ApiResponse(201, Created("Message sent successfully", ContactJson(contact)));
  }

  /**
   * The email outcome does not reach the client: two email services that
   * behave differently give the same answer to the same booking.
   */
  method BookingAnswerIgnoresEmail(body: Json, now: string, post1: (string, Json) -> HttpOutcome,
                                   post2: (string, Json) -> HttpOutcome)
    returns (res1: ApiResponse, res2: ApiResponse)
    ensures res1 == res2
    ensures res1.status == 201 <==> ParseInsertBooking(body).Ok?
  {
    var store1 := new MemStorage();
    var store2 := new MemStorage();
    var calls1, calls2;
    res1, calls1 := PostBooking(store1, body, now, post1);
    res2, calls2 := PostBooking(store2, body, now, post2);
  }

  /** A booking stored by the server can be read back by the id in the 201 answer. */
  method StoredBookingReadable(store: MemStorage, body: Json, now: string, post: (string, Json) -> HttpOutcome)
    returns (res: ApiResponse, found: Option<Booking>)
    requires store.Valid()
    modifies store
    ensures res.status == 201 ==> found.Some? && res.body == Created("Booking created successfully", BookingJson(found.value))
  {
    var calls;
    res, calls := PostBooking(store, body, now, post);
    if res.status == 201 {
      found := store.GetBookingById(store.bookingId - 1);
    } else {
      found := None;
    }
  }

  // ---------------------------------------------------------------------------
  // POST /api/send-test-email

  /** JavaScript truthiness of a destructured property; `None` is `undefined`. */
  predicate Truthy(v: Option<Json>) {
    match v
    case None => false
    case Some(JNull) => false
    case Some(JBool(b)) => b
    case Some(JNum(n)) => n != 0
    case Some(JStr(s)) => s != ""
    case Some(_) => true
  }

  /**
   * `POST /api/send-test-email`: without a truthy `email` the answer is 400
   * and nothing is forwarded; otherwise `{ email }` is posted to the email
   * service, a 2xx answer is passed on with its status, and any other
   * outcome is 500.
   */
  method SendTestEmail(body: Json, post: (string, Json) -> HttpOutcome) returns (res: ApiResponse, calls: seq<Request>)
    ensures !Truthy(Member(body, "email")) ==>
      res == ApiResponse(400, Refused("Email address is required")) && calls == []
    ensures Truthy(Member(body, "email")) ==>
      var req := Request(TestEmailUrl, JObj(map["email" := Member(body, "email").value]));
      var o := post(req.url, req.body);
      calls == [req] &&
      (Resolves(o) ==> res == ApiResponse(o.status, Forwarded(o.data))) &&
      (!Resolves(o) ==> res == ApiResponse(500, RefusedWithError("Failed to send test email", AxiosError(o))))
  {
    var email := Member(body, "email");
    if !Truthy(email) {
      res := ApiResponse(400, Refused("Email address is required"));
      calls := [];
      return;
    }
    var forward := JObj(map["email" := email.value]);
    calls := [Request(TestEmailUrl, forward)];
    var o := post(TestEmailUrl, forward);
    if Resolves(o) {
      res := ApiResponse(o.status, Forwarded(o.data));
    } else {
      res := ApiResponse(500, RefusedWithError("Failed to send test email", AxiosError(o)));
    }
  }

  // ---------------------------------------------------------------------------
  // Wired to the email service

  /** The email service at its default address, reached over a working network, sending with `send`. */
  function EmailServiceAt(send: EmailService.Message -> EmailService.Delivery): (string, Json) -> HttpOutcome {
    (url: string, body: Json) =>
      if StartsWith(url, EmailServiceUrl) then
        var reply := EmailApp.Route("POST", url[|EmailServiceUrl|..], Ok(body), send);
        Answered(reply.status, reply.body)
      else Unreachable("connect ECONNREFUSED")
  }

  /** A POST to a path of the email service is answered by its route table. */
  lemma ServiceAnswers(send: EmailService.Message -> EmailService.Delivery, path: string, body: Json)
    ensures var reply := EmailApp.Route("POST", path, Ok(body), send);
      EmailServiceAt(send)(EmailServiceUrl + path, body) == Answered(reply.status, reply.body)
  {
    assert (EmailServiceUrl + path)[|EmailServiceUrl|..] == path;
    assert StartsWith(EmailServiceUrl + path, EmailServiceUrl);
  }

  /** The email service has no route for the test-email path. */
  lemma TestPathUnserved(send: EmailService.Message -> EmailService.Delivery, body: Json)
    ensures EmailServiceAt(send)(TestEmailUrl, body) == Answered(404, JNull)
  {
    ServiceAnswers(send, "/api/send-test-email", body);
  }

  /** The axios message of a 404 answer. */
  lemma NotFoundMessage()
    ensures AxiosError(Answered(404, JNull)) == "Request failed with status code 404"
  {
    assert Decimal(4) == [DigitChar(4)];
    assert Decimal(40) == Decimal(4) + [DigitChar(0)];
    assert Decimal(404) == Decimal(40) + [DigitChar(4)];
  }

  /** The path the server forwards test emails to is not one the email service serves, so a test email is always 500. */
  method TestEmailNeverForwarded(email: string, send: EmailService.Message -> EmailService.Delivery)
    returns (res: ApiResponse)
    requires email != ""
    ensures res == ApiResponse(500, RefusedWithError("Failed to send test email", "Request failed with status code 404"))
  {
    var body := JObj(map["email" := JStr(email)]);
    assert Member(body, "email") == Some(JStr(email));
    TestPathUnserved(send, body);
    NotFoundMessage();
    var calls;
    res, calls := SendTestEmail(body, EmailServiceAt(send));
  }

  /**
   * End to end, the booking email helper returns the email service's success
   * result exactly when the confirmation is delivered, and the fixed failure
   * otherwise.
   */
  lemma BookingEmailEndToEnd(b: Booking, send: EmailService.Message -> EmailService.Delivery)
    ensures var delivered := send(EmailService.BookingMessage(BookingJson(b).fields)) == EmailService.Delivered;
      SendBookingConfirmationEmail(b, EmailServiceAt(send)) ==
        if delivered then EmailApp.ResultJson(EmailService.SendResult(true, "Booking confirmation email sent successfully"))
        else SoftFailure("Failed to send email but booking was stored")
  {
    var body := BookingJson(b);
    var reply := EmailApp.Route("POST", "/api/send-email/booking", Ok(body), send);
    assert reply == EmailApp.EndpointReply(EmailApp.BookingEndpoint, Ok(body), send);
    ServiceAnswers(send, "/api/send-email/booking", body);
    EmailApp.StoredBookingAccepted(b, send);
    var o := EmailServiceAt(send)(BookingEmailUrl, body);
    assert o == Answered(reply.status, reply.body);
    if send(EmailService.BookingMessage(body.fields)) == EmailService.Delivered {
      assert Resolves(o);
      var result := EmailService.SendBookingConfirmation(body, send).result;
      assert result == EmailService.SendResult(true, "Booking confirmation email sent successfully");
    } else {
      assert !Resolves(o);
    }
  }

  /**
   * End to end, the contact email helper returns the success result exactly
   * when both the notification and the auto-reply are delivered.
   */
  lemma ContactEmailEndToEnd(c: Contact, send: EmailService.Message -> EmailService.Delivery)
    ensures var f := ContactJson(c).fields;
      var delivered := send(EmailService.NotificationMessage(f)) == EmailService.Delivered &&
                       send(EmailService.AutoReplyMessage(f)) == EmailService.Delivered;
      SendContactNotificationEmail(c, EmailServiceAt(send)) ==
        if delivered then EmailApp.ResultJson(EmailService.SendResult(true, "Contact notification emails sent successfully"))
        else SoftFailure("Failed to send email but contact was stored")
  {
    var body := ContactJson(c);
    var reply := EmailApp.Route("POST", "/api/send-email/contact", Ok(body), send);
    assert reply == EmailApp.EndpointReply(EmailApp.ContactEndpoint, Ok(body), send);
    ServiceAnswers(send, "/api/send-email/contact", body);
    EmailApp.StoredContactAccepted(c, send);
    var o := EmailServiceAt(send)(ContactEmailUrl, body);
    assert o == Answered(reply.status, reply.body);
    var f := body.fields;
    if send(EmailService.NotificationMessage(f)) == EmailService.Delivered &&
       send(EmailService.AutoReplyMessage(f)) == EmailService.Delivered {
      assert Resolves(o);
      var result := EmailService.SendContactNotification(body, send).result;
      assert result == EmailService.SendResult(true, "Contact notification emails sent successfully");
    } else {
      assert !Resolves(o);
    }
  }
}
