/**
 * The email service's message logic: reading the booking date, building the
 * confirmation and contact messages, and dispatching a request by type.
 *
 * The SMTP transport is a parameter, `send`, which either delivers a message
 * or fails with an error text; the HTML bodies are not modelled, only the
 * values inserted into them. Python's `datetime.strptime` and `strftime` are
 * modelled for the formats the service uses.
 */
module EmailService {
  import opened Common
  import opened Text
  import opened Calendar
  import opened JsonData
  import BookingOptions

  // ---------------------------------------------------------------------------
  // datetime.strptime(s, '%Y-%m-%d')

  /** A number matched by one alternative of a regular-expression group, and how many characters it took. */
  datatype Piece = Piece(value: nat, len: nat)

  /** The number a two-digit field denotes. */
  function TwoDigits(a: char, b: char): nat
    requires IsDigit(a) && IsDigit(b)
  {
    10 * CharValue(a) + CharValue(b)
  }

  /**
   * The alternatives of the month group `1[0-2]|0[1-9]|[1-9]` that match at
   * index `i`, in the order the regular expression tries them.
   */
  function MonthAlternatives(s: string, i: nat): (ps: seq<Piece>)
    ensures forall k :: 0 <= k < |ps| ==> 1 <= ps[k].value <= 12 && 1 <= ps[k].len <= 2
  {
    (if i + 1 < |s| && s[i] == '1' && '0' <= s[i + 1] <= '2' then [Piece(TwoDigits(s[i], s[i + 1]), 2)] else []) +
    (if i + 1 < |s| && s[i] == '0' && '1' <= s[i + 1] <= '9' then [Piece(TwoDigits(s[i], s[i + 1]), 2)] else []) +
    (if i < |s| && '1' <= s[i] <= '9' then [Piece(CharValue(s[i]), 1)] else [])
  }

  /**
   * The alternatives of the day group `3[01]|[12]\d|0[1-9]|[1-9]| [1-9]` that
   * match at index `i`, in the order the regular expression tries them.
   */
  function DayAlternatives(s: string, i: nat): (ps: seq<Piece>)
    ensures forall k :: 0 <= k < |ps| ==> 1 <= ps[k].value <= 31 && 1 <= ps[k].len <= 2
  {
    (if i + 1 < |s| && s[i] == '3' && '0' <= s[i + 1] <= '1' then [Piece(TwoDigits(s[i], s[i + 1]), 2)] else []) +
    (if i + 1 < |s| && '1' <= s[i] <= '2' && IsDigit(s[i + 1]) then [Piece(TwoDigits(s[i], s[i + 1]), 2)] else []) +
    (if i + 1 < |s| && s[i] == '0' && '1' <= s[i + 1] <= '9' then [Piece(TwoDigits(s[i], s[i + 1]), 2)] else []) +
    (if i < |s| && '1' <= s[i] <= '9' then [Piece(CharValue(s[i]), 1)] else []) +
    (if i + 1 < |s| && s[i] == ' ' && '1' <= s[i + 1] <= '9' then [Piece(CharValue(s[i + 1]), 2)] else [])
  }

  /** Month, day and the index where the match ended. */
  datatype MonthDay = MonthDay(month: nat, day: nat, end: nat)

  /**
   * The regular expression's search after `YYYY-`: the first month alternative
   * that is followed by `-` and a day, with that day's first alternative.
   */
  function MatchMonthDay(s: string, months: seq<Piece>): (r: Option<MonthDay>)
    requires forall k :: 0 <= k < |months| ==> 1 <= months[k].value <= 12 && 1 <= months[k].len <= 2
    ensures r.Some? ==> 1 <= r.value.month <= 12 && 1 <= r.value.day <= 31 && 8 <= r.value.end <= |s|
    decreases |months|
  {
    if months == [] then None
    else
      var j := 5 + months[0].len;
      if j < |s| && s[j] == '-' && |DayAlternatives(s, j + 1)| > 0 then
        var d := DayAlternatives(s, j + 1)[0];
        Some(MonthDay(months[0].value, d.value, j + 1 + d.len))
      else
        MatchMonthDay(s, months[1..])
  }

  /**
   * `datetime.strptime(s, '%Y-%m-%d')`: `None` where it raises `ValueError`
   * (no match, unconverted data left over, year 0, or a day past the end of
   * the month).
   */
  function ParseDate(s: string): (r: Option<Date>)
    ensures r.Some? ==> ValidDate(r.value)
    ensures r.Some? ==> |s| >= 8 && AllDigits(s[..4]) && s[4] == '-' && r.value.year == DigitsValue(s[..4])
  {
    if |s| < 5 || !AllDigits(s[..4]) || s[4] != '-' then None
    else
      var year := DigitsValue(s[..4]);
      match MatchMonthDay(s, MonthAlternatives(s, 5))
      case None => None
      case Some(md) =>
        if md.end != |s| then None
        else if year < 1 || md.day > DaysInMonth(year, md.month) then None
        else Some(Date(year, md.month, md.day))
  }

  // ---------------------------------------------------------------------------
  // date.strftime('%A, %B %d, %Y')

  const WeekdayNames: seq<string> := ["Monday", "Tuesday", "Wednesday", "Thursday", "Friday", "Saturday", "Sunday"]

  const MonthNames: seq<string> := ["January", "February", "March", "April", "May", "June", "July",
                                     "August", "September", "October", "November", "December"]

  /** `%A, %B %d, %Y`: full weekday name, full month name, two-digit day, year. */
  function LongDate(d: Date): (s: string)
    requires ValidDate(d)
    ensures |s| > 0 && 'A' <= s[0] <= 'Z'
  {
    WeekdayNames[PyWeekday(DayNumber(d))] + ", " + MonthNames[d.month - 1] + " " +
    Digits(d.day, 2) + ", " + Decimal(d.year)
  }

  /** `format_date`: the long form of a date string, or the value itself when it cannot be read as a date. */
  function FormatDate(v: Json): (r: Json)
    ensures v.JStr? && ParseDate(v.s).Some? ==> r == JStr(LongDate(ParseDate(v.s).value))
  {
    match v
    case JStr(s) =>
      (match ParseDate(s)
       case Some(d) => JStr(LongDate(d))
       case None => v)
    case _ => v
  }

  /** `format_date` returns its input unchanged exactly when the input is not a `YYYY-MM-DD` date string. */
  lemma FormatDateUnchanged(v: Json)
    ensures FormatDate(v) == v <==> !(v.JStr? && ParseDate(v.s).Some?)
  {
    if v.JStr? && ParseDate(v.s).Some? {
      assert IsDigit(v.s[..4][0]);
    }
  }

  // ---------------------------------------------------------------------------
  // The dates the booking form offers

  lemma TwoDigitChars(n: nat)
    requires n < 100
    ensures Digits(n, 2) == [DigitChar(n / 10), DigitChar(n % 10)]
  {
    var tens := n / 10;
    assert tens < 10 && tens % 10 == tens && tens / 10 == 0;
    assert Digits(tens, 1) == Digits(0, 0) + [DigitChar(tens)];
    assert Digits(n, 2) == Digits(tens, 1) + [DigitChar(n % 10)];
  }

  /** The month group of an ISO date string matches the month, as two characters. */
  lemma MonthOfIsoDate(s: string, m: nat)
    requires 1 <= m <= 12 && |s| >= 8 && s[5..7] == Digits(m, 2) && s[7] == '-'
    ensures MonthAlternatives(s, 5)[0] == Piece(m, 2)
  {
    TwoDigitChars(m);
    assert s[5] == DigitChar(m / 10) && s[6] == DigitChar(m % 10);
    CharValueOfDigit(m / 10);
    CharValueOfDigit(m % 10);
  }

  /** The day group of an ISO date string matches the whole two-digit day first. */
  lemma DayOfIsoDate(s: string, d: nat)
    requires 1 <= d <= 31 && |s| == 10 && s[8..] == Digits(d, 2)
    ensures |DayAlternatives(s, 8)| > 0 && DayAlternatives(s, 8)[0] == Piece(d, 2)
  {
    TwoDigitChars(d);
    assert s[8] == DigitChar(d / 10) && s[9] == DigitChar(d % 10);
    CharValueOfDigit(d / 10);
    CharValueOfDigit(d % 10);
  }

  /**
   * The service reads the date strings the booking form offers back as the
   * days they were made from.
   */
  lemma ParseIsoDate(n: nat)
    requires n <= JsMaxDay && FromDayNumber(n).year <= 9999
    ensures ParseDate(IsoDate(n)) == Some(FromDayNumber(n))
  {
    var d := FromDayNumber(n);
    FromDayNumberSpec(n);
    var s := IsoDate(n);
    IsoDateShape(n);
    DashedParts(Digits(d.year, 4), Digits(d.month, 2), Digits(d.day, 2));
    assert s[..4] == Digits(d.year, 4) && s[5..7] == Digits(d.month, 2) && s[8..] == Digits(d.day, 2);
    MonthOfIsoDate(s, d.month);
    DayOfIsoDate(s, d.day);
    assert MatchMonthDay(s, MonthAlternatives(s, 5)) == Some(MonthDay(d.month, d.day, 10));
  }

  /** A day the browser does not count as Sunday is not named Sunday by Python either. */
  lemma OpenDayNotSunday(n: nat)
    requires JsWeekday(n) != 0
    ensures WeekdayNames[PyWeekday(n)] != "Sunday"
  {
    SundayAgrees(n);
    assert PyWeekday(n) < 6;
  }

  /**
   * A date the booking form offers is sent in the confirmation as its long
   * form, and that long form never names a Sunday: the browser's Sunday and
   * Python's Sunday are the same day.
   */
  lemma OfferedDateFormatting(today: nat, i: nat)
    requires today + 14 <= JsMaxDay && i < |BookingOptions.AvailableDays(today)|
    requires FromDayNumber(BookingOptions.AvailableDays(today)[i]).year <= 9999
    ensures var n := BookingOptions.AvailableDays(today)[i];
      ValidDate(FromDayNumber(n)) &&
      FormatDate(JStr(BookingOptions.AvailableDates(today)[i])) == JStr(LongDate(FromDayNumber(n))) &&
      WeekdayNames[PyWeekday(n)] != "Sunday"
  {
    var n := BookingOptions.AvailableDays(today)[i];
    BookingOptions.AvailableDatesSpec(today);
    assert BookingOptions.AvailableDates(today)[i] == IsoDate(n);
    BookingOptions.AvailableDaysSpec(today);
    assert n in BookingOptions.AvailableDays(today);
    ParseIsoDate(n);
    FromDayNumberSpec(n);
    OpenDayNotSunday(n);
  }

  // ---------------------------------------------------------------------------
  // Messages and the transport

  const SenderEmail: string := "info@ddarchitecture.com"
  const CompanyEmail: string := "info@ddarchitecture.com"
  const BookingSender: string := "DD Architecture <" + SenderEmail + ">"
  const WebsiteSender: string := "DD Architecture Website <" + SenderEmail + ">"
  const BookingSubject: string := "Your Architectural Consultation Booking Confirmation"
  const ContactSubjectPrefix: string := "New Contact Form Submission: "
  const AutoReplySubject: string := "Thank you for contacting DD Architecture"

  /** A subject line: fixed text, or a prefix followed by `str()` of a value. */
  datatype Subject = Fixed(text: string) | Prefixed(prefix: string, value: Json)

  /** An email: sender, recipient (whatever value was assigned to `To`), subject, and the values shown in its body. */
  datatype Message = Message(sender: string, to: Json, subject: Subject, shows: seq<Json>)

  /** What the SMTP exchange did with a message. */
  datatype Delivery = Delivered | Failed(error: string)

  /** The `{"success": ..., "message": ...}` dictionary the senders return. */
  datatype SendResult = SendResult(success: bool, message: string)

  /** The senders' result together with the messages handed to the transport, in order. */
  datatype Outcome = Outcome(result: SendResult, attempted: seq<Message>)

  /** `data.get(key, '')`. */
  function Get(f: map<string, Json>, key: string): (v: Json)
    ensures key !in f ==> v == JStr("")
    ensures key in f ==> v == f[key]
  {
    if key in f then f[key] else JStr("")
  }

  /** The error text Python gives for calling a missing method on a value. */
  function NoAttribute(v: Json, attr: string): string {
    "'" + PyTypeName(v) + "' object has no attribute '" + attr + "'"
  }

  /** The confirmation for a booking dictionary. */
  function BookingMessage(f: map<string, Json>): Message {
    Message(BookingSender, Get(f, "email"), Fixed(BookingSubject),
            [Get(f, "name"), FormatDate(Get(f, "date")), Get(f, "time"), Get(f, "projectType")])
  }

  /** The notification to the company for a contact dictionary. */
  function NotificationMessage(f: map<string, Json>): Message {
    Message(WebsiteSender, JStr(CompanyEmail), Prefixed(ContactSubjectPrefix, Get(f, "subject")),
            [Get(f, "name"), Get(f, "email"), Get(f, "subject"), Get(f, "message")])
  }

  /** The auto-reply to the person who wrote. */
  function AutoReplyMessage(f: map<string, Json>): Message {
    Message(BookingSender, Get(f, "email"), Fixed(AutoReplySubject), [Get(f, "name"), Get(f, "subject")])
  }

  /**
   * `send_booking_confirmation`: never raises. A value that is not a
   * dictionary, or a project type that is not a string (it is lower-cased for
   * the body), fails before anything is sent; otherwise exactly one message
   * goes to the booking's email address and the result reports its delivery.
   */
  function SendBookingConfirmation(data: Json, send: Message -> Delivery): (o: Outcome)
    ensures o.result.success <==>
      data.JObj? && Get(data.fields, "projectType").JStr? && send(BookingMessage(data.fields)) == Delivered
    ensures o.result.success ==> o.result.message == "Booking confirmation email sent successfully"
    ensures |o.attempted| <= 1
    ensures |o.attempted| == 1 <==> data.JObj? && Get(data.fields, "projectType").JStr?
    ensures |o.attempted| == 1 ==>
      o.attempted[0].to == Get(data.fields, "email") && o.attempted[0].subject == Fixed(BookingSubject)
    ensures !o.result.success ==> StartsWith(o.result.message, "Failed to send booking confirmation email: ")
  {
    var failure := "Failed to send booking confirmation email: ";
    match data
    case JObj(f) =>
      var projectType := Get(f, "projectType");
      if !projectType.JStr? then
        Outcome(SendResult(false, failure + NoAttribute(projectType, "lower")), [])
      else
        var msg := BookingMessage(f);
        (match send(msg)
         case Delivered => Outcome(SendResult(true, "Booking confirmation email sent successfully"), [msg])
         case Failed(e) => Outcome(SendResult(false, failure + e), [msg]))
    case _ => Outcome(SendResult(false, failure + NoAttribute(data, "get")), [])
  }

  /**
   * `send_contact_notification`: never raises. The notification goes to the
   * company first; only once it is delivered is the auto-reply sent to the
   * person who wrote, and success means both were delivered.
   */
  function SendContactNotification(data: Json, send: Message -> Delivery): (o: Outcome)
    ensures o.result.success <==>
      data.JObj? && send(NotificationMessage(data.fields)) == Delivered && send(AutoReplyMessage(data.fields)) == Delivered
    ensures o.result.success ==> o.result.message == "Contact notification emails sent successfully"
    ensures data.JObj? ==> |o.attempted| >= 1 && o.attempted[0] == NotificationMessage(data.fields)
    ensures data.JObj? ==> (o.attempted[0].to == JStr(CompanyEmail) &&
                            o.attempted[0].subject == Prefixed(ContactSubjectPrefix, Get(data.fields, "subject")))
    ensures |o.attempted| == 2 <==> data.JObj? && send(NotificationMessage(data.fields)) == Delivered
    ensures |o.attempted| == 2 ==> o.attempted[1].to == Get(data.fields, "email") && o.attempted[1].subject == Fixed(AutoReplySubject)
    ensures !data.JObj? ==> o.attempted == []
    ensures !o.result.success ==> StartsWith(o.result.message, "Failed to send contact notification email: ")
  {
    var failure := "Failed to send contact notification email: ";
    match data
    case JObj(f) =>
      var notice := NotificationMessage(f);
      (match send(notice)
       case Failed(e) => Outcome(SendResult(false, failure + e), [notice])
       case Delivered =>
         var reply := AutoReplyMessage(f);
         (match send(reply)
          case Failed(e) => Outcome(SendResult(false, failure + e), [notice, reply])
          case Delivered => Outcome(SendResult(true, "Contact notification emails sent successfully"), [notice, reply])))
    case _ => Outcome(SendResult(false, failure + NoAttribute(data, "get")), [])
  }

  /** Keys the booking data lacks are sent as empty strings: no email address means an empty recipient. */
  lemma MissingKeysAreEmpty(f: map<string, Json>, send: Message -> Delivery)
    requires "email" !in f && "projectType" in f && f["projectType"].JStr?
    ensures SendBookingConfirmation(JObj(f), send).attempted[0].to == JStr("")
  {
  }

  // ---------------------------------------------------------------------------
  // handle_request

  /**
   * `handle_request`: a string is JSON-parsed first (`loads` stands for
   * `json.loads`, failing with the error text), then "booking" and "contact"
   * go to their senders and any other type is refused.
   */
  function HandleRequest(requestType: string, data: Json, loads: string -> Result<Json, string>,
                         send: Message -> Delivery): (r: SendResult)
    ensures data.JStr? && loads(data.s).Err? ==> r == SendResult(false, "Error processing request: " + loads(data.s).error)
  {
    var parsed := if data.JStr? then loads(data.s) else Ok(data);
    match parsed
    case Err(e) => SendResult(false, "Error processing request: " + e)
    case Ok(d) =>
      if requestType == "booking" then SendBookingConfirmation(d, send).result
      else if requestType == "contact" then SendContactNotification(d, send).result
      else SendResult(false, "Unknown request type: " + requestType)
  }

  /** Dispatch by type, once the data is parsed. */
  lemma HandleRequestDispatch(requestType: string, data: Json, loads: string -> Result<Json, string>,
                              send: Message -> Delivery)
    requires !data.JStr?
    ensures requestType == "booking" ==> HandleRequest(requestType, data, loads, send) == SendBookingConfirmation(data, send).result
    ensures requestType == "contact" ==> HandleRequest(requestType, data, loads, send) == SendContactNotification(data, send).result
    ensures requestType != "booking" && requestType != "contact" ==>
      HandleRequest(requestType, data, loads, send) == SendResult(false, "Unknown request type: " + requestType)
  {
  }

  /** A string that parses is handled as the value it parses to. */
  lemma HandleRequestParsesFirst(requestType: string, s: string, loads: string -> Result<Json, string>,
                                 send: Message -> Delivery)
    requires loads(s).Ok? && !loads(s).value.JStr?
    ensures HandleRequest(requestType, JStr(s), loads, send) == HandleRequest(requestType, loads(s).value, loads, send)
  {
  }
}
