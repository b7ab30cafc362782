/**
 * The validation schemas shared by the server and the browser.
 *
 * The insert schemas are what the server parses request bodies with: they
 * demand a string for every NOT NULL text column, accept a missing or null
 * `message` for a booking, drop unknown keys (so `id` and `createdAt` can
 * never be supplied by a client), and report every failing field, in column
 * order. The form schemas extend them with minimum lengths, an email check
 * and, for bookings, `terms === true`.
 *
 * The email check is a parameter: any predicate on strings.
 */
module Schema {
  import opened Common
  import opened JsonData

  /** One zod issue: the field it is about (`""` for the whole body) and its message. */
  datatype Issue = Issue(path: string, message: string)

  /** A nullable, optional text column: missing, null, or a string. */
  datatype OptionalText = Absent | Null | Text(s: string)

  /** The body of a booking after parsing, without `id` and `createdAt`. */
  datatype InsertBooking = InsertBooking(
    name: string, email: string, phone: string, projectType: string,
    date: string, time: string, message: OptionalText)

  /** The body of a contact message after parsing, without `id` and `createdAt`. */
  datatype InsertContact = InsertContact(name: string, email: string, subject: string, message: string)

  /** The keys of the booking schema, in column order. */
  const BookingShape: seq<string> := ["name", "email", "phone", "projectType", "date", "time", "message"]

  /** The keys of the contact schema, in column order. */
  const ContactShape: seq<string> := ["name", "email", "subject", "message"]

  /** The issue list of a single field check. */
  function IssuesOf<T>(r: Result<T, Issue>): (issues: seq<Issue>)
    ensures |issues| <= 1 && (issues == [] <==> r.Ok?)
  {
    if r.Ok? then [] else [r.error]
  }

  /** The paths of a list of issues. */
  function Paths(issues: seq<Issue>): (paths: seq<string>)
    ensures |paths| == |issues|
    ensures forall i :: 0 <= i < |issues| ==> paths[i] == issues[i].path
  {
    Map(issues, (i: Issue) => i.path)
  }

  /** `z.string()`, with the extra length check `min` and its message (no check when `min == 0`). */
  function StringField(fields: map<string, Json>, key: string, min: nat, tooShort: string): (r: Result<string, Issue>)
    ensures r.Ok? <==> key in fields && fields[key].JStr? && |fields[key].s| >= min
    ensures r.Ok? ==> r.value == fields[key].s
    ensures r.Err? ==> r.error.path == key
  {
    if key !in fields then Err(Issue(key, "Required"))
    else match fields[key]
      case JStr(s) => if |s| < min then Err(Issue(key, tooShort)) else Ok(s)
      case v => Err(Issue(key, "Expected string, received " + ZodTypeName(v)))
  }

  /** `z.string().email(...)`: a string that the email check accepts. */
  function EmailField(fields: map<string, Json>, key: string, validEmail: string -> bool): (r: Result<string, Issue>)
    ensures r.Ok? <==> key in fields && fields[key].JStr? && validEmail(fields[key].s)
    ensures r.Ok? ==> r.value == fields[key].s
    ensures r.Err? ==> r.error.path == key
  {
    match StringField(fields, key, 0, "")
    case Err(e) => Err(e)
    case Ok(s) => if validEmail(s) then Ok(s) else Err(Issue(key, "Please enter a valid email address"))
  }

  /** A nullable text column as the insert schema reads it: missing, null or a string. */
  function NullableText(fields: map<string, Json>, key: string): (r: Result<OptionalText, Issue>)
    ensures r.Ok? <==> key !in fields || fields[key].JNull? || fields[key].JStr?
    ensures r == Ok(Absent) <==> key !in fields
    ensures r == Ok(Null) <==> key in fields && fields[key].JNull?
    ensures r.Ok? && r.value.Text? <==> key in fields && fields[key].JStr?
    ensures r.Ok? && r.value.Text? ==> r.value.s == fields[key].s
    ensures r.Err? ==> r.error.path == key
  {
    if key !in fields then Ok(Absent)
    else match fields[key]
      case JNull => Ok(Null)
      case JStr(s) => Ok(Text(s))
      case v => Err(Issue(key, "Expected string, received " + ZodTypeName(v)))
  }

  /** `z.string().optional()`: missing or a string, but not null. */
  function OptionalString(fields: map<string, Json>, key: string): (r: Result<OptionalText, Issue>)
    ensures r.Ok? <==> key !in fields || fields[key].JStr?
    ensures r == Ok(Absent) <==> key !in fields
    ensures r.Ok? && r.value.Text? <==> key in fields && fields[key].JStr?
    ensures r.Ok? && r.value.Text? ==> r.value.s == fields[key].s
    ensures r.Err? ==> r.error.path == key
  {
    if key !in fields then Ok(Absent)
    else match fields[key]
      case JStr(s) => Ok(Text(s))
      case v => Err(Issue(key, "Expected string, received " + ZodTypeName(v)))
  }

  /** The issue zod reports for a body that is not an object. */
  function NotAnObject(body: Json): Issue {
    Issue("", "Expected object, received " + ZodTypeName(body))
  }

  /** `insertBookingSchema.parse`. */
  function ParseInsertBooking(body: Json): (r: Result<InsertBooking, seq<Issue>>)
    ensures r.Err? ==> |r.error| >= 1
  {
    match body
    case JObj(f) =>
      var name, email, phone := StringField(f, "name", 0, ""), StringField(f, "email", 0, ""), StringField(f, "phone", 0, "");
      var projectType, date, time := StringField(f, "projectType", 0, ""), StringField(f, "date", 0, ""), StringField(f, "time", 0, "");
      var message := NullableText(f, "message");
      if name.Ok? && email.Ok? && phone.Ok? && projectType.Ok? && date.Ok? && time.Ok? && message.Ok? then
        Ok(InsertBooking(name.value, email.value, phone.value, projectType.value, date.value, time.value, message.value))
      else
        Err(IssuesOf(name) + IssuesOf(email) + IssuesOf(phone) + IssuesOf(projectType) +
            IssuesOf(date) + IssuesOf(time) + IssuesOf(message))
    case _ => Err([NotAnObject(body)])
  }

  /** `insertContactSchema.parse`. */
  function ParseInsertContact(body: Json): (r: Result<InsertContact, seq<Issue>>)
    ensures r.Err? ==> |r.error| >= 1
  {
    match body
    case JObj(f) =>
      var name, email := StringField(f, "name", 0, ""), StringField(f, "email", 0, "");
      var subject, message := StringField(f, "subject", 0, ""), StringField(f, "message", 0, "");
      if name.Ok? && email.Ok? && subject.Ok? && message.Ok? then
        Ok(InsertContact(name.value, email.value, subject.value, message.value))
      else
        Err(IssuesOf(name) + IssuesOf(email) + IssuesOf(subject) + IssuesOf(message))
    case _ => Err([NotAnObject(body)])
  }

  /** `bookingFormSchema.parse`; the result is the booking with `terms` dropped. */
  function ParseBookingForm(body: Json, validEmail: string -> bool): (r: Result<InsertBooking, seq<Issue>>)
    ensures r.Err? ==> |r.error| >= 1
  {
    match body
    case JObj(f) =>
      var name := StringField(f, "name", 2, "Name must be at least 2 characters");
      var email := EmailField(f, "email", validEmail);
      var phone := StringField(f, "phone", 10, "Please enter a valid phone number");
      var projectType := StringField(f, "projectType", 1, "Please select a project type");
      var date := StringField(f, "date", 1, "Please select a date");
      var time := StringField(f, "time", 1, "Please select a time");
      var message := OptionalString(f, "message");
      var terms: Result<bool, Issue> :=
        if "terms" in f && f["terms"] == JBool(true) then Ok(true)
        else Err(Issue("terms", "You must accept the terms and conditions"));
      if name.Ok? && email.Ok? && phone.Ok? && projectType.Ok? && date.Ok? && time.Ok? && message.Ok? && terms.Ok? then
        Ok(InsertBooking(name.value, email.value, phone.value, projectType.value, date.value, time.value, message.value))
      else
        Err(IssuesOf(name) + IssuesOf(email) + IssuesOf(phone) + IssuesOf(projectType) +
            IssuesOf(date) + IssuesOf(time) + IssuesOf(message) + IssuesOf(terms))
    case _ => Err([NotAnObject(body)])
  }

  /** `contactFormSchema.parse`. */
  function ParseContactForm(body: Json, validEmail: string -> bool): (r: Result<InsertContact, seq<Issue>>)
    ensures r.Err? ==> |r.error| >= 1
  {
    match body
    case JObj(f) =>
      var name := StringField(f, "name", 2, "Name must be at least 2 characters");
      var email := EmailField(f, "email", validEmail);
      var subject := StringField(f, "subject", 2, "Subject must be at least 2 characters");
      var message := StringField(f, "message", 10, "Message must be at least 10 characters");
      if name.Ok? && email.Ok? && subject.Ok? && message.Ok? then
        Ok(InsertContact(name.value, email.value, subject.value, message.value))
      else
        Err(IssuesOf(name) + IssuesOf(email) + IssuesOf(subject) + IssuesOf(message))
    case _ => Err([NotAnObject(body)])
  }

  // ---------------------------------------------------------------------------
  // What the schemas accept

  /** A present string value. */
  predicate HasString(f: map<string, Json>, key: string) {
    key in f && f[key].JStr?
  }

  /** What the booking insert schema demands of a body. */
  predicate BookingInsertable(body: Json) {
    body.JObj? &&
    HasString(body.fields, "name") && HasString(body.fields, "email") && HasString(body.fields, "phone") &&
    HasString(body.fields, "projectType") && HasString(body.fields, "date") && HasString(body.fields, "time") &&
    ("message" in body.fields ==> body.fields["message"].JStr? || body.fields["message"].JNull?)
  }

  /**
   * The booking insert schema accepts exactly the objects with the six NOT NULL
   * columns as strings and a `message` that is missing, null or a string; the
   * record it returns copies those values and nothing else.
   */
  lemma InsertBookingAccepts(body: Json)
    ensures ParseInsertBooking(body).Ok? <==> BookingInsertable(body)
    ensures ParseInsertBooking(body).Ok? ==>
      var b, f := ParseInsertBooking(body).value, body.fields;
      b.name == f["name"].s && b.email == f["email"].s && b.phone == f["phone"].s &&
      b.projectType == f["projectType"].s && b.date == f["date"].s && b.time == f["time"].s &&
      (b.message == Absent <==> "message" !in f) &&
      (b.message == Null <==> "message" in f && f["message"].JNull?) &&
      (b.message.Text? ==> f["message"] == JStr(b.message.s))
  {
    if body.JObj? {
      var f := body.fields;
      var _ := NullableText(f, "message");
    }
  }

  /** The contact insert schema accepts exactly the objects whose four columns are strings. */
  lemma InsertContactAccepts(body: Json)
    ensures ParseInsertContact(body).Ok? <==>
      body.JObj? && HasString(body.fields, "name") && HasString(body.fields, "email") &&
      HasString(body.fields, "subject") && HasString(body.fields, "message")
    ensures ParseInsertContact(body).Ok? ==>
      var c, f := ParseInsertContact(body).value, body.fields;
      c == InsertContact(f["name"].s, f["email"].s, f["subject"].s, f["message"].s)
  {
  }

  /** Whether a booking field fails the insert schema. */
  predicate BookingFieldFails(f: map<string, Json>, key: string) {
    if key == "message" then key in f && !f[key].JStr? && !f[key].JNull? else !HasString(f, key)
  }

  lemma PathsAppend(a: seq<Issue>, b: seq<Issue>)
    ensures Paths(a + b) == Paths(a) + Paths(b)
  {
  }

  /** A single field check contributes its key exactly when it fails. */
  lemma FieldPaths<T>(r: Result<T, Issue>, key: string, fails: string -> bool)
    requires r.Err? <==> fails(key)
    requires r.Err? ==> r.error.path == key
    ensures Paths(IssuesOf(r)) == Filter([key], fails)
  {
    assert [key][1..] == [];
  }

  /** A required string field of the booking contributes its key exactly when it fails. */
  lemma BookingFieldPaths(f: map<string, Json>, key: string)
    requires key != "message"
    ensures Paths(IssuesOf(StringField(f, key, 0, ""))) == Filter([key], k => BookingFieldFails(f, k))
  {
    FieldPaths(StringField(f, key, 0, ""), key, k => BookingFieldFails(f, k));
  }

  /** Filtering the booking shape is filtering each key in turn. */
  lemma FilterBookingShape(p: string -> bool)
    ensures Filter(BookingShape, p) ==
      Filter(["name"], p) + Filter(["email"], p) + Filter(["phone"], p) + Filter(["projectType"], p) +
      Filter(["date"], p) + Filter(["time"], p) + Filter(["message"], p)
  {
    var k1, k2, k3, k4, k5, k6, k7 := ["name"], ["email"], ["phone"], ["projectType"], ["date"], ["time"], ["message"];
    assert BookingShape == k1 + k2 + k3 + k4 + k5 + k6 + k7;
    FilterAppend(k1 + k2 + k3 + k4 + k5 + k6, k7, p);
    FilterAppend(k1 + k2 + k3 + k4 + k5, k6, p);
    FilterAppend(k1 + k2 + k3 + k4, k5, p);
    FilterAppend(k1 + k2 + k3, k4, p);
    FilterAppend(k1 + k2, k3, p);
    FilterAppend(k1, k2, p);
  }

  lemma PathsOfSeven(i1: seq<Issue>, i2: seq<Issue>, i3: seq<Issue>, i4: seq<Issue>, i5: seq<Issue>, i6: seq<Issue>, i7: seq<Issue>)
    ensures Paths(i1 + i2 + i3 + i4 + i5 + i6 + i7) ==
      Paths(i1) + Paths(i2) + Paths(i3) + Paths(i4) + Paths(i5) + Paths(i6) + Paths(i7)
  {
    PathsAppend(i1 + i2 + i3 + i4 + i5 + i6, i7);
    PathsAppend(i1 + i2 + i3 + i4 + i5, i6);
    PathsAppend(i1 + i2 + i3 + i4, i5);
    PathsAppend(i1 + i2 + i3, i4);
    PathsAppend(i1 + i2, i3);
    PathsAppend(i1, i2);
  }

  /** The issues of a rejected booking object are those of its field checks, in column order. */
  lemma BookingIssueList(f: map<string, Json>)
    requires ParseInsertBooking(JObj(f)).Err?
    ensures ParseInsertBooking(JObj(f)).error ==
      IssuesOf(StringField(f, "name", 0, "")) + IssuesOf(StringField(f, "email", 0, "")) +
      IssuesOf(StringField(f, "phone", 0, "")) + IssuesOf(StringField(f, "projectType", 0, "")) +
      IssuesOf(StringField(f, "date", 0, "")) + IssuesOf(StringField(f, "time", 0, "")) +
      IssuesOf(NullableText(f, "message"))
  {
  }

  /**
   * A rejected booking object gets one issue per failing field, in column
   * order.
   */
  lemma InsertBookingIssues(f: map<string, Json>)
    requires ParseInsertBooking(JObj(f)).Err?
    ensures Paths(ParseInsertBooking(JObj(f)).error) == Filter(BookingShape, k => BookingFieldFails(f, k))
  {
    var p := k => BookingFieldFails(f, k);
    var name, email, phone := StringField(f, "name", 0, ""), StringField(f, "email", 0, ""), StringField(f, "phone", 0, "");
    var projectType, date, time := StringField(f, "projectType", 0, ""), StringField(f, "date", 0, ""), StringField(f, "time", 0, "");
    var message := NullableText(f, "message");
    BookingFieldPaths(f, "name");
    BookingFieldPaths(f, "email");
    BookingFieldPaths(f, "phone");
    BookingFieldPaths(f, "projectType");
    BookingFieldPaths(f, "date");
    BookingFieldPaths(f, "time");
    FieldPaths(message, "message", p);
    PathsOfSeven(IssuesOf(name), IssuesOf(email), IssuesOf(phone), IssuesOf(projectType), IssuesOf(date), IssuesOf(time), IssuesOf(message));
    FilterBookingShape(p);
    BookingIssueList(f);
  }

  /** A missing required field is reported as "Required". */
  lemma InsertBookingRequired(f: map<string, Json>, k: string)
    requires k in BookingShape && k != "message" && k !in f
    ensures ParseInsertBooking(JObj(f)).Err?
    ensures Issue(k, "Required") in ParseInsertBooking(JObj(f)).error
  {
    var name, email, phone := StringField(f, "name", 0, ""), StringField(f, "email", 0, ""), StringField(f, "phone", 0, "");
    var projectType, date, time := StringField(f, "projectType", 0, ""), StringField(f, "date", 0, ""), StringField(f, "time", 0, "");
    var message := NullableText(f, "message");
    var i1, i2, i3, i4 := IssuesOf(name), IssuesOf(email), IssuesOf(phone), IssuesOf(projectType);
    var i5, i6, i7 := IssuesOf(date), IssuesOf(time), IssuesOf(message);
    var issues := ParseInsertBooking(JObj(f)).error;
    BookingIssueList(f);
    {
      if k == "name" { assert i1 == [Issue(k, "Required")]; }
      else if k == "email" { assert i2 == [Issue(k, "Required")]; }
      else if k == "phone" { assert i3 == [Issue(k, "Required")]; }
      else if k == "projectType" { assert i4 == [Issue(k, "Required")]; }
      else if k == "date" { assert i5 == [Issue(k, "Required")]; }
      else { assert i6 == [Issue(k, "Required")]; }
    }
  }

  // ---------------------------------------------------------------------------
  // The form schemas

  /**
   * The booking form accepts exactly the objects whose name has at least 2
   * characters, whose email passes the email check, whose phone has at least
   * 10 characters, whose project type, date and time are non-empty, whose
   * message is missing or a string, and whose `terms` is `true`.
   */
  lemma BookingFormAccepts(body: Json, validEmail: string -> bool)
    ensures ParseBookingForm(body, validEmail).Ok? <==>
      body.JObj? && var f := body.fields;
      HasString(f, "name") && |f["name"].s| >= 2 &&
      HasString(f, "email") && validEmail(f["email"].s) &&
      HasString(f, "phone") && |f["phone"].s| >= 10 &&
      HasString(f, "projectType") && |f["projectType"].s| >= 1 &&
      HasString(f, "date") && |f["date"].s| >= 1 &&
      HasString(f, "time") && |f["time"].s| >= 1 &&
      ("message" in f ==> f["message"].JStr?) &&
      "terms" in f && f["terms"] == JBool(true)
  {
  }

  /** `terms` that is missing or anything but `true` rejects the booking form, with the terms message. */
  lemma BookingFormNeedsTerms(f: map<string, Json>, validEmail: string -> bool)
    requires "terms" !in f || f["terms"] != JBool(true)
    ensures ParseBookingForm(JObj(f), validEmail).Err?
    ensures Issue("terms", "You must accept the terms and conditions") in ParseBookingForm(JObj(f), validEmail).error
  {
    var issues := ParseBookingForm(JObj(f), validEmail).error;
    assert issues[|issues| - 1] == Issue("terms", "You must accept the terms and conditions");
  }

  /**
   * The contact form accepts exactly the objects whose name and subject have at
   * least 2 characters, whose email passes the email check and whose message
   * has at least 10 characters.
   */
  lemma ContactFormAccepts(body: Json, validEmail: string -> bool)
    ensures ParseContactForm(body, validEmail).Ok? <==>
      body.JObj? && var f := body.fields;
      HasString(f, "name") && |f["name"].s| >= 2 &&
      HasString(f, "email") && validEmail(f["email"].s) &&
      HasString(f, "subject") && |f["subject"].s| >= 2 &&
      HasString(f, "message") && |f["message"].s| >= 10
  {
  }

  /** A message of 9 characters is rejected with the length message; one of 10 passes that check. */
  lemma ContactMessageBoundary(f: map<string, Json>, validEmail: string -> bool)
    requires "message" in f && f["message"].JStr?
    ensures |f["message"].s| == 9 ==>
      Issue("message", "Message must be at least 10 characters") in ParseContactForm(JObj(f), validEmail).error
    ensures |f["message"].s| == 10 && ParseContactForm(JObj(f), validEmail).Err? ==>
      "message" !in Paths(ParseContactForm(JObj(f), validEmail).error)
  {
    var r := ParseContactForm(JObj(f), validEmail);
    if |f["message"].s| == 9 {
      assert r.error[|r.error| - 1] == Issue("message", "Message must be at least 10 characters");
    } else if |f["message"].s| == 10 && r.Err? {
      var paths := Paths(r.error);
      assert forall i :: 0 <= i < |paths| ==> paths[i] != "message";
    }
  }

  /** An email that fails the check rejects both forms, with the email message. */
  lemma FormsRejectBadEmail(f: map<string, Json>, validEmail: string -> bool)
    requires "email" in f && f["email"].JStr? && !validEmail(f["email"].s)
    ensures Issue("email", "Please enter a valid email address") in ParseBookingForm(JObj(f), validEmail).error
    ensures Issue("email", "Please enter a valid email address") in ParseContactForm(JObj(f), validEmail).error
  {
    var e := Issue("email", "Please enter a valid email address");
    var b := ParseBookingForm(JObj(f), validEmail).error;
    var name := StringField(f, "name", 2, "Name must be at least 2 characters");
    assert b[|IssuesOf(name)|] == e;
    var c := ParseContactForm(JObj(f), validEmail).error;
    assert c[|IssuesOf(name)|] == e;
  }

  /**
   * The booking form only extends the insert schema: a body the form accepts
   * is accepted by the insert schema too, with the same record.
   */
  lemma BookingFormRefinesInsert(body: Json, validEmail: string -> bool)
    requires ParseBookingForm(body, validEmail).Ok?
    ensures ParseInsertBooking(body) == Ok(ParseBookingForm(body, validEmail).value)
  {
    BookingFormAccepts(body, validEmail);
    InsertBookingAccepts(body);
  }

  /** A body the contact form accepts is accepted by the contact insert schema, with the same record. */
  lemma ContactFormRefinesInsert(body: Json, validEmail: string -> bool)
    requires ParseContactForm(body, validEmail).Ok?
    ensures ParseInsertContact(body) == Ok(ParseContactForm(body, validEmail).value)
  {
    ContactFormAccepts(body, validEmail);
    InsertContactAccepts(body);
  }

  /** The minimum lengths live only in the form: the server accepts an empty name that the form rejects. */
  lemma LengthsOnlyInForm(validEmail: string -> bool)
    ensures var body := JObj(map["name" := JStr(""), "email" := JStr("a@b.co"), "subject" := JStr(""), "message" := JStr("")]);
      ParseInsertContact(body).Ok? && ParseContactForm(body, validEmail).Err?
  {
    var body := JObj(map["name" := JStr(""), "email" := JStr("a@b.co"), "subject" := JStr(""), "message" := JStr("")]);
    ContactFormAccepts(body, validEmail);
  }

  // ---------------------------------------------------------------------------
  // Records back to JSON

  /** The JSON object of an insert booking: a missing message is left out, a null one is `null`. */
  function BookingFields(b: InsertBooking): map<string, Json> {
    var base := map["name" := JStr(b.name), "email" := JStr(b.email), "phone" := JStr(b.phone),
                    "projectType" := JStr(b.projectType), "date" := JStr(b.date), "time" := JStr(b.time)];
    match b.message
    case Absent => base
    case Null => base["message" := JNull]
    case Text(s) => base["message" := JStr(s)]
  }

  /** The JSON object of an insert contact. */
  function ContactFields(c: InsertContact): map<string, Json> {
    map["name" := JStr(c.name), "email" := JStr(c.email), "subject" := JStr(c.subject), "message" := JStr(c.message)]
  }

  /**
   * Sending a parsed booking back as JSON and parsing it again gives the same
   * booking: the form values with `terms` dropped are always accepted by the
   * insert schema.
   */
  lemma BookingJsonRoundTrip(b: InsertBooking)
    ensures ParseInsertBooking(JObj(BookingFields(b))) == Ok(b)
  {
    InsertBookingAccepts(JObj(BookingFields(b)));
  }

  /** Sending a parsed contact back as JSON and parsing it again gives the same contact. */
  lemma ContactJsonRoundTrip(c: InsertContact)
    ensures ParseInsertContact(JObj(ContactFields(c))) == Ok(c)
  {
  }

  /**
   * Extra keys are dropped: adding `id`, `createdAt` or any other unknown key
   * to a body does not change what the insert schema returns.
   */
  lemma UnknownKeysDropped(f: map<string, Json>, key: string, v: Json)
    requires key !in BookingShape && key !in ContactShape
    ensures ParseInsertBooking(JObj(f[key := v])) == ParseInsertBooking(JObj(f))
    ensures ParseInsertContact(JObj(f[key := v])) == ParseInsertContact(JObj(f))
  {
    assert key != "name" && key != "email" && key != "phone" && key != "projectType";
    assert key != "date" && key != "time" && key != "message" && key != "subject";
    OtherKeyIgnored(f, key, v, "name");
    OtherKeyIgnored(f, key, v, "email");
    OtherKeyIgnored(f, key, v, "phone");
    OtherKeyIgnored(f, key, v, "projectType");
    OtherKeyIgnored(f, key, v, "date");
    OtherKeyIgnored(f, key, v, "time");
    OtherKeyIgnored(f, key, v, "message");
    OtherKeyIgnored(f, key, v, "subject");
  }

  /** A field check reads only its own key. */
  lemma OtherKeyIgnored(f: map<string, Json>, key: string, v: Json, k: string)
    requires k != key
    ensures StringField(f[key := v], k, 0, "") == StringField(f, k, 0, "")
    ensures NullableText(f[key := v], k) == NullableText(f, k)
  {
  }
}
