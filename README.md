# DD Architecture website: a verified model of its core

The site of an architecture practice has three parts:

- **The web server.** It validates booking requests and contact messages with shared schemas and keeps them in an in-memory store. It then asks a separate email service to send the matching emails.
- **The email service.** It checks the required fields, formats the booking date for people and sends the messages over SMTP.
- **The browser pages.** They offer the bookable dates and time slots, and filter the portfolio, gallery and blog. They also drive an image carousel, an FAQ accordion and a lightbox.

This project models that core in Dafny and proves what each part promises. The model has these modules:

- `Common`, `Text`, `JsonData`: shared pieces. These are option and result types, `filter` and `map`, and the JavaScript and Python string built-ins the code uses. `JsonData` holds JSON values.
- `Calendar`: the proleptic Gregorian calendar over day numbers. It is shared by JavaScript's `Date` and Python's `datetime`.
- `BookingOptions`: the project types, the time slots and `getAvailableDates`.
- `Schema`: the insert schemas and form schemas.
- `Storage`: `MemStorage` as a class with maps and id counters.
- `EmailService`: the date formatting, the two senders and `handle_request` of the email service.
- `EmailApp`: the email service's HTTP endpoints.
- `Routes`: the web server's endpoints and email helpers. It also wires those helpers to `EmailApp`.
- `Projects`, `Faq`, `Gallery`, `Blog`: the page state of the four pages, each as a class, with the data tables and pure helpers the pages use.

Some inputs become parameters:

- **The clock.** "today" and the creation time `now` are parameters.
- **The SMTP transport.** It is a function `send` from a message to `Delivered` or `Failed(error)`.
- **An HTTP POST from the web server.** It is a function `post` from a URL and a JSON body to an answer or a connection error.
- **Zod's email check.** It is a predicate `validEmail`.

## Model

| member | source | states |
|---|---|---|
| Common.Filter | client/src/pages/projects.tsx:96-98 | `Array.prototype.filter`: the result is no longer than the input, and holds only input elements that satisfy the predicate |
| Common.FilterMembership | client/src/pages/projects.tsx:96-98 | an element is in the filtered list exactly when it is in the input and satisfies the predicate |
| Common.FilterAppend | client/src/pages/blog.tsx:143-147 | filtering distributes over concatenation, so kept elements keep their relative order |
| Common.FilterAll | client/src/pages/blog.tsx:143-147 | a filter that every element passes returns its input |
| Common.FilterNone | client/src/pages/blog.tsx:140-147 | a filter that no element passes returns the empty list |
| Common.Map | client/src/pages/gallery.tsx:62-76 | `Array.prototype.map`: same length, element `i` is `f` of input element `i` |
| Text.IndexOf | client/src/pages/blog.tsx:397-409 | the first index at which the pattern occurs, none before it; `None` exactly when it occurs nowhere |
| Text.ReplaceFirst | client/src/pages/blog.tsx:400 | `replace` with a string pattern: only the first occurrence is replaced, and a string without the pattern is unchanged |
| Text.ReplaceLeadingPrefix | client/src/pages/blog.tsx:400 | removing a prefix the string starts with leaves exactly the rest of the string |
| Text.Split | client/src/pages/blog.tsx:408 | `split` on one character: never an empty list, and no piece contains the separator |
| Text.JoinSplit | client/src/pages/blog.tsx:408 | joining the pieces of a split with the separator gives back the string |
| Text.SplitJoin | client/src/pages/blog.tsx:408 | splitting a join of separator-free pieces gives back the pieces |
| Text.Digits | client/src/lib/utils.ts:330 | zero-padded fixed-width decimal digits: exactly `width` digit characters |
| Text.DigitsRoundTrip | client/src/lib/utils.ts:330 | reading back fixed-width digits gives the number whenever it fits the width |
| Text.DigitsInjective | client/src/lib/utils.ts:330 | numbers that fit the width have distinct digit strings |
| Text.Decimal | python_services/email_service.py:47 | `%Y` and `str(n)`: at least one character, all decimal digits |
| Text.DecimalValue | python_services/email_service.py:47 | reading back a decimal representation gives the number |
| Calendar.DaysBeforeYearClosed | python_services/email_service.py:46-47 | the days before a year, counted year by year with 366 days in leap years, equal `365(y-1) + (y-1)/4 - (y-1)/100 + (y-1)/400` |
| Calendar.DateFromSpec | python_services/email_service.py:46-47 | the date found for day `n` is a valid calendar date whose day number is `n` |
| Calendar.DateFromUnique | python_services/email_service.py:46-47 | a valid date is the one found for its day number |
| Calendar.FromDayNumberSpec | client/src/lib/utils.ts:325-326 | the date of day `n` is a valid date whose day number is `n` |
| Calendar.DateRoundTrip | client/src/lib/utils.ts:325-330 | converting a valid date to its day number and back gives the date |
| Calendar.FromDayNumberInjective | client/src/lib/utils.ts:325-330 | distinct day numbers are distinct dates |
| Calendar.JsWeekday | client/src/lib/utils.ts:329 | `getDay()` is one of 0..6 |
| Calendar.PyWeekday | python_services/email_service.py:47 | `weekday()` is one of 0..6 |
| Calendar.SundayAgrees | client/src/lib/utils.ts:329 | JavaScript's Sunday (0) is Python's Sunday (6) on every day |
| Calendar.UnixEpochIsThursday | client/src/lib/utils.ts:325 | 1970-01-01 is the day number of the JavaScript epoch, and a Thursday |
| Calendar.JsYearBound | client/src/lib/utils.ts:330 | every day a JavaScript `Date` can hold lies in a year below 1,000,000 |
| Calendar.IsoYearShape | client/src/lib/utils.ts:330 | the year of `toISOString`: four digits up to 9999, else `+` and six digits |
| Calendar.IsoDateShape | client/src/lib/utils.ts:330 | up to year 9999 the ISO date is `YYYY-MM-DD`, and its three numbers are the year, month and day of the date |
| Calendar.IsoDateInjective | client/src/lib/utils.ts:330 | different days give different ISO date strings |
| BookingOptions.TimeSlotsAreOrderedClockTimes | client/src/lib/utils.ts:49-56 | every time-slot value is an `HH:MM` time, and the slots run from earliest to latest |
| BookingOptions.ProjectTypeValuesDistinct | client/src/lib/utils.ts:40-46 | no two project types share a value |
| BookingOptions.OpenDaysMembership | client/src/lib/utils.ts:324-329 | a day is offered exactly when it is among the `k` days after today and is not a Sunday |
| BookingOptions.OpenDaysIncreasing | client/src/lib/utils.ts:324-332 | the offered days strictly increase and lie after today |
| BookingOptions.OpenDaysCount | client/src/lib/utils.ts:324-329 | among the `k` days after today, the days offered are all but the Sundays, counted by `getDay` |
| BookingOptions.OpenDays | client/src/lib/utils.ts:324-332 | the days the loop keeps; specified by BookingOptions.OpenDaysMembership, BookingOptions.OpenDaysIncreasing and BookingOptions.OpenDaysCount |
| BookingOptions.AvailableDays | client/src/lib/utils.ts:320-336 | the fourteen-day window; specified by BookingOptions.AvailableDaysSpec and BookingOptions.TwelveAvailableDays |
| BookingOptions.Offered | client/src/lib/utils.ts:324-332 | the loop's output for a formatting function; specified by BookingOptions.OfferedMatch |
| BookingOptions.TwelveAvailableDays | client/src/lib/utils.ts:324-332 | twelve days are offered, whatever today is |
| BookingOptions.AvailableDaysSpec | client/src/lib/utils.ts:320-336 | the offered days are exactly the non-Sundays of the next 14 days, never today, increasing, twelve of them |
| BookingOptions.AvailableDates | client/src/lib/utils.ts:320-336 | one date string per offered day |
| BookingOptions.AvailableDatesSpec | client/src/lib/utils.ts:320-336 | the offered strings are, in order, the ISO dates of the offered days |
| BookingOptions.OfferedMatch | client/src/lib/utils.ts:324-332 | the loop's output is, position by position, the formatted offered days |
| BookingOptions.GetAvailableDates | client/src/lib/utils.ts:320-336 | the loop returns the ISO dates of the offered days, in order |
| BookingOptions.AvailableDatesDistinct | client/src/lib/utils.ts:320-336 | the offered dates are twelve distinct strings, and today's date is not one of them |
| JsonData.Member | server/routes.ts:56 | property access: present exactly for an object that has the key, with that key's value |
| Schema.StringField | shared/schema.ts:8-13 | `z.string()` with an optional minimum length accepts exactly a present string of that length, returns it, and reports errors under the field's key |
| Schema.EmailField | shared/schema.ts:42 | accepts exactly a present string that passes the email check |
| Schema.NullableText | shared/schema.ts:14 | a nullable optional column accepts missing, null or a string, and tells the three apart |
| Schema.OptionalString | shared/schema.ts:47 | `z.string().optional()` accepts missing or a string but not null |
| Schema.ParseInsertBooking | shared/schema.ts:29-32 | a rejected booking body has at least one issue |
| Schema.ParseInsertContact | shared/schema.ts:34-37 | a rejected contact body has at least one issue |
| Schema.ParseBookingForm | shared/schema.ts:40-51 | a rejected booking form has at least one issue |
| Schema.ParseContactForm | shared/schema.ts:53-58 | a rejected contact form has at least one issue |
| Schema.InsertBookingAccepts | shared/schema.ts:6-16 | the booking insert schema accepts exactly the objects with the six NOT NULL columns as strings and a message that is missing, null or a string; the record copies those values |
| Schema.InsertContactAccepts | shared/schema.ts:19-26 | the contact insert schema accepts exactly the objects whose four columns are strings, and returns them |
| Schema.InsertBookingIssues | shared/schema.ts:6-16 | a rejected booking object gets one issue per failing field, in column order |
| Schema.InsertBookingRequired | shared/schema.ts:8-13 | a missing NOT NULL field is reported as "Required" |
| Schema.BookingFormAccepts | shared/schema.ts:40-51 | the booking form accepts exactly the bodies that meet every minimum length, pass the email check, have a string or no message, and have `terms` equal to `true` |
| Schema.BookingFormNeedsTerms | shared/schema.ts:48-50 | `terms` that is missing or not `true` rejects the form with the terms message |
| Schema.ContactFormAccepts | shared/schema.ts:53-58 | the contact form accepts exactly the bodies that meet the 2/2/10 minimum lengths and pass the email check |
| Schema.ContactMessageBoundary | shared/schema.ts:57 | a 9-character message gets the length issue; a 10-character one does not |
| Schema.FormsRejectBadEmail | shared/schema.ts:42-55 | an email that fails the check rejects both forms with the email message |
| Schema.BookingFormRefinesInsert | shared/schema.ts:40 | a body the booking form accepts is accepted by the insert schema with the same record |
| Schema.ContactFormRefinesInsert | shared/schema.ts:53 | a body the contact form accepts is accepted by the insert schema with the same record |
| Schema.LengthsOnlyInForm | shared/schema.ts:34-58 | the server accepts an empty name and subject that the contact form rejects |
| Schema.BookingJsonRoundTrip | shared/schema.ts:29-32 | a parsed booking sent back as JSON parses to itself |
| Schema.ContactJsonRoundTrip | shared/schema.ts:34-37 | a parsed contact sent back as JSON parses to itself |
| Schema.UnknownKeysDropped | shared/schema.ts:29-37 | extra keys, `id` and `createdAt` among them, do not change what the insert schemas return |
| Storage.NewBooking | server/storage.ts:34-38 | the new record carries the input fields, the id and the creation time |
| Storage.NewContact | server/storage.ts:55-59 | the new record carries the input fields, the id and the creation time |
| Storage.BookingJsonParses | server/storage.ts:34-38 | a stored booking sent as JSON parses back to its input |
| Storage.ContactJsonParses | server/storage.ts:55-59 | a stored contact sent as JSON parses back to its input |
| Storage.ValuesUpToExtend | server/storage.ts:39-44 | adding the next key appends its value to the listing in insertion order |
| Storage.BookingIdsIncrease | server/storage.ts:43-45 | the listed bookings have ids 1, 2, 3, … in order |
| Storage.MemStorage.constructor | server/storage.ts:23-28 | both maps empty and both counters at 1 |
| Storage.MemStorage.CreateBooking | server/storage.ts:31-41 | the record gets the current counter as id, the counter goes up by one, nothing stored before changes, the listing gains the record at its end, and contacts are untouched |
| Storage.MemStorage.GetBookings | server/storage.ts:43-45 | the bookings in creation order |
| Storage.MemStorage.GetBookingById | server/storage.ts:47-49 | found exactly for an id already handed out, and the record has that id |
| Storage.MemStorage.CreateContact | server/storage.ts:52-62 | the contact counterpart of `createBooking`; bookings are untouched |
| Storage.MemStorage.GetContacts | server/storage.ts:64-66 | the contacts in creation order |
| Storage.MemStorage.GetContactById | server/storage.ts:68-70 | found exactly for an id already handed out |
| Storage.FirstRecords | server/storage.ts:23-70 | the first booking and the first contact of a fresh store both get id 1 and can be read back |
| Storage.CreateMany | server/storage.ts:31-45 | the n-th booking created has id n and its input, and the listing is the created records in order |
| EmailService.MonthAlternatives | python_services/email_service.py:46 | every match of the `%m` group is a month 1..12 of one or two characters |
| EmailService.DayAlternatives | python_services/email_service.py:46 | every match of the `%d` group is a day 1..31 of one or two characters |
| EmailService.MatchMonthDay | python_services/email_service.py:46 | a match yields a month, a day, and an end no earlier than the eighth character |
| EmailService.ParseDate | python_services/email_service.py:46 | `strptime` succeeds only with a valid date whose year is the four leading digits |
| EmailService.LongDate | python_services/email_service.py:47 | the long form starts with the capital of a weekday name |
| EmailService.FormatDate | python_services/email_service.py:43-49 | a string `strptime` reads becomes its long form |
| EmailService.FormatDateUnchanged | python_services/email_service.py:43-49 | `format_date` returns its input exactly when the input is not a date string `strptime` reads |
| EmailService.MonthOfIsoDate | python_services/email_service.py:46 | the `%m` group reads the two-digit month of an ISO date first |
| EmailService.DayOfIsoDate | python_services/email_service.py:46 | the `%d` group reads the two-digit day of an ISO date first |
| EmailService.ParseIsoDate | python_services/email_service.py:46 | the service reads an ISO date string back as the day it was made from |
| EmailService.OpenDayNotSunday | python_services/email_service.py:47 | a day the browser does not treat as a Sunday is not named Sunday by Python |
| EmailService.OfferedDateFormatting | python_services/email_service.py:43-49 | an offered booking date is formatted as the long form of its own day, and never as a Sunday |
| EmailService.Get | python_services/email_service.py:55-59 | `data.get(key, '')`: the value under the key, or the empty string |
| EmailService.BookingMessage | python_services/email_service.py:55-100 | the confirmation: to the booking's `email`, with the fixed subject; specified by EmailService.SendBookingConfirmation, EmailService.MissingKeysAreEmpty and Routes.BookingEmailEndToEnd |
| EmailService.NotificationMessage | python_services/email_service.py:141-184 | the notification: to the company, first of the two messages; specified by EmailService.SendContactNotification and Routes.ContactEmailEndToEnd |
| EmailService.AutoReplyMessage | python_services/email_service.py:206-234 | the auto-reply to the writer's `email`, sent second; specified by EmailService.SendContactNotification and Routes.ContactEmailEndToEnd |
| EmailService.SendBookingConfirmation | python_services/email_service.py:51-135 | it never raises. Success exactly when the data is a dictionary, the project type is a string and the message is delivered. At most one message goes out, to the booking's email with the fixed subject. A failure message carries the fixed prefix |
| EmailService.SendContactNotification | python_services/email_service.py:137-270 | the notification goes to the company first, with the prefixed subject. The auto-reply goes to the writer only after the notification is delivered. Success exactly when both are delivered; a non-dictionary sends nothing |
| EmailService.MissingKeysAreEmpty | python_services/email_service.py:55-67 | a booking without an email is sent to the empty address |
| EmailService.HandleRequest | python_services/email_service.py:273-288 | a string that fails to parse as JSON gives the processing error |
| EmailService.HandleRequestDispatch | python_services/email_service.py:280-285 | "booking" and "contact" go to their senders; any other type is refused and named |
| EmailService.HandleRequestParsesFirst | python_services/email_service.py:276-278 | a JSON string is handled as the value it parses to |
| EmailApp.HealthCheck | python_services/app.py:9-12 | 200 with status "healthy" and service "email-service" |
| EmailApp.Contains | python_services/app.py:24 | `field in data` is key membership for a dictionary, element membership for a list and substring for a string; any other value raises |
| EmailApp.FirstMissing | python_services/app.py:22-28 | a field reported missing is one of the required fields |
| EmailApp.FirstMissingInObject | python_services/app.py:22-28 | for a dictionary, the first required field in order that is not a key is reported; none is reported exactly when all are keys |
| EmailApp.HandleEndpoint | python_services/app.py:14-72 | the field loop with early returns answers as the endpoint's reply function |
| EmailApp.BookingEmail | python_services/app.py:14-42 | `booking_email` answers as the booking endpoint |
| EmailApp.ContactEmail | python_services/app.py:44-72 | `contact_email` answers as the contact endpoint |
| EmailApp.EndpointStatus | python_services/app.py:22-36 | 400 exactly when a required key is missing, naming the first. Otherwise the sender's result is returned, with 200 exactly on success and 500 exactly on failure |
| EmailApp.EndpointErrors | python_services/app.py:38-42 | an undecodable body or a scalar body is answered 500 with the processing error |
| EmailApp.PhoneAndMessageOptional | python_services/app.py:22 | the booking endpoint does not require `phone` or `message` |
| EmailApp.StoredBookingAccepted | python_services/app.py:14-36 | a booking the server stored always passes the check; 200 exactly when its confirmation is delivered |
| EmailApp.StoredContactAccepted | python_services/app.py:44-66 | a contact the server stored always passes the check; 200 exactly when both messages are delivered |
| EmailApp.Route | python_services/app.py:9-72 | a path the service does not serve is answered 404 |
| EmailApp.EndpointReply | python_services/app.py:14-72 | the answer of either endpoint; specified by EmailApp.EndpointStatus, EmailApp.EndpointErrors, EmailApp.PhoneAndMessageOptional, EmailApp.StoredBookingAccepted and EmailApp.StoredContactAccepted |
| Routes.SendBookingConfirmationEmail | server/routes.ts:143-158 | never throws: the service's answer on a 2xx, the fixed "booking was stored" failure otherwise |
| Routes.SendContactNotificationEmail | server/routes.ts:161-176 | never throws: the service's answer on a 2xx, the fixed "contact was stored" failure otherwise |
| Routes.BookingCatch | server/routes.ts:94-105 | 400 with the issues exactly for a validation error, 500 "Failed to create booking" otherwise |
| Routes.ContactCatch | server/routes.ts:124-135 | 400 with the issues exactly for a validation error, 500 "Failed to send message" otherwise |
| Routes.PostBooking | server/routes.ts:79-106 | an invalid body gives 400 with the issues, with no store change and no email request. A valid one is stored once under the next id and its confirmation is requested once. Once the email request settles, the answer is 201 with the record, whatever the email service did |
| Routes.PostContact | server/routes.ts:109-136 | the same for contacts: 400 and no change, or stored once, one notification request, and, once that request settles, 201 with the record |
| Routes.BookingAnswerIgnoresEmail | server/routes.ts:85-93 | two email services that behave differently give the same answer; 201 exactly for a body the schema accepts |
| Routes.StoredBookingReadable | server/routes.ts:85-93 | the booking in a 201 answer can be read back from the store by its id |
| Routes.SendTestEmail | server/routes.ts:54-76 | without a truthy `email` the answer is 400 and nothing is forwarded. Otherwise `{ email }` is forwarded once: a 2xx answer is passed on with its status, anything else is 500 with the error text |
| Routes.ServiceAnswers | server/routes.ts:148 | a POST to the email service's address is answered by its route table |
| Routes.EmailServiceAt | server/routes.ts:12 | the email service at its default address; specified by Routes.ServiceAnswers and Routes.TestPathUnserved |
| Routes.TestEmailNeverForwarded | server/routes.ts:66 | the forwarded path is not served by the email service, so a test email always ends in 500 with "status code 404" |
| Routes.BookingEmailEndToEnd | server/routes.ts:143-158 | end to end, the booking helper returns the service's success result exactly when the confirmation is delivered, and the soft failure otherwise |
| Routes.ContactEmailEndToEnd | server/routes.ts:161-176 | end to end, the contact helper returns the success result exactly when both messages are delivered |
| Projects.FilterProjectsByCategory | client/src/pages/projects.tsx:96-98 | a category filter keeps exactly the projects of that category |
| Projects.FilterProjects | client/src/pages/projects.tsx:96-98 | the filter step; specified by Projects.FilterProjectsByCategory and Projects.PortfolioCategories |
| Projects.PortfolioCategories | client/src/pages/projects.tsx:10-54 | every project's category has a filter button, and its filter shows the project |
| Projects.GetProjectDetails | client/src/pages/projects.tsx:57-88 | details exist exactly for projects 1 and 2, with three images each |
| Projects.DetailsMatchPortfolio | client/src/pages/projects.tsx:57-88 | a details entry has the title of the portfolio project with its id |
| Projects.ArrowsStayInRange | client/src/pages/projects.tsx:261-280 | both arrows keep the image index in range, as a step back and forward modulo the image count |
| Projects.ArrowsInverse | client/src/pages/projects.tsx:261-280 | the previous and next arrows undo each other |
| Projects.PrevImage | client/src/pages/projects.tsx:261-265 | the previous arrow's step; specified by Projects.ArrowsStayInRange and Projects.ArrowsInverse |
| Projects.NextImage | client/src/pages/projects.tsx:276-280 | the next arrow's step; specified by Projects.ArrowsStayInRange, Projects.ArrowsInverse and Projects.NextTimesCycle |
| Projects.NextTimesAdd | client/src/pages/projects.tsx:276-280 | pressing next `j` times and then `k` times is pressing it `j + k` times |
| Projects.NextTimesForward | client/src/pages/projects.tsx:276-280 | short of the last image, `k` presses move `k` places |
| Projects.NextTimesCycle | client/src/pages/projects.tsx:276-280 | as many presses as there are images come back to the starting image |
| Projects.ProjectsPage.constructor | client/src/pages/projects.tsx:91-93 | filter "all", no project open, first image |
| Projects.ProjectsPage.SetActiveFilter | client/src/pages/projects.tsx:91 | only the filter changes |
| Projects.ProjectsPage.OpenProjectDetails | client/src/pages/projects.tsx:101-104 | the clicked project is open, at its first image |
| Projects.ProjectsPage.CloseProjectDetails | client/src/pages/projects.tsx:107-111 | no project open and the image index back at 0 |
| Projects.ProjectsPage.ShowPrevImage | client/src/pages/projects.tsx:255-265 | the image index takes the previous-arrow step and stays in range |
| Projects.ProjectsPage.ShowNextImage | client/src/pages/projects.tsx:255-280 | the image index takes the next-arrow step and stays in range |
| Projects.ProjectsPage.SelectImage | client/src/pages/projects.tsx:292-299 | an indicator selects its image |
| Faq.Toggle | client/src/pages/faq.tsx:114-119 | the pressed category gains an entry and the other categories keep theirs |
| Faq.ToggleEffect | client/src/pages/faq.tsx:114-119 | pressing the expanded question collapses the category; pressing another expands exactly that one |
| Faq.ToggleKeepsOthers | client/src/pages/faq.tsx:114-119 | a toggle changes no other category's state |
| Faq.ToggleTwice | client/src/pages/faq.tsx:114-119 | pressing the expanded question twice restores the state |
| Faq.InitialState | client/src/pages/faq.tsx:95-111 | every category starts with its first question expanded, and toggling keeps the key set |
| Faq.QuestionCount | client/src/pages/faq.tsx:10-92 | the questions per category (seven general, three in each other tab, none for an unknown tab); specified by Faq.InitialState |
| Faq.FaqPage.constructor | client/src/pages/faq.tsx:104-111 | the "general" tab, with every category's first question expanded |
| Faq.FaqPage.SetActiveCategory | client/src/pages/faq.tsx:166 | switching tabs keeps every category's accordion state |
| Faq.FaqPage.ToggleItem | client/src/pages/faq.tsx:186 | the pressed question is toggled in the active category, and the key set stays the category ids |
| Gallery.CategoryOfSpec | client/src/pages/gallery.tsx:62-76 | an image is in a category exactly when its id is in that category's list; "exterior" also takes the rest |
| Gallery.CategoryOf | client/src/pages/gallery.tsx:62-76 | the id-list lookup; specified by Gallery.CategoryOfSpec and Gallery.IdListsPartition |
| Gallery.IdListsPartition | client/src/pages/gallery.tsx:65-71 | the four id lists are disjoint and together hold exactly ids 1 to 16 |
| Gallery.Categorize | client/src/pages/gallery.tsx:62-76 | an image keeps its fields and gains its category |
| Gallery.CategorizedGallery | client/src/pages/gallery.tsx:62-76 | every image is kept in order, with its category |
| Gallery.FilterImagesByCategory | client/src/pages/gallery.tsx:83-85 | a category filter keeps exactly the images whose id that category claims |
| Gallery.FilterImages | client/src/pages/gallery.tsx:83-85 | the filter step; specified by Gallery.FilterImagesByCategory |
| Gallery.GalleryPage.constructor | client/src/pages/gallery.tsx:79-80 | filter "all" and no lightbox |
| Gallery.GalleryPage.SetActiveFilter | client/src/pages/gallery.tsx:79 | only the filter changes |
| Gallery.GalleryPage.OpenLightbox | client/src/pages/gallery.tsx:88-91 | the clicked image fills the lightbox, which is drawn exactly for a non-empty source |
| Gallery.GalleryPage.CloseLightbox | client/src/pages/gallery.tsx:94-97 | no lightbox is drawn |
| Blog.CategoryForFilter | client/src/pages/blog.tsx:131-141 | each of the five filter ids maps to its categories ("architecture" and "innovation" to two each, the other three to one), and any other id to none |
| Blog.FilterPostsSpec | client/src/pages/blog.tsx:143-147 | "all" keeps every post; another filter keeps exactly the posts whose category it maps to, and an unknown one keeps none |
| Blog.FilterPosts | client/src/pages/blog.tsx:143-147 | the filter step; specified by Blog.FilterPostsSpec, Blog.FilteredPostOnce and Blog.EveryFilteredPostShown |
| Blog.GridAsWritten | client/src/pages/blog.tsx:266 | the grid as the page draws it, `filteredPosts.slice(1)`; specified by Blog.GridHidesFilteredPost and Blog.GridAgreesWhenFeaturedFirst |
| Blog.GridHidesFilteredPost | client/src/pages/blog.tsx:266 | the grid as written, under "interior-design", shows nothing. The one matching post, post 2, is not the featured post either |
| Blog.Grid | client/src/pages/blog.tsx:221-266 | the intended grid never repeats the featured post |
| Blog.EveryFilteredPostShown | client/src/pages/blog.tsx:221-266 | with the intended grid, every post of the page that the filter keeps is in the filtered list and on the page exactly once: the featured post not in the grid, any other post once in the grid |
| Blog.PostIdsDistinct | client/src/pages/blog.tsx:12-68 | no two posts of the page share an id, so the featured card's post is the only one with its id |
| Blog.GridAgreesWhenFeaturedFirst | client/src/pages/blog.tsx:266 | when the filtered list starts with the featured post, the intended grid is `slice(1)` |
| Blog.ClassifyParagraph | client/src/pages/blog.tsx:397-417 | "###" makes a heading, checked first. A leading "-" makes a list. Anything else is a paragraph of the text unchanged |
| Blog.HeadingText | client/src/pages/blog.tsx:397-401 | "### t" is drawn as the heading t |
| Blog.BulletLines | client/src/pages/blog.tsx:405-411 | lines "- t1", …, "- tn" joined by newlines are drawn as the list t1, …, tn |
| Blog.BlogPage.constructor | client/src/pages/blog.tsx:127-128 | filter "all" and no post open |
| Blog.BlogPage.SetActiveFilter | client/src/pages/blog.tsx:214 | only the filter changes |
| Blog.BlogPage.ViewPost | client/src/pages/blog.tsx:150-153 | the post is open and the filter kept |
| Blog.BlogPage.BackToList | client/src/pages/blog.tsx:155-157 | no post open and the filter kept |

## Left out

- **Sending the email.** SMTP, STARTTLS, login, MIME assembly and the HTML bodies are left out. A message is modelled by its sender, recipient, subject and the values shown in its body. The transport is a deterministic parameter, so retries and partial sends are out of scope.
- **Zod's email regular expression.** It is a parameter `validEmail`. `fromZodError`'s wording is reduced to the list of issues.
- **Drizzle and the database.** Both are outside the model. `MemStorage` is the only store.
- **Server framing.** HTTP framing, CORS, the `spawn` of the email service and `/api/email-service-status` are left out. That endpoint only relays a health probe.
- **Framework error pages.** Flask's 404/405 pages carry `JNull` as their body.
- **Environment overrides.** The email-service URL, SMTP settings and sender address can be overridden by the environment; the model uses their default values.
- **Concurrency.** The asynchronous handlers run one at a time; interleaved requests are not modelled.
- **Dates.** Local time against UTC is left out: `getDay` and `toISOString` are both taken on the same day number, so a timezone that moves `toISOString` to another calendar day is not modelled. Python `%Y` is modelled without zero padding; the years the site offers are four digits.
- **Characters.** Unicode digits matched by `\d` are left out. String lengths count code points, not UTF-16 units.
- **Numbers.** Ids and counters are unbounded naturals; the 2^53 limit of JavaScript numbers is not reached. JSON floats are not modelled.
- **Page data.** Presentational components, animations and prose fields (descriptions, excerpts, authors) are left out. Images are named by their photo id instead of the full URL.
- **Blog single-post view.** It always shows the featured article's content; related posts are not modelled.
- **Blog filter ids.** Inherited object keys such as "constructor" in the category map are not modelled. Any id outside the five keys maps to no category.
- Routes.PostBooking, Routes.PostContact: the email request is assumed to settle. The source sets no timeout on the `axios.post` to the email service or on the SMTP connection it opens, so a stalled email service or mail server leaves the request unanswered after the record is stored; the model's `post` and `send` parameters always return.
- Projects.ProjectsPage.OpenProjectDetails: requires that no details window is open, because the window's backdrop covers the project cards.

## Findings

| source | as written | input that shows it | evidently intended | confidence | as-written member | corrected member |
|---|---|---|---|---|---|---|
| client/src/pages/blog.tsx:266 | the grid shows `filteredPosts.slice(1)`, dropping the first filtered post, while the featured card always shows the first post of the whole list | filter "interior-design": the filtered list is post 2 alone, the grid is empty and the featured card shows post 1, so post 2 appears nowhere ("innovation" hides post 4 in the same way) | the grid leaves out only the post the featured card already shows | not executed | Blog.GridHidesFilteredPost | Blog.EveryFilteredPostShown |
