# Bailemos API core, modelled in Dafny

This project models the request-handling rules of the Bailemos backend. The backend is a marketplace that connects dance academies, nightlife establishments and dancers. The model covers these parts:

- **Academy settings.** An academy's weekly schedule and its price list. This covers the owner-or-admin access check, the request schema and the normalisation applied before storing.
- **Classes and bookings.** Listing classes with a scope chosen from the query and the caller, and creating a class. Booking a class, with its not-found and already-booked guards, the `$addToSet` of the dancer into the academy's `students` and the `$push` of the booking id onto the dancer's `bookings`. Listing a dancer's own bookings.
- **Accounts.** Registration with role-dependent validation and dispatch to the role's variant. Login, which attaches the most recently updated approved enrollment. A partial profile update.
- **Discovery and promotions.** The coordinate check and default radius of the nearby searches. A promotion's QR code and its expiry check. The list of promotions still valid. Event creation with its location fallback, event listing, promotion creation with its QR payload, and promotion listing.
- **Notifications.** The email transport and the push client. Each is created only when configured and then kept. The two enrollment emails have fixed subjects and bodies, and the push send has default title and body. Every send returns a boolean and never throws.
- **Records.** Users as a base record whose role tag selects a variant (dancer, establishment, academy, admin), plus the password save hook. Bookings, enrollments, classes, events and promotions, with their enums, defaults and required fields.

Every handler is a pure function. It takes the document store (`Db.Db`: one sequence of documents per collection, in insertion order) and the request. It returns a `Reply` (a status code with a body, or a status code with a message) and, for writes, the new store. Times are integers (milliseconds). Document ids are strings; a stored id (and the caller's id) is an ObjectId's canonical rendering, 24 lower-case hexadecimal digits. A request string that is not 24 hexadecimal digits does not cast to an ObjectId and raises a CastError. The schedule and price handlers answer that with 400, and every other handler with 500. A string that does cast is looked up under its lower-case form (`Shared.CastId`), because the cast reads hexadecimal digits in either case. The owner-or-admin check of the schedule and price handlers compares the raw strings before any cast, so only an admin reaches the academy through an upper-case spelling of its id.

The enrollment workflow handlers (submit, list, detail, decide, own status) are imported by `routes/academyRoutes.js:12-16`, but no controller shown defines them. Only the enrollment record (`models/Enrollment.js`) and its use at login are modelled. The enrollment record does not force at most one of `voucherPath`/`voucherUrl` to be set, and `EnrollmentModel.BothVouchersAccepted` shows a record with both set.

## Model

| member | source | states |
|---|---|---|
| `Shared.CastId` | controllers/scheduleController.js:47 | The cast id keeps the length and lower-cases each hexadecimal digit; other characters are unchanged. |
| `Shared.CastIdCanonical` | controllers/scheduleController.js:47 | Casting keeps a valid id valid, and casting twice equals casting once. |
| `ScheduleController.GetSchedule` | controllers/scheduleController.js:39-59 | A caller who is neither the academy nor an admin gets 403. Otherwise a malformed id gives 400 and a missing academy (under the cast id) 404. Otherwise the answer is the stored schedule, or none (null) when nothing is stored. |
| `ScheduleController.PutSchedule` | controllers/scheduleController.js:67-109 | Checks run in this order: 403, then schema 400, then malformed-id 400, then 404. Each failure leaves the store unchanged. The request succeeds iff the caller may access, the body is valid, the id casts and the academy exists. On success the academy's schedule becomes the normalised body, and the answer is that schedule, with exactly the seven day keys. |
| `ScheduleController.Normalize` | controllers/scheduleController.js:83-91 | The normalised schedule has exactly the keys mon..sun, each day normalised from its own entry. |
| `ScheduleController.NormalizeDay` | controllers/scheduleController.js:86-87 | `open` is carried over as the body's boolean. |
| `ScheduleController.DefaultTimes` | controllers/scheduleController.js:88-89 | An absent open/close time becomes "09:00"/"18:00". A present string, "" included, is kept. |
| `ScheduleController.ScheduleToJson` | controllers/scheduleController.js:6-24 | Every full seven-day schedule, written as a request body, passes the schedule schema. |
| `ScheduleController.NormalizeRoundTrip` | controllers/scheduleController.js:83-91 | Normalising the body of any seven-day schedule gives that schedule back. |
| `ScheduleController.NormalizeIdempotent` | controllers/scheduleController.js:83-91 | Normalising again through the stored form changes nothing. |
| `ScheduleController.PutThenGet` | controllers/scheduleController.js:51 | After a successful PUT, GET by the same caller answers exactly the normalised schedule. |
| `ScheduleController.GetScheduleIgnoresCase` | controllers/scheduleController.js:47-56 | For an admin, two spellings of one id that differ only in the case of their hex digits get the same answer. |
| `PricesController.ParsePriceType` | controllers/pricesController.js:4-10 | A price type is accepted iff it is individual, couples or private, and it names the type it parses to. |
| `PricesController.ClampClassesPerWeek` | controllers/pricesController.js:80-83 | The result always lies in 1..7. An integral input in 1..7 is returned unchanged. |
| `PricesController.NormalizeItem` | controllers/pricesController.js:77-83 | The id, type and monthly price are carried over unchanged. For a valid item, `classesPerWeek` equals the input. |
| `PricesController.Normalize` | controllers/pricesController.js:76-84 | The list keeps its length and order (item i comes from input item i). Every item is well formed: non-empty id, price in 0..2^53-1, `classesPerWeek` in 1..7. |
| `PricesController.ItemToJson` | controllers/pricesController.js:6-13 | An item passes the schema iff its id is a non-empty string, its monthly price is ≥ 0 and at most `Number.MAX_SAFE_INTEGER` (the schema refuses unsafe numbers), and its `classesPerWeek` is an integer in 1..7. |
| `PricesController.PricesToJson` | controllers/pricesController.js:15-17 | A list of well-formed items, written as a body, passes the schema. The empty list is included. |
| `PricesController.NormalizeRoundTrip` | controllers/pricesController.js:76-84 | Normalising the body of a well-formed list gives the list back. |
| `PricesController.GetPrices` | controllers/pricesController.js:32-52 | 403 / 400 / 404 exactly as for the schedule, with the academy looked up under the cast id. Otherwise the stored list, or [] when none is stored. |
| `PricesController.PutPrices` | controllers/pricesController.js:60-100 | 403 comes before validation, and validation before the id cast and lookup. Failures leave the store unchanged. The request succeeds iff the caller may access, the body is valid, the id casts and the academy exists. On success the whole stored list is replaced by the normalised one, which is also the answer. |
| `PricesController.PutThenGet` | controllers/pricesController.js:85-93 | After a successful PUT, GET answers exactly the normalised list, whatever was stored before. |
| `AcademyController.CreateClass` | controllers/academyController.js:8-26 | A class is created iff the class schema's required fields are there. It always belongs to the caller and is appended to the classes. It stores the body's name, description, level (the level named), schedule and price, with `createdAt` the creation time. A refused request is a 500 that changes nothing. |
| `AcademyController.CreatedClassIsListed` | controllers/academyController.js:8-48 | A class just created is listed among the academy's own classes, and among those listed under its id in the query. |
| `AcademyController.GetClasses` | controllers/academyController.js:31-48 | The filter is: the `academyId` query (under the cast id) if non-empty; else the caller's own id when the caller is an academy; else none. The answer holds exactly the classes matching the filter, each as many times as it is stored. A malformed query id is 500. |
| `AcademyController.BookClass` | controllers/academyController.js:53-96 | The class id is cast first. A missing or unknown class gives 404. An active booking of that class by the caller gives 400, iff one exists. Both leave the store unchanged. Success (iff neither) appends exactly one booking: the cast class id, the caller as dancer, the class's academy, paid, active, follower. The users then take the `$addToSet` into the academy's students and the `$push` onto the dancer's bookings, and nothing else. It changes no class, enrollment, event or promotion. |
| `AcademyController.BookClassIgnoresCase` | controllers/academyController.js:57-71 | Two spellings of one class id that differ only in the case of their hex digits book, or are refused, alike. |
| `AcademyController.AddStudent` | controllers/academyController.js:83-85 | Only the academy's `students` changes, by set insertion. A missing academy changes nothing. |
| `AcademyController.PushBooking` | controllers/academyController.js:88-90 | Only the dancer's `bookings` changes, by appending the booking id at the end. |
| `Store.Filter` | controllers/academyController.js:43 | `find(filter)`: the answer holds the matching documents and only those, each exactly as many times as the collection holds it. |
| `Store.AddToSet` | controllers/academyController.js:84 | The element is present afterwards. Its count becomes 1 if it was absent and is unchanged otherwise. No other element's count changes. |
| `Store.AddToSetIdempotent` | controllers/academyController.js:84 | Adding the same element twice equals adding it once. |
| `AcademyController.CancelledBookingDoesNotBlock` | controllers/academyController.js:63-71 | When every earlier booking of the class by the dancer is cancelled, booking it again succeeds. |
| `AcademyController.BookTwiceRejected` | controllers/academyController.js:63-71 | Right after a successful booking, booking the same class again gives 400 and changes nothing. |
| `AcademyController.BookingAddsStudentOnce` | controllers/academyController.js:82-85 | After a successful booking, the dancer occurs exactly once in the academy's `students`. |
| `AcademyController.BookingAppendsToDancer` | controllers/academyController.js:87-90 | After a successful booking, the dancer's `bookings` is the old list with the new id at the end. |
| `AcademyController.StudentAddedOnce` | controllers/academyController.js:82-90 | After the two array updates, a student held at most once is held exactly once; the dancer's `$push` does not touch the academy. |
| `AcademyController.BookingPushedToDancer` | controllers/academyController.js:82-90 | After the two array updates, the dancer's bookings end with the new id; the academy's `$addToSet` does not touch the dancer. |
| `AcademyController.GetMyBookings` | controllers/academyController.js:101-112 | The answer holds exactly the bookings whose dancer is the caller, each as many times as it is stored. |
| `AuthController.BuildUser` | controllers/authController.js:37-51 | The variant is the requested role. Dancers, establishments and academies get a Point location iff one was given. An admin is a plain user with no location. Establishments and academies carry the given address. |
| `AuthController.Register` | controllers/authController.js:11-64 | A schema failure is 400. The schema covers: role, email shape, a password at least 6 UTF-16 code units long, address iff establishment/academy, and a location of two numbers within the safe range. A taken email is 400 "User already exists". Both create nothing. Otherwise exactly one user is appended, with the hashed password. |
| `AuthController.RegisterKeepsEmailsUnique` | models/User.js:7 | Registration preserves the uniqueness of emails. |
| `AuthController.LatestApproved` | controllers/authController.js:81-87 | Picks an approved enrollment of the user with the greatest `updatedAt`. It picks none iff the user has no approved enrollment. |
| `AuthController.AcademyView` | controllers/authController.js:89-93 | The academy id and name are shown when the referenced user exists, and neither is shown otherwise. The status is the enrollment's. |
| `AuthController.Login` | controllers/authController.js:67-106 | An unknown email and a wrong password give the same 401. A user without a stored password gives 500. On success, `enrolledAcademy` is present iff the user has an approved enrollment, and it comes from one with the latest `updatedAt`. |
| `AuthController.RegisterThenLogin` | controllers/authController.js:33-79 | Logging in with a just-registered email and password succeeds as the new account, with its role. |
| `AuthController.ApplyProfile` | controllers/authController.js:118-121 | Only the name and avatar supplied are set. Every other field is unchanged. |
| `AuthController.UpdateProfile` | controllers/authController.js:109-140 | The body must hold at least one of name/avatar and nothing else. The name must be non-empty; the avatar may be "". A missing user gives 404. Success changes only that user's supplied fields. The answer omits the password and Google id. |
| `AuthController.UpdateProfileIdempotent` | controllers/authController.js:118-128 | Repeating the same profile update changes nothing further. |
| `DancerController.CheckNearbyQuery` | controllers/dancerController.js:10-14 | A missing or empty longitude or latitude gives 400. An absent radius becomes 10000. |
| `DancerController.AbsentRadiusIsDefault` | controllers/dancerController.js:10-23 | After `parseInt`, a radius left out is the radius of the query "10000". A radius written as a decimal number is searched with exactly that number. |
| `DancerController.HexRadiusIsRead` | controllers/dancerController.js:23 | `parseInt` is called without a radix, so a radius written as "0x" followed by hexadecimal digits is searched with the number those digits denote in base 16. |
| `DancerController.SixteenInHex` | controllers/dancerController.js:52 | The query `maxDistance=0x10` searches within 16 meters. |
| `DancerController.GetPromotionQR` | controllers/dancerController.js:66-91 | An id unknown under its cast form gives 404. The request fails as expired iff now > validUntil. Otherwise the answer is the card plus the stored QR data, unchanged. |
| `DancerController.GetAvailablePromotions` | controllers/dancerController.js:96-106 | The answer holds exactly the promotions with validUntil ≥ now, each as many times as it is stored. |
| `DancerController.AvailableIffQrAccepted` | controllers/dancerController.js:75-100 | A promotion is listed as available iff its QR request is accepted. The two share the boundary now = validUntil. |
| `DancerController.CreatedPromotionServesQr` | controllers/establishmentController.js:54-85 | A newly created promotion's QR request answers with the image of its own payload until its end date. |
| `EstablishmentController.EventLocation` | controllers/establishmentController.js:12-16 | The location is the body's when given. Else it is the caller's coordinates when the caller has a location. Else it is absent. |
| `EstablishmentController.CreateEvent` | controllers/establishmentController.js:8-32 | An event is created iff name and date are given. It always belongs to the caller and stores the body's name, description and date. It gets the fallback location, a cover charge defaulting to 0, and `createdAt` the creation time. |
| `EstablishmentController.CreatedEventIsListed` | controllers/establishmentController.js:8-49 | An event just created is listed under its establishment's id, with the location chosen for it. |
| `EstablishmentController.GetEvents` | controllers/establishmentController.js:37-49 | With a non-empty `establishmentId` (under the cast id) the answer holds exactly that establishment's events, each as many times as it is stored. Otherwise it holds all events. |
| `EstablishmentController.CreatePromotion` | controllers/establishmentController.js:54-85 | A promotion is created iff title, description, a known discount type and an end date are given. It always belongs to the caller and stores the body's title, description, discount type (the type named), value and end date, with `createdAt` the creation time. Its QR data is the image of the payload {promoId, establishmentId = caller, type = discountType, val = value}. |
| `EstablishmentController.GetPromotions` | controllers/establishmentController.js:90-104 | The filter is: the `establishmentId` query (under the cast id) if non-empty (a malformed one is 500); else the caller's own id when the caller is an establishment; else none. The answer holds exactly the matching promotions, each as many times as it is stored. |
| `EstablishmentController.CreatedPromotionIsListed` | controllers/establishmentController.js:54-104 | A promotion just created is listed under its establishment, whether the establishment is named in the query or is the caller. |
| `EmailService.GetTransporter` | services/emailService.js:8-27 | A kept transport is returned as is. Otherwise a transport exists iff host, user and password are all set. Its port defaults to 587, and `secure` is true iff SMTP_SECURE is exactly "true". |
| `EmailService.TransporterIsKept` | services/emailService.js:9 | Once created, the transport is returned by every later call, whatever the settings then say. |
| `EmailService.DefaultPortParses` | services/emailService.js:18 | The default port text parses to 587. |
| `Text.ParseIntNatToString` | services/emailService.js:18 | `parseInt(_, 10)` reads back the decimal rendering of every natural number. |
| `Text.ParseIntAnyRadixHex` | controllers/dancerController.js:23 | `parseInt` with no radix reads "0x" followed by hexadecimal digits of either case as the base-16 value of those digits. |
| `Text.ParseIntAnyRadixNatToString` | controllers/dancerController.js:23 | `parseInt` with no radix still reads back the decimal rendering of every natural number, which never begins with "0x". |
| `Text.Utf16LengthOfBmp` | controllers/authController.js:15 | On text within the Basic Multilingual Plane, the length the schema's `min(6)` measures is the character count. |
| `Text.Utf16LengthOfAstral` | controllers/authController.js:15 | Three characters beyond U+FFFF measure 6, so such a password passes `min(6)`. |
| `EmailService.NotificationTextLayout` | services/emailService.js:46-55 | The text's lines are, in order: the heading, a blank line, applicant, email, phone, ID, a blank line, and the voucher link. |
| `EmailService.SendEnrollmentNotification` | services/emailService.js:37-78 | With no transport, nothing is sent and the result is false. Otherwise one mail goes out, from SMTP_FROM when set and else SMTP_USER, with subject "New enrollment – " + fullName and attachments only when the list is non-empty. The result is whether delivery succeeded. |
| `EmailService.DecisionMessages` | services/emailService.js:91-96 | The subject and text always contain the academy name, and the approved and rejected subjects differ. |
| `EmailService.SendEnrollmentDecision` | services/emailService.js:87-107 | The same gating, sender and result as the notification. The subject and text are chosen by `approved`. |
| `EmailService.UnconfiguredSendsNothing` | services/emailService.js:43-44 | Without a complete configuration, neither email is attempted and both return false. |
| `PushService.GetMessaging` | services/pushService.js:8-38 | A kept client is returned as is. Otherwise a client exists iff a path or JSON credential is configured. The JSON credential takes precedence over the path. |
| `PushService.MessagingIsKept` | services/pushService.js:9 | Once initialised, the client is returned by every later call. |
| `PushService.SendPush` | services/pushService.js:47-64 | Nothing is sent without a client or a non-empty token. The title defaults to "New enrollment" and the body to "". The data is passed through unchanged. The result is whether delivery succeeded. |
| `PushService.ClientKeptAcrossSends` | services/pushService.js:47-49 | The client one send obtains is used by every later send, whatever the settings then say. A later send goes out exactly when it has a token. |
| `UserModel.ParseRole` | models/User.js:12-16 | Exactly the four role names are accepted, each naming its role. |
| `UserModel.SaveUser` | models/User.js:24-28 | A modified password is replaced by its hash. An unmodified one is kept. Required fields (name, email, address for establishment/academy) are enforced. |
| `UserModel.SaveKeepsUntouchedHash` | models/User.js:24-28 | Saving other field changes leaves the stored hash unchanged. |
| `EnrollmentModel.CreateEnrollment` | models/Enrollment.js:3-37 | Creation succeeds iff academy, fullName, phone, email and idNumber are present. `user` is optional. The status starts pending, `createdAt` is the construction time and `updatedAt` the save time. |
| `EnrollmentModel.SaveEnrollment` | models/Enrollment.js:35-37 | A save sets `updatedAt` to the save time and changes nothing else. |
| `EnrollmentModel.BothVouchersAccepted` | models/Enrollment.js:19-20 | A record may hold both a voucher path and a voucher URL. |
| `ContentModels.ParseLevel` | models/Class.js:10-14 | A class level is accepted iff it is one of the four level names, and it parses to the level of that name. |
| `ContentModels.ParseLevelName` | models/Class.js:10-14 | Every level parses back from its name. |
| `ContentModels.ParseDiscountType` | models/Promotion.js:7-11 | A discount type is accepted iff it is percentage, fixed or free_pass, and it parses to the type of that name. |
| `ContentModels.ParseDiscountTypeName` | models/Promotion.js:7-11 | Every discount type parses back from its name. |

## Left out

- The HTTP layer (server set-up, CORS, rate limiting, static files, routing) and the database connection are left out. The routes' role gates (e.g. `authorize("dancer")`) appear as `requires` on the handlers. The authentication middleware is not part of this model; the authenticated user is the `Caller` parameter.
- The enrollment workflow handlers (`enroll`, `listEnrollments`, `getEnrollmentById`, `updateEnrollmentStatus`, `getMyEnrollmentStatus`) are left out. The controller file that defines them is not part of this model.
- The geospatial `$near` search and the `parseFloat` of the coordinates are left out. The presence check, the default radius and the `parseInt` of the radius (`DancerController.RadiusMeters`, with no radix, so a "0x" prefix selects base 16) are modelled.
- `nextPaymentDate` at login is left out. It adds a number to a date value, which is not date arithmetic.
- Password hashing and comparison are the parameters `hash` and `matches`; the random salt is not modelled. The JWT token is omitted from the register and login answers. The QR image is the parameter `render`.
- The mail and push libraries are reduced to two parameters: `loadOk` (loading/initialising succeeds) and `delivered` (the send succeeds). Credential decoding and file reading are not modelled. The HTML email bodies are left out.
- The schema library's exact error wording is the single value `SchemaDetail`. Its convert mode is not modelled: a string such as "true" or "3" is not coerced to a boolean or number. `IsEmailShaped` approximates its email check; the top-level-domain list is not modelled.
- Storage and network faults outside the listed cases (the generic 500) are left out. So are `populate` of references (answers carry ids) and query parameters given as arrays.
- The read-then-write window between the duplicate check and the insert in `bookClass` is left out; handlers run one at a time.
- Login with the email or password missing from the body is left out. How the driver treats an `undefined` filter value is not modelled.
- Document-mapper details are left out. The shown `models/User.js` schema declares no `schedule` or `prices` field. Its strict mode may also drop updates to paths a model's schema lacks (the academy's `schedule`/`prices`, or `students`/`bookings` updated through the base user model). The model applies every update as the handlers state it. Nested `location` defaults that can make an unset location read as an empty Point are not modelled either; an unset location is absent.
- `PushService.GetMessaging`: whether the push library already holds an initialised app from elsewhere is not modelled. The client is kept exactly when this service initialised it.
- `Text.ParseInt` and `Text.ParseIntAnyRadix`: only ASCII white space is skipped before the number, and a number too large for a double is not rounded.
- Numbers are reals: the rounding of a double is not modelled. Only the schema's safe-integer bound (`Json.IsSchemaNumber`) is.
