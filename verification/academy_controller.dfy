/**
 * The academy's classes and the dancers' bookings: listing classes with the
 * scope chosen from the query and the caller, creating a class, booking a
 * class (with its not-found and already-booked guards and the two array
 * updates that follow), and a dancer's own bookings.
 */
module AcademyController {
  import opened Shared
  import opened UserModel
  import opened BookingModel
  import opened ContentModels
  import opened Db
  import Store

  /** The fields a class is created from; each may be missing from the request. */
  datatype ClassInput = ClassInput(
    name: Option<string>,
    description: Option<string>,
    level: Option<string>,
    schedule: Option<string>,
    price: Option<real>)

  /** The class schema's validation: name, a known level, schedule and price are required. */
  predicate ValidClassInput(input: ClassInput) {
    && input.name.Some? && input.name.value != ""
    && input.level.Some? && ParseLevel(input.level.value).Some?
    && input.schedule.Some? && input.schedule.value != ""
    && input.price.Some?
  }

  /**
   * POST /academy/classes (academies only): the new class always belongs to
   * the caller. A request the class schema refuses is a server error.
   */
  function CreateClass(db: Db, caller: Caller, input: ClassInput, classId: Id, now: int): (r: (Reply<DanceClass>, Db))
    requires caller.role == Academy
    ensures r.0.Ok? <==> ValidClassInput(input)
    ensures r.0.Err? ==> r.0 == ServerError() && r.1 == db
    ensures r.0.Ok? ==> r.0.status == 201 && r.0.body.academy == caller.id && r.0.body.id == classId
    ensures r.0.Ok? ==> Some(r.0.body.name) == input.name && r.0.body.description == input.description
    ensures r.0.Ok? ==>
              && LevelName(r.0.body.level) == input.level.value
              && Some(r.0.body.schedule) == input.schedule
              && Some(r.0.body.price) == input.price
              && r.0.body.createdAt == now
    ensures r.0.Ok? ==> r.1 == db.(classes := db.classes + [r.0.body])
  {
    if !ValidClassInput(input) then (ServerError(), db)
    else
      var c := DanceClass(classId, input.name.value, input.description, ParseLevel(input.level.value).value,
                          input.schedule.value, input.price.value, caller.id, now);
      (Ok(201, c), db.(classes := db.classes + [c]))
  }

  /**
   * GET /academy/classes: the classes of the academy named in the query
   * (matched under the cast id); with
   * no (or an empty) query id, the calling academy's own classes; otherwise all
   * classes. A query id that is not an ObjectId fails the query.
   */
  function GetClasses(db: Db, academyId: Option<string>, caller: Option<Caller>): (r: Reply<seq<DanceClass>>)
    ensures Truthy(academyId) && !IsObjectId(academyId.value) ==> r == ServerError()
    ensures Truthy(academyId) && IsObjectId(academyId.value) ==>
              r.Ok? && Store.IsFilterOf(r.body, db.classes, (c: DanceClass) => c.academy == CastId(academyId.value))
    ensures !Truthy(academyId) && caller.Some? && caller.value.role == Academy ==>
              r.Ok? && Store.IsFilterOf(r.body, db.classes, (c: DanceClass) => c.academy == caller.value.id)
    ensures !Truthy(academyId) && (caller.None? || caller.value.role != Academy) ==> r == Ok(200, db.classes)
  {
    if Truthy(academyId) then
      if !IsObjectId(academyId.value) then ServerError()
      else Ok(200, Store.Filter(db.classes, (c: DanceClass) => c.academy == CastId(academyId.value)))
    else if caller.Some? && caller.value.role == Academy then
      Ok(200, Store.Filter(db.classes, (c: DanceClass) => c.academy == caller.value.id))
    else Ok(200, db.classes)
  }

  /**
   * A class just created is among the classes the academy then lists as its
   * own, and among those listed under its id in the query.
   */
  lemma CreatedClassIsListed(db: Db, caller: Caller, input: ClassInput, classId: Id, now: int)
    requires caller.role == Academy && IsCanonicalId(caller.id)
    requires ValidClassInput(input)
    ensures var (r, db') := CreateClass(db, caller, input, classId, now);
            && r.Ok?
            && r.body in GetClasses(db', None, Some(caller)).body
            && r.body in GetClasses(db', Some(caller.id), None).body
  {
    var (r, db') := CreateClass(db, caller, input, classId, now);
    assert db'.classes[|db.classes|] == r.body;
  }

  function ClassIndex(db: Db, id: Id): (r: Option<nat>)
    ensures r.Some? ==> r.value < |db.classes| && db.classes[r.value].id == id
    ensures r.None? <==> forall j :: 0 <= j < |db.classes| ==> db.classes[j].id != id
  {
    Store.FirstIndex(db.classes, (c: DanceClass) => c.id == id)
  }

  /** An active booking of class `classId` by `dancer`: the duplicate guard's query. */
  predicate IsActiveBookingOf(b: Booking, classId: Id, dancer: Id) {
    b.classId == classId && b.dancer == dancer && b.status == Active
  }

  predicate HasActiveBooking(db: Db, classId: Id, dancer: Id) {
    exists i :: 0 <= i < |db.bookings| && IsActiveBookingOf(db.bookings[i], classId, dancer)
  }

  /** `$addToSet: { students: student }` on the academy `academyId`; no effect on any other document. */
  function AddStudent(db: Db, academyId: Id, student: Id): (r: Db)
    ensures r.(users := db.users) == db
    ensures |r.users| == |db.users|
    ensures AcademyIndex(db, academyId).None? ==> r == db
    ensures AcademyIndex(db, academyId).Some? ==>
              var i := AcademyIndex(db, academyId).value;
              && r.users[i] == db.users[i].(profile := db.users[i].profile.(students := Store.AddToSet(db.users[i].profile.students, student)))
              && forall j :: 0 <= j < |db.users| && j != i ==> r.users[j] == db.users[j]
  {
    match AcademyIndex(db, academyId)
    case None => db
    case Some(i) =>
      var a := db.users[i];
      WithUser(db, i, a.(profile := a.profile.(students := Store.AddToSet(a.profile.students, student))))
  }

  /** `$push: { bookings: bookingId }` on the dancer `dancerId`; no effect on any other document. */
  function PushBooking(db: Db, dancerId: Id, bookingId: Id): (r: Db)
    ensures r.(users := db.users) == db
    ensures |r.users| == |db.users|
    ensures forall j :: 0 <= j < |db.users| && db.users[j].id != dancerId ==> r.users[j] == db.users[j]
    ensures UserIndex(db, dancerId).Some? && db.users[UserIndex(db, dancerId).value].profile.DancerProfile? ==>
              var i := UserIndex(db, dancerId).value;
              r.users[i] == db.users[i].(profile := db.users[i].profile.(bookings := db.users[i].profile.bookings + [bookingId]))
  {
    match UserIndex(db, dancerId)
    case Some(i) =>
      if db.users[i].profile.DancerProfile? then
        var d := db.users[i];
        WithUser(db, i, d.(profile := d.profile.(bookings := Store.Push(d.profile.bookings, bookingId))))
      else db
    case None => db
  }

  /** The store after a booking of a class of `academy`: the booking appended, then the two array updates. */
  function AfterBooking(db: Db, booking: Booking, academy: Id, dancer: Id): Db {
    PushBooking(AddStudent(db.(bookings := db.bookings + [booking]), academy, dancer), dancer, booking.id)
  }

  /**
   * POST /academy/bookings (dancers only). A missing or unknown class is 404;
   * an active booking of the same class by the same dancer is 400; both leave
   * the store unchanged. Otherwise one booking is created (paid, active), the
   * dancer is added to the academy's students as a set element and the
   * booking id is appended to the dancer's bookings. The class id is cast
   * before the lookup, the duplicate check and the insert.
   */
  function BookClass(db: Db, caller: Caller, classId: Option<string>, bookingId: Id, now: int): (r: (Reply<Booking>, Db))
    requires caller.role == Dancer
    ensures r.0.Err? ==> r.1 == db
    ensures classId.Some? && !IsObjectId(classId.value) ==> r.0 == ServerError()
    ensures r.0.Err? && r.0.status == 404 <==>
              classId.None? || (IsObjectId(classId.value) && ClassIndex(db, CastId(classId.value)).None?)
    ensures r.0.Err? && r.0.status == 400 <==>
              classId.Some? && IsObjectId(classId.value) && ClassIndex(db, CastId(classId.value)).Some?
              && HasActiveBooking(db, CastId(classId.value), caller.id)
    ensures r.0.Ok? <==>
              classId.Some? && IsObjectId(classId.value) && ClassIndex(db, CastId(classId.value)).Some?
              && !HasActiveBooking(db, CastId(classId.value), caller.id)
    ensures r.0.Ok? ==>
              var academy := db.classes[ClassIndex(db, CastId(classId.value)).value].academy;
              && r.0.status == 201
              && r.0.body == NewBooking(bookingId, CastId(classId.value), caller.id, academy, now)
              && r.0.body.paymentStatus == Paid && r.0.body.status == Active && r.0.body.danceRole == Follower
              && r.1.bookings == db.bookings + [r.0.body]
              && r.1.users == AfterBooking(db, r.0.body, academy, caller.id).users
              && r.1.classes == db.classes && r.1.enrollments == db.enrollments
              && r.1.events == db.events && r.1.promotions == db.promotions
  {
    if classId.None? then (Err(404, Text("Class not found")), db)
    else if !IsObjectId(classId.value) then (ServerError(), db)
    else
      var cid := CastId(classId.value);
      match ClassIndex(db, cid)
      case None => (Err(404, Text("Class not found")), db)
      case Some(ci) =>
        var cls := db.classes[ci];
        match Store.FirstIndex(db.bookings, (b: Booking) => IsActiveBookingOf(b, cid, caller.id))
        case Some(_) => (Err(400, Text("Already booked this class")), db)
        case None =>
          var booking := NewBooking(bookingId, cid, caller.id, cls.academy, now);
          (Ok(201, booking), AfterBooking(db, booking, cls.academy, caller.id))
  }

  /**
   * The class id is matched whatever the case of its hexadecimal digits: two
   * spellings of one id book (or are refused) alike.
   */
  lemma BookClassIgnoresCase(db: Db, caller: Caller, classId: string, other: string, bookingId: Id, now: int)
    requires caller.role == Dancer
    requires CastId(classId) == CastId(other)
    ensures BookClass(db, caller, Some(classId), bookingId, now) == BookClass(db, caller, Some(other), bookingId, now)
  {
    CastIdCanonical(classId);
    CastIdCanonical(other);
  }

  /** Only an active booking blocks: a class whose earlier bookings by this dancer are all cancelled can be booked again. */
  lemma CancelledBookingDoesNotBlock(db: Db, caller: Caller, classId: string, bookingId: Id, now: int)
    requires caller.role == Dancer
    requires IsObjectId(classId) && ClassIndex(db, CastId(classId)).Some?
    requires forall i :: 0 <= i < |db.bookings| && db.bookings[i].classId == CastId(classId) && db.bookings[i].dancer == caller.id ==>
               db.bookings[i].status == Cancelled
    ensures BookClass(db, caller, Some(classId), bookingId, now).0.Ok?
  {
  }

  /** A successful booking blocks booking the same class again: the retry is 400 and changes nothing. */
  lemma {:induction false} BookTwiceRejected(db: Db, caller: Caller, classId: string, id1: Id, id2: Id, now1: int, now2: int)
    requires caller.role == Dancer
    requires BookClass(db, caller, Some(classId), id1, now1).0.Ok?
    ensures var db' := BookClass(db, caller, Some(classId), id1, now1).1;
            BookClass(db', caller, Some(classId), id2, now2) == (Err(400, Text("Already booked this class")), db')
  {
    var cid := CastId(classId);
    var r := BookClass(db, caller, Some(classId), id1, now1);
    var db' := r.1;
    assert db'.bookings[|db.bookings|] == r.0.body;
    assert IsActiveBookingOf(db'.bookings[|db.bookings|], cid, caller.id);
    assert HasActiveBooking(db', cid, caller.id);
    assert ClassIndex(db', cid) == ClassIndex(db, cid);
  }

  /**
   * However many times a dancer books, the academy's students list holds the
   * dancer exactly once after a successful booking (if it held it at most once before).
   */
  lemma {:induction false} BookingAddsStudentOnce(db: Db, caller: Caller, classId: string, bookingId: Id, now: int)
    requires caller.role == Dancer
    requires BookClass(db, caller, Some(classId), bookingId, now).0.Ok?
    requires var academyId := db.classes[ClassIndex(db, CastId(classId)).value].academy;
             AcademyIndex(db, academyId).Some? && academyId != caller.id
             && Store.Count(db.users[AcademyIndex(db, academyId).value].profile.students, caller.id) <= 1
    ensures var db' := BookClass(db, caller, Some(classId), bookingId, now).1;
            var i := AcademyIndex(db, db.classes[ClassIndex(db, CastId(classId)).value].academy).value;
            && db'.users[i].profile.AcademyProfile?
            && Store.Count(db'.users[i].profile.students, caller.id) == 1
  {
    var academyId := db.classes[ClassIndex(db, CastId(classId)).value].academy;
    var booking := BookClass(db, caller, Some(classId), bookingId, now).0.body;
    StudentAddedOnce(db, booking, academyId, caller.id);
  }

  lemma StudentAddedOnce(db: Db, booking: Booking, academyId: Id, dancer: Id)
    requires AcademyIndex(db, academyId).Some? && academyId != dancer
    requires Store.Count(db.users[AcademyIndex(db, academyId).value].profile.students, dancer) <= 1
    ensures var i := AcademyIndex(db, academyId).value;
            && AfterBooking(db, booking, academyId, dancer).users[i].profile.AcademyProfile?
            && Store.Count(AfterBooking(db, booking, academyId, dancer).users[i].profile.students, dancer) == 1
  {
    var i := AcademyIndex(db, academyId).value;
    var db1 := db.(bookings := db.bookings + [booking]);
    assert db1.users == db.users;
    assert AcademyIndex(db1, academyId) == Some(i);
    var db2 := AddStudent(db1, academyId, dancer);
    assert Store.Count(db2.users[i].profile.students, dancer) == 1;
    assert db2.users[i].id == academyId;
  }

  /** A successful booking appends its id to the end of the dancer's bookings list. */
  lemma {:induction false} BookingAppendsToDancer(db: Db, caller: Caller, classId: string, bookingId: Id, now: int)
    requires caller.role == Dancer
    requires IsObjectId(classId) && ClassIndex(db, CastId(classId)).Some?
    requires !HasActiveBooking(db, CastId(classId), caller.id)
    requires UserIndex(db, caller.id).Some? && db.users[UserIndex(db, caller.id).value].profile.DancerProfile?
    ensures var db' := BookClass(db, caller, Some(classId), bookingId, now).1;
            var i := UserIndex(db, caller.id).value;
            && db'.users[i].profile.DancerProfile?
            && db'.users[i].profile.bookings == db.users[i].profile.bookings + [bookingId]
  {
    var academyId := db.classes[ClassIndex(db, CastId(classId)).value].academy;
    var booking := BookClass(db, caller, Some(classId), bookingId, now).0.body;
    BookingPushedToDancer(db, booking, academyId, caller.id);
  }

  lemma BookingPushedToDancer(db: Db, booking: Booking, academyId: Id, dancer: Id)
    requires UserIndex(db, dancer).Some? && db.users[UserIndex(db, dancer).value].profile.DancerProfile?
    ensures var i := UserIndex(db, dancer).value;
            && AfterBooking(db, booking, academyId, dancer).users[i].profile.DancerProfile?
            && AfterBooking(db, booking, academyId, dancer).users[i].profile.bookings
               == db.users[i].profile.bookings + [booking.id]
  {
    var i := UserIndex(db, dancer).value;
    var db1 := db.(bookings := db.bookings + [booking]);
    assert db1.users == db.users;
    var db2 := AddStudent(db1, academyId, dancer);
    assert db2.users[i] == db.users[i] by {
      if AcademyIndex(db1, academyId).Some? {
        assert AcademyIndex(db1, academyId).value != i;
      }
    }
    assert forall j :: 0 <= j < |db.users| ==> db2.users[j].id == db.users[j].id;
    UserIndexSameIds(db, db2, dancer);
  }

  /** GET /academy/bookings/my (dancers only): exactly the caller's bookings. */
  function GetMyBookings(db: Db, caller: Caller): (r: Reply<seq<Booking>>)
    ensures r.Ok? && r.status == 200
    ensures forall i :: 0 <= i < |r.body| ==> r.body[i].dancer == caller.id && r.body[i] in db.bookings
    ensures forall i :: 0 <= i < |db.bookings| && db.bookings[i].dancer == caller.id ==> db.bookings[i] in r.body
    ensures forall b :: multiset(r.body)[b] == if b.dancer == caller.id then multiset(db.bookings)[b] else 0
  {
    Ok(200, Store.Filter(db.bookings, (b: Booking) => b.dancer == caller.id))
  }
}
