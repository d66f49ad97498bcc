/**
 * The document store the handlers read and write, and the authenticated
 * caller the authentication middleware attaches to a request.
 */
module Db {
  import opened Shared
  import opened UserModel
  import opened BookingModel
  import opened EnrollmentModel
  import opened ContentModels
  import Store

  datatype Db = Db(
    users: seq<User>,
    classes: seq<DanceClass>,
    bookings: seq<Booking>,
    enrollments: seq<Enrollment>,
    events: seq<Event>,
    promotions: seq<Promotion>)

  /** The authenticated user of a request: its id, role and stored location. */
  datatype Caller = Caller(id: Id, role: Role, location: Option<Point>)

  /** `findById` on the users collection. */
  function UserIndex(db: Db, id: Id): (r: Option<nat>)
    ensures r.Some? ==> r.value < |db.users| && db.users[r.value].id == id
    ensures r.Some? ==> forall j :: 0 <= j < r.value ==> db.users[j].id != id
    ensures r.None? <==> forall j :: 0 <= j < |db.users| ==> db.users[j].id != id
  {
    Store.FirstIndex(db.users, (u: User) => u.id == id)
  }

  /** The lookup by id sees only the ids: two stores whose users carry the same ids in the same order agree on it. */
  lemma UserIndexSameIds(db: Db, db': Db, id: Id)
    requires |db'.users| == |db.users|
    requires forall j :: 0 <= j < |db.users| ==> db'.users[j].id == db.users[j].id
    ensures UserIndex(db', id) == UserIndex(db, id)
  {
  }

  /** `findById` through the academy variant's model: only an academy document matches. */
  function AcademyIndex(db: Db, id: Id): (r: Option<nat>)
    ensures r.Some? ==> r.value < |db.users| && db.users[r.value].id == id
    ensures r.Some? ==> db.users[r.value].profile.AcademyProfile?
    ensures r.Some? ==> r == UserIndex(db, id)
  {
    match UserIndex(db, id)
    case Some(i) => if db.users[i].profile.AcademyProfile? then Some(i) else None
    case None => None
  }

  /** Rewriting an academy in place, keeping its id and variant, keeps it the academy found under that id. */
  lemma AcademyIndexAfterUpdate(db: Db, i: nat, u: User)
    requires i < |db.users| && AcademyIndex(db, db.users[i].id) == Some(i)
    requires u.id == db.users[i].id && u.profile.AcademyProfile?
    ensures AcademyIndex(WithUser(db, i, u), u.id) == Some(i)
  {
    UserIndexSameIds(db, WithUser(db, i, u), u.id);
  }

  /** `findById` on the promotions collection. */
  function PromotionIndex(db: Db, id: Id): (r: Option<nat>)
    ensures r.Some? ==> r.value < |db.promotions| && db.promotions[r.value].id == id
    ensures r.Some? ==> forall j :: 0 <= j < r.value ==> db.promotions[j].id != id
    ensures r.None? <==> forall j :: 0 <= j < |db.promotions| ==> db.promotions[j].id != id
  {
    Store.FirstIndex(db.promotions, (p: Promotion) => p.id == id)
  }

  /** Replace the user at position `i`, leaving every other document as it was. */
  function WithUser(db: Db, i: nat, u: User): (r: Db)
    requires i < |db.users|
    ensures r.users == db.users[i := u]
    ensures r.(users := db.users) == db
  {
    db.(users := db.users[i := u])
  }
}
