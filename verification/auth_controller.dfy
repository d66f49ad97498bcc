/**
 * Accounts: registration with role-dependent validation and dispatch to the
 * role's variant, login with the most recently updated approved enrollment
 * attached, and a partial profile update.
 */
module AuthController {
  import opened Shared
  import opened Json
  import opened UserModel
  import opened EnrollmentModel
  import opened Db
  import Store
  import Text

  /**
   * The email shape the registration schema demands, approximated: no white
   * space, exactly one '@' with a non-empty local part before it, and a
   * domain after it with a dot that neither starts nor ends it.
   */
  predicate IsEmailShaped(s: string) {
    && (forall i :: 0 <= i < |s| ==> !Text.IsSpace(s[i]))
    && exists k :: 0 < k < |s| && s[k] == '@' && AtSplitsEmail(s, k)
  }

  predicate AtSplitsEmail(s: string, k: nat)
    requires k < |s|
  {
    var local := s[..k];
    var domain := s[k + 1..];
    && '@' !in local && '@' !in domain
    && |domain| >= 3 && '.' in domain && domain[0] != '.' && domain[|domain| - 1] != '.'
  }

  const RegisterKeys: set<string> := {"name", "email", "password", "role", "address", "description", "location"}

  /** The role a valid registration body names. */
  function BodyRole(body: Json): Option<Role> {
    match StringField(body, "role")
    case Some(s) => ParseRole(s)
    case None => None
  }

  /**
   * The registration schema: only known keys; a non-empty name; an
   * email-shaped email; a password at least six UTF-16 code units long; one of
   * the four roles; an address, required exactly for establishments and
   * academies; an optional non-empty description; and an optional location
   * that is an array of exactly two numbers within the safe range.
   */
  predicate ValidRegisterBody(body: Json) {
    && body.JObj?
    && body.fields.Keys <= RegisterKeys
    && HasNonEmptyString(body, "name")
    && StringField(body, "email").Some? && IsEmailShaped(StringField(body, "email").value)
    && StringField(body, "password").Some? && Text.Utf16Length(StringField(body, "password").value) >= 6
    && BodyRole(body).Some?
    && OptionalNonEmptyString(body, "address")
    && (BodyRole(body).value in {Establishment, Academy} ==> "address" in body.fields)
    && OptionalNonEmptyString(body, "description")
    && (Field(body, "location").Some? ==> IsCoordinatePair(Field(body, "location").value))
  }

  predicate IsCoordinatePair(v: Json) {
    v.JArr? && |v.items| == 2 && IsSchemaNumber(v.items[0]) && IsSchemaNumber(v.items[1])
  }

  /** The numbers of a coordinate pair. */
  function Coordinates(v: Json): (c: seq<real>)
    requires IsCoordinatePair(v)
    ensures |c| == 2 && JNum(c[0]) == v.items[0] && JNum(c[1]) == v.items[1]
  {
    [v.items[0].n, v.items[1].n]
  }

  predicate EmailTaken(db: Db, email: string) {
    exists i :: 0 <= i < |db.users| && db.users[i].email == email
  }

  /** What registration answers: the new account's id, name, email and role. */
  datatype AccountSummary = AccountSummary(id: Id, name: string, email: string, role: Role)

  /**
   * The document a valid body builds: a dancer, establishment or academy
   * variant (with a Point location only when one was given), or a plain user for
   * an admin, which ignores address, description and location.
   */
  function BuildUser(body: Json, id: Id, now: int): (u: User)
    requires ValidRegisterBody(body)
    ensures u.id == id && u.createdAt == now
    ensures JStr(u.name) == body.fields["name"] && JStr(u.email) == body.fields["email"]
    ensures Some(u.Role()) == BodyRole(body)
    ensures u.password == StringField(body, "password")
    ensures u.avatar.None? && u.deviceToken.None? && u.googleId.None? && u.phone.None?
    ensures u.Role() == Admin ==> LocationOf(u.profile).None?
    ensures u.Role() != Admin ==> (LocationOf(u.profile).Some? <==> "location" in body.fields)
    ensures u.Role() != Admin && "location" in body.fields ==>
              LocationOf(u.profile) == Some(Point(Coordinates(body.fields["location"])))
    ensures u.profile.EstablishmentProfile? || u.profile.AcademyProfile? ==>
              JStr(u.profile.address) == body.fields["address"]
              && u.profile.description == StringField(body, "description")
    ensures u.profile.DancerProfile? ==> u.profile.bookings == []
    ensures u.profile.AcademyProfile? ==> u.profile.students == [] && u.profile.schedule.None? && u.profile.prices.None?
    ensures UserModel.HasRequiredFields(u)
  {
    var location := if "location" in body.fields then Some(Point(Coordinates(body.fields["location"]))) else None;
    var profile := match BodyRole(body).value
      case Dancer => DancerProfile(location, [])
      case Establishment => EstablishmentProfile(body.fields["address"].s, StringField(body, "description"), location)
      case Academy => AcademyProfile(body.fields["address"].s, StringField(body, "description"), location, [], None, None)
      case Admin => AdminProfile;
    User(id, body.fields["name"].s, body.fields["email"].s, None, StringField(body, "password"),
         None, None, None, now, profile)
  }

  /**
   * POST /auth/register. A body the schema refuses is 400 with the schema's
   * message; an email already registered is 400 "User already exists"; both
   * create nothing. Otherwise the built user is saved, which hashes its
   * password, and appended to the users collection.
   */
  function Register(db: Db, body: Json, id: Id, now: int, hash: string -> string): (r: (Reply<AccountSummary>, Db))
    ensures !ValidRegisterBody(body) ==> r == (Err(400, SchemaDetail), db)
    ensures ValidRegisterBody(body) && EmailTaken(db, body.fields["email"].s) ==>
              r == (Err(400, Text("User already exists")), db)
    ensures r.0.Ok? <==> ValidRegisterBody(body) && !EmailTaken(db, body.fields["email"].s)
    ensures r.0.Ok? ==>
              var u := BuildUser(body, id, now);
              && r.0 == Ok(201, AccountSummary(id, u.name, u.email, u.Role()))
              && r.1 == db.(users := db.users + [u.(password := Some(hash(u.password.value)))])
  {
    if !ValidRegisterBody(body) then (Err(400, SchemaDetail), db)
    else if Store.FirstIndex(db.users, (u: User) => u.email == body.fields["email"].s).Some? then
      (Err(400, Text("User already exists")), db)
    else
      var u := BuildUser(body, id, now);
      match SaveUser(None, u, hash)
      case Some(saved) => (Ok(201, AccountSummary(id, saved.name, saved.email, saved.Role())), db.(users := db.users + [saved]))
      case None => (ServerError(), db)
  }

  /** No two users share an email (the unique index on `email`). */
  predicate UniqueEmails(db: Db) {
    forall i, j :: 0 <= i < j < |db.users| ==> db.users[i].email != db.users[j].email
  }

  /** Registration keeps emails unique: a second account with a taken email is never created. */
  lemma {:induction false} RegisterKeepsEmailsUnique(db: Db, body: Json, id: Id, now: int, hash: string -> string)
    requires UniqueEmails(db)
    ensures UniqueEmails(Register(db, body, id, now, hash).1)
  {
    var r := Register(db, body, id, now, hash);
    if r.0.Ok? {
      var n := |db.users|;
      assert r.1.users[n].email == body.fields["email"].s;
      forall i, j | 0 <= i < j < |r.1.users|
        ensures r.1.users[i].email != r.1.users[j].email
      {
        if j == n {
          assert r.1.users[i] == db.users[i];
        } else {
          assert r.1.users[i] == db.users[i] && r.1.users[j] == db.users[j];
        }
      }
    }
  }

  /** An approved enrollment of `user`. */
  predicate IsApprovedFor(e: Enrollment, user: Id) {
    e.user == Some(user) && e.status == Approved
  }

  /**
   * The approved enrollment of `user` with the latest `updatedAt` (the first
   * such in collection order on a tie): `findOne(...).sort({ updatedAt: -1 })`.
   */
  function LatestApproved(es: seq<Enrollment>, user: Id): (r: Option<nat>)
    ensures r.Some? ==> r.value < |es| && IsApprovedFor(es[r.value], user)
    ensures r.Some? ==> forall j :: 0 <= j < |es| && IsApprovedFor(es[j], user) ==> es[j].updatedAt <= es[r.value].updatedAt
    ensures r.None? <==> forall j :: 0 <= j < |es| ==> !IsApprovedFor(es[j], user)
    decreases |es|
  {
    if |es| == 0 then None
    else
      var rest := LatestApproved(es[1..], user);
      if IsApprovedFor(es[0], user) && (rest.None? || es[rest.value + 1].updatedAt <= es[0].updatedAt) then Some(0)
      else if rest.Some? then Some(rest.value + 1)
      else None
  }

  /** The academy an approved enrollment points at, as the login answer shows it. */
  datatype EnrolledAcademy = EnrolledAcademy(id: Option<Id>, name: Option<string>, status: EnrollmentStatus)

  datatype LoginPayload = LoginPayload(id: Id, name: string, email: string, role: Role, enrolledAcademy: Option<EnrolledAcademy>)

  const InvalidCredentials: Reply<LoginPayload> := Err(401, Text("Invalid email or password"))

  /** The view of an enrollment's academy: its id and name when the referenced user exists, neither otherwise. */
  function AcademyView(db: Db, e: Enrollment): (v: EnrolledAcademy)
    ensures v.status == e.status
    ensures v.id.Some? <==> UserIndex(db, e.academy).Some?
    ensures v.id.Some? ==> v.id.value == e.academy && v.name == Some(db.users[UserIndex(db, e.academy).value].name)
    ensures v.id.None? ==> v.name.None?
  {
    match UserIndex(db, e.academy)
    case Some(i) => EnrolledAcademy(Some(db.users[i].id), Some(db.users[i].name), e.status)
    case None => EnrolledAcademy(None, None, e.status)
  }

  /** The first user registered with `email`. */
  function UserByEmail(db: Db, email: string): (r: Option<nat>)
    ensures r.Some? ==> r.value < |db.users| && db.users[r.value].email == email
    ensures r.Some? ==> forall j :: 0 <= j < r.value ==> db.users[j].email != email
    ensures r.None? <==> !EmailTaken(db, email)
  {
    Store.FirstIndex(db.users, (u: User) => u.email == email)
  }

  /**
   * POST /auth/login. `matches` stands for comparing a password with a stored
   * hash. An unknown email and a wrong password get the same 401; a user with
   * no stored password makes the comparison throw (500). On success the answer
   * carries `enrolledAcademy` exactly when the user has an approved enrollment,
   * taken from the latest updated one.
   */
  function Login(db: Db, email: string, password: string, matches: (string, string) -> bool): (r: Reply<LoginPayload>)
    ensures !EmailTaken(db, email) ==> r == InvalidCredentials
    ensures EmailTaken(db, email) ==>
              var u := db.users[UserByEmail(db, email).value];
              && (u.password.None? ==> r == Err(500, Text("Server error")))
              && (u.password.Some? && !matches(password, u.password.value) ==> r == InvalidCredentials)
              && (u.password.Some? && matches(password, u.password.value) <==> r.Ok?)
    ensures r.Ok? ==>
              var u := db.users[UserByEmail(db, email).value];
              && r.status == 200
              && r.body.id == u.id && r.body.name == u.name && r.body.email == email && r.body.role == u.Role()
              && (r.body.enrolledAcademy.Some? <==> exists j :: 0 <= j < |db.enrollments| && IsApprovedFor(db.enrollments[j], u.id))
              && (r.body.enrolledAcademy.Some? ==>
                    && r.body.enrolledAcademy.value.status == Approved
                    && exists j :: 0 <= j < |db.enrollments| && IsApprovedFor(db.enrollments[j], u.id)
                         && r.body.enrolledAcademy.value == AcademyView(db, db.enrollments[j])
                         && forall k :: 0 <= k < |db.enrollments| && IsApprovedFor(db.enrollments[k], u.id) ==>
                              db.enrollments[k].updatedAt <= db.enrollments[j].updatedAt)
  {
    match UserByEmail(db, email)
    case None => InvalidCredentials
    case Some(i) =>
      var u := db.users[i];
      if u.password.None? then Err(500, Text("Server error"))
      else if !matches(password, u.password.value) then InvalidCredentials
      else
        var enrolled := match LatestApproved(db.enrollments, u.id)
          case Some(j) => Some(AcademyView(db, db.enrollments[j]))
          case None => None;
        Ok(200, LoginPayload(u.id, u.name, u.email, u.Role(), enrolled))
  }

  /** Registering and then logging in with the same email and password succeeds, as the new account. */
  lemma {:induction false} RegisterThenLogin(db: Db, body: Json, id: Id, now: int, hash: string -> string,
                                             matches: (string, string) -> bool)
    requires Register(db, body, id, now, hash).0.Ok?
    requires forall p :: matches(p, hash(p))
    ensures var db' := Register(db, body, id, now, hash).1;
            var r := Login(db', body.fields["email"].s, body.fields["password"].s, matches);
            r.Ok? && r.body.id == id && Some(r.body.role) == BodyRole(body)
  {
    var email := body.fields["email"].s;
    var db' := Register(db, body, id, now, hash).1;
    var n := |db.users|;
    assert db'.users[n].email == email;
    assert forall j :: 0 <= j < n ==> db'.users[j] == db.users[j];
    assert UserByEmail(db', email) == Some(n);
    assert db'.users[n].password == Some(hash(body.fields["password"].s));
  }

  const ProfileKeys: set<string> := {"name", "avatar"}

  /** The profile schema: at least one of the two known keys; a non-empty name; any string avatar, "" included. */
  predicate ValidProfileBody(body: Json) {
    && body.JObj?
    && body.fields.Keys <= ProfileKeys
    && |body.fields.Keys| >= 1
    && OptionalNonEmptyString(body, "name")
    && OptionalString(body, "avatar")
  }

  /** The user with only the fields present in a valid body overwritten. */
  function ApplyProfile(u: User, body: Json): (u': User)
    requires ValidProfileBody(body)
    ensures u'.(name := u.name, avatar := u.avatar) == u
    ensures "name" in body.fields ==> body.fields["name"] == JStr(u'.name)
    ensures "name" !in body.fields ==> u'.name == u.name
    ensures "avatar" in body.fields ==> u'.avatar.Some? && body.fields["avatar"] == JStr(u'.avatar.value)
    ensures "avatar" !in body.fields ==> u'.avatar == u.avatar
  {
    u.(name := StringField(body, "name").GetOr(u.name),
       avatar := if "avatar" in body.fields then Some(body.fields["avatar"].s) else u.avatar)
  }

  /**
   * PATCH /auth/profile: set the given fields of the caller's document and
   * nothing else (the save hook does not run, so the stored password hash is
   * untouched). The answer leaves out the password and Google id.
   */
  function UpdateProfile(db: Db, caller: Caller, body: Json): (r: (Reply<User>, Db))
    ensures r.0.Err? ==> r.1 == db
    ensures !ValidProfileBody(body) ==> r.0 == Err(400, SchemaDetail)
    ensures ValidProfileBody(body) && UserIndex(db, caller.id).None? ==> r.0 == Err(404, Text("User not found"))
    ensures r.0.Ok? <==> ValidProfileBody(body) && UserIndex(db, caller.id).Some?
    ensures r.0.Ok? ==>
              var i := UserIndex(db, caller.id).value;
              && r.1 == WithUser(db, i, ApplyProfile(db.users[i], body))
              && r.0 == Ok(200, ApplyProfile(db.users[i], body).(password := None, googleId := None))
  {
    if !ValidProfileBody(body) then (Err(400, SchemaDetail), db)
    else match UserIndex(db, caller.id)
      case None => (Err(404, Text("User not found")), db)
      case Some(i) =>
        var u := ApplyProfile(db.users[i], body);
        (Ok(200, u.(password := None, googleId := None)), WithUser(db, i, u))
  }

  /** Repeating a profile update changes nothing further. */
  lemma UpdateProfileIdempotent(db: Db, caller: Caller, body: Json)
    requires UpdateProfile(db, caller, body).0.Ok?
    ensures var db' := UpdateProfile(db, caller, body).1;
            UpdateProfile(db', caller, body).1 == db'
  {
    var db' := UpdateProfile(db, caller, body).1;
    var i := UserIndex(db, caller.id).value;
    assert forall j :: 0 <= j < |db.users| ==> db'.users[j].id == db.users[j].id;
    assert UserIndex(db', caller.id) == Some(i);
    assert ApplyProfile(db'.users[i], body) == db'.users[i];
  }
}
