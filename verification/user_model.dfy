/**
 * The users collection: one base record (name, unique email, optional
 * password, ...) whose `role` tag selects the variant with the role's extra
 * fields, and the save hook that hashes a modified password.
 */
module UserModel {
  import opened Shared

  datatype Role = Dancer | Establishment | Academy | Admin

  /** The stored spelling of a role tag. */
  function RoleName(r: Role): string {
    match r
    case Dancer => "dancer"
    case Establishment => "establishment"
    case Academy => "academy"
    case Admin => "admin"
  }

  /** The role a string names; the role enum admits exactly the four tags. */
  function ParseRole(s: string): (r: Option<Role>)
    ensures r.Some? ==> RoleName(r.value) == s
    ensures forall role: Role :: RoleName(role) == s ==> r == Some(role)
  {
    match s
    case "dancer" => Some(Dancer)
    case "establishment" => Some(Establishment)
    case "academy" => Some(Academy)
    case "admin" => Some(Admin)
    case _ => None
  }

  /** A GeoJSON Point: `{ type: "Point", coordinates: [longitude, latitude] }`. */
  datatype Point = Point(coordinates: seq<real>)

  /** One day of an academy's weekly timetable. */
  datatype DayHours = DayHours(open: bool, openTime: string, closeTime: string)

  /** An academy's weekly timetable, keyed by day abbreviation. */
  type Schedule = map<string, DayHours>

  datatype PriceType = Individual | Couples | Private

  /** One entry of an academy's price list. */
  datatype PriceItem = PriceItem(id: string, kind: PriceType, monthlyPrice: real, classesPerWeek: int)

  /** The role-specific part of a user record; its constructor is the role tag. */
  datatype Profile =
    | DancerProfile(location: Option<Point>, bookings: seq<Id>)
    | EstablishmentProfile(address: string, description: Option<string>, location: Option<Point>)
    | AcademyProfile(address: string, description: Option<string>, location: Option<Point>,
                     students: seq<Id>, schedule: Option<Schedule>, prices: Option<seq<PriceItem>>)
    | AdminProfile

  /** The stored location of a profile; admins have none. */
  function LocationOf(p: Profile): Option<Point> {
    match p
    case DancerProfile(loc, _) => loc
    case EstablishmentProfile(_, _, loc) => loc
    case AcademyProfile(_, _, loc, _, _, _) => loc
    case AdminProfile => None
  }

  datatype User = User(
    id: Id,
    name: string,
    email: string,
    phone: Option<string>,
    password: Option<string>,
    avatar: Option<string>,
    deviceToken: Option<string>,
    googleId: Option<string>,
    createdAt: int,
    profile: Profile)
  {
    /** The discriminator: the role is determined by the variant. */
    function Role(): (r: Role)
      ensures r == Dancer <==> profile.DancerProfile?
      ensures r == Establishment <==> profile.EstablishmentProfile?
      ensures r == Academy <==> profile.AcademyProfile?
      ensures r == Admin <==> profile.AdminProfile?
    {
      match profile
      case DancerProfile(_, _) => Dancer
      case EstablishmentProfile(_, _, _) => Establishment
      case AcademyProfile(_, _, _, _, _, _) => Academy
      case AdminProfile => Admin
    }
  }

  /**
   * The schema's required-field validation: `name` and `email` present (a
   * required string refuses ""), and `address` for establishments and academies.
   */
  predicate HasRequiredFields(u: User) {
    && u.name != ""
    && u.email != ""
    && (u.profile.EstablishmentProfile? || u.profile.AcademyProfile? ==> u.profile.address != "")
  }

  /**
   * Saving a user document. `stored` is the persisted version (None for a new
   * document) and `hash` stands for salting and hashing. A password that
   * differs from the persisted one is replaced by its hash; an unchanged one
   * is kept as stored. Validation failure, or a password cleared to nothing
   * (hashing `undefined` throws), rejects the save (None).
   */
  function SaveUser(stored: Option<User>, u: User, hash: string -> string): (r: Option<User>)
    ensures r.Some? <==> HasRequiredFields(u) && (PasswordModified(stored, u) ==> u.password.Some?)
    ensures r.Some? && !PasswordModified(stored, u) ==> r.value == u
    ensures r.Some? && PasswordModified(stored, u) ==> r.value == u.(password := Some(hash(u.password.value)))
  {
    if !HasRequiredFields(u) then None
    else if !PasswordModified(stored, u) then Some(u)
    else match u.password
      case None => None
      case Some(p) => Some(u.(password := Some(hash(p))))
  }

  /** Whether the save sees the password path as modified. */
  predicate PasswordModified(stored: Option<User>, u: User) {
    match stored
    case None => u.password.Some?
    case Some(before) => before.password != u.password
  }

  /** Saving a document whose password was not touched keeps the stored hash. */
  lemma SaveKeepsUntouchedHash(stored: User, u: User, hash: string -> string)
    requires HasRequiredFields(u)
    requires u.password == stored.password
    ensures SaveUser(Some(stored), u, hash) == Some(u)
    ensures SaveUser(Some(stored), u, hash).value.password == stored.password
  {
  }
}
