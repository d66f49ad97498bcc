/** The classes, events and promotions collections. */
module ContentModels {
  import opened Shared
  import opened UserModel

  datatype Level = Beginner | Intermediate | Advanced | AllLevels

  /** The name a level is stored and sent under. */
  function LevelName(l: Level): string {
    match l
    case Beginner => "Beginner"
    case Intermediate => "Intermediate"
    case Advanced => "Advanced"
    case AllLevels => "All Levels"
  }

  /** The level a string names: exactly one of the four level names. */
  function ParseLevel(s: string): (r: Option<Level>)
    ensures r.Some? <==> s in {"Beginner", "Intermediate", "Advanced", "All Levels"}
    ensures r.Some? ==> LevelName(r.value) == s
  {
    match s
    case "Beginner" => Some(Beginner)
    case "Intermediate" => Some(Intermediate)
    case "Advanced" => Some(Advanced)
    case "All Levels" => Some(AllLevels)
    case _ => None
  }

  /** Every level parses back from its name. */
  lemma ParseLevelName(l: Level)
    ensures ParseLevel(LevelName(l)) == Some(l)
  {
    match l
    case Beginner =>
    case Intermediate =>
    case Advanced =>
    case AllLevels =>
  }

  /** A class an academy offers; `academy` is the owning academy's id. */
  datatype DanceClass = DanceClass(
    id: Id,
    name: string,
    description: Option<string>,
    level: Level,
    schedule: string,
    price: real,
    academy: Id,
    createdAt: int)

  /** A nightlife event of an establishment, optionally placed on the map. */
  datatype Event = Event(
    id: Id,
    name: string,
    description: Option<string>,
    date: int,
    establishment: Id,
    location: Option<Point>,
    coverCharge: real,
    createdAt: int)

  datatype DiscountType = Percentage | Fixed | FreePass

  /** The name a discount type is stored and sent under. */
  function DiscountTypeName(d: DiscountType): string {
    match d
    case Percentage => "percentage"
    case Fixed => "fixed"
    case FreePass => "free_pass"
  }

  /** The discount type a string names: exactly "percentage", "fixed" or "free_pass". */
  function ParseDiscountType(s: string): (r: Option<DiscountType>)
    ensures r.Some? <==> s in {"percentage", "fixed", "free_pass"}
    ensures r.Some? ==> DiscountTypeName(r.value) == s
  {
    match s
    case "percentage" => Some(Percentage)
    case "fixed" => Some(Fixed)
    case "free_pass" => Some(FreePass)
    case _ => None
  }

  /** Every discount type parses back from its name. */
  lemma ParseDiscountTypeName(d: DiscountType)
    ensures ParseDiscountType(DiscountTypeName(d)) == Some(d)
  {
    match d
    case Percentage =>
    case Fixed =>
    case FreePass =>
  }

  /** A promotion of an establishment; `qrCodeData` holds the rendered QR image. */
  datatype Promotion = Promotion(
    id: Id,
    title: string,
    description: string,
    discountType: DiscountType,
    value: Option<real>,
    establishment: Id,
    qrCodeData: Option<string>,
    validUntil: int,
    createdAt: int)
}
