/**
 * An academy's price list: who may read and replace it, what a valid price
 * item is, and the order-preserving normalisation applied before storing.
 */
module PricesController {
  import opened Shared
  import opened Json
  import opened UserModel
  import opened Db

  function PriceTypeName(t: PriceType): string {
    match t
    case Individual => "individual"
    case Couples => "couples"
    case Private => "private"
  }

  /** The price type a string names: exactly "individual", "couples" or "private". */
  function ParsePriceType(s: string): (r: Option<PriceType>)
    ensures r.Some? <==> s in {"individual", "couples", "private"}
    ensures r.Some? ==> PriceTypeName(r.value) == s
  {
    match s
    case "individual" => Some(Individual)
    case "couples" => Some(Couples)
    case "private" => Some(Private)
    case _ => None
  }

  /** The academy itself or an admin; ids are compared as strings, before any cast. */
  predicate CanAccess(caller: Caller, userId: string) {
    userId == caller.id || caller.role == Admin
  }

  /**
   * A price item: a non-empty string `id`, a known `type`, a non-negative
   * `monthlyPrice` within the safe number range and an integral
   * `classesPerWeek` between 1 and 7. Other keys are stripped.
   */
  predicate ValidItem(v: Json) {
    && HasNonEmptyString(v, "id")
    && Field(v, "type").Some? && Field(v, "type").value.JStr? && ParsePriceType(Field(v, "type").value.s).Some?
    && Field(v, "monthlyPrice").Some? && IsSchemaNumber(Field(v, "monthlyPrice").value) && Field(v, "monthlyPrice").value.n >= 0.0
    && Field(v, "classesPerWeek").Some? && IsInteger(Field(v, "classesPerWeek").value)
    && 1.0 <= Field(v, "classesPerWeek").value.n <= 7.0
  }

  /** The request body: an object whose `prices` is an array of valid items (possibly empty). */
  predicate ValidPricesBody(body: Json) {
    && Field(body, "prices").Some?
    && Field(body, "prices").value.JArr?
    && forall i :: 0 <= i < |Field(body, "prices").value.items| ==> ValidItem(Field(body, "prices").value.items[i])
  }

  /** `Math.min(7, Math.max(1, Math.floor(x)))`. */
  function ClampClassesPerWeek(x: real): (r: int)
    ensures 1 <= r <= 7
    ensures x.Floor as real == x && 1.0 <= x <= 7.0 ==> r as real == x
    ensures 1 <= x.Floor <= 7 ==> r == x.Floor
  {
    var f := x.Floor;
    var atLeastOne := if f < 1 then 1 else f;
    if atLeastOne > 7 then 7 else atLeastOne
  }

  function NormalizeItem(v: Json): (p: PriceItem)
    requires ValidItem(v)
    ensures JStr(p.id) == v.fields["id"]
    ensures JStr(PriceTypeName(p.kind)) == v.fields["type"]
    ensures JNum(p.monthlyPrice) == v.fields["monthlyPrice"]
    ensures JNum(p.classesPerWeek as real) == v.fields["classesPerWeek"]
  {
    PriceItem(
      v.fields["id"].s,
      ParsePriceType(v.fields["type"].s).value,
      v.fields["monthlyPrice"].n,
      ClampClassesPerWeek(v.fields["classesPerWeek"].n))
  }

  /** The normalised list: one item per input item, in the same order. */
  function Normalize(body: Json): (ps: seq<PriceItem>)
    requires ValidPricesBody(body)
    ensures |ps| == |body.fields["prices"].items|
    ensures forall i :: 0 <= i < |ps| ==> ps[i] == NormalizeItem(body.fields["prices"].items[i])
    ensures forall i :: 0 <= i < |ps| ==> WellFormed(ps[i])
  {
    var items := body.fields["prices"].items;
    seq(|items|, i requires 0 <= i < |items| => NormalizeItem(items[i]))
  }

  /** A stored price item that a request could have produced. */
  predicate WellFormed(p: PriceItem) {
    p.id != "" && 0.0 <= p.monthlyPrice <= MaxSafeInteger && 1 <= p.classesPerWeek <= 7
  }

  function ItemToJson(p: PriceItem): (v: Json)
    ensures WellFormed(p) <==> ValidItem(v)
  {
    JObj(map[
      "id" := JStr(p.id),
      "type" := JStr(PriceTypeName(p.kind)),
      "monthlyPrice" := JNum(p.monthlyPrice),
      "classesPerWeek" := JNum(p.classesPerWeek as real)])
  }

  function PricesToJson(ps: seq<PriceItem>): (body: Json)
    requires forall i :: 0 <= i < |ps| ==> WellFormed(ps[i])
    ensures ValidPricesBody(body)
  {
    JObj(map["prices" := JArr(seq(|ps|, i requires 0 <= i < |ps| => ItemToJson(ps[i])))])
  }

  /** Normalising the body of a well-formed price list gives the list back. */
  lemma NormalizeRoundTrip(ps: seq<PriceItem>)
    requires forall i :: 0 <= i < |ps| ==> WellFormed(ps[i])
    ensures Normalize(PricesToJson(ps)) == ps
  {
    var r := Normalize(PricesToJson(ps));
    forall i | 0 <= i < |ps|
      ensures r[i] == ps[i]
    {
      var v := ItemToJson(ps[i]);
      assert v.fields["type"] == JStr(PriceTypeName(ps[i].kind));
      assert ParsePriceType(PriceTypeName(ps[i].kind)) == Some(ps[i].kind) by {
        match ps[i].kind
        case Individual =>
        case Couples =>
        case Private =>
      }
    }
  }

  /**
   * GET /users/:userId/prices: the stored list, or [] when none is stored.
   * The academy is looked up under the cast id.
   */
  function GetPrices(db: Db, caller: Caller, userId: string): (r: Reply<seq<PriceItem>>)
    ensures !CanAccess(caller, userId) ==> r == Err(403, Text("Not authorized to read this academy's prices"))
    ensures CanAccess(caller, userId) && !IsObjectId(userId) ==> r == Err(400, Text("Invalid user ID"))
    ensures r.Err? && r.status == 404 <==>
              CanAccess(caller, userId) && IsObjectId(userId) && AcademyIndex(db, CastId(userId)).None?
    ensures r.Ok? <==> CanAccess(caller, userId) && IsObjectId(userId) && AcademyIndex(db, CastId(userId)).Some?
    ensures r.Ok? && db.users[AcademyIndex(db, CastId(userId)).value].profile.prices.None? ==> r.body == []
    ensures r.Ok? && db.users[AcademyIndex(db, CastId(userId)).value].profile.prices.Some? ==>
              r.body == db.users[AcademyIndex(db, CastId(userId)).value].profile.prices.value
  {
    if !CanAccess(caller, userId) then Err(403, Text("Not authorized to read this academy's prices"))
    else if !IsObjectId(userId) then Err(400, Text("Invalid user ID"))
    else match AcademyIndex(db, CastId(userId))
      case None => Err(404, Text("Academy not found"))
      case Some(i) => Ok(200, db.users[i].profile.prices.GetOr([]))
  }

  /**
   * PUT /users/:userId/prices: replace the whole stored list with the
   * normalised body. Authorisation, validation, id cast and lookup fail in
   * that order, each leaving the store unchanged.
   */
  function PutPrices(db: Db, caller: Caller, userId: string, body: Json): (r: (Reply<seq<PriceItem>>, Db))
    ensures r.0.Err? ==> r.1 == db
    ensures !CanAccess(caller, userId) ==> r.0 == Err(403, Text("Not authorized to update this academy's prices"))
    ensures CanAccess(caller, userId) && !ValidPricesBody(body) ==> r.0 == Err(400, SchemaDetail)
    ensures r.0.Err? && r.0.status == 400 && r.0.message == Text("Invalid user ID") <==>
              CanAccess(caller, userId) && ValidPricesBody(body) && !IsObjectId(userId)
    ensures r.0.Err? && r.0.status == 404 <==>
              CanAccess(caller, userId) && ValidPricesBody(body) && IsObjectId(userId) && AcademyIndex(db, CastId(userId)).None?
    ensures r.0.Ok? <==>
              CanAccess(caller, userId) && ValidPricesBody(body) && IsObjectId(userId) && AcademyIndex(db, CastId(userId)).Some?
    ensures r.0.Ok? ==> r.0.status == 200 && r.0.body == Normalize(body)
    ensures r.0.Ok? ==> var i := AcademyIndex(db, CastId(userId)).value;
              && r.1 == WithUser(db, i, db.users[i].(profile := db.users[i].profile.(prices := Some(Normalize(body)))))
  {
    if !CanAccess(caller, userId) then (Err(403, Text("Not authorized to update this academy's prices")), db)
    else if !ValidPricesBody(body) then (Err(400, SchemaDetail), db)
    else
      var normalized := Normalize(body);
      if !IsObjectId(userId) then (Err(400, Text("Invalid user ID")), db)
      else match AcademyIndex(db, CastId(userId))
        case None => (Err(404, Text("Academy not found")), db)
        case Some(i) =>
          var academy := db.users[i];
          var db' := WithUser(db, i, academy.(profile := academy.profile.(prices := Some(normalized))));
          (Ok(200, db'.users[i].profile.prices.GetOr([])), db')
  }

  /** A stored price list is what a later GET returns, whatever was stored before. */
  lemma PutThenGet(db: Db, caller: Caller, userId: string, body: Json)
    requires PutPrices(db, caller, userId, body).0.Ok?
    ensures GetPrices(PutPrices(db, caller, userId, body).1, caller, userId) == Ok(200, Normalize(body))
  {
    var db' := PutPrices(db, caller, userId, body).1;
    var i := AcademyIndex(db, CastId(userId)).value;
    AcademyIndexAfterUpdate(db, i, db'.users[i]);
  }
}
