/**
 * The dancer's discovery endpoints: the coordinate check and default radius
 * of the nearby searches, a promotion's QR code with its expiry check, and
 * the list of promotions still valid.
 */
module DancerController {
  import opened Shared
  import opened ContentModels
  import opened Db
  import Store
  import EstablishmentController
  import UserModel
  import Text

  /** The search radius in meters when the query gives none. */
  const DefaultMaxDistance: int := 10000

  /** The radius a nearby search uses: the default number, or the query's text as given. */
  datatype MaxDistance = DefaultMeters(meters: int) | FromQuery(raw: string)

  /** The parameters a nearby search goes on with once the coordinate check has passed. */
  datatype NearbyQuery = NearbyQuery(longitude: string, latitude: string, maxDistance: MaxDistance)

  /**
   * The check that opens both nearby searches (academies and events): a
   * missing or empty longitude or latitude is 400; an absent radius takes the
   * default (an empty one is kept as given).
   */
  function CheckNearbyQuery(longitude: Option<string>, latitude: Option<string>, maxDistance: Option<string>): (r: Reply<NearbyQuery>)
    ensures r.Err? <==> !Truthy(longitude) || !Truthy(latitude)
    ensures r.Err? ==> r == Err(400, Text("Please provide longitude and latitude"))
    ensures r.Ok? ==> r.status == 200 && r.body.longitude == longitude.value && r.body.latitude == latitude.value
    ensures r.Ok? && maxDistance.None? ==> r.body.maxDistance == DefaultMeters(10000)
    ensures r.Ok? && maxDistance.Some? ==> r.body.maxDistance == FromQuery(maxDistance.value)
  {
    if !Truthy(longitude) || !Truthy(latitude) then Err(400, Text("Please provide longitude and latitude"))
    else
      var radius := match maxDistance
        case None => DefaultMeters(DefaultMaxDistance)
        case Some(d) => FromQuery(d);
      Ok(200, NearbyQuery(longitude.value, latitude.value, radius))
  }

  /**
   * The `$maxDistance` the search is given: `parseInt` with no radix of the
   * radius, which turns the default number 10000 into 10000 and query text
   * into the integer it begins with, read in base 16 after a "0x" prefix
   * (`None` for `NaN`).
   */
  function RadiusMeters(m: MaxDistance): (r: Option<int>)
    ensures m.DefaultMeters? ==> r == Some(m.meters)
    ensures m.FromQuery? && !Text.HasHexPrefix(Text.Unsigned(m.raw)) ==> r == Text.ParseInt(m.raw)
  {
    match m
    case DefaultMeters(meters) => Some(meters)
    case FromQuery(raw) => Text.ParseIntAnyRadix(raw)
  }

  /**
   * Leaving the radius out is the same as asking for the default 10000
   * meters, and a radius written as a decimal number is searched with exactly
   * that number.
   */
  lemma AbsentRadiusIsDefault(longitude: string, latitude: string, meters: nat)
    requires longitude != "" && latitude != ""
    ensures var given := CheckNearbyQuery(Some(longitude), Some(latitude), Some(Text.NatToString(meters)));
            given.Ok? && RadiusMeters(given.body.maxDistance) == Some(meters)
    ensures var absent := CheckNearbyQuery(Some(longitude), Some(latitude), None);
            var spelled := CheckNearbyQuery(Some(longitude), Some(latitude), Some(Text.NatToString(DefaultMaxDistance)));
            && absent.Ok? && spelled.Ok?
            && RadiusMeters(absent.body.maxDistance) == RadiusMeters(spelled.body.maxDistance) == Some(10000)
  {
    var given := CheckNearbyQuery(Some(longitude), Some(latitude), Some(Text.NatToString(meters)));
    assert given.body.maxDistance == FromQuery(Text.NatToString(meters));
    Text.ParseIntAnyRadixNatToString(meters);
    var spelled := CheckNearbyQuery(Some(longitude), Some(latitude), Some(Text.NatToString(DefaultMaxDistance)));
    assert spelled.body.maxDistance == FromQuery(Text.NatToString(DefaultMaxDistance));
    Text.ParseIntAnyRadixNatToString(DefaultMaxDistance);
  }

  /**
   * A radius written with the "0x" prefix is read in base 16: the query
   * `maxDistance=0x` followed by hexadecimal digits searches with the number
   * those digits denote.
   */
  lemma HexRadiusIsRead(longitude: string, latitude: string, digits: string)
    requires longitude != "" && latitude != ""
    requires |digits| >= 1 && forall i :: 0 <= i < |digits| ==> IsHexDigit(digits[i])
    ensures var q := CheckNearbyQuery(Some(longitude), Some(latitude), Some("0x" + digits));
            q.Ok? && RadiusMeters(q.body.maxDistance) == Some(Text.HexDigitsValue(digits) as int)
  {
    var q := CheckNearbyQuery(Some(longitude), Some(latitude), Some("0x" + digits));
    assert q.body.maxDistance == FromQuery("0x" + digits);
    Text.ParseIntAnyRadixHex(digits);
  }

  /** The query `maxDistance=0x10` searches within 16 meters, not 0 or 10. */
  lemma SixteenInHex()
    ensures RadiusMeters(FromQuery("0x10")) == Some(16)
  {
    var digits := "10";
    HexTenIsSixteen(digits);
    assert "0x10" == "0x" + digits;
    Text.ParseIntAnyRadixHex(digits);
  }

  /** The hexadecimal digits "10" denote 16. */
  lemma HexTenIsSixteen(digits: string)
    requires digits == "10"
    ensures IsHexDigit(digits[0]) && IsHexDigit(digits[1])
    ensures Text.HexDigitsValue(digits) == 16
  {
    assert digits[..1] == "1" && Text.HexDigitsValue(digits[..1]) == 1;
  }

  /** A promotion's card as the QR endpoint shows it, with the stored QR image. */
  datatype QrView = QrView(title: string, description: string, establishment: Id, validUntil: int, qrCode: Option<string>)

  /** A promotion is expired at `now` exactly when `now` is past `validUntil`. */
  predicate Expired(p: Promotion, now: int) {
    now > p.validUntil
  }

  /**
   * GET /dancer/promotions/:id/qr at time `now`: 404 for an unknown id (looked
   * up under the cast id), 400 once the promotion has expired, otherwise its
   * card and its stored QR image.
   */
  function GetPromotionQR(db: Db, id: string, now: int): (r: Reply<QrView>)
    ensures !IsObjectId(id) ==> r == ServerError()
    ensures IsObjectId(id) && PromotionIndex(db, CastId(id)).None? ==> r == Err(404, Text("Promotion not found"))
    ensures IsObjectId(id) && PromotionIndex(db, CastId(id)).Some? && Expired(db.promotions[PromotionIndex(db, CastId(id)).value], now) ==>
              r == Err(400, Text("Promotion has expired"))
    ensures r.Ok? <==> IsObjectId(id) && PromotionIndex(db, CastId(id)).Some? && !Expired(db.promotions[PromotionIndex(db, CastId(id)).value], now)
    ensures r.Ok? ==>
              var p := db.promotions[PromotionIndex(db, CastId(id)).value];
              r == Ok(200, QrView(p.title, p.description, p.establishment, p.validUntil, p.qrCodeData))
  {
    if !IsObjectId(id) then ServerError()
    else match PromotionIndex(db, CastId(id))
      case None => Err(404, Text("Promotion not found"))
      case Some(i) =>
        var p := db.promotions[i];
        if now > p.validUntil then Err(400, Text("Promotion has expired"))
        else Ok(200, QrView(p.title, p.description, p.establishment, p.validUntil, p.qrCodeData))
  }

  /** GET /dancer/promotions at time `now`: exactly the promotions valid until `now` or later. */
  function GetAvailablePromotions(db: Db, now: int): (r: Reply<seq<Promotion>>)
    ensures r.Ok? && r.status == 200
    ensures forall i :: 0 <= i < |r.body| ==> r.body[i] in db.promotions && !Expired(r.body[i], now)
    ensures forall i :: 0 <= i < |db.promotions| && !Expired(db.promotions[i], now) ==> db.promotions[i] in r.body
    ensures forall p :: multiset(r.body)[p] == if !Expired(p, now) then multiset(db.promotions)[p] else 0
  {
    Ok(200, Store.Filter(db.promotions, (p: Promotion) => p.validUntil >= now))
  }

  /**
   * Both endpoints draw the same boundary: a promotion is listed as available
   * exactly when its QR request is not refused as expired, including at
   * `now == validUntil`, where both accept.
   */
  lemma AvailableIffQrAccepted(db: Db, i: nat, now: int)
    requires i < |db.promotions|
    requires IsCanonicalId(db.promotions[i].id)
    requires PromotionIndex(db, db.promotions[i].id) == Some(i)
    ensures db.promotions[i] in GetAvailablePromotions(db, now).body <==> GetPromotionQR(db, db.promotions[i].id, now).Ok?
  {
    var list := GetAvailablePromotions(db, now).body;
    if db.promotions[i] in list {
      var k :| 0 <= k < |list| && list[k] == db.promotions[i];
    }
  }

  /**
   * A promotion just created is served by the QR endpoint, with the image of
   * its own payload, at any time up to its end date.
   */
  lemma {:induction false} CreatedPromotionServesQr(db: Db, caller: Caller, input: EstablishmentController.PromotionInput,
                                                    promoId: Id, created: int, now: int,
                                                    render: EstablishmentController.QrPayload -> string)
    requires caller.role == UserModel.Establishment
    requires IsCanonicalId(promoId) && PromotionIndex(db, promoId).None?
    requires EstablishmentController.ValidPromotionInput(input) && now <= input.validUntil.value
    ensures var db' := EstablishmentController.CreatePromotion(db, caller, input, promoId, created, render).1;
            var r := GetPromotionQR(db', promoId, now);
            && r.Ok?
            && r.body.establishment == caller.id
            && r.body.qrCode == Some(render(EstablishmentController.QrPayload(promoId, caller.id, input.discountType, input.value)))
  {
    var db' := EstablishmentController.CreatePromotion(db, caller, input, promoId, created, render).1;
    var n := |db.promotions|;
    assert db'.promotions[n].id == promoId;
    assert forall j :: 0 <= j < n ==> db'.promotions[j] == db.promotions[j];
    assert PromotionIndex(db', promoId) == Some(n);
  }
}
