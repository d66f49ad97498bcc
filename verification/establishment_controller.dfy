/**
 * The establishment's events and promotions: creating an event (whose
 * location falls back to the establishment's own), listing events, creating
 * a promotion with its QR payload, and listing promotions with the scope
 * chosen from the query and the caller.
 */
module EstablishmentController {
  import opened Shared
  import opened UserModel
  import opened ContentModels
  import opened Db
  import Store

  /** The fields an event is created from; each may be missing from the request. */
  datatype EventInput = EventInput(
    name: Option<string>,
    description: Option<string>,
    date: Option<int>,
    coverCharge: Option<real>,
    location: Option<seq<real>>)

  /**
   * The event's location: the request's coordinates when given; else the
   * caller's stored coordinates when the caller has a location; else none.
   */
  function EventLocation(requested: Option<seq<real>>, caller: Caller): (r: Option<Point>)
    ensures requested.Some? ==> r == Some(Point(requested.value))
    ensures requested.None? && caller.location.Some? ==> r == Some(Point(caller.location.value.coordinates))
    ensures r.None? <==> requested.None? && caller.location.None?
  {
    var coordinates := if requested.Some? then requested
                       else if caller.location.Some? then Some(caller.location.value.coordinates)
                       else None;
    if coordinates.Some? then Some(Point(coordinates.value)) else None
  }

  /** The event schema's validation: a name and a date are required. */
  predicate ValidEventInput(input: EventInput) {
    input.name.Some? && input.name.value != "" && input.date.Some?
  }

  /**
   * POST /establishment/events (establishments only): the event belongs to
   * the caller, its cover charge defaults to 0; a request the schema refuses is a
   * server error.
   */
  function CreateEvent(db: Db, caller: Caller, input: EventInput, eventId: Id, now: int): (r: (Reply<Event>, Db))
    requires caller.role == Establishment
    ensures r.0.Ok? <==> ValidEventInput(input)
    ensures r.0.Err? ==> r.0 == ServerError() && r.1 == db
    ensures r.0.Ok? ==>
              && r.0.status == 201
              && r.0.body.id == eventId
              && r.0.body.establishment == caller.id
              && Some(r.0.body.name) == input.name
              && r.0.body.description == input.description
              && Some(r.0.body.date) == input.date
              && r.0.body.createdAt == now
              && r.0.body.location == EventLocation(input.location, caller)
              && r.0.body.coverCharge == input.coverCharge.GetOr(0.0)
              && r.1 == db.(events := db.events + [r.0.body])
  {
    if !ValidEventInput(input) then (ServerError(), db)
    else
      var e := Event(eventId, input.name.value, input.description, input.date.value, caller.id,
                     EventLocation(input.location, caller), input.coverCharge.GetOr(0.0), now);
      (Ok(201, e), db.(events := db.events + [e]))
  }

  /**
   * GET /establishment/events: the events of the establishment in the query
   * (matched under the cast id), or all events.
   */
  function GetEvents(db: Db, establishmentId: Option<string>): (r: Reply<seq<Event>>)
    ensures Truthy(establishmentId) && !IsObjectId(establishmentId.value) ==> r == ServerError()
    ensures Truthy(establishmentId) && IsObjectId(establishmentId.value) ==>
              r.Ok? && Store.IsFilterOf(r.body, db.events, (e: Event) => e.establishment == CastId(establishmentId.value))
    ensures !Truthy(establishmentId) ==> r == Ok(200, db.events)
  {
    if !Truthy(establishmentId) then Ok(200, db.events)
    else if !IsObjectId(establishmentId.value) then ServerError()
    else Ok(200, Store.Filter(db.events, (e: Event) => e.establishment == CastId(establishmentId.value)))
  }

  /**
   * An event just created is listed under its establishment, with the
   * location chosen for it: the request's coordinates, else the caller's.
   */
  lemma CreatedEventIsListed(db: Db, caller: Caller, input: EventInput, eventId: Id, now: int)
    requires caller.role == Establishment && IsCanonicalId(caller.id)
    requires ValidEventInput(input)
    ensures var (r, db') := CreateEvent(db, caller, input, eventId, now);
            var listed := GetEvents(db', Some(caller.id));
            && listed.Ok?
            && r.body in listed.body
            && r.body.location == EventLocation(input.location, caller)
  {
    var (r, db') := CreateEvent(db, caller, input, eventId, now);
    assert db'.events[|db.events|] == r.body;
  }

  /** The fields a promotion is created from; each may be missing from the request. */
  datatype PromotionInput = PromotionInput(
    title: Option<string>,
    description: Option<string>,
    discountType: Option<string>,
    value: Option<real>,
    validUntil: Option<int>)

  /** The record the QR code encodes: promotion id, establishment id, discount type and value. */
  datatype QrPayload = QrPayload(promoId: Id, establishmentId: Id, kind: Option<string>, val: Option<real>)

  /** The promotion schema's validation: title, description, a known discount type and an end date. */
  predicate ValidPromotionInput(input: PromotionInput) {
    && input.title.Some? && input.title.value != ""
    && input.description.Some? && input.description.value != ""
    && input.discountType.Some? && ParseDiscountType(input.discountType.value).Some?
    && input.validUntil.Some?
  }

  /**
   * POST /establishment/promotions (establishments only). `render` stands for
   * serialising the payload and drawing it as a QR image. The promotion belongs
   * to the caller and stores the image of the payload.
   */
  function CreatePromotion(db: Db, caller: Caller, input: PromotionInput, promoId: Id, now: int,
                           render: QrPayload -> string): (r: (Reply<Promotion>, Db))
    requires caller.role == Establishment
    ensures r.0.Ok? <==> ValidPromotionInput(input)
    ensures r.0.Err? ==> r.0 == ServerError() && r.1 == db
    ensures r.0.Ok? ==>
              && r.0.status == 201
              && r.0.body.id == promoId
              && r.0.body.establishment == caller.id
              && Some(r.0.body.title) == input.title
              && Some(r.0.body.description) == input.description
              && DiscountTypeName(r.0.body.discountType) == input.discountType.value
              && r.0.body.value == input.value
              && r.0.body.createdAt == now
              && r.0.body.qrCodeData == Some(render(QrPayload(promoId, caller.id, input.discountType, input.value)))
              && Some(r.0.body.validUntil) == input.validUntil
              && r.1 == db.(promotions := db.promotions + [r.0.body])
  {
    var qr := render(QrPayload(promoId, caller.id, input.discountType, input.value));
    if !ValidPromotionInput(input) then (ServerError(), db)
    else
      var p := Promotion(promoId, input.title.value, input.description.value,
                         ParseDiscountType(input.discountType.value).value, input.value, caller.id,
                         Some(qr), input.validUntil.value, now);
      (Ok(201, p), db.(promotions := db.promotions + [p]))
  }

  /**
   * GET /establishment/promotions: the promotions of the establishment in the
   * query (matched under the cast id); with no (or an empty) query id, the calling establishment's own;
   * otherwise all promotions.
   */
  function GetPromotions(db: Db, establishmentId: Option<string>, caller: Option<Caller>): (r: Reply<seq<Promotion>>)
    ensures Truthy(establishmentId) && !IsObjectId(establishmentId.value) ==> r == ServerError()
    ensures Truthy(establishmentId) && IsObjectId(establishmentId.value) ==>
              r.Ok? && Store.IsFilterOf(r.body, db.promotions, (p: Promotion) => p.establishment == CastId(establishmentId.value))
    ensures !Truthy(establishmentId) && caller.Some? && caller.value.role == Establishment ==>
              r.Ok? && Store.IsFilterOf(r.body, db.promotions, (p: Promotion) => p.establishment == caller.value.id)
    ensures !Truthy(establishmentId) && (caller.None? || caller.value.role != Establishment) ==> r == Ok(200, db.promotions)
  {
    if Truthy(establishmentId) then
      if !IsObjectId(establishmentId.value) then ServerError()
      else Ok(200, Store.Filter(db.promotions, (p: Promotion) => p.establishment == CastId(establishmentId.value)))
    else if caller.Some? && caller.value.role == Establishment then
      Ok(200, Store.Filter(db.promotions, (p: Promotion) => p.establishment == caller.value.id))
    else Ok(200, db.promotions)
  }

  /**
   * A promotion just created is listed under its establishment, whether the
   * establishment is named in the query or is the caller.
   */
  lemma CreatedPromotionIsListed(db: Db, caller: Caller, input: PromotionInput, promoId: Id, now: int,
                                 render: QrPayload -> string)
    requires caller.role == Establishment && IsCanonicalId(caller.id)
    requires ValidPromotionInput(input)
    ensures var (r, db') := CreatePromotion(db, caller, input, promoId, now, render);
            && GetPromotions(db', Some(caller.id), None).Ok?
            && r.body in GetPromotions(db', Some(caller.id), None).body
            && GetPromotions(db', None, Some(caller)).Ok?
            && r.body in GetPromotions(db', None, Some(caller)).body
  {
    var (r, db') := CreatePromotion(db, caller, input, promoId, now, render);
    assert db'.promotions[|db.promotions|] == r.body;
  }
}
