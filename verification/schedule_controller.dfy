/**
 * An academy's weekly schedule: who may read and replace it, what a valid
 * replacement looks like, and how it is normalised before being stored.
 */
module ScheduleController {
  import opened Shared
  import opened Json
  import opened UserModel
  import opened Db

  const DaySet: set<string> := {"mon", "tue", "wed", "thu", "fri", "sat", "sun"}
  const DefaultOpenTime: string := "09:00"
  const DefaultCloseTime: string := "18:00"

  /** The schedule owner or an admin; ids are compared as strings, before any cast. */
  predicate CanAccess(caller: Caller, userId: string) {
    userId == caller.id || caller.role == Admin
  }

  /** One day: a boolean `open` and optional string times ("" allowed); other keys are stripped. */
  predicate ValidDay(v: Json) {
    && v.JObj?
    && Field(v, "open").Some? && Field(v, "open").value.JBool?
    && OptionalString(v, "openTime")
    && OptionalString(v, "closeTime")
  }

  /**
   * The request body: an object whose `schedule` object holds exactly the
   * seven days (unknown keys are refused there), each a valid day.
   */
  predicate ValidScheduleBody(body: Json) {
    && Field(body, "schedule").Some?
    && var s := Field(body, "schedule").value;
    && s.JObj?
    && s.fields.Keys == DaySet
    && forall day :: day in s.fields ==> ValidDay(s.fields[day])
  }

  function NormalizeDay(d: Json): (h: DayHours)
    requires ValidDay(d)
    ensures JBool(h.open) == d.fields["open"]
  {
    DayHours(
      d.fields["open"].b,
      StringField(d, "openTime").GetOr(DefaultOpenTime),
      StringField(d, "closeTime").GetOr(DefaultCloseTime))
  }

  /** The normalised schedule of a valid body: one entry for each of the seven days. */
  function Normalize(body: Json): (s: Schedule)
    requires ValidScheduleBody(body)
    ensures s.Keys == DaySet
    ensures forall day :: day in s ==> s[day] == NormalizeDay(body.fields["schedule"].fields[day])
  {
    var week := body.fields["schedule"].fields;
    map day | day in DaySet :: NormalizeDay(week[day])
  }

  /** The request body that states a given schedule day for day. */
  function DayToJson(h: DayHours): (v: Json)
    ensures ValidDay(v)
  {
    JObj(map["open" := JBool(h.open), "openTime" := JStr(h.openTime), "closeTime" := JStr(h.closeTime)])
  }

  function ScheduleToJson(s: Schedule): (body: Json)
    requires s.Keys == DaySet
    ensures ValidScheduleBody(body)
  {
    JObj(map["schedule" := JObj(map day | day in s :: DayToJson(s[day]))])
  }

  /** Normalising the body of a schedule gives that schedule back: times are kept, even "". */
  lemma NormalizeRoundTrip(s: Schedule)
    requires s.Keys == DaySet
    ensures Normalize(ScheduleToJson(s)) == s
  {
    var body := ScheduleToJson(s);
    var week := body.fields["schedule"].fields;
    var r := Normalize(body);
    forall day | day in DaySet
      ensures r[day] == s[day]
    {
      assert week[day] == DayToJson(s[day]);
      DayRoundTrip(s[day]);
    }
    assert r.Keys == s.Keys;
  }

  lemma DayRoundTrip(h: DayHours)
    ensures NormalizeDay(DayToJson(h)) == h
  {
    var v := DayToJson(h);
    assert StringField(v, "openTime") == Some(h.openTime);
    assert StringField(v, "closeTime") == Some(h.closeTime);
  }

  /** Normalising is idempotent through the stored form. */
  lemma NormalizeIdempotent(body: Json)
    requires ValidScheduleBody(body)
    ensures Normalize(ScheduleToJson(Normalize(body))) == Normalize(body)
  {
    NormalizeRoundTrip(Normalize(body));
  }

  /** Absent times take the defaults; present ones are kept, whatever string they hold. */
  lemma DefaultTimes(body: Json, day: string)
    requires ValidScheduleBody(body) && day in DaySet
    ensures var d := body.fields["schedule"].fields[day];
            && ("openTime" !in d.fields ==> Normalize(body)[day].openTime == "09:00")
            && ("closeTime" !in d.fields ==> Normalize(body)[day].closeTime == "18:00")
            && ("openTime" in d.fields ==> JStr(Normalize(body)[day].openTime) == d.fields["openTime"])
            && ("closeTime" in d.fields ==> JStr(Normalize(body)[day].closeTime) == d.fields["closeTime"])
  {
  }

  /**
   * GET /users/:userId/schedule: the stored schedule, or `None` (null) when
   * none is stored. The academy is looked up under the cast id.
   */
  function GetSchedule(db: Db, caller: Caller, userId: string): (r: Reply<Option<Schedule>>)
    ensures !CanAccess(caller, userId) ==> r == Err(403, Text("Not authorized to read this schedule"))
    ensures CanAccess(caller, userId) && !IsObjectId(userId) ==> r == Err(400, Text("Invalid user ID"))
    ensures r.Err? && r.status == 404 <==>
              CanAccess(caller, userId) && IsObjectId(userId) && AcademyIndex(db, CastId(userId)).None?
    ensures r.Ok? <==> CanAccess(caller, userId) && IsObjectId(userId) && AcademyIndex(db, CastId(userId)).Some?
    ensures r.Ok? ==> r.status == 200 && r.body == db.users[AcademyIndex(db, CastId(userId)).value].profile.schedule
  {
    if !CanAccess(caller, userId) then Err(403, Text("Not authorized to read this schedule"))
    else if !IsObjectId(userId) then Err(400, Text("Invalid user ID"))
    else match AcademyIndex(db, CastId(userId))
      case None => Err(404, Text("Academy not found"))
      case Some(i) => Ok(200, db.users[i].profile.schedule)
  }

  /**
   * PUT /users/:userId/schedule: replace the academy's schedule with the
   * normalised body. Authorisation comes first, then validation, then the
   * id cast and the lookup; every failure leaves the store unchanged.
   */
  function PutSchedule(db: Db, caller: Caller, userId: string, body: Json): (r: (Reply<Schedule>, Db))
    ensures r.0.Err? ==> r.1 == db
    ensures !CanAccess(caller, userId) ==> r.0 == Err(403, Text("Not authorized to update this schedule"))
    ensures CanAccess(caller, userId) && !ValidScheduleBody(body) ==> r.0 == Err(400, SchemaDetail)
    ensures r.0.Err? && r.0.status == 400 && r.0.message == Text("Invalid user ID") <==>
              CanAccess(caller, userId) && ValidScheduleBody(body) && !IsObjectId(userId)
    ensures r.0.Err? && r.0.status == 404 <==>
              CanAccess(caller, userId) && ValidScheduleBody(body) && IsObjectId(userId) && AcademyIndex(db, CastId(userId)).None?
    ensures r.0.Ok? <==>
              CanAccess(caller, userId) && ValidScheduleBody(body) && IsObjectId(userId) && AcademyIndex(db, CastId(userId)).Some?
    ensures r.0.Ok? ==> r.0.status == 200 && r.0.body == Normalize(body) && r.0.body.Keys == DaySet
    ensures r.0.Ok? ==> var i := AcademyIndex(db, CastId(userId)).value;
              && r.1 == WithUser(db, i, db.users[i].(profile := db.users[i].profile.(schedule := Some(Normalize(body)))))
  {
    if !CanAccess(caller, userId) then (Err(403, Text("Not authorized to update this schedule")), db)
    else if !ValidScheduleBody(body) then (Err(400, SchemaDetail), db)
    else
      var normalized := Normalize(body);
      if !IsObjectId(userId) then (Err(400, Text("Invalid user ID")), db)
      else match AcademyIndex(db, CastId(userId))
        case None => (Err(404, Text("Academy not found")), db)
        case Some(i) =>
          var academy := db.users[i];
          var db' := WithUser(db, i, academy.(profile := academy.profile.(schedule := Some(normalized))));
          (Ok(200, db'.users[i].profile.schedule.value), db')
  }

  /** A stored schedule is what a later GET returns. */
  lemma PutThenGet(db: Db, caller: Caller, userId: string, body: Json)
    requires PutSchedule(db, caller, userId, body).0.Ok?
    ensures GetSchedule(PutSchedule(db, caller, userId, body).1, caller, userId) == Ok(200, Some(Normalize(body)))
  {
    var db' := PutSchedule(db, caller, userId, body).1;
    var i := AcademyIndex(db, CastId(userId)).value;
    AcademyIndexAfterUpdate(db, i, db'.users[i]);
  }

  /**
   * The id in the path is matched whatever the case of its hexadecimal
   * digits: an admin reading the schedule under two spellings of one id gets
   * the same answer.
   */
  lemma GetScheduleIgnoresCase(db: Db, caller: Caller, userId: string, other: string)
    requires caller.role == Admin
    requires CastId(userId) == CastId(other)
    ensures GetSchedule(db, caller, userId) == GetSchedule(db, caller, other)
  {
    CastIdCanonical(userId);
    CastIdCanonical(other);
  }
}
