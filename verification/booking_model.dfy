/** The bookings collection: a dancer's booking of a class at an academy. */
module BookingModel {
  import opened Shared

  datatype PaymentStatus = PaymentPending | Paid | PaymentFailed
  datatype BookingStatus = Active | Cancelled
  datatype DanceRole = Leader | Follower

  /** `classId`, `dancer` and `academy` are required references; the three enums have defaults. */
  datatype Booking = Booking(
    id: Id,
    classId: Id,
    dancer: Id,
    academy: Id,
    paymentStatus: PaymentStatus,
    status: BookingStatus,
    danceRole: DanceRole,
    createdAt: int)

  /** A booking as created from the three references alone: every field not given takes its default. */
  function NewBooking(id: Id, classId: Id, dancer: Id, academy: Id, now: int): (b: Booking)
    ensures b.id == id && b.classId == classId && b.dancer == dancer && b.academy == academy
    ensures b.paymentStatus == Paid
    ensures b.status == Active
    ensures b.danceRole == Follower
    ensures b.createdAt == now
  {
    Booking(id, classId, dancer, academy, Paid, Active, Follower, now)
  }
}
