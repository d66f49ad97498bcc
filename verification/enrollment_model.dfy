/**
 * The enrollments collection: an applicant's request to join an academy,
 * with its status enum, required applicant fields and the save hook that
 * refreshes `updatedAt`.
 */
module EnrollmentModel {
  import opened Shared

  datatype EnrollmentStatus = Pending | Approved | Rejected

  datatype Enrollment = Enrollment(
    id: Id,
    academy: Id,
    user: Option<Id>,
    fullName: string,
    phone: string,
    email: string,
    idNumber: string,
    voucherPath: Option<string>,
    voucherUrl: Option<string>,
    status: EnrollmentStatus,
    reviewedAt: Option<int>,
    reviewedBy: Option<Id>,
    createdAt: int,
    updatedAt: int)

  /** The fields a new enrollment document is constructed from; everything else takes its default. */
  datatype EnrollmentDraft = EnrollmentDraft(
    academy: Option<Id>,
    user: Option<Id>,
    fullName: Option<string>,
    phone: Option<string>,
    email: Option<string>,
    idNumber: Option<string>,
    voucherPath: Option<string>,
    voucherUrl: Option<string>)

  /** The schema's required-field check: academy, fullName, phone, email and idNumber; `user` is optional. */
  predicate DraftComplete(d: EnrollmentDraft) {
    && Truthy(d.academy)
    && Truthy(d.fullName) && Truthy(d.phone) && Truthy(d.email) && Truthy(d.idNumber)
  }

  predicate HasRequiredFields(e: Enrollment) {
    e.academy != "" && e.fullName != "" && e.phone != "" && e.email != "" && e.idNumber != ""
  }

  /**
   * Constructing a document at time `constructedAt` and saving it at `savedAt`:
   * the status starts pending, `createdAt` is the construction time and the
   * save hook stamps `updatedAt` with the save time. Both voucher fields are
   * taken as given; nothing forces at most one of them to be set.
   */
  function CreateEnrollment(id: Id, d: EnrollmentDraft, constructedAt: int, savedAt: int): (r: Option<Enrollment>)
    ensures r.Some? <==> DraftComplete(d)
    ensures r.Some? ==> HasRequiredFields(r.value)
    ensures r.Some? ==> r.value.status == Pending && r.value.reviewedAt.None? && r.value.reviewedBy.None?
    ensures r.Some? ==> r.value.createdAt == constructedAt && r.value.updatedAt == savedAt
    ensures r.Some? ==> r.value.id == id && Some(r.value.academy) == d.academy && r.value.user == d.user
    ensures r.Some? ==> Some(r.value.fullName) == d.fullName && Some(r.value.phone) == d.phone
    ensures r.Some? ==> Some(r.value.email) == d.email && Some(r.value.idNumber) == d.idNumber
    ensures r.Some? ==> r.value.voucherPath == d.voucherPath && r.value.voucherUrl == d.voucherUrl
  {
    if !DraftComplete(d) then None
    else
      var e := Enrollment(id, d.academy.value, d.user, d.fullName.value, d.phone.value, d.email.value,
                          d.idNumber.value, d.voucherPath, d.voucherUrl, Pending, None, None,
                          constructedAt, constructedAt);
      SaveEnrollment(e, savedAt)
  }

  /** Saving an existing document at time `now`: only `updatedAt` changes, and it becomes `now`. */
  function SaveEnrollment(e: Enrollment, now: int): (r: Option<Enrollment>)
    ensures r.Some? <==> HasRequiredFields(e)
    ensures r.Some? ==> r.value.updatedAt == now
    ensures r.Some? ==> r.value.(updatedAt := e.updatedAt) == e
  {
    if HasRequiredFields(e) then Some(e.(updatedAt := now)) else None
  }

  /** A voucher path and a voucher URL may both be stored on one enrollment. */
  lemma BothVouchersAccepted(id: Id, now: int)
    ensures var d := EnrollmentDraft(Some("a"), None, Some("n"), Some("p"), Some("e"), Some("i"), Some("path"), Some("url"));
            var r := CreateEnrollment(id, d, now, now);
            r.Some? && r.value.voucherPath.Some? && r.value.voucherUrl.Some?
  {
  }
}
