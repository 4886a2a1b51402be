/** The Mongoose schema of a booking: its fields, which of them are
    required, and the status default. */
module BookingSchema {
  import opened Results
  import LeadSchema

  /** A stored booking. `date` is an instant in milliseconds; `status` is a
      free string (the schema names SCHEDULED, COMPLETED and CANCELLED only
      in a comment and declares no enum). */
  datatype Booking = Booking(
    id: string,
    leadId: string,
    clientName: string,
    clientEmail: string,
    date: int,
    timeSlot: string,
    meetingLink: Option<string>,
    status: string)

  /** The fields handed to `new bookingModel({...})`. */
  datatype BookingDraft = BookingDraft(
    id: string,
    leadId: Option<string>,
    clientName: Option<string>,
    clientEmail: Option<string>,
    date: Option<int>,
    timeSlot: Option<string>,
    meetingLink: Option<string>,
    status: Option<string>)

  const DefaultBookingStatus: string := "SCHEDULED"

  /** The paths of a draft that fail the `required` validators, in
      declaration order. */
  function BookingFailures(d: BookingDraft): seq<string> {
    (if LeadSchema.RequiredString(d.leadId) then [] else ["leadId"])
    + (if LeadSchema.RequiredString(d.clientName) then [] else ["clientName"])
    + (if LeadSchema.RequiredString(d.clientEmail) then [] else ["clientEmail"])
    + (if d.date.Some? then [] else ["date"])
    + (if LeadSchema.RequiredString(d.timeSlot) then [] else ["timeSlot"])
  }

  /** Builds and validates a booking document: the five required paths
      must be present, `meetingLink` may be missing, and a missing status
      becomes SCHEDULED while a given one is kept whatever it says. */
  function BuildBooking(d: BookingDraft): (r: Result<Booking>)
    ensures r.Err? <==>
      !LeadSchema.RequiredString(d.leadId) || !LeadSchema.RequiredString(d.clientName)
      || !LeadSchema.RequiredString(d.clientEmail) || d.date.None?
      || !LeadSchema.RequiredString(d.timeSlot)
    ensures r.Err? ==> r.error.ValidationFailed? && |r.error.paths| > 0
    ensures r.Ok? ==>
      && r.value.id == d.id
      && Some(r.value.leadId) == d.leadId
      && Some(r.value.clientName) == d.clientName
      && Some(r.value.clientEmail) == d.clientEmail
      && Some(r.value.date) == d.date
      && Some(r.value.timeSlot) == d.timeSlot
      && r.value.meetingLink == d.meetingLink
    ensures r.Ok? ==> r.value.status == d.status.GetOr(DefaultBookingStatus)
  {
    var failures := BookingFailures(d);
    if failures != [] then Err(ValidationFailed(failures))
    else
      Ok(Booking(d.id, d.leadId.value, d.clientName.value, d.clientEmail.value,
                 d.date.value, d.timeSlot.value, d.meetingLink,
                 d.status.GetOr(DefaultBookingStatus)))
  }
}
