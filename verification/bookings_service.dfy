/** The booking service: creating a booking with the global slot check,
    the lead lookup, the booking built from the input and a snapshot of the
    lead, and the lead's move to MEETING_BOOKED. The database is the pair of
    stores the service reads and writes. */
module BookingsService {
  import opened Results
  import opened LeadSchema
  import opened BookingSchema
  import opened LeadsService

  /** The GraphQL input of `createBooking`; every field is non-null. */
  datatype CreateBookingInput = CreateBookingInput(leadId: string, date: int, timeSlot: string)

  /** The two document collections. */
  datatype Db = Db(leads: seq<Lead>, bookings: seq<Booking>)

  /** The database after a call, and what the call returned. */
  datatype BookingReply = BookingReply(db: Db, result: Result<Booking>)

  const SlotTakenMessage: string := "This slot is already booked! Please choose another."
  const LeadNotFoundMessage: string := "Lead not found"
  const MeetPrefix: string := "https://meet.google.com/"

  /** Some stored booking occupies this (date, time slot) pair. */
  predicate SlotTaken(bookings: seq<Booking>, date: int, timeSlot: string) {
    exists i :: 0 <= i < |bookings| && bookings[i].date == date && bookings[i].timeSlot == timeSlot
  }

  /** Some stored booking has this `_id`. */
  predicate BookingIdTaken(bookings: seq<Booking>, id: string) {
    exists i :: 0 <= i < |bookings| && bookings[i].id == id
  }

  /** `findOne({ date, timeSlot })`: the first booking in that slot. */
  function FindBySlot(bookings: seq<Booking>, date: int, timeSlot: string): (r: Option<Booking>)
    ensures r.Some? ==> r.value in bookings && r.value.date == date && r.value.timeSlot == timeSlot
    ensures r.None? <==> !SlotTaken(bookings, date, timeSlot)
  {
    if bookings == [] then None
    else if bookings[0].date == date && bookings[0].timeSlot == timeSlot then Some(bookings[0])
    else
      var rest := FindBySlot(bookings[1..], date, timeSlot);
      assert forall i :: 1 <= i < |bookings| ==> bookings[i] == bookings[1..][i - 1];
      rest
  }

  /** The document `createBooking` builds: the input's fields, the lead's
      name and email, and the meeting link; the status is left to the
      schema default. */
  function NewBookingDraft(input: CreateBookingInput, lead: Lead, id: string, meetingCode: string): BookingDraft {
    BookingDraft(id, Some(input.leadId), Some(lead.name), Some(lead.email), Some(input.date),
                 Some(input.timeSlot), Some(MeetPrefix + meetingCode), None)
  }

  /** `createBooking`. `id` is the `_id` the database generates and
      `meetingCode` the random code of the meeting link. The slot check
      comes first, then the lead lookup, then the save, then the status
      update; a failure at any step leaves both stores as they were. */
  function CreateBooking(db: Db, input: CreateBookingInput, id: string, meetingCode: string): (r: BookingReply)
    ensures SlotTaken(db.bookings, input.date, input.timeSlot) ==>
      r == BookingReply(db, Err(BadRequest(SlotTakenMessage)))
    ensures !SlotTaken(db.bookings, input.date, input.timeSlot) && !IdTaken(db.leads, input.leadId) ==>
      r == BookingReply(db, Err(BadRequest(LeadNotFoundMessage)))
    ensures r.result.Err? ==> r.db == db
    ensures r.result.Ok? ==>
      var b := r.result.value;
      && !SlotTaken(db.bookings, input.date, input.timeSlot)
      && FindOne(db.leads, input.leadId).Some?
      && b.id == id
      && b.leadId == input.leadId
      && b.date == input.date
      && b.timeSlot == input.timeSlot
      && b.clientName == FindOne(db.leads, input.leadId).value.name
      && b.clientEmail == FindOne(db.leads, input.leadId).value.email
      && b.meetingLink == Some(MeetPrefix + meetingCode)
      && b.status == DefaultBookingStatus
      && r.db.bookings == db.bookings + [b]
      && r.db.leads == UpdateStatus(db.leads, input.leadId, MeetingBooked)
    ensures (!SlotTaken(db.bookings, input.date, input.timeSlot) && IdTaken(db.leads, input.leadId)
             && (forall i :: 0 <= i < |db.leads| ==> SchemaValid(db.leads[i]))
             && |input.leadId| > 0 && |input.timeSlot| > 0 && !BookingIdTaken(db.bookings, id)) ==> r.result.Ok?
  {
    if FindBySlot(db.bookings, input.date, input.timeSlot).Some? then
      BookingReply(db, Err(BadRequest(SlotTakenMessage)))
    else
      match FindOne(db.leads, input.leadId)
      case None => BookingReply(db, Err(BadRequest(LeadNotFoundMessage)))
      case Some(lead) =>
        match BuildBooking(NewBookingDraft(input, lead, id, meetingCode))
        case Err(e) => BookingReply(db, Err(e))
        case Ok(booking) =>
          if BookingIdTaken(db.bookings, booking.id) then BookingReply(db, Err(DuplicateKey(booking.id)))
          else
            var leads' := UpdateStatus(db.leads, lead.id, MeetingBooked);
            BookingReply(Db(leads', db.bookings + [booking]), Ok(booking))
  }

  /** No two stored bookings share a (date, time slot) pair. */
  predicate SlotsDistinct(bookings: seq<Booking>) {
    forall i, j :: 0 <= i < j < |bookings| ==>
      !(bookings[i].date == bookings[j].date && bookings[i].timeSlot == bookings[j].timeSlot)
  }

  /** No two stored bookings share an `_id`. */
  predicate BookingIdsDistinct(bookings: seq<Booking>) {
    forall i, j :: 0 <= i < j < |bookings| ==> bookings[i].id != bookings[j].id
  }

  /** What every reachable database satisfies: the lead store invariant,
      slot exclusivity, distinct booking ids, and every booking naming a
      stored lead. */
  predicate DbInvariant(db: Db) {
    && LeadStoreInvariant(db.leads)
    && SlotsDistinct(db.bookings)
    && BookingIdsDistinct(db.bookings)
    && forall i :: 0 <= i < |db.bookings| ==> IdTaken(db.leads, db.bookings[i].leadId)
  }

  /** Appending a booking whose slot and id are free keeps slots and ids
      distinct. */
  lemma AppendFreeBooking(bookings: seq<Booking>, b: Booking)
    requires SlotsDistinct(bookings) && BookingIdsDistinct(bookings)
    requires !SlotTaken(bookings, b.date, b.timeSlot) && !BookingIdTaken(bookings, b.id)
    ensures SlotsDistinct(bookings + [b]) && BookingIdsDistinct(bookings + [b])
  {
  }

  /** A status update keeps every id it found. */
  lemma UpdateStatusKeepsIds(leads: seq<Lead>, id: string, status: Status, key: string)
    requires IdTaken(leads, key)
    ensures IdTaken(UpdateStatus(leads, id, status), key)
  {
  }

  /** A booking call, successful or not, keeps the database invariant. */
  lemma CreateBookingPreservesInvariant(db: Db, input: CreateBookingInput, id: string, meetingCode: string)
    requires DbInvariant(db)
    ensures DbInvariant(CreateBooking(db, input, id, meetingCode).db)
  {
    var r := CreateBooking(db, input, id, meetingCode);
    if r.result.Ok? {
      var b := r.result.value;
      assert r.db.bookings == db.bookings + [b];
      assert r.db.leads == UpdateStatus(db.leads, input.leadId, MeetingBooked);
      assert !BookingIdTaken(db.bookings, b.id);
      AppendFreeBooking(db.bookings, b);
      UpdateStatusPreservesInvariant(db.leads, input.leadId, MeetingBooked);
      forall i | 0 <= i < |r.db.bookings|
        ensures IdTaken(r.db.leads, r.db.bookings[i].leadId)
      {
        if i < |db.bookings| {
          assert r.db.bookings[i] == db.bookings[i];
        } else {
          assert r.db.bookings[i] == b;
          assert IdTaken(db.leads, input.leadId);
        }
        UpdateStatusKeepsIds(db.leads, input.leadId, MeetingBooked, r.db.bookings[i].leadId);
      }
    }
  }

  /** A lead submission touches only the lead store and keeps the database
      invariant. */
  lemma CreateLeadPreservesDbInvariant(db: Db, input: CreateLeadInput, id: string, now: int)
    requires DbInvariant(db)
    ensures DbInvariant(Db(CreateLead(db.leads, input, id, now).leads, db.bookings))
  {
    CreateLeadPreservesInvariant(db.leads, input, id, now);
    var r := CreateLead(db.leads, input, id, now);
    forall i | 0 <= i < |db.bookings|
      ensures IdTaken(r.leads, db.bookings[i].leadId)
    {
      if r.result.Ok? {
        AppendKeepsIds(db.leads, r.result.value, db.bookings[i].leadId);
      }
    }
  }

  /** Appending a lead keeps every id already stored. */
  lemma AppendKeepsIds(leads: seq<Lead>, lead: Lead, key: string)
    requires IdTaken(leads, key)
    ensures IdTaken(leads + [lead], key)
  {
    var k :| 0 <= k < |leads| && leads[k].id == key;
    assert (leads + [lead])[k] == leads[k];
  }

  /** Booking the same slot again fails with the conflict error, whichever
      lead asks. */
  lemma SecondBookingOfSlotFails(db: Db, first: CreateBookingInput, second: CreateBookingInput,
                                 id1: string, id2: string, code1: string, code2: string)
    requires CreateBooking(db, first, id1, code1).result.Ok?
    requires second.date == first.date && second.timeSlot == first.timeSlot
    ensures CreateBooking(CreateBooking(db, first, id1, code1).db, second, id2, code2).result
         == Err(BadRequest(SlotTakenMessage))
  {
    var after := CreateBooking(db, first, id1, code1).db;
    assert after.bookings[|db.bookings|].date == second.date;
    assert after.bookings[|db.bookings|].timeSlot == second.timeSlot;
  }

  /** After a successful booking the referenced lead reads back as
      MEETING_BOOKED, and every other lead reads back as before. */
  lemma BookingMarksLead(db: Db, input: CreateBookingInput, id: string, meetingCode: string, other: string)
    requires IdsDistinct(db.leads)
    requires CreateBooking(db, input, id, meetingCode).result.Ok?
    requires other != input.leadId
    ensures FindOne(CreateBooking(db, input, id, meetingCode).db.leads, input.leadId).Some?
    ensures FindOne(CreateBooking(db, input, id, meetingCode).db.leads, input.leadId).value.status == MeetingBooked
    ensures FindOne(CreateBooking(db, input, id, meetingCode).db.leads, other) == FindOne(db.leads, other)
  {
  }

  /** The calls that change the database, with the values the database and
      the random generator supply. */
  datatype Call =
    | SubmitLead(lead: CreateLeadInput, leadId: string, now: int)
    | BookMeeting(booking: CreateBookingInput, bookingId: string, meetingCode: string)
    | ChangeStatus(id: string, status: Status)

  /** The database after one call. */
  function Apply(db: Db, c: Call): Db {
    match c
    case SubmitLead(input, id, now) => Db(CreateLead(db.leads, input, id, now).leads, db.bookings)
    case BookMeeting(input, id, code) => CreateBooking(db, input, id, code).db
    case ChangeStatus(id, status) => Db(UpdateStatus(db.leads, id, status), db.bookings)
  }

  /** The database after a sequence of calls, one after another. */
  function Run(db: Db, calls: seq<Call>): Db
    decreases |calls|
  {
    if calls == [] then db else Run(Apply(db, calls[0]), calls[1..])
  }

  /** Under any sequence of calls, emails stay pairwise distinct and no two
      bookings share a slot. */
  lemma {:induction false} RunPreservesInvariant(db: Db, calls: seq<Call>)
    requires DbInvariant(db)
    ensures DbInvariant(Run(db, calls))
    ensures EmailsDistinct(Run(db, calls).leads) && SlotsDistinct(Run(db, calls).bookings)
    decreases |calls|
  {
    if calls != [] {
      var next := Apply(db, calls[0]);
      match calls[0] {
        case SubmitLead(input, id, now) =>
          CreateLeadPreservesDbInvariant(db, input, id, now);
        case BookMeeting(input, id, code) =>
          CreateBookingPreservesInvariant(db, input, id, code);
        case ChangeStatus(id, status) =>
          UpdateStatusPreservesInvariant(db.leads, id, status);
          forall i | 0 <= i < |db.bookings|
            ensures IdTaken(next.leads, db.bookings[i].leadId)
          {
            UpdateStatusKeepsIds(db.leads, id, status, db.bookings[i].leadId);
          }
      }
      RunPreservesInvariant(next, calls[1..]);
    }
  }
}
