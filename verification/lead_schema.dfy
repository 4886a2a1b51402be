/** The Mongoose schema of a lead: its fields, the closed status
    enumeration, the defaults and the `required` validators applied when a
    lead document is built and saved. */
module LeadSchema {
  import opened Results

  /** The six values the schema's `enum` admits for `status`. */
  datatype Status = New | Qualified | Rejected | MeetingBooked | Won | Lost

  /** The string the schema stores for each status. */
  function StatusName(s: Status): string {
    match s
    case New => "NEW"
    case Qualified => "QUALIFIED"
    case Rejected => "REJECTED"
    case MeetingBooked => "MEETING_BOOKED"
    case Won => "WON"
    case Lost => "LOST"
  }

  /** The enum validator: a status string is accepted iff it is the name of
      one of the six statuses, and then denotes exactly that status. */
  function ParseStatus(name: string): (r: Option<Status>)
    ensures r.Some? ==> StatusName(r.value) == name
    ensures r.None? <==> forall s: Status :: StatusName(s) != name
  {
    if name == "NEW" then Some(New)
    else if name == "QUALIFIED" then Some(Qualified)
    else if name == "REJECTED" then Some(Rejected)
    else if name == "MEETING_BOOKED" then Some(MeetingBooked)
    else if name == "WON" then Some(Won)
    else if name == "LOST" then Some(Lost)
    else None
  }

  /** Status names are distinct, so parsing a stored name gives back the
      status it was written from. */
  lemma ParseStatusName(s: Status)
    ensures ParseStatus(StatusName(s)) == Some(s)
  {
  }

  const DefaultStatus: Status := New

  /** One entry of a lead's history; the timestamp is an instant in
      milliseconds. */
  datatype TimelineItem = TimelineItem(event: string, timestamp: int)

  /** A timeline entry as handed to the schema, before the timestamp
      default is applied. */
  datatype TimelineDraft = TimelineDraft(event: string, timestamp: Option<int>)

  /** A stored lead. `serviceType` has no `required` flag and may be
      absent; `email` carries no schema-level unique index. */
  datatype Lead = Lead(
    id: string,
    name: string,
    email: string,
    phone: string,
    budget: int,
    serviceType: Option<string>,
    status: Status,
    timeline: seq<TimelineItem>)

  /** The fields handed to `new leadModel({...})`: any may be missing, and
      `status` is still the raw string. */
  datatype LeadDraft = LeadDraft(
    id: string,
    name: Option<string>,
    email: Option<string>,
    phone: Option<string>,
    budget: Option<int>,
    serviceType: Option<string>,
    status: Option<string>,
    timeline: Option<seq<TimelineDraft>>)

  /** Mongoose's `required` check for a String path: present and non-empty. */
  predicate RequiredString(v: Option<string>) {
    v.Some? && |v.value| > 0
  }

  /** What every lead accepted by the schema satisfies. */
  predicate SchemaValid(l: Lead) {
    |l.name| > 0 && |l.email| > 0 && |l.phone| > 0
  }

  /** The paths of a draft that fail validation, in declaration order. */
  function LeadFailures(d: LeadDraft): seq<string> {
    (if RequiredString(d.name) then [] else ["name"])
    + (if RequiredString(d.email) then [] else ["email"])
    + (if RequiredString(d.phone) then [] else ["phone"])
    + (if d.budget.Some? then [] else ["budget"])
    + (if d.status.None? || ParseStatus(d.status.value).Some? then [] else ["status"])
  }

  /** Applies the timestamp default (the creation instant) to each entry. */
  function StampTimeline(items: seq<TimelineDraft>, now: int): (r: seq<TimelineItem>)
    ensures |r| == |items|
    ensures forall i :: 0 <= i < |items| ==> r[i].event == items[i].event
    ensures forall i :: 0 <= i < |items| ==>
      r[i].timestamp == (if items[i].timestamp.Some? then items[i].timestamp.value else now)
  {
    if items == [] then []
    else [TimelineItem(items[0].event, items[0].timestamp.GetOr(now))] + StampTimeline(items[1..], now)
  }

  /** Builds and validates a lead document: required paths must be
      present, a given status must be one of the six, and the defaults
      (status NEW, empty timeline, timestamp = now) fill what is missing. */
  function BuildLead(d: LeadDraft, now: int): (r: Result<Lead>)
    ensures r.Err? <==>
      !RequiredString(d.name) || !RequiredString(d.email) || !RequiredString(d.phone)
      || d.budget.None? || (d.status.Some? && ParseStatus(d.status.value).None?)
    ensures r.Err? ==> r.error.ValidationFailed? && |r.error.paths| > 0
    ensures r.Ok? ==> SchemaValid(r.value)
    ensures r.Ok? ==>
      && r.value.id == d.id
      && Some(r.value.name) == d.name
      && Some(r.value.email) == d.email
      && Some(r.value.phone) == d.phone
      && Some(r.value.budget) == d.budget
      && r.value.serviceType == d.serviceType
    ensures r.Ok? && d.status.None? ==> r.value.status == New
    ensures r.Ok? && d.status.Some? ==> StatusName(r.value.status) == d.status.value
    ensures r.Ok? && d.timeline.None? ==> r.value.timeline == []
    ensures r.Ok? && d.timeline.Some? ==> r.value.timeline == StampTimeline(d.timeline.value, now)
  {
    var failures := LeadFailures(d);
    if failures != [] then Err(ValidationFailed(failures))
    else
      var status := if d.status.Some? then ParseStatus(d.status.value).value else DefaultStatus;
      var timeline := if d.timeline.Some? then StampTimeline(d.timeline.value, now) else [];
      Ok(Lead(d.id, d.name.value, d.email.value, d.phone.value, d.budget.value,
              d.serviceType, status, timeline))
  }
}
