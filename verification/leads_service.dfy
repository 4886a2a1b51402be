/** The lead service: creating a lead with the duplicate-email check and
    budget triage, listing leads, and the two store operations the booking
    service relies on (lookup by id and status update). The store is the
    sequence of lead documents in insertion order. */
module LeadsService {
  import opened Results
  import opened LeadSchema

  /** The GraphQL input of `createLead`; every field is non-null. */
  datatype CreateLeadInput = CreateLeadInput(
    name: string, email: string, phone: string, budget: int, serviceType: string)

  /** The store after a call, and what the call returned. */
  datatype Reply<+T> = Reply(leads: seq<Lead>, result: Result<T>)

  const DuplicateEmailMessage: string := "Lead with this email already exists!"
  const RejectedEvent: string := "Auto-Rejected: Budget to low (<3k)"
  const QualifiedEvent: string := "Auto-Qualified: Budget high enough (>50k)"
  const ReviewEvent: string := "Lead Created: Needs Manual Review"

  /** Budgets below this are rejected outright. */
  const RejectBelow: int := 3000
  /** Budgets above this are qualified outright. */
  const QualifyAbove: int := 50000

  /** The status a new lead receives and the one event logged for it. */
  datatype Triage = Triage(status: Status, event: string)

  /** Budget triage: three disjoint budget ranges, each with its own status
      and event; the middle range includes both of its boundaries. */
  function TriageBudget(budget: int): (t: Triage)
    ensures budget < RejectBelow <==> t == Triage(Rejected, RejectedEvent)
    ensures budget > QualifyAbove <==> t == Triage(Qualified, QualifiedEvent)
    ensures RejectBelow <= budget <= QualifyAbove <==> t == Triage(New, ReviewEvent)
  {
    if budget < RejectBelow then Triage(Rejected, RejectedEvent)
    else if budget > QualifyAbove then Triage(Qualified, QualifiedEvent)
    else Triage(New, ReviewEvent)
  }

  /** Orders the statuses triage can produce from worst to best. */
  function TriageRank(s: Status): int {
    match s
    case Rejected => 0
    case New => 1
    case Qualified => 2
    case _ => 3
  }

  /** Triage never lowers the outcome when the budget grows, and only ever
      yields NEW, QUALIFIED or REJECTED. */
  lemma TriageMonotone(b1: int, b2: int)
    requires b1 <= b2
    ensures TriageBudget(b1).status in {New, Qualified, Rejected}
    ensures TriageRank(TriageBudget(b1).status) <= TriageRank(TriageBudget(b2).status)
  {
  }

  /** Some stored lead has this email. */
  predicate EmailTaken(leads: seq<Lead>, email: string) {
    exists i :: 0 <= i < |leads| && leads[i].email == email
  }

  /** Some stored lead has this `_id`. */
  predicate IdTaken(leads: seq<Lead>, id: string) {
    exists i :: 0 <= i < |leads| && leads[i].id == id
  }

  /** `findOne({ email })`: the first stored lead with that email. */
  function FindByEmail(leads: seq<Lead>, email: string): (r: Option<Lead>)
    ensures r.Some? ==> r.value in leads && r.value.email == email
    ensures r.None? <==> !EmailTaken(leads, email)
  {
    if leads == [] then None
    else if leads[0].email == email then Some(leads[0])
    else
      var rest := FindByEmail(leads[1..], email);
      assert forall i :: 1 <= i < |leads| ==> leads[i] == leads[1..][i - 1];
      rest
  }

  /** `findOne(id)`: the stored lead with that `_id`, or nothing. */
  function FindOne(leads: seq<Lead>, id: string): (r: Option<Lead>)
    ensures r.Some? ==> r.value in leads && r.value.id == id
    ensures r.None? <==> !IdTaken(leads, id)
  {
    if leads == [] then None
    else if leads[0].id == id then Some(leads[0])
    else
      var rest := FindOne(leads[1..], id);
      assert forall i :: 1 <= i < |leads| ==> leads[i] == leads[1..][i - 1];
      rest
  }

  /** `updateStatus(id, status)`: the lead with that `_id` gets the new
      status and keeps every other field; every other lead is unchanged. */
  function UpdateStatus(leads: seq<Lead>, id: string, status: Status): (r: seq<Lead>)
    ensures |r| == |leads|
    ensures forall i :: 0 <= i < |leads| && leads[i].id == id ==> r[i] == leads[i].(status := status)
    ensures forall i :: 0 <= i < |leads| && leads[i].id != id ==> r[i] == leads[i]
  {
    if leads == [] then []
    else
      var head := if leads[0].id == id then leads[0].(status := status) else leads[0];
      [head] + UpdateStatus(leads[1..], id, status)
  }

  /** `save()` of a new document: validation first, then the unique `_id`
      index; only a document that passes both is appended. */
  function Save(leads: seq<Lead>, d: LeadDraft, now: int): (r: Reply<Lead>)
    ensures r.result.Err? ==> r.leads == leads
    ensures r.result.Ok? ==> BuildLead(d, now) == Ok(r.result.value) && !IdTaken(leads, d.id)
    ensures r.result.Ok? ==> r.leads == leads + [r.result.value]
    ensures BuildLead(d, now).Ok? && !IdTaken(leads, d.id) ==> r.result.Ok?
  {
    match BuildLead(d, now)
    case Err(e) => Reply(leads, Err(e))
    case Ok(lead) =>
      if IdTaken(leads, lead.id) then Reply(leads, Err(DuplicateKey(lead.id)))
      else Reply(leads + [lead], Ok(lead))
  }

  /** The document `createLead` builds: the input's five fields, the
      triaged status, and a one-entry timeline without a timestamp. */
  function NewLeadDraft(input: CreateLeadInput, id: string): LeadDraft {
    var t := TriageBudget(input.budget);
    LeadDraft(id, Some(input.name), Some(input.email), Some(input.phone),
              Some(input.budget), Some(input.serviceType),
              Some(StatusName(t.status)), Some([TimelineDraft(t.event, None)]))
  }

  /** `createLead`: reject a duplicate email, triage the budget, save. `id`
      is the `_id` the database generates and `now` the save instant. */
  function CreateLead(leads: seq<Lead>, input: CreateLeadInput, id: string, now: int): (r: Reply<Lead>)
    ensures EmailTaken(leads, input.email) ==>
      r == Reply(leads, Err(BadRequest(DuplicateEmailMessage)))
    ensures r.result.Err? ==> r.leads == leads
    ensures r.result.Ok? ==>
      var lead := r.result.value;
      && !EmailTaken(leads, input.email)
      && !IdTaken(leads, id)
      && r.leads == leads + [lead]
      && lead.id == id
      && lead.name == input.name
      && lead.email == input.email
      && lead.phone == input.phone
      && lead.budget == input.budget
      && lead.serviceType == Some(input.serviceType)
      && lead.status == TriageBudget(input.budget).status
      && lead.timeline == [TimelineItem(TriageBudget(input.budget).event, now)]
    ensures (!EmailTaken(leads, input.email) && !IdTaken(leads, id)
             && |input.name| > 0 && |input.email| > 0 && |input.phone| > 0) ==> r.result.Ok?
  {
    match FindByEmail(leads, input.email)
    case Some(_) => Reply(leads, Err(BadRequest(DuplicateEmailMessage)))
    case None =>
      var d := NewLeadDraft(input, id);
      var r := Save(leads, d, now);
      assert r.result.Ok? ==> ParseStatus(StatusName(TriageBudget(input.budget).status)) == Some(TriageBudget(input.budget).status);
      r
  }

  /** `getAllLeads`: every stored lead, in storage order. */
  function GetAllLeads(leads: seq<Lead>): (r: seq<Lead>)
    ensures forall l :: l in r <==> l in leads
    ensures |r| == |leads|
  {
    leads
  }

  /** No two stored leads share an email. */
  predicate EmailsDistinct(leads: seq<Lead>) {
    forall i, j :: 0 <= i < j < |leads| ==> leads[i].email != leads[j].email
  }

  /** No two stored leads share an `_id`. */
  predicate IdsDistinct(leads: seq<Lead>) {
    forall i, j :: 0 <= i < j < |leads| ==> leads[i].id != leads[j].id
  }

  /** What every reachable lead store satisfies. */
  predicate LeadStoreInvariant(leads: seq<Lead>) {
    && (forall i :: 0 <= i < |leads| ==> SchemaValid(leads[i]))
    && EmailsDistinct(leads)
    && IdsDistinct(leads)
  }

  /** A create, successful or not, keeps emails and ids pairwise distinct
      and every stored lead schema-valid. */
  lemma CreateLeadPreservesInvariant(leads: seq<Lead>, input: CreateLeadInput, id: string, now: int)
    requires LeadStoreInvariant(leads)
    ensures LeadStoreInvariant(CreateLead(leads, input, id, now).leads)
  {
  }

  /** A second create with an email already stored always fails, whatever
      the rest of its input. */
  lemma ResubmissionRejected(leads: seq<Lead>, first: CreateLeadInput, second: CreateLeadInput,
                             id1: string, id2: string, now1: int, now2: int)
    requires CreateLead(leads, first, id1, now1).result.Ok?
    requires second.email == first.email
    ensures CreateLead(CreateLead(leads, first, id1, now1).leads, second, id2, now2).result
         == Err(BadRequest(DuplicateEmailMessage))
  {
    var after := CreateLead(leads, first, id1, now1).leads;
    assert after[|leads|].email == second.email;
  }

  /** After a successful create, listing the leads returns the new lead and
      every lead listed before. */
  lemma CreatedLeadIsListed(leads: seq<Lead>, input: CreateLeadInput, id: string, now: int, earlier: Lead)
    requires CreateLead(leads, input, id, now).result.Ok?
    requires earlier in GetAllLeads(leads)
    ensures CreateLead(leads, input, id, now).result.value in GetAllLeads(CreateLead(leads, input, id, now).leads)
    ensures earlier in GetAllLeads(CreateLead(leads, input, id, now).leads)
  {
  }

  /** After `updateStatus`, looking the lead up shows the new status and
      its other fields as before; other ids look up as before. */
  lemma UpdateStatusThenFind(leads: seq<Lead>, id: string, status: Status, other: string)
    requires IdsDistinct(leads)
    requires other != id
    ensures FindOne(UpdateStatus(leads, id, status), id)
         == (if FindOne(leads, id).Some? then Some(FindOne(leads, id).value.(status := status)) else None)
    ensures FindOne(UpdateStatus(leads, id, status), other) == FindOne(leads, other)
  {
    UpdateStatusKeepsIdsDistinct(leads, id, status);
    FindAfterUpdate(leads, id, status, id);
    FindAfterUpdate(leads, id, status, other);
  }

  /** A status update keeps every lead's id, so ids stay distinct. */
  lemma UpdateStatusKeepsIdsDistinct(leads: seq<Lead>, id: string, status: Status)
    requires IdsDistinct(leads)
    ensures forall i :: 0 <= i < |leads| ==> UpdateStatus(leads, id, status)[i].id == leads[i].id
    ensures IdsDistinct(UpdateStatus(leads, id, status))
  {
  }

  /** Looking up `key` after updating `id` finds the updated lead at the
      same index. */
  lemma FindAfterUpdate(leads: seq<Lead>, id: string, status: Status, key: string)
    requires IdsDistinct(leads)
    ensures FindOne(UpdateStatus(leads, id, status), key)
         == (if FindOne(leads, key).Some?
             then Some(if key == id then FindOne(leads, key).value.(status := status) else FindOne(leads, key).value)
             else None)
  {
    var r := UpdateStatus(leads, id, status);
    UpdateStatusKeepsIdsDistinct(leads, id, status);
    if IdTaken(leads, key) {
      var k :| 0 <= k < |leads| && leads[k].id == key;
      FindOneAt(leads, key);
      FindOneAt(r, key);
      assert FindOne(leads, key) == Some(leads[k]);
      assert FindOne(r, key) == Some(r[k]);
    } else {
      assert !IdTaken(r, key);
    }
  }

  /** In a store with distinct ids, `FindOne` returns the lead at the one
      index holding that id. */
  lemma FindOneAt(leads: seq<Lead>, id: string)
    requires IdsDistinct(leads)
    ensures forall i :: 0 <= i < |leads| && leads[i].id == id ==> FindOne(leads, id) == Some(leads[i])
  {
  }

  /** `updateStatus` changes statuses only, so it keeps the store invariant. */
  lemma UpdateStatusPreservesInvariant(leads: seq<Lead>, id: string, status: Status)
    requires LeadStoreInvariant(leads)
    ensures LeadStoreInvariant(UpdateStatus(leads, id, status))
  {
  }
}
