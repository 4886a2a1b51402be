# Sales CRM core, modelled in Dafny

This project models the sequential logic of a small sales CRM. A public form
captures leads. The server triages each new lead by budget. Meetings are booked
into globally exclusive (date, time slot) pairs. An internal dashboard shows
leads on a Kanban board with drag-and-drop between columns.

The model is functional. Each store is a sequence of documents in insertion
order. Each operation is a pure function that returns the new store and a
`Result`. A failed call returns the store it was given.

| file | module | models |
|---|---|---|
| `results.dfy` | `Results` | `Option`, `Result`, and the three ways a call fails |
| `lead_schema.dfy` | `LeadSchema` | lead and timeline fields, the six-value status enum, defaults, `required` validation |
| `booking_schema.dfy` | `BookingSchema` | booking fields, required/optional split, the `SCHEDULED` default |
| `leads_service.dfy` | `LeadsService` | `createLead`, `getAllLeads`, the `findOne`/`updateStatus` store operations, the lead store invariant |
| `bookings_service.dfy` | `BookingsService` | `createBooking`, slot exclusivity, the database invariant under any sequence of calls |
| `dashboard.dfy` | `Dashboard` | column bucketing, pipeline statistics, the drag-and-drop move, the "High Value" tag |
| `lead_form.dfy` | `LeadForm` | field validators, the email pattern, the status-to-message mapping, form reset |

Modelling choices:

- Values the environment supplies are parameters:
  - `id` is the `_id` the database generates;
  - `now` is the save instant, used for the timestamp default;
  - `meetingCode` is the random meeting code.
- A generated `_id` that collides with a stored one is refused with `DuplicateKey`, as the database's unique `_id` index does. Ids therefore stay distinct without any assumption.
- Mongoose's `required` check on a String path refuses the empty string. So saving a lead with an empty name, email or phone fails with `ValidationFailed`. This check runs after the duplicate-email check, because it happens at save time.
- Dates are instants in milliseconds. The slot query matches the exact same `Date` value.
- The dashboard assumes every fetched status is one of the six values of the schema's `enum`. The schema checks that enum when a document is saved. The `updateLeadStatus` resolver passes any string on to `updateStatus`. The model's `BookingsService.Call.ChangeStatus`, `Dashboard.StatusRequest` and `LeadsService.UpdateStatus` take only the six enum values (see Left out).
- `findOne` and `updateStatus` are called but not defined in `server/src/leads/leads.service.ts`. They are modelled as store operations with a minimal contract:
  - `FindOne` returns the lead with that `_id`, or nothing;
  - `UpdateStatus` sets that lead's status and changes nothing else. In particular it appends no timeline entry.

Facts about the code that the model keeps:

- Resubmitting an email that is already stored is an error (`server/src/leads/leads.service.ts:13-18`). The stored lead is not updated.
- The duplicate check looks at every stored lead, whatever its status.
- The timeline events are the literal strings in the code, including "Budget to low (<3k)".

## Model

| member | source | states |
|---|---|---|
| `LeadSchema.ParseStatus` | server/src/leads/schemas/lead.schema.ts:46-51 | a status string is accepted iff it names one of NEW, QUALIFIED, REJECTED, MEETING_BOOKED, WON, LOST, and then denotes that status |
| `LeadSchema.ParseStatusName` | server/src/leads/schemas/lead.schema.ts:47-51 | every stored status name parses back to the status it was written from |
| `LeadSchema.StampTimeline` | server/src/leads/schemas/lead.schema.ts:10-17 | each timeline entry keeps its event; a missing timestamp becomes the creation instant |
| `LeadSchema.BuildLead` | server/src/leads/schemas/lead.schema.ts:20-56 | a lead document is refused iff name, email or phone is missing or empty, budget is missing, or status is outside the enum; otherwise the given fields are kept, a given timeline is kept with missing timestamps set to now, status defaults to NEW, the timeline defaults to empty, serviceType may be absent; nothing here looks at other leads, so email uniqueness is not a schema property |
| `BookingSchema.BuildBooking` | server/src/bookings/schemas/booking.schema.ts:9-39 | a booking is refused iff leadId, clientName, clientEmail, date or timeSlot is missing (or an empty string); meetingLink may be absent; a missing status becomes SCHEDULED and any given status string is kept unchecked |
| `LeadsService.TriageBudget` | server/src/leads/leads.service.ts:19-30 | budget < 3000 iff REJECTED with the auto-reject event; budget > 50000 iff QUALIFIED with the auto-qualify event; 3000..50000 inclusive iff NEW with the manual-review event |
| `LeadsService.TriageMonotone` | server/src/leads/leads.service.ts:19-30 | triage yields only NEW, QUALIFIED or REJECTED, and a larger budget never gets a worse outcome |
| `LeadsService.FindByEmail` | server/src/leads/leads.service.ts:13-15 | the lookup finds a stored lead with that exact email iff one exists |
| `LeadsService.FindOne` | server/src/bookings/bookings.service.ts:32-36 | returns a stored lead with that id, or nothing iff no stored lead has it |
| `LeadsService.UpdateStatus` | server/src/bookings/bookings.service.ts:55 | the lead with that id gets the new status and keeps all other fields; every other lead is unchanged; the store keeps its length |
| `LeadsService.Save` | server/src/leads/leads.service.ts:32-37 | a document is appended iff it validates and its id is unused; a failed save leaves the store unchanged |
| `LeadsService.CreateLead` | server/src/leads/leads.service.ts:12-38 | a stored email gives "Lead with this email already exists!" with the store unchanged; on success the lead carries the input's name, email, phone, budget and serviceType, the triaged status, exactly one timeline entry stamped now, and is the only addition to the store; a new email, a free id and non-empty name, email and phone always succeed |
| `LeadsService.GetAllLeads` | server/src/leads/leads.service.ts:40-42 | returns exactly the stored leads, with the same count |
| `LeadsService.CreateLeadPreservesInvariant` | server/src/leads/leads.service.ts:13-37 | after any create, emails and ids remain pairwise distinct and every lead is schema-valid |
| `LeadsService.ResubmissionRejected` | server/src/leads/leads.service.ts:13-18 | once a lead is created, any later create with the same email fails, whatever its budget |
| `LeadsService.CreatedLeadIsListed` | server/src/leads/leads.service.ts:32-42 | after a successful create, the listing holds the new lead and every earlier one |
| `LeadsService.UpdateStatusThenFind` | server/src/bookings/bookings.service.ts:32-55 | after a status update, the lead reads back with the new status and other fields unchanged; any other id reads back as before |
| `LeadsService.UpdateStatusPreservesInvariant` | server/src/bookings/bookings.service.ts:55 | a status update keeps emails and ids distinct and leads schema-valid |
| `BookingsService.FindBySlot` | server/src/bookings/bookings.service.ts:18-22 | the slot lookup finds a booking with that exact (date, timeSlot) iff one exists |
| `BookingsService.CreateBooking` | server/src/bookings/bookings.service.ts:17-63 | a taken slot gives "This slot is already booked! Please choose another." whatever the leadId, even when the lead is missing; a free slot with an unknown lead gives "Lead not found"; any failure leaves both stores unchanged; on success the booking has the input's leadId, date and timeSlot, the lead's name and email, the link "https://meet.google.com/" + code and status SCHEDULED, it is the only booking added, and the lead store is the status update to MEETING_BOOKED |
| `BookingsService.CreateBookingPreservesInvariant` | server/src/bookings/bookings.service.ts:18-55 | any booking call keeps slots distinct, booking ids distinct, the lead invariant, and every booking pointing at a stored lead |
| `BookingsService.CreateLeadPreservesDbInvariant` | server/src/leads/leads.service.ts:12-38 | any lead submission keeps the whole database invariant |
| `BookingsService.SecondBookingOfSlotFails` | server/src/bookings/bookings.service.ts:18-28 | after a successful booking, booking the same slot again fails with the conflict error for any lead |
| `BookingsService.BookingMarksLead` | server/src/bookings/bookings.service.ts:51-55 | after a successful booking the lead reads back as MEETING_BOOKED and every other lead reads back as before |
| `BookingsService.RunPreservesInvariant` | server/src/bookings/bookings.service.ts:18-55 | under any sequence of lead submissions, bookings and status updates, emails stay distinct and no two bookings share a slot |
| `Dashboard.Bucket` | client/src/app/dashboard/page.tsx:72-80 | the bucketed board has exactly the four columns, and every card sits in the column of its own status |
| `Dashboard.Refresh` | client/src/app/dashboard/page.tsx:72-80 | without data the board is unchanged; with data every column is exactly the input's leads of that status, in input order |
| `Dashboard.BucketIsFilter` | client/src/app/dashboard/page.tsx:74-77 | each column equals the order-preserving filter of the input by that status |
| `Dashboard.UnshownStatusesHidden` | client/src/app/dashboard/page.tsx:74-76 | a MEETING_BOOKED or LOST lead appears in no column |
| `Dashboard.ShownStatusesPlaced` | client/src/app/dashboard/page.tsx:74-76 | a NEW, QUALIFIED, REJECTED or WON lead appears in its column |
| `Dashboard.TotalValue` | client/src/app/dashboard/page.tsx:69 | before data arrives the pipeline value is 0; afterwards it is the budget sum over the leads of all six statuses, shown in a column or not |
| `Dashboard.TotalLeads` | client/src/app/dashboard/page.tsx:70 | before data arrives the lead count is 0; afterwards it counts the leads of all six statuses, shown in a column or not |
| `Dashboard.StatsCountHiddenLeads` | client/src/app/dashboard/page.tsx:69-70 | the pipeline value and lead count equal the column totals plus the MEETING_BOOKED and LOST leads that no column shows |
| `Dashboard.Remove` | client/src/app/dashboard/page.tsx:93 | removing one element at index i shifts the later elements down by one |
| `Dashboard.Insert` | client/src/app/dashboard/page.tsx:97 | inserting at index j puts the card at j and shifts the later elements up by one |
| `Dashboard.OnDragEnd` | client/src/app/dashboard/page.tsx:86-104 | no destination, or a drop in the same column, changes nothing and sends nothing; otherwise the source column loses exactly its element at the source index, the destination gets that card with the destination status at the destination index, other columns are unchanged, the status update is sent, and a failing update is only logged while the board keeps the move |
| `Dashboard.MovePreservesIds` | client/src/app/dashboard/page.tsx:91-98 | a move keeps the multiset of card ids: no card is lost or duplicated |
| `Dashboard.MovePreservesCardCount` | client/src/app/dashboard/page.tsx:91-98 | a move keeps the total number of cards on the board |
| `Dashboard.MovePreservesWellFormed` | client/src/app/dashboard/page.tsx:91-98 | after a move every card still sits in the column of its status |
| `Dashboard.MoveRoundTrip` | client/src/app/dashboard/page.tsx:86-98 | dragging a card to another column and back to its old index restores the board |
| `Dashboard.HighValue` | client/src/app/dashboard/page.tsx:297 | a card shows "High Value" iff its budget is one that triage qualifies, i.e. above 50000 |
| `Dashboard.HighValueIffAutoQualified` | client/src/app/dashboard/page.tsx:297 | a freshly created lead shows "High Value" iff triage qualified it |
| `LeadForm.MatchesEmailPattern` | client/src/app/page.tsx:249 | the one-pass check accepts iff the text splits at an `@` into non-empty, whitespace-free parts |
| `LeadForm.ValidateName` | client/src/app/page.tsx:242 | the name passes iff non-empty; otherwise "Name is required" |
| `LeadForm.ValidateEmail` | client/src/app/page.tsx:249 | the email passes iff it matches `^\S+@\S+$`; empty gives "Email required", any other mismatch gives "Invalid email" |
| `LeadForm.Utf16Length` | client/src/app/page.tsx:256 | the JavaScript length of a string: at least its character count and at most twice it, zero only for the empty string, and equal to the character count exactly when no character lies above U+FFFF (every ordinary phone number) |
| `LeadForm.ValidatePhone` | client/src/app/page.tsx:256 | the phone passes iff its JavaScript length (UTF-16 code units, any characters, not only digits) is at least 10; empty gives "Phone required", shorter gives "Min 10 digits" |
| `LeadForm.AstralPhoneAccepted` | client/src/app/page.tsx:256 | five emoji are ten code units, so they pass the length check |
| `LeadForm.ValidateBudget` | client/src/app/page.tsx:265 | the budget passes iff one was entered; otherwise "Required" |
| `LeadForm.MessageFor` | client/src/app/page.tsx:139-155 | QUALIFIED gives success, REJECTED gives error, any other status gives info |
| `LeadForm.ResetRestoresDefaults` | client/src/app/page.tsx:119-127 | the default service is the first of the three selectable ones; a reset returns the defaults except for a budget of 0; the initial form, with no budget, does not pass validation |
| `LeadForm.OnSubmit` | client/src/app/page.tsx:131-167 | a failed mutation shows "Submission failed. Please try again." and keeps the values; a reply shows its status message and resets to empty name, email and phone, budget 0 and "Web Development" |
| `LeadForm.SubmitLead` | client/src/app/page.tsx:131-137 | the budget is sent as a GraphQL `Int`: outside the 32-bit signed range the mutation fails and the store is unchanged; a reply means the email was new, exactly one lead with that email was appended, and the reply is the triaged status's name |
| `LeadForm.ValidFormAccepted` | client/src/app/page.tsx:131-137 | a form that passes validation passes the server's required checks, so with a new email and a free id it is saved iff its budget fits the 32-bit `Int` range |
| `LeadForm.SubmitMessageFollowsBudget` | client/src/app/page.tsx:131-165 | end to end, a budget outside the 32-bit `Int` range or any server error shows the failure message; when the server answers, the alert is success iff budget > 50000, error iff budget < 3000, info otherwise |

## Left out

- Mail is left out. Lead creation sends no email. The booking confirmation is only a log line (`server/src/bookings/bookings.service.ts:60`). The mail service is SMTP I/O that changes no stored state.
- Authentication, users, password hashing and token signing are left out. They are calls into cryptographic libraries.
- Resolvers, modules, bootstrap, the Apollo wrapper, layout, navigation and login pages are left out. They are framework wiring.
- The booking page and all rendering, styling and animation are left out.
- `Math.random()` meeting codes, generated `_id`s and the clock are parameters, not modelled generators.
- The `createdAt`/`updatedAt` document timestamps are left out. No logic reads them.
- Concurrency is left out. Two requests can both pass the check-then-insert on email or slot before either saves; the model runs calls one at a time.
- LeadsService.UpdateStatus: only its effect on the store is modelled, not the document it returns. Its status argument is the closed enum, because the real method is not part of this model and its validation is unknown.
- LeadsService.CreateLeadInput: the budget is an unbounded integer. The 32-bit range check of GraphQL `Int` (server/src/leads/dto/create-lead.input.ts:14) happens before the service; it is modelled on the page's submission path by `LeadForm.SubmitLead`, not inside `CreateLead` or `BookingsService.Run`.
- Dashboard.TotalValue: sums budgets as exact integers. JavaScript adds them as floating-point numbers, and the model leaves out the `|| 0` fallback for a NaN sum.
- Dashboard.OnDragEnd: requires the in-range indices the drag library supplies. JavaScript's `splice` on an out-of-range index is not modelled.
- LeadForm.ValidateBudget: treats the budget as entered or not. The browser's parsing of the number field and `Number(...)` are not modelled.
- Dashboard.Bucket: a status is one of the six enum values. A stored status outside them cannot be represented. In the page such a lead falls out of every column, and a name such as "toString" makes the column `push` throw.
- LeadForm.EmailPattern: characters are Unicode scalar values. The browser's regex works on UTF-16 code units, which gives the same answer for the whitespace class but is not modelled.
