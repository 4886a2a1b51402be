/** The public lead form's pure logic: the field validators, the message
    shown for the status the server returns, and the values the form holds
    before and after a submission. */
module LeadForm {
  import Results
  import LeadSchema
  import LeadsService

  /** The characters JavaScript's `\s` matches; `\S` is every other one. */
  predicate IsWhitespace(c: char) {
    || c == '\t' || c == '\n' || c == '\U{000B}' || c == '\U{000C}' || c == '\r' || c == ' '
    || c == '\U{00A0}' || c == '\U{1680}' || ('\U{2000}' <= c <= '\U{200A}')
    || c == '\U{2028}' || c == '\U{2029}' || c == '\U{202F}' || c == '\U{205F}'
    || c == '\U{3000}' || c == '\U{FEFF}'
  }

  /** Every character matches `\S`. */
  predicate NoWhitespace(s: string) {
    forall k :: 0 <= k < |s| ==> !IsWhitespace(s[k])
  }

  /** A reading of `/^\S+@\S+$/`: the text splits at some `@` into a
      non-empty part before and a non-empty part after, neither holding
      whitespace. The `i` flag changes nothing, as the pattern has no
      letters. */
  predicate EmailPattern(s: string) {
    exists i :: 0 < i < |s| - 1 && s[i] == '@' && NoWhitespace(s[..i]) && NoWhitespace(s[i + 1..])
  }

  /** Decides the email pattern in one left-to-right pass: no whitespace
      anywhere, and an `@` with at least one character on each side. */
  method MatchesEmailPattern(s: string) returns (matched: bool)
    ensures matched <==> EmailPattern(s)
  {
    var clean := true;
    var found := false;
    var k := 0;
    while k < |s|
      invariant 0 <= k <= |s|
      invariant clean <==> NoWhitespace(s[..k])
      invariant found <==> exists i :: 0 < i < k && i < |s| - 1 && s[i] == '@'
    {
      assert s[..k + 1] == s[..k] + [s[k]];
      if IsWhitespace(s[k]) {
        clean := false;
      }
      if 0 < k < |s| - 1 && s[k] == '@' {
        found := true;
      }
      k := k + 1;
    }
    assert s[..k] == s;
    matched := clean && found;
    if matched {
      var i :| 0 < i < |s| - 1 && s[i] == '@';
      SplitNoWhitespace(s, i);
    } else if EmailPattern(s) {
      var i :| 0 < i < |s| - 1 && s[i] == '@' && NoWhitespace(s[..i]) && NoWhitespace(s[i + 1..]);
      SplitNoWhitespace(s, i);
    }
  }

  /** Splitting at an `@` gives two whitespace-free parts exactly when the
      whole text is whitespace-free. */
  lemma SplitNoWhitespace(s: string, i: int)
    requires 0 <= i < |s| && s[i] == '@'
    ensures NoWhitespace(s) <==> NoWhitespace(s[..i]) && NoWhitespace(s[i + 1..])
  {
  }

  const NameRequired: string := "Name is required"
  const EmailRequired: string := "Email required"
  const EmailInvalid: string := "Invalid email"
  const PhoneRequired: string := "Phone required"
  const PhoneTooShort: string := "Min 10 digits"
  const BudgetRequired: string := "Required"

  /** Phone numbers need at least this many UTF-16 code units (any
      characters, not only digits). */
  const PhoneMinLength: int := 10

  /** Every character of `s` lies in the Basic Multilingual Plane, so it
      takes one UTF-16 code unit. */
  predicate InBmp(s: string) {
    forall k :: 0 <= k < |s| ==> s[k] as int <= 0xFFFF
  }

  /** The length JavaScript reports for a string: a character above U+FFFF
      takes two UTF-16 code units, any other character one. */
  function Utf16Length(s: string): (n: nat)
    ensures |s| <= n <= 2 * |s|
    ensures n == 0 <==> s == ""
    ensures n == |s| <==> InBmp(s)
  {
    if s == [] then 0
    else
      assert InBmp(s) <==> s[0] as int <= 0xFFFF && InBmp(s[1..]) by {
        assert forall k :: 1 <= k < |s| ==> s[k] == s[1..][k - 1];
      }
      (if s[0] as int > 0xFFFF then 2 else 1) + Utf16Length(s[1..])
  }

  /** The name validator: the error shown, or None when the value passes. */
  function ValidateName(v: string): (e: Results.Option<string>)
    ensures e.None? <==> |v| > 0
    ensures e.Some? ==> e.value == NameRequired
  {
    if v == "" then Results.Some(NameRequired) else Results.None
  }

  /** The email validator: the required check first, then the pattern. */
  function ValidateEmail(v: string): (e: Results.Option<string>)
    ensures e.None? <==> EmailPattern(v)
    ensures v == "" ==> e == Results.Some(EmailRequired)
    ensures v != "" && !EmailPattern(v) ==> e == Results.Some(EmailInvalid)
  {
    if v == "" then Results.Some(EmailRequired)
    else if !EmailPattern(v) then Results.Some(EmailInvalid)
    else Results.None
  }

  /** The phone validator: the required check first, then the length in
      UTF-16 code units. */
  function ValidatePhone(v: string): (e: Results.Option<string>)
    ensures e.None? <==> Utf16Length(v) >= PhoneMinLength
    ensures v == "" ==> e == Results.Some(PhoneRequired)
    ensures v != "" && Utf16Length(v) < PhoneMinLength ==> e == Results.Some(PhoneTooShort)
  {
    if v == "" then Results.Some(PhoneRequired)
    else if Utf16Length(v) < PhoneMinLength then Results.Some(PhoneTooShort)
    else Results.None
  }

  /** Five characters outside the Basic Multilingual Plane are ten code
      units, so they pass the phone length check. */
  lemma AstralPhoneAccepted()
    ensures ValidatePhone("😀😀😀😀😀").None?
  {
    var s := "😀😀😀😀😀";
    assert s[1..][1..][1..][1..][1..] == "";
    assert Utf16Length(s) == 10;
  }

  /** The form's values; the budget is absent until the user enters one. */
  datatype FormValues = FormValues(
    name: string, email: string, phone: string,
    budget: Results.Option<int>, serviceType: string)

  /** The budget validator. */
  function ValidateBudget(v: Results.Option<int>): (e: Results.Option<string>)
    ensures e.None? <==> v.Some?
    ensures e.Some? ==> e.value == BudgetRequired
  {
    if v.None? then Results.Some(BudgetRequired) else Results.None
  }

  /** The form is submitted only when every validator passes. */
  predicate FormValid(v: FormValues) {
    && ValidateName(v.name).None?
    && ValidateEmail(v.email).None?
    && ValidatePhone(v.phone).None?
    && ValidateBudget(v.budget).None?
  }

  /** The selectable services, the first being the default. */
  const Services: seq<string> := ["Web Development", "App Development", "AI Automation"]
  const DefaultService: string := "Web Development"

  const DefaultValues: FormValues := FormValues("", "", "", Results.None, DefaultService)
  const ResetValues: FormValues := FormValues("", "", "", Results.Some(0), DefaultService)

  /** The default service is the first selectable one, and a reset returns
      the form to its defaults except for a budget of 0. */
  lemma ResetRestoresDefaults()
    ensures DefaultService == Services[0] && DefaultService in Services
    ensures ResetValues == DefaultValues.(budget := Results.Some(0))
    ensures DefaultValues.budget.None? && !FormValid(DefaultValues)
  {
  }

  /** The alert severities. */
  datatype Severity = Success | Error | Info

  datatype Message = Message(severity: Severity, text: string)

  const AcceptedText: string := "🚀 Accepted! Check your inbox for the meeting link."
  const RejectedText: string := "⚠️ Project requirements do not match our current scope."
  const ReceivedText: string := "📩 Application Received. We will contact you."
  const FailedText: string := "Submission failed. Please try again."

  /** The message for the status the server returned. */
  function MessageFor(status: string): (m: Message)
    ensures m.severity == Success <==> status == "QUALIFIED"
    ensures m.severity == Error <==> status == "REJECTED"
    ensures m.severity == Info <==> status != "QUALIFIED" && status != "REJECTED"
  {
    if status == "QUALIFIED" then Message(Success, AcceptedText)
    else if status == "REJECTED" then Message(Error, RejectedText)
    else Message(Info, ReceivedText)
  }

  /** The alert shown and the values the form holds after a submission. */
  datatype SubmitOutcome = SubmitOutcome(message: Message, values: FormValues)

  /** `onSubmit`: `reply` is the status the server returned, or None when
      the mutation failed. A success resets the form; a failure keeps it. */
  function OnSubmit(values: FormValues, reply: Results.Option<string>): (o: SubmitOutcome)
    ensures reply.None? ==> o == SubmitOutcome(Message(Error, FailedText), values)
    ensures reply.Some? ==> o.values == ResetValues && o.message == MessageFor(reply.value)
  {
    match reply
    case None => SubmitOutcome(Message(Error, FailedText), values)
    case Some(status) => SubmitOutcome(MessageFor(status), ResetValues)
  }

  /** The mutation input built from submitted values. */
  function ToInput(v: FormValues): LeadsService.CreateLeadInput
    requires v.budget.Some?
  {
    LeadsService.CreateLeadInput(v.name, v.email, v.phone, v.budget.value, v.serviceType)
  }

  /** What the client sees of the server's answer: the status, or a failure. */
  function Reply(r: Results.Result<LeadSchema.Lead>): Results.Option<string> {
    match r
    case Ok(lead) => Results.Some(LeadSchema.StatusName(lead.status))
    case Err(_) => Results.None
  }

  /** The range of a GraphQL `Int`: a 32-bit signed integer. */
  const IntMin: int := -0x8000_0000
  const IntMax: int := 0x7FFF_FFFF

  predicate FitsInt(n: int) {
    IntMin <= n <= IntMax
  }

  /** The store and the client's view of the answer after a submission. */
  datatype Submission = Submission(leads: seq<LeadSchema.Lead>, reply: Results.Option<string>)

  /** The `createLead` mutation as the page sends it: the budget is a GraphQL
      `Int`, so one outside the 32-bit range is refused before the service
      runs and the mutation throws; otherwise the service answers. */
  function SubmitLead(leads: seq<LeadSchema.Lead>, v: FormValues, id: string, now: int): (s: Submission)
    requires v.budget.Some?
    ensures !FitsInt(v.budget.value) ==> s == Submission(leads, Results.None)
    ensures s.reply.Some? ==>
      && FitsInt(v.budget.value)
      && !LeadsService.EmailTaken(leads, v.email)
      && |s.leads| == |leads| + 1
      && s.leads[|leads|].email == v.email
      && s.reply.value == LeadSchema.StatusName(LeadsService.TriageBudget(v.budget.value).status)
    ensures s.reply.None? ==> s.leads == leads
    ensures FitsInt(v.budget.value) && !LeadsService.EmailTaken(leads, v.email) && !LeadsService.IdTaken(leads, id) && FormValid(v)
            ==> s.reply.Some? && |s.leads| == |leads| + 1
  {
    if !FitsInt(v.budget.value) then Submission(leads, Results.None)
    else
      var r := LeadsService.CreateLead(leads, ToInput(v), id, now);
      Submission(r.leads, Reply(r.result))
  }

  /** A form that passes validation passes the server's required checks, so
      with a new email and a free id it is saved exactly when its budget is
      a 32-bit integer. */
  lemma ValidFormAccepted(leads: seq<LeadSchema.Lead>, v: FormValues, id: string, now: int)
    requires FormValid(v)
    requires !LeadsService.EmailTaken(leads, v.email) && !LeadsService.IdTaken(leads, id)
    ensures SubmitLead(leads, v, id, now).reply.Some? <==> FitsInt(v.budget.value)
    ensures LeadsService.CreateLead(leads, ToInput(v), id, now).result.Ok?
  {
  }

  /** End to end: the alert of a submission follows the budget — success
      above 50000, error below 3000, info in between — while a budget out of
      the `Int` range, or any server error such as a duplicate email, shows
      the failure message. */
  lemma SubmitMessageFollowsBudget(leads: seq<LeadSchema.Lead>, v: FormValues, id: string, now: int)
    requires FormValid(v)
    ensures
      var r := SubmitLead(leads, v, id, now).reply;
      var m := OnSubmit(v, r).message;
      && (!FitsInt(v.budget.value) ==> m == Message(Error, FailedText))
      && (r.None? ==> m == Message(Error, FailedText))
      && (r.Some? ==> (m.severity == Success <==> v.budget.value > 50000))
      && (r.Some? ==> (m.severity == Error <==> v.budget.value < 3000))
      && (r.Some? ==> (m.severity == Info <==> 3000 <= v.budget.value <= 50000))
  {
  }
}
