/// What both copies of the chat engine share: the state they act on (the
/// session map and the Customer and Ticket repositories), the failures a
/// repository call can report, the replies, and the two validation tables.
module Conversation {
  import opened Text
  import opened Domain

  /** Which repository calls of one request fail: every `findOne`
      (`lookupFails`) or every `save()` (`saveFails`). A request makes at most
      one call of each kind. */
  datatype Faults = Faults(lookupFails: bool, saveFails: bool)

  const NoFaults := Faults(false, false)

  /** The reply sent back, by kind rather than by wording. */
  datatype Reply =
    | WelcomeBack(name: Option<string>)  // known customer; asks for the issue
    | WelcomeNew                         // unknown sender; asks for the full name
    | TryAgainLater                      // the phone lookup failed
    | AskAgain(step: Step)               // empty message; repeats the step's question
    | NotUnderstood                      // empty message at an unknown step
    | Invalid(step: Step)                // input rejected by the step's rule
    | NameThanks(given: string)          // name accepted; asks for the e-mail
    | Prompt(next: Step)                 // input accepted; asks the next question
    | EmailTaken                         // e-mail belongs to another customer
    | RegistrationFailed                 // a repository call failed while registering
    | Registered(name: Option<string>)   // customer created; asks for the issue
    | BookingConfirmed(ticket: Ticket)   // ticket created; repeats its details and id
    | BookingFailed                      // the ticket could not be saved
    | Raised                             // the lookup error escapes; no reply is produced

  /** The session map plus the repositories; `nextId` is the next fresh
      record id. */
  datatype World = World(
    sessions: map<string, Session>, customers: seq<Customer>, tickets: seq<Ticket>, nextId: nat)

  datatype Outcome = Outcome(world: World, reply: Reply)

  /** Minimum trimmed length, in UTF-16 code units, per step. */
  datatype Rules = Rules(name: nat, issue: nat, model: nat, address: nat, date: nat, time: nat)

  /** services/chatFlowService.js */
  const CurrentRules := Rules(2, 3, 2, 10, 8, 2)

  /** services/chatFlowSevice.js */
  const LegacyRules := Rules(2, 5, 2, 10, 8, 4)

  function MinLength(rules: Rules, s: Step): nat {
    match s
    case AskName => rules.name
    case AskIssue => rules.issue
    case AskModel => rules.model
    case AskAddress => rules.address
    case AskDate => rules.date
    case AskTime => rules.time
    case _ => 0
  }

  /** Whether `message` passes the check of step `s`: the e-mail pattern at
      `ask_email`, a minimum trimmed length everywhere else. */
  predicate Acceptable(rules: Rules, s: Step, message: string)
    ensures Acceptable(rules, s, message) && s == AskEmail ==>
      5 <= |Trim(message)| && PlainChar(Trim(message)[0])
    ensures Acceptable(rules, s, message) && s.Known() && Positive(rules) ==> !IsBlank(message)
    ensures s != AskEmail && Utf16Length(Trim(message)) < MinLength(rules, s) ==>
      !Acceptable(rules, s, message)
  {
    if s == AskEmail then MatchesEmailPattern(Trim(message))
    else Utf16Length(Trim(message)) >= MinLength(rules, s)
  }

  /** `!message || message.trim() === ''`. */
  predicate IsBlank(message: string)
    ensures IsBlank(message) <==> AllWhitespace(message)
  {
    Trim(message) == ""
  }

  /** Every length rule asks for at least one code unit, as both tables do. */
  predicate Positive(rules: Rules) {
    rules.name >= 1 && rules.issue >= 1 && rules.model >= 1
    && rules.address >= 1 && rules.date >= 1 && rules.time >= 1
  }

  /** An accepted message is never blank, under either table. */
  lemma AcceptedIsNotBlank(rules: Rules, s: Step, message: string)
    requires s.Known() && Positive(rules)
    requires Acceptable(rules, s, message)
    ensures !IsBlank(message)
  {
  }

  /** The old copy's table is stricter at every step: whatever it accepts,
      the current one accepts too. */
  lemma LegacyRulesStricter(s: Step, message: string)
    requires Acceptable(LegacyRules, s, message)
    ensures Acceptable(CurrentRules, s, message)
  {
  }

  /** Records only ever grow by appending, at most one of each kind per
      request. */
  predicate RecordsExtend(w: World, w': World) {
    |w.customers| <= |w'.customers| <= |w.customers| + 1
    && w'.customers[..|w.customers|] == w.customers
    && |w.tickets| <= |w'.tickets| <= |w.tickets| + 1
    && w'.tickets[..|w.tickets|] == w.tickets
    && w.nextId <= w'.nextId
  }

  // ---------------------------------------------------------------------
  // Consistency of the state the engine builds
  // ---------------------------------------------------------------------

  ghost predicate CustomerExists(cs: seq<Customer>, id: nat) {
    exists c :: c in cs && c.id == id
  }

  /** The booking details a session at step `s` has already gathered. */
  predicate DraftReady(t: Option<TicketDraft>, s: Step) {
    match s
    case AskIssue => true
    case AskModel => t.Some? && Filled(t.value.issue)
    case AskAddress => t.Some? && Filled(t.value.issue) && Filled(t.value.model)
    case AskDate => t.Some? && Filled(t.value.issue) && Filled(t.value.model) && Filled(t.value.address)
    case AskTime =>
      t.Some? && Filled(t.value.issue) && Filled(t.value.model) && Filled(t.value.address)
      && Filled(t.value.preferredDate)
    case _ => false
  }

  /** What every session the engine writes satisfies: a registration record
      while registering (with the name once past `ask_name`), and from
      `ask_issue` on a real customer id and every detail of the earlier steps. */
  ghost predicate SessionConsistent(d: SessionData, cs: seq<Customer>) {
    match d.step
    case Some(AskName) => d.registrationData.Some?
    case Some(AskEmail) => d.registrationData.Some? && d.registrationData.value.name.Some?
    case Some(s) =>
      d.customerId.Some? && CustomerExists(cs, d.customerId.value) && DraftReady(d.ticketData, s)
    case None => false
  }

  /** Every session is consistent, every record id is below `nextId`, and
      every ticket refers to an existing customer. */
  ghost predicate Inv(w: World) {
    (forall p :: p in w.sessions ==> SessionConsistent(w.sessions[p].data, w.customers))
    && (forall i :: 0 <= i < |w.customers| ==> w.customers[i].id < w.nextId)
    && (forall i :: 0 <= i < |w.tickets| ==>
          w.tickets[i].id < w.nextId && CustomerExists(w.customers, w.tickets[i].customerId))
  }

  /** Appending a customer keeps existing references valid. */
  lemma CustomerExistsGrows(cs: seq<Customer>, c: Customer, id: nat)
    requires CustomerExists(cs, id)
    ensures CustomerExists(cs + [c], id)
  {
    var c' :| c' in cs && c'.id == id;
    assert c' in cs + [c];
  }
}
