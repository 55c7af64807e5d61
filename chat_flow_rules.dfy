/// The conversation engine of services/chatFlowService.js as functions from
/// the state before a message to the state and reply after it. The class in
/// module ChatFlow runs the same steps imperatively and is proved to agree.
module ChatFlowRules {
  import opened Text
  import opened Domain
  import opened SessionStore
  import opened Conversation

  /** The profile name recorded when the caller gives none. */
  const DefaultProfileName := "Customer"

  /** An `updates` object holding only a new `step`. */
  function StepTo(s: Step): SessionData {
    NoKeys.(step := Some(s))
  }

  /** No customer in `cs` has e-mail address `email`. */
  predicate EmailFree(cs: seq<Customer>, email: string) {
    forall i :: 0 <= i < |cs| ==> cs[i].email != email
  }

  /** No customer in `cs` has phone number `phone`. */
  predicate PhoneUnknown(cs: seq<Customer>, phone: string) {
    forall i :: 0 <= i < |cs| ==> cs[i].phone != phone
  }

  /** Only `phone`'s session was rewritten, at `now`, to step `next`, keeping
      its customer keys; the repositories are untouched. */
  ghost predicate Advanced(w: World, w': World, phone: string, next: Step, now: int)
    requires phone in w.sessions
  {
    phone in w'.sessions && w'.sessions - {phone} == w.sessions - {phone}
    && w'.customers == w.customers && w'.tickets == w.tickets && w'.nextId == w.nextId
    && w'.sessions[phone].lastActivity == now
    && var d, d' := w.sessions[phone].data, w'.sessions[phone].data;
       d'.step == Some(next) && d'.customerId == d.customerId && d'.customerName == d.customerName
  }

  /** handleEmptyMessage: the question of the current step, or a generic
      request to try again when the step is not one of the seven. */
  function EmptyMessagePrompt(step: Option<Step>): (r: Reply)
    ensures r.AskAgain? <==> step.Some? && step.value.Known()
    ensures r.AskAgain? ==> r.step == step.value
    ensures !r.AskAgain? ==> r == NotUnderstood
  {
    match step
    case Some(s) => if s.Known() then AskAgain(s) else NotUnderstood
    case None => NotUnderstood
  }

  /** handleNewCustomer: a sender with a customer record goes to `ask_issue`
      under that customer; any other sender starts registration at
      `ask_name`, with the profile name noted. A failed lookup changes
      nothing. */
  function NewCustomer(w: World, phone: string, profileName: string, f: Faults, now: int): (o: Outcome)
    ensures o.world.customers == w.customers && o.world.tickets == w.tickets && o.world.nextId == w.nextId
    ensures o.world.sessions - {phone} == w.sessions - {phone}
    ensures f.lookupFails ==> o == Outcome(w, TryAgainLater)
    ensures !f.lookupFails ==> phone in o.world.sessions && o.world.sessions[phone].lastActivity == now
    ensures !f.lookupFails && !PhoneUnknown(w.customers, phone) ==>
      exists c :: c in w.customers && c.phone == phone
        && o.world.sessions[phone].data == SessionData(Some(AskIssue), Some(c.id), c.name, None, None)
        && o.reply == WelcomeBack(c.name)
    ensures !f.lookupFails && PhoneUnknown(w.customers, phone) ==>
      o.world.sessions[phone].data ==
        StepTo(AskName).(registrationData := Some(EmptyRegistration.(profileName := Some(profileName))))
      && o.reply == WelcomeNew
  {
    if f.lookupFails then Outcome(w, TryAgainLater)
    else match FindOne(w.customers, Phone, phone)
      case Some(c) =>
        var data := SessionData(Some(AskIssue), Some(c.id), c.name, None, None);
        Outcome(w.(sessions := Put(w.sessions, phone, data, now)), WelcomeBack(c.name))
      case None =>
        var data := StepTo(AskName).(registrationData := Some(EmptyRegistration.(profileName := Some(profileName))));
        Outcome(w.(sessions := Put(w.sessions, phone, data, now)), WelcomeNew)
  }

  /** handleNameInput: a trimmed name of at least 2 code units is added to
      `registrationData` (keeping the profile name) and the step becomes
      `ask_email`; anything shorter changes nothing. */
  function NameInput(w: World, phone: string, message: string, now: int): (o: Outcome)
    requires phone in w.sessions
    ensures Utf16Length(Trim(message)) < 2 ==> o == Outcome(w, Invalid(AskName))
    ensures Utf16Length(Trim(message)) >= 2 ==>
      Advanced(w, o.world, phone, AskEmail, now) && o.reply == NameThanks(Trim(message))
      && var d, d' := w.sessions[phone].data, o.world.sessions[phone].data;
         d'.ticketData == d.ticketData
         && d'.registrationData == Some(d.registrationData.GetOr(EmptyRegistration).(name := Some(Trim(message))))
  {
    var name := Trim(message);
    if Utf16Length(name) < CurrentRules.name then Outcome(w, Invalid(AskName))
    else
      var reg := w.sessions[phone].data.registrationData.GetOr(EmptyRegistration);
      var updates := StepTo(AskEmail).(registrationData := Some(reg.(name := Some(name))));
      Outcome(w.(sessions := Patch(w.sessions, phone, updates, now)), NameThanks(name))
  }

  /** handleEmailInput. Nothing changes when the trimmed input fails the
      pattern, when the lower-cased address already belongs to a customer, or
      when a repository call fails. Otherwise exactly one customer is created
      with that address, this phone and an empty address, and the session is
      replaced by one at `ask_issue` for that customer. */
  function EmailInput(w: World, phone: string, message: string, f: Faults, now: int): (o: Outcome)
    requires phone in w.sessions
    ensures o.world.tickets == w.tickets
    ensures !MatchesEmailPattern(Trim(message)) ==> o == Outcome(w, Invalid(AskEmail))
    ensures MatchesEmailPattern(Trim(message)) && f.lookupFails ==> o == Outcome(w, RegistrationFailed)
    ensures MatchesEmailPattern(Trim(message)) && !f.lookupFails && !EmailFree(w.customers, ToLower(Trim(message))) ==>
      o == Outcome(w, EmailTaken)
    ensures (MatchesEmailPattern(Trim(message)) && !f.lookupFails && EmailFree(w.customers, ToLower(Trim(message)))
             && f.saveFails) ==> o == Outcome(w, RegistrationFailed)
    ensures o.world.customers == w.customers ==> o.world == w
    ensures o.world.customers != w.customers ==>
      var name := w.sessions[phone].data.registrationData.GetOr(EmptyRegistration).name;
      MatchesEmailPattern(Trim(message)) && !f.lookupFails && !f.saveFails
      && EmailFree(w.customers, ToLower(Trim(message)))
      && o.world.customers == w.customers + [Customer(w.nextId, name, ToLower(Trim(message)), phone, "")]
      && o.world.nextId == w.nextId + 1
      && o.world.sessions == Put(w.sessions, phone, SessionData(Some(AskIssue), Some(w.nextId), name, None, None), now)
      && o.reply == Registered(name)
    ensures (MatchesEmailPattern(Trim(message)) && !f.lookupFails && !f.saveFails
             && EmailFree(w.customers, ToLower(Trim(message)))) ==> o.world.customers != w.customers
  {
    var trimmed := Trim(message);
    if !MatchesEmailPattern(trimmed) then Outcome(w, Invalid(AskEmail))
    else
      var reg := w.sessions[phone].data.registrationData.GetOr(EmptyRegistration).(email := Some(ToLower(trimmed)));
      if f.lookupFails then Outcome(w, RegistrationFailed)
      else if FindOne(w.customers, Email, reg.email.value).Some? then Outcome(w, EmailTaken)
      else if f.saveFails then Outcome(w, RegistrationFailed)
      else
        var c := Customer(w.nextId, reg.name, reg.email.value, phone, "");
        var data := SessionData(Some(AskIssue), Some(c.id), c.name, None, None);
        Outcome(World(Put(w.sessions, phone, data, now), w.customers + [c], w.tickets, w.nextId + 1),
                Registered(c.name))
  }

  /** handleIssueInput: a trimmed issue of at least `rules.issue` code units
      (3 in this copy, 5 in the older one) becomes the whole of `ticketData`
      and the step becomes `ask_model`. The steps from here on are the same
      in both copies of the engine up to their thresholds. */
  function IssueInput(rules: Rules, w: World, phone: string, message: string, now: int): (o: Outcome)
    requires phone in w.sessions
    ensures Utf16Length(Trim(message)) < rules.issue ==> o == Outcome(w, Invalid(AskIssue))
    ensures Utf16Length(Trim(message)) >= rules.issue ==>
      Advanced(w, o.world, phone, AskModel, now) && o.reply == Prompt(AskModel)
      && var d, d' := w.sessions[phone].data, o.world.sessions[phone].data;
         d'.registrationData == d.registrationData
         && d'.ticketData == Some(EmptyDraft.(issue := Some(Trim(message))))
  {
    var issue := Trim(message);
    if Utf16Length(issue) < rules.issue then Outcome(w, Invalid(AskIssue))
    else
      var updates := StepTo(AskModel).(ticketData := Some(EmptyDraft.(issue := Some(issue))));
      Outcome(w.(sessions := Patch(w.sessions, phone, updates, now)), Prompt(AskModel))
  }

  /** The booking details gathered so far, `{}` when there are none. */
  function DraftOf(w: World, phone: string): TicketDraft
    requires phone in w.sessions
  {
    w.sessions[phone].data.ticketData.GetOr(EmptyDraft)
  }

  /** handleModelInput: a trimmed model of at least `rules.model` code units
      is added to `ticketData`, keeping the details already there; the step
      becomes `ask_address`. */
  function ModelInput(rules: Rules, w: World, phone: string, message: string, now: int): (o: Outcome)
    requires phone in w.sessions
    ensures Utf16Length(Trim(message)) < rules.model ==> o == Outcome(w, Invalid(AskModel))
    ensures Utf16Length(Trim(message)) >= rules.model ==>
      Advanced(w, o.world, phone, AskAddress, now) && o.reply == Prompt(AskAddress)
      && var d, d' := w.sessions[phone].data, o.world.sessions[phone].data;
         d'.registrationData == d.registrationData
         && d'.ticketData == Some(DraftOf(w, phone).(model := Some(Trim(message))))
  {
    var model := Trim(message);
    if Utf16Length(model) < rules.model then Outcome(w, Invalid(AskModel))
    else
      var updates := StepTo(AskAddress).(ticketData := Some(DraftOf(w, phone).(model := Some(model))));
      Outcome(w.(sessions := Patch(w.sessions, phone, updates, now)), Prompt(AskAddress))
  }

  /** handleAddressInput: at least `rules.address` code units; the step
      becomes `ask_date`. */
  function AddressInput(rules: Rules, w: World, phone: string, message: string, now: int): (o: Outcome)
    requires phone in w.sessions
    ensures Utf16Length(Trim(message)) < rules.address ==> o == Outcome(w, Invalid(AskAddress))
    ensures Utf16Length(Trim(message)) >= rules.address ==>
      Advanced(w, o.world, phone, AskDate, now) && o.reply == Prompt(AskDate)
      && var d, d' := w.sessions[phone].data, o.world.sessions[phone].data;
         d'.registrationData == d.registrationData
         && d'.ticketData == Some(DraftOf(w, phone).(address := Some(Trim(message))))
  {
    var address := Trim(message);
    if Utf16Length(address) < rules.address then Outcome(w, Invalid(AskAddress))
    else
      var updates := StepTo(AskDate).(ticketData := Some(DraftOf(w, phone).(address := Some(address))));
      Outcome(w.(sessions := Patch(w.sessions, phone, updates, now)), Prompt(AskDate))
  }

  /** handleDateInput: at least `rules.date` code units, no calendar check;
      the step becomes `ask_time`. */
  function DateInput(rules: Rules, w: World, phone: string, message: string, now: int): (o: Outcome)
    requires phone in w.sessions
    ensures Utf16Length(Trim(message)) < rules.date ==> o == Outcome(w, Invalid(AskDate))
    ensures Utf16Length(Trim(message)) >= rules.date ==>
      Advanced(w, o.world, phone, AskTime, now) && o.reply == Prompt(AskTime)
      && var d, d' := w.sessions[phone].data, o.world.sessions[phone].data;
         d'.registrationData == d.registrationData
         && d'.ticketData == Some(DraftOf(w, phone).(preferredDate := Some(Trim(message))))
  {
    var date := Trim(message);
    if Utf16Length(date) < rules.date then Outcome(w, Invalid(AskDate))
    else
      var updates := StepTo(AskTime).(ticketData := Some(DraftOf(w, phone).(preferredDate := Some(date))));
      Outcome(w.(sessions := Patch(w.sessions, phone, updates, now)), Prompt(AskTime))
  }

  /** The ticket the time step would create for `phone`'s session. */
  function PendingTicket(w: World, phone: string, time: string, now: int): (t: Option<Ticket>)
    requires phone in w.sessions
    ensures var d := DraftOf(w, phone);
      t.Some? <==> (w.sessions[phone].data.customerId.Some? && time != ""
                    && Filled(d.issue) && Filled(d.model) && Filled(d.address) && Filled(d.preferredDate))
    ensures var d := DraftOf(w, phone);
      t.Some? ==> (t.value.id == w.nextId && t.value.status == Booked
                   && t.value.customerId == w.sessions[phone].data.customerId.value
                   && t.value.issue == d.issue.value && t.value.model == d.model.value
                   && t.value.address == d.address.value && t.value.preferredDate == d.preferredDate.value
                   && t.value.preferredTime == time && t.value.createdAt == now)
  {
    NewTicket(w.nextId, w.sessions[phone].data.customerId, DraftOf(w, phone), time, now)
  }

  /** handleTimeInput: a trimmed time of at least `rules.time` code units (2
      here, 4 in the older copy) completes the booking. Either exactly one ticket is created (status `booked`, the
      session's customer and details, the trimmed time) and the session is
      cleared, or nothing changes at all. */
  function TimeInput(rules: Rules, w: World, phone: string, message: string, f: Faults, now: int): (o: Outcome)
    requires phone in w.sessions
    ensures o.world.customers == w.customers
    ensures Utf16Length(Trim(message)) < rules.time ==> o == Outcome(w, Invalid(AskTime))
    ensures Utf16Length(Trim(message)) >= rules.time && f.saveFails ==> o == Outcome(w, BookingFailed)
    ensures Utf16Length(Trim(message)) >= rules.time && PendingTicket(w, phone, Trim(message), now).None? ==>
      o == Outcome(w, BookingFailed)
    ensures o.world.tickets == w.tickets ==> o.world == w
    ensures o.world.tickets != w.tickets ==>
      var t := PendingTicket(w, phone, Trim(message), now);
      Utf16Length(Trim(message)) >= rules.time && !f.saveFails && t.Some?
      && o.world == World(w.sessions - {phone}, w.customers, w.tickets + [t.value], w.nextId + 1)
      && o.reply == BookingConfirmed(t.value)
    ensures Utf16Length(Trim(message)) >= rules.time && !f.saveFails && PendingTicket(w, phone, Trim(message), now).Some? ==>
      o.world.tickets != w.tickets
  {
    var time := Trim(message);
    if Utf16Length(time) < rules.time then Outcome(w, Invalid(AskTime))
    else
      var t := PendingTicket(w, phone, time, now);
      if t.None? || f.saveFails then Outcome(w, BookingFailed)
      else Outcome(World(w.sessions - {phone}, w.customers, w.tickets + [t.value], w.nextId + 1),
                   BookingConfirmed(t.value))
  }

  function StepOf(w: World, phone: string): Option<Step>
    requires phone in w.sessions
  {
    w.sessions[phone].data.step
  }

  /** The session's step is one of the seven the engine dispatches on. */
  predicate AtKnownStep(w: World, phone: string)
    requires phone in w.sessions
  {
    StepOf(w, phone).Some? && StepOf(w, phone).value.Known()
  }

  /** The steps after registration, `ask_issue` to `ask_time`. */
  predicate BookingStep(s: Step) {
    FlowIndex(s) >= 2
  }

  /** The booking steps of the `switch (session.step)`, which both copies of
      the engine run alike under their own table. */
  function BookingInput(rules: Rules, w: World, phone: string, s: Step, message: string, f: Faults, now: int): (o: Outcome)
    requires phone in w.sessions && BookingStep(s)
    ensures o.world.customers == w.customers
    ensures !Acceptable(rules, s, message) ==> o == Outcome(w, Invalid(s))
    ensures o.world.tickets != w.tickets ==> s == AskTime
  {
    if s == AskIssue then IssueInput(rules, w, phone, message, now)
    else if s == AskModel then ModelInput(rules, w, phone, message, now)
    else if s == AskAddress then AddressInput(rules, w, phone, message, now)
    else if s == AskDate then DateInput(rules, w, phone, message, now)
    else TimeInput(rules, w, phone, message, f, now)
  }

  /** The `switch (session.step)` of processUserResponse, for a known step. */
  function StepInput(w: World, phone: string, s: Step, message: string, f: Faults, now: int): (o: Outcome)
    requires phone in w.sessions && s.Known()
    ensures !Acceptable(CurrentRules, s, message) ==> o == Outcome(w, Invalid(s))
    ensures o.world.customers != w.customers ==> s == AskEmail
    ensures o.world.tickets != w.tickets ==> s == AskTime
  {
    match s
    case AskName => NameInput(w, phone, message, now)
    case AskEmail => EmailInput(w, phone, message, f, now)
    case AskIssue | AskModel | AskAddress | AskDate | AskTime =>
      BookingInput(CurrentRules, w, phone, s, message, f, now)
  }

  /** processUserResponse: with no session, start over; on an empty message,
      repeat the step's question; at a known step, run that step's handler;
      at any other step, drop the session and start over. */
  function Respond(w: World, phone: string, message: string, f: Faults, now: int): (o: Outcome)
    ensures phone in w.sessions && IsBlank(message) ==> o.world == w
    ensures phone in w.sessions && AtKnownStep(w, phone) && !Acceptable(CurrentRules, StepOf(w, phone).value, message)
      ==> o.world == w
    ensures (phone !in w.sessions || (!IsBlank(message) && !AtKnownStep(w, phone))) ==>
      o.world.customers == w.customers && o.world.tickets == w.tickets
      && (o.reply == TryAgainLater || o.reply == WelcomeNew || o.reply.WelcomeBack?)
  {
    if phone !in w.sessions then NewCustomer(w, phone, DefaultProfileName, f, now)
    else if IsBlank(message) then Outcome(w, EmptyMessagePrompt(StepOf(w, phone)))
    else if AtKnownStep(w, phone) then StepInput(w, phone, StepOf(w, phone).value, message, f, now)
    else NewCustomer(w.(sessions := w.sessions - {phone}), phone, DefaultProfileName, f, now)
  }
}

/// Properties of the current engine, stated over Respond.
module ChatFlowProperties {
  import opened Text
  import opened Domain
  import opened SessionStore
  import opened Conversation
  import opened ChatFlowRules

  /** No other sender's session is touched by a message. */
  lemma RespondIsolated(w: World, phone: string, message: string, f: Faults, now: int)
    ensures Respond(w, phone, message, f, now).world.sessions - {phone} == w.sessions - {phone}
  {
    var o := Respond(w, phone, message, f, now);
    if phone in w.sessions && !IsBlank(message) && AtKnownStep(w, phone) {
      var s := StepOf(w, phone).value;
      assert o == StepInput(w, phone, s, message, f, now);
      match s
      case AskEmail =>
        var d := SessionData(Some(AskIssue), Some(w.nextId),
          w.sessions[phone].data.registrationData.GetOr(EmptyRegistration).name, None, None);
        PutIsolated(w.sessions, phone, d, now);
      case AskTime =>
        assert (w.sessions - {phone}) - {phone} == w.sessions - {phone};
      case _ =>
    } else if phone in w.sessions && !IsBlank(message) {
      assert (w.sessions - {phone}) - {phone} == w.sessions - {phone};
    }
  }

  lemma EmailInputExtends(w: World, phone: string, message: string, f: Faults, now: int)
    requires phone in w.sessions
    ensures RecordsExtend(w, EmailInput(w, phone, message, f, now).world)
  {
    var o := EmailInput(w, phone, message, f, now);
    if o.world.customers != w.customers {
      assert o.world.customers[..|w.customers|] == w.customers;
    }
  }

  lemma TimeInputExtends(rules: Rules, w: World, phone: string, message: string, f: Faults, now: int)
    requires phone in w.sessions
    ensures RecordsExtend(w, TimeInput(rules, w, phone, message, f, now).world)
  {
    var o := TimeInput(rules, w, phone, message, f, now);
    if o.world.tickets != w.tickets {
      assert o.world.tickets[..|w.tickets|] == w.tickets;
    }
  }

  /** The booking steps never create a customer and create at most one
      ticket, under any table. */
  lemma BookingInputExtends(rules: Rules, w: World, phone: string, s: Step, message: string, f: Faults, now: int)
    requires phone in w.sessions && BookingStep(s)
    ensures RecordsExtend(w, BookingInput(rules, w, phone, s, message, f, now).world)
  {
    if s == AskTime {
      TimeInputExtends(rules, w, phone, message, f, now);
    }
  }

  lemma StepInputExtends(w: World, phone: string, s: Step, message: string, f: Faults, now: int)
    requires phone in w.sessions && s.Known()
    ensures RecordsExtend(w, StepInput(w, phone, s, message, f, now).world)
  {
    match s
    case AskEmail => EmailInputExtends(w, phone, message, f, now);
    case AskName =>
    case AskIssue | AskModel | AskAddress | AskDate | AskTime =>
      BookingInputExtends(CurrentRules, w, phone, s, message, f, now);
  }

  /** Records are append-only, at most one customer and one ticket per
      message, and the id counter never goes back. */
  lemma RespondExtendsRecords(w: World, phone: string, message: string, f: Faults, now: int)
    ensures RecordsExtend(w, Respond(w, phone, message, f, now).world)
  {
    if phone in w.sessions && !IsBlank(message) && AtKnownStep(w, phone) {
      StepInputExtends(w, phone, StepOf(w, phone).value, message, f, now);
    }
  }

  /** A message that fails the step's rule is answered with that step's
      correction and changes nothing; an empty message is answered with the
      step's question and changes nothing. */
  lemma RespondRejects(w: World, phone: string, message: string, f: Faults, now: int)
    requires phone in w.sessions
    ensures IsBlank(message) ==>
      Respond(w, phone, message, f, now) == Outcome(w, EmptyMessagePrompt(StepOf(w, phone)))
    ensures (!IsBlank(message) && AtKnownStep(w, phone)
             && !Acceptable(CurrentRules, StepOf(w, phone).value, message)) ==>
      Respond(w, phone, message, f, now) == Outcome(w, Invalid(StepOf(w, phone).value))
  {
  }

  /** When a message changes a known step's session and the session
      survives, the step moves forward by exactly one position. */
  lemma RespondAdvancesByOne(w: World, phone: string, message: string, f: Faults, now: int)
    requires phone in w.sessions && AtKnownStep(w, phone)
    requires var o := Respond(w, phone, message, f, now);
      phone in o.world.sessions && o.world.sessions[phone] != w.sessions[phone]
    ensures var o := Respond(w, phone, message, f, now);
      StepOf(o.world, phone).Some?
      && FlowIndex(StepOf(o.world, phone).value) == FlowIndex(StepOf(w, phone).value) + 1
  {
  }

  /** A customer is created only at `ask_email`, and the sender's session
      then sits at `ask_issue` under the new customer; a ticket is created
      only at `ask_time`, with status `booked` and the session's customer,
      and the session is then gone. */
  lemma RespondCreatesOnlyAtTheirSteps(w: World, phone: string, message: string, f: Faults, now: int)
    ensures var o := Respond(w, phone, message, f, now);
      |o.world.customers| > |w.customers| ==>
        phone in w.sessions && StepOf(w, phone) == Some(AskEmail)
        && phone in o.world.sessions && StepOf(o.world, phone) == Some(AskIssue)
        && o.world.sessions[phone].data.customerId == Some(o.world.customers[|w.customers|].id)
    ensures var o := Respond(w, phone, message, f, now);
      |o.world.tickets| > |w.tickets| ==>
        phone in w.sessions && StepOf(w, phone) == Some(AskTime) && phone !in o.world.sessions
        && o.world.tickets[|w.tickets|].status == Booked
        && w.sessions[phone].data.customerId == Some(o.world.tickets[|w.tickets|].customerId)
  {
    var o := Respond(w, phone, message, f, now);
    if phone in w.sessions && !IsBlank(message) {
      match StepOf(w, phone)
      case Some(AskEmail) =>
      case Some(AskTime) =>
      case _ =>
    }
  }

  /** A session whose step is missing or not one of the seven is dropped and
      the flow starts over; if the phone lookup then fails, the sender is
      left with no session at all. */
  lemma UnknownStepRestarts(w: World, phone: string, message: string, f: Faults, now: int)
    requires phone in w.sessions && !IsBlank(message)
    requires !AtKnownStep(w, phone)
    ensures Respond(w, phone, message, f, now)
      == NewCustomer(w.(sessions := w.sessions - {phone}), phone, DefaultProfileName, f, now)
    ensures f.lookupFails ==> phone !in Respond(w, phone, message, f, now).world.sessions
  {
  }
}

/// The consistency invariant of the current engine, and what it buys: a
/// booking that reaches `ask_time` always has what the ticket needs.
module ChatFlowInvariant {
  import opened Text
  import opened Domain
  import opened SessionStore
  import opened Conversation
  import opened ChatFlowRules

  /** Rewriting one session consistently, repositories untouched, keeps Inv. */
  lemma InvAfterSessionWrite(w: World, w': World, phone: string)
    requires Inv(w)
    requires w'.customers == w.customers && w'.tickets == w.tickets && w'.nextId == w.nextId
    requires w'.sessions - {phone} == w.sessions - {phone}
    requires phone in w'.sessions ==> SessionConsistent(w'.sessions[phone].data, w.customers)
    ensures Inv(w')
  {
    forall p | p in w'.sessions ensures SessionConsistent(w'.sessions[p].data, w'.customers) {
      if p != phone {
        assert p in w'.sessions - {phone};
        assert w'.sessions[p] == (w.sessions - {phone})[p];
      }
    }
  }

  /** A trimmed value of positive UTF-16 length is a filled field. */
  lemma LongEnoughIsFilled(message: string, min: nat)
    requires min >= 1 && Utf16Length(Trim(message)) >= min
    ensures Filled(Some(Trim(message)))
  {
  }

  lemma NewCustomerKeepsInv(w: World, phone: string, profileName: string, f: Faults, now: int)
    requires Inv(w)
    ensures Inv(NewCustomer(w, phone, profileName, f, now).world)
  {
    var o := NewCustomer(w, phone, profileName, f, now);
    if !f.lookupFails {
      if !PhoneUnknown(w.customers, phone) {
        var c :| c in w.customers && c.phone == phone
          && o.world.sessions[phone].data == SessionData(Some(AskIssue), Some(c.id), c.name, None, None);
        assert CustomerExists(w.customers, c.id);
      }
      InvAfterSessionWrite(w, o.world, phone);
    }
  }

  lemma EmailInputKeepsInv(w: World, phone: string, message: string, f: Faults, now: int)
    requires Inv(w) && phone in w.sessions && StepOf(w, phone) == Some(AskEmail)
    ensures Inv(EmailInput(w, phone, message, f, now).world)
  {
    var o := EmailInput(w, phone, message, f, now);
    if o.world.customers != w.customers {
      var c := o.world.customers[|w.customers|];
      assert o.world.customers == w.customers + [c];
      assert c.id == w.nextId;
      assert CustomerExists(o.world.customers, c.id) by { assert c in o.world.customers; }
      forall p | p in o.world.sessions
        ensures SessionConsistent(o.world.sessions[p].data, o.world.customers)
      {
        if p != phone {
          var d := w.sessions[p].data;
          assert o.world.sessions[p] == w.sessions[p];
          assert SessionConsistent(d, w.customers);
          if d.customerId.Some? && CustomerExists(w.customers, d.customerId.value) {
            CustomerExistsGrows(w.customers, c, d.customerId.value);
          }
        }
      }
      forall i | 0 <= i < |o.world.tickets|
        ensures CustomerExists(o.world.customers, o.world.tickets[i].customerId)
      {
        CustomerExistsGrows(w.customers, c, w.tickets[i].customerId);
      }
    }
  }

  lemma TimeInputKeepsInv(rules: Rules, w: World, phone: string, message: string, f: Faults, now: int)
    requires Inv(w) && phone in w.sessions && StepOf(w, phone) == Some(AskTime)
    ensures Inv(TimeInput(rules, w, phone, message, f, now).world)
  {
    var o := TimeInput(rules, w, phone, message, f, now);
    if o.world.tickets != w.tickets {
      var t := o.world.tickets[|w.tickets|];
      assert o.world.tickets == w.tickets + [t];
      assert SessionConsistent(w.sessions[phone].data, w.customers);
      assert CustomerExists(w.customers, t.customerId);
      forall p | p in o.world.sessions
        ensures SessionConsistent(o.world.sessions[p].data, o.world.customers)
      {
        assert o.world.sessions[p] == w.sessions[p];
      }
    }
  }

  /** Under a table whose rules all ask for something, a booking step keeps
      the invariant: each detail it records is non-empty. */
  lemma BookingInputKeepsInv(rules: Rules, w: World, phone: string, s: Step, message: string, f: Faults, now: int)
    requires Inv(w) && phone in w.sessions && StepOf(w, phone) == Some(s) && BookingStep(s) && Positive(rules)
    ensures Inv(BookingInput(rules, w, phone, s, message, f, now).world)
  {
    var o := BookingInput(rules, w, phone, s, message, f, now);
    assert SessionConsistent(w.sessions[phone].data, w.customers);
    if s == AskTime {
      TimeInputKeepsInv(rules, w, phone, message, f, now);
    } else if o.world != w {
      LongEnoughIsFilled(message, 1);
      InvAfterSessionWrite(w, o.world, phone);
    }
  }

  lemma StepInputKeepsInv(w: World, phone: string, s: Step, message: string, f: Faults, now: int)
    requires Inv(w) && phone in w.sessions && StepOf(w, phone) == Some(s) && s.Known()
    ensures Inv(StepInput(w, phone, s, message, f, now).world)
  {
    var o := StepInput(w, phone, s, message, f, now);
    match s
    case AskEmail => EmailInputKeepsInv(w, phone, message, f, now);
    case AskName =>
      assert SessionConsistent(w.sessions[phone].data, w.customers);
      if o.world != w { InvAfterSessionWrite(w, o.world, phone); }
    case AskIssue | AskModel | AskAddress | AskDate | AskTime =>
      BookingInputKeepsInv(CurrentRules, w, phone, s, message, f, now);
  }

  /** Every message keeps the engine's sessions consistent, record ids below
      the counter, and tickets pointing at real customers. */
  lemma RespondKeepsInv(w: World, phone: string, message: string, f: Faults, now: int)
    requires Inv(w)
    ensures Inv(Respond(w, phone, message, f, now).world)
  {
    if phone !in w.sessions {
      NewCustomerKeepsInv(w, phone, DefaultProfileName, f, now);
    } else if IsBlank(message) {
    } else if AtKnownStep(w, phone) {
      StepInputKeepsInv(w, phone, StepOf(w, phone).value, message, f, now);
    } else {
      var w0 := w.(sessions := w.sessions - {phone});
      InvAfterSessionWrite(w, w0, phone);
      NewCustomerKeepsInv(w0, phone, DefaultProfileName, f, now);
    }
  }

  /** The hourly sweep of the session store only drops sessions, so it
      keeps the invariant whatever the time. */
  lemma SweepKeepsInv(w: World, now: int)
    requires Inv(w)
    ensures Inv(w.(sessions := Sweep(w.sessions, now)))
  {
  }

  // ---------------------------------------------------------------------
  // One customer per phone number and per e-mail address
  // ---------------------------------------------------------------------

  /** No two customers share a phone number. */
  ghost predicate PhonesDistinct(cs: seq<Customer>) {
    forall i, j :: 0 <= i < j < |cs| ==> cs[i].phone != cs[j].phone
  }

  /** No two customers share an e-mail address. */
  ghost predicate EmailsDistinct(cs: seq<Customer>) {
    forall i, j :: 0 <= i < j < |cs| ==> cs[i].email != cs[j].email
  }

  /** A session still in the registration branch. */
  predicate Registering(d: SessionData) {
    d.step == Some(AskName) || d.step == Some(AskEmail)
  }

  /** Customers are unique per phone, and a sender is registering only while
      no customer has their phone. */
  ghost predicate PhoneUnique(w: World) {
    PhonesDistinct(w.customers)
    && forall p :: p in w.sessions && Registering(w.sessions[p].data) ==> PhoneUnknown(w.customers, p)
  }

  /** What the current engine keeps: one customer per phone and per e-mail
      address. */
  ghost predicate Unique(w: World) {
    PhoneUnique(w) && EmailsDistinct(w.customers)
  }

  /** Rewriting or removing one session, customers untouched, keeps
      PhoneUnique as long as a registering session belongs to an unknown
      phone. */
  lemma SessionWriteKeepsPhoneUnique(w: World, w': World, phone: string)
    requires PhoneUnique(w) && w'.customers == w.customers
    requires w'.sessions - {phone} == w.sessions - {phone}
    requires phone in w'.sessions && Registering(w'.sessions[phone].data) ==> PhoneUnknown(w.customers, phone)
    ensures PhoneUnique(w')
  {
    forall p | p in w'.sessions && Registering(w'.sessions[p].data) ensures PhoneUnknown(w'.customers, p) {
      if p != phone {
        assert p in w'.sessions - {phone};
        assert w'.sessions[p] == (w.sessions - {phone})[p];
      }
    }
  }

  /** Registering a customer whose phone is unknown keeps PhoneUnique, as
      long as the new session has left the registration branch. */
  lemma RegistrationKeepsPhoneUnique(w: World, w': World, phone: string, c: Customer)
    requires PhoneUnique(w) && c.phone == phone && PhoneUnknown(w.customers, phone)
    requires w'.customers == w.customers + [c]
    requires w'.sessions - {phone} == w.sessions - {phone}
    requires phone in w'.sessions ==> !Registering(w'.sessions[phone].data)
    ensures PhoneUnique(w')
  {
    forall p | p in w'.sessions && Registering(w'.sessions[p].data) ensures PhoneUnknown(w'.customers, p) {
      assert p != phone;
      assert p in w'.sessions - {phone};
      assert w'.sessions[p] == (w.sessions - {phone})[p];
    }
  }

  lemma NewCustomerKeepsPhoneUnique(w: World, phone: string, profileName: string, f: Faults, now: int)
    requires PhoneUnique(w)
    ensures PhoneUnique(NewCustomer(w, phone, profileName, f, now).world)
  {
    SessionWriteKeepsPhoneUnique(w, NewCustomer(w, phone, profileName, f, now).world, phone);
  }

  lemma EmailInputKeepsUnique(w: World, phone: string, message: string, f: Faults, now: int)
    requires Unique(w) && phone in w.sessions && StepOf(w, phone) == Some(AskEmail)
    ensures Unique(EmailInput(w, phone, message, f, now).world)
  {
    var o := EmailInput(w, phone, message, f, now);
    if o.world.customers != w.customers {
      var c := o.world.customers[|w.customers|];
      assert o.world.customers == w.customers + [c];
      assert Registering(w.sessions[phone].data);
      RegistrationKeepsPhoneUnique(w, o.world, phone, c);
      assert EmailFree(w.customers, c.email);
    }
  }

  /** The booking steps neither create customers nor return a session to
      the registration branch. */
  lemma BookingInputKeepsPhoneUnique(rules: Rules, w: World, phone: string, s: Step, message: string, f: Faults, now: int)
    requires PhoneUnique(w) && phone in w.sessions && StepOf(w, phone) == Some(s) && BookingStep(s)
    ensures PhoneUnique(BookingInput(rules, w, phone, s, message, f, now).world)
  {
    var o := BookingInput(rules, w, phone, s, message, f, now);
    if s == AskTime && o.world.tickets != w.tickets {
      assert (w.sessions - {phone}) - {phone} == w.sessions - {phone};
    }
    SessionWriteKeepsPhoneUnique(w, o.world, phone);
  }

  /** Every message keeps customers unique per phone and per e-mail
      address, and keeps registration to senders with no customer. */
  lemma RespondKeepsUnique(w: World, phone: string, message: string, f: Faults, now: int)
    requires Unique(w)
    ensures Unique(Respond(w, phone, message, f, now).world)
  {
    var o := Respond(w, phone, message, f, now);
    if phone !in w.sessions {
      NewCustomerKeepsPhoneUnique(w, phone, DefaultProfileName, f, now);
    } else if IsBlank(message) {
    } else if AtKnownStep(w, phone) {
      var s := StepOf(w, phone).value;
      if s == AskEmail {
        EmailInputKeepsUnique(w, phone, message, f, now);
      } else if s == AskName {
        assert Registering(w.sessions[phone].data);
        SessionWriteKeepsPhoneUnique(w, o.world, phone);
      } else {
        BookingInputKeepsPhoneUnique(CurrentRules, w, phone, s, message, f, now);
      }
    } else {
      var w0 := w.(sessions := w.sessions - {phone});
      SessionWriteKeepsPhoneUnique(w, w0, phone);
      NewCustomerKeepsPhoneUnique(w0, phone, DefaultProfileName, f, now);
    }
  }

  /** In a consistent state, an acceptable time at `ask_time` with a working
      repository always books: exactly one ticket, status `booked`, carrying
      the session's customer, the gathered details and the trimmed time, and
      the session is gone. */
  lemma TimeStepBooks(w: World, phone: string, message: string, now: int)
    requires Inv(w) && phone in w.sessions && StepOf(w, phone) == Some(AskTime)
    requires Acceptable(CurrentRules, AskTime, message)
    ensures var o := Respond(w, phone, message, NoFaults, now);
      var d := w.sessions[phone].data;
      var draft := d.ticketData.value;
      d.customerId.Some? && draft.issue.Some? && draft.model.Some? && draft.address.Some?
      && draft.preferredDate.Some?
      && o.world.tickets == w.tickets + [Ticket(w.nextId, d.customerId.value, draft.issue.value,
           draft.model.value, draft.address.value, draft.preferredDate.value, Trim(message), Booked, now)]
      && o.world.customers == w.customers
      && o.world.sessions == w.sessions - {phone}
      && o.reply.BookingConfirmed? && o.reply.ticket.id == w.nextId
  {
    assert SessionConsistent(w.sessions[phone].data, w.customers);
    AcceptedIsNotBlank(CurrentRules, AskTime, message);
    LongEnoughIsFilled(message, 2);
    assert Respond(w, phone, message, NoFaults, now) == TimeInput(CurrentRules, w, phone, message, NoFaults, now);
  }
}
