/// services/chatFlowSevice.js as a class. Its booking handlers run the same
/// steps as the current class under the older table; its entry point,
/// first-contact, name and e-mail handlers follow the older code. Each
/// handler is proved to do exactly what the matching function of
/// LegacyChatFlowRules (or the shared booking functions) says.
module LegacyChatFlow {
  import opened Text
  import opened Domain
  import opened SessionStore
  import opened Conversation
  import opened ChatFlowRules
  import opened LegacyChatFlowRules
  import ChatFlowInvariant
  import LegacyChatFlowProperties

  class LegacyChatFlowService {
    /** The session store the engine uses. */
    const store: SessionManager
    /** The Customer repository, in insertion order. */
    var customers: seq<Customer>
    /** The Ticket repository, in insertion order. */
    var tickets: seq<Ticket>
    /** The id the next saved record receives. */
    var nextId: nat

    /** Everything the engine reads and writes, as one value. */
    ghost function State(): World
      reads this, store
    {
      World(store.sessions, customers, tickets, nextId)
    }

    /** A fresh engine: no sessions and empty repositories. */
    constructor ()
      ensures fresh(store)
      ensures State() == World(map[], [], [], 0)
      ensures Inv(State())
    {
      store := new SessionManager();
      customers := [];
      tickets := [];
      nextId := 0;
    }

    /** `customer.save()` that succeeds. */
    method SaveCustomer(c: Customer)
      modifies this
      ensures customers == old(customers) + [c] && nextId == old(nextId) + 1
      ensures tickets == old(tickets)
    {
      customers := customers + [c];
      nextId := nextId + 1;
    }

    /** `ticket.save()` that succeeds. */
    method SaveTicket(t: Ticket)
      modifies this
      ensures tickets == old(tickets) + [t] && nextId == old(nextId) + 1
      ensures customers == old(customers)
    {
      tickets := tickets + [t];
      nextId := nextId + 1;
    }

    /** handleNewCustomer; a failed lookup is not caught. */
    method HandleNewCustomer(phone: string, f: Faults, now: int) returns (reply: Reply)
      modifies store
      ensures Outcome(State(), reply) == LegacyNewCustomer(old(State()), phone, f, now)
    {
      if f.lookupFails {
        reply := Raised;
        return;
      }
      var customer := FindOne(customers, Phone, phone);
      if customer.Some? {
        var c := customer.value;
        store.SetSession(phone, SessionData(Some(AskIssue), Some(c.id), c.name, None, None), now);
        reply := WelcomeBack(c.name);
      } else {
        store.SetSession(phone, StepTo(AskName).(registrationData := Some(EmptyRegistration)), now);
        reply := WelcomeNew;
      }
    }

    /** handleNameInput. */
    method HandleNameInput(phone: string, message: string, now: int) returns (reply: Reply)
      requires phone in store.sessions
      modifies store
      ensures Outcome(State(), reply) == LegacyNameInput(old(State()), phone, message, now)
    {
      var name := Trim(message);
      if Utf16Length(name) < LegacyRules.name {
        reply := Invalid(AskName);
        return;
      }
      store.UpdateSession(phone, StepTo(AskEmail).(registrationData := Some(EmptyRegistration.(name := Some(name)))), now);
      reply := Prompt(AskEmail);
    }

    /** handleEmailInput: the customer is saved without looking for the
        address first. */
    method HandleEmailInput(phone: string, message: string, f: Faults, now: int) returns (reply: Reply)
      requires phone in store.sessions
      modifies this, store
      ensures Outcome(State(), reply) == LegacyEmailInput(old(State()), phone, message, f, now)
    {
      var trimmed := Trim(message);
      if !MatchesEmailPattern(trimmed) {
        reply := Invalid(AskEmail);
        return;
      }
      var session := store.GetSession(phone);
      var reg := session.value.data.registrationData.GetOr(EmptyRegistration).(email := Some(ToLower(trimmed)));
      if f.saveFails {
        reply := RegistrationFailed;
        return;
      }
      var c := Customer(nextId, reg.name, reg.email.value, phone, "");
      SaveCustomer(c);
      store.SetSession(phone, SessionData(Some(AskIssue), Some(c.id), c.name, None, None), now);
      reply := Registered(c.name);
    }

    /** handleIssueInput. */
    method HandleIssueInput(phone: string, message: string, now: int) returns (reply: Reply)
      requires phone in store.sessions
      modifies store
      ensures Outcome(State(), reply) == IssueInput(LegacyRules, old(State()), phone, message, now)
    {
      var issue := Trim(message);
      if Utf16Length(issue) < LegacyRules.issue {
        reply := Invalid(AskIssue);
        return;
      }
      store.UpdateSession(phone, StepTo(AskModel).(ticketData := Some(EmptyDraft.(issue := Some(issue)))), now);
      reply := Prompt(AskModel);
    }

    /** handleModelInput. */
    method HandleModelInput(phone: string, message: string, now: int) returns (reply: Reply)
      requires phone in store.sessions
      modifies store
      ensures Outcome(State(), reply) == ModelInput(LegacyRules, old(State()), phone, message, now)
    {
      var model := Trim(message);
      if Utf16Length(model) < LegacyRules.model {
        reply := Invalid(AskModel);
        return;
      }
      var session := store.GetSession(phone);
      var draft := session.value.data.ticketData.GetOr(EmptyDraft);
      store.UpdateSession(phone, StepTo(AskAddress).(ticketData := Some(draft.(model := Some(model)))), now);
      reply := Prompt(AskAddress);
    }

    /** handleAddressInput. */
    method HandleAddressInput(phone: string, message: string, now: int) returns (reply: Reply)
      requires phone in store.sessions
      modifies store
      ensures Outcome(State(), reply) == AddressInput(LegacyRules, old(State()), phone, message, now)
    {
      var address := Trim(message);
      if Utf16Length(address) < LegacyRules.address {
        reply := Invalid(AskAddress);
        return;
      }
      var session := store.GetSession(phone);
      var draft := session.value.data.ticketData.GetOr(EmptyDraft);
      store.UpdateSession(phone, StepTo(AskDate).(ticketData := Some(draft.(address := Some(address)))), now);
      reply := Prompt(AskDate);
    }

    /** handleDateInput. */
    method HandleDateInput(phone: string, message: string, now: int) returns (reply: Reply)
      requires phone in store.sessions
      modifies store
      ensures Outcome(State(), reply) == DateInput(LegacyRules, old(State()), phone, message, now)
    {
      var date := Trim(message);
      if Utf16Length(date) < LegacyRules.date {
        reply := Invalid(AskDate);
        return;
      }
      var session := store.GetSession(phone);
      var draft := session.value.data.ticketData.GetOr(EmptyDraft);
      store.UpdateSession(phone, StepTo(AskTime).(ticketData := Some(draft.(preferredDate := Some(date)))), now);
      reply := Prompt(AskTime);
    }

    /** handleTimeInput: the ticket is built from the session, validated as
        the schema does, saved, and only then is the session cleared. */
    method HandleTimeInput(phone: string, message: string, f: Faults, now: int) returns (reply: Reply)
      requires phone in store.sessions
      modifies this, store
      ensures Outcome(State(), reply) == TimeInput(LegacyRules, old(State()), phone, message, f, now)
    {
      var time := Trim(message);
      if Utf16Length(time) < LegacyRules.time {
        reply := Invalid(AskTime);
        return;
      }
      var session := store.GetSession(phone);
      var draft := session.value.data.ticketData.GetOr(EmptyDraft);
      var ticket := NewTicket(nextId, session.value.data.customerId, draft, time, now);
      if ticket.None? || f.saveFails {
        reply := BookingFailed;
        return;
      }
      SaveTicket(ticket.value);
      store.ClearSession(phone);
      reply := BookingConfirmed(ticket.value);
    }

    /** The older `switch (session.step)` for a known step: runs that step's
        handler. */
    method HandleStep(phone: string, s: Step, message: string, f: Faults, now: int) returns (reply: Reply)
      requires phone in store.sessions && s.Known()
      modifies this, store
      ensures Outcome(State(), reply) == LegacyStepInput(old(State()), phone, s, message, f, now)
    {
      match s
      case AskName => reply := HandleNameInput(phone, message, now);
      case AskEmail => reply := HandleEmailInput(phone, message, f, now);
      case AskIssue => reply := HandleIssueInput(phone, message, now);
      case AskModel => reply := HandleModelInput(phone, message, now);
      case AskAddress => reply := HandleAddressInput(phone, message, now);
      case AskDate => reply := HandleDateInput(phone, message, now);
      case AskTime => reply := HandleTimeInput(phone, message, f, now);
    }

    /** processUserResponse of the older copy: no empty-message check, and
        an unknown step goes straight to handleNewCustomer. It does what
        LegacyRespond describes and keeps the consistency invariant. */
    method ProcessUserResponse(phone: string, message: string, f: Faults, now: int) returns (reply: Reply)
      modifies this, store
      ensures Outcome(State(), reply) == LegacyRespond(old(State()), phone, message, f, now)
      ensures Inv(old(State())) ==> Inv(State())
      ensures ChatFlowInvariant.PhoneUnique(old(State())) ==> ChatFlowInvariant.PhoneUnique(State())
    {
      ghost var w := State();
      var session := store.GetSession(phone);
      if session.Some? && session.value.data.step.Some? && session.value.data.step.value.Known() {
        reply := HandleStep(phone, session.value.data.step.value, message, f, now);
      } else {
        reply := HandleNewCustomer(phone, f, now);
      }
      if Inv(w) {
        LegacyChatFlowProperties.LegacyRespondKeepsInv(w, phone, message, f, now);
      }
      if ChatFlowInvariant.PhoneUnique(w) {
        LegacyChatFlowProperties.LegacyRespondKeepsPhoneUnique(w, phone, message, f, now);
      }
    }
  }
}
