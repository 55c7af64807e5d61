/// The older copy of the engine, services/chatFlowSevice.js, as functions
/// from the state before a message to the state and reply after it. No
/// module refers to that file at run time; it is kept beside the current
/// engine and differs from it in the places module Divergence lists. Its
/// booking steps are the shared ones of ChatFlowRules under LegacyRules.
module LegacyChatFlowRules {
  import opened Text
  import opened Domain
  import opened SessionStore
  import opened Conversation
  import opened ChatFlowRules

  /** handleNewCustomer of the older copy: a failed lookup escapes as a
      rejection; a known sender goes to `ask_issue`; an unknown one starts
      registration with an empty record and no profile name. */
  function LegacyNewCustomer(w: World, phone: string, f: Faults, now: int): (o: Outcome)
    ensures o.world.customers == w.customers && o.world.tickets == w.tickets && o.world.nextId == w.nextId
    ensures o.world.sessions - {phone} == w.sessions - {phone}
    ensures f.lookupFails ==> o == Outcome(w, Raised)
    ensures !f.lookupFails ==> phone in o.world.sessions && o.world.sessions[phone].lastActivity == now
    ensures !f.lookupFails && !PhoneUnknown(w.customers, phone) ==>
      exists c :: c in w.customers && c.phone == phone
        && o.world.sessions[phone].data == SessionData(Some(AskIssue), Some(c.id), c.name, None, None)
        && o.reply == WelcomeBack(c.name)
    ensures !f.lookupFails && PhoneUnknown(w.customers, phone) ==>
      o.world.sessions[phone].data == StepTo(AskName).(registrationData := Some(EmptyRegistration))
      && o.reply == WelcomeNew
  {
    if f.lookupFails then Outcome(w, Raised)
    else match FindOne(w.customers, Phone, phone)
      case Some(c) =>
        var data := SessionData(Some(AskIssue), Some(c.id), c.name, None, None);
        Outcome(w.(sessions := Put(w.sessions, phone, data, now)), WelcomeBack(c.name))
      case None =>
        var data := StepTo(AskName).(registrationData := Some(EmptyRegistration));
        Outcome(w.(sessions := Put(w.sessions, phone, data, now)), WelcomeNew)
  }

  /** handleNameInput of the older copy: the accepted name replaces the
      whole registration record. */
  function LegacyNameInput(w: World, phone: string, message: string, now: int): (o: Outcome)
    requires phone in w.sessions
    ensures Utf16Length(Trim(message)) < 2 ==> o == Outcome(w, Invalid(AskName))
    ensures Utf16Length(Trim(message)) >= 2 ==>
      Advanced(w, o.world, phone, AskEmail, now) && o.reply == Prompt(AskEmail)
      && var d, d' := w.sessions[phone].data, o.world.sessions[phone].data;
         d'.ticketData == d.ticketData
         && d'.registrationData == Some(EmptyRegistration.(name := Some(Trim(message))))
  {
    var name := Trim(message);
    if Utf16Length(name) < LegacyRules.name then Outcome(w, Invalid(AskName))
    else
      var updates := StepTo(AskEmail).(registrationData := Some(EmptyRegistration.(name := Some(name))));
      Outcome(w.(sessions := Patch(w.sessions, phone, updates, now)), Prompt(AskEmail))
  }

  /** handleEmailInput of the older copy: no look-up of the address before
      the save; only a failed save stops the registration. */
  function LegacyEmailInput(w: World, phone: string, message: string, f: Faults, now: int): (o: Outcome)
    requires phone in w.sessions
    ensures o.world.tickets == w.tickets
    ensures !MatchesEmailPattern(Trim(message)) ==> o == Outcome(w, Invalid(AskEmail))
    ensures MatchesEmailPattern(Trim(message)) && f.saveFails ==> o == Outcome(w, RegistrationFailed)
    ensures o.world.customers == w.customers ==> o.world == w
    ensures o.world.customers != w.customers ==>
      var name := w.sessions[phone].data.registrationData.GetOr(EmptyRegistration).name;
      MatchesEmailPattern(Trim(message)) && !f.saveFails
      && o.world.customers == w.customers + [Customer(w.nextId, name, ToLower(Trim(message)), phone, "")]
      && o.world.nextId == w.nextId + 1
      && o.world.sessions == Put(w.sessions, phone, SessionData(Some(AskIssue), Some(w.nextId), name, None, None), now)
      && o.reply == Registered(name)
    ensures MatchesEmailPattern(Trim(message)) && !f.saveFails ==> o.world.customers != w.customers
  {
    var trimmed := Trim(message);
    if !MatchesEmailPattern(trimmed) then Outcome(w, Invalid(AskEmail))
    else
      var reg := w.sessions[phone].data.registrationData.GetOr(EmptyRegistration).(email := Some(ToLower(trimmed)));
      if f.saveFails then Outcome(w, RegistrationFailed)
      else
        var c := Customer(w.nextId, reg.name, reg.email.value, phone, "");
        var data := SessionData(Some(AskIssue), Some(c.id), c.name, None, None);
        Outcome(World(Put(w.sessions, phone, data, now), w.customers + [c], w.tickets, w.nextId + 1),
                Registered(c.name))
  }

  /** The `switch (session.step)` of the older processUserResponse, for a
      known step. */
  function LegacyStepInput(w: World, phone: string, s: Step, message: string, f: Faults, now: int): (o: Outcome)
    requires phone in w.sessions && s.Known()
    ensures !Acceptable(LegacyRules, s, message) ==> o == Outcome(w, Invalid(s))
    ensures o.world.customers != w.customers ==> s == AskEmail
    ensures o.world.tickets != w.tickets ==> s == AskTime
  {
    match s
    case AskName => LegacyNameInput(w, phone, message, now)
    case AskEmail => LegacyEmailInput(w, phone, message, f, now)
    case AskIssue | AskModel | AskAddress | AskDate | AskTime =>
      BookingInput(LegacyRules, w, phone, s, message, f, now)
  }

  /** The older processUserResponse: no check for an empty message, and at
      an unknown step the session is overwritten in place rather than
      cleared first. */
  function LegacyRespond(w: World, phone: string, message: string, f: Faults, now: int): (o: Outcome)
    ensures phone in w.sessions && AtKnownStep(w, phone) && !Acceptable(LegacyRules, StepOf(w, phone).value, message)
      ==> o.world == w
    ensures (phone !in w.sessions || !AtKnownStep(w, phone)) ==>
      o.world.customers == w.customers && o.world.tickets == w.tickets
      && (if f.lookupFails then o == Outcome(w, Raised) else o.reply == WelcomeNew || o.reply.WelcomeBack?)
  {
    if phone in w.sessions && AtKnownStep(w, phone) then
      LegacyStepInput(w, phone, StepOf(w, phone).value, message, f, now)
    else LegacyNewCustomer(w, phone, f, now)
  }
}

/// Properties of the older engine, stated over LegacyRespond.
module LegacyChatFlowProperties {
  import opened Text
  import opened Domain
  import opened SessionStore
  import opened Conversation
  import opened ChatFlowRules
  import opened ChatFlowProperties
  import opened ChatFlowInvariant
  import opened LegacyChatFlowRules

  /** No other sender's session is touched by a message. */
  lemma LegacyRespondIsolated(w: World, phone: string, message: string, f: Faults, now: int)
    ensures LegacyRespond(w, phone, message, f, now).world.sessions - {phone} == w.sessions - {phone}
  {
    if phone in w.sessions && AtKnownStep(w, phone) {
      var s := StepOf(w, phone).value;
      if s == AskEmail {
        var d := SessionData(Some(AskIssue), Some(w.nextId),
          w.sessions[phone].data.registrationData.GetOr(EmptyRegistration).name, None, None);
        PutIsolated(w.sessions, phone, d, now);
      } else if s == AskTime {
        assert (w.sessions - {phone}) - {phone} == w.sessions - {phone};
      }
    }
  }

  lemma LegacyEmailInputExtends(w: World, phone: string, message: string, f: Faults, now: int)
    requires phone in w.sessions
    ensures RecordsExtend(w, LegacyEmailInput(w, phone, message, f, now).world)
  {
    var o := LegacyEmailInput(w, phone, message, f, now);
    if o.world.customers != w.customers {
      assert o.world.customers[..|w.customers|] == w.customers;
    }
  }

  /** Records are append-only, at most one customer and one ticket per
      message, and the id counter never goes back. */
  lemma LegacyRespondExtendsRecords(w: World, phone: string, message: string, f: Faults, now: int)
    ensures RecordsExtend(w, LegacyRespond(w, phone, message, f, now).world)
  {
    if phone in w.sessions && AtKnownStep(w, phone) {
      var s := StepOf(w, phone).value;
      if s == AskEmail {
        LegacyEmailInputExtends(w, phone, message, f, now);
      } else if s != AskName {
        BookingInputExtends(LegacyRules, w, phone, s, message, f, now);
      }
    }
  }

  /** At a known step, a message that fails the step's rule, the empty
      message included, is answered with that step's correction and
      changes nothing. */
  lemma LegacyRespondRejects(w: World, phone: string, message: string, f: Faults, now: int)
    requires phone in w.sessions && AtKnownStep(w, phone)
    requires !Acceptable(LegacyRules, StepOf(w, phone).value, message)
    ensures LegacyRespond(w, phone, message, f, now) == Outcome(w, Invalid(StepOf(w, phone).value))
  {
  }

  /** A customer is created only at `ask_email`, and a ticket only at
      `ask_time`, with the same consequences for the session as in the
      current engine. */
  lemma LegacyRespondCreatesOnlyAtTheirSteps(w: World, phone: string, message: string, f: Faults, now: int)
    ensures var o := LegacyRespond(w, phone, message, f, now);
      |o.world.customers| > |w.customers| ==>
        phone in w.sessions && StepOf(w, phone) == Some(AskEmail)
        && phone in o.world.sessions && StepOf(o.world, phone) == Some(AskIssue)
        && o.world.sessions[phone].data.customerId == Some(o.world.customers[|w.customers|].id)
    ensures var o := LegacyRespond(w, phone, message, f, now);
      |o.world.tickets| > |w.tickets| ==>
        phone in w.sessions && StepOf(w, phone) == Some(AskTime) && phone !in o.world.sessions
        && o.world.tickets[|w.tickets|].status == Booked
        && w.sessions[phone].data.customerId == Some(o.world.tickets[|w.tickets|].customerId)
  {
    if phone in w.sessions && AtKnownStep(w, phone) {
      match StepOf(w, phone)
      case Some(AskEmail) =>
      case Some(AskTime) =>
      case _ =>
    }
  }

  /** At a missing or unknown step the flow starts over on top of the old
      session; a failed lookup then leaves that session in place and the
      error escapes. */
  lemma LegacyUnknownStepRestarts(w: World, phone: string, message: string, f: Faults, now: int)
    requires phone in w.sessions && !AtKnownStep(w, phone)
    ensures LegacyRespond(w, phone, message, f, now) == LegacyNewCustomer(w, phone, f, now)
    ensures f.lookupFails ==>
      LegacyRespond(w, phone, message, f, now) == Outcome(w, Raised)
      && LegacyRespond(w, phone, message, f, now).world.sessions[phone] == w.sessions[phone]
  {
  }

  lemma LegacyNewCustomerKeepsInv(w: World, phone: string, f: Faults, now: int)
    requires Inv(w)
    ensures Inv(LegacyNewCustomer(w, phone, f, now).world)
  {
    var o := LegacyNewCustomer(w, phone, f, now);
    if !f.lookupFails {
      if !PhoneUnknown(w.customers, phone) {
        var c :| c in w.customers && c.phone == phone
          && o.world.sessions[phone].data == SessionData(Some(AskIssue), Some(c.id), c.name, None, None);
        assert CustomerExists(w.customers, c.id);
      }
      InvAfterSessionWrite(w, o.world, phone);
    }
  }

  lemma LegacyEmailInputKeepsInv(w: World, phone: string, message: string, f: Faults, now: int)
    requires Inv(w) && phone in w.sessions
    ensures Inv(LegacyEmailInput(w, phone, message, f, now).world)
  {
    var o := LegacyEmailInput(w, phone, message, f, now);
    if o.world.customers != w.customers {
      var c := o.world.customers[|w.customers|];
      assert o.world.customers == w.customers + [c];
      assert CustomerExists(o.world.customers, c.id) by { assert c in o.world.customers; }
      forall p | p in o.world.sessions
        ensures SessionConsistent(o.world.sessions[p].data, o.world.customers)
      {
        if p != phone {
          var d := w.sessions[p].data;
          assert o.world.sessions[p] == w.sessions[p];
          assert SessionConsistent(d, w.customers);
          if d.customerId.Some? && CustomerExists(w.customers, d.customerId.value) {
            CustomerExistsGrows(w.customers, c, d.customerId.value);
          }
        }
      }
      forall i | 0 <= i < |o.world.tickets|
        ensures CustomerExists(o.world.customers, o.world.tickets[i].customerId)
      {
        CustomerExistsGrows(w.customers, c, w.tickets[i].customerId);
      }
    }
  }

  /** The older engine keeps the same consistency invariant as the current
      one. */
  lemma LegacyRespondKeepsInv(w: World, phone: string, message: string, f: Faults, now: int)
    requires Inv(w)
    ensures Inv(LegacyRespond(w, phone, message, f, now).world)
  {
    if phone in w.sessions && AtKnownStep(w, phone) {
      var s := StepOf(w, phone).value;
      var o := LegacyRespond(w, phone, message, f, now);
      if s == AskName {
        assert SessionConsistent(w.sessions[phone].data, w.customers);
        if o.world != w { InvAfterSessionWrite(w, o.world, phone); }
      } else if s == AskEmail {
        LegacyEmailInputKeepsInv(w, phone, message, f, now);
      } else {
        BookingInputKeepsInv(LegacyRules, w, phone, s, message, f, now);
      }
    } else {
      LegacyNewCustomerKeepsInv(w, phone, f, now);
    }
  }

  lemma LegacyEmailInputKeepsPhoneUnique(w: World, phone: string, message: string, f: Faults, now: int)
    requires PhoneUnique(w) && phone in w.sessions && StepOf(w, phone) == Some(AskEmail)
    ensures PhoneUnique(LegacyEmailInput(w, phone, message, f, now).world)
  {
    var o := LegacyEmailInput(w, phone, message, f, now);
    if o.world.customers != w.customers {
      var c := o.world.customers[|w.customers|];
      assert o.world.customers == w.customers + [c];
      assert Registering(w.sessions[phone].data);
      RegistrationKeepsPhoneUnique(w, o.world, phone, c);
    }
  }

  lemma LegacyNewCustomerKeepsPhoneUnique(w: World, phone: string, f: Faults, now: int)
    requires PhoneUnique(w)
    ensures PhoneUnique(LegacyNewCustomer(w, phone, f, now).world)
  {
    SessionWriteKeepsPhoneUnique(w, LegacyNewCustomer(w, phone, f, now).world, phone);
  }

  /** The older engine still creates at most one customer per phone and
      registers only senders with no customer. It does not keep e-mail
      addresses unique: Divergence.DuplicateEmail shows a message that
      breaks that. */
  lemma LegacyRespondKeepsPhoneUnique(w: World, phone: string, message: string, f: Faults, now: int)
    requires PhoneUnique(w)
    ensures PhoneUnique(LegacyRespond(w, phone, message, f, now).world)
  {
    var o := LegacyRespond(w, phone, message, f, now);
    if phone in w.sessions && AtKnownStep(w, phone) {
      var s := StepOf(w, phone).value;
      if s == AskEmail {
        LegacyEmailInputKeepsPhoneUnique(w, phone, message, f, now);
      } else if s == AskName {
        assert Registering(w.sessions[phone].data);
        SessionWriteKeepsPhoneUnique(w, o.world, phone);
      } else {
        BookingInputKeepsPhoneUnique(LegacyRules, w, phone, s, message, f, now);
      }
    } else {
      LegacyNewCustomerKeepsPhoneUnique(w, phone, f, now);
    }
  }
}
