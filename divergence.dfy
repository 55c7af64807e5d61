/// Where the two copies of the engine part ways, each stated side by side
/// on the same state and message, and where they provably agree.
module Divergence {
  import opened Text
  import opened Domain
  import opened Conversation
  import opened ChatFlowRules
  import opened ChatFlowInvariant
  import opened LegacyChatFlowRules

  /** Both engines run the same booking steps: at `ask_issue` to `ask_time`,
      a message the older, stricter table accepts gets the same answer and
      the same new state from both. */
  lemma BookingStepsAgree(w: World, phone: string, message: string, f: Faults, now: int)
    requires phone in w.sessions && StepOf(w, phone).Some? && BookingStep(StepOf(w, phone).value)
    requires Acceptable(LegacyRules, StepOf(w, phone).value, message)
    ensures Respond(w, phone, message, f, now) == LegacyRespond(w, phone, message, f, now)
  {
    var s := StepOf(w, phone).value;
    AcceptedIsNotBlank(LegacyRules, s, message);
    LegacyRulesStricter(s, message);
  }

  /** An issue of 3 or 4 code units moves the current engine on to
      `ask_model` and is refused by the older one. */
  lemma IssueThresholdDiffers(w: World, phone: string, message: string, f: Faults, now: int)
    requires phone in w.sessions && StepOf(w, phone) == Some(AskIssue)
    requires 3 <= Utf16Length(Trim(message)) < 5
    ensures LegacyRespond(w, phone, message, f, now) == Outcome(w, Invalid(AskIssue))
    ensures Respond(w, phone, message, f, now).reply == Prompt(AskModel)
  {
    AcceptedIsNotBlank(CurrentRules, AskIssue, message);
  }

  /** A time of 2 or 3 code units is refused by the older engine; the
      current one does not correct it. */
  lemma TimeThresholdDiffers(w: World, phone: string, message: string, f: Faults, now: int)
    requires phone in w.sessions && StepOf(w, phone) == Some(AskTime)
    requires 2 <= Utf16Length(Trim(message)) < 4
    ensures LegacyRespond(w, phone, message, f, now) == Outcome(w, Invalid(AskTime))
    ensures Respond(w, phone, message, f, now).reply != Invalid(AskTime)
  {
    AcceptedIsNotBlank(CurrentRules, AskTime, message);
  }

  /** An address already on file: the current engine refuses it and changes
      nothing, the older one saves a second customer with it whenever the
      save goes through. */
  lemma DuplicateEmail(w: World, phone: string, message: string, now: int)
    requires phone in w.sessions && StepOf(w, phone) == Some(AskEmail)
    requires MatchesEmailPattern(Trim(message))
    requires !EmailFree(w.customers, ToLower(Trim(message)))
    ensures Respond(w, phone, message, NoFaults, now) == Outcome(w, EmailTaken)
    ensures var o := LegacyRespond(w, phone, message, NoFaults, now);
      |o.world.customers| == |w.customers| + 1
      && o.world.customers[|w.customers|].email == ToLower(Trim(message))
      && exists i :: 0 <= i < |w.customers| && w.customers[i].email == o.world.customers[|w.customers|].email
    ensures !EmailsDistinct(LegacyRespond(w, phone, message, NoFaults, now).world.customers)
  {
    AcceptedIsNotBlank(CurrentRules, AskEmail, message);
    var cs := LegacyRespond(w, phone, message, NoFaults, now).world.customers;
    var i :| 0 <= i < |w.customers| && w.customers[i].email == ToLower(Trim(message));
    assert cs[i] == w.customers[i] && cs[i].email == cs[|w.customers|].email;
  }

  /** An empty message at a known step: the current engine repeats the
      question, the older one answers with the step's correction; neither
      changes anything. */
  lemma BlankAtKnownStep(w: World, phone: string, message: string, f: Faults, now: int)
    requires phone in w.sessions && AtKnownStep(w, phone) && IsBlank(message)
    ensures Respond(w, phone, message, f, now) == Outcome(w, AskAgain(StepOf(w, phone).value))
    ensures LegacyRespond(w, phone, message, f, now) == Outcome(w, Invalid(StepOf(w, phone).value))
  {
    var s := StepOf(w, phone).value;
    if s == AskEmail {
      assert !MatchesEmailPattern(Trim(message));
    }
  }

  /** An empty message at a missing or unknown step: the current engine
      asks to try again and keeps the session, the older one starts over. */
  lemma BlankAtUnknownStep(w: World, phone: string, message: string, f: Faults, now: int)
    requires phone in w.sessions && !AtKnownStep(w, phone) && IsBlank(message) && !f.lookupFails
    ensures Respond(w, phone, message, f, now) == Outcome(w, NotUnderstood)
    ensures var o := LegacyRespond(w, phone, message, f, now);
      o.world.sessions[phone].lastActivity == now && (o.reply.WelcomeBack? || o.reply == WelcomeNew)
  {
  }

  /** A failed phone lookup at a missing or unknown step: the current engine
      has already dropped the session and apologises; the older one leaves
      the old session in place and the error escapes. */
  lemma LookupFailureAtUnknownStep(w: World, phone: string, message: string, now: int)
    requires phone in w.sessions && !AtKnownStep(w, phone) && !IsBlank(message)
    ensures Respond(w, phone, message, Faults(true, false), now)
      == Outcome(w.(sessions := w.sessions - {phone}), TryAgainLater)
    ensures LegacyRespond(w, phone, message, Faults(true, false), now) == Outcome(w, Raised)
  {
  }

  /** First contact from an unknown number: both engines start registration,
      but only the current one records a profile name. */
  lemma FirstContactProfileName(w: World, phone: string, message: string, now: int)
    requires phone !in w.sessions && PhoneUnknown(w.customers, phone)
    ensures var o := Respond(w, phone, message, NoFaults, now);
      o.reply == WelcomeNew && o.world.sessions[phone].data.registrationData.value.profileName == Some(DefaultProfileName)
    ensures var o := LegacyRespond(w, phone, message, NoFaults, now);
      o.reply == WelcomeNew && o.world.sessions[phone].data.registrationData.value.profileName.None?
  {
  }

  /** An accepted name: the current engine keeps what registration already
      held, the older one replaces the record by one holding the name
      alone. */
  lemma NameStepRecord(w: World, phone: string, message: string, f: Faults, now: int)
    requires phone in w.sessions && StepOf(w, phone) == Some(AskName)
    requires Acceptable(CurrentRules, AskName, message)
    ensures var reg := w.sessions[phone].data.registrationData.GetOr(EmptyRegistration);
      Respond(w, phone, message, f, now).world.sessions[phone].data.registrationData
        == Some(reg.(name := Some(Trim(message))))
    ensures LegacyRespond(w, phone, message, f, now).world.sessions[phone].data.registrationData
      == Some(EmptyRegistration.(name := Some(Trim(message))))
  {
    AcceptedIsNotBlank(CurrentRules, AskName, message);
  }
}
