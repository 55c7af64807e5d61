/// A whole conversation with the current engine: a new sender who answers
/// every question acceptably ends up registered, with one booked ticket and
/// no open session.
module ChatFlowScenario {
  import opened Text
  import opened Domain
  import opened Conversation
  import opened ChatFlowRules
  import opened ChatFlowProperties

  /** Conversation.RecordsExtend over any number of messages: records only
      ever grow by appending and the id counter never goes back, with no
      bound on how many records were added. */
  predicate RecordsGrow(w: World, w': World) {
    |w.customers| <= |w'.customers| && w'.customers[..|w.customers|] == w.customers
    && |w.tickets| <= |w'.tickets| && w'.tickets[..|w.tickets|] == w.tickets
    && w.nextId <= w'.nextId
  }

  /** `ws` is the sequence of states one sender's messages `msgs` pass
      through, from `ws[0]`, with every repository call succeeding. */
  predicate Steps(phone: string, msgs: seq<string>, ws: seq<World>, now: int) {
    |ws| == |msgs| + 1
    && forall i {:trigger Moves(ws[i], ws[i + 1], phone, msgs[i], now)} ::
         0 <= i < |msgs| ==> Moves(ws[i], ws[i + 1], phone, msgs[i], now)
  }

  /** Message `m` from `phone` takes state `w` to state `w'`. */
  predicate Moves(w: World, w': World, phone: string, m: string, now: int) {
    w' == Respond(w, phone, m, NoFaults, now).world
  }

  /** Over any conversation the records are only appended to. */
  lemma {:induction false} StepsAppend(phone: string, msgs: seq<string>, ws: seq<World>, now: int)
    requires Steps(phone, msgs, ws, now)
    ensures RecordsGrow(ws[0], ws[|msgs|])
    decreases |msgs|
  {
    if msgs != [] {
      var n := |msgs| - 1;
      forall i | 0 <= i < n ensures Moves(ws[..n + 1][i], ws[..n + 1][i + 1], phone, msgs[..n][i], now) {
        assert Moves(ws[i], ws[i + 1], phone, msgs[i], now);
      }
      StepsAppend(phone, msgs[..n], ws[..n + 1], now);
      assert Moves(ws[n], ws[n + 1], phone, msgs[n], now);
      RespondExtendsRecords(ws[n], phone, msgs[n], NoFaults, now);
      var a, b, c := ws[0], ws[n], ws[n + 1];
      assert c.customers[..|a.customers|] == c.customers[..|b.customers|][..|a.customers|];
      assert c.tickets[..|a.tickets|] == c.tickets[..|b.tickets|][..|a.tickets|];
    }
  }

  /** A non-blank message at a known step goes to that step's handler. */
  lemma Dispatches(w: World, phone: string, m: string, f: Faults, now: int)
    requires phone in w.sessions && AtKnownStep(w, phone) && !IsBlank(m)
    ensures Respond(w, phone, m, f, now) == StepInput(w, phone, StepOf(w, phone).value, m, f, now)
  {
  }

  /** The session a new sender gets on their first message. */
  const NewSenderData := StepTo(AskName).(registrationData := Some(EmptyRegistration.(profileName := Some(DefaultProfileName))))

  /** The session of a registered customer `id` at step `s` with the
      booking details `draft`. */
  function Booking(s: Step, id: nat, name: Option<string>, draft: Option<TicketDraft>): SessionData {
    SessionData(Some(s), Some(id), name, None, draft)
  }

  /** `w` with `phone`'s session replaced by `d` at `now`. */
  function With(w: World, phone: string, d: SessionData, now: int): World {
    w.(sessions := w.sessions[phone := Session(d, now)])
  }

  lemma GreetingStep(phone: string, msgs: seq<string>, ws: seq<World>, now: int, k: nat)
    requires Steps(phone, msgs, ws, now) && k < |msgs|
    requires phone !in ws[k].sessions && PhoneUnknown(ws[k].customers, phone)
    ensures ws[k + 1] == With(ws[k], phone, NewSenderData, now)
  {
    StepAt(phone, msgs, ws, now, k);
  }

  lemma NameStep(phone: string, msgs: seq<string>, ws: seq<World>, now: int, k: nat)
    requires Steps(phone, msgs, ws, now) && k < |msgs|
    requires phone in ws[k].sessions && ws[k].sessions[phone].data == NewSenderData
    requires Acceptable(CurrentRules, AskName, msgs[k])
    ensures var reg := Registration(Some(DefaultProfileName), Some(Trim(msgs[k])), None);
      ws[k + 1] == With(ws[k], phone, StepTo(AskEmail).(registrationData := Some(reg)), now)
  {
    StepAt(phone, msgs, ws, now, k);
    AcceptedIsNotBlank(CurrentRules, AskName, msgs[k]);
    Dispatches(ws[k], phone, msgs[k], NoFaults, now);
  }

  lemma EmailStep(phone: string, msgs: seq<string>, ws: seq<World>, now: int, k: nat, reg: Registration)
    requires Steps(phone, msgs, ws, now) && k < |msgs|
    requires phone in ws[k].sessions && ws[k].sessions[phone].data == StepTo(AskEmail).(registrationData := Some(reg))
    requires Acceptable(CurrentRules, AskEmail, msgs[k]) && EmailFree(ws[k].customers, ToLower(Trim(msgs[k])))
    ensures var w := ws[k];
      ws[k + 1] == World(w.sessions[phone := Session(Booking(AskIssue, w.nextId, reg.name, None), now)],
                         w.customers + [Customer(w.nextId, reg.name, ToLower(Trim(msgs[k])), phone, "")],
                         w.tickets, w.nextId + 1)
  {
    StepAt(phone, msgs, ws, now, k);
    AcceptedIsNotBlank(CurrentRules, AskEmail, msgs[k]);
    Dispatches(ws[k], phone, msgs[k], NoFaults, now);
  }

  lemma IssueStep(phone: string, msgs: seq<string>, ws: seq<World>, now: int, k: nat,
                  id: nat, name: Option<string>)
    requires Steps(phone, msgs, ws, now) && k < |msgs|
    requires phone in ws[k].sessions && ws[k].sessions[phone].data == Booking(AskIssue, id, name, None)
    requires Acceptable(CurrentRules, AskIssue, msgs[k])
    ensures ws[k + 1]
      == With(ws[k], phone, Booking(AskModel, id, name, Some(EmptyDraft.(issue := Some(Trim(msgs[k]))))), now)
  {
    StepAt(phone, msgs, ws, now, k);
    AcceptedIsNotBlank(CurrentRules, AskIssue, msgs[k]);
    Dispatches(ws[k], phone, msgs[k], NoFaults, now);
  }

  lemma ModelStep(phone: string, msgs: seq<string>, ws: seq<World>, now: int, k: nat,
                  id: nat, name: Option<string>, d: TicketDraft)
    requires Steps(phone, msgs, ws, now) && k < |msgs|
    requires phone in ws[k].sessions && ws[k].sessions[phone].data == Booking(AskModel, id, name, Some(d))
    requires Acceptable(CurrentRules, AskModel, msgs[k])
    ensures ws[k + 1]
      == With(ws[k], phone, Booking(AskAddress, id, name, Some(d.(model := Some(Trim(msgs[k]))))), now)
  {
    StepAt(phone, msgs, ws, now, k);
    AcceptedIsNotBlank(CurrentRules, AskModel, msgs[k]);
    Dispatches(ws[k], phone, msgs[k], NoFaults, now);
  }

  lemma AddressStep(phone: string, msgs: seq<string>, ws: seq<World>, now: int, k: nat,
                    id: nat, name: Option<string>, d: TicketDraft)
    requires Steps(phone, msgs, ws, now) && k < |msgs|
    requires phone in ws[k].sessions && ws[k].sessions[phone].data == Booking(AskAddress, id, name, Some(d))
    requires Acceptable(CurrentRules, AskAddress, msgs[k])
    ensures ws[k + 1]
      == With(ws[k], phone, Booking(AskDate, id, name, Some(d.(address := Some(Trim(msgs[k]))))), now)
  {
    StepAt(phone, msgs, ws, now, k);
    AcceptedIsNotBlank(CurrentRules, AskAddress, msgs[k]);
    Dispatches(ws[k], phone, msgs[k], NoFaults, now);
  }

  lemma DateStep(phone: string, msgs: seq<string>, ws: seq<World>, now: int, k: nat,
                 id: nat, name: Option<string>, d: TicketDraft)
    requires Steps(phone, msgs, ws, now) && k < |msgs|
    requires phone in ws[k].sessions && ws[k].sessions[phone].data == Booking(AskDate, id, name, Some(d))
    requires Acceptable(CurrentRules, AskDate, msgs[k])
    ensures ws[k + 1]
      == With(ws[k], phone, Booking(AskTime, id, name, Some(d.(preferredDate := Some(Trim(msgs[k]))))), now)
  {
    StepAt(phone, msgs, ws, now, k);
    AcceptedIsNotBlank(CurrentRules, AskDate, msgs[k]);
    Dispatches(ws[k], phone, msgs[k], NoFaults, now);
  }

  lemma TimeStep(phone: string, msgs: seq<string>, ws: seq<World>, now: int, k: nat,
                 id: nat, name: Option<string>, i: string, m: string, a: string, d: string)
    requires Steps(phone, msgs, ws, now) && k < |msgs|
    requires phone in ws[k].sessions
    requires ws[k].sessions[phone].data == Booking(AskTime, id, name, Some(TicketDraft(Some(i), Some(m), Some(a), Some(d))))
    requires i != "" && m != "" && a != "" && d != ""
    requires Acceptable(CurrentRules, AskTime, msgs[k])
    ensures var w := ws[k];
      ws[k + 1] == World(w.sessions - {phone}, w.customers,
                         w.tickets + [Ticket(w.nextId, id, i, m, a, d, Trim(msgs[k]), Booked, now)], w.nextId + 1)
  {
    StepAt(phone, msgs, ws, now, k);
    AcceptedIsNotBlank(CurrentRules, AskTime, msgs[k]);
    Dispatches(ws[k], phone, msgs[k], NoFaults, now);
  }

  /** The `k`-th message of a conversation moves `ws[k]` to `ws[k + 1]`. */
  lemma StepAt(phone: string, msgs: seq<string>, ws: seq<World>, now: int, k: nat)
    requires Steps(phone, msgs, ws, now) && k < |msgs|
    ensures ws[k + 1] == Respond(ws[k], phone, msgs[k], NoFaults, now).world
  {
    assert Moves(ws[k], ws[k + 1], phone, msgs[k], now);
  }

  /** The registration half of a conversation with a new sender: after a
      greeting, a name and an unused e-mail address, the sender is a
      customer and sits at `ask_issue` under the new id. */
  lemma NewSenderRegisters(phone: string, msgs: seq<string>, ws: seq<World>, now: int)
    requires Steps(phone, msgs, ws, now) && |msgs| >= 3
    requires phone !in ws[0].sessions && PhoneUnknown(ws[0].customers, phone)
    requires Acceptable(CurrentRules, AskName, msgs[1]) && Acceptable(CurrentRules, AskEmail, msgs[2])
    requires EmailFree(ws[0].customers, ToLower(Trim(msgs[2])))
    ensures var w, name := ws[0], Some(Trim(msgs[1]));
      ws[3] == World(w.sessions[phone := Session(Booking(AskIssue, w.nextId, name, None), now)],
                     w.customers + [Customer(w.nextId, name, ToLower(Trim(msgs[2])), phone, "")],
                     w.tickets, w.nextId + 1)
  {
    var reg := Registration(Some(DefaultProfileName), Some(Trim(msgs[1])), None);
    GreetingStep(phone, msgs, ws, now, 0);
    NameStep(phone, msgs, ws, now, 1);
    EmailStep(phone, msgs, ws, now, 2, reg);
    var s3 := Session(Booking(AskIssue, ws[0].nextId, reg.name, None), now);
    assert ws[2].sessions[phone := s3] == ws[0].sessions[phone := s3];
  }

  /** The first two booking answers: the issue starts the draft and the
      model joins it. */
  lemma IssueAndModel(phone: string, msgs: seq<string>, ws: seq<World>, now: int, k: nat, id: nat, name: Option<string>)
    requires Steps(phone, msgs, ws, now) && k + 2 <= |msgs|
    requires phone in ws[k].sessions && ws[k].sessions[phone].data == Booking(AskIssue, id, name, None)
    requires Acceptable(CurrentRules, AskIssue, msgs[k]) && Acceptable(CurrentRules, AskModel, msgs[k + 1])
    ensures var d := EmptyDraft.(issue := Some(Trim(msgs[k])), model := Some(Trim(msgs[k + 1])));
      ws[k + 2] == With(ws[k], phone, Booking(AskAddress, id, name, Some(d)), now)
  {
    var d1 := EmptyDraft.(issue := Some(Trim(msgs[k])));
    IssueStep(phone, msgs, ws, now, k, id, name);
    ModelStep(phone, msgs, ws, now, k + 1, id, name, d1);
  }

  /** The next two: the address and the date join the draft. */
  lemma AddressAndDate(phone: string, msgs: seq<string>, ws: seq<World>, now: int, k: nat,
                       id: nat, name: Option<string>, d: TicketDraft)
    requires Steps(phone, msgs, ws, now) && k + 2 <= |msgs|
    requires phone in ws[k].sessions && ws[k].sessions[phone].data == Booking(AskAddress, id, name, Some(d))
    requires Acceptable(CurrentRules, AskAddress, msgs[k]) && Acceptable(CurrentRules, AskDate, msgs[k + 1])
    ensures var d' := d.(address := Some(Trim(msgs[k])), preferredDate := Some(Trim(msgs[k + 1])));
      ws[k + 2] == With(ws[k], phone, Booking(AskTime, id, name, Some(d')), now)
  {
    AddressStep(phone, msgs, ws, now, k, id, name, d);
    DateStep(phone, msgs, ws, now, k + 1, id, name, d.(address := Some(Trim(msgs[k]))));
  }

  /** The booking half: from `ask_issue` at position `k` under customer
      `id`, five acceptable answers create one booked ticket with the trimmed
      answers and close the session. */
  lemma CustomerBooks(phone: string, msgs: seq<string>, ws: seq<World>, now: int, k: nat, id: nat, name: Option<string>)
    requires Steps(phone, msgs, ws, now) && k + 5 <= |msgs|
    requires phone in ws[k].sessions && ws[k].sessions[phone].data == Booking(AskIssue, id, name, None)
    requires Acceptable(CurrentRules, AskIssue, msgs[k]) && Acceptable(CurrentRules, AskModel, msgs[k + 1])
    requires Acceptable(CurrentRules, AskAddress, msgs[k + 2]) && Acceptable(CurrentRules, AskDate, msgs[k + 3])
    requires Acceptable(CurrentRules, AskTime, msgs[k + 4])
    ensures var w := ws[k];
      ws[k + 5] == World(w.sessions - {phone}, w.customers,
                         w.tickets + [Ticket(w.nextId, id, Trim(msgs[k]), Trim(msgs[k + 1]), Trim(msgs[k + 2]),
                                             Trim(msgs[k + 3]), Trim(msgs[k + 4]), Booked, now)],
                         w.nextId + 1)
  {
    var i, m, a, d := Trim(msgs[k]), Trim(msgs[k + 1]), Trim(msgs[k + 2]), Trim(msgs[k + 3]);
    IssueAndModel(phone, msgs, ws, now, k, id, name);
    AddressAndDate(phone, msgs, ws, now, k + 2, id, name, EmptyDraft.(issue := Some(i), model := Some(m)));
    assert i != "" && m != "" && a != "" && d != "";
    TimeStep(phone, msgs, ws, now, k + 4, id, name, i, m, a, d);
    assert ws[k + 4].sessions - {phone} == ws[k].sessions - {phone};
  }

  /** A whole conversation with a new sender: a greeting, then an acceptable
      answer to each of the seven questions, with an unused e-mail address.
      Afterwards there is exactly one new customer (the trimmed name, the
      lower-cased address, this phone) and exactly one new booked ticket for
      that customer with the trimmed answers, and no session is left open. */
  lemma NewSenderBooks(phone: string, msgs: seq<string>, ws: seq<World>, now: int)
    requires Steps(phone, msgs, ws, now) && |msgs| == 8
    requires phone !in ws[0].sessions && PhoneUnknown(ws[0].customers, phone)
    requires Acceptable(CurrentRules, AskName, msgs[1]) && Acceptable(CurrentRules, AskEmail, msgs[2])
    requires EmailFree(ws[0].customers, ToLower(Trim(msgs[2])))
    requires Acceptable(CurrentRules, AskIssue, msgs[3]) && Acceptable(CurrentRules, AskModel, msgs[4])
    requires Acceptable(CurrentRules, AskAddress, msgs[5]) && Acceptable(CurrentRules, AskDate, msgs[6])
    requires Acceptable(CurrentRules, AskTime, msgs[7])
    ensures var w, id := ws[0], ws[0].nextId;
      ws[8] == World(w.sessions,
                     w.customers + [Customer(id, Some(Trim(msgs[1])), ToLower(Trim(msgs[2])), phone, "")],
                     w.tickets + [Ticket(id + 1, id, Trim(msgs[3]), Trim(msgs[4]), Trim(msgs[5]),
                                         Trim(msgs[6]), Trim(msgs[7]), Booked, now)],
                     id + 2)
  {
    NewSenderRegisters(phone, msgs, ws, now);
    CustomerBooks(phone, msgs, ws, now, 3, ws[0].nextId, Some(Trim(msgs[1])));
    assert ws[3].sessions - {phone} == ws[0].sessions;
  }
}
