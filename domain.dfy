/// The records the chat engine works on: the conversation step, the session
/// kept per phone number, and the durable Customer and Ticket records.
module Domain {

  datatype Option<T> = None | Some(value: T) {
    function GetOr(default: T): T {
      if Some? then value else default
    }
  }

  /** The value of a session's `step` key. `Unknown(tag)` stands for any tag
      other than the seven the engine dispatches on; the engine writes only
      the seven, so `tag` is never one of their names (`"ask_name"` and so
      on), and no function here builds such a value. */
  datatype Step =
    | AskName | AskEmail | AskIssue | AskModel | AskAddress | AskDate | AskTime
    | Unknown(tag: string)
  {
    predicate Known() { !Unknown? }
  }

  /** Position of a known step in the flow
      ask_name, ask_email, ask_issue, ask_model, ask_address, ask_date, ask_time. */
  function FlowIndex(s: Step): (i: int)
    ensures s.Known() <==> 0 <= i < 7
  {
    match s
    case AskName => 0
    case AskEmail => 1
    case AskIssue => 2
    case AskModel => 3
    case AskAddress => 4
    case AskDate => 5
    case AskTime => 6
    case Unknown(_) => -1
  }

  /** `registrationData`: what a new customer has told the engine so far. */
  datatype Registration = Registration(profileName: Option<string>, name: Option<string>, email: Option<string>)

  const EmptyRegistration := Registration(None, None, None)

  /** `ticketData`: the booking details gathered so far. */
  datatype TicketDraft = TicketDraft(
    issue: Option<string>, model: Option<string>, address: Option<string>, preferredDate: Option<string>)

  const EmptyDraft := TicketDraft(None, None, None, None)

  /** The keys of a session object other than `lastActivity`; `None` is a key
      that is absent. The same shape describes the `updates` object of a
      shallow merge. */
  datatype SessionData = SessionData(
    step: Option<Step>,
    customerId: Option<nat>,
    customerName: Option<string>,
    registrationData: Option<Registration>,
    ticketData: Option<TicketDraft>)

  const NoKeys := SessionData(None, None, None, None, None)

  /** The object stored under a phone number: its keys plus `lastActivity`
      in milliseconds. */
  datatype Session = Session(data: SessionData, lastActivity: int)

  /** `{ ...base, ...updates }`: every key present in `updates` takes its value
      from `updates`, whole (a nested record is not merged); every other key
      keeps its value from `base`. */
  function Merge(base: SessionData, updates: SessionData): (r: SessionData)
    ensures r.step == (if updates.step.Some? then updates.step else base.step)
    ensures r.customerId == (if updates.customerId.Some? then updates.customerId else base.customerId)
    ensures r.customerName == (if updates.customerName.Some? then updates.customerName else base.customerName)
    ensures r.registrationData ==
      (if updates.registrationData.Some? then updates.registrationData else base.registrationData)
    ensures r.ticketData == (if updates.ticketData.Some? then updates.ticketData else base.ticketData)
    ensures updates == NoKeys ==> r == base
    ensures (updates.step.Some? && updates.customerId.Some? && updates.customerName.Some?
             && updates.registrationData.Some? && updates.ticketData.Some?) ==> r == updates
  {
    SessionData(
      if updates.step.Some? then updates.step else base.step,
      if updates.customerId.Some? then updates.customerId else base.customerId,
      if updates.customerName.Some? then updates.customerName else base.customerName,
      if updates.registrationData.Some? then updates.registrationData else base.registrationData,
      if updates.ticketData.Some? then updates.ticketData else base.ticketData)
  }

  /** Merging the same updates twice is merging them once, an empty update
      changes nothing, and two merges in a row are one merge of the second
      update over the first. */
  lemma MergeLaws(base: SessionData, u: SessionData, v: SessionData)
    ensures Merge(Merge(base, u), u) == Merge(base, u)
    ensures Merge(base, NoKeys) == base
    ensures Merge(Merge(base, u), v) == Merge(base, Merge(u, v))
  {
  }

  /** A customer record as the engine creates and finds it. */
  datatype Customer = Customer(id: nat, name: Option<string>, email: string, phone: string, address: string)

  /** The `status` values the Ticket schema allows. */
  datatype TicketStatus = Booked | InProgress | Completed | Cancelled

  datatype Ticket = Ticket(
    id: nat, customerId: nat,
    issue: string, model: string, address: string, preferredDate: string, preferredTime: string,
    status: TicketStatus, createdAt: int)

  /** A field the Ticket schema marks `required`: present and not empty. */
  predicate Filled(v: Option<string>) {
    v.Some? && v.value != ""
  }

  /** `new Ticket({...})` followed by schema validation: a ticket exists only
      when every required field is there; its status starts as `booked` and
      its `createdAt` is the current time. */
  function NewTicket(id: nat, customerId: Option<nat>, d: TicketDraft, time: string, now: int): (r: Option<Ticket>)
    ensures r.Some? <==>
      customerId.Some? && Filled(d.issue) && Filled(d.model) && Filled(d.address)
      && Filled(d.preferredDate) && time != ""
    ensures r.Some? ==> r.value == Ticket(id, customerId.value, d.issue.value, d.model.value,
      d.address.value, d.preferredDate.value, time, Booked, now)
  {
    if customerId.Some? && Filled(d.issue) && Filled(d.model) && Filled(d.address)
      && Filled(d.preferredDate) && time != ""
    then Some(Ticket(id, customerId.value, d.issue.value, d.model.value, d.address.value,
      d.preferredDate.value, time, Booked, now))
    else None
  }

  /** The customer key a lookup filters on: `{ phone }` or `{ email }`. */
  datatype Field = Phone | Email

  function FieldOf(c: Customer, f: Field): string {
    match f
    case Phone => c.phone
    case Email => c.email
  }

  /** `Customer.findOne({ [f]: value })` on an in-memory repository: the
      first customer whose field equals `value`, if any. */
  function FindOne(cs: seq<Customer>, f: Field, value: string): (r: Option<Customer>)
    ensures r.Some? ==> r.value in cs && FieldOf(r.value, f) == value
    ensures r.None? <==> forall i :: 0 <= i < |cs| ==> FieldOf(cs[i], f) != value
  {
    if cs == [] then None
    else if FieldOf(cs[0], f) == value then Some(cs[0])
    else FindOne(cs[1..], f, value)
  }
}
