# Zoss Water booking bot: the conversation engine and its session store

This project models the core of a WhatsApp bot that registers customers of a
water-purifier company and books service visits. Each phone number has a
session in an in-memory store. The engine walks the session through the
steps `ask_name → ask_email → ask_issue → ask_model → ask_address → ask_date
→ ask_time`. It creates a Customer record at `ask_email` and a Ticket record
at `ask_time`.

Three pieces of source are modelled:

- the session store of `utils/sessionManager.js` (`session_store.dfy`);
- the engine of `services/chatFlowService.js`, the copy the WhatsApp
  transport calls (`chat_flow_rules.dfy`, `chat_flow_service.dfy`,
  `chat_flow_scenario.dfy`);
- the older copy `services/chatFlowSevice.js`, which nothing imports
  (`legacy_chat_flow_rules.dfy`, `legacy_chat_flow_service.dfy`).
  `divergence.dfy` states where the two engines differ and where they agree.

Shared vocabulary lives in three files. `text.dfy` holds JavaScript's
`trim`, UTF-16 `length`, lower-casing and the e-mail regular expression.
`domain.dfy` holds the session and record types. `conversation.dfy` holds the
state, the replies, the failure oracle, the two threshold tables and the
consistency invariant.

The engine is specified twice:

- as pure functions from the state before a message to the state and reply
  after it (`Respond`, `LegacyRespond` and one function per handler);
- as classes whose methods change a `SessionManager` and two repository
  sequences in place. Each method is proved to produce exactly what its
  function describes.

The properties are proved about the functions:

- records are append-only;
- other senders are isolated;
- a rejected message changes nothing;
- steps advance by one;
- records are created only at their steps;
- a consistency invariant holds (every session at `ask_issue` or later points
  at an existing customer and has the details of the earlier steps; every
  ticket points at an existing customer);
- whole conversations have the intended end state.

The Customer and Ticket repositories are in-memory sequences with one shared
id counter. Every `findOne` and `save()` of a request either succeeds or
fails, as the `Faults` argument says. The clock is an integer argument
`now`, in milliseconds.

## Model

| member | source | states |
|---|---|---|
| SessionStore.SessionManager.constructor | utils/sessionManager.js:2-4 | a new store holds no sessions |
| SessionStore.Lookup | utils/sessionManager.js:7-9 | a session is returned exactly when the phone has one, and it is the stored record |
| SessionStore.SessionManager.GetSession | utils/sessionManager.js:7-9 | returns the stored record when the key is present and nothing otherwise |
| SessionStore.Put | utils/sessionManager.js:12-17 | the key set gains the phone, the phone maps to the given data stamped with `now`, every other key keeps its record |
| SessionStore.PutIsolated | utils/sessionManager.js:12-17 | a whole-record write leaves the rest of the map equal to what it was |
| SessionStore.SessionManager.SetSession | utils/sessionManager.js:12-17 | the new map is the old one with the phone's record replaced wholesale and stamped |
| Domain.Merge | utils/sessionManager.js:23 | each key present in the update takes the update's value whole, and each absent key keeps the old value; so an empty update changes nothing and a full one replaces the record |
| Domain.MergeLaws | utils/sessionManager.js:23 | the shallow merge is idempotent, an empty update changes nothing, and two merges are one merge of the combined updates |
| SessionStore.Patch | utils/sessionManager.js:20-25 | with no session nothing changes; otherwise the record becomes the shallow merge, stamped, and other keys are untouched |
| SessionStore.PatchAbsentIsNoOp | utils/sessionManager.js:20-25 | an update for a phone with no session creates none and leaves the map unchanged |
| SessionStore.SessionManager.UpdateSession | utils/sessionManager.js:20-25 | the new map is the old one patched as above |
| SessionStore.SessionManager.ClearSession | utils/sessionManager.js:28-30 | exactly the phone's key is removed |
| SessionStore.Expired | utils/sessionManager.js:34-37 | a session is expired exactly when it has been idle for more than an hour, which puts its last activity in the past |
| SessionStore.Sweep | utils/sessionManager.js:33-42 | a session survives exactly when it was active within the last hour, with its contents unchanged |
| SessionStore.SweepShrinksAndSettles | utils/sessionManager.js:37-41 | the sweep never adds sessions, and sweeping twice at the same time equals sweeping once |
| SessionStore.SessionManager.CleanupSessions | utils/sessionManager.js:33-42 | the entry-by-entry deletion loop leaves exactly the swept map |
| SessionStore.SessionManager.GetActiveSessionsCount | utils/sessionManager.js:45-47 | the count is the number of keys |
| Text.Trim | services/chatFlowService.js:108 | `trim` never lengthens its input, is empty exactly for all-white-space input, and otherwise neither starts nor ends with white space |
| Text.TrimStartSpec | services/chatFlowService.js:108 | leading trim removes only white space and keeps a suffix that does not start with white space |
| Text.TrimEndSpec | services/chatFlowService.js:108 | trailing trim removes only white space and keeps a prefix that does not end with white space |
| Text.TrimSpec | services/chatFlowService.js:108 | `trim` keeps the infix between the leading and trailing white space, and is empty exactly for all-white-space input |
| Text.TrimIdempotent | services/chatFlowService.js:108 | trimming twice is trimming once |
| Text.Utf16Length | services/chatFlowService.js:108 | `length` counts code units: at least the number of characters, at most twice that, and equal to it inside the Basic Multilingual Plane |
| Text.ToLower | services/chatFlowService.js:135 | lower-casing keeps the length and leaves no upper-case ASCII letter |
| Text.ToLowerSpec | services/chatFlowService.js:135 | no upper-case ASCII letter survives, and only those letters change |
| Text.ToLowerIdempotent | services/chatFlowService.js:135 | lower-casing twice is lower-casing once |
| Text.MatchesEmailPattern | services/chatFlowService.js:126-128 | a string the regular expression accepts has at least five characters and starts and ends with a character other than white space and `@` |
| Text.EmailPatternIff | services/chatFlowService.js:126-130 | the regular expression holds exactly when there is no white space, exactly one `@` with a non-empty local part, and a `.` in the domain with a character on each side |
| Text.LowerKeepsEmailPattern | services/chatFlowService.js:133-136 | the lower-cased address that is stored still matches the pattern |
| Domain.FlowIndex | services/chatFlowService.js:55-75 | the seven dispatched steps, and only they, have a position 0 to 6 in the flow |
| Domain.FindOne | services/chatFlowService.js:12 | a customer is found exactly when one has the value in the field, and the one found has it |
| Domain.NewTicket | models/Tickets.js:3-38 | a ticket exists exactly when the customer id and every required string are present and non-empty; it is `booked` and stamped with `now` |
| Conversation.IsBlank | services/chatFlowService.js:50 | a message is blank exactly when it is all white space, the empty message included |
| Conversation.Acceptable | services/chatFlowService.js:107-242 | at `ask_email` an accepted message trims to at least five characters starting with neither white space nor `@`; elsewhere a trimmed length under the step's minimum is refused; an accepted message is never blank |
| Conversation.AcceptedIsNotBlank | services/chatFlowService.js:50-52 | a message that a step accepts is never blank, so the empty-message guard never hides an acceptable answer |
| Conversation.LegacyRulesStricter | services/chatFlowSevice.js:68-191 | whatever the older table accepts at a step, the current table accepts too |
| ChatFlowRules.EmptyMessagePrompt | services/chatFlowService.js:85-104 | a known step gets its own question again and any other step the generic reply |
| ChatFlowRules.NewCustomer | services/chatFlowService.js:8-38 | a failed lookup changes nothing; a known phone goes to `ask_issue` under its customer; an unknown one goes to `ask_name` with the profile name; records and other sessions untouched |
| ChatFlowRules.NameInput | services/chatFlowService.js:107-122 | under 2 code units nothing changes; otherwise the step becomes `ask_email` and the trimmed name joins the registration record, which keeps the profile name |
| ChatFlowRules.EmailInput | services/chatFlowService.js:125-168 | pattern failure, lookup failure, an address already on file and a failed save each change nothing, with replies `Invalid`, `RegistrationFailed` (the lookup), `EmailTaken` and `RegistrationFailed` (the save); otherwise exactly one customer with the lower-cased address is appended and the session is replaced by one at `ask_issue` |
| ChatFlowRules.IssueInput | services/chatFlowService.js:171-182 | below the threshold nothing changes; otherwise the step becomes `ask_model` and the draft is the issue alone |
| ChatFlowRules.ModelInput | services/chatFlowService.js:185-200 | below the threshold nothing changes; otherwise `ask_address`, the model added to the earlier details |
| ChatFlowRules.AddressInput | services/chatFlowService.js:203-218 | below the threshold nothing changes; otherwise `ask_date`, the address added to the earlier details |
| ChatFlowRules.DateInput | services/chatFlowService.js:221-236 | below the threshold nothing changes; otherwise `ask_time`, the date added to the earlier details |
| ChatFlowRules.PendingTicket | services/chatFlowService.js:244-262 | a ticket is built exactly when the session has a customer and every detail and the time are non-empty; it takes the next id, `booked`, the session's customer, the gathered details, the time and `now` |
| ChatFlowRules.TimeInput | services/chatFlowService.js:239-275 | below the threshold nothing changes and the correction is sent; on a failed save, or when the details do not make a valid ticket, nothing changes and the reply is `BookingFailed`; a new ticket exists only with all details and a working save, and then the session is cleared |
| ChatFlowRules.BookingInput | services/chatFlowService.js:171-275 | at a booking step no customer is created, a message the table refuses gets the step's correction with no change, and a ticket can appear only at `ask_time` |
| ChatFlowRules.StepInput | services/chatFlowService.js:55-75 | a message the step's check refuses gets that step's correction with no change; a customer can appear only at `ask_email` and a ticket only at `ask_time` |
| ChatFlowRules.Respond | services/chatFlowService.js:41-82 | a blank message and a message the current step refuses change nothing; with no session or at an unknown step no record is created and the reply is a welcome or the apology for a failed lookup |
| ChatFlowProperties.RespondIsolated | services/chatFlowService.js:41-82 | a message never touches another sender's session |
| ChatFlowProperties.EmailInputExtends | services/chatFlowService.js:146-161 | the e-mail step only appends, at most one customer |
| ChatFlowProperties.TimeInputExtends | services/chatFlowService.js:256-266 | the time step only appends, at most one ticket |
| ChatFlowProperties.BookingInputExtends | services/chatFlowService.js:171-275 | the booking steps append at most one ticket and no customer, under either table |
| ChatFlowProperties.StepInputExtends | services/chatFlowService.js:55-75 | every dispatched handler only appends |
| ChatFlowProperties.RespondExtendsRecords | services/chatFlowService.js:41-82 | records are append-only, at most one of each kind per message, and the id counter never decreases |
| ChatFlowProperties.RespondRejects | services/chatFlowService.js:41-82 | a blank message gets the step's question and a message failing the step's rule gets its correction, both with no change |
| ChatFlowProperties.RespondAdvancesByOne | services/chatFlowService.js:55-75 | when a known step rewrites the session and it survives, the step moves forward by exactly one |
| ChatFlowProperties.RespondCreatesOnlyAtTheirSteps | services/chatFlowService.js:41-82 | a customer appears only from `ask_email`, leaving the session at `ask_issue` under it; a ticket only from `ask_time`, booked, for the session's customer, with the session gone |
| ChatFlowProperties.UnknownStepRestarts | services/chatFlowService.js:77-80 | an unknown or missing step clears the session and starts over; with a failed lookup no session remains |
| ChatFlowInvariant.NewCustomerKeepsInv | services/chatFlowService.js:8-38 | first contact keeps the consistency invariant |
| ChatFlowInvariant.EmailInputKeepsInv | services/chatFlowService.js:125-168 | registration keeps the invariant: the new session points at the new customer |
| ChatFlowInvariant.TimeInputKeepsInv | services/chatFlowService.js:239-275 | booking keeps the invariant: the ticket points at an existing customer |
| ChatFlowInvariant.BookingInputKeepsInv | services/chatFlowService.js:171-275 | each booking step records a non-empty detail and keeps the invariant, under either table |
| ChatFlowInvariant.StepInputKeepsInv | services/chatFlowService.js:55-75 | every dispatched handler keeps the invariant |
| ChatFlowInvariant.RespondKeepsInv | services/chatFlowService.js:41-82 | every message keeps the invariant |
| ChatFlowInvariant.SweepKeepsInv | utils/sessionManager.js:33-42 | the hourly sweep keeps the invariant |
| ChatFlowInvariant.NewCustomerKeepsPhoneUnique | services/chatFlowService.js:8-38 | first contact keeps customer phones distinct and registers only a phone with no customer |
| ChatFlowInvariant.EmailInputKeepsUnique | services/chatFlowService.js:125-168 | registration appends a customer whose phone and address no customer has, so phones and addresses stay distinct |
| ChatFlowInvariant.BookingInputKeepsPhoneUnique | services/chatFlowService.js:171-275 | the booking steps keep the phone half of the uniqueness invariant, under either table |
| ChatFlowInvariant.RespondKeepsUnique | services/chatFlowService.js:41-82 | every message keeps customer phones and addresses pairwise distinct, and every session in registration belongs to a phone with no customer |
| ChatFlowInvariant.TimeStepBooks | services/chatFlowService.js:239-275 | in a consistent state an acceptable time with working repositories always books: one ticket with the gathered details and the trimmed time, session gone, confirmation carrying the new id |
| ChatFlowScenario.StepsAppend | services/chatFlowService.js:41-82 | along any sequence of messages, the records of the first state are a prefix of those of the last |
| ChatFlowScenario.NewSenderRegisters | services/chatFlowService.js:8-168 | greeting, name and an unused address leave exactly one new customer and the session at `ask_issue` under it |
| ChatFlowScenario.CustomerBooks | services/chatFlowService.js:171-275 | five acceptable booking answers leave exactly one new booked ticket with the trimmed answers and no session |
| ChatFlowScenario.NewSenderBooks | services/chatFlowService.js:8-275 | a whole conversation with a new sender ends with exactly one new customer, one new ticket for it, and the store as before |
| ChatFlow.ChatFlowService.constructor | services/chatFlowService.js:278 | a new engine has no sessions and empty repositories, which is a consistent state |
| ChatFlow.ChatFlowService.SaveCustomer | services/chatFlowService.js:153 | a successful save appends the customer and moves the id counter |
| ChatFlow.ChatFlowService.SaveTicket | services/chatFlowService.js:262 | a successful save appends the ticket and moves the id counter |
| ChatFlow.ChatFlowService.HandleNewCustomer | services/chatFlowService.js:8-38 | changes the store exactly as NewCustomer says, with `'Customer'` for a missing profile name |
| ChatFlow.ChatFlowService.HandleNameInput | services/chatFlowService.js:107-122 | changes the store exactly as NameInput says |
| ChatFlow.ChatFlowService.HandleEmailInput | services/chatFlowService.js:125-168 | changes the store and repositories exactly as EmailInput says |
| ChatFlow.ChatFlowService.HandleIssueInput | services/chatFlowService.js:171-182 | changes the store exactly as IssueInput under the current table says |
| ChatFlow.ChatFlowService.HandleModelInput | services/chatFlowService.js:185-200 | changes the store exactly as ModelInput says |
| ChatFlow.ChatFlowService.HandleAddressInput | services/chatFlowService.js:203-218 | changes the store exactly as AddressInput says |
| ChatFlow.ChatFlowService.HandleDateInput | services/chatFlowService.js:221-236 | changes the store exactly as DateInput says |
| ChatFlow.ChatFlowService.HandleTimeInput | services/chatFlowService.js:239-275 | changes the store and repositories exactly as TimeInput says |
| ChatFlow.ChatFlowService.HandleStep | services/chatFlowService.js:55-75 | changes the store and repositories exactly as StepInput says for the session's step |
| ChatFlow.ChatFlowService.ProcessUserResponse | services/chatFlowService.js:41-82 | does what Respond says and keeps the consistency invariant |
| LegacyChatFlowRules.LegacyNewCustomer | services/chatFlowSevice.js:8-29 | a failed lookup escapes with nothing changed; a known phone goes to `ask_issue`; an unknown one to `ask_name` with an empty registration record |
| LegacyChatFlowRules.LegacyNameInput | services/chatFlowSevice.js:67-78 | under 2 code units nothing changes; otherwise `ask_email` with a registration record holding the name alone |
| LegacyChatFlowRules.LegacyEmailInput | services/chatFlowSevice.js:81-117 | pattern failure or a failed save changes nothing; otherwise exactly one customer is appended, whether or not the address is on file, and the session is replaced by one at `ask_issue` |
| LegacyChatFlowRules.LegacyStepInput | services/chatFlowSevice.js:39-60 | a message the older table refuses gets the step's correction with no change; a customer can appear only at `ask_email` and a ticket only at `ask_time` |
| LegacyChatFlowRules.LegacyRespond | services/chatFlowSevice.js:32-64 | at a known step a refused message changes nothing; with no session or an unknown step no record is created, and a failed lookup escapes with the state unchanged, else the reply is a welcome |
| LegacyChatFlowProperties.LegacyRespondIsolated | services/chatFlowSevice.js:32-64 | a message never touches another sender's session |
| LegacyChatFlowProperties.LegacyEmailInputExtends | services/chatFlowSevice.js:94-112 | the e-mail step only appends, at most one customer |
| LegacyChatFlowProperties.LegacyRespondExtendsRecords | services/chatFlowSevice.js:32-64 | records are append-only, at most one of each kind per message |
| LegacyChatFlowProperties.LegacyRespondRejects | services/chatFlowSevice.js:32-64 | at a known step a message failing the older table, the empty one included, gets the correction and changes nothing |
| LegacyChatFlowProperties.LegacyRespondCreatesOnlyAtTheirSteps | services/chatFlowSevice.js:32-64 | customers appear only from `ask_email` and tickets only from `ask_time`, as in the current engine |
| LegacyChatFlowProperties.LegacyUnknownStepRestarts | services/chatFlowSevice.js:61-62 | an unknown step starts over on top of the old session; with a failed lookup the old session stays and the error escapes |
| LegacyChatFlowProperties.LegacyNewCustomerKeepsInv | services/chatFlowSevice.js:8-29 | first contact keeps the consistency invariant |
| LegacyChatFlowProperties.LegacyEmailInputKeepsInv | services/chatFlowSevice.js:81-117 | registration keeps the invariant |
| LegacyChatFlowProperties.LegacyRespondKeepsInv | services/chatFlowSevice.js:32-64 | every message keeps the invariant |
| LegacyChatFlowProperties.LegacyNewCustomerKeepsPhoneUnique | services/chatFlowSevice.js:8-29 | first contact keeps customer phones distinct and registers only a phone with no customer |
| LegacyChatFlowProperties.LegacyEmailInputKeepsPhoneUnique | services/chatFlowSevice.js:81-117 | registration appends a customer only for a phone with no customer, so phones stay distinct |
| LegacyChatFlowProperties.LegacyRespondKeepsPhoneUnique | services/chatFlowSevice.js:32-64 | every message keeps customer phones distinct; addresses are not kept distinct (Divergence.DuplicateEmail) |
| LegacyChatFlow.LegacyChatFlowService.constructor | services/chatFlowSevice.js:224 | a new engine has no sessions and empty repositories, a consistent state |
| LegacyChatFlow.LegacyChatFlowService.SaveCustomer | services/chatFlowSevice.js:103 | a successful save appends the customer and moves the id counter |
| LegacyChatFlow.LegacyChatFlowService.SaveTicket | services/chatFlowSevice.js:211 | a successful save appends the ticket and moves the id counter |
| LegacyChatFlow.LegacyChatFlowService.HandleNewCustomer | services/chatFlowSevice.js:8-29 | changes the store exactly as LegacyNewCustomer says |
| LegacyChatFlow.LegacyChatFlowService.HandleNameInput | services/chatFlowSevice.js:67-78 | changes the store exactly as LegacyNameInput says |
| LegacyChatFlow.LegacyChatFlowService.HandleEmailInput | services/chatFlowSevice.js:81-117 | changes the store and repositories exactly as LegacyEmailInput says |
| LegacyChatFlow.LegacyChatFlowService.HandleIssueInput | services/chatFlowSevice.js:120-131 | changes the store exactly as IssueInput under the older table says |
| LegacyChatFlow.LegacyChatFlowService.HandleModelInput | services/chatFlowSevice.js:134-149 | changes the store exactly as ModelInput under the older table says |
| LegacyChatFlow.LegacyChatFlowService.HandleAddressInput | services/chatFlowSevice.js:152-167 | changes the store exactly as AddressInput under the older table says |
| LegacyChatFlow.LegacyChatFlowService.HandleDateInput | services/chatFlowSevice.js:170-185 | changes the store exactly as DateInput under the older table says |
| LegacyChatFlow.LegacyChatFlowService.HandleTimeInput | services/chatFlowSevice.js:188-221 | changes the store and repositories exactly as TimeInput under the older table says |
| LegacyChatFlow.LegacyChatFlowService.HandleStep | services/chatFlowSevice.js:39-60 | changes the store and repositories exactly as LegacyStepInput says for the session's step |
| LegacyChatFlow.LegacyChatFlowService.ProcessUserResponse | services/chatFlowSevice.js:32-64 | does what LegacyRespond says and keeps the consistency invariant |
| Divergence.BookingStepsAgree | services/chatFlowSevice.js:120-221 | at a booking step, a message the older table accepts gets the same reply and state from both engines |
| Divergence.IssueThresholdDiffers | services/chatFlowSevice.js:121-123 | an issue of 3 or 4 code units moves the current engine on to `ask_model` and gets the older one's correction with no change |
| Divergence.TimeThresholdDiffers | services/chatFlowSevice.js:189-191 | a time of 2 or 3 code units gets the older engine's correction with no change and is not corrected by the current one |
| Divergence.DuplicateEmail | services/chatFlowSevice.js:94-103 | an address already on file is refused by the current engine with no change; the older one appends a second customer with it |
| Divergence.BlankAtKnownStep | services/chatFlowSevice.js:39-60 | a blank message at a known step gets the question from the current engine and the correction from the older one, with no change from either |
| Divergence.BlankAtUnknownStep | services/chatFlowSevice.js:61-62 | a blank message at an unknown step is answered without change by the current engine and restarts the flow in the older one |
| Divergence.LookupFailureAtUnknownStep | services/chatFlowSevice.js:8-9 | a failed lookup at an unknown step leaves the current engine with the session cleared and an apology, the older one with the old session and an escaped error |
| Divergence.FirstContactProfileName | services/chatFlowSevice.js:22-25 | both engines start a new sender at `ask_name`, but only the current one records a profile name |
| Divergence.NameStepRecord | services/chatFlowSevice.js:72-75 | an accepted name is merged into the registration record by the current engine and replaces it in the older one |

## Left out

- Twilio, the HTTP server, the webhook and `console` logging are not part of this model. Neither is the `setInterval` timer that runs the sweep every half hour; the sweep is an ordinary method taking `now`.
- Replies are modelled by kind (`Reply`), not by wording or emoji.
- Requests run one at a time. Interleaving of `await` points between concurrent messages from the same sender is not modelled.
- Each request reads the clock once (`now`). The source calls `new Date()` in every `setSession`, and those calls are at most milliseconds apart.
- The Customer schema is not part of this model. A customer save fails only when the `Faults` argument says so. In particular, the model does not decide whether the database would itself refuse a duplicate e-mail address for the older engine.
- Ids are drawn from one counter when a save succeeds. Mongoose assigns `_id` when the document is constructed, but an id that is never saved is never seen.
- A rejected promise (the older `handleNewCustomer` has no `try`) is the reply `Raised` with the state unchanged.
- Both source classes use the same module-level session store. Each model class owns its own `SessionManager`, because no code runs both engines.
- The WhatsApp transport trims `Body` before calling the engine. The engine is modelled on any string, so it also covers untrimmed input.
- Text.ToLower: lower-cases the ASCII letters only, not the full Unicode case mapping of `toLowerCase`.
- Text.ToLowerSpec: states the ASCII-only lower-casing above, so it is weaker than `toLowerCase` outside ASCII.
- Text.ToLowerIdempotent: proved for the ASCII-only lower-casing above.
- ChatFlow.ChatFlowService.HandleIssueInput: requires a session for the phone, as every handler reached from `processUserResponse` has one. Called directly with no session, the source's `handleIssueInput` returns its prompt without effect. The source's other current handlers do the same for input that fails their check; only input that passes it makes them read `registrationData` or `ticketData` of a missing session and throw.
- LegacyChatFlow.LegacyChatFlowService.HandleNameInput: requires a session for the same reason. The older `handleNameInput` and `handleIssueInput` would otherwise return their prompts without effect.
