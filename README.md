# Veterinary chatbot server core, in Dafny

This project models the conversation core of the veterinary chatbot
server and proves properties of it. Each chat turn does the following:

- It loads or creates the session's conversation record.
- It logs the user's message.
- It routes the turn to one of two handlers, depending on the record's
  booking state and on a keyword test of the message:
  - the appointment-booking state machine;
  - the Gemini model.
- It logs exactly one bot reply.

The booking state machine is a linear form: owner name, pet name, phone,
date and time, then confirmation. It validates one field per turn. A yes at
the confirmation step books an appointment.

The files follow the services of the server:

| file | module | models |
|---|---|---|
| `wrappers.dfy` | `Wrappers` | `Option` and `Result` for absent records and thrown errors |
| `text.dfy` | `Text` | the JavaScript string built-ins used: `trim`, `toLowerCase`, `toUpperCase`, `includes` |
| `constants.dfy` | `Constants` | the state and status enumerations, sender types, booking keywords, system prompt, rejection sentinel and error messages |
| `phone.dfy` | `Phone` | the phone pattern, as a hand-written matcher with its language spelled out |
| `records.dfy` | `Records` | the conversation and appointment records, and the appointment collection (`AppointmentTable`) |
| `sessions.dfy` | `Sessions` | the session service, as a class over a map from session identifiers to records |
| `booking.dfy` | `Booking` | each step of the booking flow as a value, and the properties of the steps |
| `booking_service.dfy` | `AppointmentService` | the appointment service's methods acting on the two stores, each proved to do what its step in `Booking` describes |
| `validator.dfy` | `Validator` | the request-body and path-parameter checks |
| `gemini.dfy` | `Gemini` | how the model request is built, how the answer is cleaned up and read, and the set-once instance |
| `chat.dfy` | `ChatService` | routing, the turn protocol and its fallbacks, and the conversation read |

Things the system reads from outside become parameters:

- the clock, as an integer instant `now`;
- the date parsers and the date formatter, as `DateLib`;
- the identifier the next appointment gets, as `newId`;
- the model call, as a `Generator` from request contents to a response or a
  failure.

Every turn uses one instant for all the timestamps it writes.

Two behaviours of the code are worth stating outright:

- The phone pattern `^[+]?[(]?[0-9]{3}[)]?[-\s.]?[0-9]{3}[-\s.]?[0-9]{4,6}$`
  refuses `+1 (555) 123-4567`: its first digit group is exactly three
  digits, so no country code can come before it (`Phone.CountryCodeRejected`).
- An answer that contains the rejection sentinel anywhere is replaced by
  the sentinel itself (server/ai/geminiService.js:39, `Gemini.AnswerTextSpec`).

The Gemini model is shown the last ten messages of the log as it was read
before this turn's user message was appended.

## Model

| member | source | states |
|---|---|---|
| `Constants.ParseState` | server/utils/constants.js:12-20 | reading a stored state name gives exactly the state with that name; so the seven stored names are distinct |
| `Constants.StateNameParses` | server/utils/constants.js:12-20 | every state reads back from the name it is stored under |
| `Constants.KeywordsAreLowerCase` | server/utils/constants.js:30-66 | there are 26 booking keywords, each its own lower case |
| `Records.MergeLaws` | server/services/sessionService.js:108-111 | the object spread of booking data: the empty patch changes nothing on either side, spreading a patch twice is spreading it once, two spreads in a row are one spread of the combined patch, and a patch holding every field replaces the data |
| `Records.ReadStoredRoundTrip` | server/models/Conversation.js:56-59 | reading the stored state string is lossless both ways |
| `Records.AppointmentTable.Insert` | server/models/Appointment.js:10-15 | a record is stored exactly when its identifier is not in use (the unique index); identifiers stay unique |
| `Sessions.NewSession` | server/services/sessionService.js:20-25 | a new record holds the given context, an empty log, state `idle` and no booking data |
| `Sessions.MergeContext` | server/services/sessionService.js:27-31 | the keys are the union; new values win; old keys not given keep their values |
| `Sessions.WithContext` | server/services/sessionService.js:27-31 | only the context of a record changes, to the merged context |
| `Sessions.WithMessage` | server/services/sessionService.js:55-59 | the log grows by one at the end, earlier messages are kept, and no other field changes |
| `Sessions.WithBookingState` | server/services/sessionService.js:107-111 | the state is set, the data is the patch merged over the stored data, and no other field changes |
| `Sessions.Cleared` | server/services/sessionService.js:146-147 | the record is back to `idle` with no booking data, and no other field changes |
| `Sessions.ClearIdempotent` | server/services/sessionService.js:141-156 | clearing twice is clearing once |
| `Sessions.LastSpec` | server/services/sessionService.js:84 | `slice(-n)` keeps the newest min(n, length) messages in order for positive n, everything for 0, and all but the oldest -n for negative n |
| `Sessions.SessionStore.GetOrCreateSession` | server/services/sessionService.js:14-38 | the record found (context merged) or created is stored and returned; at most one record per identifier |
| `Sessions.SessionStore.AddMessage` | server/services/sessionService.js:47-67 | it appends the message to the record, or fails with "Session not found" and changes nothing |
| `Sessions.SessionStore.GetHistory` | server/services/sessionService.js:75-90 | it returns the last `limit` messages (default 50), or none for an unknown session |
| `Sessions.SessionStore.UpdateAppointmentState` | server/services/sessionService.js:99-119 | it sets the state, merges the patch and keeps all other keys, or fails and changes nothing |
| `Sessions.SessionStore.GetSession` | server/services/sessionService.js:126-134 | it returns the record exactly when there is one |
| `Sessions.SessionStore.ClearAppointmentData` | server/services/sessionService.js:141-156 | it resets the record to idle with no data, and is a silent no-op for an unknown session |
| `Text.TrimSpec` | server/services/appointmentService.js:83 | `trim` yields the slice between leading and trailing white space, and the result neither starts nor ends with white space |
| `Text.TrimIdempotent` | server/middleware/validator.js:30-31 | trimming twice is trimming once |
| `Text.TrimEmptyIff` | server/middleware/validator.js:14 | a string trims to empty exactly when it is all white space |
| `Text.IncludesIff` | server/services/chatService.js:119 | `includes` holds exactly when the text occurs at some position |
| `Phone.ParsePhoneSound` | server/utils/constants.js:91 | every string the matcher accepts is spelled by a valid choice of the pattern's parts |
| `Phone.ParseComplete` | server/utils/constants.js:91 | every valid choice of parts is accepted and read back as itself |
| `Phone.MatchesPhoneIff` | server/utils/constants.js:91 | the matcher accepts exactly the language of the pattern |
| `Phone.AcceptedDigitCount` | server/utils/constants.js:91 | every accepted number has 10 to 12 digits, as the error message at line 97 asks |
| `Phone.PlainNumberAccepted` | server/utils/constants.js:91 | `5551234567` is accepted |
| `Phone.DashedNumberAccepted` | server/utils/constants.js:91 | `555-123-4567` is accepted |
| `Phone.ParenthesisedNumberAccepted` | server/utils/constants.js:91 | `(555) 123-4567` is accepted |
| `Phone.UnclosedParenthesisAccepted` | server/utils/constants.js:91 | the parentheses are independent: `(555 123 4567` is accepted |
| `Phone.ShortNumberRejected` | server/utils/constants.js:91 | `12345` is refused |
| `Phone.CountryCodeRejected` | server/utils/constants.js:91 | `+1 (555) 123-4567` is refused |
| `Booking.NameExamples` | server/services/appointmentService.js:86 | `Jo` and `Jane Doe` are valid names; `J` and `John3` are not |
| `Booking.BookedReplyQuotes` | server/services/appointmentService.js:221-225 | the booking reply quotes the appointment identifier and the phone |
| `Booking.ApplyWriteState` | server/services/appointmentService.js:66-70 | what state each kind of step write leaves the record in |
| `Booking.TransitionFailsOnlyOnSave` | server/services/appointmentService.js:21-60 | the flow fails exactly when the record is at `confirm`, the answer is a yes, and the appointment record cannot be built for want of a required field; the failure is always the save failure |
| `Booking.TransitionKeepsOrder` | server/services/appointmentService.js:29-242 | every step writes nothing and asks again for its own field, or advances exactly one state in the order owner, pet, phone, date, confirm, or ends the booking; no step enters `complete` |
| `Booking.StartStepRule` | server/services/appointmentService.js:65-77 | from idle, any input moves to `collect_owner_name` with an empty patch and asks for `ownerName` with the booking in progress |
| `Booking.OwnerNameStepRule` | server/services/appointmentService.js:82-105 | the owner name is stored, trimmed, exactly when it is valid; a refusal writes nothing and asks for `ownerName` again |
| `Booking.PetNameStepRule` | server/services/appointmentService.js:110-133 | the pet name is added, trimmed, exactly when it is valid; a refusal writes nothing and asks for `petName` again |
| `Booking.PhoneStepRule` | server/services/appointmentService.js:138-160 | the trimmed raw phone is added exactly when the pattern matches it; a refusal writes nothing and asks for `phone` again |
| `Booking.DateTimeStepRule` | server/services/appointmentService.js:165-205 | the instant is added exactly when it parses and is strictly after now, with one refusal message for each failure; on success the summary is shown |
| `Booking.ConfirmYesRule` | server/services/appointmentService.js:210-225 | a yes, `y` or `confirm` books exactly one confirmed appointment with the four collected fields, resets the record and replies with the identifier and phone; it fails when a required field is missing |
| `Booking.ConfirmNoRule` | server/services/appointmentService.js:226-233 | a no, `n` or `cancel` resets the record and books nothing |
| `Booking.ConfirmOtherRule` | server/services/appointmentService.js:234-241 | any other answer writes nothing and asks for `confirmation` again |
| `Booking.UnknownStateRule` | server/services/appointmentService.js:48-54 | an unknown state clears the record and replies with no booking in progress |
| `Booking.FreshRecordsWellFormed` | server/services/sessionService.js:20-25 | new and cleared records hold exactly the data their state implies |
| `Booking.TransitionPreservesWellFormed` | server/services/appointmentService.js:94-192 | every step keeps the data a state implies: exactly the fields already collected, each as its step accepted it |
| `Booking.AcceptedNameRequired` | server/models/Appointment.js:22-31 | an accepted name passes the schema's required check and is unchanged by its trim |
| `Booking.AcceptedPhoneRequired` | server/models/Appointment.js:32-36 | an accepted phone passes the schema's required check and is unchanged by its trim |
| `Booking.ConfirmedBookingValidated` | server/services/appointmentService.js:247-256 | on a well-formed record, a yes always books the accepted names, the phone and the instant |
| `AppointmentService.CommittedOnRecord` | server/services/appointmentService.js:21-60 | on an existing record, a turn replies with its step's reply, and it writes and books exactly when that reply is not an error |
| `AppointmentService.StartBooking` | server/services/appointmentService.js:65-77 | it writes and answers what the start step says |
| `AppointmentService.CollectOwnerName` | server/services/appointmentService.js:82-105 | it writes and answers what the owner-name step says |
| `AppointmentService.CollectPetName` | server/services/appointmentService.js:110-133 | it writes and answers what the pet-name step says |
| `AppointmentService.CollectPhone` | server/services/appointmentService.js:138-160 | it writes and answers what the phone step says |
| `AppointmentService.CollectDateTime` | server/services/appointmentService.js:165-205 | it writes and answers what the date step says |
| `AppointmentService.SaveAppointment` | server/services/appointmentService.js:247-264 | it appends the new record, or fails and changes nothing when validation or the unique index refuses it |
| `AppointmentService.HandleConfirmation` | server/services/appointmentService.js:210-242 | it books, clears and answers what the confirmation step says |
| `AppointmentService.ProcessAppointmentFlow` | server/services/appointmentService.js:21-60 | it fails without a change when there is no record, and otherwise does what `Transition` of the record says |
| `Validator.NonBlankSpec` | server/middleware/validator.js:14 | a field passes exactly when it is a string with a character that is not white space; what is passed on is its trimmed form, which is not blank |
| `Validator.SessionCheckedFirst` | server/middleware/validator.js:13-27 | a bad identifier gives `Invalid session ID` whatever the message; a good identifier with a bad message gives `Message is required` |
| `Validator.ValidatedIsStable` | server/middleware/validator.js:29-33 | the trimmed pair passed on passes the check again unchanged and is not blank |
| `Validator.SessionChecksAgree` | server/middleware/validator.js:39-51 | the path check accepts and trims the identifier exactly as the body check does |
| `Validator.ValidatorExamples` | server/middleware/validator.js:42-49 | missing, non-string and blank identifiers are refused; padded values are passed on trimmed |
| `Gemini.HistoryContents` | server/ai/geminiService.js:19-22 | one turn per history message, in order, with its text and role |
| `Gemini.BuildContentsShape` | server/ai/geminiService.js:14-27 | the request has length history + 2: the system prompt as user, then each message in place, with user exactly for the user's messages, then the new message as user |
| `Gemini.AnswerTextSpec` | server/ai/geminiService.js:34-41 | the answer is never empty; it is the sentinel exactly when the chosen text contains it, and the chosen text otherwise |
| `Gemini.EmptyResponseApologises` | server/ai/geminiService.js:34-37 | with no usable text, the answer is the fixed apology |
| `Gemini.AnswerTextIdempotent` | server/ai/geminiService.js:39 | cleaning an answer that is already cleaned leaves it unchanged |
| `Gemini.GenerateResponseSpec` | server/ai/geminiService.js:12-46 | a reply is never empty, contains the rejection sentinel only by being exactly the sentinel, and is the model's own text unchanged when that text is non-empty and free of the sentinel |
| `Gemini.GenerateResponse` | server/ai/geminiService.js:41-44 | a failed call is reported as `Failed to generate AI response`, and only a failed call |
| `Gemini.IsVeterinaryTopicSpec` | server/ai/geminiService.js:48-70 | a failed call and an answer without text both count as yes; otherwise yes exactly when the trimmed answer spells `yes` in any case (three letters y, e, s; the long s counts as s) |
| `Gemini.UpperIsYes` | server/ai/geminiService.js:64 | upper-casing gives `YES` exactly for the three-letter spellings of yes in mixed case |
| `Gemini.ClassifierAnswers` | server/ai/geminiService.js:64-65 | ` yes\n` reads as yes, `No` as no |
| `Gemini.GeminiRegistry.constructor` | server/ai/geminiService.js:73 | the registry starts with no instance |
| `Gemini.GeminiRegistry.Initialize` | server/ai/geminiService.js:75-78 | the first initialisation with a key creates the instance; later calls return it unchanged; a missing or empty key fails and sets nothing |
| `Gemini.GeminiRegistry.Get` | server/ai/geminiService.js:80-83 | it fails with `Gemini not initialized` before initialisation, and returns the instance after |
| `ChatService.AnyKeywordInIff` | server/services/chatService.js:119 | the `some` over keywords holds exactly when some keyword occurs in the text |
| `ChatService.RouteSpec` | server/services/chatService.js:28-38 | a turn goes to the model exactly when the record is idle and the message shows no booking intent; any other state goes to booking whatever the message says |
| `ChatService.KeywordStartsBooking` | server/services/chatService.js:117-120 | a keyword anywhere in the message starts a booking |
| `ChatService.IntentIgnoresCase` | server/services/chatService.js:118 | the intent test gives the same answer on the lower-cased message |
| `ChatService.NoKeyLetterNoBooking` | server/utils/constants.js:30-66 | a message without any of the letters m, v, c, r and n, in either case, never starts a booking |
| `ChatService.SickCatBooks` | server/services/chatService.js:117-120 | `My cat is sick` starts a booking |
| `ChatService.DietQuestionChats` | server/services/chatService.js:117-120 | `What diet is best?` goes to the model |
| `ChatService.PuppyQuestionChats` | server/services/chatService.js:117-120 | `What should I feed a puppy?` goes to the model |
| `ChatService.AiFailureIsAnswered` | server/services/chatService.js:61-77 | a failed model call is answered with the fixed apology and an error field; a success is answered with the text and no booking in progress |
| `ChatService.FlowFailureIsAnswered` | server/services/chatService.js:92-110 | the flow's reply is passed on field by field with the session identifier; a failure is answered with the fresh-start reply, no booking in progress, and an error field |
| `ChatService.HistoryWindowSpec` | server/services/chatService.js:53 | the model is shown the newest ten messages in order, or all of them when there are fewer |
| `ChatService.StepTurnShape` | server/services/chatService.js:84-112 | a booking turn appends its reply to the log and keeps the record's identity, context and creation time; the collection grows only by a created appointment whose identifier was not in use |
| `ChatService.MessageTurnCases` | server/services/chatService.js:28-38 | a booking-bound turn is the booking turn on the record with the user message appended; a model turn answers from the log read before that message |
| `ChatService.TurnLogsBothMessages` | server/services/chatService.js:19-43 | every turn appends exactly the user's message and then one bot message carrying the reply, and answers for the session asked about |
| `ChatService.ModelTurnKeepsBooking` | server/services/chatService.js:48-79 | a model turn changes only the log: state, data, context and appointments are kept |
| `ChatService.FailedFlowStartsFresh` | server/services/chatService.js:96-111 | a failed booking turn leaves the record idle with no data, adds no appointment, and answers with the fresh-start reply and error |
| `ChatService.TransitionCreates` | server/services/appointmentService.js:210-225 | only a confirmation creates an appointment: the collected data under the fresh identifier, confirmed, with the record reset and the identifier in the reply |
| `ChatService.TurnBooksOnlyConfirmed` | server/services/chatService.js:19-43 | a turn adds at most one appointment: a confirmed one, for this session, under a fresh identifier, named in the reply, with the record back to idle |
| `ChatService.TurnKeepsWellFormed` | server/services/chatService.js:19-43 | a record that holds exactly the data its state implies still does after any turn, and so does a new record |
| `ChatService.HandleChatMessage` | server/services/chatService.js:48-79 | it asks the model with the last ten messages of the given history, and logs and returns the answer or the apology |
| `ChatService.HandleAppointmentFlow` | server/services/chatService.js:84-112 | it runs the flow and logs its reply; on failure it clears the booking and logs the fresh-start reply instead |
| `ChatService.ProcessMessage` | server/services/chatService.js:19-43 | the reply, the new session map and the new collection are exactly those of `MessageTurn` on the stores as they were |
| `ChatService.GetConversationHistory` | server/services/chatService.js:127-149 | it returns the record's log, context and creation time, or an empty view for an unknown session |

## Left out

- Mongoose and MongoDB persistence. The stores are in-memory maps and sequences. Database failures, and the error handler that maps them to HTTP responses, are not modelled. So `getConversationHistory` never fails in the model.
- The `uuidv4` default identifier. It is the `newId` parameter. A `newId` already in use fails the save, as the unique index would.
- The chrono-node and `new Date` parsers and the `toLocaleString` formatter. They are the `DateLib` oracles. Dates are integer instants. The `toISOString` and `new Date` round trip through the stored string is taken to be lossless.
- The Google GenAI call. It is the `Generator` parameter. Nothing is assumed about what it answers.
- The schema-level rules of the message subdocument: the text is trimmed and required, and the sender is an enum. A logged message is stored as given.
- The context subdocument's fixed keys (`userId`, `userName`, `petName`, `source`). The context is a map from strings to strings, so keys outside the schema are kept rather than dropped.
- Text.Lower: models `toLowerCase` as ASCII plus the Kelvin sign, the only characters whose lower case is a single ASCII letter; other characters are kept. The dotted capital I, which `toLowerCase` turns into i and a combining dot, is kept too: that can change no keyword match, since every i in a keyword is followed by an ASCII letter, and no comparison with an ASCII answer word.
- Text.Upper: models `toUpperCase` as ASCII plus the long s and the dotless i; characters that upper-case to several letters (the sharp s to `SS`) are kept. None of those expansions is a piece of `YES`, the only word compared against, so the classifier reading is exact.
- Concurrent turns on one session (the read-then-write race). The model runs one turn at a time.
- Console logging, Express wiring, routes, controllers, the browser widget, the SDK loader and the build scripts.
- The catch branches where logging the bot message throws again. A record present at the start of a turn is never removed, so the second `addMessage` cannot fail in the model.
- `isVeterinaryTopic` is modelled but nothing in the core calls it, so it plays no part in routing.
