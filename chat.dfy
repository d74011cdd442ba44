/** The chat service: one user turn. It records the user's message, routes
    the turn to the booking flow or to the AI model, and records exactly one
    bot message, falling back to fixed replies when either fails. */
module ChatService {
  import opened Wrappers
  import opened Text
  import opened Constants
  import opened Records
  import opened Sessions
  import opened Booking
  import AppointmentService
  import opened Gemini

  const AiFallbackReply: string :=
    "I apologize, but I'm having trouble processing your request right now. Please try again in a moment."
  const AiUnavailable: string := "AI service temporarily unavailable"
  const FlowFailedReply: string :=
    "Sorry, something went wrong with the booking process. Let's start fresh. How can I help you?"
  const FlowFailed: string := "Appointment booking error"

  /** How many earlier messages the model is shown. */
  const HistoryWindow: int := 10

  /** What a turn answers. Absent fields are the ones the source leaves out
      of its reply object. */
  datatype ChatReply = ChatReply(
    reply: string,
    sessionId: string,
    appointmentInProgress: Option<bool>,
    currentField: Option<Field>,
    appointmentId: Option<string>,
    error: Option<string>)

  /** What a turn reads from outside: the booking flow's clock, dates and
      fresh identifier, and the model call. */
  datatype TurnEnv = TurnEnv(flow: FlowEnv, generate: Generator)

  // ----- routing -----

  /** `some` over the keywords: does one of them occur in `text`? */
  function AnyKeywordIn(text: string, keywords: seq<string>): bool
    decreases |keywords|
  {
    keywords != [] && (Includes(text, keywords[0]) || AnyKeywordIn(text, keywords[1..]))
  }

  lemma {:induction false} AnyKeywordInIff(text: string, keywords: seq<string>)
    ensures AnyKeywordIn(text, keywords) <==> exists i :: 0 <= i < |keywords| && Includes(text, keywords[i])
  {
    if keywords != [] {
      AnyKeywordInIff(text, keywords[1..]);
      if exists i :: 0 <= i < |keywords[1..]| && Includes(text, keywords[1..][i]) {
        var i :| 0 <= i < |keywords[1..]| && Includes(text, keywords[1..][i]);
        assert Includes(text, keywords[i + 1]);
      }
      if exists i :: 0 <= i < |keywords| && Includes(text, keywords[i]) {
        var i :| 0 <= i < |keywords| && Includes(text, keywords[i]);
        if i > 0 {
          assert Includes(text, keywords[1..][i - 1]);
        }
      }
    }
  }

  /** `_isBookingIntent`: the lower-cased message contains a keyword. */
  predicate IsBookingIntent(message: string) {
    AnyKeywordIn(Lower(message), BookingKeywords)
  }

  /** The stored-state test of `processMessage`: a state name that is
      neither empty nor `idle`. */
  predicate InBookingFlow(st: StoredState) {
    StoredName(st) != "" && StoredName(st) != "idle"
  }

  datatype Route = ToBooking | ToAi

  /** The routing rule of `processMessage`. */
  function RouteOf(s: Session, message: string): Route {
    if InBookingFlow(s.appointmentState) || IsBookingIntent(message) then ToBooking else ToAi
  }

  /** A turn goes to the model exactly when the record is idle (an empty
      stored name included) and the message shows no booking intent; any
      other state, `complete` and unknown names included, keeps the turn in
      the booking flow whatever it says. */
  lemma RouteSpec(s: Session, message: string)
    requires ValidStored(s.appointmentState)
    ensures RouteOf(s, message) == ToAi <==> CurrentState(s) == Some(Idle) && !IsBookingIntent(message)
  {
    match s.appointmentState
    case InState(b) =>
      if b != Idle {
        StateNameParses(b);
        assert ParseState("idle") == Some(Idle);
      }
    case Unrecognised(name) =>
      assert ParseState("idle") == Some(Idle);
  }

  /** A keyword written anywhere in the message, in lower case, starts the
      booking. */
  lemma KeywordStartsBooking(message: string, i: int)
    requires 0 <= i < |BookingKeywords| && Includes(message, BookingKeywords[i])
    ensures IsBookingIntent(message)
  {
    var k := BookingKeywords[i];
    KeywordsAreLowerCase();
    IncludesIff(message, k);
    var j :| OccursAt(message, k, j);
    LowerSlice(message, j, j + |k|);
    assert OccursAt(Lower(message), k, j);
    IncludesIff(Lower(message), k);
    AnyKeywordInIff(Lower(message), BookingKeywords);
  }

  /** Lower-casing is idempotent, so the test ignores case. */
  lemma IntentIgnoresCase(message: string)
    ensures IsBookingIntent(Lower(message)) == IsBookingIntent(message)
  {
    assert Lower(Lower(message)) == Lower(message);
  }

  lemma {:induction false} AnyKeywordInConcat(text: string, a: seq<string>, b: seq<string>)
    ensures AnyKeywordIn(text, a + b) <==> AnyKeywordIn(text, a) || AnyKeywordIn(text, b)
  {
    AnyKeywordInIff(text, a);
    AnyKeywordInIff(text, b);
    AnyKeywordInIff(text, a + b);
    if AnyKeywordIn(text, a + b) {
      var i :| 0 <= i < |a + b| && Includes(text, (a + b)[i]);
      if i < |a| {
        assert (a + b)[i] == a[i];
      } else {
        assert (a + b)[i] == b[i - |a|];
      }
    }
    if AnyKeywordIn(text, a) {
      var i :| 0 <= i < |a| && Includes(text, a[i]);
      assert (a + b)[i] == a[i];
    }
    if AnyKeywordIn(text, b) {
      var i :| 0 <= i < |b| && Includes(text, b[i]);
      assert (a + b)[|a| + i] == b[i];
    }
  }

  /** Every keyword has one of the letters m, v, c, r and n, so a message
      with none of them, in either case, never starts a booking. */
  lemma NoKeyLetterNoBooking(message: string)
    requires 'm' !in message && 'M' !in message && 'v' !in message && 'V' !in message
    requires 'c' !in message && 'C' !in message && 'r' !in message && 'R' !in message
    requires 'n' !in message && 'N' !in message
    ensures !IsBookingIntent(message)
  {
    var q := Lower(message);
    LowerAvoids(message, 'm');
    LowerAvoids(message, 'v');
    LowerAvoids(message, 'c');
    LowerAvoids(message, 'r');
    LowerAvoids(message, 'n');
    DirectKeywordsAbsent(q);
    VisitKeywordsAbsent(q);
    NeedKeywordsAbsent(q);
    CasualKeywordsAbsent(q);
    EmergencyKeywordsAbsent(q);
    AnyKeywordInConcat(q, DirectKeywords, VisitKeywords);
    AnyKeywordInConcat(q, DirectKeywords + VisitKeywords, NeedKeywords);
    AnyKeywordInConcat(q, DirectKeywords + VisitKeywords + NeedKeywords, CasualKeywords);
    AnyKeywordInConcat(q, DirectKeywords + VisitKeywords + NeedKeywords + CasualKeywords, EmergencyKeywords);
  }

  /** A lower-case letter that a string has in neither case is not in its
      lower case (`k` is left out: the Kelvin sign lowers to it). */
  lemma LowerAvoids(s: string, c: char)
    requires 'a' <= c <= 'z' && c != 'k'
    requires c !in s && ((c as int - 32) as char) !in s
    ensures c !in Lower(s)
  {
  }

  lemma DirectKeywordsAbsent(q: string)
    requires 'm' !in q
    ensures !AnyKeywordIn(q, DirectKeywords)
  {
    NotIncludedByChar(q, "book appointment", 'm');
    NotIncludedByChar(q, "schedule appointment", 'm');
    NotIncludedByChar(q, "make appointment", 'm');
    NotIncludedByChar(q, "take appointment", 'm');
    AnyKeywordInIff(q, DirectKeywords);
  }

  lemma VisitKeywordsAbsent(q: string)
    requires 'v' !in q
    ensures !AnyKeywordIn(q, VisitKeywords)
  {
    NotIncludedByChar(q, "book a visit", 'v');
    NotIncludedByChar(q, "schedule visit", 'v');
    NotIncludedByChar(q, "vet visit", 'v');
    NotIncludedByChar(q, "doctor visit", 'v');
    AnyKeywordInIff(q, VisitKeywords);
  }

  lemma NeedKeywordsAbsent(q: string)
    requires 'm' !in q && 'v' !in q
    ensures !AnyKeywordIn(q, NeedKeywords)
  {
    NotIncludedByChar(q, "need appointment", 'm');
    NotIncludedByChar(q, "want appointment", 'm');
    NotIncludedByChar(q, "need a vet", 'v');
    NotIncludedByChar(q, "want a vet", 'v');
    NotIncludedByChar(q, "need to see a vet", 'v');
    NotIncludedByChar(q, "want to see a vet", 'v');
    NotIncludedByChar(q, "appointment booking", 'm');
    AnyKeywordInIff(q, NeedKeywords);
  }

  lemma CasualKeywordsAbsent(q: string)
    requires 'v' !in q && 'c' !in q
    ensures !AnyKeywordIn(q, CasualKeywords)
  {
    NotIncludedByChar(q, "see a vet", 'v');
    NotIncludedByChar(q, "visit vet", 'v');
    NotIncludedByChar(q, "go to vet", 'v');
    NotIncludedByChar(q, "check up", 'c');
    NotIncludedByChar(q, "checkup", 'c');
    AnyKeywordInIff(q, CasualKeywords);
  }

  lemma EmergencyKeywordsAbsent(q: string)
    requires 'c' !in q && 'r' !in q && 'n' !in q
    ensures !AnyKeywordIn(q, EmergencyKeywords)
  {
    NotIncludedByChar(q, "my pet is sick", 'c');
    NotIncludedByChar(q, "my dog is sick", 'c');
    NotIncludedByChar(q, "my cat is sick", 'c');
    NotIncludedByChar(q, "urgent", 'r');
    NotIncludedByChar(q, "emergency", 'r');
    NotIncludedByChar(q, "need help", 'n');
    AnyKeywordInIff(q, EmergencyKeywords);
  }

  /** A sick cat books, whatever the case it is written in. */
  lemma SickCatBooks()
    ensures IsBookingIntent("My cat is sick")
  {
    SickCatLowered("My cat is sick");
    LoweredKeywordBooks("My cat is sick");
  }

  lemma SickCatLowered(m: string)
    requires m == "My cat is sick"
    ensures Lower(m) == "my cat is sick"
  {
    LowerCapitalised(m);
  }

  lemma LoweredKeywordBooks(m: string)
    requires Lower(m) == "my cat is sick"
    ensures IsBookingIntent(m)
  {
    var q := Lower(m);
    IncludesMiddle("", q, "");
    assert "" + q + "" == q;
    assert EmergencyKeywords[2] == q;
    AnyKeywordInIff(q, EmergencyKeywords);
    AnyKeywordInConcat(q, DirectKeywords + VisitKeywords + NeedKeywords + CasualKeywords, EmergencyKeywords);
  }

  /** A question about diet goes to the model. */
  lemma DietQuestionChats()
    ensures !IsBookingIntent("What diet is best?")
  {
    DietQuestionLetters("What diet is best?");
    DietQuestionCapitals("What diet is best?");
    NoKeyLetterNoBooking("What diet is best?");
  }

  lemma DietQuestionLetters(m: string)
    requires m == "What diet is best?"
    ensures 'm' !in m && 'v' !in m && 'c' !in m && 'r' !in m && 'n' !in m
  {
    assert forall i :: 0 <= i < |m| ==> m[i] != 'm' && m[i] != 'v' && m[i] != 'c' && m[i] != 'r' && m[i] != 'n';
  }

  lemma DietQuestionCapitals(m: string)
    requires m == "What diet is best?"
    ensures 'M' !in m && 'V' !in m && 'C' !in m && 'R' !in m && 'N' !in m
  {
    assert forall i :: 0 <= i < |m| ==> m[i] != 'M' && m[i] != 'V' && m[i] != 'C' && m[i] != 'R' && m[i] != 'N';
  }

  /** A question about feeding a puppy goes to the model. */
  lemma PuppyQuestionChats()
    ensures !IsBookingIntent("What should I feed a puppy?")
  {
    PuppyQuestionLetters("What should I feed a puppy?");
    PuppyQuestionCapitals("What should I feed a puppy?");
    NoKeyLetterNoBooking("What should I feed a puppy?");
  }

  lemma PuppyQuestionLetters(m: string)
    requires m == "What should I feed a puppy?"
    ensures 'm' !in m && 'v' !in m && 'c' !in m && 'r' !in m && 'n' !in m
  {
    assert forall i :: 0 <= i < |m| ==> m[i] != 'm' && m[i] != 'v' && m[i] != 'c' && m[i] != 'r' && m[i] != 'n';
  }

  lemma PuppyQuestionCapitals(m: string)
    requires m == "What should I feed a puppy?"
    ensures 'M' !in m && 'V' !in m && 'C' !in m && 'R' !in m && 'N' !in m
  {
    assert forall i :: 0 <= i < |m| ==> m[i] != 'M' && m[i] != 'V' && m[i] != 'C' && m[i] != 'R' && m[i] != 'N';
  }

  // ----- replies -----

  /** The model's answer, or why there is none: no instance yet, or a
      failed call. */
  function AiAnswer(instance: Option<GeminiClient>, generate: Generator, message: string, history: seq<Message>): Result<string, string> {
    if instance.None? then Err(NotInitialized) else GenerateResponse(generate, message, history)
  }

  /** `_handleChatMessage`'s reply: the answer, or the fixed apology with an
      error field. */
  function AiChatReply(sessionId: string, answer: Result<string, string>): ChatReply {
    match answer
    case Ok(text) => ChatReply(text, sessionId, Some(false), None, None, None)
    case Err(_) => ChatReply(AiFallbackReply, sessionId, None, None, None, Some(AiUnavailable))
  }

  /** `_handleAppointmentFlow`'s reply: the flow's reply with the session
      identifier added, or the fresh-start reply with an error field. */
  function FlowChatReply(sessionId: string, result: Result<FlowReply, FlowError>): ChatReply {
    match result
    case Ok(f) => ChatReply(f.reply, sessionId, Some(f.appointmentInProgress), f.currentField, f.appointmentId, None)
    case Err(_) => ChatReply(FlowFailedReply, sessionId, Some(false), None, None, Some(FlowFailed))
  }

  /** A failed model call never reaches the user as a failure: the reply is
      the apology, flagged, and no booking is in progress. */
  lemma AiFailureIsAnswered(sessionId: string, answer: Result<string, string>)
    ensures AiChatReply(sessionId, answer).sessionId == sessionId
    ensures answer.Err? <==> AiChatReply(sessionId, answer).error.Some?
    ensures answer.Err? ==> AiChatReply(sessionId, answer).reply == AiFallbackReply
    ensures answer.Ok? ==> AiChatReply(sessionId, answer).reply == answer.value
                           && AiChatReply(sessionId, answer).appointmentInProgress == Some(false)
  {
  }

  /** A failed booking turn is answered with the fresh-start reply; a
      successful one passes the flow's answer on field by field. */
  lemma FlowFailureIsAnswered(sessionId: string, result: Result<FlowReply, FlowError>)
    ensures var c := FlowChatReply(sessionId, result);
            && c.sessionId == sessionId
            && (result.Err? <==> c.error.Some?)
            && (result.Err? ==> c.reply == FlowFailedReply && c.appointmentInProgress == Some(false))
            && (result.Ok? ==> c.reply == result.value.reply
                               && c.appointmentInProgress == Some(result.value.appointmentInProgress)
                               && c.currentField == result.value.currentField
                               && c.appointmentId == result.value.appointmentId)
  {
  }

  // ----- the turn, as a value -----

  /** What one turn leaves behind: its answer, the session's record and the
      appointment collection. */
  datatype Turn = Turn(reply: ChatReply, session: Session, records: seq<Appointment>)

  /** `_handleChatMessage`'s answer to `message`, asked with the last
      messages of `history`. */
  function ModelReply(sessionId: string, instance: Option<GeminiClient>, message: string, history: seq<Message>, env: TurnEnv): ChatReply {
    AiChatReply(sessionId, AiAnswer(instance, env.generate, message, Last(history, HistoryWindow)))
  }

  /** The model is shown the newest ten messages of the log it is given, in
      order, or the whole log when it is shorter. */
  lemma HistoryWindowSpec(history: seq<Message>)
    ensures var h := Last(history, HistoryWindow);
            && |h| == Min(10, |history|)
            && h == history[|history| - |h|..]
            && (|history| <= 10 ==> h == history)
  {
    LastSpec(history, HistoryWindow);
  }

  /** A booking turn on record `s` whose step evaluates to `t`: the step's
      write, or on failure a reset record; either way the reply is recorded
      as a bot message. */
  function StepTurn(sessionId: string, s: Session, records: seq<Appointment>, t: Result<StepOutcome, FlowError>, now: Instant): Turn {
    var result := AppointmentService.FlowResult(records, t);
    var c := FlowChatReply(sessionId, result);
    var after := if result.Ok? then ApplyWrite(s, t.value.write) else Cleared(s);
    Turn(c, WithMessage(after, Message(Bot, c.reply, now)),
         if result.Ok? then records + AppointmentService.Booked(t.value.created) else records)
  }

  /** `_handleAppointmentFlow` on record `s`, as a value. */
  function BookingTurn(sessionId: string, s: Session, records: seq<Appointment>, message: string, env: TurnEnv): Turn {
    StepTurn(sessionId, s, records, Transition(s, message, env.flow), env.flow.now)
  }

  /** `processMessage` as a value: the record found or made, the user's
      message appended, then the turn the route selects. */
  function MessageTurn(sessions: map<string, Session>, records: seq<Appointment>, instance: Option<GeminiClient>,
                       sessionId: string, message: string, context: map<string, string>, env: TurnEnv): Turn {
    var s0 := GetOrCreated(sessions, sessionId, context, env.flow.now);
    var s1 := WithMessage(s0, Message(User, message, env.flow.now));
    if RouteOf(s0, message) == ToAi then
      var c := ModelReply(sessionId, instance, message, s0.messages, env);
      Turn(c, WithMessage(s1, Message(Bot, c.reply, env.flow.now)), records)
    else BookingTurn(sessionId, s1, records, message, env)
  }

  /** A step's write touches only the booking state and data. */
  lemma ApplyWriteKeepsRest(s: Session, w: Write)
    ensures ApplyWrite(s, w).(appointmentState := s.appointmentState, appointmentData := s.appointmentData) == s
  {
    match w
    case Keep =>
    case Advance(st, patch) =>
    case Reset =>
  }

  /** Whatever the step, a booking turn appends its reply to the log and
      keeps the record's identity, context and creation time; the table
      changes only when a step that creates an appointment succeeds. */
  lemma StepTurnShape(sessionId: string, s: Session, records: seq<Appointment>, t: Result<StepOutcome, FlowError>, now: Instant)
    ensures var turn := StepTurn(sessionId, s, records, t, now);
            && turn.session.messages == s.messages + [Message(Bot, turn.reply.reply, now)]
            && turn.session.sessionId == s.sessionId && turn.session.context == s.context
            && turn.session.createdAt == s.createdAt
            && turn.reply.sessionId == sessionId
            && (turn.records == records
                || (&& t.Ok? && t.value.created.Some?
                    && t.value.created.value.appointmentId !in IdsOf(records)
                    && turn.records == records + [t.value.created.value]
                    && turn.reply.appointmentId == t.value.reply.appointmentId
                    && turn.session == WithMessage(ApplyWrite(s, t.value.write), Message(Bot, turn.reply.reply, now))))
  {
    if t.Ok? {
      ApplyWriteKeepsRest(s, t.value.write);
    }
  }

  /** A booking turn appends the bot's reply to the log it is given. */
  lemma BookingTurnLogs(sessionId: string, s: Session, records: seq<Appointment>, message: string, env: TurnEnv)
    ensures var turn := BookingTurn(sessionId, s, records, message, env);
            && turn.session.messages == s.messages + [Message(Bot, turn.reply.reply, env.flow.now)]
            && turn.reply.sessionId == sessionId
  {
    StepTurnShape(sessionId, s, records, Transition(s, message, env.flow), env.flow.now);
  }

  /** Every turn appends exactly two messages to the log, the user's and then
      the bot's reply, with the turn's time, and answers for the session
      asked about. */
  lemma TurnLogsBothMessages(sessions: map<string, Session>, records: seq<Appointment>, instance: Option<GeminiClient>,
                             sessionId: string, message: string, context: map<string, string>, env: TurnEnv)
    ensures var s0 := GetOrCreated(sessions, sessionId, context, env.flow.now);
            var turn := MessageTurn(sessions, records, instance, sessionId, message, context, env);
            && turn.session.messages == s0.messages + [Message(User, message, env.flow.now), Message(Bot, turn.reply.reply, env.flow.now)]
            && turn.reply.sessionId == sessionId
  {
    var now := env.flow.now;
    var s0 := GetOrCreated(sessions, sessionId, context, now);
    var u := Message(User, message, now);
    var s1 := WithMessage(s0, u);
    var turn := MessageTurn(sessions, records, instance, sessionId, message, context, env);
    var bot := Message(Bot, turn.reply.reply, now);
    MessageTurnCases(sessions, records, instance, sessionId, message, context, env);
    if RouteOf(s0, message) == ToBooking {
      BookingTurnLogs(sessionId, s1, records, message, env);
    }
    AppendedTwice(s0, u, bot);
  }

  lemma AppendedTwice(s: Session, first: Message, second: Message)
    ensures WithMessage(s, first).messages + [second] == s.messages + [first, second]
  {
    assert WithMessage(s, first).messages == s.messages + [first];
  }

  /** A turn answered by the model leaves the booking state, the booking
      data, the context and the appointments as the record had them. */
  lemma ModelTurnKeepsBooking(sessions: map<string, Session>, records: seq<Appointment>, instance: Option<GeminiClient>,
                              sessionId: string, message: string, context: map<string, string>, env: TurnEnv)
    requires RouteOf(GetOrCreated(sessions, sessionId, context, env.flow.now), message) == ToAi
    ensures var s0 := GetOrCreated(sessions, sessionId, context, env.flow.now);
            var turn := MessageTurn(sessions, records, instance, sessionId, message, context, env);
            && turn.session.(messages := s0.messages) == s0
            && turn.records == records
            && turn.reply.currentField.None? && turn.reply.appointmentId.None?
  {
  }

  /** A failed booking turn starts afresh: the record is back to idle with
      no data, and no appointment is added. */
  lemma FailedFlowStartsFresh(sessionId: string, s: Session, records: seq<Appointment>, message: string, env: TurnEnv)
    requires AppointmentService.FlowResult(records, Transition(s, message, env.flow)).Err?
    ensures var turn := BookingTurn(sessionId, s, records, message, env);
            && CurrentState(turn.session) == Some(Idle) && turn.session.appointmentData == NoData
            && turn.records == records
            && turn.reply.reply == FlowFailedReply && turn.reply.error == Some(FlowFailed)
  {
  }

  /** Only a confirmation creates an appointment: the one built from the
      collected data under the fresh identifier, confirmed, reported in the
      reply, with the record reset. */
  lemma TransitionCreates(s: Session, input: string, env: FlowEnv)
    requires Transition(s, input, env).Ok? && Transition(s, input, env).value.created.Some?
    ensures var o := Transition(s, input, env).value;
            && CurrentState(s) == Some(Confirm)
            && Some(o.created.value) == NewAppointment(env.newId, s.sessionId, s.appointmentData, Confirmed)
            && o.write == Reset
            && o.reply.appointmentId == Some(env.newId)
  {
    TransitionSelectsStep(s, input, env);
    match CurrentState(s)
    case Some(Idle) =>
    case Some(CollectOwnerName) =>
    case Some(CollectPetName) =>
    case Some(CollectPhone) =>
    case Some(CollectDateTime) =>
      match ParseDateTime(env.dates, Trim(input)) {
        case None =>
        case Some(_) =>
      }
    case Some(Confirm) =>
    case _ =>
  }

  /** A turn adds at most one appointment: a confirmed one, for this
      session, under the fresh identifier, which was not in use; the reply
      names it and the record is back to idle. Otherwise the collection is
      unchanged. */
  lemma TurnBooksOnlyConfirmed(sessions: map<string, Session>, records: seq<Appointment>, instance: Option<GeminiClient>,
                               sessionId: string, message: string, context: map<string, string>, env: TurnEnv)
    requires Filed(sessions)
    ensures var turn := MessageTurn(sessions, records, instance, sessionId, message, context, env);
            || turn.records == records
            || (exists a: Appointment ::
                  && turn.records == records + [a]
                  && a.appointmentId == env.flow.newId && a.appointmentId !in IdsOf(records)
                  && a.status == Confirmed && a.sessionId == sessionId
                  && turn.reply.appointmentId == Some(a.appointmentId)
                  && CurrentState(turn.session) == Some(Idle))
  {
    var now := env.flow.now;
    var s0 := GetOrCreated(sessions, sessionId, context, now);
    var s1 := WithMessage(s0, Message(User, message, now));
    var turn := MessageTurn(sessions, records, instance, sessionId, message, context, env);
    if RouteOf(s0, message) == ToBooking {
      var t := Transition(s1, message, env.flow);
      StepTurnShape(sessionId, s1, records, t, now);
      if turn.records != records {
        TransitionCreates(s1, message, env.flow);
        ApplyWriteState(s1, Reset);
        assert s1.sessionId == sessionId;
        var a := t.value.created.value;
        assert CurrentState(turn.session) == Some(Idle);
        assert turn.records == records + [a];
      }
    }
  }

  /** The booking invariant survives a whole turn: a record well formed
      before the turn (or a new one) is well formed after it. */
  lemma TurnKeepsWellFormed(sessions: map<string, Session>, records: seq<Appointment>, instance: Option<GeminiClient>,
                            sessionId: string, message: string, context: map<string, string>, env: TurnEnv)
    requires sessionId in sessions ==> WellFormed(sessions[sessionId])
    ensures WellFormed(MessageTurn(sessions, records, instance, sessionId, message, context, env).session)
  {
    var now := env.flow.now;
    var s0 := GetOrCreated(sessions, sessionId, context, now);
    var s1 := WithMessage(s0, Message(User, message, now));
    var turn := MessageTurn(sessions, records, instance, sessionId, message, context, env);
    if sessionId !in sessions {
      FreshRecordsWellFormed(sessionId, context, now, s0);
    } else {
      ContextLeavesWellFormed(sessions[sessionId], context);
    }
    LogLeavesWellFormed(s0, Message(User, message, now));
    MessageTurnCases(sessions, records, instance, sessionId, message, context, env);
    if RouteOf(s0, message) == ToBooking {
      BookingTurnKeepsWellFormed(sessionId, s1, records, message, env);
    } else {
      LogLeavesWellFormed(s1, Message(Bot, turn.reply.reply, now));
    }
  }

  lemma BookingTurnKeepsWellFormed(sessionId: string, s: Session, records: seq<Appointment>, message: string, env: TurnEnv)
    requires WellFormed(s)
    ensures WellFormed(BookingTurn(sessionId, s, records, message, env).session)
  {
    var t := Transition(s, message, env.flow);
    var result := AppointmentService.FlowResult(records, t);
    var after := if result.Ok? then ApplyWrite(s, t.value.write) else Cleared(s);
    if result.Ok? {
      TransitionPreservesWellFormed(s, message, env.flow);
    } else {
      FreshRecordsWellFormed(sessionId, map[], env.flow.now, s);
    }
    LogLeavesWellFormed(after, Message(Bot, BookingTurn(sessionId, s, records, message, env).reply.reply, env.flow.now));
  }

  /** Nor does the context. */
  lemma ContextLeavesWellFormed(s: Session, context: map<string, string>)
    ensures WellFormed(WithContext(s, context)) == WellFormed(s)
  {
    assert CurrentState(WithContext(s, context)) == CurrentState(s);
  }

  /** The log plays no part in the booking invariant. */
  lemma LogLeavesWellFormed(s: Session, m: Message)
    ensures WellFormed(WithMessage(s, m)) == WellFormed(s)
  {
    assert CurrentState(WithMessage(s, m)) == CurrentState(s);
  }

  // ----- the turn -----

  /** `_handleChatMessage`: asks the model about the message with the last
      messages of `history`, and records the answer or the apology. */
  method HandleChatMessage(store: SessionStore, registry: GeminiRegistry, sessionId: string, message: string,
                           history: seq<Message>, env: TurnEnv)
    returns (r: Result<ChatReply, string>)
    requires store.Valid()
    modifies store
    ensures store.Valid()
    ensures sessionId !in old(store.sessions) ==> r == Err(SessionNotFound) && store.sessions == old(store.sessions)
    ensures sessionId in old(store.sessions) ==>
              var c := ModelReply(sessionId, registry.instance, message, history, env);
              r == Ok(c)
              && store.sessions == old(store.sessions)[sessionId := WithMessage(old(store.sessions)[sessionId],
                                                                                Message(Bot, c.reply, env.flow.now))]
  {
    var gemini := registry.Get();
    var recent := Last(history, HistoryWindow);
    var answer := if gemini.Err? then Err(gemini.error) else GenerateResponse(env.generate, message, recent);
    var c := AiChatReply(sessionId, answer);
    var added := store.AddMessage(sessionId, Bot, c.reply, env.flow.now);
    if added.Err? {
      return Err(added.error);
    }
    r := Ok(c);
  }

  /** `_handleAppointmentFlow`: runs the booking flow and records its reply;
      when the flow fails, the booking is cleared and the fresh-start reply
      is recorded instead. */
  method HandleAppointmentFlow(store: SessionStore, table: AppointmentTable, sessionId: string, message: string, env: TurnEnv)
    returns (r: Result<ChatReply, string>)
    requires store.Valid() && table.Valid()
    modifies store, table
    ensures store.Valid() && table.Valid()
    ensures sessionId !in old(store.sessions) ==>
              r == Err(SessionNotFound) && store.sessions == old(store.sessions) && table.records == old(table.records)
    ensures sessionId in old(store.sessions) ==>
              var turn := BookingTurn(sessionId, old(store.sessions)[sessionId], old(table.records), message, env);
              && r == Ok(turn.reply)
              && store.sessions == old(store.sessions)[sessionId := turn.session]
              && table.records == turn.records
  {
    ghost var sessions0 := store.sessions;
    ghost var records0 := table.records;
    var result := AppointmentService.ProcessAppointmentFlow(store, table, sessionId, message, env.flow);
    if sessionId in sessions0 {
      AppointmentService.CommittedOnRecord(sessions0, records0, sessionId, Transition(sessions0[sessionId], message, env.flow),
                        store.sessions, table.records, result);
    }
    if result.Err? {
      var _ := store.ClearAppointmentData(sessionId);
    }
    var c := FlowChatReply(sessionId, result);
    var added := store.AddMessage(sessionId, Bot, c.reply, env.flow.now);
    if added.Err? {
      return Err(added.error);
    }
    r := Ok(c);
  }

  /** `processMessage`: finds or creates the record, records the user's
      message, and routes the turn by the state read before it and by the
      message. The model sees the last ten messages read before this
      turn's message was added. */
  method ProcessMessage(store: SessionStore, table: AppointmentTable, registry: GeminiRegistry, sessionId: string,
                        message: string, context: map<string, string>, env: TurnEnv)
    returns (r: ChatReply)
    requires store.Valid() && table.Valid()
    modifies store, table
    ensures store.Valid() && table.Valid()
    ensures var turn := MessageTurn(old(store.sessions), old(table.records), registry.instance, sessionId, message, context, env);
            && r == turn.reply
            && store.sessions == old(store.sessions)[sessionId := turn.session]
            && table.records == turn.records
  {
    ghost var sessions0 := store.sessions;
    var session := store.GetOrCreateSession(sessionId, context, env.flow.now);
    ghost var s1 := WithMessage(session, Message(User, message, env.flow.now));
    var _ := store.AddMessage(sessionId, User, message, env.flow.now);
    ghost var sessions1 := store.sessions;
    var res;
    if InBookingFlow(session.appointmentState) || IsBookingIntent(message) {
      res := HandleAppointmentFlow(store, table, sessionId, message, env);
    } else {
      res := HandleChatMessage(store, registry, sessionId, message, session.messages, env);
    }
    r := res.value;
    MessageTurnCases(sessions0, old(table.records), registry.instance, sessionId, message, context, env);
    SetTwice(sessions0, sessionId, session, s1);
    SetTwice(sessions0, sessionId, s1, store.sessions[sessionId]);
  }

  /** The two routes of `MessageTurn`, spelled out. */
  lemma MessageTurnCases(sessions: map<string, Session>, records: seq<Appointment>, instance: Option<GeminiClient>,
                         sessionId: string, message: string, context: map<string, string>, env: TurnEnv)
    ensures var s0 := GetOrCreated(sessions, sessionId, context, env.flow.now);
            var s1 := WithMessage(s0, Message(User, message, env.flow.now));
            var turn := MessageTurn(sessions, records, instance, sessionId, message, context, env);
            && (RouteOf(s0, message) == ToBooking ==> turn == BookingTurn(sessionId, s1, records, message, env))
            && (RouteOf(s0, message) == ToAi ==>
                  && turn.reply == ModelReply(sessionId, instance, message, s0.messages, env)
                  && turn.session == WithMessage(s1, Message(Bot, turn.reply.reply, env.flow.now))
                  && turn.records == records)
  {
  }

  lemma SetTwice<K, V>(m: map<K, V>, k: K, a: V, b: V)
    ensures m[k := a][k := b] == m[k := b]
  {
  }

  /** The read of `getConversationHistory`. */
  datatype ConversationView = ConversationView(
    sessionId: string,
    messages: seq<Message>,
    context: map<string, string>,
    createdAt: Option<Instant>)

  /** `getConversationHistory`: the record's log and context, or an empty
      view for an unknown session; either way the view names the session
      asked for. */
  method GetConversationHistory(store: SessionStore, sessionId: string) returns (v: ConversationView)
    requires store.Valid()
    ensures v.sessionId == sessionId
    ensures sessionId !in store.sessions ==> v == ConversationView(sessionId, [], map[], None)
    ensures sessionId in store.sessions ==>
              var s := store.sessions[sessionId];
              v.messages == s.messages && v.context == s.context && v.createdAt == Some(s.createdAt)
  {
    var found := store.GetSession(sessionId);
    if found.None? {
      return ConversationView(sessionId, [], map[], None);
    }
    var s := found.value;
    v := ConversationView(s.sessionId, s.messages, s.context, Some(s.createdAt));
  }
}
