/** The appointment-booking state machine: one user turn advances a
    session's booking by at most one step, validating the field the step
    collects. */
module Booking {
  import opened Wrappers
  import opened Text
  import opened Constants
  import opened Phone
  import opened Records
  import opened Sessions

  /** The field a reply says the flow is waiting for. */
  datatype Field = OwnerNameField | PetNameField | PhoneField | DateTimeField | ConfirmationField

  /** The name a reply carries for a field. */
  function FieldName(f: Field): string {
    match f
    case OwnerNameField => "ownerName"
    case PetNameField => "petName"
    case PhoneField => "phone"
    case DateTimeField => "dateTime"
    case ConfirmationField => "confirmation"
  }

  /** What the flow answers for one turn. */
  datatype FlowReply = FlowReply(
    reply: string,
    appointmentInProgress: bool,
    currentField: Option<Field>,
    appointmentId: Option<string>)

  /** The date library the flow is given: a natural-language parser, the
      strict `new Date` parser it falls back on, and the formatter of the
      confirmation summary. */
  datatype DateLib = DateLib(
    chrono: string -> Option<Instant>,
    direct: string -> Option<Instant>,
    format: Instant -> string)

  /** What a turn of the flow reads from outside: the clock, the date
      library and the identifier the next appointment would get. */
  datatype FlowEnv = FlowEnv(now: Instant, dates: DateLib, newId: string)

  /** The flow's thrown errors: no record for the session, or the
      appointment could not be created. */
  datatype FlowError = SessionMissing | SaveFailed

  /** The write one step makes to the session record: none, a new state
      with a data patch, or a reset to idle with no data. */
  datatype Write = Keep | Advance(state: BookingState, patch: BookingData) | Reset

  /** Everything one step does: its write, the appointment it creates, its
      reply. */
  datatype StepOutcome = StepOutcome(write: Write, created: Option<Appointment>, reply: FlowReply)

  function ApplyWrite(s: Session, w: Write): Session {
    match w
    case Keep => s
    case Advance(st, patch) => WithBookingState(s, st, patch)
    case Reset => Cleared(s)
  }

  /** What each write leaves the record's state as. */
  lemma ApplyWriteState(s: Session, w: Write)
    ensures w == Keep ==> ApplyWrite(s, w) == s
    ensures w.Advance? ==> CurrentState(ApplyWrite(s, w)) == Some(w.state)
    ensures w == Reset ==> CurrentState(ApplyWrite(s, w)) == Some(Idle) && ApplyWrite(s, w).appointmentData == NoData
  {
  }

  /** The state a record is in, reading an empty name as idle. */
  function CurrentState(s: Session): Option<BookingState> {
    match s.appointmentState
    case InState(b) => Some(b)
    case Unrecognised(name) => if name == "" then Some(Idle) else None
  }

  // ----- validation -----

  predicate IsAsciiLetter(c: char) {
    ('a' <= c <= 'z') || ('A' <= c <= 'Z')
  }

  /** The name rule: at least two characters, all of them ASCII letters or
      white space (the class `[a-zA-Z\s]`). Every character the class admits
      is one UTF-16 unit, so counting characters agrees with JavaScript's
      `length` on every name the class admits. */
  predicate IsValidName(name: string) {
    |name| >= 2 && forall i :: 0 <= i < |name| ==> IsAsciiLetter(name[i]) || IsWhitespace(name[i])
  }

  /** Two letters suffice; one letter or a digit is refused. */
  lemma NameExamples()
    ensures IsValidName("Jo") && IsValidName("Jane Doe")
    ensures !IsValidName("J") && !IsValidName("John3")
  {
    assert !IsAsciiLetter("John3"[4]) && !IsWhitespace("John3"[4]);
  }

  /** `_parseDateTime`: chrono-node's first result if it has one, else
      `new Date`'s, else nothing. */
  function ParseDateTime(dates: DateLib, text: string): (r: Option<Instant>)
    ensures dates.chrono(text).Some? ==> r == dates.chrono(text)
    ensures dates.chrono(text).None? ==> r == dates.direct(text)
  {
    match dates.chrono(text)
    case Some(t) => Some(t)
    case None => dates.direct(text)
  }

  // ----- replies -----

  const StartReply: string := "I'd be happy to help you book an appointment! \U{1F43E}\n\nMay I have the owner's name?"
  const NameRejectedReply: string := InvalidName + " (letters only, please)"
  const PetPromptReply: string := "Great! Now, may I have your phone number?"
  const DatePromptReply: string :=
    "Perfect! When would you like to schedule the appointment?\n\nPlease provide your preferred date and time (e.g., \"Tomorrow at 2pm\" or \"January 15 at 10:30am\")"
  const DateRejectedReply: string :=
    InvalidDateTime + "\n\nPlease try again with a format like \"Tomorrow at 2pm\" or \"January 15 at 10:30am\""
  const PastDateReply: string := "The appointment must be scheduled for a future date and time. Please try again."
  const CancelledReply: string :=
    "No problem! The appointment has been cancelled. Feel free to book again anytime.\n\nIs there anything else I can help you with?"
  const ConfirmPromptReply: string := "Please respond with \"yes\" to confirm the appointment or \"no\" to cancel."
  const UnknownStateReply: string := "Something went wrong. Let's start over. Would you like to book an appointment?"

  function OwnerThanksReply(ownerName: string): string {
    "Thank you, " + ownerName + "! What is your pet's name?"
  }

  function BookedReply(appointmentId: string, phone: string): string {
    "\U{2705} Appointment booked successfully!\n\nAppointment ID: " + appointmentId
    + "\n\nYou will receive a confirmation call/SMS shortly at " + phone
    + ".\n\nIs there anything else I can help you with?"
  }

  /** The booking reply quotes the identifier and the phone. */
  lemma BookedReplyQuotes(appointmentId: string, phone: string)
    ensures Includes(BookedReply(appointmentId, phone), appointmentId)
    ensures Includes(BookedReply(appointmentId, phone), phone)
  {
    var head := "\U{2705} Appointment booked successfully!\n\nAppointment ID: ";
    var mid := "\n\nYou will receive a confirmation call/SMS shortly at ";
    var tail := ".\n\nIs there anything else I can help you with?";
    IncludesSuffix(head, appointmentId);
    IncludesExtend(head + appointmentId, mid, appointmentId);
    IncludesExtend(head + appointmentId + mid, phone, appointmentId);
    IncludesExtend(head + appointmentId + mid + phone, tail, appointmentId);
    IncludesSuffix(head + appointmentId + mid, phone);
    IncludesExtend(head + appointmentId + mid + phone, tail, phone);
  }

  /** A template-literal interpolation of a possibly absent field. */
  function Shown(field: Option<string>): string {
    if field.Some? then field.value else "undefined"
  }

  /** `_buildConfirmationSummary`, given the formatted date. */
  function ConfirmationSummary(data: BookingData, formattedDate: string): string {
    "\U{1F4CB} **Appointment Summary**\n\n"
    + "\U{1F464} Owner: " + Shown(data.ownerName) + "\n"
    + "\U{1F43E} Pet: " + Shown(data.petName) + "\n"
    + "\U{1F4DE} Phone: " + Shown(data.phone) + "\n"
    + "\U{1F4C5} Date & Time: " + formattedDate + "\n\n"
    + "Please confirm by typing \"yes\" or cancel by typing \"no\"."
  }

  // ----- the steps, as values -----

  function Ask(reply: string, field: Field): FlowReply {
    FlowReply(reply, true, Some(field), None)
  }

  function StartStep(): StepOutcome {
    StepOutcome(Advance(CollectOwnerName, NoData), None, Ask(StartReply, OwnerNameField))
  }

  function OwnerNameStep(input: string): StepOutcome {
    var ownerName := Trim(input);
    if !IsValidName(ownerName) then StepOutcome(Keep, None, Ask(NameRejectedReply, OwnerNameField))
    else StepOutcome(Advance(CollectPetName, NoData.(ownerName := Some(ownerName))), None,
                     Ask(OwnerThanksReply(ownerName), PetNameField))
  }

  function PetNameStep(data: BookingData, input: string): StepOutcome {
    var petName := Trim(input);
    if !IsValidName(petName) then StepOutcome(Keep, None, Ask(NameRejectedReply, PetNameField))
    else StepOutcome(Advance(CollectPhone, data.(petName := Some(petName))), None, Ask(PetPromptReply, PhoneField))
  }

  function PhoneStep(data: BookingData, input: string): StepOutcome {
    var phone := Trim(input);
    if !MatchesPhone(phone) then StepOutcome(Keep, None, Ask(InvalidPhone, PhoneField))
    else StepOutcome(Advance(CollectDateTime, data.(phone := Some(phone))), None, Ask(DatePromptReply, DateTimeField))
  }

  function DateTimeStep(data: BookingData, input: string, env: FlowEnv): StepOutcome {
    match ParseDateTime(env.dates, Trim(input))
    case None => StepOutcome(Keep, None, Ask(DateRejectedReply, DateTimeField))
    case Some(t) =>
      if t <= env.now then StepOutcome(Keep, None, Ask(PastDateReply, DateTimeField))
      else StepOutcome(Advance(Confirm, data.(dateTime := Some(t))), None,
                       Ask(ConfirmationSummary(data, env.dates.format(t)), ConfirmationField))
  }

  /** A required string field of the appointment schema: present and, once
      the schema's `trim` has applied, not empty. */
  predicate RequiredText(field: Option<string>) {
    field.Some? && Trim(field.value) != ""
  }

  /** `Appointment.create`: the record, with the schema's trimming applied,
      when every required field is there (the session identifier is not
      trimmed); nothing when validation fails. */
  function NewAppointment(appointmentId: string, sessionId: string, data: BookingData, status: AppointmentStatus): Option<Appointment> {
    if sessionId != "" && RequiredText(data.ownerName) && RequiredText(data.petName)
       && RequiredText(data.phone) && data.dateTime.Some? then
      Some(Appointment(appointmentId, sessionId, Trim(data.ownerName.value), Trim(data.petName.value),
                       Trim(data.phone.value), data.dateTime.value, status))
    else None
  }

  predicate IsYes(response: string) {
    response == "yes" || response == "confirm" || response == "y"
  }

  predicate IsNo(response: string) {
    response == "no" || response == "cancel" || response == "n"
  }

  function ConfirmStep(sessionId: string, data: BookingData, input: string, newId: string): Result<StepOutcome, FlowError> {
    var response := Trim(Lower(input));
    if IsYes(response) then
      match NewAppointment(newId, sessionId, data, Confirmed)
      case None => Err(SaveFailed)
      case Some(a) =>
        Ok(StepOutcome(Reset, Some(a),
                      FlowReply(BookedReply(a.appointmentId, Shown(data.phone)), false, None, Some(a.appointmentId))))
    else if IsNo(response) then
      Ok(StepOutcome(Reset, None, FlowReply(CancelledReply, false, None, None)))
    else
      Ok(StepOutcome(Keep, None, Ask(ConfirmPromptReply, ConfirmationField)))
  }

  function UnknownStateStep(): StepOutcome {
    StepOutcome(Reset, None, FlowReply(UnknownStateReply, false, None, None))
  }

  /** `processAppointmentFlow` on an existing record, as a value: the step
      the record's state selects. */
  function Transition(s: Session, input: string, env: FlowEnv): Result<StepOutcome, FlowError> {
    match CurrentState(s)
    case Some(Idle) => Ok(StartStep())
    case Some(CollectOwnerName) => Ok(OwnerNameStep(input))
    case Some(CollectPetName) => Ok(PetNameStep(s.appointmentData, input))
    case Some(CollectPhone) => Ok(PhoneStep(s.appointmentData, input))
    case Some(CollectDateTime) => Ok(DateTimeStep(s.appointmentData, input, env))
    case Some(Confirm) => ConfirmStep(s.sessionId, s.appointmentData, input, env.newId)
    case _ => Ok(UnknownStateStep())
  }

  // ----- what the steps promise -----

  /** The field a state is waiting for. */
  function PendingField(st: BookingState): Option<Field> {
    match st
    case CollectOwnerName => Some(OwnerNameField)
    case CollectPetName => Some(PetNameField)
    case CollectPhone => Some(PhoneField)
    case CollectDateTime => Some(DateTimeField)
    case Confirm => Some(ConfirmationField)
    case _ => None
  }

  /** The only state a step may move a record to, other than back to idle. */
  function NextState(st: BookingState): Option<BookingState> {
    match st
    case Idle => Some(CollectOwnerName)
    case CollectOwnerName => Some(CollectPetName)
    case CollectPetName => Some(CollectPhone)
    case CollectPhone => Some(CollectDateTime)
    case CollectDateTime => Some(Confirm)
    case _ => None
  }

  /** The order every step keeps, given the state it ran in: a step that
      writes nothing asks again for its state's own field and creates
      nothing; one that advances goes to the next state of the sequence and
      asks for that state's field; one that resets ends the booking, and
      only the confirmation step or an unknown state resets. */
  predicate KeepsOrder(st: Option<BookingState>, o: StepOutcome) {
    match o.write
    case Keep =>
      st.Some? && PendingField(st.value).Some? && o.created == None
      && o.reply.appointmentInProgress && o.reply.currentField == PendingField(st.value) && o.reply.appointmentId.None?
    case Advance(next, _) =>
      st.Some? && NextState(st.value) == Some(next) && o.created == None
      && o.reply.appointmentInProgress && o.reply.currentField == PendingField(next) && o.reply.appointmentId.None?
    case Reset =>
      (st == Some(Confirm) || st == Some(Complete) || st.None?)
      && !o.reply.appointmentInProgress && o.reply.currentField == None
  }

  /** Which step each stored state selects. */
  lemma TransitionSelectsStep(s: Session, input: string, env: FlowEnv)
    ensures CurrentState(s) == Some(Idle) ==> Transition(s, input, env) == Ok(StartStep())
    ensures CurrentState(s) == Some(CollectOwnerName) ==> Transition(s, input, env) == Ok(OwnerNameStep(input))
    ensures CurrentState(s) == Some(CollectPetName) ==> Transition(s, input, env) == Ok(PetNameStep(s.appointmentData, input))
    ensures CurrentState(s) == Some(CollectPhone) ==> Transition(s, input, env) == Ok(PhoneStep(s.appointmentData, input))
    ensures CurrentState(s) == Some(CollectDateTime) ==> Transition(s, input, env) == Ok(DateTimeStep(s.appointmentData, input, env))
    ensures CurrentState(s) == Some(Confirm) ==> Transition(s, input, env) == ConfirmStep(s.sessionId, s.appointmentData, input, env.newId)
    ensures CurrentState(s).None? || CurrentState(s) == Some(Complete) ==> Transition(s, input, env) == Ok(UnknownStateStep())
  {
    match CurrentState(s)
    case Some(Idle) =>
    case Some(CollectOwnerName) =>
    case Some(CollectPetName) =>
    case Some(CollectPhone) =>
    case Some(CollectDateTime) =>
    case Some(Confirm) =>
    case _ =>
  }

  /** The flow fails in one place only: a confirmed booking whose record
      cannot be written, because a field it needs is missing or blank. Every
      other state and answer yields a step. */
  lemma TransitionFailsOnlyOnSave(s: Session, input: string, env: FlowEnv)
    ensures Transition(s, input, env).Err? <==>
              && CurrentState(s) == Some(Confirm)
              && IsYes(Trim(Lower(input)))
              && NewAppointment(env.newId, s.sessionId, s.appointmentData, Confirmed).None?
    ensures Transition(s, input, env).Err? ==> Transition(s, input, env).error == SaveFailed
  {
    match CurrentState(s)
    case Some(Confirm) =>
    case _ =>
  }

  /** Every turn of the flow keeps the order of the steps; no step ever
      moves a record to `complete`. */
  lemma TransitionKeepsOrder(s: Session, input: string, env: FlowEnv)
    requires Transition(s, input, env).Ok?
    ensures KeepsOrder(CurrentState(s), Transition(s, input, env).value)
    ensures Transition(s, input, env).value.write.Advance? ==> Transition(s, input, env).value.write.state != Complete
  {
    match CurrentState(s)
    case Some(Idle) =>
    case Some(CollectOwnerName) => OwnerNameStepInOrder(input);
    case Some(CollectPetName) => PetNameStepInOrder(s.appointmentData, input);
    case Some(CollectPhone) => PhoneStepInOrder(s.appointmentData, input);
    case Some(CollectDateTime) => DateTimeStepInOrder(s.appointmentData, input, env);
    case Some(Confirm) => ConfirmStepInOrder(s.sessionId, s.appointmentData, input, env.newId);
    case _ =>
  }

  lemma OwnerNameStepInOrder(input: string)
    ensures KeepsOrder(Some(CollectOwnerName), OwnerNameStep(input))
  {
    if IsValidName(Trim(input)) {
    }
  }

  lemma PetNameStepInOrder(data: BookingData, input: string)
    ensures KeepsOrder(Some(CollectPetName), PetNameStep(data, input))
  {
    if IsValidName(Trim(input)) {
    }
  }

  lemma PhoneStepInOrder(data: BookingData, input: string)
    ensures KeepsOrder(Some(CollectPhone), PhoneStep(data, input))
  {
    if MatchesPhone(Trim(input)) {
    }
  }

  lemma DateTimeStepInOrder(data: BookingData, input: string, env: FlowEnv)
    ensures KeepsOrder(Some(CollectDateTime), DateTimeStep(data, input, env))
  {
  }

  lemma ConfirmStepInOrder(sessionId: string, data: BookingData, input: string, newId: string)
    requires ConfirmStep(sessionId, data, input, newId).Ok?
    ensures KeepsOrder(Some(Confirm), ConfirmStep(sessionId, data, input, newId).value)
  {
    var response := Trim(Lower(input));
    if IsYes(response) {
    } else if IsNo(response) {
    }
  }

  /** From idle, any input starts a booking: the record moves to
      `collect_owner_name` with its data unchanged, and the reply asks for
      the owner's name. */
  lemma StartStepRule(s: Session)
    ensures var after := ApplyWrite(s, StartStep().write);
            CurrentState(after) == Some(CollectOwnerName) && after.appointmentData == s.appointmentData
    ensures StartStep().created == None
    ensures StartStep().reply == FlowReply(StartReply, true, Some(OwnerNameField), None)
  {
  }

  /** The owner step accepts exactly the valid trimmed names; it records
      the trimmed name, moves on to the pet's name and thanks the owner by
      name; otherwise it asks again and changes nothing. */
  lemma OwnerNameStepRule(s: Session, input: string)
    ensures var o := OwnerNameStep(input);
            var after := ApplyWrite(s, o.write);
            var name := Trim(input);
            && (o.write != Keep <==> IsValidName(name))
            && o.created == None
            && (!IsValidName(name) ==> o.reply == FlowReply(NameRejectedReply, true, Some(OwnerNameField), None))
            && (IsValidName(name) ==>
                  && CurrentState(after) == Some(CollectPetName)
                  && after.appointmentData == s.appointmentData.(ownerName := Some(name))
                  && o.reply == FlowReply(OwnerThanksReply(name), true, Some(PetNameField), None))
  {
  }

  /** The pet step accepts exactly the valid trimmed names and adds the pet
      name to the data collected so far. */
  lemma PetNameStepRule(s: Session, input: string)
    ensures var o := PetNameStep(s.appointmentData, input);
            var after := ApplyWrite(s, o.write);
            var name := Trim(input);
            && (o.write != Keep <==> IsValidName(name))
            && o.created == None
            && (!IsValidName(name) ==> o.reply == FlowReply(NameRejectedReply, true, Some(PetNameField), None))
            && (IsValidName(name) ==>
                  && CurrentState(after) == Some(CollectPhone)
                  && after.appointmentData == s.appointmentData.(petName := Some(name))
                  && o.reply == FlowReply(PetPromptReply, true, Some(PhoneField), None))
  {
  }

  /** The phone step accepts exactly the trimmed inputs the phone pattern
      matches and adds the phone to the data collected so far. */
  lemma PhoneStepRule(s: Session, input: string)
    ensures var o := PhoneStep(s.appointmentData, input);
            var after := ApplyWrite(s, o.write);
            var phone := Trim(input);
            && (o.write != Keep <==> MatchesPhone(phone))
            && o.created == None
            && (!MatchesPhone(phone) ==> o.reply == FlowReply(InvalidPhone, true, Some(PhoneField), None))
            && (MatchesPhone(phone) ==>
                  && CurrentState(after) == Some(CollectDateTime)
                  && after.appointmentData == s.appointmentData.(phone := Some(phone))
                  && o.reply == FlowReply(DatePromptReply, true, Some(DateTimeField), None))
  {
  }

  /** The date step accepts exactly the inputs that parse to an instant
      strictly after now, says which rule a refused input broke, and shows
      the summary of what will be booked. */
  lemma DateTimeStepRule(s: Session, input: string, env: FlowEnv)
    ensures var o := DateTimeStep(s.appointmentData, input, env);
            var after := ApplyWrite(s, o.write);
            var p := ParseDateTime(env.dates, Trim(input));
            && (o.write != Keep <==> p.Some? && p.value > env.now)
            && o.created == None
            && (p.None? ==> o.reply == FlowReply(DateRejectedReply, true, Some(DateTimeField), None))
            && (p.Some? && p.value <= env.now ==> o.reply == FlowReply(PastDateReply, true, Some(DateTimeField), None))
            && (p.Some? && p.value > env.now ==>
                  && CurrentState(after) == Some(Confirm)
                  && after.appointmentData == s.appointmentData.(dateTime := p)
                  && o.reply == FlowReply(ConfirmationSummary(s.appointmentData, env.dates.format(p.value)),
                                          true, Some(ConfirmationField), None))
  {
  }

  /** A yes to the summary (read lower-cased and trimmed) books the
      collected data as a confirmed appointment under the new identifier,
      clears the record and quotes the identifier and the phone; it fails
      when a required field is missing. */
  lemma ConfirmYesRule(s: Session, input: string, newId: string)
    requires IsYes(Trim(Lower(input)))
    ensures var t := ConfirmStep(s.sessionId, s.appointmentData, input, newId);
            var d := s.appointmentData;
            var a := NewAppointment(newId, s.sessionId, d, Confirmed);
            && (a.None? ==> t == Err(SaveFailed))
            && (a.Some? ==>
                  && t.Ok? && t.value.write == Reset && t.value.created == a
                  && a.value == Appointment(newId, s.sessionId, Trim(d.ownerName.value), Trim(d.petName.value),
                                            Trim(d.phone.value), d.dateTime.value, Confirmed)
                  && t.value.reply.appointmentId == Some(newId)
                  && !t.value.reply.appointmentInProgress && t.value.reply.currentField == None
                  && Includes(t.value.reply.reply, newId) && Includes(t.value.reply.reply, d.phone.value))
  {
    var d := s.appointmentData;
    if NewAppointment(newId, s.sessionId, d, Confirmed).Some? {
      BookedReplyQuotes(newId, d.phone.value);
    }
  }

  /** A no to the summary cancels: the record is cleared and nothing is
      booked. */
  lemma ConfirmNoRule(s: Session, input: string, newId: string)
    requires IsNo(Trim(Lower(input)))
    ensures ConfirmStep(s.sessionId, s.appointmentData, input, newId)
            == Ok(StepOutcome(Reset, None, FlowReply(CancelledReply, false, None, None)))
  {
  }

  /** Any other answer asks again and changes nothing. */
  lemma ConfirmOtherRule(s: Session, input: string, newId: string)
    requires !IsYes(Trim(Lower(input))) && !IsNo(Trim(Lower(input)))
    ensures ConfirmStep(s.sessionId, s.appointmentData, input, newId)
            == Ok(StepOutcome(Keep, None, FlowReply(ConfirmPromptReply, true, Some(ConfirmationField), None)))
  {
  }

  /** A record in a state the flow does not know, `complete` included, is
      cleared back to idle, and the reply offers to start over. */
  lemma UnknownStateRule(s: Session)
    ensures ApplyWrite(s, UnknownStateStep().write) == Cleared(s)
    ensures UnknownStateStep().created == None
    ensures UnknownStateStep().reply == FlowReply(UnknownStateReply, false, None, None)
  {
  }

  // ----- what a record holds in each state -----

  /** A name the flow accepted: valid and already trimmed. */
  predicate AcceptedName(name: Option<string>) {
    name.Some? && IsValidName(name.value) && Trim(name.value) == name.value
  }

  /** A phone the flow accepted: matching the pattern and already trimmed. */
  predicate AcceptedPhone(phone: Option<string>) {
    phone.Some? && MatchesPhone(phone.value) && Trim(phone.value) == phone.value
  }

  /** The booking data each state implies: exactly the fields of the steps
      already passed, each as that step accepted it. States the flow does
      not know constrain nothing, since the flow clears them. */
  predicate WellFormed(s: Session) {
    var d := s.appointmentData;
    match CurrentState(s)
    case Some(Idle) => d == NoData
    case Some(CollectOwnerName) => d == NoData
    case Some(CollectPetName) =>
      AcceptedName(d.ownerName) && d.petName.None? && d.phone.None? && d.dateTime.None?
    case Some(CollectPhone) =>
      AcceptedName(d.ownerName) && AcceptedName(d.petName) && d.phone.None? && d.dateTime.None?
    case Some(CollectDateTime) =>
      AcceptedName(d.ownerName) && AcceptedName(d.petName) && AcceptedPhone(d.phone) && d.dateTime.None?
    case Some(Confirm) =>
      AcceptedName(d.ownerName) && AcceptedName(d.petName) && AcceptedPhone(d.phone) && d.dateTime.Some?
    case _ => true
  }

  /** A new record, and a cleared one, are well formed. */
  lemma FreshRecordsWellFormed(sessionId: string, context: map<string, string>, now: Instant, s: Session)
    ensures WellFormed(NewSession(sessionId, context, now))
    ensures WellFormed(Cleared(s))
  {
  }

  lemma OwnerNameStepWellFormed(s: Session, input: string)
    requires WellFormed(s) && CurrentState(s) == Some(CollectOwnerName)
    ensures WellFormed(ApplyWrite(s, OwnerNameStep(input).write))
  {
    TrimIdempotent(input);
  }

  lemma PetNameStepWellFormed(s: Session, input: string)
    requires WellFormed(s) && CurrentState(s) == Some(CollectPetName)
    ensures WellFormed(ApplyWrite(s, PetNameStep(s.appointmentData, input).write))
  {
    TrimIdempotent(input);
  }

  lemma PhoneStepWellFormed(s: Session, input: string)
    requires WellFormed(s) && CurrentState(s) == Some(CollectPhone)
    ensures WellFormed(ApplyWrite(s, PhoneStep(s.appointmentData, input).write))
  {
    TrimIdempotent(input);
  }

  lemma DateTimeStepWellFormed(s: Session, input: string, env: FlowEnv)
    requires WellFormed(s) && CurrentState(s) == Some(CollectDateTime)
    ensures WellFormed(ApplyWrite(s, DateTimeStep(s.appointmentData, input, env).write))
  {
  }

  lemma ConfirmStepWellFormed(s: Session, input: string, newId: string)
    requires WellFormed(s) && CurrentState(s) == Some(Confirm)
    requires ConfirmStep(s.sessionId, s.appointmentData, input, newId).Ok?
    ensures WellFormed(ApplyWrite(s, ConfirmStep(s.sessionId, s.appointmentData, input, newId).value.write))
  {
  }

  /** Every turn keeps a record well formed. */
  lemma TransitionPreservesWellFormed(s: Session, input: string, env: FlowEnv)
    requires WellFormed(s) && Transition(s, input, env).Ok?
    ensures WellFormed(ApplyWrite(s, Transition(s, input, env).value.write))
  {
    match CurrentState(s)
    case Some(Idle) =>
    case Some(CollectOwnerName) => OwnerNameStepWellFormed(s, input);
    case Some(CollectPetName) => PetNameStepWellFormed(s, input);
    case Some(CollectPhone) => PhoneStepWellFormed(s, input);
    case Some(CollectDateTime) => DateTimeStepWellFormed(s, input, env);
    case Some(Confirm) => ConfirmStepWellFormed(s, input, env.newId);
    case _ =>
  }

  /** An accepted name survives the schema's `required` check unchanged. */
  lemma AcceptedNameRequired(name: Option<string>)
    requires AcceptedName(name)
    ensures RequiredText(name) && Trim(name.value) == name.value
  {
  }

  /** So does an accepted phone: the pattern never matches empty text. */
  lemma AcceptedPhoneRequired(phone: Option<string>)
    requires AcceptedPhone(phone)
    ensures RequiredText(phone) && Trim(phone.value) == phone.value
  {
    ParsePhoneSound(phone.value);
  }

  /** On a well-formed record, a yes at the summary always books: the
      appointment holds exactly the accepted owner name, pet name and
      phone and the collected instant. */
  lemma ConfirmedBookingValidated(s: Session, input: string, newId: string)
    requires WellFormed(s) && CurrentState(s) == Some(Confirm) && s.sessionId != ""
    requires IsYes(Trim(Lower(input)))
    ensures var t := ConfirmStep(s.sessionId, s.appointmentData, input, newId);
            var d := s.appointmentData;
            && t.Ok? && t.value.created.Some?
            && t.value.created.value == Appointment(newId, s.sessionId, d.ownerName.value, d.petName.value,
                                                    d.phone.value, d.dateTime.value, Confirmed)
            && IsValidName(t.value.created.value.ownerName) && IsValidName(t.value.created.value.petName)
            && MatchesPhone(t.value.created.value.phone)
  {
    var d := s.appointmentData;
    AcceptedNameRequired(d.ownerName);
    AcceptedNameRequired(d.petName);
    AcceptedPhoneRequired(d.phone);
    var a := Appointment(newId, s.sessionId, d.ownerName.value, d.petName.value,
                         d.phone.value, d.dateTime.value, Confirmed);
    assert NewAppointment(newId, s.sessionId, d, Confirmed) == Some(a);
  }
}
