/** The appointment service: the booking flow run against the session store
    and the appointment collection. Each method does what the step of the
    same name in `Booking` describes, and says so in its postcondition. */
module AppointmentService {
  import opened Wrappers
  import opened Text
  import opened Constants
  import opened Phone
  import opened Records
  import opened Sessions
  import opened Booking

  /** The session map after a step's write. Both store calls touch only the
      record of the session, and leave the map alone when there is none. */
  function Written(sessions: map<string, Session>, sessionId: string, w: Write): map<string, Session> {
    if sessionId in sessions && w != Keep then sessions[sessionId := ApplyWrite(sessions[sessionId], w)]
    else sessions
  }

  /** What a step that books nothing answers: its reply, unless it had to
      move a record that is not there (`updateAppointmentState` throws). */
  function Replied(sessions: map<string, Session>, sessionId: string, o: StepOutcome): Result<FlowReply, FlowError> {
    if o.write.Advance? && sessionId !in sessions then Err(SessionMissing) else Ok(o.reply)
  }

  function Booked(created: Option<Appointment>): seq<Appointment> {
    if created.Some? then [created.value] else []
  }

  /** How a turn whose step evaluates to `t` leaves the two stores and what
      it answers: a failed step changes nothing; a booking under an
      identifier already in use fails as the unique index makes it fail;
      otherwise the step's write and booking take effect. */
  predicate Committed(sessions: map<string, Session>, records: seq<Appointment>, sessionId: string,
                      t: Result<StepOutcome, FlowError>,
                      sessions': map<string, Session>, records': seq<Appointment>, r: Result<FlowReply, FlowError>)
  {
    if t.Err? then
      r == Err(t.error) && sessions' == sessions && records' == records
    else if t.value.created.Some? && t.value.created.value.appointmentId in IdsOf(records) then
      r == Err(SaveFailed) && sessions' == sessions && records' == records
    else
      r == Replied(sessions, sessionId, t.value) && records' == records + Booked(t.value.created)
      && sessions' == (if r.Ok? then Written(sessions, sessionId, t.value.write) else sessions)
  }

  /** What a turn on an existing record answers when its step evaluates to
      `t`. */
  function FlowResult(records: seq<Appointment>, t: Result<StepOutcome, FlowError>): Result<FlowReply, FlowError> {
    if t.Err? then Err(t.error)
    else if t.value.created.Some? && t.value.created.value.appointmentId in IdsOf(records) then Err(SaveFailed)
    else Ok(t.value.reply)
  }

  /** On an existing record a committed turn answers `FlowResult`, and it
      writes and books exactly when that is a reply. */
  lemma CommittedOnRecord(sessions: map<string, Session>, records: seq<Appointment>, sessionId: string,
                          t: Result<StepOutcome, FlowError>,
                          sessions': map<string, Session>, records': seq<Appointment>, r: Result<FlowReply, FlowError>)
    requires sessionId in sessions
    requires Committed(sessions, records, sessionId, t, sessions', records', r)
    ensures r == FlowResult(records, t)
    ensures r.Ok? ==> sessions' == sessions[sessionId := ApplyWrite(sessions[sessionId], t.value.write)]
                      && records' == records + Booked(t.value.created)
    ensures r.Err? ==> sessions' == sessions && records' == records
  {
  }

  /** `_startBooking`. */
  method StartBooking(store: SessionStore, sessionId: string) returns (r: Result<FlowReply, FlowError>)
    requires store.Valid()
    modifies store
    ensures store.Valid()
    ensures store.sessions == Written(old(store.sessions), sessionId, StartStep().write)
    ensures r == Replied(old(store.sessions), sessionId, StartStep())
  {
    var u := store.UpdateAppointmentState(sessionId, BookingState.CollectOwnerName, NoData);
    if u.Err? {
      return Err(SessionMissing);
    }
    r := Ok(FlowReply(StartReply, true, Some(OwnerNameField), None));
  }

  /** `_collectOwnerName`. */
  method CollectOwnerName(store: SessionStore, sessionId: string, userInput: string) returns (r: Result<FlowReply, FlowError>)
    requires store.Valid()
    modifies store
    ensures store.Valid()
    ensures store.sessions == Written(old(store.sessions), sessionId, OwnerNameStep(userInput).write)
    ensures r == Replied(old(store.sessions), sessionId, OwnerNameStep(userInput))
  {
    var ownerName := Trim(userInput);
    if !IsValidName(ownerName) {
      return Ok(FlowReply(NameRejectedReply, true, Some(OwnerNameField), None));
    }
    var u := store.UpdateAppointmentState(sessionId, BookingState.CollectPetName, NoData.(ownerName := Some(ownerName)));
    if u.Err? {
      return Err(SessionMissing);
    }
    r := Ok(FlowReply(OwnerThanksReply(ownerName), true, Some(PetNameField), None));
  }

  /** `_collectPetName`; `appointmentData` is the data read at the start of
      the turn. */
  method CollectPetName(store: SessionStore, sessionId: string, userInput: string, appointmentData: BookingData)
    returns (r: Result<FlowReply, FlowError>)
    requires store.Valid()
    modifies store
    ensures store.Valid()
    ensures store.sessions == Written(old(store.sessions), sessionId, PetNameStep(appointmentData, userInput).write)
    ensures r == Replied(old(store.sessions), sessionId, PetNameStep(appointmentData, userInput))
  {
    var petName := Trim(userInput);
    if !IsValidName(petName) {
      return Ok(FlowReply(NameRejectedReply, true, Some(PetNameField), None));
    }
    var u := store.UpdateAppointmentState(sessionId, BookingState.CollectPhone, appointmentData.(petName := Some(petName)));
    if u.Err? {
      return Err(SessionMissing);
    }
    r := Ok(FlowReply(PetPromptReply, true, Some(PhoneField), None));
  }

  /** `_collectPhone`. */
  method CollectPhone(store: SessionStore, sessionId: string, userInput: string, appointmentData: BookingData)
    returns (r: Result<FlowReply, FlowError>)
    requires store.Valid()
    modifies store
    ensures store.Valid()
    ensures store.sessions == Written(old(store.sessions), sessionId, PhoneStep(appointmentData, userInput).write)
    ensures r == Replied(old(store.sessions), sessionId, PhoneStep(appointmentData, userInput))
  {
    var phone := Trim(userInput);
    if !MatchesPhone(phone) {
      return Ok(FlowReply(InvalidPhone, true, Some(PhoneField), None));
    }
    var u := store.UpdateAppointmentState(sessionId, BookingState.CollectDateTime, appointmentData.(phone := Some(phone)));
    if u.Err? {
      return Err(SessionMissing);
    }
    r := Ok(FlowReply(DatePromptReply, true, Some(DateTimeField), None));
  }

  /** `_collectDateTime`, with the clock and the date library given. */
  method CollectDateTime(store: SessionStore, sessionId: string, userInput: string, appointmentData: BookingData, env: FlowEnv)
    returns (r: Result<FlowReply, FlowError>)
    requires store.Valid()
    modifies store
    ensures store.Valid()
    ensures store.sessions == Written(old(store.sessions), sessionId, DateTimeStep(appointmentData, userInput, env).write)
    ensures r == Replied(old(store.sessions), sessionId, DateTimeStep(appointmentData, userInput, env))
  {
    var parsedDate := ParseDateTime(env.dates, Trim(userInput));
    if parsedDate.None? {
      return Ok(FlowReply(DateRejectedReply, true, Some(DateTimeField), None));
    }
    if parsedDate.value <= env.now {
      return Ok(FlowReply(PastDateReply, true, Some(DateTimeField), None));
    }
    var u := store.UpdateAppointmentState(sessionId, Confirm, appointmentData.(dateTime := parsedDate));
    if u.Err? {
      return Err(SessionMissing);
    }
    var summary := ConfirmationSummary(appointmentData, env.dates.format(parsedDate.value));
    r := Ok(FlowReply(summary, true, Some(ConfirmationField), None));
  }

  /** `_saveAppointment`: creates the record under the given identifier, or
      fails when validation or the unique index refuses it. */
  method SaveAppointment(table: AppointmentTable, sessionId: string, appointmentData: BookingData,
                         newId: string, status: AppointmentStatus := Pending)
    returns (r: Result<Appointment, FlowError>)
    requires table.Valid()
    modifies table
    ensures table.Valid()
    ensures var a := NewAppointment(newId, sessionId, appointmentData, status);
            if a.Some? && newId !in old(table.Ids()) then
              r == Ok(a.value) && table.records == old(table.records) + [a.value]
            else
              r == Err(SaveFailed) && table.records == old(table.records)
  {
    var a := NewAppointment(newId, sessionId, appointmentData, status);
    if a.None? {
      return Err(SaveFailed);
    }
    var stored := table.Insert(a.value);
    if !stored {
      return Err(SaveFailed);
    }
    r := Ok(a.value);
  }

  /** `_handleConfirmation`. */
  method HandleConfirmation(store: SessionStore, table: AppointmentTable, sessionId: string, userInput: string,
                            appointmentData: BookingData, newId: string)
    returns (r: Result<FlowReply, FlowError>)
    requires store.Valid() && table.Valid()
    modifies store, table
    ensures store.Valid() && table.Valid()
    ensures Committed(old(store.sessions), old(table.records), sessionId,
                      ConfirmStep(sessionId, appointmentData, userInput, newId),
                      store.sessions, table.records, r)
  {
    var response := Trim(Lower(userInput));
    if IsYes(response) {
      var saved := SaveAppointment(table, sessionId, appointmentData, newId, Confirmed);
      if saved.Err? {
        return Err(saved.error);
      }
      var _ := store.ClearAppointmentData(sessionId);
      var id := saved.value.appointmentId;
      r := Ok(FlowReply(BookedReply(id, Shown(appointmentData.phone)), false, None, Some(id)));
    } else if IsNo(response) {
      var _ := store.ClearAppointmentData(sessionId);
      r := Ok(FlowReply(CancelledReply, false, None, None));
    } else {
      r := Ok(FlowReply(ConfirmPromptReply, true, Some(ConfirmationField), None));
    }
  }

  /** `processAppointmentFlow`: reads the record and runs the step its state
      selects. Without a record the turn fails and changes nothing;
      otherwise it does what `Transition` of the record says. */
  method ProcessAppointmentFlow(store: SessionStore, table: AppointmentTable, sessionId: string, userInput: string, env: FlowEnv)
    returns (r: Result<FlowReply, FlowError>)
    requires store.Valid() && table.Valid()
    modifies store, table
    ensures store.Valid() && table.Valid()
    ensures sessionId !in old(store.sessions) ==>
              r == Err(SessionMissing) && store.sessions == old(store.sessions) && table.records == old(table.records)
    ensures sessionId in old(store.sessions) ==>
              Committed(old(store.sessions), old(table.records), sessionId,
                        Transition(old(store.sessions)[sessionId], userInput, env),
                        store.sessions, table.records, r)
  {
    var found := store.GetSession(sessionId);
    if found.None? {
      return Err(SessionMissing);
    }
    var session := found.value;
    var appointmentData := session.appointmentData;
    TransitionSelectsStep(session, userInput, env);
    match CurrentState(session)
    case Some(Idle) =>
      r := StartBooking(store, sessionId);
    case Some(CollectOwnerName) =>
      r := CollectOwnerName(store, sessionId, userInput);
    case Some(CollectPetName) =>
      r := CollectPetName(store, sessionId, userInput, appointmentData);
    case Some(CollectPhone) =>
      r := CollectPhone(store, sessionId, userInput, appointmentData);
    case Some(CollectDateTime) =>
      r := CollectDateTime(store, sessionId, userInput, appointmentData, env);
    case Some(Confirm) =>
      r := HandleConfirmation(store, table, sessionId, userInput, appointmentData, env.newId);
    case _ =>
      var _ := store.ClearAppointmentData(sessionId);
      r := Ok(FlowReply(UnknownStateReply, false, None, None));
  }
}
