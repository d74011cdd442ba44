/** The persisted record shapes: a conversation (one per session) with its
    message log and booking progress, and a booked appointment. */
module Records {
  import opened Wrappers
  import opened Constants

  /** Instants are integers (milliseconds of the epoch). */
  type Instant = int

  /** One logged message. */
  datatype Message = Message(sender: Sender, text: string, timestamp: Instant)

  /** The booking fields collected so far; a field is absent until its step
      accepts it. */
  datatype BookingData = BookingData(
    ownerName: Option<string>,
    petName: Option<string>,
    phone: Option<string>,
    dateTime: Option<Instant>)

  const NoData := BookingData(None, None, None, None)

  /** The object spread `{ ...base, ...patch }`: the fields the patch holds
      replace those of the base, the others are kept. */
  function Merge(base: BookingData, patch: BookingData): (r: BookingData)
    ensures r.ownerName == if patch.ownerName.Some? then patch.ownerName else base.ownerName
    ensures r.petName == if patch.petName.Some? then patch.petName else base.petName
    ensures r.phone == if patch.phone.Some? then patch.phone else base.phone
    ensures r.dateTime == if patch.dateTime.Some? then patch.dateTime else base.dateTime
  {
    BookingData(
      if patch.ownerName.Some? then patch.ownerName else base.ownerName,
      if patch.petName.Some? then patch.petName else base.petName,
      if patch.phone.Some? then patch.phone else base.phone,
      if patch.dateTime.Some? then patch.dateTime else base.dateTime)
  }

  /** The laws of the spread: the empty patch is neutral on both sides,
      spreading the same patch twice changes nothing more, successive
      spreads compose into one, and a patch holding every field replaces
      the base outright. */
  lemma MergeLaws(base: BookingData, patch: BookingData, later: BookingData)
    ensures Merge(base, NoData) == base
    ensures Merge(NoData, patch) == patch
    ensures Merge(Merge(base, patch), patch) == Merge(base, patch)
    ensures Merge(Merge(base, patch), later) == Merge(base, Merge(patch, later))
    ensures patch.ownerName.Some? && patch.petName.Some? && patch.phone.Some? && patch.dateTime.Some?
            ==> Merge(base, patch) == patch
  {
  }

  /** A stored booking-state name, read: one of the seven states, or a
      string that names none of them. */
  datatype StoredState = InState(state: BookingState) | Unrecognised(name: string)

  /** A read state is well formed when an unrecognised name really names no
      state. */
  predicate ValidStored(st: StoredState) {
    st.Unrecognised? ==> ParseState(st.name).None?
  }

  /** Reading the stored field. */
  function ReadStored(name: string): (r: StoredState)
    ensures ValidStored(r)
  {
    match ParseState(name)
    case Some(b) => InState(b)
    case None => Unrecognised(name)
  }

  /** The string the field holds. */
  function StoredName(st: StoredState): string {
    match st
    case InState(b) => StateName(b)
    case Unrecognised(name) => name
  }

  /** Reading is lossless both ways, so records may hold the read form. */
  lemma ReadStoredRoundTrip(name: string, st: StoredState)
    ensures StoredName(ReadStored(name)) == name
    ensures ValidStored(st) ==> ReadStored(StoredName(st)) == st
  {
    if st.InState? {
      StateNameParses(st.state);
    }
  }

  /** The conversation record of one session. `appointmentState` is the
      stored state name in its read form. */
  datatype Session = Session(
    sessionId: string,
    messages: seq<Message>,
    context: map<string, string>,
    appointmentState: StoredState,
    appointmentData: BookingData,
    createdAt: Instant)

  /** A booked appointment. */
  datatype Appointment = Appointment(
    appointmentId: string,
    sessionId: string,
    ownerName: string,
    petName: string,
    phone: string,
    dateTime: Instant,
    status: AppointmentStatus)

  /** The identifiers in use in a list of appointments. */
  function IdsOf(records: seq<Appointment>): set<string> {
    set i | 0 <= i < |records| :: records[i].appointmentId
  }

  /** The appointment collection. Identifiers are unique. */
  class AppointmentTable {
    var records: seq<Appointment>

    ghost predicate Valid()
      reads this
    {
      forall i, j :: 0 <= i < j < |records| ==> records[i].appointmentId != records[j].appointmentId
    }

    function Ids(): set<string>
      reads this
    {
      IdsOf(records)
    }

    constructor ()
      ensures Valid() && records == []
    {
      records := [];
    }

    /** Stores a record, unless its identifier is in use already: the
        unique index then refuses the write. */
    method Insert(a: Appointment) returns (stored: bool)
      requires Valid()
      modifies this
      ensures Valid()
      ensures stored <==> a.appointmentId !in old(Ids())
      ensures records == if stored then old(records) + [a] else old(records)
    {
      if a.appointmentId in Ids() {
        return false;
      }
      records := records + [a];
      assert forall i :: 0 <= i < |old(records)| ==> records[i] == old(records)[i];
      assert forall i :: 0 <= i < |old(records)| ==> records[i].appointmentId in old(Ids());
      stored := true;
    }
  }
}
