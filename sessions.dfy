/** The session store: one conversation record per session identifier, kept
    in memory in place of the document database. */
module Sessions {
  import opened Wrappers
  import opened Constants
  import opened Records

  const SessionNotFound: string := "Session not found"

  /** The record created for a session seen for the first time. */
  function NewSession(sessionId: string, context: map<string, string>, now: Instant): (s: Session)
    ensures s.sessionId == sessionId && s.messages == [] && s.context == context
    ensures s.appointmentState == InState(Idle) && s.appointmentData == NoData
  {
    Session(sessionId, [], context, InState(Idle), NoData, now)
  }

  /** The context update of an existing session: a non-empty context is
      spread over the stored one, an empty one leaves it alone. */
  function MergeContext(base: map<string, string>, context: map<string, string>): (r: map<string, string>)
    ensures r.Keys == base.Keys + context.Keys
    ensures forall k :: k in context ==> r[k] == context[k]
    ensures forall k :: k in base && k !in context ==> r[k] == base[k]
  {
    if |context| == 0 then base else base + context
  }

  /** `getOrCreateSession` on an existing record. */
  function WithContext(s: Session, context: map<string, string>): (r: Session)
    ensures r.context == MergeContext(s.context, context)
    ensures r.(context := s.context) == s
  {
    s.(context := MergeContext(s.context, context))
  }

  /** The record `getOrCreateSession` returns and stores. */
  function GetOrCreated(sessions: map<string, Session>, sessionId: string, context: map<string, string>, now: Instant): Session {
    if sessionId in sessions then WithContext(sessions[sessionId], context)
    else NewSession(sessionId, context, now)
  }

  /** `addMessage`: the message goes at the end of the log, nothing else
      changes. */
  function WithMessage(s: Session, m: Message): (r: Session)
    ensures |r.messages| == |s.messages| + 1
    ensures r.messages[..|s.messages|] == s.messages && r.messages[|s.messages|] == m
    ensures r.(messages := s.messages) == s
  {
    s.(messages := s.messages + [m])
  }

  /** `updateAppointmentState`: a new state and the patch spread over the
      stored booking data. */
  function WithBookingState(s: Session, state: BookingState, patch: BookingData): (r: Session)
    ensures r.appointmentState == InState(state)
    ensures r.appointmentData == Merge(s.appointmentData, patch)
    ensures r.(appointmentState := s.appointmentState, appointmentData := s.appointmentData) == s
  {
    s.(appointmentState := InState(state), appointmentData := Merge(s.appointmentData, patch))
  }

  /** `clearAppointmentData`: back to idle with no booking data. */
  function Cleared(s: Session): (r: Session)
    ensures r.appointmentState == InState(Idle) && r.appointmentData == NoData
    ensures r.(appointmentState := s.appointmentState, appointmentData := s.appointmentData) == s
  {
    s.(appointmentState := InState(Idle), appointmentData := NoData)
  }

  /** Clearing twice is clearing once. */
  lemma ClearIdempotent(s: Session)
    ensures Cleared(Cleared(s)) == Cleared(s)
  {
  }

  function Min(a: int, b: int): int {
    if a <= b then a else b
  }

  /** `messages.slice(-n)`. For a positive `n` that is the last `n`
      messages, or all of them when there are fewer; `slice(-0)` is
      `slice(0)`, so `n == 0` gives the whole log; a negative `n` drops
      the first `-n` messages. */
  function Last<T>(s: seq<T>, n: int): seq<T> {
    var start := -n;
    var k := if start < 0 then (if |s| + start < 0 then 0 else |s| + start) else Min(start, |s|);
    s[k..]
  }

  /** What the slice keeps: the newest `n` messages, in order, for a
      positive `n`; everything for zero; all but the oldest `-n` for a
      negative `n`. */
  lemma LastSpec<T>(s: seq<T>, n: int)
    ensures n >= 1 ==> |Last(s, n)| == Min(n, |s|) && Last(s, n) == s[|s| - |Last(s, n)|..]
    ensures n == 0 ==> Last(s, n) == s
    ensures n < 0 ==> Last(s, n) == s[Min(-n, |s|)..]
  {
  }

  /** Every stored record is filed under its own identifier. */
  ghost predicate Filed(sessions: map<string, Session>) {
    forall id :: id in sessions ==> sessions[id].sessionId == id
  }

  class SessionStore {
    var sessions: map<string, Session>

    ghost predicate Valid()
      reads this
    {
      Filed(sessions)
    }

    constructor ()
      ensures Valid() && sessions == map[]
    {
      sessions := map[];
    }

    /** Finds the record or creates it; at most one record per identifier. */
    method GetOrCreateSession(sessionId: string, context: map<string, string>, now: Instant) returns (s: Session)
      requires Valid()
      modifies this
      ensures Valid()
      ensures sessions == old(sessions)[sessionId := s]
      ensures s == GetOrCreated(old(sessions), sessionId, context, now)
      ensures sessions.Keys == old(sessions).Keys + {sessionId}
    {
      if sessionId !in sessions {
        s := NewSession(sessionId, context, now);
        sessions := sessions[sessionId := s];
      } else {
        s := sessions[sessionId];
        if |context| > 0 {
          s := s.(context := s.context + context);
          sessions := sessions[sessionId := s];
        }
      }
    }

    /** Appends one message; fails without a change for an unknown session. */
    method AddMessage(sessionId: string, sender: Sender, text: string, now: Instant) returns (r: Result<Session, string>)
      requires Valid()
      modifies this
      ensures Valid()
      ensures sessionId !in old(sessions) ==> r == Err(SessionNotFound) && sessions == old(sessions)
      ensures sessionId in old(sessions) ==>
                r == Ok(WithMessage(old(sessions)[sessionId], Message(sender, text, now)))
                && sessions == old(sessions)[sessionId := r.value]
    {
      if sessionId !in sessions {
        return Err(SessionNotFound);
      }
      var s := sessions[sessionId];
      s := s.(messages := s.messages + [Message(sender, text, now)]);
      sessions := sessions[sessionId := s];
      r := Ok(s);
    }

    /** The last `limit` messages (a JavaScript default of 50), or none for
      an unknown session. */
    method GetHistory(sessionId: string, limit: int := 50) returns (msgs: seq<Message>)
      ensures sessionId !in sessions ==> msgs == []
      ensures sessionId in sessions ==> msgs == Last(sessions[sessionId].messages, limit)
    {
      if sessionId !in sessions {
        return [];
      }
      msgs := Last(sessions[sessionId].messages, limit);
    }

    /** Sets the booking state and spreads the patch over the booking data;
      fails without a change for an unknown session. */
    method UpdateAppointmentState(sessionId: string, state: BookingState, patch: BookingData) returns (r: Result<Session, string>)
      requires Valid()
      modifies this
      ensures Valid()
      ensures sessionId !in old(sessions) ==> r == Err(SessionNotFound) && sessions == old(sessions)
      ensures sessionId in old(sessions) ==>
                r == Ok(WithBookingState(old(sessions)[sessionId], state, patch))
                && sessions == old(sessions)[sessionId := r.value]
    {
      if sessionId !in sessions {
        return Err(SessionNotFound);
      }
      var s := sessions[sessionId];
      s := s.(appointmentState := InState(state), appointmentData := Merge(s.appointmentData, patch));
      sessions := sessions[sessionId := s];
      r := Ok(s);
    }

    /** The record, if there is one. */
    method GetSession(sessionId: string) returns (r: Option<Session>)
      ensures r.Some? <==> sessionId in sessions
      ensures r.Some? ==> r.value == sessions[sessionId]
    {
      r := if sessionId in sessions then Some(sessions[sessionId]) else None;
    }

    /** Back to idle with no booking data; nothing happens for an unknown
      session. */
    method ClearAppointmentData(sessionId: string) returns (r: Option<Session>)
      requires Valid()
      modifies this
      ensures Valid()
      ensures sessionId !in old(sessions) ==> r == None && sessions == old(sessions)
      ensures sessionId in old(sessions) ==>
                r == Some(Cleared(old(sessions)[sessionId])) && sessions == old(sessions)[sessionId := r.value]
    {
      if sessionId in sessions {
        var s := sessions[sessionId];
        s := s.(appointmentState := InState(Idle), appointmentData := NoData);
        sessions := sessions[sessionId := s];
        r := Some(s);
      } else {
        r := None;
      }
    }
  }
}
