/** The application-wide enumerations, keyword table and fixed texts. */
module Constants {
  import opened Wrappers
  import opened Text

  /** Who wrote a logged message; stored as 'user' or 'bot'. */
  datatype Sender = User | Bot

  function SenderName(s: Sender): string {
    match s
    case User => "user"
    case Bot => "bot"
  }

  /** The booking states. `Complete` is declared but no transition enters it. */
  datatype BookingState =
    | Idle
    | CollectOwnerName
    | CollectPetName
    | CollectPhone
    | CollectDateTime
    | Confirm
    | Complete

  /** The string under which each state is stored in a session record. */
  function StateName(s: BookingState): string {
    match s
    case Idle => "idle"
    case CollectOwnerName => "collect_owner_name"
    case CollectPetName => "collect_pet_name"
    case CollectPhone => "collect_phone"
    case CollectDateTime => "collect_datetime"
    case Confirm => "confirm"
    case Complete => "complete"
  }

  /** Reads a stored state name back; any other string is no state at all.
      Since the result is unique, the seven names are distinct. */
  function ParseState(name: string): (r: Option<BookingState>)
    ensures forall s :: r == Some(s) <==> StateName(s) == name
  {
    if name == "idle" then Some(Idle)
    else if name == "collect_owner_name" then Some(CollectOwnerName)
    else if name == "collect_pet_name" then Some(CollectPetName)
    else if name == "collect_phone" then Some(CollectPhone)
    else if name == "collect_datetime" then Some(CollectDateTime)
    else if name == "confirm" then Some(Confirm)
    else if name == "complete" then Some(Complete)
    else None
  }

  /** Every state reads back from its stored name. */
  lemma StateNameParses(st: BookingState)
    ensures ParseState(StateName(st)) == Some(st)
  {
  }

  /** Status of a persisted appointment. */
  datatype AppointmentStatus = Pending | Confirmed | Cancelled

  function StatusName(s: AppointmentStatus): string {
    match s
    case Pending => "pending"
    case Confirmed => "confirmed"
    case Cancelled => "cancelled"
  }

  /** Phrases whose presence in a message starts the booking flow, in the
      source's five groups. */
  const BookingKeywords: seq<string> :=
    DirectKeywords + VisitKeywords + NeedKeywords + CasualKeywords + EmergencyKeywords

  const DirectKeywords: seq<string> :=
    ["book appointment", "schedule appointment", "make appointment", "take appointment"]
  const VisitKeywords: seq<string> :=
    ["book a visit", "schedule visit", "vet visit", "doctor visit"]
  const NeedKeywords: seq<string> :=
    ["need appointment", "want appointment", "need a vet", "want a vet",
     "need to see a vet", "want to see a vet", "appointment booking"]
  const CasualKeywords: seq<string> :=
    ["see a vet", "visit vet", "go to vet", "check up", "checkup"]
  const EmergencyKeywords: seq<string> :=
    ["my pet is sick", "my dog is sick", "my cat is sick", "urgent", "emergency", "need help"]

  /** Text made of the letters a-z and spaces only. */
  predicate PlainLowerText(s: string) {
    forall j :: 0 <= j < |s| ==> 'a' <= s[j] <= 'z' || s[j] == ' '
  }

  predicate AllPlainLower(ks: seq<string>) {
    forall i :: 0 <= i < |ks| ==> PlainLowerText(ks[i])
  }

  lemma AllPlainLowerConcat(a: seq<string>, b: seq<string>)
    requires AllPlainLower(a) && AllPlainLower(b)
    ensures AllPlainLower(a + b)
  {
    assert forall i :: 0 <= i < |a + b| ==> (a + b)[i] == (if i < |a| then a[i] else b[i - |a|]);
  }

  lemma DirectKeywordsPlain() ensures AllPlainLower(DirectKeywords) {
    assert PlainLowerText("book appointment");
    assert PlainLowerText("schedule appointment");
    assert PlainLowerText("make appointment");
    assert PlainLowerText("take appointment");
  }
  lemma VisitKeywordsPlain() ensures AllPlainLower(VisitKeywords) {
    assert PlainLowerText("book a visit");
    assert PlainLowerText("schedule visit");
    assert PlainLowerText("vet visit");
    assert PlainLowerText("doctor visit");
  }
  lemma NeedKeywordsPlain() ensures AllPlainLower(NeedKeywords) {
    assert PlainLowerText("need appointment");
    assert PlainLowerText("want appointment");
    assert PlainLowerText("need a vet");
    assert PlainLowerText("want a vet");
    assert PlainLowerText("need to see a vet");
    assert PlainLowerText("want to see a vet");
    assert PlainLowerText("appointment booking");
  }
  lemma CasualKeywordsPlain() ensures AllPlainLower(CasualKeywords) {
    assert PlainLowerText("see a vet");
    assert PlainLowerText("visit vet");
    assert PlainLowerText("go to vet");
    assert PlainLowerText("check up");
    assert PlainLowerText("checkup");
  }
  lemma EmergencyKeywordsPlain() ensures AllPlainLower(EmergencyKeywords) {
    assert PlainLowerText("my pet is sick");
    assert PlainLowerText("my dog is sick");
    assert PlainLowerText("my cat is sick");
    assert PlainLowerText("urgent");
    assert PlainLowerText("emergency");
    assert PlainLowerText("need help");
  }

  /** Every keyword is written in lower case, so matching it against a
      lower-cased message ignores case. */
  lemma KeywordsAreLowerCase()
    ensures |BookingKeywords| == 26
    ensures forall i :: 0 <= i < |BookingKeywords| ==> Lower(BookingKeywords[i]) == BookingKeywords[i]
  {
    DirectKeywordsPlain();
    VisitKeywordsPlain();
    NeedKeywordsPlain();
    CasualKeywordsPlain();
    EmergencyKeywordsPlain();
    AllPlainLowerConcat(DirectKeywords, VisitKeywords);
    AllPlainLowerConcat(DirectKeywords + VisitKeywords, NeedKeywords);
    AllPlainLowerConcat(DirectKeywords + VisitKeywords + NeedKeywords, CasualKeywords);
    AllPlainLowerConcat(DirectKeywords + VisitKeywords + NeedKeywords + CasualKeywords, EmergencyKeywords);
    forall i | 0 <= i < |BookingKeywords|
      ensures Lower(BookingKeywords[i]) == BookingKeywords[i]
    {
      LowerOfLowerCase(BookingKeywords[i]);
    }
  }

  /** The persona and topic restriction sent as the first turn of every
      AI conversation. */
  const VeterinarySystemPrompt: string :=
    "You are a helpful veterinary assistant chatbot. You ONLY answer questions related to:\n"
    + "- Pet health and wellness\n"
    + "- Pet food, diet, and nutrition\n"
    + "- Vaccinations and preventive care\n"
    + "- Illness symptoms, diagnosis, and treatment\n"
    + "- General pet care and behavior\n"
    + "- Pet safety and emergency care\n"
    + "\n"
    + "IMPORTANT RULES:\n"
    + "1. If a user asks about anything NOT related to veterinary topics, respond EXACTLY with: \""
    + NonVetRejection + "\"\n"
    + "2. Be helpful, caring, and professional\n"
    + "3. If someone needs urgent care, advise them to visit a veterinarian immediately\n"
    + "4. Keep responses concise and actionable\n"
    + "5. Never provide medical diagnoses - only general guidance\n"
    + "\n"
    + "Remember: You are NOT a replacement for professional veterinary care."

  /** The topic-rejection sentinel. */
  const NonVetRejection: string := "I can only help with veterinary-related questions."

  const InvalidSession: string := "Invalid session ID"
  const InvalidMessage: string := "Message is required"
  const InvalidPhone: string := "Please provide a valid phone number (at least 10 digits)"
  const InvalidDateTime: string := "Please provide a valid future date and time"
  const GeminiError: string := "AI service temporarily unavailable. Please try again."
  const DatabaseError: string := "Database error occurred. Please try again."
  const InvalidName: string := "Please provide a valid name"
}
