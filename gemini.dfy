/** The Gemini adapter: how a request to the model is put together, how its
    answer is cleaned up, how the topic classifier's answer is read, and the
    single shared instance. The model call itself is a parameter. */
module Gemini {
  import opened Wrappers
  import opened Text
  import opened Constants
  import opened Records

  datatype Role = UserRole | ModelRole

  /** One turn of the request: a role and its single text part. */
  datatype Content = Content(role: Role, text: string)

  /** What the client hands back: the `text` shortcut and the text of the
      first part of the first candidate, each possibly absent. */
  datatype GenResponse = GenResponse(text: Option<string>, candidateText: Option<string>)

  /** The model call: the contents in, a response or a failure out. */
  type Generator = seq<Content> -> Result<GenResponse, string>

  const ModelName: string := "gemini-2.5-flash"
  const EmptyAnswer: string := "I'm sorry, I couldn't generate a response."
  const GenerationFailed: string := "Failed to generate AI response"
  const ApiKeyMissing: string := "Gemini API key missing"
  const NotInitialized: string := "Gemini not initialized"

  /** Only messages sent by the user speak as the user. */
  function RoleOf(sender: Sender): Role {
    if sender == User then UserRole else ModelRole
  }

  /** The history, one turn per message, in order. */
  function HistoryContents(history: seq<Message>): (r: seq<Content>)
    ensures |r| == |history|
    ensures forall i :: 0 <= i < |history| ==> r[i] == Content(RoleOf(history[i].sender), history[i].text)
  {
    if history == [] then []
    else [Content(RoleOf(history[0].sender), history[0].text)] + HistoryContents(history[1..])
  }

  /** The request: the system prompt as a user turn, then the history, then
      the new message as a user turn. */
  function BuildContents(userMessage: string, history: seq<Message>): seq<Content> {
    [Content(UserRole, VeterinarySystemPrompt)] + HistoryContents(history) + [Content(UserRole, userMessage)]
  }

  /** The request has one turn more than the history at each end, and keeps
      every history message in its place with its role. */
  lemma BuildContentsShape(userMessage: string, history: seq<Message>)
    ensures var c := BuildContents(userMessage, history);
            && |c| == |history| + 2
            && c[0] == Content(UserRole, VeterinarySystemPrompt)
            && c[|c| - 1] == Content(UserRole, userMessage)
            && forall i :: 0 <= i < |history| ==>
                 c[i + 1].text == history[i].text
                 && (c[i + 1].role == UserRole <==> history[i].sender == User)
  {
    FramedShape(Content(UserRole, VeterinarySystemPrompt), HistoryContents(history), Content(UserRole, userMessage));
  }

  lemma FramedShape(first: Content, middle: seq<Content>, last: Content)
    ensures var c := [first] + middle + [last];
            |c| == |middle| + 2 && c[0] == first && c[|c| - 1] == last
            && forall i :: 0 <= i < |middle| ==> c[i + 1] == middle[i]
  {
  }

  /** The JavaScript `a || b` on optional text: empty text counts as absent. */
  function OrElse(a: Option<string>, b: string): string {
    if a.Some? && a.value != "" then a.value else b
  }

  /** The answer text: the `text` shortcut, else the first candidate's
      text, else the apology; an answer mentioning the rejection sentinel
      anywhere becomes exactly the sentinel. */
  function AnswerText(response: GenResponse): string {
    var text := OrElse(response.text, OrElse(response.candidateText, EmptyAnswer));
    if Includes(text, NonVetRejection) then NonVetRejection else text
  }

  /** What the clean-up promises: the answer is never empty; it is the
      sentinel exactly when the chosen text contains it, and the chosen text
      otherwise. */
  lemma AnswerTextSpec(response: GenResponse)
    ensures AnswerText(response) != ""
    ensures var text := OrElse(response.text, OrElse(response.candidateText, EmptyAnswer));
            (Includes(text, NonVetRejection) ==> AnswerText(response) == NonVetRejection)
            && (!Includes(text, NonVetRejection) ==> AnswerText(response) == text)
    ensures response.text.Some? && response.text.value != "" && !Includes(response.text.value, NonVetRejection)
            ==> AnswerText(response) == response.text.value
  {
  }

  /** With no usable text at all, the answer is the apology. */
  lemma EmptyResponseApologises(response: GenResponse)
    requires response.text.None? || response.text == Some("")
    requires response.candidateText.None? || response.candidateText == Some("")
    ensures AnswerText(response) == EmptyAnswer
  {
    if Includes(EmptyAnswer, NonVetRejection) {
      IncludesLength(EmptyAnswer, NonVetRejection);
    }
  }

  /** Cleaning up is idempotent: a cleaned answer fed back comes out the
      same. */
  lemma AnswerTextIdempotent(response: GenResponse)
    ensures AnswerText(GenResponse(Some(AnswerText(response)), None)) == AnswerText(response)
  {
    var a := AnswerText(response);
    if a == NonVetRejection {
      IncludesMiddle("", NonVetRejection, "");
      assert "" + NonVetRejection + "" == NonVetRejection;
    }
  }

  /** `generateResponse`: any failure of the call is reported as one fixed
      error. */
  function GenerateResponse(generate: Generator, userMessage: string, history: seq<Message>): (r: Result<string, string>)
    ensures r.Err? <==> generate(BuildContents(userMessage, history)).Err?
    ensures r.Err? ==> r.error == GenerationFailed
    ensures r.Ok? ==> r.value == AnswerText(generate(BuildContents(userMessage, history)).value)
  {
    match generate(BuildContents(userMessage, history))
    case Err(_) => Err(GenerationFailed)
    case Ok(response) => Ok(AnswerText(response))
  }

  /** What a reply holds: never empty; it mentions the rejection sentinel
      only by being exactly the sentinel; and the model's own non-empty text,
      when free of the sentinel, is passed through unchanged. */
  lemma GenerateResponseSpec(generate: Generator, userMessage: string, history: seq<Message>)
    ensures var r := GenerateResponse(generate, userMessage, history);
            r.Ok? ==> r.value != "" && (Includes(r.value, NonVetRejection) <==> r.value == NonVetRejection)
    ensures var g := generate(BuildContents(userMessage, history));
            g.Ok? && g.value.text.Some? && g.value.text.value != "" && !Includes(g.value.text.value, NonVetRejection)
            ==> GenerateResponse(generate, userMessage, history) == Ok(g.value.text.value)
  {
    var g := generate(BuildContents(userMessage, history));
    if g.Ok? {
      AnswerTextSpec(g.value);
      IncludesMiddle("", NonVetRejection, "");
      assert "" + NonVetRejection + "" == NonVetRejection;
    }
  }

  /** The classifier's single-turn question. */
  function ClassifierContents(message: string): seq<Content> {
    [Content(UserRole, "Reply ONLY YES or NO.\nIs this veterinary related? \"" + message + "\"")]
  }

  /** `isVeterinaryTopic`: yes exactly when the trimmed, upper-cased answer
      is `YES`; a failed call, or an answer without the `text` shortcut
      (reading it throws), counts as yes. */
  function IsVeterinaryTopic(generate: Generator, message: string): bool {
    match generate(ClassifierContents(message))
    case Err(_) => true
    case Ok(response) =>
      if response.text.None? then true else Upper(Trim(response.text.value)) == "YES"
  }

  /** An answer word that reads as yes: three letters, y-e-s in either case
      (the long s upper-cases to S as well). */
  predicate SaysYes(t: string) {
    && |t| == 3
    && (t[0] == 'y' || t[0] == 'Y')
    && (t[1] == 'e' || t[1] == 'E')
    && (t[2] == 's' || t[2] == 'S' || t[2] == '\U{17F}')
  }

  /** Upper-casing a word gives `YES` exactly for the spellings `SaysYes`
      lists. */
  lemma UpperIsYes(t: string)
    ensures Upper(t) == "YES" <==> SaysYes(t)
  {
    if SaysYes(t) {
      var u := Upper(t);
      assert u[0] == 'Y' && u[1] == 'E' && u[2] == 'S';
      assert u == "YES";
    }
    if Upper(t) == "YES" {
      assert UpperChar(t[0]) == 'Y' && UpperChar(t[1]) == 'E' && UpperChar(t[2]) == 'S';
    }
  }

  /** The reading of the classifier's answer, case by case: every failure,
      and an answer without text, counts as yes; otherwise the answer is yes
      exactly when, trimmed, it spells yes in any case. */
  lemma IsVeterinaryTopicSpec(generate: Generator, message: string)
    ensures var g := generate(ClassifierContents(message));
            && (g.Err? ==> IsVeterinaryTopic(generate, message))
            && (g.Ok? && g.value.text.None? ==> IsVeterinaryTopic(generate, message))
            && (g.Ok? && g.value.text.Some? ==>
                  (IsVeterinaryTopic(generate, message) <==> Upper(Trim(g.value.text.value)) == "YES"))
            && (g.Ok? && g.value.text.Some? ==>
                  (IsVeterinaryTopic(generate, message) <==> SaysYes(Trim(g.value.text.value))))
  {
    var g := generate(ClassifierContents(message));
    if g.Ok? && g.value.text.Some? {
      UpperIsYes(Trim(g.value.text.value));
    }
  }

  /** Answers the classifier reads as yes or no, whatever their case and
      surrounding white space. */
  lemma ClassifierAnswers()
    ensures Upper(Trim(" yes\n")) == "YES"
    ensures Upper(Trim("No")) != "YES"
  {
    assert Trim(" yes\n") == "yes" by {
      assert TrimStart(" yes\n") == "yes\n";
      assert TrimEnd("yes\n") == "yes";
    }
    assert Upper("No")[0] == 'N';
  }

  /** A constructed service. */
  datatype GeminiClient = GeminiClient(apiKey: string, model: string)

  /** The module's single instance, set by the first successful
      initialisation and never replaced. */
  class GeminiRegistry {
    var instance: Option<GeminiClient>

    constructor ()
      ensures instance == None
    {
      instance := None;
    }

    /** `initializeGeminiService`: the existing instance, or a new one when
        there is none and the key is present and not empty. */
    method Initialize(apiKey: Option<string>) returns (r: Result<GeminiClient, string>)
      modifies this
      ensures old(instance).Some? ==> r == Ok(old(instance).value) && instance == old(instance)
      ensures old(instance).None? && (apiKey.None? || apiKey == Some("")) ==>
                r == Err(ApiKeyMissing) && instance == None
      ensures old(instance).None? && apiKey.Some? && apiKey.value != "" ==>
                r == Ok(GeminiClient(apiKey.value, ModelName)) && instance == Some(r.value)
    {
      if instance.None? {
        if apiKey.None? || apiKey.value == "" {
          return Err(ApiKeyMissing);
        }
        instance := Some(GeminiClient(apiKey.value, ModelName));
      }
      r := Ok(instance.value);
    }

    /** `getGeminiService`. */
    method Get() returns (r: Result<GeminiClient, string>)
      ensures instance.None? ==> r == Err(NotInitialized)
      ensures instance.Some? ==> r == Ok(instance.value)
    {
      if instance.None? {
        return Err(NotInitialized);
      }
      r := Ok(instance.value);
    }
  }
}
