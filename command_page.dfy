/**
 * The command palette page: one input line; pressing Enter sends the text to
 * the chat backend and shows either the first choice's message content, a
 * fixed fallback when the response has none, or a fixed error text when the
 * request or the decoding of its body fails. A "Processing" group is shown
 * while a request is outstanding.
 *
 * The HTTP round trip is a parameter: `Fetched(data)` is a response whose body
 * decoded to `data` (whatever its status), `Failed` is a rejected `fetch` or
 * a body that is not JSON.
 */
module CommandPalettePage {
  import opened JsValues
  import opened Text

  /** Shown when the response carries no message content. */
  const NoResponseContent: string := "No response content"

  /** Shown when the request or the decoding of its response throws. */
  const ErrorProcessing: string := "Error processing command"

  datatype FetchOutcome = Fetched(data: Json) | Failed

  /** `!value.trim()`: the input is empty or whitespace only. */
  predicate IsBlank(value: string) {
    Trim(value) == ""
  }

  /** Enter does nothing exactly when every character of the input is whitespace. */
  lemma BlankIffAllWhitespace(value: string)
    ensures IsBlank(value) <==> forall i :: 0 <= i < |value| ==> IsWhitespace(value[i])
  {
    TrimBlank(value);
  }

  /** The POST body `{ messages: [{ content: value }] }`: the text is sent as typed, untrimmed. */
  function RequestBody(value: string): Json
  {
    Obj([("messages", Arr([Obj([("content", Str(value))])]))])
  }

  /** Reading the request body back along `messages[0].content` gives the typed text. */
  lemma RequestCarriesInput(value: string)
    ensures OptionalGet(OptionalFirst(OptionalGet(RequestBody(value), "messages")), "content") == Str(value)
  {
    LookupFirst([("messages", Arr([Obj([("content", Str(value))])]))], "messages", 0);
    LookupFirst([("content", Str(value))], "content", 0);
  }

  /** `data?.choices?.[0]?.message?.content`. */
  function ContentPath(data: Json): Json
  {
    OptionalGet(OptionalGet(OptionalFirst(OptionalGet(data, "choices")), "message"), "content")
  }

  /** `data?.choices?.[0]?.message?.content ?? "No response content"`: never null or undefined. */
  function ResponseContent(data: Json): (content: Json)
    ensures !IsNullish(content)
    ensures content == ContentPath(data) || content == Str(NoResponseContent)
  {
    var c := ContentPath(data);
    if IsNullish(c) then Str(NoResponseContent) else c
  }

  /** A well-formed chat completion shows its first choice's content, whatever its kind, even "". */
  lemma FirstChoiceContentShown(data: Json, choices: seq<Json>, message: seq<(string, Json)>, content: Json)
    requires data.Obj? && Lookup(data.fields, "choices") == Some(Arr(choices))
    requires choices != [] && choices[0].Obj? && Lookup(choices[0].fields, "message") == Some(Obj(message))
    requires Lookup(message, "content") == Some(content) && !IsNullish(content)
    ensures ResponseContent(data) == content
  {
    assert OptionalGet(data, "choices") == Arr(choices);
    assert OptionalFirst(Arr(choices)) == choices[0];
    assert OptionalGet(choices[0], "message") == Obj(message);
  }

  /** Any break in the path, or a null content, falls back to the fixed text. */
  lemma MissingContentFallsBack(data: Json)
    ensures IsNullish(ContentPath(data)) <==> ResponseContent(data) == Str(NoResponseContent) && ContentPath(data) != Str(NoResponseContent)
    ensures !data.Obj? ==> ResponseContent(data) == Str(NoResponseContent)
    ensures data.Obj? && Lookup(data.fields, "choices").None? ==> ResponseContent(data) == Str(NoResponseContent)
    ensures data.Obj? && Lookup(data.fields, "choices") == Some(Arr([])) ==> ResponseContent(data) == Str(NoResponseContent)
  {
  }

  /** What a settled request leaves in `response`: the extracted content, or the error text. */
  function Settled(outcome: FetchOutcome): (shown: Json)
    ensures !IsNullish(shown)
    ensures outcome.Failed? ==> shown == Str(ErrorProcessing)
  {
    match outcome
    case Fetched(data) => ResponseContent(data)
    case Failed => Str(ErrorProcessing)
  }

  /** Only a response whose content is falsy (such as "" or 0) leaves the Response group hidden; failures always show. */
  lemma SettledVisibility(outcome: FetchOutcome)
    ensures !Truthy(Settled(outcome)) ==> outcome.Fetched? && !IsNullish(ContentPath(outcome.data)) && !Truthy(ContentPath(outcome.data))
    ensures outcome.Fetched? && IsNullish(ContentPath(outcome.data)) ==> Truthy(Settled(outcome))
    ensures outcome.Failed? ==> Truthy(Settled(outcome))
  {
  }

  /** The page's state: the `response` and `loading` hooks. */
  class CommandDemo {
    var response: Json
    var loading: bool

    constructor ()
      ensures response == Null && !loading
    {
      response := Null;
      loading := false;
    }

    /** The Response group is rendered when `response` is truthy. */
    predicate ResponseShown()
      reads this
    {
      Truthy(response)
    }

    /** The Processing group is rendered while `loading`. */
    predicate ProcessingShown()
      reads this
    {
      loading
    }

    /** The synchronous part of `handleCommand`: the blank guard, then `setLoading(true)` and the request to send. */
    method Begin(value: string) returns (request: Option<Json>)
      modifies this
      ensures IsBlank(value) ==> request == None && response == old(response) && loading == old(loading)
      ensures !IsBlank(value) ==> request == Some(RequestBody(value)) && response == old(response) && loading
      ensures !IsBlank(value) ==> ProcessingShown() && ResponseShown() == old(ResponseShown())
    {
      if IsBlank(value) {
        return None;
      }
      loading := true;
      request := Some(RequestBody(value));
    }

    /** The part after the request settles: `setResponse(...)` and `setLoading(false)` on both paths. */
    method Complete(outcome: FetchOutcome)
      modifies this
      ensures response == Settled(outcome) && !loading
      ensures !ProcessingShown()
      ensures outcome.Failed? ==> ResponseShown()
      ensures !ResponseShown() ==>
        outcome.Fetched? && !IsNullish(ContentPath(outcome.data)) && !Truthy(ContentPath(outcome.data))
    {
      SettledVisibility(outcome);
      match outcome {
        case Fetched(data) =>
          response := ResponseContent(data);
        case Failed =>
          response := Str(ErrorProcessing);
      }
      loading := false;
    }

    /** One whole `handleCommand(value)` with nothing else interleaved; `backend` answers the POST. */
    method HandleCommand(value: string, backend: Json -> FetchOutcome) returns (request: Option<Json>)
      modifies this
      ensures IsBlank(value) ==> request == None && response == old(response) && loading == old(loading)
      ensures !IsBlank(value) ==>
        request == Some(RequestBody(value)) && response == Settled(backend(RequestBody(value))) && !loading
    {
      request := Begin(value);
      if request.Some? {
        Complete(backend(request.value));
      }
    }
  }
}
