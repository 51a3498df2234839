/**
 * The tool-call response classifier of `src/lib/helpers.ts`: a structural
 * test that decides whether a backend reply is a tool call waiting for the
 * human's confirmation. The declared TypeScript shapes it claims to recognise
 * are given as datatypes, with their JSON encoding, so that the test can be
 * compared with the type it guards.
 */
module Helpers {
  import opened JsValues

  // ---------------------------------------------------------------------------
  // The declared shapes (helpers.ts interfaces).

  /** `ToolCall`: note the argument field is named "arguments" here. */
  datatype ToolCall = ToolCall(id: string, toolName: string, arguments: seq<(string, Json)>)

  /** `ExtendedToolCall`: `function.arguments` is a JSON string. */
  datatype ExtendedToolCall = ExtendedToolCall(id: string, kind: string, functionName: string, functionArguments: string)

  /** `Message | ExtendedMessage`; `None` stands for `null` and `toolCalls == None` for an absent key. */
  datatype Message =
    | Message(content: string, role: string)
    | ExtendedMessage(
        nullableContent: Option<string>,
        refusal: Option<string>,
        role: string,
        audio: Option<string>,
        functionCall: Json,
        toolCalls: Option<seq<ExtendedToolCall>>)

  /** `LLMToolCallResponse`. */
  datatype ToolCallResponse = ToolCallResponse(
    verificationRequired: bool,
    toolCall: ToolCall,
    message: seq<Message>,
    toolHit: seq<(string, Json)>)

  function StrOrNull(s: Option<string>): Json
  {
    match s
    case Some(x) => Str(x)
    case None => Null
  }

  function EncodeToolCall(tc: ToolCall): Json
  {
    Obj([("id", Str(tc.id)), ("tool_name", Str(tc.toolName)), ("arguments", Obj(tc.arguments))])
  }

  function EncodeExtendedToolCall(c: ExtendedToolCall): Json
  {
    Obj([("id", Str(c.id)), ("type", Str(c.kind)),
         ("function", Obj([("name", Str(c.functionName)), ("arguments", Str(c.functionArguments))]))])
  }

  function EncodeExtendedToolCalls(cs: seq<ExtendedToolCall>): (r: seq<Json>)
    ensures |r| == |cs|
  {
    if cs == [] then [] else [EncodeExtendedToolCall(cs[0])] + EncodeExtendedToolCalls(cs[1..])
  }

  function EncodeMessage(m: Message): Json
  {
    match m
    case Message(content, role) => Obj([("content", Str(content)), ("role", Str(role))])
    case ExtendedMessage(content, refusal, role, audio, functionCall, toolCalls) =>
      Obj([("content", StrOrNull(content)), ("refusal", StrOrNull(refusal)), ("role", Str(role)),
           ("audio", StrOrNull(audio)), ("function_call", functionCall)]
          + match toolCalls
            case Some(cs) => [("tool_calls", Arr(EncodeExtendedToolCalls(cs)))]
            case None => [])
  }

  function EncodeMessages(ms: seq<Message>): (r: seq<Json>)
    ensures |r| == |ms| && forall i :: 0 <= i < |ms| ==> r[i] == EncodeMessage(ms[i])
  {
    if ms == [] then [] else [EncodeMessage(ms[0])] + EncodeMessages(ms[1..])
  }

  function Encode(r: ToolCallResponse): Json
  {
    Obj([("verification_required", Bool(r.verificationRequired)),
         ("tool_call", EncodeToolCall(r.toolCall)),
         ("message", Arr(EncodeMessages(r.message))),
         ("tool_hit", Obj(r.toolHit))])
  }

  // ---------------------------------------------------------------------------
  // The classifier, branch for branch.

  /** The callback of `resp.message.every(...)`: a simple message, else an extended one. */
  predicate IsAcceptedMessage(msg: Json)
  {
    if TypeOf(msg) != ObjectType || msg == Null then false
    else if TypeOf(Get(msg, "content")) == StringType && TypeOf(Get(msg, "role")) == StringType then true
    else if && (TypeOf(Get(msg, "content")) == StringType || Get(msg, "content") == Null)
            && TypeOf(Get(msg, "role")) == StringType
            && Has(msg, "refusal")
            && Has(msg, "audio")
            && Has(msg, "function_call")
            && Has(msg, "tool_calls")
    then true
    else false
  }

  /** `isLLMToolCallResponse(response)`. */
  predicate IsLLMToolCallResponse(response: Json)
  {
    if TypeOf(response) != ObjectType || response == Null then false
    else if Get(response, "verification_required") != Bool(true) then false
    else
      var toolCall := Get(response, "tool_call");
      if TypeOf(toolCall) != ObjectType || toolCall == Null then false
      else if || TypeOf(Get(toolCall, "id")) != StringType
              || TypeOf(Get(toolCall, "tool_name")) != StringType
              || TypeOf(Get(toolCall, "arguments")) != ObjectType
      then false
      else
        var message := Get(response, "message");
        if !message.Arr? then false
        else forall i | 0 <= i < |message.items| :: IsAcceptedMessage(message.items[i])
  }

  // ---------------------------------------------------------------------------
  // The acceptance condition, stated directly on the shape of the value.

  /** A message element the classifier accepts, as a condition on its shape. */
  predicate MessageShape(m: Json)
  {
    && m.Obj?
    && Get(m, "role").Str?
    && (|| Get(m, "content").Str?
        || (&& Get(m, "content").Null?
            && Has(m, "refusal") && Has(m, "audio") && Has(m, "function_call") && Has(m, "tool_calls")))
  }

  lemma MessageAcceptedIffShape(m: Json)
    ensures IsAcceptedMessage(m) <==> MessageShape(m)
  {
  }

  /**
   * The exact acceptance condition: a plain object whose flag is the boolean
   * true, whose `tool_call` is a plain object with string `id` and
   * `tool_name` and an `arguments` of type "object" (null and arrays
   * included), and whose `message` is an array of accepted messages.
   */
  lemma AcceptanceCondition(v: Json)
    ensures IsLLMToolCallResponse(v) <==>
      && v.Obj?
      && Get(v, "verification_required") == Bool(true)
      && Get(v, "tool_call").Obj?
      && Get(Get(v, "tool_call"), "id").Str?
      && Get(Get(v, "tool_call"), "tool_name").Str?
      && (Get(Get(v, "tool_call"), "arguments").Null?
          || Get(Get(v, "tool_call"), "arguments").Arr?
          || Get(Get(v, "tool_call"), "arguments").Obj?)
      && Get(v, "message").Arr?
      && forall i :: 0 <= i < |Get(v, "message").items| ==> MessageShape(Get(v, "message").items[i])
  {
    if IsLLMToolCallResponse(v) {
      forall i | 0 <= i < |Get(v, "message").items| ensures MessageShape(Get(v, "message").items[i]) {
        MessageAcceptedIffShape(Get(v, "message").items[i]);
      }
    }
    if v.Obj? && Get(v, "message").Arr? && Get(v, "verification_required") == Bool(true) {
      var items := Get(v, "message").items;
      forall i | 0 <= i < |items| ensures MessageShape(items[i]) ==> IsAcceptedMessage(items[i]) {
        MessageAcceptedIffShape(items[i]);
      }
    }
  }

  // ---------------------------------------------------------------------------
  // Properties of the classifier.

  /** Null, undefined, primitives and arrays are never tool-call responses. */
  lemma RejectsNonObjects(v: Json)
    requires !v.Obj?
    ensures !IsLLMToolCallResponse(v)
  {
  }

  /** The flag must be the boolean true itself: missing, false, "true" or 1 are all rejected. */
  lemma FlagMustBeTrue(v: Json)
    requires v.Obj? && Get(v, "verification_required") != Bool(true)
    ensures !IsLLMToolCallResponse(v)
  {
  }

  /** A `tool_call` that is null, missing, a primitive or an array is rejected. */
  lemma ToolCallMustBeObject(v: Json)
    requires v.Obj? && !Get(v, "tool_call").Obj?
    ensures !IsLLMToolCallResponse(v)
  {
  }

  /** A `message` that is not an array is rejected, whatever else holds. */
  lemma MessageMustBeArray(v: Json)
    requires v.Obj? && !Get(v, "message").Arr?
    ensures !IsLLMToolCallResponse(v)
  {
  }

  /** One rejected message element rejects the whole response. */
  lemma OneBadMessageRejects(v: Json, i: nat)
    requires v.Obj? && Get(v, "message").Arr?
    requires i < |Get(v, "message").items| && !MessageShape(Get(v, "message").items[i])
    ensures !IsLLMToolCallResponse(v)
  {
    MessageAcceptedIffShape(Get(v, "message").items[i]);
  }

  /**
   * Only `verification_required`, `tool_call` and `message` are inspected:
   * two objects that agree on those three reads are classified alike.
   */
  lemma OnlyInspectedKeysMatter(v: Json, w: Json)
    requires v.Obj? && w.Obj?
    requires Get(v, "verification_required") == Get(w, "verification_required")
    requires Get(v, "tool_call") == Get(w, "tool_call")
    requires Get(v, "message") == Get(w, "message")
    ensures IsLLMToolCallResponse(v) == IsLLMToolCallResponse(w)
  {
  }

  /** Adding an entry under any other key (`tool_hit` among them), anywhere, leaves the verdict unchanged. */
  lemma ExtraEntryIgnored(a: seq<(string, Json)>, b: seq<(string, Json)>, k: string, x: Json)
    requires k != "verification_required" && k != "tool_call" && k != "message"
    ensures IsLLMToolCallResponse(Obj(a + [(k, x)] + b)) == IsLLMToolCallResponse(Obj(a + b))
  {
    LookupIgnoresOtherKey(a, b, k, x, "verification_required");
    LookupIgnoresOtherKey(a, b, k, x, "tool_call");
    LookupIgnoresOtherKey(a, b, k, x, "message");
    OnlyInspectedKeysMatter(Obj(a + [(k, x)] + b), Obj(a + b));
  }

  /** A well-typed minimal response, used by the witnesses below. */
  function Minimal(toolCall: Json, message: seq<Json>): Json
  {
    Obj([("verification_required", Bool(true)), ("tool_call", toolCall), ("message", Arr(message))])
  }

  /**
   * For a minimal response with an empty message array, the verdict depends
   * on `arguments` alone: accepted exactly when its typeof is "object", and
   * whatever strings `id` and `tool_name` hold.
   */
  lemma MinimalToolCallVerdict(id: string, toolName: string, args: Json)
    ensures IsLLMToolCallResponse(Minimal(Obj([("id", Str(id)), ("tool_name", Str(toolName)), ("arguments", args)]), []))
        <==> args.Null? || args.Arr? || args.Obj?
  {
    var tc := [("id", Str(id)), ("tool_name", Str(toolName)), ("arguments", args)];
    var top := [("verification_required", Bool(true)), ("tool_call", Obj(tc)), ("message", Arr([]))];
    assert Minimal(Obj(tc), []) == Obj(top);
    assert Get(Obj(top), "verification_required") == Bool(true) by {
      LookupFirst(top, "verification_required", 0);
    }
    assert Get(Obj(top), "tool_call") == Obj(tc) by {
      LookupFirst(top, "tool_call", 1);
    }
    assert Get(Obj(top), "message") == Arr([]) by {
      LookupFirst(top, "message", 2);
    }
    assert Get(Obj(tc), "id") == Str(id) by {
      LookupFirst(tc, "id", 0);
    }
    assert Get(Obj(tc), "tool_name") == Str(toolName) by {
      LookupFirst(tc, "tool_name", 1);
    }
    assert Get(Obj(tc), "arguments") == args by {
      LookupFirst(tc, "arguments", 2);
    }
  }

  /**
   * The checks on `tool_call` are loose: an empty id and an empty tool name
   * are accepted, and so are `arguments` of null or an array; an empty
   * message array is accepted, and `tool_hit` may be absent.
   */
  lemma LooseToolCallChecksAccepted()
    ensures IsLLMToolCallResponse(Minimal(Obj([("id", Str("")), ("tool_name", Str("")), ("arguments", Null)]), []))
    ensures IsLLMToolCallResponse(Minimal(Obj([("id", Str("")), ("tool_name", Str("")), ("arguments", Arr([]))]), []))
  {
    MinimalToolCallVerdict("", "", Null);
    MinimalToolCallVerdict("", "", Arr([]));
  }

  /** `arguments` that is missing, a boolean, a number or a string is rejected. */
  lemma ArgumentsMustHaveObjectType(args: Json)
    requires !(args.Null? || args.Arr? || args.Obj?)
    ensures !IsLLMToolCallResponse(Minimal(Obj([("id", Str("1")), ("tool_name", Str("t")), ("arguments", args)]), []))
  {
    MinimalToolCallVerdict("1", "t", args);
  }

  /**
   * An extended message with null content is accepted only when all four of
   * `refusal`, `audio`, `function_call` and `tool_calls` are present, even
   * though `tool_calls` is optional in the declared type.
   */
  lemma NullContentNeedsToolCallsKey(refusal: Json, audio: Json, functionCall: Json)
    ensures !IsAcceptedMessage(Obj([("content", Null), ("refusal", refusal), ("role", Str("assistant")),
                                    ("audio", audio), ("function_call", functionCall)]))
    ensures IsAcceptedMessage(Obj([("content", Null), ("refusal", refusal), ("role", Str("assistant")),
                                   ("audio", audio), ("function_call", functionCall), ("tool_calls", Undefined)]))
  {
    var short := [("content", Null), ("refusal", refusal), ("role", Str("assistant")),
                  ("audio", audio), ("function_call", functionCall)];
    var long := [("content", Null), ("refusal", refusal), ("role", Str("assistant")),
                 ("audio", audio), ("function_call", functionCall), ("tool_calls", Undefined)];
    LookupFirst(short, "content", 0);
    LookupFirst(short, "role", 2);
    LookupAbsent(short, "tool_calls");
    LookupFirst(long, "content", 0);
    LookupFirst(long, "refusal", 1);
    LookupFirst(long, "role", 2);
    LookupFirst(long, "audio", 3);
    LookupFirst(long, "function_call", 4);
    LookupFirst(long, "tool_calls", 5);
  }

  // ---------------------------------------------------------------------------
  // The classifier against the type it claims to guard.

  /** The message shapes the classifier admits: every simple message, and extended ones with string content or `tool_calls`. */
  predicate Admitted(m: Message)
  {
    m.Message? || m.nullableContent.Some? || m.toolCalls.Some?
  }

  lemma SimpleMessageAccepted(content: string, role: string)
    ensures IsAcceptedMessage(EncodeMessage(Message(content, role)))
  {
    var fields := [("content", Str(content)), ("role", Str(role))];
    assert Get(Obj(fields), "content") == Str(content) by {
      LookupFirst(fields, "content", 0);
    }
    assert Get(Obj(fields), "role") == Str(role) by {
      LookupFirst(fields, "role", 1);
    }
  }

  lemma ExtendedMessageAccepted(m: Message)
    requires m.ExtendedMessage?
    ensures IsAcceptedMessage(EncodeMessage(m)) <==> m.nullableContent.Some? || m.toolCalls.Some?
  {
    var fields := [("content", StrOrNull(m.nullableContent)), ("refusal", StrOrNull(m.refusal)), ("role", Str(m.role)),
                   ("audio", StrOrNull(m.audio)), ("function_call", m.functionCall)];
    var extra := match m.toolCalls
                 case Some(cs) => [("tool_calls", Arr(EncodeExtendedToolCalls(cs)))]
                 case None => [];
    var all := fields + extra;
    assert EncodeMessage(m) == Obj(all);
    assert Get(Obj(all), "content") == StrOrNull(m.nullableContent) by {
      LookupFirst(all, "content", 0);
    }
    assert Get(Obj(all), "role") == Str(m.role) by {
      LookupFirst(all, "role", 2);
    }
    assert Has(Obj(all), "refusal") && Has(Obj(all), "audio") && Has(Obj(all), "function_call") by {
      LookupFirst(all, "refusal", 1);
      LookupFirst(all, "audio", 3);
      LookupFirst(all, "function_call", 4);
    }
    assert Has(Obj(all), "tool_calls") <==> m.toolCalls.Some? by {
      if m.toolCalls.Some? {
        LookupFirst(all, "tool_calls", 5);
      } else {
        LookupAbsent(all, "tool_calls");
      }
    }
  }

  lemma EncodedMessageAccepted(m: Message)
    ensures IsAcceptedMessage(EncodeMessage(m)) <==> Admitted(m)
  {
    if m.Message? {
      SimpleMessageAccepted(m.content, m.role);
    } else {
      ExtendedMessageAccepted(m);
    }
  }

  /**
   * A value of the declared `LLMToolCallResponse` type passes the classifier
   * exactly when its flag is true and every message is admitted: extended
   * messages with null content and no `tool_calls` are turned away.
   */
  lemma EncodedResponseAccepted(r: ToolCallResponse)
    ensures IsLLMToolCallResponse(Encode(r)) <==>
      r.verificationRequired && forall i :: 0 <= i < |r.message| ==> Admitted(r.message[i])
  {
    var v := Encode(r);
    var ms := EncodeMessages(r.message);
    var tc := EncodeToolCall(r.toolCall);
    assert Get(v, "verification_required") == Bool(r.verificationRequired) by {
      LookupFirst(v.fields, "verification_required", 0);
    }
    assert Get(v, "tool_call") == tc by {
      LookupFirst(v.fields, "tool_call", 1);
    }
    assert Get(v, "message") == Arr(ms) by {
      LookupFirst(v.fields, "message", 2);
    }
    assert Get(tc, "id").Str? && Get(tc, "tool_name").Str? && Get(tc, "arguments").Obj? by {
      LookupFirst(tc.fields, "id", 0);
      LookupFirst(tc.fields, "tool_name", 1);
      LookupFirst(tc.fields, "arguments", 2);
    }
    forall i | 0 <= i < |ms| ensures IsAcceptedMessage(ms[i]) <==> Admitted(r.message[i]) {
      EncodedMessageAccepted(r.message[i]);
    }
  }

  /**
   * The classifier's tool call carries its arguments under "arguments"; the
   * confirmation dialog reads them from "args", which such a value lacks.
   */
  lemma ClassifiedToolCallHasNoArgs(tc: ToolCall)
    ensures Has(EncodeToolCall(tc), "arguments") && !Has(EncodeToolCall(tc), "args")
  {
    var fields := EncodeToolCall(tc).fields;
    LookupFirst(fields, "arguments", 2);
    LookupAbsent(fields, "args");
  }
}
