/**
 * The v0 completion tool: its argument schema, the chat request it sends to
 * the v0 endpoint, and the one text block it answers with — the first
 * choice's message content on success, an "Error calling v0 API: " text on
 * every failure.
 *
 * `fetch` and the JSON codec are parameters; the response body is read as
 * text once, so `response.text()` and `response.json()` see the same body.
 */
module V0Tools {
  import opened Wrappers
  import opened JsValues
  import opened Schema
  import Dates
  import Decimal
  import V0Config

  // ---------------------------------------------------------------------------
  // Arguments
  // ---------------------------------------------------------------------------

  const DefaultModel := "v0-1.0-md"

  const V0RequestSchema: Kind := KObject([
    Field("prompt", KString, Required),
    Field("model", KString, Default(JStr(DefaultModel))),
    Field("stream", KBool, Default(JBool(false))),
    Field("system_message", KString, Optional),
    Field("max_tokens", KNumber, Optional),
    Field("temperature", KNumber, Optional)
  ])

  datatype V0Params = V0Params(
    prompt: string,
    model: string,
    stream: bool,
    systemMessage: Option<string>,
    maxTokens: Option<real>,
    temperature: Option<real>)

  function DecodeV0Params(v: Json): V0Params
    requires Conforms(V0RequestSchema, v)
  {
    var k := V0RequestSchema;
    ConformsField(k, v, 0);
    ConformsField(k, v, 1);
    ConformsField(k, v, 2);
    ConformsField(k, v, 3);
    ConformsField(k, v, 4);
    ConformsField(k, v, 5);
    var m := v.fields;
    V0Params(
      StringField(m, "prompt"),
      StringField(m, "model"),
      BoolField(m, "stream"),
      OptionalString(m, "system_message"),
      OptionalNumber(m, "max_tokens"),
      OptionalNumber(m, "temperature"))
  }

  /** Raw arguments to typed arguments: validation, then reading the validated fields. */
  function ParseV0Args(raw: Json, clock: Dates.Clock): (r: Result<V0Params, seq<Issue>>)
    ensures r.Ok? <==> Accepts(V0RequestSchema, raw, clock)
    ensures IssuesOf(r) == IssuesOf(Validate(V0RequestSchema, raw, clock))
    ensures r.Err? ==> r.error != []
  {
    var k := V0RequestSchema;
    CheckAgreesWithAccepts(k, raw, [], clock);
    var checked := Validate(k, raw, clock);
    if checked.Ok? then
      CheckConforms(k, raw, [], clock);
      Ok(DecodeV0Params(checked.value))
    else Err(checked.error)
  }

  lemma V0ArgsValidated(m: map<string, Json>, clock: Dates.Clock)
    requires ParseV0Args(JObj(m), clock).Ok?
    ensures Validate(V0RequestSchema, JObj(m), clock).Ok?
    ensures WellFormed(V0RequestSchema)
    ensures Conforms(V0RequestSchema, Validate(V0RequestSchema, JObj(m), clock).value)
    ensures ParseV0Args(JObj(m), clock).value == DecodeV0Params(Validate(V0RequestSchema, JObj(m), clock).value)
  {
    CheckAgreesWithAccepts(V0RequestSchema, JObj(m), [], clock);
    CheckConforms(V0RequestSchema, JObj(m), [], clock);
  }

  /** The prompt is required and kept; model and stream default to "v0-1.0-md" and false. */
  lemma V0ArgsDefaults(m: map<string, Json>, clock: Dates.Clock)
    requires ParseV0Args(JObj(m), clock).Ok?
    ensures var p := ParseV0Args(JObj(m), clock).value;
      && "prompt" in m && m["prompt"] == JStr(p.prompt)
      && ("model" in m ==> m["model"] == JStr(p.model))
      && ("model" !in m ==> p.model == DefaultModel)
      && ("stream" in m ==> m["stream"] == JBool(p.stream))
      && ("stream" !in m ==> !p.stream)
  {
    var k := V0RequestSchema;
    V0ArgsValidated(m, clock);
    assert k.fields[0] == Field("prompt", KString, Required);
    assert k.fields[1] == Field("model", KString, Default(JStr(DefaultModel)));
    assert k.fields[2] == Field("stream", KBool, Default(JBool(false)));
    ValidatedField(k, m, 0, [], clock);
    ValidatedField(k, m, 1, [], clock);
    ValidatedField(k, m, 2, [], clock);
  }

  /** system_message, max_tokens and temperature are present exactly when given, and as given. */
  lemma V0ArgsOptionals(m: map<string, Json>, clock: Dates.Clock)
    requires ParseV0Args(JObj(m), clock).Ok?
    ensures var p := ParseV0Args(JObj(m), clock).value;
      && (p.systemMessage.Some? <==> "system_message" in m)
      && (p.systemMessage.Some? ==> m["system_message"] == JStr(p.systemMessage.value))
      && (p.maxTokens.Some? <==> "max_tokens" in m)
      && (p.maxTokens.Some? ==> m["max_tokens"] == JNum(p.maxTokens.value))
      && (p.temperature.Some? <==> "temperature" in m)
      && (p.temperature.Some? ==> m["temperature"] == JNum(p.temperature.value))
  {
    var k := V0RequestSchema;
    V0ArgsValidated(m, clock);
    assert k.fields[3] == Field("system_message", KString, Optional);
    assert k.fields[4] == Field("max_tokens", KNumber, Optional);
    assert k.fields[5] == Field("temperature", KNumber, Optional);
    ValidatedField(k, m, 3, [], clock);
    ValidatedField(k, m, 4, [], clock);
    ValidatedField(k, m, 5, [], clock);
  }

  /** A call without a prompt is rejected at that key. */
  lemma PromptRequired(m: map<string, Json>, clock: Dates.Clock)
    requires "prompt" !in m
    ensures Issue([Key("prompt")], Missing) in IssuesOf(ParseV0Args(JObj(m), clock))
  {
    assert V0RequestSchema.fields[0] == Field("prompt", KString, Required);
    MissingRequiredReported(V0RequestSchema, m, 0, [], clock);
    assert [] + [Key("prompt")] == [Key("prompt")];
  }

  // ---------------------------------------------------------------------------
  // The request
  // ---------------------------------------------------------------------------

  datatype Role = System | User

  datatype Message = Message(role: Role, content: string)

  /** The request body before serialisation; an absent option is not sent at all. */
  datatype Payload = Payload(
    model: string,
    messages: seq<Message>,
    stream: bool,
    maxTokens: Option<real>,
    temperature: Option<real>)

  /** A POST of the serialised payload to `url`; the headers come from the environment and are not modelled. */
  datatype ChatRequest = ChatRequest(url: string, payload: Payload)

  /** A settled `fetch`: rejected (network failure), or a response with its status line and body text. */
  datatype HttpOutcome =
    | FetchRejected(error: Thrown)
    | Response(status: nat, statusText: string, body: string)

  /** `response.ok`. */
  predicate IsOk(status: nat)
  {
    200 <= status <= 299
  }

  // ---------------------------------------------------------------------------
  // Reading the answer
  // ---------------------------------------------------------------------------

  const CallErrorPrefix := "Error calling v0 API: "
  const StatusErrorPrefix := "v0 API error: "

  /**
   * The body part of a non-2xx error message: the parsed body re-serialised
   * when it parses to a truthy value, the raw text otherwise.
   */
  function BodyDetail(body: string, codec: JsonCodec): (r: string)
    ensures (codec.parse(body).Ok? && Truthy(Some(codec.parse(body).value)))
            ==> r == codec.stringify(codec.parse(body).value)
    ensures codec.parse(body).Err? ==> r == body
    ensures (codec.parse(body).Ok? && !Truthy(Some(codec.parse(body).value))) ==> r == body
  {
    var parsed := codec.parse(body);
    var errorData := if parsed.Ok? then Some(parsed.value) else Some(JNull);
    if Truthy(errorData) then codec.stringify(errorData.value) else body
  }

  /** The message of the Error thrown for a non-2xx response. */
  function StatusErrorMessage(status: nat, statusText: string, body: string, codec: JsonCodec): (r: string)
    ensures StartsWith(r, StatusErrorPrefix)
    ensures var digits := Decimal.DecimalText(status);
      && StartsWith(r[|StatusErrorPrefix|..], digits)
      && Decimal.DecimalValue(digits) == status
      && r[|StatusErrorPrefix| + |digits|..] == " " + statusText + " " + BodyDetail(body, codec)
  {
    var digits := Decimal.DecimalText(status);
    Decimal.DecimalTextValue(status);
    var rest := " " + statusText + " " + BodyDetail(body, codec);
    ThreeParts(StatusErrorPrefix, digits, rest);
    assert StatusErrorPrefix + digits + " " + statusText + " " + BodyDetail(body, codec)
        == StatusErrorPrefix + digits + rest;
    StatusErrorPrefix + digits + rest
  }

  /** The three parts of a concatenation can be read back at their offsets. */
  lemma ThreeParts(a: string, b: string, c: string)
    ensures StartsWith(a + b + c, a)
    ensures StartsWith((a + b + c)[|a|..], b)
    ensures (a + b + c)[|a| + |b|..] == c
  {
  }

  /**
   * `data.choices[0].message.content` when `data.choices` is truthy, has a
   * positive length and its first entry a truthy `message`; the empty string
   * when any of these tests fails. `Err` is the TypeError a property read on
   * `null` or `undefined` throws along the way.
   */
  function ExtractContent(data: Json): (r: Result<ContentBlock, string>)
    ensures data == JNull ==> r == Err(ReadError("null", "choices"))
    ensures data.JObj? && !Truthy(if "choices" in data.fields then Some(data.fields["choices"]) else None)
            ==> r == Ok(Text(""))
    ensures (data.JObj? && "choices" in data.fields && data.fields["choices"] == JArr([])) ==> r == Ok(Text(""))
    ensures (data.JObj? && "choices" in data.fields && data.fields["choices"].JArr?
             && |data.fields["choices"].items| > 0 && data.fields["choices"].items[0] == JNull)
            ==> r == Err(ReadError("null", "message"))
    ensures r.Ok? && r.value.Text? && r.value.text != "" ==> data.JObj?
    ensures r.Err? ==> r.error != ""
  {
    match GetProp(Some(data), "choices")
    case Err(e) => Err(e)
    case Ok(choices) =>
      if !Truthy(choices) then Ok(Text(""))
      else (
        match GetProp(choices, "length")
        case Err(e) => Err(e)
        case Ok(length) =>
          if !PositiveLength(length) then Ok(Text(""))
          else (
            match GetProp(choices, "0")
            case Err(e) => Err(e)
            case Ok(first) =>
              match GetProp(first, "message")
              case Err(e) => Err(e)
              case Ok(message) =>
                if !Truthy(message) then Ok(Text(""))
                else (
                  match GetProp(message, "content")
                  case Err(e) => Err(e)
                  case Ok(content) =>
                    if content.Some? && content.value.JStr? then Ok(Text(content.value.s))
                    else Ok(NonStringText(content))
                )
          )
      )
  }

  /** The usual answer shape: the first choice's message content, any other members notwithstanding. */
  lemma ContentOfFirstChoice(data: Json, s: string)
    requires data.JObj? && "choices" in data.fields && data.fields["choices"].JArr?
    requires var choices := data.fields["choices"].items;
      |choices| > 0 && choices[0].JObj? && "message" in choices[0].fields
      && choices[0].fields["message"].JObj?
      && "content" in choices[0].fields["message"].fields
      && choices[0].fields["message"].fields["content"] == JStr(s)
    ensures ExtractContent(data) == Ok(Text(s))
  {
  }

  /** A first choice without a truthy message leaves the content empty; this is not an error. */
  lemma NoMessageGivesEmptyText(data: Json)
    requires data.JObj? && "choices" in data.fields && data.fields["choices"].JArr?
    requires var choices := data.fields["choices"].items;
      |choices| > 0 && choices[0].JObj?
      && !Truthy(if "message" in choices[0].fields then Some(choices[0].fields["message"]) else None)
    ensures ExtractContent(data) == Ok(Text(""))
  {
  }

  // ---------------------------------------------------------------------------
  // The handler
  // ---------------------------------------------------------------------------

  /**
   * generateCompletion: builds the message list and payload, posts it, and
   * turns every outcome into one text block; nothing is rethrown.
   */
  method GenerateCompletion(params: V0Params, fetch: ChatRequest -> HttpOutcome, codec: JsonCodec)
    returns (sent: ChatRequest, result: ToolResult)
    ensures sent.url == V0Config.V0ApiUrl
    // the message list: an optional system message, then exactly one user message carrying the prompt
    ensures var msgs := sent.payload.messages;
      && |msgs| == (if TruthyString(params.systemMessage) then 2 else 1)
      && msgs[|msgs| - 1] == Message(User, params.prompt)
      && (forall i :: 0 <= i < |msgs| - 1 ==> msgs[i].role == System)
      && (msgs[0].role == System <==> TruthyString(params.systemMessage))
      && (msgs[0].role == System ==> msgs[0].content == params.systemMessage.value)
    // the payload: model and stream always, numeric options only when truthy
    ensures sent.payload.model == params.model && sent.payload.stream == params.stream
    ensures sent.payload.maxTokens.Some? <==> TruthyNumber(params.maxTokens)
    ensures sent.payload.maxTokens.Some? ==> sent.payload.maxTokens == params.maxTokens
    ensures sent.payload.temperature.Some? <==> TruthyNumber(params.temperature)
    ensures sent.payload.temperature.Some? ==> sent.payload.temperature == params.temperature
    // the answer: one text block on every path
    ensures |result.content| == 1
    ensures fetch(sent).FetchRejected? ==>
      result == TextResult(CallErrorPrefix + MessageOrString(fetch(sent).error))
    ensures fetch(sent).Response? && !IsOk(fetch(sent).status) ==>
      var resp := fetch(sent);
      result == TextResult(CallErrorPrefix + StatusErrorMessage(resp.status, resp.statusText, resp.body, codec))
    ensures fetch(sent).Response? && IsOk(fetch(sent).status) && codec.parse(fetch(sent).body).Err? ==>
      var message := codec.parse(fetch(sent).body).error;
      result == TextResult(CallErrorPrefix + (if message == "" then "SyntaxError" else message))
    ensures fetch(sent).Response? && IsOk(fetch(sent).status) && codec.parse(fetch(sent).body).Ok? ==>
      var content := ExtractContent(codec.parse(fetch(sent).body).value);
      result == (if content.Ok? then ToolResult([content.value]) else TextResult(CallErrorPrefix + content.error))
  {
    var messages: seq<Message> := [];
    if TruthyString(params.systemMessage) {
      messages := messages + [Message(System, params.systemMessage.value)];
    }
    messages := messages + [Message(User, params.prompt)];

    var payload := Payload(params.model, messages, params.stream, None, None);
    if TruthyNumber(params.maxTokens) {
      payload := payload.(maxTokens := params.maxTokens);
    }
    if TruthyNumber(params.temperature) {
      payload := payload.(temperature := params.temperature);
    }

    sent := ChatRequest(V0Config.V0ApiUrl, payload);
    var response := fetch(sent);
    var thrown: Option<Thrown> := None;
    if response.FetchRejected? {
      thrown := Some(response.error);
    } else if !IsOk(response.status) {
      thrown := Some(ErrorObject("Error", StatusErrorMessage(response.status, response.statusText, response.body, codec)));
    } else {
      var data := codec.parse(response.body);
      if data.Err? {
        thrown := Some(ErrorObject("SyntaxError", data.error));
      } else {
        var content := ExtractContent(data.value);
        if content.Err? {
          thrown := Some(ErrorObject("TypeError", content.error));
        } else {
          result := ToolResult([content.value]);
        }
      }
    }
    if thrown.Some? {
      result := TextResult(CallErrorPrefix + MessageOrString(thrown.value));
    }
  }

  /**
   * Every failure answers with the "Error calling v0 API: " prefix, and a
   * non-2xx status is reported with its decimal code.
   */
  lemma FailuresArePrefixed(outcome: HttpOutcome, codec: JsonCodec)
    requires outcome.Response? && !IsOk(outcome.status)
    ensures var text := CallErrorPrefix + StatusErrorMessage(outcome.status, outcome.statusText, outcome.body, codec);
      var digits := Decimal.DecimalText(outcome.status);
      && StartsWith(text, CallErrorPrefix + StatusErrorPrefix)
      && text[|CallErrorPrefix + StatusErrorPrefix|..][..|digits|] == digits
      && Decimal.DecimalValue(digits) == outcome.status
  {
  }
}
