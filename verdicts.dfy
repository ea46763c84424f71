/** The `_test_*` helpers of the probe, given what the transport answered:
    each turns a request that succeeded or raised into a flag and a
    message, with the fixed texts the probe uses. */
module Verdicts {
  import opened Outcomes
  import opened Strings

  /** The five probes, in the order they run. */
  datatype Feature = Chat | Functions | JsonMode | Vision | Embeddings

  /** What one `_test_*` helper returns: the flag and its message. */
  datatype Verdict = Verdict(supported: bool, message: string)

  /** The line prefix under which a probe's message goes into the details. */
  function Label(f: Feature): string {
    match f
    case Chat => "Chat: "
    case Functions => "Functions: "
    case JsonMode => "JSON Mode: "
    case Vision => "Vision: "
    case Embeddings => "Embeddings: "
  }

  /** The fixed start of a probe's message when its request succeeded. */
  function SuccessPrefix(f: Feature): string {
    match f
    case Chat => "Chat completion successful. Response: "
    case Functions => "Function calling successful. Response type: "
    case JsonMode => "JSON mode successful"
    case Vision => "Vision features supported"
    case Embeddings => "Embeddings supported. Vector dimension: "
  }

  /** Whether a successful probe's message quotes the response; the
      JSON-mode and vision messages do not. */
  predicate QuotesResponse(f: Feature) {
    f != JsonMode && f != Vision
  }

  /** The message of a probe whose request succeeded. */
  function SuccessMessage(f: Feature, payload: string): string {
    if QuotesResponse(f) then SuccessPrefix(f) + payload else SuccessPrefix(f)
  }

  /** What precedes the error text when a probe's request raised. */
  function FailurePrefix(f: Feature): string {
    match f
    case Chat => "Chat completion failed: "
    case Functions => "Function calling failed: "
    case JsonMode => "JSON mode failed: "
    case Vision => "Vision features not supported: "
    case Embeddings => "Embeddings not supported: "
  }

  /** The try/except of a `_test_*` helper: whatever the transport did, a
      verdict comes back; the flag is set exactly when the request
      succeeded, and a raised error's text is kept verbatim after the
      probe's failure prefix. */
  function Check(f: Feature, response: Outcome<string>): (v: Verdict)
    ensures v.supported <==> response.Ok?
    ensures response.Ok? ==> StartsWith(v.message, SuccessPrefix(f))
    ensures response.Ok? ==>
      v.message[|SuccessPrefix(f)|..] == (if QuotesResponse(f) then response.value else "")
    ensures response.Err? ==> v.message == FailurePrefix(f) + response.error
  {
    match response
    case Ok(payload) => Verdict(true, SuccessMessage(f, payload))
    case Err(error) => Verdict(false, FailurePrefix(f) + error)
  }

  /** No success message starts with the same probe's failure prefix. */
  lemma SuccessIsNotFailure(f: Feature, payload: string)
    ensures !StartsWith(SuccessMessage(f, payload), FailurePrefix(f))
  {
    var m, p := SuccessMessage(f, payload), FailurePrefix(f);
    match f
    case Chat => assert m[16] != p[16];
    case Functions => assert m[17] != p[17];
    case JsonMode => assert m[10] != p[10];
    case Vision => assert |m| < |p|;
    case Embeddings => assert m[11] != p[11];
  }

  /** The flag can be read back from the message alone: a message is a
      failure exactly when it starts with the probe's failure prefix, and
      then the rest of it is the error text. */
  lemma VerdictReadableFromMessage(f: Feature, response: Outcome<string>)
    ensures Check(f, response).supported <==> !StartsWith(Check(f, response).message, FailurePrefix(f))
    ensures response.Err? ==> Check(f, response).message[|FailurePrefix(f)|..] == response.error
  {
    if response.Ok? {
      SuccessIsNotFailure(f, response.value);
    } else {
      var m, p := Check(f, response).message, FailurePrefix(f);
      assert m[..|p|] == p;
    }
  }

  /** The JSON-mode and vision verdicts depend only on whether the request
      succeeded, never on the response. */
  lemma JsonModeAndVisionIgnoreResponse(p: string, q: string)
    ensures Check(JsonMode, Ok(p)) == Check(JsonMode, Ok(q))
    ensures Check(Vision, Ok(p)) == Check(Vision, Ok(q))
  {
  }

  /** The labels and fixed messages hold no line break. */
  lemma FixedTextsSingleLine(f: Feature)
    ensures SingleLine(Label(f)) && SingleLine(SuccessPrefix(f)) && SingleLine(FailurePrefix(f))
  {
    match f
    case Chat => ChatTextsSingleLine();
    case Functions => FunctionsTextsSingleLine();
    case JsonMode => JsonModeTextsSingleLine();
    case Vision => VisionTextsSingleLine();
    case Embeddings => EmbeddingsTextsSingleLine();
  }

  // One lemma per probe: each keeps the search through that probe's three
  // literals a separate, small proof obligation.

  lemma ChatTextsSingleLine()
    ensures SingleLine("Chat: ") && SingleLine("Chat completion successful. Response: ")
    ensures SingleLine("Chat completion failed: ")
  {
  }

  lemma FunctionsTextsSingleLine()
    ensures SingleLine("Functions: ") && SingleLine("Function calling successful. Response type: ")
    ensures SingleLine("Function calling failed: ")
  {
  }

  lemma JsonModeTextsSingleLine()
    ensures SingleLine("JSON Mode: ") && SingleLine("JSON mode successful")
    ensures SingleLine("JSON mode failed: ")
  {
  }

  lemma VisionTextsSingleLine()
    ensures SingleLine("Vision: ") && SingleLine("Vision features supported")
    ensures SingleLine("Vision features not supported: ")
  {
  }

  lemma EmbeddingsTextsSingleLine()
    ensures SingleLine("Embeddings: ") && SingleLine("Embeddings supported. Vector dimension: ")
    ensures SingleLine("Embeddings not supported: ")
  {
  }

  /** A verdict message has a line break only if the response or error
      text it quotes had one. */
  lemma CheckSingleLine(f: Feature, response: Outcome<string>)
    requires response.Ok? ==> SingleLine(response.value)
    requires response.Err? ==> SingleLine(response.error)
    ensures SingleLine(Check(f, response).message)
    ensures SingleLine(Label(f) + Check(f, response).message)
  {
    FixedTextsSingleLine(f);
  }

  /** `str(len(embedding))` for a successful embedding request. */
  function RenderDimension(response: Outcome<nat>): (r: Outcome<string>)
    ensures r.Ok? <==> response.Ok?
    ensures r.Ok? ==> r.value == NatToString(response.value)
    ensures r.Ok? ==> DecimalValue(r.value) == response.value
    ensures r.Err? ==> r.error == response.error
  {
    match response
    case Ok(n) => Ok(NatToString(n))
    case Err(error) => Err(error)
  }

}
