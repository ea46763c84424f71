/** The capability probe: for one model it runs the chat probe, then, only
    when chat works, the function-calling, JSON-mode and vision probes, and
    always the embeddings probe last; each probe sets one flag and adds one
    labelled line to the details text. `Run` lists the models and probes
    each of them. */
module Probe {
  import opened Outcomes
  import opened Strings
  import opened Transport
  import opened Config
  import opened Verdicts


  /** What `probe_model` fills in. `maxTokens` is never assigned. */
  datatype ModelCapabilities = ModelCapabilities(
    supportsChat: bool,
    supportsFunctionCalling: bool,
    supportsJsonMode: bool,
    supportsVision: bool,
    supportsEmbeddings: bool,
    maxTokens: Option<int>,
    details: string)

  /** `ModelCapabilities()`: every flag false, no details. */
  const NoCapabilities := ModelCapabilities(false, false, false, false, false, None, "")

  /** What `run` returns. */
  datatype ProbeResult = ProbeResult(
    availableModels: seq<string>,
    modelCapabilities: map<string, ModelCapabilities>,
    errorMessage: Option<string>)

  /** The text `run` records when listing the models raises. */
  const ListingFailurePrefix := "Failed to probe API: "

  /** The message `_setup_client` raises `ValueError` with. */
  const MissingConfigMessage := "API key and base URL are required"


  // ---------------------------------------------------------------------
  // What one run of `probe_model` does, stated declaratively

  /** The request each probe issues. */
  function CallOf(f: Feature, model: string): Call {
    match f
    case Chat => CreateCompletion(PlainChat, model)
    case Functions => CreateCompletion(WithFunctions, model)
    case JsonMode => CreateCompletion(JsonObject, model)
    case Vision => CreateCompletion(ImageInput, model)
    case Embeddings => CreateEmbedding(model)
  }

  /** What the endpoint answers to that request, rendered as the helper
      renders it. */
  function ResponseTo(e: Endpoint, f: Feature, model: string): Outcome<string> {
    match f
    case Chat => e.complete(PlainChat, model)
    case Functions => e.complete(WithFunctions, model)
    case JsonMode => e.complete(JsonObject, model)
    case Vision => e.complete(ImageInput, model)
    case Embeddings => RenderDimension(e.embed(model))
  }

  function VerdictOf(e: Endpoint, f: Feature, model: string): Verdict {
    Check(f, ResponseTo(e, f, model))
  }

  predicate ChatSucceeds(e: Endpoint, model: string) {
    e.complete(PlainChat, model).Ok?
  }

  /** The probes that run: chat gates the three chat-based probes;
      embeddings always runs, last. */
  function Attempted(chatSupported: bool): (fs: seq<Feature>)
    ensures |fs| >= 2 && fs[0] == Chat && fs[|fs| - 1] == Embeddings
  {
    if chatSupported then [Chat, Functions, JsonMode, Vision, Embeddings]
    else [Chat, Embeddings]
  }

  /** The probe sequences, built one probe at a time. */
  lemma AttemptedInSteps()
    ensures Attempted(true) == [Chat] + [Functions] + [JsonMode] + [Vision] + [Embeddings]
    ensures Attempted(false) == [Chat] + [Embeddings]
  {
  }

  /** The requests the probes `fs` issue, in order. */
  function CallsFor(fs: seq<Feature>, model: string): (calls: seq<Call>)
    ensures |calls| == |fs|
    decreases |fs|
  {
    if fs == [] then [] else [CallOf(fs[0], model)] + CallsFor(fs[1..], model)
  }

  /** The labelled details line probe `f` adds. */
  function Entry(e: Endpoint, f: Feature, model: string): string {
    Label(f) + VerdictOf(e, f, model).message
  }

  /** The labelled details lines of the probes `fs`, in order. */
  function EntriesFor(e: Endpoint, fs: seq<Feature>, model: string): (entries: seq<string>)
    ensures |entries| == |fs|
    decreases |fs|
  {
    if fs == [] then []
    else [Entry(e, fs[0], model)] + EntriesFor(e, fs[1..], model)
  }

  /** The `i`-th request is the one probe `fs[i]` issues. */
  lemma {:induction false} CallsForIndex(fs: seq<Feature>, model: string, i: nat)
    requires i < |fs|
    ensures CallsFor(fs, model)[i] == CallOf(fs[i], model)
    decreases i
  {
    if i > 0 {
      CallsForIndex(fs[1..], model, i - 1);
    }
  }

  /** The `i`-th details line is the one probe `fs[i]` adds. */
  lemma {:induction false} EntriesForIndex(e: Endpoint, fs: seq<Feature>, model: string, i: nat)
    requires i < |fs|
    ensures EntriesFor(e, fs, model)[i] == Entry(e, fs[i], model)
    decreases i
  {
    if i > 0 {
      EntriesForIndex(e, fs[1..], model, i - 1);
      assert EntriesFor(e, fs, model) == [Entry(e, fs[0], model)] + EntriesFor(e, fs[1..], model);
    }
  }

  /** Probing one more feature appends its request and its details line. */
  lemma {:induction false} ProbeOneMore(e: Endpoint, fs: seq<Feature>, f: Feature, model: string)
    ensures CallsFor(fs + [f], model) == CallsFor(fs, model) + [CallOf(f, model)]
    ensures EntriesFor(e, fs + [f], model) == EntriesFor(e, fs, model) + [Entry(e, f, model)]
    decreases |fs|
  {
    if fs != [] {
      assert (fs + [f])[1..] == fs[1..] + [f];
      ProbeOneMore(e, fs[1..], f, model);
    }
  }

  lemma AppendAssoc<T>(a: seq<T>, b: seq<T>, c: seq<T>)
    ensures a + (b + c) == (a + b) + c
  {
  }

  /** One probe step of `probe_model` as the request log sees it. */
  lemma ProbeStep(e: Endpoint, fs: seq<Feature>, f: Feature, model: string, start: seq<Call>)
    ensures start + CallsFor(fs + [f], model) == (start + CallsFor(fs, model)) + [CallOf(f, model)]
    ensures EntriesFor(e, fs + [f], model) == EntriesFor(e, fs, model) + [Entry(e, f, model)]
  {
    ProbeOneMore(e, fs, f, model);
    AppendAssoc(start, CallsFor(fs, model), [CallOf(f, model)]);
  }

  /** The requests issued while probing `model`, in order. */
  function ProbeCalls(e: Endpoint, model: string): (calls: seq<Call>)
    ensures |calls| == (if ChatSucceeds(e, model) then 5 else 2)
    ensures calls[0] == CallOf(Chat, model)
  {
    CallsFor(Attempted(ChatSucceeds(e, model)), model)
  }

  /** The labelled lines of the details text, one per probe that ran. */
  function DetailEntries(e: Endpoint, model: string): (entries: seq<string>)
    ensures |entries| == (if ChatSucceeds(e, model) then 5 else 2)
  {
    EntriesFor(e, Attempted(ChatSucceeds(e, model)), model)
  }

  /** Whether probe `f` runs: chat and embeddings always, the others only
      after chat succeeded. */
  predicate Runs(f: Feature, chatSupported: bool) {
    f == Chat || f == Embeddings || chatSupported
  }

  /** The probes that run are exactly those `Runs` admits, each once. */
  lemma AttemptedAreThoseThatRun(chatSupported: bool, f: Feature)
    ensures f in Attempted(chatSupported) <==> Runs(f, chatSupported)
    ensures multiset(Attempted(chatSupported))[f] == if Runs(f, chatSupported) then 1 else 0
  {
    var fs := Attempted(chatSupported);
    if chatSupported {
      assert fs == [Chat] + [Functions] + [JsonMode] + [Vision] + [Embeddings];
    } else {
      assert fs == [Chat] + [Embeddings];
    }
  }

  /** A flag is set when its probe ran and succeeded. */
  predicate Supports(e: Endpoint, f: Feature, model: string) {
    Runs(f, ChatSucceeds(e, model)) && VerdictOf(e, f, model).supported
  }

  /** The capabilities `probe_model` returns for `model`. */
  function Probed(e: Endpoint, model: string): (caps: ModelCapabilities)
    ensures caps.supportsChat <==> ChatSucceeds(e, model)
    ensures !caps.supportsChat ==>
      !caps.supportsFunctionCalling && !caps.supportsJsonMode && !caps.supportsVision
    ensures caps.supportsEmbeddings <==> VerdictOf(e, Embeddings, model).supported
    ensures caps.maxTokens == None
  {
    ModelCapabilities(
      supportsChat := Supports(e, Chat, model),
      supportsFunctionCalling := Supports(e, Functions, model),
      supportsJsonMode := Supports(e, JsonMode, model),
      supportsVision := Supports(e, Vision, model),
      supportsEmbeddings := Supports(e, Embeddings, model),
      maxTokens := None,
      details := Join(DetailEntries(e, model)))
  }

  /** The requests `run` issues after the listing, model by model. */
  function RunCalls(e: Endpoint, ids: seq<string>): seq<Call>
    decreases |ids|
  {
    if ids == [] then []
    else RunCalls(e, ids[..|ids| - 1]) + ProbeCalls(e, ids[|ids| - 1])
  }

  /** `model_capabilities` after probing `ids` one after another: each
      probe stores its result under the model's id. */
  function ProbedAll(e: Endpoint, ids: seq<string>): map<string, ModelCapabilities>
    decreases |ids|
  {
    if ids == [] then map[]
    else ProbedAll(e, ids[..|ids| - 1])[ids[|ids| - 1] := Probed(e, ids[|ids| - 1])]
  }

  lemma RunStep(e: Endpoint, ids: seq<string>, i: nat)
    requires i < |ids|
    ensures ProbedAll(e, ids[..i + 1]) == ProbedAll(e, ids[..i])[ids[i] := Probed(e, ids[i])]
    ensures RunCalls(e, ids[..i + 1]) == RunCalls(e, ids[..i]) + ProbeCalls(e, ids[i])
  {
    assert ids[..i + 1][..i] == ids[..i];
  }

  /** Every listed id, and nothing else, gets a capabilities record. */
  lemma {:induction false} ProbedAllKeys(e: Endpoint, ids: seq<string>)
    ensures forall id :: id in ProbedAll(e, ids) <==> id in ids
    decreases |ids|
  {
    if ids != [] {
      var front, last := ids[..|ids| - 1], ids[|ids| - 1];
      ProbedAllKeys(e, front);
      assert ids == front + [last];
    }
  }

  /** The record stored under a listed id is that model's probe result. */
  lemma {:induction false} ProbedAllValues(e: Endpoint, ids: seq<string>)
    ensures forall id :: id in ids ==> id in ProbedAll(e, ids) && ProbedAll(e, ids)[id] == Probed(e, id)
    decreases |ids|
  {
    if ids != [] {
      var front, last := ids[..|ids| - 1], ids[|ids| - 1];
      ProbedAllValues(e, front);
      forall id | id in ids
        ensures id in ProbedAll(e, ids) && ProbedAll(e, ids)[id] == Probed(e, id)
      {
        if id != last {
          assert ids == front + [last];
          assert id in front;
        }
      }
    }
  }

  // ---------------------------------------------------------------------
  // Properties of one probe run

  /** The chat flag is the chat request's outcome, the first details line
      is always the chat line, and `max_tokens` stays unset. */
  lemma ChatComesFirst(e: Endpoint, model: string)
    ensures Probed(e, model).supportsChat <==> e.complete(PlainChat, model).Ok?
    ensures DetailEntries(e, model)[0] == Entry(e, Chat, model)
    ensures ProbeCalls(e, model)[0] == CreateCompletion(PlainChat, model)
    ensures Probed(e, model).maxTokens == None
  {
    var fs := Attempted(ChatSucceeds(e, model));
    CallsForIndex(fs, model, 0);
    EntriesForIndex(e, fs, model, 0);
  }

  /** When chat fails, the function-calling, JSON-mode and vision requests
      are never made, their flags stay false, and the details are exactly
      the chat line and then the embeddings line. */
  lemma ChatFailureSkipsDependents(e: Endpoint, model: string)
    requires !ChatSucceeds(e, model)
    ensures |ProbeCalls(e, model)| == 2
    ensures ProbeCalls(e, model)[0] == CreateCompletion(PlainChat, model)
    ensures ProbeCalls(e, model)[1] == CreateEmbedding(model)
    ensures !Probed(e, model).supportsChat
    ensures !Probed(e, model).supportsFunctionCalling
    ensures !Probed(e, model).supportsJsonMode
    ensures !Probed(e, model).supportsVision
    ensures |DetailEntries(e, model)| == 2
    ensures DetailEntries(e, model)[0] == Entry(e, Chat, model)
    ensures DetailEntries(e, model)[1] == Entry(e, Embeddings, model)
  {
    var fs := Attempted(false);
    CallsForIndex(fs, model, 0);
    CallsForIndex(fs, model, 1);
    EntriesForIndex(e, fs, model, 0);
    EntriesForIndex(e, fs, model, 1);
  }

  /** When chat succeeds, all five requests are made, in the fixed order. */
  lemma ChatSuccessRunsAll(e: Endpoint, model: string)
    requires ChatSucceeds(e, model)
    ensures |ProbeCalls(e, model)| == 5
    ensures ProbeCalls(e, model)[0] == CreateCompletion(PlainChat, model)
    ensures ProbeCalls(e, model)[1] == CreateCompletion(WithFunctions, model)
    ensures ProbeCalls(e, model)[2] == CreateCompletion(JsonObject, model)
    ensures ProbeCalls(e, model)[3] == CreateCompletion(ImageInput, model)
    ensures ProbeCalls(e, model)[4] == CreateEmbedding(model)
  {
    var fs := Attempted(true);
    CallsForIndex(fs, model, 0);
    CallsForIndex(fs, model, 1);
    CallsForIndex(fs, model, 2);
    CallsForIndex(fs, model, 3);
    CallsForIndex(fs, model, 4);
  }

  /** When chat succeeds, each dependent flag is its own request's
      outcome: a failure of one does not skip the next. */
  lemma ChatSuccessSetsEachFlag(e: Endpoint, model: string)
    requires ChatSucceeds(e, model)
    ensures Probed(e, model).supportsFunctionCalling <==> e.complete(WithFunctions, model).Ok?
    ensures Probed(e, model).supportsJsonMode <==> e.complete(JsonObject, model).Ok?
    ensures Probed(e, model).supportsVision <==> e.complete(ImageInput, model).Ok?
  {
  }

  /** When chat succeeds, the details lines follow the probe order. */
  lemma ChatSuccessDetailsInOrder(e: Endpoint, model: string)
    requires ChatSucceeds(e, model)
    ensures |DetailEntries(e, model)| == 5
    ensures DetailEntries(e, model)[0] == Entry(e, Chat, model)
    ensures DetailEntries(e, model)[1] == Entry(e, Functions, model)
    ensures DetailEntries(e, model)[2] == Entry(e, JsonMode, model)
    ensures DetailEntries(e, model)[3] == Entry(e, Vision, model)
    ensures DetailEntries(e, model)[4] == Entry(e, Embeddings, model)
  {
    var fs := Attempted(true);
    EntriesForIndex(e, fs, model, 0);
    EntriesForIndex(e, fs, model, 1);
    EntriesForIndex(e, fs, model, 2);
    EntriesForIndex(e, fs, model, 3);
    EntriesForIndex(e, fs, model, 4);
  }

  /** The embeddings request is made on every run, last, and alone decides
      the embeddings flag. */
  lemma EmbeddingsAlwaysProbed(e: Endpoint, model: string)
    ensures ProbeCalls(e, model)[|ProbeCalls(e, model)| - 1] == CreateEmbedding(model)
    ensures Probed(e, model).supportsEmbeddings <==> e.embed(model).Ok?
    ensures DetailEntries(e, model)[|DetailEntries(e, model)| - 1]
      == Entry(e, Embeddings, model)
  {
    var fs := Attempted(ChatSucceeds(e, model));
    CallsForIndex(fs, model, |fs| - 1);
    EntriesForIndex(e, fs, model, |fs| - 1);
  }

  /** The endpoint quotes no line break back for `model`. */
  predicate SingleLineResponses(e: Endpoint, model: string) {
    && (forall k: Completion ::
          (e.complete(k, model).Ok? ==> SingleLine(e.complete(k, model).value)) &&
          (e.complete(k, model).Err? ==> SingleLine(e.complete(k, model).error)))
    && (e.embed(model).Err? ==> SingleLine(e.embed(model).error))
  }

  /** A dimension renders without a line break. */
  lemma {:induction false} DimensionSingleLine(n: nat)
    ensures SingleLine(NatToString(n))
  {
  }

  /** When no response or error text carries a line break, splitting the
      details on line breaks gives back exactly the labelled lines, one per
      probe that ran, in order: what the command line's table relies on. */
  lemma DetailsSplitIntoEntries(e: Endpoint, model: string)
    requires SingleLineResponses(e, model)
    ensures Split(Probed(e, model).details) == DetailEntries(e, model)
  {
    var entries := DetailEntries(e, model);
    var fs := Attempted(ChatSucceeds(e, model));
    forall i | 0 <= i < |entries|
      ensures SingleLine(entries[i])
    {
      EntriesForIndex(e, fs, model, i);
      EntrySingleLine(e, fs[i], model);
    }
    SplitJoin(entries);
  }

  /** Under the same condition each probe's labelled line holds no line
      break. */
  lemma EntrySingleLine(e: Endpoint, f: Feature, model: string)
    requires SingleLineResponses(e, model)
    ensures SingleLine(Entry(e, f, model))
  {
    if f == Embeddings {
      if e.embed(model).Ok? {
        DimensionSingleLine(e.embed(model).value);
      }
    } else {
      assert ResponseTo(e, f, model) == e.complete(CallOf(f, model).kind, model);
    }
    CheckSingleLine(f, ResponseTo(e, f, model));
  }

  // ---------------------------------------------------------------------
  // The probe object

  /** An `api_key` / `api_base` argument as the constructor may receive
      it: absent (`None`), a string, or a Typer option object (anything
      with a `default` attribute), which counts as absent. */
  datatype Arg = Absent | Given(text: string) | TyperOption

  /** The constructor's merge of one argument over the configured value: a
      non-empty string overrides it; `None`, "" and a Typer option leave it. */
  function Override(arg: Arg, current: string): (r: string)
    ensures arg.Given? && arg.text != "" ==> r == arg.text
    ensures !(arg.Given? && arg.text != "") ==> r == current
  {
    var a := if arg.TyperOption? then Absent else arg;
    if a.Given? && Truthy(a.text) then a.text else current
  }

  class APIProbe {
    const config: APIConfig
    var client: Client?

    /** `__init__` up to `_setup_client`: the configuration read from the
        environment, then the explicit arguments merged over it. */
    constructor (apiKey: Arg, apiBase: Arg, env: map<string, string>)
      ensures fresh(config) && client == null
      ensures config.apiKey == Override(apiKey, GetEnv(env, ApiKeyVariable, ""))
      ensures config.apiBase == Override(apiBase, GetEnv(env, ApiBaseVariable, ""))
    {
      var key := if apiKey.TyperOption? then Absent else apiKey;
      var base := if apiBase.TyperOption? then Absent else apiBase;
      config := new APIConfig(map[], env);
      client := null;
      new;
      if key.Given? && Truthy(key.text) {
        config.apiKey := key.text;
      }
      if base.Given? && Truthy(base.text) {
        config.apiBase := base.text;
      }
    }

    /** `_setup_client`: refuses an invalid configuration before any client
        exists; otherwise binds a fresh client to the key and base URL. */
    method SetupClient(endpoint: Endpoint) returns (error: Option<string>)
      modifies this`client
      ensures error.None? <==> config.apiKey != "" && config.apiBase != ""
      ensures error.Some? ==> error.value == MissingConfigMessage && client == old(client)
      ensures error.None? ==> client != null && fresh(client)
      ensures error.None? ==> client.apiKey == config.apiKey && client.baseUrl == config.apiBase
      ensures error.None? ==> client.endpoint == endpoint && client.log == []
    {
      if !config.ValidateConfig() {
        return Some(MissingConfigMessage);
      }
      client := new Client(config.apiKey, config.apiBase, endpoint);
      error := None;
    }

    /** `_test_chat_completion` */
    method TestChatCompletion(model: string) returns (supported: bool, details: string)
      requires client != null
      modifies client`log
      ensures Verdict(supported, details) == VerdictOf(client.endpoint, Chat, model)
      ensures client.log == old(client.log) + [CallOf(Chat, model)]
    {
      var response := client.CreateCompletion(PlainChat, model);
      var v := Check(Chat, response);
      supported, details := v.supported, v.message;
    }

    /** `_test_function_calling` */
    method TestFunctionCalling(model: string) returns (supported: bool, details: string)
      requires client != null
      modifies client`log
      ensures Verdict(supported, details) == VerdictOf(client.endpoint, Functions, model)
      ensures client.log == old(client.log) + [CallOf(Functions, model)]
    {
      var response := client.CreateCompletion(WithFunctions, model);
      var v := Check(Functions, response);
      supported, details := v.supported, v.message;
    }

    /** `_test_json_mode` */
    method TestJsonMode(model: string) returns (supported: bool, details: string)
      requires client != null
      modifies client`log
      ensures Verdict(supported, details) == VerdictOf(client.endpoint, JsonMode, model)
      ensures client.log == old(client.log) + [CallOf(JsonMode, model)]
    {
      var response := client.CreateCompletion(JsonObject, model);
      var v := Check(JsonMode, response);
      supported, details := v.supported, v.message;
    }

    /** `_test_vision` */
    method TestVision(model: string) returns (supported: bool, details: string)
      requires client != null
      modifies client`log
      ensures Verdict(supported, details) == VerdictOf(client.endpoint, Vision, model)
      ensures client.log == old(client.log) + [CallOf(Vision, model)]
    {
      var response := client.CreateCompletion(ImageInput, model);
      var v := Check(Vision, response);
      supported, details := v.supported, v.message;
    }

    /** `_test_embeddings` */
    method TestEmbeddings(model: string) returns (supported: bool, details: string)
      requires client != null
      modifies client`log
      ensures Verdict(supported, details) == VerdictOf(client.endpoint, Embeddings, model)
      ensures client.log == old(client.log) + [CallOf(Embeddings, model)]
    {
      var response := client.CreateEmbedding(model);
      var v := Check(Embeddings, RenderDimension(response));
      supported, details := v.supported, v.message;
    }

    /** `probe_model`: the probes one after another, each setting its flag
        and adding its line. */
    method ProbeModel(model: string) returns (caps: ModelCapabilities)
      requires client != null
      modifies client`log
      ensures caps == Probed(client.endpoint, model)
      ensures client.log == old(client.log) + ProbeCalls(client.endpoint, model)
    {
      ghost var e := client.endpoint;
      ghost var start := client.log;
      ghost var fs: seq<Feature> := [];
      caps := NoCapabilities;
      var details: seq<string> := [];

      var chatSupported, chatDetails := TestChatCompletion(model);
      caps := caps.(supportsChat := chatSupported);
      assert caps.supportsChat == Supports(e, Chat, model);
      details := details + [Label(Chat) + chatDetails];
      ProbeStep(e, fs, Chat, model, start);
      fs := [Chat];
      assert details == EntriesFor(e, fs, model);
      assert client.log == start + CallsFor(fs, model);

      if chatSupported {
        var funcSupported, funcDetails := TestFunctionCalling(model);
        caps := caps.(supportsFunctionCalling := funcSupported);
        assert caps.supportsFunctionCalling == Supports(e, Functions, model);
        details := details + [Label(Functions) + funcDetails];
        ProbeStep(e, fs, Functions, model, start);
        fs := fs + [Functions];
        assert details == EntriesFor(e, fs, model);
        assert client.log == start + CallsFor(fs, model);

        var jsonSupported, jsonDetails := TestJsonMode(model);
        caps := caps.(supportsJsonMode := jsonSupported);
        assert caps.supportsJsonMode == Supports(e, JsonMode, model);
        details := details + [Label(JsonMode) + jsonDetails];
        ProbeStep(e, fs, JsonMode, model, start);
        fs := fs + [JsonMode];
        assert details == EntriesFor(e, fs, model);
        assert client.log == start + CallsFor(fs, model);

        var visionSupported, visionDetails := TestVision(model);
        caps := caps.(supportsVision := visionSupported);
        assert caps.supportsVision == Supports(e, Vision, model);
        details := details + [Label(Vision) + visionDetails];
        ProbeStep(e, fs, Vision, model, start);
        fs := fs + [Vision];
        assert details == EntriesFor(e, fs, model);
        assert client.log == start + CallsFor(fs, model);
      } else {
        assert !Supports(e, Functions, model) && !Supports(e, JsonMode, model) && !Supports(e, Vision, model);
      }

      var embSupported, embDetails := TestEmbeddings(model);
      caps := caps.(supportsEmbeddings := embSupported);
      assert caps.supportsEmbeddings == Supports(e, Embeddings, model);
      details := details + [Label(Embeddings) + embDetails];
      ProbeStep(e, fs, Embeddings, model, start);
      fs := fs + [Embeddings];
      assert details == EntriesFor(e, fs, model);
      assert client.log == start + CallsFor(fs, model);

      caps := caps.(details := Join(details));
      AttemptedInSteps();
      assert chatSupported == ChatSucceeds(e, model);
      assert details == DetailEntries(e, model);
      assert client.log == start + ProbeCalls(e, model);
    }

    /** `run`: list the models, then probe each in the order listed; a
        listing failure becomes the error message and leaves both
        collections empty. */
    method Run() returns (result: ProbeResult)
      requires client != null
      modifies client`log
      ensures client.endpoint.listing.Ok? ==>
        && result.availableModels == client.endpoint.listing.value
        && result.modelCapabilities == ProbedAll(client.endpoint, client.endpoint.listing.value)
        && (forall id :: id in result.modelCapabilities <==> id in client.endpoint.listing.value)
        && result.errorMessage == None
        && client.log == old(client.log) + [ListModels] + RunCalls(client.endpoint, client.endpoint.listing.value)
      ensures client.endpoint.listing.Err? ==>
        && result == ProbeResult([], map[], Some(ListingFailurePrefix + client.endpoint.listing.error))
        && client.log == old(client.log) + [ListModels]
    {
      result := ProbeResult([], map[], None);
      var listing := client.ListModels();
      match listing
      case Err(error) =>
        result := result.(errorMessage := Some(ListingFailurePrefix + error));
      case Ok(ids) =>
        result := result.(availableModels := ids);
        ghost var e := client.endpoint;
        ghost var prefix := old(client.log) + [ListModels];
        var i := 0;
        while i < |ids|
          invariant 0 <= i <= |ids|
          invariant result.availableModels == ids && result.errorMessage == None
          invariant result.modelCapabilities == ProbedAll(e, ids[..i])
          invariant client.log == prefix + RunCalls(e, ids[..i])
        {
          var caps := ProbeModel(ids[i]);
          result := result.(modelCapabilities := result.modelCapabilities[ids[i] := caps]);
          RunStep(e, ids, i);
          AppendAssoc(prefix, RunCalls(e, ids[..i]), ProbeCalls(e, ids[i]));
          i := i + 1;
        }
        assert ids[..i] == ids;
        ProbedAllKeys(e, ids);
    }
  }

  /** `APIProbe(api_key, api_base)`: the constructor followed by
      `_setup_client`; the `ValueError` it raises on an invalid merged
      configuration is the `Err` here, and then no client is created. */
  method NewAPIProbe(apiKey: Arg, apiBase: Arg, env: map<string, string>, endpoint: Endpoint)
    returns (r: Outcome<APIProbe>)
    ensures
      var key := Override(apiKey, GetEnv(env, ApiKeyVariable, ""));
      var base := Override(apiBase, GetEnv(env, ApiBaseVariable, ""));
      && (r.Err? <==> key == "" || base == "")
      && (r.Err? ==> r.error == MissingConfigMessage)
      && (r.Ok? ==> r.value.client != null && r.value.client.apiKey == key && r.value.client.baseUrl == base)
      && (r.Ok? ==> r.value.client.endpoint == endpoint && r.value.client.log == [])
  {
    var probe := new APIProbe(apiKey, apiBase, env);
    var error := probe.SetupClient(endpoint);
    if error.Some? {
      return Err(error.value);
    }
    return Ok(probe);
  }
}
