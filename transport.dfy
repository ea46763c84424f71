/** The network side of the probe, reduced to what the probe's decisions
    depend on. The real client is the OpenAI library's asynchronous client;
    here an `Endpoint` says what each request would give back, and a
    `Client` bound to a key and a base URL issues requests one at a time
    and keeps a log of them, so that which requests were made, and in what
    order, can be stated. */
module Transport {
  import opened Outcomes

  /** The four shapes of chat-completion request the probe sends. */
  datatype Completion =
    | PlainChat      // one user message
    | WithFunctions  // plus one function definition
    | JsonObject     // plus a JSON-object response format
    | ImageInput     // text plus an inline image

  /** One request issued through the client. */
  datatype Call =
    | CreateCompletion(kind: Completion, model: string)
    | CreateEmbedding(model: string)
    | ListModels

  /** What the endpoint answers. A completion gives the rendered content of
      the first choice's message, an embedding request the length of the
      first vector, a listing the model ids in the order returned; any of
      them may instead raise, with the error's text. A response whose
      fields cannot be read is an `Err` as well. */
  datatype Endpoint = Endpoint(
    complete: (Completion, string) -> Outcome<string>,
    embed: string -> Outcome<nat>,
    listing: Outcome<seq<string>>)

  class Client {
    const apiKey: string
    const baseUrl: string
    const endpoint: Endpoint
    /** Every request issued so far, oldest first. */
    var log: seq<Call>

    constructor (apiKey: string, baseUrl: string, endpoint: Endpoint)
      ensures this.apiKey == apiKey && this.baseUrl == baseUrl
      ensures this.endpoint == endpoint
      ensures log == []
    {
      this.apiKey := apiKey;
      this.baseUrl := baseUrl;
      this.endpoint := endpoint;
      log := [];
    }

    /** `chat.completions.create(...)` */
    method CreateCompletion(kind: Completion, model: string) returns (o: Outcome<string>)
      modifies this`log
      ensures o == endpoint.complete(kind, model)
      ensures log == old(log) + [Call.CreateCompletion(kind, model)]
    {
      o := endpoint.complete(kind, model);
      log := log + [Call.CreateCompletion(kind, model)];
    }

    /** `embeddings.create(...)` */
    method CreateEmbedding(model: string) returns (o: Outcome<nat>)
      modifies this`log
      ensures o == endpoint.embed(model)
      ensures log == old(log) + [Call.CreateEmbedding(model)]
    {
      o := endpoint.embed(model);
      log := log + [Call.CreateEmbedding(model)];
    }

    /** `models.list()` */
    method ListModels() returns (o: Outcome<seq<string>>)
      modifies this`log
      ensures o == endpoint.listing
      ensures log == old(log) + [Call.ListModels]
    {
      o := endpoint.listing;
      log := log + [Call.ListModels];
    }
  }
}
