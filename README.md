# openai-compatible-api-probe, modelled in Dafny

The probe asks an OpenAI-compatible endpoint which features each of its
models supports. For one model, `APIProbe.probe_model`:

- sends a plain chat completion;
- only if that succeeds, sends a function-calling request, a JSON-mode
  request and a vision (inline image) request, in that order;
- always sends an embeddings request, last.

Each `_test_*` helper turns its request's outcome into a flag and a message.
It never raises: an error becomes `False` plus a fixed prefix and the
error's text. Each probe sets its flag in a `ModelCapabilities` record and
appends one labelled line ("Chat: ...", "Functions: ...", ...). The lines
are joined with line breaks into `details`.

`APIProbe.run` lists the models and probes each one. A failed listing
becomes `error_message`. The constructor merges explicit arguments over an
`APIConfig` read from the environment, and refuses an invalid configuration
with `ValueError`. On the command line, `filter_models` is a case-insensitive
substring filter, and `format_result_table` picks rows, tick/cross marks and
a details line per row from a capabilities record.

The modules follow the repository:

- `Outcomes`: `Option`, and `Outcome` (`Ok(value)` or `Err(text)`), which
  stands for a call that may raise.
- `Strings`: the Python string operations the code relies on: `in`,
  `lower`, `"\n".join`, `split("\n")` and `str` of a natural number.
- `Transport`: the OpenAI client reduced to what the probe's decisions
  depend on.
  - An `Endpoint` says what each request would answer.
  - A `Client` bound to a key and a base URL issues requests and logs them
    in order.
- `Config`: `APIConfig` as a class. The environment is a map parameter.
- `Verdicts`: the five `_test_*` helpers, given the transport's answer:
  labels, fixed message texts and the flag/message pair.
- `Probe`:
  - `ModelCapabilities` and `ProbeResult` as datatypes;
  - a declarative account of one probe run (`Probed`, `ProbeCalls`,
    `DetailEntries`);
  - the `APIProbe` class, whose `ProbeModel` and `Run` methods update the
    records and the client's request log step by step and are proved to
    match that account.
- `Cli`:
  - `filter_models`;
  - the rows of `format_result_table` (built through a `Table` class by
    successive `AddRow` calls);
  - the decisions of `handle_model_probe` and `handle_pattern_probe`.

Where the repository's tests and command line disagree with `probe.py`, the
model follows `probe.py`:

- tests/test_probe.py:17 and :97 expect a structured-output probe (through
  `beta.chat.completions.parse`) and a `supports_structured_output` flag.
  The code sends a JSON-mode request and sets `supports_json_mode`.
- tests/test_probe.py:93-99 expect `probe_model` to return a result that
  carries `model_id` and `api_base`. The code returns a bare
  `ModelCapabilities`.
- The command's help text (openai_compatible_api_probe/cli.py:180) lists chat completions, function
  calling, JSON mode and vision, but not embeddings. The code always runs
  an embeddings probe, last.

## Model

| member | source | states |
|---|---|---|
| Config.GetEnv | openai_compatible_api_probe/config.py:26-27 | `os.getenv(name, default)`: the variable's value when it is set, the default otherwise |
| Config.APIConfig.constructor | openai_compatible_api_probe/config.py:18-22 | with no keyword data both fields come from the environment (missing gives ""); with any data, given fields are taken and the rest keep their defaults "" and "https://api.openai.com/v1", and the environment is not read |
| Config.APIConfig.RefreshFromEnv | openai_compatible_api_probe/config.py:24-27 | overwrites both fields with the environment's values, "" for a missing variable |
| Config.APIConfig.ValidateConfig | openai_compatible_api_probe/config.py:29-31 | valid exactly when key and base URL are both non-empty |
| Config.NoDataWithoutBaseVariableIsInvalid | openai_compatible_api_probe/config.py:16-31 | with no data and no OPENAI_API_BASE, the environment's "" replaces the default base URL, so the config is invalid whatever the key |
| Config.KeyOnlyDataKeepsDefaultBase | openai_compatible_api_probe/config.py:15-22 | data naming only the key keeps the default base URL, and the config is valid exactly when the key is non-empty |
| Transport.Client.constructor | openai_compatible_api_probe/probe.py:52-55 | the client is bound to the configured key and base URL and has issued no request |
| Transport.Client.CreateCompletion | openai_compatible_api_probe/probe.py:65-69 | answers what the endpoint answers for that request and appends exactly that request to the log |
| Transport.Client.CreateEmbedding | openai_compatible_api_probe/probe.py:149-152 | answers the endpoint's embedding outcome and appends exactly that request to the log |
| Transport.Client.ListModels | openai_compatible_api_probe/probe.py:199 | answers the endpoint's listing and appends the listing request to the log |
| Verdicts.Check | openai_compatible_api_probe/probe.py:61-156 | a helper always yields a verdict; its flag is true exactly when the request succeeded; on success the message is the probe's fixed success text followed by the reply for chat, functions and embeddings and by nothing for JSON mode and vision; on an error it is the probe's failure prefix followed by the error text |
| Verdicts.SuccessIsNotFailure | openai_compatible_api_probe/probe.py:61-156 | no success message of a probe starts with that probe's failure prefix |
| Verdicts.VerdictReadableFromMessage | openai_compatible_api_probe/probe.py:61-156 | the flag can be read back from the message (failure iff it starts with the failure prefix), and the error text is recovered after the prefix |
| Verdicts.JsonModeAndVisionIgnoreResponse | openai_compatible_api_probe/probe.py:100-143 | the JSON-mode and vision verdicts for a successful request do not depend on the response |
| Verdicts.FixedTextsSingleLine | openai_compatible_api_probe/probe.py:61-186 | no label, success prefix or failure prefix holds a line break |
| Verdicts.CheckSingleLine | openai_compatible_api_probe/probe.py:61-156 | a verdict message, and its labelled line, hold a line break only if the quoted response or error text does |
| Verdicts.RenderDimension | openai_compatible_api_probe/probe.py:153 | a successful embedding request renders as `str(n)` of the vector length (`NatToString`: decimal digits, no leading zero, value the length); a failed one keeps its error text |
| Strings.ContainsAt | openai_compatible_api_probe/cli.py:70 | `sub in s` holds exactly when `sub` occurs at some position of `s` |
| Strings.LowerCharIgnoresCase | openai_compatible_api_probe/cli.py:69-70 | two characters lower-case alike exactly when they are equal or are the two cases of one ASCII letter |
| Strings.LowerIgnoresCase | openai_compatible_api_probe/cli.py:69-70 | two strings have the same lower-case form exactly when they have the same length and each position holds the same character or the two cases of one ASCII letter |
| Strings.LowerIdempotent | openai_compatible_api_probe/cli.py:69-70 | lower-casing twice is lower-casing once |
| Strings.UpperKeepsLetters | openai_compatible_api_probe/cli.py:69 | upper-casing changes only letter case: each position keeps its character or its letter's other case |
| Strings.Lower | openai_compatible_api_probe/cli.py:69-70 | `lower()` keeps the length and lower-cases each character on its own; case-insensitivity and idempotence are stated by LowerIgnoresCase and LowerIdempotent |
| Strings.Split | openai_compatible_api_probe/cli.py:41 | `split("\n")` gives at least one piece, none holding a line break |
| Strings.Join | openai_compatible_api_probe/probe.py:188 | `"\n".join(parts)` starts with the first part; SplitJoin states that splitting it gives the parts back |
| Strings.SplitJoin | openai_compatible_api_probe/probe.py:188 | splitting the joined lines gives back the same lines in order when none holds a line break |
| Strings.NatToString | openai_compatible_api_probe/probe.py:153 | `str(n)` is a non-empty string of decimal digits with no leading zero whose value is `n` |
| Probe.Attempted | openai_compatible_api_probe/probe.py:164-186 | the probes that run start with chat and end with embeddings |
| Probe.AttemptedAreThoseThatRun | openai_compatible_api_probe/probe.py:164-186 | each probe runs at most once; chat and embeddings always run, the other three exactly when chat succeeded |
| Probe.ProbeOneMore | openai_compatible_api_probe/probe.py:165-186 | one more probe appends exactly its request to the calls and exactly its labelled line to the details |
| Probe.ProbeCalls | openai_compatible_api_probe/probe.py:158-190 | probing a model issues five requests when chat succeeds and two when it fails, the first being the chat request; the order is stated by ChatSuccessRunsAll and ChatFailureSkipsDependents |
| Probe.DetailEntries | openai_compatible_api_probe/probe.py:158-190 | the details text has five lines when chat succeeds and two when it fails; their content and order are stated by ChatSuccessDetailsInOrder and ChatFailureSkipsDependents |
| Probe.Probed | openai_compatible_api_probe/probe.py:158-190 | `supports_chat` is the chat outcome, a failed chat leaves the three dependent flags false, `supports_embeddings` is the embeddings outcome and `max_tokens` stays unset; ChatSuccessSetsEachFlag states the dependent flags when chat succeeds |
| Probe.ChatComesFirst | openai_compatible_api_probe/probe.py:161-167 | `supports_chat` is the chat request's outcome, the first request is the chat request, the first details line is "Chat: " and the chat message, and `max_tokens` stays unset |
| Probe.ChatFailureSkipsDependents | openai_compatible_api_probe/probe.py:170-186 | if chat fails, only the chat and embeddings requests are made, the chat, function, JSON and vision flags are false, and details has exactly the chat line, then the embeddings line |
| Probe.ChatSuccessRunsAll | openai_compatible_api_probe/probe.py:170-186 | if chat succeeds, all five requests are made, in the order chat, functions, JSON mode, vision, embeddings |
| Probe.ChatSuccessSetsEachFlag | openai_compatible_api_probe/probe.py:170-181 | if chat succeeds, each dependent flag is its own request's outcome, whatever the others gave |
| Probe.ChatSuccessDetailsInOrder | openai_compatible_api_probe/probe.py:164-186 | if chat succeeds, details has five lines, one per probe, in probe order |
| Probe.EmbeddingsAlwaysProbed | openai_compatible_api_probe/probe.py:183-186 | the embeddings request is always the last one made, its outcome alone sets the flag, and its line is the last details line |
| Probe.DimensionSingleLine | openai_compatible_api_probe/probe.py:153 | a rendered vector dimension holds no line break |
| Probe.DetailsSplitIntoEntries | openai_compatible_api_probe/probe.py:188 | if no response or error text holds a line break, splitting details on line breaks gives back exactly the labelled lines |
| Probe.EntrySingleLine | openai_compatible_api_probe/probe.py:164-186 | if no response or error text holds a line break, no probe's labelled details line does |
| Probe.RunStep | openai_compatible_api_probe/probe.py:204-205 | probing one more listed id adds that model's record under its id and appends that model's requests |
| Probe.ProbedAllKeys | openai_compatible_api_probe/probe.py:204-205 | after the loop, the capabilities map has a key for every listed id and no other |
| Probe.ProbedAllValues | openai_compatible_api_probe/probe.py:204-205 | the record under each listed id is that model's probe result |
| Probe.Override | openai_compatible_api_probe/probe.py:31-40 | a non-empty explicit argument replaces the configured value; `None`, "" and a Typer option leave it |
| Probe.APIProbe.constructor | openai_compatible_api_probe/probe.py:28-43 | the config is read from the environment, then each argument is merged over it; no client yet |
| Probe.APIProbe.SetupClient | openai_compatible_api_probe/probe.py:46-55 | an invalid config gives the `ValueError` message and creates no client; otherwise a fresh client gets the config's key and base URL |
| Probe.APIProbe.TestChatCompletion | openai_compatible_api_probe/probe.py:61-73 | issues exactly the chat request and returns its verdict |
| Probe.APIProbe.TestFunctionCalling | openai_compatible_api_probe/probe.py:75-98 | issues exactly the function-calling request and returns its verdict |
| Probe.APIProbe.TestJsonMode | openai_compatible_api_probe/probe.py:100-113 | issues exactly the JSON-mode request and returns its verdict |
| Probe.APIProbe.TestVision | openai_compatible_api_probe/probe.py:115-143 | issues exactly the vision request and returns its verdict |
| Probe.APIProbe.TestEmbeddings | openai_compatible_api_probe/probe.py:145-156 | issues exactly the embeddings request and returns its verdict on the rendered dimension |
| Probe.APIProbe.ProbeModel | openai_compatible_api_probe/probe.py:158-190 | the record built step by step is `Probed` (flags and joined details), and the requests made are exactly `ProbeCalls`, in order |
| Probe.APIProbe.Run | openai_compatible_api_probe/probe.py:192-213 | on a listing, the models are the listed ids in order, every listed id (and only those) gets its probed record, and there is no error; on a listing failure both collections stay empty and the error is "Failed to probe API: " and the error text |
| Probe.NewAPIProbe | openai_compatible_api_probe/probe.py:28-49 | construction fails with "API key and base URL are required" exactly when the merged key or base URL is empty; otherwise the client holds the merged values and has made no request |
| Cli.KeepMatching | openai_compatible_api_probe/cli.py:70 | the kept ids are a subsequence of the list, all match, and each matching id is kept as often as it is listed |
| Cli.FilterModels | openai_compatible_api_probe/cli.py:67-70 | the kept ids are a subsequence of the list and the lower-case form of each kept id contains the lower-case pattern; FilterKeepsExactlyMatches states that every such id is kept |
| Cli.FilterKeepsExactlyMatches | openai_compatible_api_probe/cli.py:67-70 | an id is kept exactly when it is listed and its lower-case form contains the lower-case pattern |
| Cli.KeepMatchingIdempotent | openai_compatible_api_probe/cli.py:70 | keeping matches of already kept ids changes nothing |
| Cli.FilterIdempotent | openai_compatible_api_probe/cli.py:67-70 | filtering twice with one pattern equals filtering once |
| Cli.FilterEmptyPatternKeepsAll | openai_compatible_api_probe/cli.py:69-70 | an empty pattern returns the list unchanged |
| Cli.FilterIgnoresPatternCase | openai_compatible_api_probe/cli.py:69 | patterns that differ only in letter case select the same ids |
| Cli.Mark | openai_compatible_api_probe/cli.py:40 | the mark is a tick exactly when the flag is set and a cross exactly when it is not |
| Cli.FirstLine | openai_compatible_api_probe/cli.py:41 | the chat row's line holds no line break and is the first piece of `details.split("\n")`, which is "" for empty details |
| Cli.FirstIndexContaining | openai_compatible_api_probe/cli.py:47-61 | the search stops at the first line containing the needle, or past the end if none does |
| Cli.FirstContaining | openai_compatible_api_probe/cli.py:47-61 | `next(..., "")` gives "" or a listed line holding the needle; FirstContainingIsFirstMatch states which one |
| Cli.FirstContainingIsFirstMatch | openai_compatible_api_probe/cli.py:47-61 | `next(..., "")` gives "" exactly when no line holds the needle, and otherwise the first line that does |
| Cli.FirstContainingAt | openai_compatible_api_probe/cli.py:47-61 | the search gives line k when k is the first line holding the needle |
| Cli.Table.constructor | openai_compatible_api_probe/cli.py:29 | a new table has no rows |
| Cli.Table.AddRow | openai_compatible_api_probe/cli.py:38-42 | adds exactly one row, at the end |
| Cli.FormatResultTable | openai_compatible_api_probe/cli.py:27-64 | the rows added one by one are `ResultRows` of the capabilities |
| Cli.ResultRows | openai_compatible_api_probe/cli.py:38-62 | four rows when chat is supported, one otherwise; the first is "Chat" with the chat mark and the first details line; RowsGatedByChat, MarksFollowFlags and the row lemmas below state the rest |
| Cli.RowsGatedByChat | openai_compatible_api_probe/cli.py:38-62 | without chat support exactly one row, Chat; with it exactly four, Chat, Functions, JSON Mode, Vision |
| Cli.MarksFollowFlags | openai_compatible_api_probe/cli.py:38-61 | each row shows a tick exactly when its feature's flag is set |
| Cli.ChatRowShowsChatLine | openai_compatible_api_probe/cli.py:38-42 | for a probed model with single-line replies, the chat row shows the "Chat: " line |
| Cli.DependentRowsShowLines | openai_compatible_api_probe/cli.py:43-62 | with chat supported, each dependent row shows its labelled line when no earlier line mentions its label |
| Cli.ProbedLinesLabelled | openai_compatible_api_probe/probe.py:170-181 | when chat succeeds, details lines two to four start with "Functions:", "JSON Mode:" and "Vision:" |
| Cli.DetailLineLabelled | openai_compatible_api_probe/probe.py:170-181 | when chat succeeds, a details line starts with every prefix of its probe's label |
| Cli.DependentRowsShowTheirLines | openai_compatible_api_probe/cli.py:43-62 | for a probed model whose chat works and whose replies are single-line, each dependent row shows its own probe's line unless an earlier line mentions that label |
| Cli.HandleModelProbe | openai_compatible_api_probe/cli.py:89-96 | the model is probed, alone, exactly when its id is listed exactly as typed; otherwise "Model <id> not found" |
| Cli.HandlePatternProbe | openai_compatible_api_probe/cli.py:99-111 | no match reports "No models found matching that pattern"; otherwise, if the user confirms, exactly the matching ids are probed, and if not, nothing happens |

## Left out

- Network: the `AsyncOpenAI` client and its requests are an abstract `Endpoint`. Request payloads (messages, function schema, image, `max_tokens=10`, `response_format`) are not modelled, because no decision depends on them.
- Extracting response fields (`choices[0].message.content`, `data[0].embedding`, `str(e)`) is folded into the outcome. An answer whose fields cannot be read counts as an error, as the `except` branch would treat it.
- The endpoint answers deterministically per request kind and model. A listing with duplicate ids whose second probe answers differently is therefore not modelled: the last write wins in both.
- `async`/`await` and `asyncio.run`: the code runs strictly sequentially, so calls are ordinary sequential calls.
- Logging (`logging.basicConfig` and every `logger` call).
- `load_dotenv` / `load_env_vars`: file I/O. `os.getenv` reads a map parameter.
- `Strings.Lower`: covers ASCII letters only, not Python's full Unicode `str.lower`.
- `Strings.Upper`: likewise ASCII-only, and used only to state the case property.
- Pydantic validation of `APIConfig` keyword data (types, unknown keys): data is a map of string fields.
- `ProbeResult.model_capabilities` is a dict that remembers insertion order. The model uses a `map`, which does not; `available_models` keeps the listed order.
- `format_result_table` reads `result.model_id` and `result.capabilities`, which the `ModelCapabilities` returned by `probe_model` does not have. As written, `probe_models` would catch the resulting `AttributeError`. The model gives the table's row logic over the `ModelCapabilities` fields it reads; the title and column styling are left out.
- Cli.DependentRowsShowTheirLines: the row lookup is a substring search, so a reply that itself mentions "Functions:", "JSON Mode:" or "Vision:" can make an earlier line win. The lemma assumes no earlier line does, rather than claiming the row always shows its own probe's line.
- `probe_models`, `interactive_menu`, `version_callback`, `callback` and the `probe` command: terminal UI with printing and prompts.
- Cli.HandlePatternProbe: the confirmation prompt is a boolean parameter, and the listing of matches it prints is left out.
- Cli.HandleModelProbe and Cli.HandlePatternProbe: their only caller, `interactive_menu`, first calls `probe.list_models()` (cli.py:119), which `APIProbe` does not define. As written, that call raises, the menu exits, and neither handler is reached. The model states what the handlers decide when called.
- Behaviour the tests expect but `probe.py` does not define (`list_models`, structured output via `beta.chat.completions.parse`, `ProbeResult.model_id` / `api_base`, the `probe-models` / `probe-pattern` / `interactive` commands): not part of the code, so not modelled.
