# Untrace SDK core, modelled in Dafny

Untrace is an LLM observability SDK shipped for Python, Go and Rust. Each SDK
wraps calls to LLM providers in OpenTelemetry spans carrying the request,
the response and the token usage. It records token, cost, latency and
error metrics, tracks workflows, and exports spans to the Untrace ingest
service. This project models the core of all three SDKs as pure Dafny
functions over immutable data, and proves what their operations promise.

**Python SDK** (`py_*.dfy`)
- Value classes (`PyTypes`) and attribute helpers (`PyAttributes`).
- The OTLP JSON exporter (`PyExporter`). It groups spans by resource and scope (`Grouping`).
- The tracer and its `with_span` wrappers (`PyTracer`), over spans modelled as action logs (`Spans`).
- The metrics recorder (`PyMetrics`).
- The provider adapters. The shared base (`PyAdapterBase`, `PyAdapterCall`) and OpenAI, Google,
  Cohere, Anthropic, Azure OpenAI and AWS Bedrock each have a model. Monkey-patching is a table
  of slots.
- The provider registry (`PyProviders`) and the backward-compatible instrumentation module
  (`PyInstrumentation`).
- The `Untrace` singleton (`PyUntrace`).
- Python dictionaries are insertion-ordered association lists (`OrderedDict`). Python's
  dynamic values are `PyValues.PyValue`. Their `str()` shows each string inside a list, tuple
  or dict by Python's `repr` (`PyStringRepr`): quoted, with the quote choice and escapes Python
  makes.

**Go SDK** (`go_*.dfy`)
- Errors, configuration and attribute helpers.
- The tracer, the HTTP exporter and metrics.
- The workflow context, the provider instrumentations, the `Trace*` helpers and the client.
- Go maps are Dafny maps. Every loop over a map takes the visiting order as an explicit
  sequence of keys, because Go leaves it unspecified (`GoValues`).
- A value of the `Client` interface is `GoClient.ClientRef`: the nil interface, or an
  interface holding an `*untraceClient` pointer that may itself be nil. A provider's call
  through a nil pointer ends in the outcome `NilDereference`, Go's panic.

**Rust SDK** (`rs_*.dfy`)
- The error type and the data types.
- Configuration, including the environment reader and the builders.
- Attribute helpers, the tracer, the provider registry, the instrumentation manager,
  the context and metrics.

**Shared modules**
- `Wrappers`: `Option` and `Result`.
- `Digits`: decimal and hexadecimal rendering and parsing.
- `Text`: splitting, joining, trimming and ASCII case.

Clocks, random identifiers, HTTP round trips and the OpenTelemetry runtime
enter the model as parameters or as the recorded calls made to them.

## Model

| member | source | states |
|---|---|---|
| PyStringRepr.StringReprRoundTrip | sdks/python/src/untrace/instrumentation/openai.py:120 | each string inside the recorded `str(messages)` is shown by its `repr`, which reads back as a Python string literal to exactly that string: the chosen quote and the backslash are escaped, tab, newline and carriage return become `\t`, `\n` and `\r`, and the other unprinted characters below U+0100 become `\xhh` |
| PyStringRepr.StringReprInjective | sdks/python/src/untrace/instrumentation/openai.py:120 | distinct strings inside recorded messages are shown by distinct texts |
| PyStringRepr.PlainStringRepr | sdks/python/src/untrace/providers/anthropic.py:112 | printable ASCII text without a backslash is shown unchanged between single quotes, or between double quotes when it holds a single quote and no double quote |
| PyStringRepr.NewlineRepr | sdks/python/src/untrace/providers/microsoft.py:120 | a newline inside a recorded message is shown as backslash and `n` between the chosen quotes |
| PyValues.MessageListStr | sdks/python/src/untrace/instrumentation/openai.py:120 | `str()` of a one-message list is `[{`, the key's repr, `: `, the text's repr and `}]` |
| PyValues.ApostropheMessageStr | sdks/python/src/untrace/providers/microsoft.py:120 | a message text holding an apostrophe and no double quote is recorded between double quotes |
| PyValues.ObjectInListStr | sdks/python/src/untrace/instrumentation/openai.py:220 | an object inside a recorded input list is shown by its `repr`, not its `str` |
| PyTypes.SchemasWellFormed | sdks/python/src/untrace/types.py:114-153 | the LLM, vector-database, framework and workflow bags each use distinct parameter names and distinct attribute keys |
| PyTypes.Construct | sdks/python/src/untrace/types.py:65-88 | constructing an attribute bag fails with a `TypeError` exactly when a required argument is missing |
| PyTypes.ConstructProperties | sdks/python/src/untrace/types.py:114-156 | key by key, a bag holds an extra keyword argument under its own name (winning over a declared key), each required value under its key, each optional value under its key exactly when passed and not `None`, and nothing else; the required keys come first in declaration order |
| PyTypes.MakeSpanOptions | sdks/python/src/untrace/types.py:336-354 | span options default a missing kind to INTERNAL and missing attributes to an empty dict, and keep name and parent |
| PyTypes.MakeCost | sdks/python/src/untrace/types.py:387-411 | a cost keeps its model, provider, total, optional parts and currency, the currency defaulting to "USD" |
| PyTypes.MakeConfig | sdks/python/src/untrace/types.py:11-59 | the stored base URL is the given one with every trailing `/` removed; a missing or empty provider list becomes `["all"]`; missing dicts become empty |
| PyTypes.ConfigIdempotent | sdks/python/src/untrace/types.py:46-59 | building a configuration again from a built one's fields gives the same configuration |
| PyAttributes.CreateBagProperties | sdks/python/src/untrace/attributes.py:85-173 | a `create_*_attributes` builder succeeds when no additional argument repeats a required parameter, and its bag holds each required value under its attribute key (unless an additional argument of that key replaced it), each optional parameter passed among the additional arguments, and every other additional argument under its own name |
| PyAttributes.SanitizeProperties | sdks/python/src/untrace/attributes.py:176-196 | sanitising drops exactly the keys whose value is `None`, keeps the others in order, passes a str/int/float/bool through unchanged and replaces anything else by its `str()` |
| PyAttributes.SanitizeIdempotent | sdks/python/src/untrace/attributes.py:176-196 | sanitising an already sanitised dictionary changes nothing |
| PyAttributes.MergeProperties | sdks/python/src/untrace/attributes.py:199-212 | after merging, every key holds the value of the last attribute set that has it, and keys are unique |
| PyExporter.DecodeConvert | sdks/python/src/untrace/exporter.py:263-298 | converting any value to its OTLP form and reading it back gives the value in normal form (a tuple as a list, `None` entries of a dict dropped, any other object as its `str()`) |
| PyExporter.ConvertAttributesProperties | sdks/python/src/untrace/exporter.py:237-261 | the converted attribute list reads back as the attributes with `None` entries dropped, and its keys are exactly the non-`None` keys in order |
| PyExporter.ConvertInjective | sdks/python/src/untrace/exporter.py:263-298 | two different values in normal form never convert to the same OTLP value |
| PyExporter.AttributeValueToJson | sdks/python/src/untrace/exporter.py:148 | two attribute values give the same JSON text exactly when they agree up to tuple versus list |
| PyExporter.ResourceKeyDefined | sdks/python/src/untrace/exporter.py:147-148 | `json.dumps` of a resource whose values are attribute values never fails |
| PyExporter.ResourceKeyIff | sdks/python/src/untrace/exporter.py:147-148 | two resources share a resource key exactly when they hold the same names with values equal up to tuple versus list, whatever the insertion order |
| PyExporter.ResourceKeyOrderFree | sdks/python/src/untrace/exporter.py:147-148 | with `sort_keys=True`, the resource key does not depend on the order the attributes were inserted in |
| PyExporter.ConvertSpanProperties | sdks/python/src/untrace/exporter.py:197-235 | the OTLP span holds the trace and span ids as 32- and 16-digit hex that read back to the ids, a parent id exactly when there is a parent, start and end times as decimal text that reads back to the instants, the kind and status numbers, the non-`None` attribute keys, and one event and link per event and link, in order |
| PyExporter.ScopeRoundTrip | sdks/python/src/untrace/exporter.py:172-177 | a scope whose name has no colon is rebuilt intact from its `name:version` key, except that an empty version comes back as no version |
| PyExporter.ScopeKeyCollision | sdks/python/src/untrace/exporter.py:149 | a colon in a scope name lets two different scopes share one key, and the payload then shows the second scope's split |
| PyExporter.PayloadProperties | sdks/python/src/untrace/exporter.py:138-195 | the payload has one resource entry per distinct resource key in order of first appearance, each with the resource attributes of its first span, one scope entry per distinct scope key in order of first appearance, each holding exactly the spans with both keys in input order; every span appears exactly once |
| PyExporter.Export | sdks/python/src/untrace/exporter.py:38-119 | an empty batch succeeds without a request; otherwise the export succeeds exactly when the payload is built, the POST does not raise and the status is 2xx |
| PyExporter.ExportHeadersProperties | sdks/python/src/untrace/exporter.py:93-97 | the request headers start with Authorization "Bearer <key>" and Content-Type application/json, and a configured header of the same name replaces a default; every other configured header is sent as given |
| PyExporter.ExportSuccessSent | sdks/python/src/untrace/exporter.py:38-119 | a non-empty batch that exports successfully was sent, keeping every span, as a payload with one resource entry per distinct resource key, in a 2xx POST to the base URL plus "/api/v1/traces/ingest" with a 30 second timeout, carrying the bearer token and JSON content type unless the configured headers replace them |
| PyExporter.ForceFlush | sdks/python/src/untrace/exporter.py:126-136 | flushing always reports success |
| Grouping.GroupByMembers | sdks/python/src/untrace/exporter.py:145-158 | grouping by key gives distinct keys, in order of first appearance, each group holding exactly the items with that key in input order |
| Grouping.GroupByPartition | sdks/python/src/untrace/exporter.py:145-158 | the groups together are a permutation of the input |
| Grouping.GroupBy2Members | sdks/python/src/untrace/exporter.py:145-158 | the two-level grouping has distinct outer keys, each outer group being the one-level grouping of exactly the items with that outer key |
| Grouping.GroupBy2Partition | sdks/python/src/untrace/exporter.py:145-158 | every item lands in exactly one inner group of exactly one outer group |
| PyTracer.StartSpan | sdks/python/src/untrace/tracer.py:30-52 | a started span has the options' name, kind and attributes, and its parent is the given parent or, when none is given, the current context |
| PyTracer.StartLlmSpan | sdks/python/src/untrace/tracer.py:54-82 | an LLM span is a CLIENT span whose attributes are the bag's dictionary or the plain dictionary as given |
| PyTracer.StartWorkflowSpan | sdks/python/src/untrace/tracer.py:84-111 | a workflow span is INTERNAL and its attributes are `workflow.name` set to the name, then updated with the caller's attributes |
| PyTracer.StartToolSpan | sdks/python/src/untrace/tracer.py:113-140 | a tool span is INTERNAL and its attributes are `tool.name` set to the name, then updated with the caller's attributes |
| PyTracer.NamedAttributesProperties | sdks/python/src/untrace/tracer.py:100-111 | the subject key comes first and holds the span's name unless the caller's attributes set it; every caller attribute is present with its value and no other key is |
| PyTracer.WithSpanProperties | sdks/python/src/untrace/tracer.py:142-170 | `with_span` keeps the callable's actions, ends the span exactly once more and as the last action, passes the result or the exception through unchanged, leaves status OK exactly when the callable returned, and on a raise records the exception and sets ERROR with its message |
| PyTracer.WithSpanKeepsWrites | sdks/python/src/untrace/tracer.py:155-170 | closing the span adds no attribute and no event beyond what the callable did |
| PyTracer.WithLlmSpan | sdks/python/src/untrace/tracer.py:172-200 | `with_llm_span` runs the callable in a CLIENT span of the given name and attributes, parented by the current context |
| PyAdapterBase.NewAdapter | sdks/python/src/untrace/instrumentation/base.py:19-34 | a new adapter is not instrumented and has saved no method or constructor |
| PyAdapterBase.MarkInstrumented | sdks/python/src/untrace/instrumentation/base.py:236-239 | marking sets the instrumented flag and changes nothing else |
| PyAdapterBase.MarkUninstrumented | sdks/python/src/untrace/instrumentation/base.py:241-244 | unmarking clears the instrumented flag and changes nothing else |
| PyAdapterBase.SlotKeyInjective | sdks/python/src/untrace/instrumentation/base.py:55 | two different (object, method) slots are never saved under the same "id.method" key |
| PyAdapterBase.PatchMethodProperties | sdks/python/src/untrace/instrumentation/base.py:45-59 | patching an absent attribute changes nothing; patching a present one saves the callable that was there under its key and installs the wrapper around it, touching no other slot; patching the same slot twice saves the first wrapper, not the original |
| PyAdapterBase.PatchAllProperties | sdks/python/src/untrace/instrumentation/base.py:45-59 | patching a list of distinct slots wraps and saves exactly the existing slots aimed at, leaves every other slot alone, creates no slot and changes no other field of the adapter |
| PyAdapterBase.InstrumentConstructors | sdks/python/src/untrace/instrumentation/openai.py:20-40 | instrumenting keeps every patched class's original constructor saved whenever the adapter is instrumented |
| PyAdapterBase.UninstrumentConstructors | sdks/python/src/untrace/instrumentation/openai.py:249-260 | uninstrumenting always leaves the adapter uninstrumented, the saved constructors still saved |
| PyAdapterBase.ConstructorLifecycle | sdks/python/src/untrace/instrumentation/openai.py:20-40 | instrumenting twice is instrumenting once; a missing library changes nothing; on a fresh adapter exactly the listed constructors are wrapped; uninstrumenting then restores the library exactly; uninstrumenting an uninstrumented adapter does nothing |
| PyAdapterBase.KwargOr | sdks/python/src/untrace/instrumentation/base.py:97-140 | a keyword lookup gives the caller's value when the key is present and the default otherwise |
| PyAdapterBase.ExtractorDefaults | sdks/python/src/untrace/instrumentation/base.py:97-140 | the model, messages, prompt and input extractors give the caller's value or "unknown", [], "" and "" respectively |
| PyAdapterBase.SetsProperties | sdks/python/src/untrace/instrumentation/base.py:142-170 | performing guarded writes leaves each key with the value of its last performed write and adds no event, status or end |
| PyAdapterBase.LastValueConcat | sdks/python/src/untrace/instrumentation/base.py:142-170 | of two runs of writes, the second run's value for a key wins |
| PyAdapterBase.SetRequestAttributesAsWritten | sdks/python/src/untrace/instrumentation/base.py:142-158 | the helper as it is called, with the call's own keyword arguments, raises `TypeError` exactly when those contain "model", and otherwise makes the request writes |
| PyAdapterBase.SetRequestAttributesProperties | sdks/python/src/untrace/instrumentation/base.py:142-158 | the request helper always sets llm.request.model and sets temperature, max_tokens and stream exactly when passed, to the passed value, and nothing else |
| PyAdapterBase.SetRequestAttributesAsWrittenDefect | sdks/python/src/untrace/instrumentation/base.py:142-158 | any call made with `model=` fails in the helper as written; without it the helper behaves as the corrected one |
| PyAdapterBase.HandleUsageProperties | sdks/python/src/untrace/instrumentation/base.py:172-199 | without a truthy usage nothing is set or recorded; with usage each token key is set exactly when its count is present, nothing else is set, and exactly one usage is recorded with missing counts as 0 |
| PyAdapterBase.HandleErrorMetrics | sdks/python/src/untrace/instrumentation/base.py:201-208 | the error is recorded unchanged, tagged with exactly `operation` and `provider` |
| PyAdapterBase.CreateAdapterAttributesProperties | sdks/python/src/untrace/instrumentation/base.py:210-226 | the adapter's bag carries its provider name, the model and the operation, each unless an extra argument of that attribute key overrides it |
| PyAdapterBase.CreateLlmSpanSyncProperties | sdks/python/src/untrace/instrumentation/base.py:61-82 | the span is a CLIENT span with the bag's attributes; the traced call's result or exception passes through; the span ends exactly once and last; the status is OK exactly when the call returned, and ERROR with the exception's message otherwise |
| PyAdapterBase.CallLogProperties | sdks/python/src/untrace/instrumentation/openai.py:117-135 | inside a traced call the request writes come first, then the start event; the received event appears exactly when the original returned; each attribute holds its last write's value |
| PyAdapterBase.TracedCallProperties | sdks/python/src/untrace/instrumentation/base.py:61-82 | a traced adapter call passes the original's result or exception through, orders the start and received events around the call, and leaves each attribute with its last effective write |
| PyAdapterBase.TracedCallAsWrittenDefect | sdks/python/src/untrace/instrumentation/base.py:142-158 | as written, any call passing `model=` ends in `TypeError` whatever the API would answer, records no usage and sets no request attribute; without `model=` it is the corrected call |
| PyAdapterCall.AdapterCallShape | sdks/python/src/untrace/instrumentation/base.py:61-82 | a wrapped provider call passes the original's outcome through, opens a CLIENT span with the given name whose bag names provider, model and operation, and ends it once, last, with status OK exactly when the original returned |
| PyAdapterCall.AdapterCallAttributes | sdks/python/src/untrace/instrumentation/base.py:142-170 | every non-token attribute holds the last value the request writes and, after a return, the response writes gave it |
| PyAdapterCall.AdapterCallTokens | sdks/python/src/untrace/instrumentation/base.py:180-199 | after a return with usage, each token count present on the usage object is on the span |
| PyAdapterCall.AdapterCallNoUsage | sdks/python/src/untrace/instrumentation/base.py:172-178 | a wrapper that reads no usage leaves every token count unset and records no usage |
| PyAdapterCall.KeyAt | sdks/python/src/untrace/instrumentation/base.py:142-170 | when each write names its own key, the attribute a write names holds that write's value, except that a response write has no effect when the call raised |
| PyOpenAI.InstrumentLifecycle | sdks/python/src/untrace/instrumentation/openai.py:20-40 | instrumenting a fresh adapter wraps both client constructors and marks it instrumented; a second `instrument` changes nothing; `uninstrument` restores both constructors exactly |
| PyOpenAI.InstrumentClientInstanceProperties | sdks/python/src/untrace/instrumentation/openai.py:70-94 | a client instance gets `chat.completions.create` wrapped only when it has both `chat` and `chat.completions`, and `completions.create` and `embeddings.create` each when present; no other slot changes |
| PyOpenAI.ChatAsWrittenDefect | sdks/python/src/untrace/instrumentation/openai.py:117-121 | as written, a chat call that passes `model=` ends in `TypeError` raised by the request helper, whatever the API would answer: no usage, no attribute written, no event, status ERROR; a call without `model=` is exactly the call described by the rows that follow |
| PyOpenAI.ChatSpanProperties | sdks/python/src/untrace/instrumentation/openai.py:96-147 | for a call without `model=`, or with the request helper corrected: a chat call passes the response or exception through in the CLIENT span "openai.chat.completions.create" whose bag names openai, the model and "chat"; it ends once with status matching the outcome |
| PyOpenAI.ChatRequestAttributes | sdks/python/src/untrace/instrumentation/openai.py:117-121 | for a call without `model=`, or with the request helper corrected: the chat span records the requested model and the stringified messages |
| PyOpenAI.ChatResponseAttributes | sdks/python/src/untrace/instrumentation/openai.py:126-138 | for a call without `model=`, or with the request helper corrected: after a return the span holds the first choice's message content (or text) and the response id; after an exception neither |
| PyOpenAI.CompletionAsWrittenDefect | sdks/python/src/untrace/instrumentation/openai.py:169-173 | as written, a completion call that passes `model=` ends in `TypeError` raised by the request helper, whatever the API would answer: no usage, no attribute written, no event, status ERROR; a call without `model=` is exactly the call described by the rows that follow |
| PyOpenAI.CompletionSpanProperties | sdks/python/src/untrace/instrumentation/openai.py:149-197 | for a call without `model=`, or with the request helper corrected: a completion call uses the span "openai.completions.create" with operation "completion"; outcome, ending and usage as for every wrapped call |
| PyOpenAI.CompletionRequestAttributes | sdks/python/src/untrace/instrumentation/openai.py:169-173 | for a call without `model=`, or with the request helper corrected: the completion span records the requested model and the prompt as given |
| PyOpenAI.CompletionResponseAttributes | sdks/python/src/untrace/instrumentation/openai.py:178-188 | for a call without `model=`, or with the request helper corrected: after a return the span holds the first choice's text and the response model; after an exception neither |
| PyOpenAI.EmbeddingAsWrittenDefect | sdks/python/src/untrace/instrumentation/openai.py:217-221 | as written, an embedding call that passes `model=` ends in `TypeError` raised by the request helper, whatever the API would answer: no usage, no attribute written, no event, status ERROR; a call without `model=` is exactly the call described by the rows that follow |
| PyOpenAI.EmbeddingSpanProperties | sdks/python/src/untrace/instrumentation/openai.py:199-245 | for a call without `model=`, or with the request helper corrected: an embedding call uses the span "openai.embeddings.create" with operation "embedding"; outcome, ending and usage as for every wrapped call |
| PyOpenAI.EmbeddingRequestAttributes | sdks/python/src/untrace/instrumentation/openai.py:217-221 | for a call without `model=`, or with the request helper corrected: the embedding span records the requested model and the stringified input |
| PyOpenAI.EmbeddingResponseAttributes | sdks/python/src/untrace/instrumentation/openai.py:226-236 | for a call without `model=`, or with the request helper corrected: after a return the span holds the number of embeddings and the first one's length, each only when the data is non-empty; after an exception neither |
| PyGoogle.InstrumentLifecycle | sdks/python/src/untrace/instrumentation/google.py:20-39 | instrumenting wraps the `GenerativeModel` constructor once; a second `instrument` changes nothing; `uninstrument` restores it exactly |
| PyGoogle.InstrumentClientInstanceProperties | sdks/python/src/untrace/instrumentation/google.py:55-71 | a model instance gets `generate_content` and `start_chat` wrapped, each when present, and no other slot changes |
| PyGoogle.GenerateContentFails | sdks/python/src/untrace/instrumentation/google.py:76-87 | a generation config that is not a dictionary makes the wrapper fail before any span; anything else is traced |
| PyGoogle.GenerateSpanProperties | sdks/python/src/untrace/instrumentation/google.py:73-127 | a traced generate_content call passes the outcome through in the CLIENT span "google.generativeai.generate_content" with operation "completion", temperature and max tokens read from the generation config |
| PyGoogle.GenerateRequestAttributes | sdks/python/src/untrace/instrumentation/google.py:92-99 | the span records the model and, when there is a positional argument, the first one stringified as the prompt |
| PyGoogle.GenerateResponseAttributes | sdks/python/src/untrace/instrumentation/google.py:109-175 | after a return the span holds the response text, the first candidate's first part text, the candidate count and the first finish reason, each when present; after an exception none |
| PyGoogle.GenerateTokens | sdks/python/src/untrace/instrumentation/google.py:177-208 | after a return with usage metadata, the span carries prompt/candidates/total token counts under the prompt/completion/total keys and one usage record maps them, with 0 for a missing count |
| PyGoogle.StartChatSpanProperties | sdks/python/src/untrace/instrumentation/google.py:129-164 | a traced start_chat call passes the outcome through in the span "google.generativeai.start_chat" with operation "chat" and never records usage |
| PyGoogle.StartChatRequestAttributes | sdks/python/src/untrace/instrumentation/google.py:146-150 | the start_chat span records the model the wrapper used |
| PyGoogle.StartChatResponseAttributes | sdks/python/src/untrace/instrumentation/google.py:155-175 | after a return the span holds the session id and the candidate count, when present; after an exception neither |
| PyGoogle.ModelNameDefect | sdks/python/src/untrace/instrumentation/google.py:78 | as written, a generate_content call on a model created as "gemini-pro" is traced with model "unknown"; reading the model instance's `model_name` records "gemini-pro" |
| PyCohere.InstrumentLifecycle | sdks/python/src/untrace/instrumentation/cohere.py:20-38 | instrumenting wraps the `Client` constructor once; a second `instrument` changes nothing; `uninstrument` restores it exactly |
| PyCohere.InstrumentClientInstanceProperties | sdks/python/src/untrace/instrumentation/cohere.py:54-78 | a client gets `generate`, `chat` and `embed` wrapped, each when present, and no other slot changes |
| PyCohere.ResponseWritesReduced | sdks/python/src/untrace/instrumentation/cohere.py:227-235 | writing the response id a second time, with the same value, changes no attribute |
| PyCohere.GenerateAsWrittenDefect | sdks/python/src/untrace/instrumentation/cohere.py:100-106 | as written, a generate call that passes `model=` ends in `TypeError` raised by the request helper, whatever the API would answer: no usage, no attribute written, no event, status ERROR; a call without `model=` is exactly the call described by the rows that follow |
| PyCohere.GenerateSpanProperties | sdks/python/src/untrace/instrumentation/cohere.py:80-128 | for a call without `model=`, or with the request helper corrected: a generate call passes the outcome through in the CLIENT span "cohere.generate" with operation "completion" and model "command" unless the call names one |
| PyCohere.GenerateRequestAttributes | sdks/python/src/untrace/instrumentation/cohere.py:100-106 | for a call without `model=`, or with the request helper corrected: the generate span records the model and the prompt, "" when none is passed |
| PyCohere.GenerateResponseAttributes | sdks/python/src/untrace/instrumentation/cohere.py:111-119 | for a call without `model=`, or with the request helper corrected: after a return the span holds the first generation's text and the meta's text, each when present; after an exception neither |
| PyCohere.ChatAsWrittenDefect | sdks/python/src/untrace/instrumentation/cohere.py:150-156 | as written, a chat call that passes `model=` ends in `TypeError` raised by the request helper, whatever the API would answer: no usage, no attribute written, no event, status ERROR; a call without `model=` is exactly the call described by the rows that follow |
| PyCohere.ChatSpanProperties | sdks/python/src/untrace/instrumentation/cohere.py:130-176 | for a call without `model=`, or with the request helper corrected: a chat call passes the outcome through in the span "cohere.chat" with operation "chat" and model "command" unless the call names one |
| PyCohere.ChatRequestAttributes | sdks/python/src/untrace/instrumentation/cohere.py:150-156 | for a call without `model=`, or with the request helper corrected: the chat span records the model and the message, "" when none is passed |
| PyCohere.ChatResponseAttributes | sdks/python/src/untrace/instrumentation/cohere.py:161-167 | for a call without `model=`, or with the request helper corrected: after a return the span holds the reply text and the response id, each when present; after an exception neither |
| PyCohere.EmbedAsWrittenDefect | sdks/python/src/untrace/instrumentation/cohere.py:196-203 | as written, an embed call that passes `model=` ends in `TypeError` raised by the request helper, whatever the API would answer: no usage, no attribute written, no event, status ERROR; a call without `model=` is exactly the call described by the rows that follow |
| PyCohere.EmbedSpanProperties | sdks/python/src/untrace/instrumentation/cohere.py:178-225 | for a call without `model=`, or with the request helper corrected: an embed call passes the outcome through in the span "cohere.embed" with operation "embedding" and model "embed-english-v2.0" unless the call names one; it ends once, OK exactly when the call returned, with usage exactly when a returned response has billed units; when `texts` has no length it ends in ERROR with the `TypeError` and no usage |
| PyCohere.EmbedUnsized | sdks/python/src/untrace/instrumentation/cohere.py:196-199 | for a call without `model=`, or with the request helper corrected: when `texts` is passed as a value without a length, `len()` raises `TypeError` inside the span after the request helper: the call ends in that error, with ERROR status carrying its message, no usage and no texts or response attribute |
| PyCohere.EmbedRequestAttributes | sdks/python/src/untrace/instrumentation/cohere.py:196-203 | for a call without `model=`, or with the request helper corrected: the embed span records how many texts are passed and their text form, an absent list counting as empty, and neither when `texts` has no length |
| PyCohere.EmbedResponseAttributes | sdks/python/src/untrace/instrumentation/cohere.py:208-216 | for a call without `model=`, or with the request helper corrected: after a return the span holds the embedding count whenever the response has embeddings, and the first one's dimension only when there is one; after an exception, or when `texts` has no length, neither |
| PyCohere.GenerateTokens | sdks/python/src/untrace/instrumentation/cohere.py:237-259 | for a call without `model=`, or with the request helper corrected: after a return whose meta has billed units, the span carries each count present and one usage record maps input, output and total to prompt, completion and total tokens, with 0 for a missing count |
| PyAnthropic.InstrumentLifecycle | sdks/python/src/untrace/providers/anthropic.py:20-40 | instrumenting wraps both Anthropic constructors once; a second `instrument` changes nothing; `uninstrument` restores them exactly |
| PyAnthropic.InstrumentClientInstanceProperties | sdks/python/src/untrace/providers/anthropic.py:70-86 | a client gets `messages.create` and `completions.create` wrapped, each when present, and no other slot changes |
| PyAnthropic.MessageAsWrittenDefect | sdks/python/src/untrace/providers/anthropic.py:109-113 | as written, a messages.create call that passes `model=` ends in `TypeError` raised by the request helper, whatever the API would answer: no usage, no attribute written, no event, status ERROR; a call without `model=` is exactly the call described by the rows that follow |
| PyAnthropic.MessageSpanProperties | sdks/python/src/untrace/providers/anthropic.py:88-137 | for a call without `model=`, or with the request helper corrected: a messages.create call passes the outcome through in the CLIENT span "anthropic.messages.create" with operation "chat" and the requested model |
| PyAnthropic.MessageRequestAttributes | sdks/python/src/untrace/providers/anthropic.py:109-113 | for a call without `model=`, or with the request helper corrected: the span records the model and the messages as text |
| PyAnthropic.MessageResponseAttributes | sdks/python/src/untrace/providers/anthropic.py:118-199 | for a call without `model=`, or with the request helper corrected: after a return the span holds the first content block's text (the content itself when it is not a list) and the stop reason, each when present; after an exception neither |
| PyAnthropic.MessageTokens | sdks/python/src/untrace/providers/anthropic.py:201-223 | for a call without `model=`, or with the request helper corrected: after a return with a truthy usage, the span carries each count present and one usage record maps input and output tokens to prompt and completion tokens, with 0 for a missing count |
| PyAnthropic.CompletionAsWrittenDefect | sdks/python/src/untrace/providers/anthropic.py:159-163 | as written, a completion call that passes `model=` ends in `TypeError` raised by the request helper, whatever the API would answer: no usage, no attribute written, no event, status ERROR; a call without `model=` is exactly the call described by the rows that follow |
| PyAnthropic.CompletionSpanProperties | sdks/python/src/untrace/providers/anthropic.py:139-185 | for a call without `model=`, or with the request helper corrected: a completions.create call passes the outcome through in the span "anthropic.completions.create" with operation "completion" |
| PyAnthropic.CompletionRequestAttributes | sdks/python/src/untrace/providers/anthropic.py:159-163 | for a call without `model=`, or with the request helper corrected: the span records the model and the prompt, "" when none is passed |
| PyAnthropic.CompletionResponseAttributes | sdks/python/src/untrace/providers/anthropic.py:168-193 | for a call without `model=`, or with the request helper corrected: after a return the span holds the completion text and the response id, each when present; after an exception neither |
| PyMicrosoft.InstrumentLifecycle | sdks/python/src/untrace/providers/microsoft.py:20-40 | instrumenting wraps both Azure client constructors once; a second `instrument` changes nothing; `uninstrument` restores them exactly |
| PyMicrosoft.InstrumentClientInstanceProperties | sdks/python/src/untrace/providers/microsoft.py:70-94 | a client gets `chat.completions.create` wrapped only when it has both `chat` and `chat.completions`, and `completions.create` and `embeddings.create` each when present |
| PyMicrosoft.ChatAsWrittenDefect | sdks/python/src/untrace/providers/microsoft.py:117-126 | as written, a chat call that passes `model=` ends in `TypeError` raised by the request helper, whatever the API would answer: no usage, no attribute written, no event, status ERROR; a call without `model=` is exactly the call described by the rows that follow |
| PyMicrosoft.ChatSpanProperties | sdks/python/src/untrace/providers/microsoft.py:96-153 | for a call without `model=`, or with the request helper corrected: an Azure chat call passes the outcome through in the CLIENT span "azure.openai.chat.completions.create" with provider "microsoft" and operation "chat" |
| PyMicrosoft.ChatRequestAttributes | sdks/python/src/untrace/providers/microsoft.py:117-126 | for a call without `model=`, or with the request helper corrected: the span records the API version and the endpoint exactly when the call passes them |
| PyMicrosoft.ChatResponseAttributes | sdks/python/src/untrace/providers/microsoft.py:134-277 | for a call without `model=`, or with the request helper corrected: after a return the span holds the first choice's content and the response's object type, each when present; after an exception neither |
| PyMicrosoft.CompletionAsWrittenDefect | sdks/python/src/untrace/providers/microsoft.py:175-184 | as written, a completion call that passes `model=` ends in `TypeError` raised by the request helper, whatever the API would answer: no usage, no attribute written, no event, status ERROR; a call without `model=` is exactly the call described by the rows that follow |
| PyMicrosoft.CompletionSpanProperties | sdks/python/src/untrace/providers/microsoft.py:155-209 | for a call without `model=`, or with the request helper corrected: an Azure completion uses the span "azure.openai.completions.create" with operation "completion" |
| PyMicrosoft.CompletionRequestAttributes | sdks/python/src/untrace/providers/microsoft.py:175-184 | for a call without `model=`, or with the request helper corrected: the span records the prompt and, exactly when passed, the API version |
| PyMicrosoft.CompletionResponseAttributes | sdks/python/src/untrace/providers/microsoft.py:192-277 | for a call without `model=`, or with the request helper corrected: after a return the span holds the first choice's text and the creation time, each when present; after an exception neither |
| PyMicrosoft.EmbeddingAsWrittenDefect | sdks/python/src/untrace/providers/microsoft.py:229-238 | as written, an embedding call that passes `model=` ends in `TypeError` raised by the request helper, whatever the API would answer: no usage, no attribute written, no event, status ERROR; a call without `model=` is exactly the call described by the rows that follow |
| PyMicrosoft.EmbeddingSpanProperties | sdks/python/src/untrace/providers/microsoft.py:211-263 | for a call without `model=`, or with the request helper corrected: an Azure embedding uses the span "azure.openai.embeddings.create" with operation "embedding" |
| PyMicrosoft.EmbeddingRequestAttributes | sdks/python/src/untrace/providers/microsoft.py:229-238 | for a call without `model=`, or with the request helper corrected: the span records the input as text and, exactly when passed, the endpoint |
| PyMicrosoft.EmbeddingResponseAttributes | sdks/python/src/untrace/providers/microsoft.py:246-251 | for a call without `model=`, or with the request helper corrected: after a return with non-empty data the span holds the embedding count and the first one's dimension; after an exception neither |
| PyAws.InstrumentLifecycle | sdks/python/src/untrace/providers/aws.py:23-42 | instrumenting wraps `boto3.client` once; a second `instrument` changes nothing; `uninstrument` puts the very function back and is a no-op when not instrumented |
| PyAws.ClientHookProperties | sdks/python/src/untrace/providers/aws.py:44-77 | the wrapped `boto3.client` returns the client the original created; only a "bedrock-runtime" client has its `invoke_model` and stream methods wrapped, each when present |
| PyAws.OperationTypeCases | sdks/python/src/untrace/providers/aws.py:187-196 | the operation type is "chat" exactly when the lower-cased model id contains "claude", else "embedding" when it contains "titan", else "completion"; a non-string id raises `AttributeError` |
| PyAws.DictResponseSetsNothing | sdks/python/src/untrace/providers/aws.py:120-216 | as written, a dictionary response sets none of the body, metadata, model or id attributes, whatever it holds; an object response that exposes its body and metadata both as attributes and as keys is read as it is |
| PyAws.DictResponseDefect | sdks/python/src/untrace/providers/aws.py:120-216 | on a dictionary with a 42-byte body and metadata holding a request id and status 200, the wrapper as written records nothing, while reading by key records all four attributes |
| PyAws.InvokeSpanProperties | sdks/python/src/untrace/providers/aws.py:79-134 | an invoke_model call passes the outcome through in the CLIENT span "aws.bedrock.invoke_model" whose operation is the one the model id gives |
| PyAws.InvokeRequestAttributes | sdks/python/src/untrace/providers/aws.py:99-102 | the span records the model id, "unknown" when absent, both as the request model and as `llm.request.model_id` |
| PyAws.InvokeBedrockAttributes | sdks/python/src/untrace/providers/aws.py:104-110 | region, accept and content type are each recorded exactly when passed, with the value passed |
| PyAws.InvokeResponseAttributes | sdks/python/src/untrace/providers/aws.py:120-216 | with the response read by key, as corrected: after a return the span holds the body size and the has-body flag exactly when the response has a body; after an exception neither |
| PyAws.InvokeMetadataAttributes | sdks/python/src/untrace/providers/aws.py:203-208 | with the response read by key, as corrected: after a return the span holds the request id and the HTTP status exactly when the response metadata holds them; after an exception neither |
| PyAws.InvokeNoTokens | sdks/python/src/untrace/providers/aws.py:210-216 | invoke_model reads no usage: it sets no token count and records no usage |
| PyAws.StreamSpanProperties | sdks/python/src/untrace/providers/aws.py:136-185 | a stream call passes the outcome through in the span "aws.bedrock.invoke_model_stream", with `stream` True in the bag |
| PyAws.StreamRequestAttributes | sdks/python/src/untrace/providers/aws.py:157-161 | the stream span records the model id and `llm.request.stream` True whatever `stream` argument was passed |
| PyAws.StreamBedrockAttributes | sdks/python/src/untrace/providers/aws.py:164-169 | region, accept and content type are each recorded exactly when passed |
| PyAws.StreamResponseAttributes | sdks/python/src/untrace/providers/aws.py:203-208 | with the response read by key, as corrected: after a return the stream span holds the request id and HTTP status exactly when the metadata holds them; after an exception neither |
| PyAws.StreamNoTokens | sdks/python/src/untrace/providers/aws.py:171-181 | the stream wrapper sets no token count and records no usage |
| PyProviders.GetSupportedProviders | sdks/python/src/untrace/providers/__init__.py:101-107 | the supported providers are exactly openai, anthropic, google, microsoft, aws and cohere, in that order |
| PyProviders.GetProviderInstrumentationProperties | sdks/python/src/untrace/providers/__init__.py:27-46 | an unknown name gives `None` and changes nothing; a supported name gives the cached adapter, creating and caching one of the registered class only when none is cached |
| PyProviders.GetProviderInstrumentationCached | sdks/python/src/untrace/providers/__init__.py:42-46 | the adapter is created once: a later call returns the very same adapter, whatever objects it passes, and leaves the cache unchanged |
| PyProviders.InstrumentProviderProperties | sdks/python/src/untrace/providers/__init__.py:49-60 | an unknown name changes nothing and raises nothing; a supported name is cached afterwards, its adapter's `instrument()` is called once, and the call raises exactly what that raised |
| PyProviders.UninstrumentProviderProperties | sdks/python/src/untrace/providers/__init__.py:63-71 | a name not cached changes nothing; a cached one is uninstrumented once and evicted, every other entry staying as it was |
| PyProviders.InstrumentEachCalls | sdks/python/src/untrace/providers/__init__.py:74-92 | instrumenting a list calls `instrument()` on the adapter of exactly the supported names in the list, however many of them raise |
| PyProviders.InstrumentEachCache | sdks/python/src/untrace/providers/__init__.py:74-92 | afterwards exactly the supported names of the list are cached besides those already cached, earlier entries unchanged |
| PyProviders.InstrumentAllProvidersDefault | sdks/python/src/untrace/providers/__init__.py:83-84 | with no list every supported provider's adapter is created if need be and instrumented |
| PyProviders.UninstrumentEachProperties | sdks/python/src/untrace/providers/__init__.py:95-98 | uninstrumenting all calls `uninstrument()` once on each cached adapter and leaves the cache empty |
| PyInstrumentation.InstrumentNamedProperties | sdks/python/src/untrace/instrumentation.py:20-89 | `instrument_<name>` reports the name as instrumented exactly when the adapter's `instrument()` did not raise, whether or not the library was there to patch; no other name changes |
| PyInstrumentation.UninstrumentNamedIdempotent | sdks/python/src/untrace/instrumentation.py:26-29 | `uninstrument_<name>` removes the name and changes no other; a second call changes nothing |
| PyInstrumentation.InstrumentAllProperties | sdks/python/src/untrace/instrumentation.py:92-104 | with no list every supported provider is added; with a list exactly its names are added, unsupported and failing ones included |
| PyInstrumentation.UninstrumentAllEmpties | sdks/python/src/untrace/instrumentation.py:107-110 | afterwards no provider is reported as instrumented and no adapter is cached |
| PyInstrumentation.IsProviderInstrumentedLifecycle | sdks/python/src/untrace/instrumentation.py:113-131 | a name is reported instrumented exactly when it is in the reported set, which the instrument calls add to and the uninstrument calls remove from |
| PyMetrics.RecordTokenUsageTags | sdks/python/src/untrace/metrics.py:50-81 | every token measurement goes to the token counter tagged with exactly the usage's model, provider and a token type |
| PyMetrics.RecordTokenUsageCounts | sdks/python/src/untrace/metrics.py:57-78 | a prompt, completion or total count is measured once, with its value, exactly when it is truthy; a missing or zero count adds nothing |
| PyMetrics.RecordLatency | sdks/python/src/untrace/metrics.py:83-94 | the latency histogram records the duration with the caller's attributes, `{}` when none are given |
| PyMetrics.RecordErrorProperties | sdks/python/src/untrace/metrics.py:96-111 | exactly one +1 is added to the error counter, tagged `error_type` (the class name) and `error_message` (the message) unless the caller's attributes override them, plus every caller attribute |
| PyMetrics.RecordCostProperties | sdks/python/src/untrace/metrics.py:113-146 | every cost measurement goes to the cost counter; the total is always measured, last, even when zero; before it the prompt and then the completion cost, each exactly when truthy; each tagged with model, provider, currency and cost type |
| PyUntrace.MaxQueueSize | sdks/python/src/untrace/untrace.py:66 | the span queue bound is twice the batch size, and never below ten |
| PyUntrace.ResourceAttributesProperties | sdks/python/src/untrace/untrace.py:50-54 | the resource has service name "untrace-app" and the configured version unless the configured resource attributes give their own, which win; every configured attribute is kept |
| PyUntrace.SupportedOnlyMembers | sdks/python/src/untrace/untrace.py:106-109 | without "all", the providers to instrument are exactly the supported names of the configured list |
| PyUntrace.SupportedOnlyConcat | sdks/python/src/untrace/untrace.py:106-109 | the filter keeps the list's order: it distributes over concatenation |
| PyUntrace.AutoInstrumentProperties | sdks/python/src/untrace/untrace.py:87-119 | a disabled configuration instruments nothing; otherwise a provider ends up instrumented exactly when it was before, or it is supported and either "all" or its own name is configured; failures are swallowed |
| PyUntrace.InitFirst | sdks/python/src/untrace/untrace.py:203-225 | initializing from scratch sets the flag and stores and returns a new instance with the given configuration |
| PyUntrace.InitReturnsExisting | sdks/python/src/untrace/untrace.py:215-218 | once initialized with an instance, `init` returns that very instance whatever configuration it is given, and changes nothing |
| PyUntrace.InitTwice | sdks/python/src/untrace/untrace.py:215-225 | a second `init` after a successful one returns the first one's instance |
| PyUntrace.InitFailureSticks | sdks/python/src/untrace/untrace.py:219-225 | if construction raises, the flag stays set with no instance, and every later `init` raises `RuntimeError` and changes nothing |
| PyUntrace.GetUntraceProperties | sdks/python/src/untrace/untrace.py:228-240 | `get_untrace` raises exactly when no instance is stored and otherwise returns it |
| PyUntrace.ShutdownProperties | sdks/python/src/untrace/untrace.py:177-191 | shutting down the stored instance clears it and the flag, so `get_untrace` raises and the next `init` constructs afresh; shutting down any other instance leaves the singleton as it was |
| PyUntrace.InitAfterShutdown | sdks/python/src/untrace/untrace.py:177-225 | after `init` and `shutdown` of its instance, `init` with another configuration stores a new instance |
| PyUntrace.InstrumentManually | sdks/python/src/untrace/untrace.py:145-165 | manual instrumentation raises `ValueError` for every name but "openai" and otherwise returns the module unchanged |
| GoErrors.UntraceErrorText | sdks/go/untrace/errors.go:11-20 | an error's text is its message, followed by ": " and its cause's text exactly when there is a cause, the cause `Unwrap` returns |
| GoErrors.NewAPIError | sdks/go/untrace/errors.go:29-38 | an API error keeps the message, status code, response body and cause as given |
| GoErrors.NewValidationError | sdks/go/untrace/errors.go:46-53 | a validation error names its field and has no cause |
| GoErrors.ValidationErrorText | sdks/go/untrace/errors.go:46-53 | a validation error's text is exactly its message |
| GoErrors.NewConfigurationError | sdks/go/untrace/errors.go:60-67 | a configuration error keeps the message and cause |
| GoErrors.NewInstrumentationError | sdks/go/untrace/errors.go:75-83 | an instrumentation error records the provider name, message and cause |
| GoConfig.DefaultConfig | sdks/go/untrace/config.go:26-40 | the defaults: the given key, "untrace-app", "production", "0.1.0", "https://untrace.dev", sampling 1.0, batch 512, interval 5 s, no debug, empty maps |
| GoConfig.ValidateIff | sdks/go/untrace/config.go:43-57 | validation fails exactly when the key is empty, the rate is outside [0, 1], the batch size is not positive or the interval is not positive, always with a validation error naming the first failing check in that order |
| GoConfig.DefaultConfigValidates | sdks/go/untrace/config.go:26-57 | the default configuration validates exactly when the API key is not empty |
| GoAttributes.CreateLLMAttributes | sdks/go/untrace/attributes.go:89-96 | exactly llm.provider, llm.model and llm.operation.type, in that order, holding the arguments |
| GoAttributes.CreateVectorDBAttributes | sdks/go/untrace/attributes.go:98-104 | exactly db.system and db.operation, holding the arguments |
| GoAttributes.CreateFrameworkAttributes | sdks/go/untrace/attributes.go:106-112 | exactly framework.name and framework.operation, holding the arguments |
| GoAttributes.CreateWorkflowAttributes | sdks/go/untrace/attributes.go:114-120 | exactly workflow.name and workflow.run_id, holding the arguments |
| GoAttributes.IsSensitiveKeyIff | sdks/go/untrace/attributes.go:138-159 | a key is sensitive exactly when its lower-cased form contains one of the nine listed words anywhere |
| GoAttributes.SensitiveKeyExamples | sdks/go/untrace/attributes.go:138-159 | substring matching is not word matching: "monkey" and "AUTHOR" are redacted |
| GoAttributes.NameIsNotSensitive | sdks/go/untrace/attributes.go:138-159 | a key containing none of the words, such as "name", is kept |
| GoAttributes.SanitizeAttributesProperties | sdks/go/untrace/attributes.go:122-135 | redaction keeps the key set, maps exactly the sensitive keys to "[REDACTED]", leaves every other value unchanged, and is idempotent |
| GoAttributes.MergeAttributesKeys | sdks/go/untrace/attributes.go:162-172 | the merged map holds the keys of every map and no other; no maps give the empty map |
| GoAttributes.MergeAttributesLaterWins | sdks/go/untrace/attributes.go:162-172 | each merged key holds the value of the last map that has it |
| GoTracer.ConvertValueCases | sdks/go/untrace/tracer.go:132-155 | strings, ints, int64s, float64s, bools and their slices keep their value under the matching attribute type; a time becomes its RFC 3339 text; anything else its `%v` text |
| GoTracer.BuildAttributesProperties | sdks/go/untrace/tracer.go:129-156 | one attribute per map entry: the keys are the map's, each once, each with its entry's converted value |
| GoTracer.PresentProperties | sdks/go/untrace/tracer.go:69-119 | the optional chain appends, in order, exactly one attribute per set pointer, under that field's key, and nothing for a nil one |
| GoTracer.BuildLLMAttributesLayout | sdks/go/untrace/tracer.go:62-127 | an LLM span's attributes start with provider, model and operation type, in that order, and end with the custom attributes |
| GoTracer.BuildLLMAttributesOptional | sdks/go/untrace/tracer.go:69-119 | between the fixed and the custom attributes, each set optional field adds exactly one attribute under its own key with its value, and a nil one adds nothing |
| GoTracer.AllNilAddsNothing | sdks/go/untrace/tracer.go:62-127 | with every pointer nil the span gets only the three fixed attributes and the custom ones |
| GoTracer.StartSpanOptions | sdks/go/untrace/tracer.go:35-55 | the kind option is passed exactly when the kind is not Internal, the parent exactly when it is valid, and attributes exactly when there are some |
| GoExporter.ConvertSpansToPayloadProperties | sdks/go/untrace/exporter.go:62-89 | one object per span, in order, with the span's trace and span ids as hex, name, start and end nanoseconds, attributes and status code and description, and `parent_span_id` exactly when the parent span id is valid |
| GoExporter.PayloadIdsRoundTrip | sdks/go/untrace/exporter.go:66-79 | the trace id (32 digits), span id (16 digits) and, when valid, parent span id in the payload read back as the span's ids |
| GoExporter.CanonicalHeaderKeyIdempotent | sdks/go/untrace/exporter.go:103-110 | canonicalising a canonical header name changes nothing |
| GoExporter.SetAllLastWins | sdks/go/untrace/exporter.go:103-110 | a header holds the value of the last `Set` of its canonical name, or what it held before |
| GoExporter.RequestHeaders | sdks/go/untrace/exporter.go:103-110 | a custom header overrides the default of the same canonical name and is sent under its canonical name; a default no custom header names is sent as it is |
| GoExporter.ResponseErrorProperties | sdks/go/untrace/exporter.go:97-133 | a status of 400 or more is an API error carrying that status and the body; any lower status is success; a transport failure is an API error wrapping it; a request that cannot be built gives "failed to create request: " followed by the cause's text, wrapping the cause |
| GoExporter.ExportSpansProperties | sdks/go/untrace/exporter.go:40-133 | no spans means no request and no error; otherwise a POST to the base URL followed by "/v1/traces" carrying the converted spans is sent exactly when the request can be built, and the export succeeds exactly when a response with status below 400 comes back |
| GoExporter.CreateResourceProperties | sdks/go/untrace/exporter.go:151-170 | the attributes passed to `resource.NewWithAttributes` start with service name, version and environment, followed by one typed attribute per string, int, float64 or bool resource attribute and nothing for any other value |
| GoExporter.CreateResourceLookup | sdks/go/untrace/exporter.go:151-175 | the resource keeps the last value given for each key, so a string, int, float64 or bool resource attribute named "service.name", "service.version" or "deployment.environment" replaces the configured value, and otherwise the configured value stays |
| GoMetrics.RecordTokenUsageProperties | sdks/go/untrace/metrics.go:25-46 | each of the three token counters is added to once with its count when the count is positive, and not at all otherwise; every addition carries the model and provider |
| GoMetrics.RecordCostProperties | sdks/go/untrace/metrics.go:65-87 | each of the three cost counters is added to once with its amount when positive, and not at all otherwise, so a zero total is not recorded; every addition carries model, provider and currency |
| GoMetrics.BuildAttributesAgreesWithTracer | sdks/go/untrace/metrics.go:89-116 | the recorder converts attributes as the tracer does, one per entry in the same order, except that a time becomes its `%v` text |
| GoMetrics.RecordLatency | sdks/go/untrace/metrics.go:48-54 | the latency histogram gets the duration in seconds, tagged with one attribute per caller entry converted as `buildAttributes` converts it |
| GoMetrics.RecordError | sdks/go/untrace/metrics.go:56-63 | the error counter gets exactly 1, tagged with the caller's attributes followed by `error.type` holding the error's text |
| GoContext.NewContext | sdks/go/untrace/context.go:19-24 | a new context has no registered workflow |
| GoContext.FixedAttributesKeys | sdks/go/untrace/context.go:40-52 | a workflow's fixed attributes use only the six workflow keys, with the name and run id always among them |
| GoContext.FixedAttributesOptional | sdks/go/untrace/context.go:44-52 | version, parent id, user id and session id are set exactly when non-empty, to the option's value |
| GoContext.MetadataDisjoint | sdks/go/untrace/context.go:54-56 | a metadata entry never overrides a fixed attribute, whatever its key |
| GoContext.InitialAttributesMetadata | sdks/go/untrace/context.go:54-56 | each metadata entry is an attribute under "workflow.metadata." and its key, and every attribute is a fixed one or such an entry |
| GoContext.StartWorkflowProperties | sdks/go/untrace/context.go:26-63 | starting registers the new, running workflow under its run id, replacing any earlier one there, and leaves every other registration |
| GoContext.GetCurrentWorkflow | sdks/go/untrace/context.go:65-75 | the result is none exactly when no workflow is registered, and otherwise one of the registered workflows |
| GoContext.EndAsWrittenDefect | sdks/go/untrace/context.go:102-116 | as written, ending a workflow whose run id a later running workflow took over deletes the later one's registration |
| GoContext.EndKeepsReplacement | sdks/go/untrace/context.go:102-116 | with the correction, ending the replaced workflow leaves the replacement registered |
| GoContext.EndProperties | sdks/go/untrace/context.go:102-116 | ending marks the workflow ended, drops its own registration and no other, touches no other workflow, and is idempotent |
| GoContext.EndAgreesUnlessReplaced | sdks/go/untrace/context.go:102-116 | the corrected end is the written one unless another workflow took over the run id |
| GoContext.SetAttributeGet | sdks/go/untrace/context.go:124-130 | a set attribute reads back and every other attribute, workflow and registration is unchanged |
| GoContext.SetAttributesGet | sdks/go/untrace/context.go:132-140 | setting a map sets each of its keys to the given value, and other keys keep theirs |
| GoContext.StartedWorkflowAttributes | sdks/go/untrace/context.go:155-165 | a new workflow's span attributes carry its name and run id as strings |
| GoProviders.CanInstrument | sdks/go/untrace/providers.go:151-168 | a module can be instrumented exactly when it is a typed value with one of the provider's looked-for methods |
| GoProviders.Register | sdks/go/untrace/providers.go:43-45 | a provider is filed under its name, replacing any earlier one of that name, and no other entry changes |
| GoProviders.RegisterThenGet | sdks/go/untrace/providers.go:43-52 | a registered provider is found under its name until another of the same name replaces it |
| GoProviders.List | sdks/go/untrace/providers.go:54-60 | the list holds every registered name exactly once |
| GoProviders.InstrumentProperties | sdks/go/untrace/providers.go:63-74 | instrumenting fails for an unregistered name, fails when the provider cannot instrument the module, and otherwise returns the provider's wrapper |
| GoProviders.RegisterDefaultProvidersProperties | sdks/go/untrace/providers.go:233-245 | the defaults register exactly "openai" and "anthropic", new and not enabled, replacing providers of those names and keeping every other |
| GoProviders.Initialize | sdks/go/untrace/providers.go:89-104 | initializing stores the client it is given and sets the enabled flag; afterwards the provider is enabled exactly when that client is not the nil interface; it never fails |
| GoProviders.Shutdown | sdks/go/untrace/providers.go:96-100 | shutting down disables the provider and keeps the client; it never fails |
| GoProviders.LifecycleProperties | sdks/go/untrace/providers.go:89-105 | a shut-down provider comes back with `Initialize` given a non-nil client, and shutting down keeps that client; `Initialize(nil)` leaves a provider disabled; a new one is off until initialized |
| GoProviders.CreateLLMSpan | sdks/go/untrace/providers.go:107-114 | a disabled provider hands back the context's span; an enabled one whose client interface holds a nil pointer panics in `Tracer()`; otherwise an LLM span with the given name and options is started through that client |
| GoProviders.RecordMetricsProperties | sdks/go/untrace/providers.go:116-134 | a disabled provider records nothing; an enabled one whose client holds a nil pointer panics before recording anything; one with a live client records exactly one error when the call failed, and otherwise token usage, cost and latency |
| GoProviders.InitializeWithoutGlobalClientPanics | sdks/go/untrace/providers.go:89-114 | a provider initialized with `GetInstance()` while there is no global client is enabled, and its next `createLLMSpan` or `recordMetrics` panics on the nil pointer |
| GoProviders.InitializeWithCheckedInstance | sdks/go/untrace/providers.go:89-114 | with a `GetInstance` that returns nil when there is no global client, the provider stays disabled and does nothing until there is one, then starts its spans through the global client; no call panics |
| GoInstrumentation.DefaultInstrumentationConfig | sdks/go/untrace/instrumentation.go:24-31 | the default is enabled, captures bodies of up to 1 MiB and does not capture arguments |
| GoInstrumentation.TraceProperties | sdks/go/untrace/instrumentation.go:48-213 | every wrapper calls the function once and returns its error unchanged; disabled it does nothing else; enabled it starts its span, records the error or success, and records exactly one metric |
| GoInstrumentation.RequestSpansProperties | sdks/go/untrace/instrumentation.go:111-181 | HTTP spans are named "METHOD URL" and database spans "db.<operation>", and their metric carries the same two attributes as the span |
| GoInstrumentation.WrapperAttributes | sdks/go/untrace/instrumentation.go:48-107 | the function wrapper's metric is tagged with the function name; the LLM wrapper's with the provider, model and operation of its options |
| GoInstrumentation.AttributesToMapKeys | sdks/go/untrace/instrumentation.go:215-244 | the map built from attributes has exactly the attributes' keys |
| GoInstrumentation.AttributesToMapValue | sdks/go/untrace/instrumentation.go:215-244 | a key holds the value of the last attribute with that key |
| GoInstrumentation.AttributesRoundTrip | sdks/go/untrace/instrumentation.go:215-244 | converting attributes to a map and back through the tracer gives each attribute back, except int64 and bool slices, which become text |
| GoInstrumentation.GetFunctionNameProperties | sdks/go/untrace/instrumentation.go:246-257 | the function name is the part of the full name after its last dot |
| GoInstrumentation.GetCallerInfo | sdks/go/untrace/instrumentation.go:259-272 | caller info is "unknown", "unknown", 0 without a frame, and the frame's file, line and function name otherwise |
| GoInstrumentation.SafeStringProperties | sdks/go/untrace/instrumentation.go:274-287 | nil becomes ""; a string is itself; anything else is its `%v` text |
| GoInstrumentation.TruncateString | sdks/go/untrace/instrumentation.go:290-295 | truncation fails exactly when the string is longer than a negative limit, where Go's slice panics |
| GoInstrumentation.TruncateStringProperties | sdks/go/untrace/instrumentation.go:290-295 | a string within the limit is kept; a longer one becomes its first `maxLen` characters and "...", `maxLen + 3` long; truncating twice is truncating once |
| GoInstrumentation.IsNil | sdks/go/untrace/instrumentation.go:298-310 | a value is nil exactly when it is a nil interface or a nil pointer, map, slice, channel or function |
| GoClient.CreateOTLPExporter | sdks/go/untrace/exporter.go:137-148 | the OTLP client targets the base URL and sends exactly the Authorization "Bearer <key>" and User-Agent "untrace-sdk-go/0.1.0" headers; it never fails |
| GoClient.InitProperties | sdks/go/untrace/client.go:35-104 | with a global client `Init` returns it unvalidated and changes nothing; otherwise a validation or exporter error returns that error and changes nothing, and success appends a new running client that becomes the global one |
| GoClient.GetInstance | sdks/go/untrace/client.go:106-111 | the result is never the nil interface, since `globalClient` is an `*untraceClient`: it holds a nil pointer exactly when there is no global client, and otherwise the global client, which is running |
| GoClient.Receiver | sdks/go/untrace/client.go:113-125 | `Tracer()` and `Metrics()` called through a `Client` reach a client exactly when neither the interface nor the pointer it holds is nil |
| GoClient.GetInstanceChecked | sdks/go/untrace/client.go:106-111 | the evidently intended `GetInstance`: nil exactly when there is no global client, never a nil pointer, otherwise the global client |
| GoClient.GetInstanceCheckedAgrees | sdks/go/untrace/client.go:106-111 | the intended and the written `GetInstance` agree exactly when there is a global client |
| GoClient.InitThenGetInstance | sdks/go/untrace/client.go:35-111 | after a successful `Init`, `GetInstance` returns an interface holding the client it returned |
| GoClient.InitIdempotent | sdks/go/untrace/client.go:39-44 | a second `Init`, whatever its configuration, returns the first one's client and changes nothing |
| GoClient.FlushProperties | sdks/go/untrace/client.go:135-156 | flushing fails exactly when the client is shut down ("client is shutdown") or the provider's flush fails (wrapped as "failed to flush spans") |
| GoClient.ShutdownProperties | sdks/go/untrace/client.go:159-197 | a shut-down client is a no-op; a failing provider shutdown changes nothing and returns the wrapped error; otherwise the client is marked shut down and the global client cleared exactly when it is this one |
| GoClient.ShutdownIdempotent | sdks/go/untrace/client.go:163-165 | after a successful shutdown, a second one returns nil and changes nothing |
| GoClient.FlushAfterShutdown | sdks/go/untrace/client.go:139-141 | after a successful shutdown every flush of that client fails with "client is shutdown" |
| GoClient.InitAfterShutdown | sdks/go/untrace/client.go:35-197 | after shutting down the global client, `Init` with a valid configuration makes a fresh running client under a new handle; when the exporter fails instead, nothing changes and `GetInstance` holds a nil pointer |
| RsErrors.DisplayInjective | sdks/rust/src/error.rs:10-46 | Two errors that display the same text are the same error: the twelve `Display` headings (`Configuration error: `, …, `Unknown error: `) are distinct, hold no colon before their own, so variant and message are both recoverable from the text |
| RsErrors.ColonOfDisplay | sdks/rust/src/error.rs:10-46 | The first colon of any displayed error is the one closing its variant's heading, whatever the message holds |
| RsTypes.OperationTextRoundTrip | sdks/rust/src/types.rs:21-35 | Each operation type's display text (`chat`, `fine_tune`, `tool_use`, …) reads back as that operation type |
| RsTypes.OperationTextInjective | sdks/rust/src/types.rs:21-35 | Two operation types display the same text exactly when they are the same type |
| RsTypes.DefaultLLMSpanOptions | sdks/rust/src/types.rs:63-89 | The default LLM span options have empty provider and model, the `Chat` operation, no custom attributes and every optional field unset |
| RsTypes.DefaultWorkflowOptions | sdks/rust/src/types.rs:101-111 | The default workflow options set no user, session, version or parent and carry no metadata |
| RsTypes.DefaultSpanOptions | sdks/rust/src/types.rs:142-150 | The default span options have an empty name, the `Internal` kind and no attributes |
| RsTypes.NewWorkflowCopies | sdks/rust/src/types.rs:166-180 | A new workflow keeps the given name and run id, carries every option field unchanged (its options read back as the ones passed), and has the supplied id and start time |
| RsTypes.DefaultInstrumentationConfig | sdks/rust/src/types.rs:205-213 | The default instrumentation configuration names no providers and turns auto-instrumentation, body capture and error capture on |
| RsConfig.NewConfig | sdks/rust/src/config.rs:59-77 | `Config::new` keeps the key and takes the documented defaults: `https://untrace.dev`, `untrace-app`, `0.1.0`, `production`, rate 1.0, 512 spans per batch, a 5 s interval, no headers, providers `["all"]` |
| RsConfig.ValidateIff | sdks/rust/src/config.rs:142-166 | Validation fails exactly when the key is empty, the rate is outside [0, 1], the batch size is 0 or the interval is zero, always with a validation error naming the first failing check in that order |
| RsConfig.NewConfigValidates | sdks/rust/src/config.rs:59-77 | A configuration from `Config::new` is valid exactly when its API key is not empty |
| RsConfig.ParseBool | sdks/rust/src/config.rs:103-105 | Only the exact words `true` and `false` parse as booleans, to the matching value |
| RsConfig.ParseUnsignedRoundTrip | sdks/rust/src/config.rs:111-113 | Every number below the type's bound parses back from its decimal text, with or without a leading `+` |
| RsConfig.ParseUnsignedRejects | sdks/rust/src/config.rs:111-113 | An empty text, a lone `+`, a text with a non-digit after the first character, or a value at or above the bound does not parse |
| RsConfig.ParseProviders | sdks/rust/src/config.rs:134-136 | The provider list has one entry per comma-separated piece of the variable, each trimmed |
| RsConfig.ParseProvidersEmpty | sdks/rust/src/config.rs:134-136 | An empty `UNTRACE_PROVIDERS` yields one empty provider name rather than no providers |
| RsConfig.ParseProvidersRoundTrip | sdks/rust/src/config.rs:134-136 | Trimmed, comma-free provider names joined with commas parse back to the same list |
| RsConfig.FromEnvKey | sdks/rust/src/config.rs:80-86 | `from_env` fails exactly when `UNTRACE_API_KEY` is unset, with the configuration error naming it; with only that variable set the result is `Config::new` of its value |
| RsConfig.FromEnvNumbers | sdks/rust/src/config.rs:111-117 | A batch size or interval variable that is unset or fails to parse falls back to 512 spans and 5 seconds; one that parses is used as given, the interval in seconds |
| RsConfig.BuildersTouchOneField | sdks/rust/src/config.rs:168-220 | Each builder sets its own field and leaves every other field unchanged; `with_header` and `with_resource_attribute` add their key and keep every other entry |
| RsConfig.BuildersKeepValidation | sdks/rust/src/config.rs:168-220 | Every builder except `with_sampling_rate` leaves the validation verdict unchanged |
| RsConfig.WithSamplingRateValidation | sdks/rust/src/config.rs:193-197 | On an otherwise valid configuration, `with_sampling_rate` yields a valid one exactly when the rate is in [0, 1] |
| RsConfig.WithHeaderLastWins | sdks/rust/src/config.rs:205-209 | A header set twice keeps the last value; other headers and all other fields are unchanged, and the key set grows by the one key |
| RsConfig.BuildersCommute | sdks/rust/src/config.rs:168-220 | Builders that touch different fields can be applied in either order |
| RsAttributes.CreateAttributesProperties | sdks/rust/src/attributes.rs:84-113 | The attribute list holds one pair per map entry: its keys are the map's keys, each once, each with its entry's value as a string |
| RsAttributes.SanitizeAttributesProperties | sdks/rust/src/attributes.rs:116-134 | Sanitizing keeps the key set, replaces exactly the sensitive keys' values with `[REDACTED]`, leaves the rest, and is idempotent |
| RsAttributes.RedactProperties | sdks/rust/src/attributes.rs:116-134 | Redacting a list of keys adds and removes none; listed keys read as the marker, others keep their values |
| RsAttributes.MergeAttributesUnion | sdks/rust/src/attributes.rs:137-146 | Whatever order the loop visits `other` in, the merge is the map union with `other`'s value winning on shared keys and `base` kept elsewhere |
| RsAttributes.StringSliceRoundTrip | sdks/rust/src/attributes.rs:172-175 | A non-empty list of comma-free strings is recovered from its joined attribute by splitting on commas |
| RsAttributes.IntSliceRoundTrip | sdks/rust/src/attributes.rs:177-180 | Splitting an integer slice attribute on commas yields each integer's decimal text in order, and non-negative ones read back as the number |
| RsTracer.StartSpan | sdks/rust/src/tracer.rs:22-24 | A plain span carries the given name and no attributes |
| RsTracer.StartSpanWithOptionsProperties | sdks/rust/src/tracer.rs:27-42 | A span from options takes the options' name and exactly their attributes, one per entry; the kind does not change them |
| RsTracer.AsI64Keeps | sdks/rust/src/tracer.rs:45-140 | The `u64` to `i64` cast of token counts keeps a value exactly when it is below 2^63; larger ones wrap to negatives |
| RsTracer.StartLLMSpanLayout | sdks/rust/src/tracer.rs:45-140 | An LLM span starts with provider, model and the operation's display text, then the set optional fields, then one attribute per custom entry |
| RsTracer.StartLLMSpanOptional | sdks/rust/src/tracer.rs:45-140 | Each optional field adds exactly one attribute under its own key with its value when set, and nothing when unset |
| RsTracer.DefaultLLMSpan | sdks/rust/src/tracer.rs:45-140 | The default LLM options yield the three leading attributes and nothing else |
| RsTracer.StartWorkflowSpanLayout | sdks/rust/src/tracer.rs:143-179 | A workflow span is named after the workflow, carries id, name and run id first, one attribute per set optional field, then every metadata entry under `workflow.metadata.` with its value |
| RsProvider.NewRegistry | sdks/rust/src/provider.rs:15-19 | A new registry is valid and empty |
| RsProvider.Get | sdks/rust/src/provider.rs:27-29 | `get` finds a provider exactly for a registered name |
| RsProvider.RegisterThenGet | sdks/rust/src/provider.rs:22-29 | After `register`, `get` of that name returns the provider, replacing any earlier one; every other name reads as before |
| RsProvider.GetEnabledIff | sdks/rust/src/provider.rs:32-64 | The enabled providers are exactly the stored ones whose flag is set, which is what `is_enabled` reports for their names |
| RsProvider.EnableDisableProperties | sdks/rust/src/provider.rs:42-59 | Enabling or disabling an unknown name is an instrumentation error that changes nothing; on a known name it succeeds, sets the flag, and changes nothing else |
| RsProvider.EnableIdempotent | sdks/rust/src/provider.rs:42-59 | Enabling twice equals enabling once, and disabling after enabling leaves the provider disabled |
| RsProvider.GetDefaultProviders | sdks/rust/src/provider.rs:74-108 | The six default providers, in order, each enabled at version 1.0.0 |
| RsProvider.RegisterAllProperties | sdks/rust/src/provider.rs:110-114 | Registering providers with distinct names stores each under its name and leaves every other name alone |
| RsProvider.RegisterDefaultProvidersProperties | sdks/rust/src/provider.rs:110-114 | After registering the defaults, each of the six names holds its enabled 1.0.0 provider and every other name is untouched |
| RsInstrumentation.LifecycleProperties | sdks/rust/src/instrumentation.rs:23-63 | `enable` and `disable` never fail, set the flag, keep the configuration and are idempotent; `update_config` keeps the flag; `disable` undoes `enable` on a disabled instance |
| RsInstrumentation.NewInstrumentation | sdks/rust/src/instrumentation.rs:15-20 | A new instrumentation is disabled and holds the given configuration |
| RsContext.NewContext | sdks/rust/src/context.rs:17-21 | A new context has no current workflow |
| RsContext.StartThenGet | sdks/rust/src/context.rs:24-40 | Starting a workflow always succeeds and the returned workflow, built from the given name, run id and options, becomes the current one, replacing any earlier one |
| RsContext.EndThenGet | sdks/rust/src/context.rs:43-47 | Ending always succeeds, is idempotent and leaves no current workflow |
| RsContext.SetAttributesKeepState | sdks/rust/src/context.rs:50-64 | Setting one or many attributes succeeds and leaves the context unchanged |
| RsMetrics.RecordTokenUsageProperties | sdks/rust/src/metrics.rs:53-61 | The token counter receives the total, tagged with provider then model; the prompt and completion counts do not reach it |
| RsMetrics.RecordCostProperties | sdks/rust/src/metrics.rs:64-73 | The cost counter receives the total, tagged with provider, model and currency |
| RsMetrics.Millis | sdks/rust/src/metrics.rs:76-85 | The recorded latency is the duration in whole milliseconds, rounded down |
| RsMetrics.RecordLatencyProperties | sdks/rust/src/metrics.rs:76-85 | The latency histogram receives the whole-millisecond duration with one attribute per caller entry |
| RsMetrics.RecordErrorProperties | sdks/rust/src/metrics.rs:88-98 | The error counter receives 1, tagged first with the error type and then with exactly the caller's keys, one attribute per entry |
| RsMetrics.RecordErrorValues | sdks/rust/src/metrics.rs:88-98 | Each caller tag of the error counter carries its entry's value as a string, and no key is tagged twice |

## Left out

- Network I/O is not modelled. The HTTP POST of Python's exporter (`httpx`) and of Go's
  exporter (`http.Client`) is replaced by its outcome, passed in as a parameter.
  For Go that outcome also covers `http.NewRequestWithContext` refusing the URL or
  context. Go's URL parsing is not modelled; which URLs it refuses is left to the parameter.
- The OpenTelemetry runtime is not modelled: tracer providers, span processors, meters and
  context propagation. The model records what the SDK hands it: span names, kinds, attributes,
  events and status, and the metric measurements.
- Python `client.py`, `context.py`, `exceptions.py` and `__init__.py` are not part of this model,
  and neither are the Rust `client.rs`, `untrace.rs` and `lib.rs` or the Go package's root
  `untrace.go`. They wire the modelled parts to the runtime and to HTTP.
- The `get_active_span` helpers in Python `tracer.py` are not modelled: `add_event`,
  `set_attributes`, `set_status` and `record_exception` act on the runtime's current span.
- Python's `async` wrappers and `with_span_async` are not modelled separately. They do what
  their synchronous counterparts do, with `await`.
- Python monkey-patching is modelled as a table of slots: object identity and attribute name
  map to a callable. Python's attribute lookup and `functools.wraps` metadata copying are not
  modelled.
- Python floats are carried as their `repr` text. The core only passes them through or
  stringifies them.
- Go runtime reflection (`reflect.TypeOf`, `runtime.FuncForPC`) is not modelled. The function
  name it yields is a parameter.
- Go `%v` formatting of a `float64` is a parameter. Its shortest-digit rendering is not
  modelled.
- Go `json.Marshal` failing on NaN is not modelled. Reals have no NaN.
- Go ints are unbounded here. Only the values the SDK stores are modelled, with no overflow.
- Go strings are character sequences, not UTF-8 bytes.
- Go log output is not modelled.
- The Go package as shipped does not compile, and the model follows the evident intent.
  `Config.Validate` (config.go:45-54) names the promoted field `Message` in a
  `ValidationError{...}` literal, which Go rejects; the model gives a validation error with that
  message and an empty field. `CreateResource` (exporter.go:152-170) uses `attribute.KeyValue`
  without importing the OpenTelemetry `attribute` package; the model takes that package's meaning.
- The context-level `SetAttribute` and `SetAttributes` of Go's `untraceContext` are not
  modelled. Their bodies are empty placeholders that store nothing.
- Google `generate_content`/`start_chat` and AWS `invoke_model`/`invoke_model_with_response_stream`
  are modelled with the corrected request helper. Their APIs take no `model` keyword, so the
  helper's clash with `model=` does not arise for them.
- GoAttributes.IsSensitiveKeyIff: lower-cases ASCII letters only. Go's `strings.ToLower` is
  Unicode-aware, so a key spelled with, say, the Kelvin sign is matched by Go and not by the model.
- GoAttributes.SanitizeAttributesProperties: inherits the ASCII-only lower-casing of
  `IsSensitiveKeyIff`.
- Go `TraceLLMCall` writes the elapsed milliseconds into the caller's options after the span
  has started. This is not modelled: it changes no span attribute and no metric.
- GoClient.InitProperties: does not model the error branch of `CreateOTLPExporter`, because
  that function never returns an error.
- Rust `f64` parsing of `UNTRACE_SAMPLING_RATE` is a parameter, `parseFloat`. NaN sampling
  rates are not modelled, because reals have no NaN.
- Rust `std::env::var` failing on non-Unicode values is not modelled. An environment is a map
  of strings.
- Rust `trim` is modelled on ASCII whitespace only.
- GoMetrics.RecordLatency: records `duration / 10^9` exactly. Go's `Duration.Seconds()` is a
  `float64` division, whose rounding is not modelled.
- PyAws.DictResponseSetsNothing: an object response stands for one that exposes its body and
  metadata both as attributes and as keys. An object with those attributes that cannot be
  subscripted makes `response['body']` (aws.py:121) or `response['ResponseMetadata']`
  (aws.py:204) raise `TypeError` after the API has returned; that path is not modelled.
- Python's `repr` of characters from U+0100 up is not modelled: they are shown as they are,
  while Python writes the unprintable ones among them (line and paragraph separators,
  format characters, unassigned code points) as `\u` or `\U` escapes.
- RsMetrics.RecordLatencyProperties: does not model the rounding of `as_millis() as f64` for
  durations beyond 2^53 ms. The recorded value is the exact whole number of milliseconds.
- Rust UUIDs and clock readings (`Uuid::new_v4`, `Utc::now`) are parameters.
  `generate_run_id` is not modelled.
- RsAttributes.FloatSlice: takes Rust's `f64` `to_string` as the parameter `render`. It states
  only the key and the string type of the value, not the digits.
- Rust `RwLock` and `Arc` sharing and all concurrency are not modelled. Every operation is
  modelled as one atomic step.
- Go `sync.RWMutex` locking is not modelled, for the same reason.

## Findings

| source | as written | input that shows it | evidently intended | confidence | as-written member | corrected member |
|---|---|---|---|---|---|---|
| sdks/python/src/untrace/instrumentation/openai.py:119 | every adapter calls `self._set_request_attributes(span, model, **kwargs)` with the call's own keyword arguments, so `model` is bound twice whenever the caller passed `model=` | `client.chat.completions.create(model="gpt-4", messages=[...])` raises `TypeError` inside the traced call, before the API is reached | pass the keyword arguments without `model`, so the request attributes are set and the API call is made | not executed | PyAdapterBase.TracedCallAsWrittenDefect, PyOpenAI.ChatAsWrittenDefect, PyOpenAI.CompletionAsWrittenDefect, PyOpenAI.EmbeddingAsWrittenDefect, PyAnthropic.MessageAsWrittenDefect, PyAnthropic.CompletionAsWrittenDefect, PyCohere.GenerateAsWrittenDefect, PyCohere.ChatAsWrittenDefect, PyCohere.EmbedAsWrittenDefect, PyMicrosoft.ChatAsWrittenDefect, PyMicrosoft.CompletionAsWrittenDefect, PyMicrosoft.EmbeddingAsWrittenDefect | PyAdapterBase.TracedCallProperties, PyOpenAI.ChatSpanProperties, PyAnthropic.MessageSpanProperties, PyCohere.GenerateSpanProperties, PyMicrosoft.ChatSpanProperties and the other per-provider span, request, response and token lemmas |
| sdks/python/src/untrace/instrumentation/google.py:78 | the wrapper reads `getattr(self, 'model_name', 'unknown')` where `self` is the adapter, which has no `model_name` | a `GenerativeModel("gemini-pro")` call is traced with model `unknown` | read `model_name` from the model instance whose method was wrapped | not executed | PyGoogle.ModelNameDefect | PyGoogle.GenerateRequestAttributes |
| sdks/python/src/untrace/providers/aws.py:203 | response fields are guarded with `hasattr(response, 'body')` and `hasattr(response, 'ResponseMetadata')`, but boto3 returns a `dict`, whose keys are not attributes | a response `{"body": <42 bytes>, "ResponseMetadata": {"RequestId": "req-1", "HTTPStatusCode": 200}}` sets none of body size, request id or status code | test the keys (`'body' in response`) and read them by key | not executed | PyAws.DictResponseDefect, PyAws.DictResponseSetsNothing | PyAws.InvokeResponseAttributes, PyAws.InvokeMetadataAttributes, PyAws.StreamResponseAttributes |
| sdks/go/untrace/client.go:106-111 | `GetInstance` returns the `*untraceClient` global as a `Client`, so with no global client it returns a non-nil interface holding a nil pointer, and `isEnabled`'s `b.client != nil` (providers.go:102-104) lets it through | `provider.Initialize(untrace.GetInstance())` before `Init`, then a `createLLMSpan`: `Tracer()` locks the mutex of a nil client and panics | return a nil `Client` when there is no global client, so a provider given it stays disabled | not executed | GoClient.GetInstance, GoProviders.InitializeWithoutGlobalClientPanics | GoClient.GetInstanceChecked, GoProviders.InitializeWithCheckedInstance |
| sdks/go/untrace/context.go:102-116 | `End` deletes `workflows[runID]` whatever workflow is registered under that run id now | start workflow "first" with run id `r`, start "second" with run id `r`, end "first": the running "second" is no longer registered | delete the registration only when it still refers to the workflow being ended | not executed | GoContext.EndAsWrittenDefect | GoContext.EndKeepsReplacement |
