# trainlightAI session coordination, modelled in Dafny

This project models the core of the chatbot ingestor, together with the small deterministic helpers of the market analyzer, and proves properties of that model.

- **Session store (`ContextManager`).** A class whose `sessions` field is a map from session id to session record. The record holds `context`, `completion_status`, `validation_state` and `agent_triggers`. Each of these is an optional JSON map, where SQL NULL is `None`. The store supports creating a session, writing one context field, reading the `get_context` view, and reading the cached completion ratio.
- **Validation engine (`ValidationEngine`).** Pure functions over two rule tables:
  - per-field type and length rules;
  - the required fields of each step, in declaration order.

  The next-action suggestion is a loop with an early return. It is proved equal to a recursive specification.
- **Agent registry (`AgentOrchestrator`).**
  - The registry is a name-to-config map plus its insertion order. Re-registering a name keeps its place, as a Python dict does.
  - A trigger condition is a small expression language over the context. `check_triggers` is a loop proved equal to an ordered filter.
  - `invoke_agent` looks the name up and, for a registered agent, opens the client session lazily and posts the session's context. The remote side is a function from request to reply. As written, encoding that context fails on its `created_at` datetime, so nothing is sent and every invocation of a registered agent fails (see Findings). The members `InvokeAgent`, `InvokeTriggered` and `ProcessMessage` model the evidently intended encoding, and `Orchestrator.InvokeOutcomeAsWritten` models the code as written.
- **Market agents configuration.** The three agents of `configs/agent_configs.py` are registered in order: primary, secondary after primary, report after both.
- **Turn processor (`ChatbotIngestor.process_message`).** One turn runs these steps in order:
  1. keyword extraction;
  2. one store write per extracted field;
  3. per-field validation;
  4. the trigger filter, then one invocation per triggered agent;
  5. the next action;
  6. the reply.

  Every step after the writes reads the context snapshot taken before them.
- **Market analyzer helpers.**
  - the three generic validators of `utils/validators.py`;
  - the required-and-truthy field check of `BaseMarketAgent`, its registration endpoint, and its connector guard;
  - the bounded result cache of `MarketOptimizerAgent`, which evicts the entry with the oldest timestamp;
  - the optimizer's value filters.

Python exceptions become `Result`/`Outcome` values that carry the message the code raises. Python values (None, bool, int, float, str, list, dict) are the `Values.Value` datatype. Truthiness and `isinstance` (bool counts as int) follow Python, and `<=` follows Python on numbers. Floats are exact reals extended with plus and minus infinity.

Files: `results.dfy`, `text.dfy` and `values.dfy` hold shared helpers. Each core file has one module: `context.dfy`, `validation.dfy`, `orchestrator.dfy`, `ingestor.dfy`, `validators.dfy`, `base_agent.dfy` and `optimizer.dfy`. `agent_configs.dfy` holds the registry instance.

## Model

| member | source | states |
|---|---|---|
| Context.ContextManager.constructor | chatbot-ingestor-core/core/context.py:24-25 | the store starts with no sessions, and every record is filed under its own id |
| Context.ContextManager.CreateSession | chatbot-ingestor-core/core/context.py:27-39 | the new session is stored under the fresh id with the given role and time, and with empty `context`, `completion_status`, `validation_state` and `agent_triggers`; every other session is unchanged |
| Context.ContextManager.UpdateContext | chatbot-ingestor-core/core/context.py:41-53 | an unknown id fails with "Sesión no encontrada: <id>" and changes nothing; otherwise only that session's context changes, to the old context (or `{}`) with `field` set to `value`, and that context is returned |
| Context.ReadAfterWrite | chatbot-ingestor-core/core/context.py:41-68 | after a write, reading the same session shows `data[field] == value`, the rest of the view as before, and every other session reads exactly as before |
| Context.Read | chatbot-ingestor-core/core/context.py:55-68 | fails exactly for an unknown id, with "Sesión no encontrada"; otherwise returns the record's id, role and creation time with its three maps, each absent map as `{}` |
| Context.ContextManager.GetContext | chatbot-ingestor-core/core/context.py:55-68 | the same view, read from the store's current state |
| Context.ContextManager.GetCompletionStatus | chatbot-ingestor-core/core/context.py:70-88 | an unknown id fails and changes nothing; otherwise the returned value and the session's new record are those of `CompletionStep`, and other sessions are unchanged |
| Context.CompletionStep | chatbot-ingestor-core/core/context.py:70-88 | the value `get_completion_status` returns and the record afterwards: the record is unchanged or gains exactly the returned status, and its context and validation state are never touched; characterised further by `CompletionIsFraction`, `EmptyContextNoCompletion` and `CompletionNeverRecomputed` |
| Context.CompletionIsFraction | chatbot-ingestor-core/core/context.py:79-85 | a freshly computed status is exactly `{"general": filled/total}`, where `filled` counts non-None values; the total is positive, the ratio lies in [0, 1], and the status is stored |
| Context.FilledAtMostTotal | chatbot-ingestor-core/core/context.py:83 | the number of non-None values never exceeds the number of fields |
| Context.EmptyContextNoCompletion | chatbot-ingestor-core/core/context.py:79-82 | with no cached status and an empty context, the result is `{}` and the record is not changed |
| Context.CompletionNeverRecomputed | chatbot-ingestor-core/core/context.py:76-79 | once a non-empty status is cached, any sequence of `update_context` writes leaves it returned as it is, never recomputed |
| Validation.ValidateField | chatbot-ingestor-core/core/validation.py:17-44 | a field without rules is valid with "No hay reglas de validación para este campo"; otherwise it is valid iff the error list is empty, and the message is the errors joined by ", " or "Campo válido"; there are no suggestions |
| Validation.FieldVerdict | chatbot-ingestor-core/core/validation.py:29-44 | a ruled field is valid iff there is no type mismatch, no too-short string and no too-long string; each violated check adds exactly one error |
| Validation.NonStringNoLengthError | chatbot-ingestor-core/core/validation.py:33-38 | a non-string value never gets a length error; only the type error can appear |
| Validation.TypeAndLengthBothReported | chatbot-ingestor-core/core/validation.py:29-38 | a value can fail the type check and the minimum-length check in one result, with both messages in order |
| Validation.ValidateStructure | chatbot-ingestor-core/core/validation.py:46-61 | an unknown step is valid with "No hay reglas de estructura para este paso"; otherwise it is valid iff every required key is present, the message lists the missing fields in the step's order, and there is exactly one suggestion per missing field |
| Validation.NoneValueIsPresent | chatbot-ingestor-core/core/validation.py:55 | a key that holds `None` is present, so it is not missing |
| Values.MissingKeys | chatbot-ingestor-core/core/validation.py:55 | a field is missing iff it is required and not a key of data; the result is empty iff every required field is present |
| Values.MissingKeysInOrder | chatbot-ingestor-core/core/validation.py:55 | the missing fields keep their order in the required list |
| Values.MissingKeysDistinct | chatbot-ingestor-core/core/validation.py:55 | a required list without repeats gives missing fields without repeats |
| Validation.NextAction | chatbot-ingestor-core/core/validation.py:63-72 | the suggestion is either the completion message or the prompt for the missing fields of some step; characterised by `NextActionCompleteIff` and `NextActionFirstGap` |
| Validation.NextActionCompleteIff | chatbot-ingestor-core/core/validation.py:63-72 | the suggestion is "Todos los campos requeridos han sido completados" iff no step has a missing field |
| Validation.NextActionFirstGap | chatbot-ingestor-core/core/validation.py:66-70 | when step k is the first with a missing field, the suggestion is the prompt listing that step's missing fields in order |
| Validation.SuggestNextAction | chatbot-ingestor-core/core/validation.py:63-72 | the loop with early return computes exactly `NextAction` on the steps in declaration order |
| Orchestrator.AgentOrchestrator.constructor | chatbot-ingestor-core/core/orchestrator.py:14-16 | an empty registry and no client session |
| Orchestrator.AgentOrchestrator.RegisterAgent | chatbot-ingestor-core/core/orchestrator.py:18-24 | the entry for `name` becomes (name, condition, endpoint), overwriting any earlier one; other entries are unchanged; a new name goes last in order, and a re-registered name keeps its place |
| Orchestrator.Eligible | chatbot-ingestor-core/core/orchestrator.py:26-32 | the ordered trigger filter: never longer than the registration order, and every name in it is registered and in that order; characterised by `EligibleIsOrderedFilter` |
| Orchestrator.AgentOrchestrator.CheckTriggers | chatbot-ingestor-core/core/orchestrator.py:26-32 | returns `Eligible` of the registry in insertion order; the registry is not modified |
| Orchestrator.EligibleIsOrderedFilter | chatbot-ingestor-core/core/orchestrator.py:26-32 | a name is triggered iff it is registered and its condition holds on the context; the triggered list follows registration order and has no duplicates |
| Orchestrator.AgentOrchestrator.InvokeAgent | chatbot-ingestor-core/core/orchestrator.py:34-51 | the result is `InvokeOutcome`; an unregistered name sends nothing; a registered one opens the session if none is open and appends exactly one request, to its endpoint; the registry is unchanged |
| Orchestrator.InvokeOutcome | chatbot-ingestor-core/core/orchestrator.py:34-51 | the outcome of one invocation with the intended body encoding: only a registered agent can succeed; characterised by `InvokeOutcomeCases` |
| Orchestrator.InvokeOutcomeCases | chatbot-ingestor-core/core/orchestrator.py:36-51 | an unregistered name fails with "Agente no encontrado: <name>" whatever the remote side would do; a registered one succeeds iff the reply is status 200 with a JSON body, which is then the result; every other outcome is "Error al comunicarse con el agente: ..." |
| Orchestrator.EncodeContextKeepsData | chatbot-ingestor-core/core/orchestrator.py:45 | the posted body carries the session's data and agent triggers unchanged |
| Orchestrator.InvokeOutcomeAsWritten | chatbot-ingestor-core/core/orchestrator.py:34-51 | the invocation as written: an unregistered name fails with "Agente no encontrado", and a registered one always fails with the wrapped datetime encoding error, whatever the agent would answer |
| Orchestrator.AsWrittenInvocationAlwaysFails | chatbot-ingestor-core/core/orchestrator.py:45-51 | as written, a registered agent that would answer 200 still fails with the datetime encoding error; with the corrected encoding it returns the body (see Findings) |
| AgentConfigs.RegisterMarketAgents | agents-market-analyzer/configs/agent_configs.py:3-40 | registering the three configured agents on an empty registry gives exactly the configured map, in the order primary, secondary, report |
| AgentConfigs.PrimaryTriggerMeaning | agents-market-analyzer/configs/agent_configs.py:9-13 | the primary agent triggers iff its three required fields are present and at least 80% of the context's values are not None |
| AgentConfigs.OnlyPrimaryWithoutResults | agents-market-analyzer/configs/agent_configs.py:22-37 | while no agent result is recorded, the filter yields the primary agent when its condition holds, and nothing otherwise |
| AgentConfigs.DependentsWaitForResults | agents-market-analyzer/configs/agent_configs.py:22-37 | the secondary agent triggers only after the primary has a result; the report triggers only after both have one |
| Text.ContainsIffOccurs | chatbot-ingestor-core/core/ingestor.py:64 | the substring test holds iff the word occurs at some index |
| Text.Lower | chatbot-ingestor-core/core/ingestor.py:64 | lower-casing keeps the length and maps each character by ASCII lower-casing |
| Ingestor.ExtractIntentAndData | chatbot-ingestor-core/core/ingestor.py:57-68 | the intent is "company_info" or "unknown"; "unknown" extracts nothing, and "company_info" extracts exactly one string field, `company_type`; characterised by `ExtractionCases` |
| Ingestor.ExtractionCases | chatbot-ingestor-core/core/ingestor.py:57-68 | the intent is "company_info" iff the lower-cased text contains "empresa"; the only extracted field is then `company_type`, which is "startup" iff the text also contains "startup" and "empresa" otherwise; any other text gives ("unknown", {}) |
| Ingestor.MentionAnywhereIsRecognised | chatbot-ingestor-core/core/ingestor.py:64 | "empresa" in any ASCII case, at any position, is recognised |
| Ingestor.GenerateResponse | chatbot-ingestor-core/core/ingestor.py:70-76 | the reply is the product follow-up question or the default reply; characterised by `ResponseDependsOnlyOnIntent` |
| Ingestor.ResponseDependsOnlyOnIntent | chatbot-ingestor-core/core/ingestor.py:70-76 | the reply ignores validation and agent results; it is the product follow-up question iff the intent is "company_info", and the default reply otherwise |
| Ingestor.Run | chatbot-ingestor-core/core/ingestor.py:42-44 | invoking the triggered names in order until the first failure, with the requests sent; characterised by `RunSucceedsIff`, `RunStopsAtFailure`, `RunFailsAtFirstFailure` and `RunRequestsInOrder` |
| Ingestor.RunSucceedsIff | chatbot-ingestor-core/core/ingestor.py:42-44 | the invocations succeed iff each one does; the results are then keyed by exactly the invoked names, each holding its agent's result |
| Ingestor.RunStopsAtFailure | chatbot-ingestor-core/core/ingestor.py:43-44 | after the first failing invocation, the later ones send nothing and change nothing |
| Ingestor.RunFailsAtFirstFailure | chatbot-ingestor-core/core/ingestor.py:43-44 | a failed turn carries the error of the earliest failing agent: every requested agent before it succeeded, and its own request was the last one sent |
| Ingestor.RunRequestsInOrder | chatbot-ingestor-core/core/ingestor.py:43-44 | when every invocation succeeds, one request per agent is sent, in order, each to that agent's endpoint with the encoded snapshot |
| Ingestor.TurnInvokesEachTriggeredAgentOnce | chatbot-ingestor-core/core/ingestor.py:41-44 | in a successful turn each triggered agent is invoked exactly once, in registration order |
| Ingestor.ChatbotIngestor.constructor | chatbot-ingestor-core/core/ingestor.py:20-23 | the store, the engine and the orchestrator are the ones given |
| Ingestor.ChatbotIngestor.WriteFields | chatbot-ingestor-core/core/ingestor.py:32-33 | after one `update_context` per extracted field, the session's context holds every extracted field and nothing else in the store changes |
| Ingestor.ValidationStatus | chatbot-ingestor-core/core/ingestor.py:36-38 | the validation map of a turn, keyed by exactly the extracted field names |
| Ingestor.ChatbotIngestor.ValidateFields | chatbot-ingestor-core/core/ingestor.py:36-38 | the validation map has exactly the extracted field names as keys, each holding `validate_field` of its value against the snapshot |
| Ingestor.ChatbotIngestor.InvokeTriggered | chatbot-ingestor-core/core/ingestor.py:42-44 | the triggered agents are invoked in order until the first failure; the outcome and the requests sent are those of `Run`; the registry is unchanged |
| Ingestor.ChatbotIngestor.ProcessMessage | chatbot-ingestor-core/core/ingestor.py:25-55 | an unknown session fails with "Sesión no encontrada", with nothing written and nothing sent; otherwise the store gains the extracted fields, the failing agent's error is returned or the result is (reply, snapshot, validation of the extracted fields, `check_triggers(snapshot)`, next action on the snapshot), and the registry is unchanged |
| Validators.ValidateRequiredFields | agents-market-analyzer/utils/validators.py:5-9 | fails iff some required field is not a key of data, with "Faltan campos requeridos: " and the missing fields; with no required fields it never fails |
| Validators.RequiredFieldsMessageLists | agents-market-analyzer/utils/validators.py:7-9 | the message lists exactly the absent fields, in required order |
| Validators.StructureAgreesWithRequiredFields | agents-market-analyzer/utils/validators.py:5-9 | on the same required list this validator and `validate_structure` give the same verdict and, on failure, the same message |
| Validators.ValidateNumericRange | agents-market-analyzer/utils/validators.py:11-14 | passes iff min <= value <= max; the failure message names the value and both bounds |
| Validators.EmptyRangeRejectsAll | agents-market-analyzer/utils/validators.py:13 | with min > max every value is rejected |
| Validators.ValidateStringLength | agents-market-analyzer/utils/validators.py:16-21 | passes iff min <= len(value) <= max; the failure message names both bounds |
| Validators.StringLengthAgreesWithFieldRule | agents-market-analyzer/utils/validators.py:18 | the string-length validator accepts exactly the strings that a field rule with the same bounds leaves without a length error |
| BaseAgent.BaseMarketAgent.constructor | agents-market-analyzer/agents/base_agent.py:18-22 | the name and configuration are the ones given, and there is no core connector |
| BaseAgent.BaseMarketAgent.ValidateContext | agents-market-analyzer/agents/base_agent.py:29-33 | with no required fields, true for every context; a context without "data" passes iff nothing is required; with a dict "data", true iff every required field is present with a truthy value |
| BaseAgent.AllFilledIff | agents-market-analyzer/agents/base_agent.py:33 | the `all(...)` over the required fields holds iff each one is present and truthy |
| BaseAgent.BaseMarketAgent.FalsyFieldFails | agents-market-analyzer/agents/base_agent.py:33 | a required field that is present but falsy (None, "", 0, an empty collection) makes the check false |
| BaseAgent.BaseMarketAgent.ValidContextHasRequiredFields | agents-market-analyzer/agents/base_agent.py:29-33 | a context that passes also passes `validate_required_fields` on the same fields |
| BaseAgent.BaseMarketAgent.ValidatesPostedContext | agents-market-analyzer/agents/base_agent.py:32 | on the body the core posts, the check reads exactly the session's data |
| BaseAgent.BaseMarketAgent.RegisterWithCore | agents-market-analyzer/agents/base_agent.py:35-48 | the connector is created from the first core URL and kept afterwards; the registration carries the agent's name, its trigger condition, and the endpoint `core_url + "/agents/" + name + "/execute"` |
| BaseAgent.BaseMarketAgent.RegisterWithDefaultCore | agents-market-analyzer/agents/base_agent.py:35-48 | `register_with_core()` with the default `core_url`: the connector is created for "http://localhost:8000" unless one exists, and the endpoint is "http://localhost:8000/agents/<name>/execute" |
| BaseAgent.EndpointInjective | agents-market-analyzer/agents/base_agent.py:42 | two agents registered against the same core get the same endpoint only if they have the same name |
| BaseAgent.BaseMarketAgent.UpdateContextResults | agents-market-analyzer/agents/base_agent.py:50-59 | fails with "CoreConnector no inicializado" iff no connector is set; otherwise it sends the session id, the agent's name and the results through the connector |
| Optimizer.MarketOptimizerAgent.constructor | agents-market-analyzer/agents/market_optimizer/optimizer_agent.py:22-33 | `cache_size` defaults to 1000; the cache and the timestamps start empty |
| Optimizer.MarketOptimizerAgent.InitCache | agents-market-analyzer/agents/market_optimizer/optimizer_agent.py:35-38 | both tables become empty |
| Optimizer.MarketOptimizerAgent.FindOldest | agents-market-analyzer/agents/market_optimizer/optimizer_agent.py:305 | returns a key whose timestamp is the minimum |
| Optimizer.OldestIsUnique | agents-market-analyzer/agents/market_optimizer/optimizer_agent.py:305 | with distinct timestamps the oldest key is unique |
| Optimizer.MarketOptimizerAgent.EvictOldest | agents-market-analyzer/agents/market_optimizer/optimizer_agent.py:304-307 | exactly the oldest entry leaves both tables |
| Optimizer.MarketOptimizerAgent.UpdateCache | agents-market-analyzer/agents/market_optimizer/optimizer_agent.py:301-311 | keeps the shared key set and, for `cache_size >= 1`, the capacity bound; when full it removes exactly the oldest entry, even if the key is already cached, and leaves every other entry as it was; then `cache[key] == value` and the key has the newest timestamp; with `cache_size <= 0` it raises min()'s error and changes nothing |
| Optimizer.MarketOptimizerAgent.Recall | agents-market-analyzer/agents/market_optimizer/optimizer_agent.py:121-127 | a hit returns the stored value and refreshes only that key's timestamp; a miss changes nothing |
| Optimizer.MarketOptimizerAgent.Optimize | agents-market-analyzer/agents/market_optimizer/optimizer_agent.py:121-141 | a hit returns the cached value, leaves the cache as it was, and refreshes only that key's timestamp; a miss with `cache_size <= 0` fails with min()'s error and changes nothing; any other miss returns the computed value and stores it under the newest timestamp: in a non-full cache every other entry stays, and in a full one exactly the oldest entry is evicted |
| Optimizer.CacheKeysOfKindsDiffer | agents-market-analyzer/agents/market_optimizer/optimizer_agent.py:124 | the calculation, performance and validation optimizations never share a cache entry |
| Optimizer.MarketOptimizerAgent.GetCacheStats | agents-market-analyzer/agents/market_optimizer/optimizer_agent.py:313-318 | under the shared key set, hits equal the number of entries and misses are 0 |
| Optimizer.ValidateValue | agents-market-analyzer/agents/market_optimizer/optimizer_agent.py:286-299 | `_validate_value`: it can raise only when `check_range` is set, the numeric check has not already rejected the value, and some operand of the chained comparison is not a number; characterised by `NoChecksAcceptAll`, `NumericCheckRejectsNonNumbers` and `RangeCheckMeaning` |
| Optimizer.NoChecksAcceptAll | agents-market-analyzer/agents/market_optimizer/optimizer_agent.py:286-299 | with neither `check_numeric` nor `check_range` set, every value is accepted |
| Optimizer.NumericCheckRejectsNonNumbers | agents-market-analyzer/agents/market_optimizer/optimizer_agent.py:289-291 | with `check_numeric`, every non-number is rejected |
| Optimizer.RangeCheckMeaning | agents-market-analyzer/agents/market_optimizer/optimizer_agent.py:293-297 | with `check_range` and numeric bounds, a number is accepted iff it lies between the bounds; a missing bound defaults to -inf or +inf |
| Values.LessEq | agents-market-analyzer/agents/market_optimizer/optimizer_agent.py:296 | the comparison is defined iff both sides are numbers |
| Optimizer.AcceptedIsSubmap | agents-market-analyzer/agents/market_optimizer/optimizer_agent.py:243-252 | the filter keeps exactly the entries whose value is accepted, each with its own key and value; with no checks it keeps everything |
| Optimizer.MarketOptimizerAgent.ProcessValidations | agents-market-analyzer/agents/market_optimizer/optimizer_agent.py:243-284 | `_process_validations` (243-252) and `_validate_optimized_results` (271-284), which share one body: succeeds iff no value's check raises, and then returns exactly `Accepted`; otherwise it returns the error of some entry whose check raises |

## Left out

- Persistence: the SQLAlchemy session, `commit` and `refresh` are not modelled; the database is the map `sessions`, and `_get_session` is a map lookup. The database generates the session id (uuid4) and `created_at`; here they are parameters of `CreateSession`, and the id is required to be new.
- Orchestrator.AgentOrchestrator.InvokeAgent, Ingestor.ChatbotIngestor.InvokeTriggered, Ingestor.ChatbotIngestor.ProcessMessage: these model the evidently intended body encoding, `Orchestrator.EncodeContext`, where `created_at` is a JSON number. As written, `json.dumps` rejects the `datetime` before any request leaves. So no request is sent, every invocation of a registered agent fails with "Error al comunicarse con el agente: Object of type datetime is not JSON serializable", and every turn that triggers an agent fails with that error. `Orchestrator.InvokeOutcomeAsWritten` is the as-written model of one invocation (see Findings).
- Context.ReadAfterWrite, Context.ContextManager.UpdateContext: writing a field makes it visible to the next read; this is the intended behaviour. As written, when the stored context is non-empty, `update_context` mutates that dict in place and assigns the same object back (context.py:47-49). A plain SQLAlchemy JSON column may not detect that change, and then `refresh` (line 52) reloads the old value. If so, read-your-write holds in the source only for a write onto an empty context. SQLAlchemy change detection is not modelled.
- Ingestor.ChatbotIngestor.ProcessMessage: the model reads a value snapshot before the writes, but in the source `get_context` returns the stored `context` dict itself when it is non-empty, and `update_context` mutates that same dict, so the source's snapshot also shows this turn's writes in that case. This aliasing, and whether SQLAlchemy persists an in-place change to a JSON column, are not modelled.
- Context: the completion ratio is kept as an exact numerator/denominator pair, not as a float.
- Text.Lower: `str.lower()` is modelled for ASCII letters only. Python's full lower-casing also maps some non-ASCII characters to ASCII letters, and can change a string's length. For example, KELVIN SIGN (U+212A) becomes "k", and U+0130 becomes "i" followed by U+0307. Neither "empresa" nor "startup" contains k or i, so the keyword tests are unaffected by those cases. The model does not claim exactness for every Unicode input.
- Trigger conditions: the source stores arbitrary Python callables. The model uses a small expression language, `Orchestrator.Trigger`. The dict-shaped conditions of `configs/agent_configs.py` are read as such expressions ("completion_threshold" together with the required fields; "depends_on" as result presence).
- Network: the HTTP call in `invoke_agent` is a function from request to reply. The `aiohttp` client session is kept as the log of requests posted through it. `close` is not modelled. Encoding the body for any other non-JSON value (beyond the datetime finding) is not modelled.
- Market agents: `execute` and all LLM-driven methods, prompts and templates are left out, and so is `_calculate_execution_time`, which reads the wall clock. The core connector's HTTP calls become the values `Registration` and `ResultsUpdate`. The `AgentResult` record has no operations in the base class and is not modelled.
- BaseAgent.BaseMarketAgent.ValidateContext: when "data" is not a dict and some field is required, the model returns an error. Python's behaviour for a list or string there (membership, then indexing) is not modelled.
- Validators.ValidateNumericRange: the value and the bounds are integers. Python's rendering of floats in the message is not modelled.
- Values.LessEq: only numbers are ordered; comparing two strings or two lists raises in the model, whereas Python orders them. `numpy` number types are not modelled.
- Optimizer.MarketOptimizerAgent.ProcessValidations: a dict here has no iteration order, so when several entries raise, the model does not say which one's error surfaces first.
- Optimizer: `time.time()` is an integer clock that advances at every stamp, so timestamps are distinct and how `min` breaks ties never matters. `hash(str(...))` is an opaque digest string. The LLM answer is the `computed` parameter of `Optimize`. `max_workers`, `precision`, `_process_calculations`, `_apply_performance_optimizations`, the thread pool, `_get_memory_usage` and the float scoring functions are left out: they are numpy, threading, process and floating-point code.
- Validation engine: the rule tables are data given to the engine, and the type rule ranges over six Python types (str, int, float, bool, list, dict).
- Concurrency: async scheduling and the absence of locking across concurrent turns are not modelled; each operation runs to completion.
- The web routes, the database setup, the browser front end, logging and configuration loading are not part of this model.

## Findings

| source | as written | input that shows it | evidently intended | confidence | as-written member | corrected member |
|---|---|---|---|---|---|---|
| chatbot-ingestor-core/core/orchestrator.py:45 | `invoke_agent` posts the `get_context` dict with `json=`; that dict holds `created_at` as a `datetime` (context.py:64), which aiohttp's default `json.dumps` cannot encode; the `TypeError` is caught at line 50 and re-raised | any registered agent and any session, even when the agent would answer 200: the call fails with "Error al comunicarse con el agente: Object of type datetime is not JSON serializable" | `created_at` encoded as a JSON value (for example an ISO string or a number), so that the agent receives the context and its reply is returned | not executed | Orchestrator.AsWrittenInvocationAlwaysFails | Orchestrator.InvokeOutcomeCases |
