# AgentHub core in Dafny

This project models the in-memory core of the AgentHub part of Onyx and proves properties of it.
The core has four parts.

- **Knowledge bases** (`KnowledgeModels`). A knowledge base has a semantic version history and a
  list of connectors. New versions may only be appended. Each one bumps the micro number of the
  current tag, and rollback is allowed only to a tag in the history.
- **The knowledge-base manager** (`KnowledgeManager`). It keeps a table from id to knowledge base
  and offers CRUD and version operations, connector switches, sync bookkeeping (`trigger_sync`), the
  scan for connectors due to sync, query recording, and metrics lookup. Every operation on an absent
  id answers with a sentinel (`None`, `false`, `[]`) and does not fail.
- **Agent definitions and the agent registry** (`AgentBase`, `AgentRegistry`). After construction, a
  definition gets its defaults filled in. It projects to a metadata record and to a model-selector
  entry whose id is prefixed with `agent:`. The registry refuses a duplicate key and any unknown or
  disabled bound knowledge base. Its listings are filtered by conjunctions of conditions.
  `execute_agent` runs the agent's runner, adds execution metadata, and records one query on each
  bound knowledge base, on success and on failure alike.
- **The travel-planning pipeline** (`TravelAgent`). A four-node graph: analyze, then either
  synthesize straight away (when clarification is needed) or web search, then create plans, then
  synthesize. The model covers the deterministic work around the language-model and search calls.
  That is the clarification rule, the two-question cap, the two-query search cap with skipped
  failures, the answer composition, and the runner's projection of the final state.

The form follows the source.

- Objects that Python mutates in place are Dafny classes, with `modifies` clauses, `reads` clauses
  and a `View()` of all their fields: `KnowledgeBase`, `KnowledgeBaseManager`, `AgentRegistry`, the
  execution context, the travel state and the search client.
- Each state-changing method states its whole new state. Usually it does so through a pure function
  of the old state (`AnalyzeNode`, `SearchNode`, `PlanNode`, `SynthesizeNode`, `SyncAll`,
  `UpdatedView`, `Queried`, `Finish`).
- The properties the source promises are proved about those functions as lemmas.
- Loops in the source (`enable_connector`, `trigger_sync`, the sync-due scan, the record-query loops,
  the trigger search, the capped search loop, the clarification numbering, the graph's run loop) are
  `while`/`for` loops with invariants.
- Definitions are immutable in the source (a frozen dataclass), so they are datatype values with
  pure functions.

Helper modules: `Wrappers` (`Option`, `Result`, a JSON-like `Value`), `Seqs` (order-preserving
filter, subsequences, duplicate-free listings), `Text` (decimal digits, `split('.')`,
`lstrip('v')`, Python's `str.strip()` whitespace set, `", ".join`).

## Model

| member | source | states |
|---|---|---|
| KnowledgeModels.ParseTagOfTag | backend/onyx/agents/knowledge/models.py:111-112 | parsing (`lstrip('v')` then a three-part release version) the tag `v{major}.{minor}.{micro}` written for a version gives back exactly that version |
| KnowledgeModels.TagInjective | backend/onyx/agents/knowledge/models.py:112 | distinct versions are written as distinct tags |
| KnowledgeModels.NextTagParses | backend/onyx/agents/knowledge/models.py:111-112 | a next tag exists iff the current tag parses, and it parses as the same major and minor with micro plus one |
| KnowledgeModels.NextTagOfTag | backend/onyx/agents/knowledge/models.py:111-112 | the tag after the tag of `v` is the tag of `v` with micro bumped by one |
| KnowledgeModels.DefaultVersionTagParses | backend/onyx/agents/knowledge/models.py:73 | the default current tag `v1.0.0` parses as version (1, 0, 0) |
| KnowledgeModels.FirstVersionTag | backend/onyx/agents/knowledge/models.py:73-112 | the first version created from the default tag is `v1.0.1` |
| KnowledgeModels.ActiveConnectors | backend/onyx/agents/knowledge/models.py:152-154 | the result holds only enabled connectors of the list, holds every enabled one as often as the list does, and keeps their relative order |
| KnowledgeModels.WithoutConnector | backend/onyx/agents/knowledge/models.py:98 | the result keeps exactly the connectors with another id, each as often as the list holds it, in order, and is shorter iff some connector had the id |
| KnowledgeModels.CreateKeepsHistory | backend/onyx/agents/knowledge/models.py:105-130 | on a history whose current tag and stored tags are well formed (current is the default before any version, else a stored tag), version creation cannot fail, and appending the bumped version keeps that invariant |
| KnowledgeModels.RollbackKeepsHistory | backend/onyx/agents/knowledge/models.py:132-138 | rolling back to a stored tag keeps the versioning invariant |
| KnowledgeModels.DefaultHistoryValid | backend/onyx/agents/knowledge/models.py:73-74 | a fresh knowledge base (tag `v1.0.0`, empty history) satisfies the versioning invariant |
| KnowledgeModels.KnowledgeBase.constructor | backend/onyx/agents/knowledge/models.py:62-89 | every field takes the record's default (ACTIVE, enabled, `v1.0.0`, no versions, no connectors, zero queries) or the given value, and the versioning invariant holds |
| KnowledgeModels.KnowledgeBase.AddConnector | backend/onyx/agents/knowledge/models.py:91-94 | exactly the given connector is appended at the end; only `updated_at` changes besides |
| KnowledgeModels.KnowledgeBase.RemoveConnector | backend/onyx/agents/knowledge/models.py:96-103 | returns true iff some connector had the id; afterwards the other connectors remain in order, and `updated_at` moves only when one was removed |
| KnowledgeModels.KnowledgeBase.CreateVersion | backend/onyx/agents/knowledge/models.py:105-130 | an unparsable current tag gives `InvalidVersion` and no change; otherwise exactly one version with the bumped tag, the given counts, metadata (empty when absent) and checksum is appended and becomes current; on a knowledge base keeping the versioning promise it always succeeds and keeps the promise |
| KnowledgeModels.KnowledgeBase.RollbackVersion | backend/onyx/agents/knowledge/models.py:132-138 | returns true iff the history holds the tag; then the tag becomes current, else nothing changes; the history never changes and the versioning invariant is kept |
| KnowledgeModels.KnowledgeBase.Update | backend/onyx/agents/knowledge/manager.py:94-101 | each given field is replaced, the others keep their values, `updated_at` is stamped |
| KnowledgeModels.KnowledgeBase.Enable | backend/onyx/agents/knowledge/models.py:140-144 | enabled becomes true and status ACTIVE; nothing else but `updated_at` changes |
| KnowledgeModels.KnowledgeBase.Disable | backend/onyx/agents/knowledge/models.py:146-150 | enabled becomes false and status INACTIVE; nothing else but `updated_at` changes |
| KnowledgeModels.KnowledgeBase.GetActiveConnectors | backend/onyx/agents/knowledge/models.py:152-154 | exactly the enabled connectors, each as often as the list holds it, in their original order |
| KnowledgeModels.KnowledgeBase.RecordQuery | backend/onyx/agents/knowledge/models.py:156-159 | the query count goes up by exactly one and the last-queried time is set; nothing else changes |
| KnowledgeManager.SyncedConnector | backend/onyx/agents/knowledge/manager.py:251-255 | a selected connector gets one more sync, the sync time, and a next sync `now + interval` only when auto-syncing; every other field, and every unselected connector, is unchanged |
| KnowledgeManager.DueConnectors | backend/onyx/agents/knowledge/manager.py:270-272 | a pair is produced iff it carries the knowledge base's id and the id of a listed connector that is enabled, auto-syncing and has a next sync time not after now |
| KnowledgeManager.DueInKbMembership | backend/onyx/agents/knowledge/manager.py:266-272 | one knowledge base contributes a pair iff it is enabled, the pair carries its id, and it has a due connector with that id |
| KnowledgeManager.DueAllMembership | backend/onyx/agents/knowledge/manager.py:261-274 | a pair is in the scan iff some enabled knowledge base with that id has a due connector with that id |
| KnowledgeManager.SelectForSync | backend/onyx/agents/knowledge/manager.py:239-245 | the selection is non-empty iff some enabled connector matches the given id (any, when none is given); when empty the sync would change no connector |
| KnowledgeManager.SyncConnectors | backend/onyx/agents/knowledge/manager.py:251-255 | the loop gives every connector its sync bookkeeping when selected and leaves the others, keeping length and order |
| KnowledgeManager.ScanKb | backend/onyx/agents/knowledge/manager.py:266-272 | the inner scan of one knowledge base yields nothing when disabled, else its due active connectors in order |
| KnowledgeManager.SelectionEmpty | backend/onyx/agents/knowledge/manager.py:239-247 | the filtered selection is empty iff no connector is selected, and then syncing leaves the list unchanged |
| KnowledgeManager.InitialViewValid | backend/onyx/agents/knowledge/manager.py:45-57 | the knowledge base `create_knowledge_base` builds satisfies the versioning invariant |
| KnowledgeManager.NewKnowledgeBase | backend/onyx/agents/knowledge/manager.py:45-57 | a fresh knowledge base with the given fields and exactly one version, `v1.0.1` with metadata `initial: true`, which is current |
| KnowledgeManager.ListFilters | backend/onyx/agents/knowledge/manager.py:72-80 | the two successive filters keep exactly the knowledge bases passing both conditions, as a subsequence |
| KnowledgeManager.LatestInPeriod | backend/onyx/agents/knowledge/manager.py:299-307 | a result exists iff some snapshot lies in the given bounds, and it is the last such snapshot |
| KnowledgeManager.KnowledgeBaseManager.constructor | backend/onyx/agents/knowledge/manager.py:30-33 | both tables start empty |
| KnowledgeManager.KnowledgeBaseManager.CreateKnowledgeBase | backend/onyx/agents/knowledge/manager.py:37-60 | a fresh knowledge base is stored under a new id, added last in table order, with one version `v1.0.1` current and the versioning promise kept; the metrics table is unchanged |
| KnowledgeManager.KnowledgeBaseManager.GetKnowledgeBase | backend/onyx/agents/knowledge/manager.py:62-64 | the stored knowledge base iff the id is present, else `None` |
| KnowledgeManager.KnowledgeBaseManager.ListKnowledgeBases | backend/onyx/agents/knowledge/manager.py:66-80 | a subsequence of the stored knowledge bases in table order, holding exactly those listing the agent key (when given and non-empty) and enabled (when asked) |
| KnowledgeManager.KnowledgeBaseManager.UpdateKnowledgeBase | backend/onyx/agents/knowledge/manager.py:82-102 | `None` iff the id is absent; otherwise only the given fields and `updated_at` of that knowledge base change; all others are unchanged |
| KnowledgeManager.KnowledgeBaseManager.DeleteKnowledgeBase | backend/onyx/agents/knowledge/manager.py:104-111 | true iff the id was present; afterwards it is in neither table, and the other entries and their order are unchanged |
| KnowledgeManager.KnowledgeBaseManager.EnableKnowledgeBase | backend/onyx/agents/knowledge/manager.py:115-121 | true iff the id is present; then that knowledge base is enabled and ACTIVE; no other changes |
| KnowledgeManager.KnowledgeBaseManager.DisableKnowledgeBase | backend/onyx/agents/knowledge/manager.py:123-129 | true iff the id is present; then that knowledge base is disabled and INACTIVE; no other changes |
| KnowledgeManager.KnowledgeBaseManager.CreateVersion | backend/onyx/agents/knowledge/manager.py:133-145 | `None` for an absent id; otherwise the knowledge base's own version creation, its error passed through; on a knowledge base keeping the versioning promise it succeeds and keeps the promise |
| KnowledgeManager.KnowledgeBaseManager.RollbackVersion | backend/onyx/agents/knowledge/manager.py:147-153 | true iff the id is present and its history holds the tag; then that tag is current; the versioning invariant is kept |
| KnowledgeManager.KnowledgeBaseManager.GetVersions | backend/onyx/agents/knowledge/manager.py:155-158 | the stored history, or `[]` for an absent id |
| KnowledgeManager.KnowledgeBaseManager.AddConnector | backend/onyx/agents/knowledge/manager.py:162-186 | `None` iff the id is absent; otherwise a new enabled connector is appended under the next value of the connector-id counter, which advances by one; when every stored connector id is below the counter, the new id differs from every connector id the knowledge base held and the property is kept; it is due at `now + interval` iff auto-syncing |
| KnowledgeManager.KnowledgeBaseManager.RemoveConnector | backend/onyx/agents/knowledge/manager.py:188-194 | false for an absent id; otherwise true iff a connector had the id, which is then gone, with the rest kept in order |
| KnowledgeManager.KnowledgeBaseManager.EnableConnector | backend/onyx/agents/knowledge/manager.py:196-207 | true iff the knowledge base has a connector with the id; then only the first such connector becomes enabled and `updated_at` is stamped; else nothing changes |
| KnowledgeManager.KnowledgeBaseManager.DisableConnector | backend/onyx/agents/knowledge/manager.py:209-220 | true iff the knowledge base has a connector with the id; then only the first such connector becomes disabled and `updated_at` is stamped; else nothing changes |
| KnowledgeManager.KnowledgeBaseManager.SetConnectorEnabled | backend/onyx/agents/knowledge/manager.py:196-220 | the shared loop of both switches: the first connector with the id receives the flag |
| KnowledgeManager.KnowledgeBaseManager.TriggerSync | backend/onyx/agents/knowledge/manager.py:222-259 | false for an absent id and iff no enabled connector matches the selection; the status always ends ACTIVE; selected connectors get their sync bookkeeping and the others are unchanged |
| KnowledgeManager.KnowledgeBaseManager.GetConnectorsDueForSync | backend/onyx/agents/knowledge/manager.py:261-274 | the scan over the knowledge bases in table order, whose membership `DueAllMembership` characterises |
| KnowledgeManager.KnowledgeBaseManager.RecordQuery | backend/onyx/agents/knowledge/manager.py:278-287 | one more query on a stored knowledge base, nothing for an absent id; no other knowledge base changes |
| KnowledgeManager.KnowledgeBaseManager.GetMetrics | backend/onyx/agents/knowledge/manager.py:289-307 | a snapshot iff the id has one inside the given bounds, and then the last such snapshot |
| KnowledgeManager.KnowledgeBaseManager.GetKnowledgeBasesForAgent | backend/onyx/agents/knowledge/manager.py:309-314 | exactly the enabled knowledge bases listing the agent key, in table order; for a non-empty key this equals listing with that key and `enabled_only` |
| AgentBase.EnumValuesRoundTrip | backend/onyx/agents/base.py:14-40 | each enum member is recovered from its string value, so the values are distinct |
| AgentBase.PostInit | backend/onyx/agents/base.py:105-118 | list fields given as `None` become empty, missing triggers become one enabled MANUAL trigger, missing stamps become now, and every supplied field is kept |
| AgentBase.PostInitKeepsSupplied | backend/onyx/agents/base.py:105-118 | filling defaults into a definition whose fields are all supplied gives that definition back |
| AgentBase.DefaultDefinition | backend/onyx/agents/base.py:47-118 | a definition built from key, name, description and runner alone is conversational, has no capabilities, ids or tags, version `1.0.0`, timeout 300, and one enabled MANUAL trigger |
| AgentBase.CapabilityValuesRoundTrip | backend/onyx/agents/base.py:130 | the capability list is recovered from its value list, element by element and in order |
| AgentBase.TriggerSummaries | backend/onyx/agents/base.py:136-143 | one summary per trigger, in order, with its type value, enabled flag and cron expression |
| AgentBase.ToMetadata | backend/onyx/agents/base.py:120-151 | every field is carried over; the knowledge-base count is the number of ids; capabilities and triggers are mapped element-wise with length and order kept |
| AgentBase.ToModelSelectorFormat | backend/onyx/agents/base.py:153-173 | id `agent:` + key, provider `AgentHub`, type `agent`; color and icon fall back to `#6366f1` and the robot face when missing or empty; the metadata carries type, knowledge-base flag and tags unchanged |
| AgentBase.SelectorIdIdentifiesKey | backend/onyx/agents/base.py:159 | the id starts with `agent:` followed by the key, so two entries have the same id iff their definitions have the same key |
| AgentBase.WrittenSelectorIcon | backend/onyx/agents/base.py:165 | the icon fallback as the source spells it |
| AgentBase.WrittenIconIsMojibake | backend/onyx/agents/base.py:165 | the spelled fallback is the four characters that the robot face's UTF-8 bytes give when read as Windows-1252, and not the emoji |
| AgentBase.SelectorIconFallback | backend/onyx/agents/base.py:165 | the model's fallback is the single robot-face character whose misreading the source shows |
| AgentRegistry.KbProblemSpec | backend/onyx/agents/registry.py:41-47 | no problem iff every bound id is stored and enabled; otherwise the error names the first failing id, and says whether it is unknown or disabled |
| AgentRegistry.CheckKnowledgeBases | backend/onyx/agents/registry.py:41-47 | the registration check's loop computes that first problem against the manager's table |
| AgentRegistry.LookUp | backend/onyx/agents/registry.py:146-149 | one lookup per bound id, in order: the stored knowledge base, or `None` for an unknown id |
| AgentRegistry.RunnerContext | backend/onyx/agents/registry.py:142-149 | the lookups are added under `knowledge_bases` iff the agent uses knowledge bases and binds some; otherwise the context is unchanged |
| AgentRegistry.PrepareContext | backend/onyx/agents/registry.py:142-149 | the context passed to the runner is the caller's object when given and non-empty (and the write is visible to the caller), otherwise a fresh one |
| AgentRegistry.Finish | backend/onyx/agents/registry.py:153-178 | a runner error is raised again unchanged; a non-dict `metadata` raises; otherwise the result keeps every other key, and its metadata keeps the runner's entries and adds agent key, name, version and elapsed time |
| AgentRegistry.RecordQueries | backend/onyx/agents/registry.py:164-167 | after recording each id in turn, every stored knowledge base has one more query per occurrence of its id; absent ids change nothing |
| AgentRegistry.RecordBound | backend/onyx/agents/registry.py:163-176 | the bound ids are recorded iff the agent uses knowledge bases and binds some |
| AgentRegistry.FindTrigger | backend/onyx/agents/registry.py:107-110 | the inner loop with `break` finds whether some trigger of the type is enabled |
| AgentRegistry.SelectWithTrigger | backend/onyx/agents/registry.py:105-111 | the outer loop keeps each agent once, in order, iff it has an enabled trigger of the type |
| AgentRegistry.ListAllFilters | backend/onyx/agents/registry.py:79-90 | the three optional filters applied in turn keep exactly the agents matching all filters given |
| AgentRegistry.RegisterThenUnregister | backend/onyx/agents/registry.py:49-56 | registering a new key and unregistering it restores the table and its order |
| AgentRegistry.AgentRegistry.constructor | backend/onyx/agents/registry.py:28-30 | an empty registry bound to the given manager |
| AgentRegistry.AgentRegistry.Register | backend/onyx/agents/registry.py:32-49 | a duplicate key is refused first, then the first unknown or disabled bound knowledge base; a refusal changes nothing; otherwise exactly `key -> agent` is added last |
| AgentRegistry.AgentRegistry.Unregister | backend/onyx/agents/registry.py:51-56 | true iff the key was present; afterwards it is absent and the other entries keep their values and order |
| AgentRegistry.AgentRegistry.Get | backend/onyx/agents/registry.py:58-60 | the stored definition iff the key is present |
| AgentRegistry.AgentRegistry.GetRunner | backend/onyx/agents/registry.py:62-70 | the stored runner, or the unknown-agent error iff the key is absent |
| AgentRegistry.AgentRegistry.ListAll | backend/onyx/agents/registry.py:72-90 | the agents matching every given filter, in registration order |
| AgentRegistry.AgentRegistry.ListForModelSelector | backend/onyx/agents/registry.py:92-97 | one selector entry per agent, in registration order |
| AgentRegistry.AgentRegistry.SelectorIdsDistinct | backend/onyx/agents/registry.py:92-97 | the selector entries have pairwise distinct ids |
| AgentRegistry.AgentRegistry.ListMetadata | backend/onyx/agents/registry.py:99-101 | one metadata record per agent, in registration order |
| AgentRegistry.AgentRegistry.GetAgentsWithTrigger | backend/onyx/agents/registry.py:103-111 | each agent at most once, in order, iff some trigger of the type is enabled on it |
| AgentRegistry.AgentRegistry.GetAgentsForKnowledgeBase | backend/onyx/agents/registry.py:113-118 | exactly the agents that use knowledge bases and bind the id, in registration order |
| AgentRegistry.AgentRegistry.ExecuteAgent | backend/onyx/agents/registry.py:120-178 | an unknown key fails before any runner call or recording; otherwise the runner sees the prepared context, the outcome is `Finish` of its result, and each bound knowledge base gains one query per occurrence of its id, whether the run succeeded or not |
| TravelAgent.TravelState.constructor | backend/onyx/agents/travel/travel_agent.py:556 | the initial state holds only the query |
| TravelAgent.SearchClient.Search | backend/onyx/agents/travel/travel_agent.py:194-199 | each call is recorded, in order, and answers with the service's reply to that request |
| TravelAgent.AnalyzeNode | backend/onyx/agents/travel/travel_agent.py:134-160 | clarification is needed iff the reply decodes, suggests it, and does not report a destination; a decoded reply keeps at most its first two questions; without JSON the raw query is the destination, with bad JSON it is `general`; the other fields are unchanged |
| TravelAgent.AnalyzeUserQuery | backend/onyx/agents/travel/travel_agent.py:99-162 | the node's state writes after the model's reply to the query are `AnalyzeNode` |
| TravelAgent.SearchRequests | backend/onyx/agents/travel/travel_agent.py:184-199 | exactly two of the four phrases are sent, in order, each an advanced search with answer included and at most four results |
| TravelAgent.Collected | backend/onyx/agents/travel/travel_agent.py:191-202 | the concatenated results are empty iff no call contributed any |
| TravelAgent.CollectedSnoc | backend/onyx/agents/travel/travel_agent.py:200 | each further call appends its results at the end |
| TravelAgent.CollectedSkipsFailure | backend/onyx/agents/travel/travel_agent.py:201-202 | a call that raises contributes nothing wherever it stands, so it is skipped, not propagated |
| TravelAgent.DeepWebSearch | backend/onyx/agents/travel/travel_agent.py:165-205 | the capped loop sends exactly `SearchRequests` for the destination and stores the collected results; nothing else changes |
| TravelAgent.PlanNode | backend/onyx/agents/travel/travel_agent.py:369-372 | a single plan of kind `comprehensive_plans` whose content is the model's text for the preferences and results; only the plans change |
| TravelAgent.CreateTravelPlans | backend/onyx/agents/travel/travel_agent.py:230-374 | the node's state write is `PlanNode` |
| TravelAgent.NumberedLines | backend/onyx/agents/travel/travel_agent.py:388-389 | one or two questions are written as `1. q1` and `2. q2`, one per line |
| TravelAgent.NumberQuestions | backend/onyx/agents/travel/travel_agent.py:388-389 | the numbering loop builds the numbered lines starting at 1 |
| TravelAgent.IntroGeneric | backend/onyx/agents/travel/travel_agent.py:409-419 | without a destination other than `general`, the introduction is the generic one, whatever the other preferences say |
| TravelAgent.IntroNamesDestination | backend/onyx/agents/travel/travel_agent.py:409-410 | with a usable destination, the heading naming it follows the banner |
| TravelAgent.IntroSkipsFlexibleDuration | backend/onyx/agents/travel/travel_agent.py:411-412 | a duration that is missing, empty or `flexible` is not shown |
| TravelAgent.SynthesizeSpec | backend/onyx/agents/travel/travel_agent.py:377-492 | an answer already given is kept; else a needed clarification with questions gives the numbered questions; else the first plan follows the introduction; else the model's answer follows the guide title; only the answer changes, and it is always set |
| TravelAgent.ClarifyingIgnoresPlans | backend/onyx/agents/travel/travel_agent.py:383-392 | when clarifying with questions, plans and search results do not affect the answer |
| TravelAgent.SynthesizeAnswer | backend/onyx/agents/travel/travel_agent.py:377-492 | the node's state writes are `SynthesizeNode` |
| TravelAgent.Routing | backend/onyx/agents/travel/travel_agent.py:495-527 | after analyze the graph goes to synthesize iff clarification is needed, else to web search; every edge moves forward; only synthesize leads to the end |
| TravelAgent.RunNode | backend/onyx/agents/travel/travel_agent.py:507-510 | running a node changes the state as its step function says and sends only that node's search requests |
| TravelAgent.Invoke | backend/onyx/agents/travel/travel_agent.py:502-529 | running the compiled graph from analyze ends in the state, node sequence and search requests of the graph's run |
| TravelAgent.ClarifyRoute | backend/onyx/agents/travel/travel_agent.py:495-527 | when the analysis asks for clarification the run visits analyze and synthesize only, sends no search and makes no plan; the answer is the numbered questions, or the model's answer without results when there are none |
| TravelAgent.SearchRoute | backend/onyx/agents/travel/travel_agent.py:495-527 | otherwise the run visits all four nodes in order, sends exactly the two capped searches, keeps their results, makes one plan, and answers with the introduction followed by that plan |
| TravelAgent.Sources | backend/onyx/agents/travel/travel_agent.py:560-563 | one source per search result, same length and order, with its title and url |
| TravelAgent.SourcesAppend | backend/onyx/agents/travel/travel_agent.py:560-563 | the sources of concatenated results are the concatenated sources |
| TravelAgent.RunTravelAgent | backend/onyx/agents/travel/travel_agent.py:548-564 | a query that is empty once stripped is refused before any search; otherwise the graph runs on the stripped query and the result is the final answer (empty when missing) with the sources of the final results |

## Left out

- Identifiers: `uuid4()` ids are counters in the manager (`nextKbId`, `nextConnectorId`). A knowledge base's id is fixed at construction.
- Clocks: `datetime.utcnow()` is an integer `now` parameter, one per operation, though the source reads the clock several times. `isoformat()` dates are left as integers. The unit of `now` is the minute, so that `now + sync_interval_minutes` stands for adding `timedelta(minutes=...)`.
- Latency: elapsed times, `latency_ms` and `execution_time_ms` are a `nat` parameter, not float milliseconds. `avg_query_latency_ms` is not modelled.
- KnowledgeModels.KnowledgeBase.CreateVersion: the SHA-256 checksum over the counts and a timestamp is an opaque `checksum` parameter.
- KnowledgeModels.ParseTag: `packaging.version.parse` is modelled only for three numeric parts. Other forms it accepts (`v1.0`, pre-releases) give `InvalidVersion` in the model. Every tag the model can reach has three parts. The source's exception type is not modelled.
- Connectors are values in a sequence, not shared objects. Aliasing of a connector object outside its knowledge base is not observed.
- KnowledgeManager.KnowledgeBaseManager.RecordQuery: `success` and `latency_ms` are accepted and unused, as in the source. The time-series metrics it leaves as a TODO are not modelled. No operation writes the metrics table, so `GetMetrics` is only proved about whatever that table holds.
- The float average latency field of the usage-metrics record is dropped.
- AgentRegistry.AgentRegistry.ExecuteAgent: the knowledge bases placed in the runner's context are value snapshots (`KBView`), not live objects, so a runner that mutates them is not modelled. Recording does not depend on the success flag. Each bound id is recorded once per occurrence, and the ids' order leaves no trace in the final state.
- AgentRegistry.AgentRegistry.ExecuteAgent: a runner result that is not a dict cannot be expressed. A runner is a function `(query, context) -> Result`, so a runner that changes the context itself is not modelled.
- The search client and the language model are parameters: `SearchClient.respond` and the three functions of `Llm`. Prompt texts, and the `sources_summary` loops feeding them, are not modelled. Only the prompt inputs (query, preferences, results) are.
- The regular-expression and JSON decoding of the analysis is the `Reply` datatype (no JSON, undecodable JSON, decoded analysis). Non-boolean JSON values for the flags, and a `null` question list, are not modelled. An `extracted_preferences` value that is `null` or not an object is treated as missing, so the model goes on with empty preferences; the source stores it as is, and `_deep_web_search` then fails on `.get` (travel_agent.py:142, :167), ending the run with an error.
- The fixed answer blocks are a `Texts` parameter of the synthesis and graph functions. `SourceTexts` holds the source's exact text and is what `RunTravelAgent` passes.
- The unused `search_query` computation at travel_agent.py:171-176 has no effect on the state and is left out. The `TavilyClient is None` check at travel_agent.py:178-179 is omitted too.
- `_ensure_env_loaded`, `_validate_required_env` and `_gemini_model` (environment and file I/O) are not part of this model. A `RuntimeError` they raise is not modelled.
- `conversation_history` is never written by the pipeline and is not a field of the model's state.
- langgraph's `StateGraph` compilation is replaced by `Successor` and the `Invoke` loop. The `lru_cache` on the compiled graph and on the model is left out.
- The module-level singletons (`get_knowledge_base_manager`, `get_agent_registry`, `register_agent`, `get_agent_runner`, `list_agents`) are left out. The import-time `register_agent` of the travel agent is left out too. Explicit instances are modelled instead.
- The travel runner's result has `answer` and `sources` only. It is not connected to the registry's `AgentResult` type, because its source list has no counterpart among the scalar result values.

## Findings

| source | as written | input that shows it | evidently intended | confidence | as-written member | corrected member |
|---|---|---|---|---|---|---|
| backend/onyx/agents/base.py:165 | the icon fallback is the four characters `ðŸ¤–`, the UTF-8 bytes F0 9F A4 96 read as Windows-1252 | a definition with `icon=None` | the robot-face emoji U+1F916 as a single character | not executed | AgentBase.WrittenIconIsMojibake | AgentBase.SelectorIconFallback |
