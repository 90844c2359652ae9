/** The agent registry: a keyed table of agent definitions in registration
    order, bound to a knowledge-base manager, with registration checks,
    filtered listings and agent execution. */
module AgentRegistry {
  import opened Wrappers
  import opened Seqs
  import opened AgentBase
  import KnowledgeModels
  import KnowledgeManager

  type KBView = KnowledgeModels.KBView
  type Manager = KnowledgeManager.KnowledgeBaseManager

  /** The errors the registry raises (all `ValueError`, except the runner's
      own exception and the `TypeError` of a non-dict `metadata`). */
  datatype RegistryError =
    | DuplicateKey(key: string)
    | KnowledgeBaseNotFound(id: nat)
    | KnowledgeBaseDisabled(id: nat)
    | UnknownAgent(key: string)
    | RunnerFailed(error: RunError)
    | MetadataNotDict

  // ==================== Registration checks ====================

  /** The first bound knowledge base that is unknown or disabled, in list
      order. */
  function KbProblem(ids: seq<nat>, t: map<nat, KBView>): Option<RegistryError>
    decreases |ids|
  {
    if ids == [] then None
    else if ids[0] !in t then Some(KnowledgeBaseNotFound(ids[0]))
    else if !t[ids[0]].enabled then Some(KnowledgeBaseDisabled(ids[0]))
    else KbProblem(ids[1..], t)
  }

  predicate KbUsable(t: map<nat, KBView>, id: nat) {
    id in t && t[id].enabled
  }

  /** No problem iff every id is known and enabled; a problem names the
      first id that is not. */
  lemma {:induction false} KbProblemSpec(ids: seq<nat>, t: map<nat, KBView>)
    ensures KbProblem(ids, t).None? <==> forall i :: 0 <= i < |ids| ==> KbUsable(t, ids[i])
    ensures KbProblem(ids, t).Some? ==>
              exists i :: 0 <= i < |ids| && !KbUsable(t, ids[i])
                          && (forall j :: 0 <= j < i ==> KbUsable(t, ids[j]))
                          && KbProblem(ids, t).value == (if ids[i] !in t then KnowledgeBaseNotFound(ids[i])
                                                         else KnowledgeBaseDisabled(ids[i]))
    decreases |ids|
  {
    if ids != [] && KbUsable(t, ids[0]) {
      KbProblemSpec(ids[1..], t);
      assert forall i :: 1 <= i < |ids| ==> ids[i] == ids[1..][i - 1];
      if KbProblem(ids[1..], t).Some? {
        var i :| 0 <= i < |ids[1..]| && !KbUsable(t, ids[1..][i])
                 && (forall j :: 0 <= j < i ==> KbUsable(t, ids[1..][j]))
                 && KbProblem(ids[1..], t).value == (if ids[1..][i] !in t then KnowledgeBaseNotFound(ids[1..][i])
                                                     else KnowledgeBaseDisabled(ids[1..][i]));
        assert forall j :: 0 <= j < i + 1 ==> KbUsable(t, ids[j]) by {
          forall j | 0 <= j < i + 1 ensures KbUsable(t, ids[j]) {
            if j > 0 { assert ids[j] == ids[1..][j - 1]; }
          }
        }
        assert ids[i + 1] == ids[1..][i];
      } else {
        forall i | 0 <= i < |ids| ensures KbUsable(t, ids[i]) {
          if i > 0 { assert ids[i] == ids[1..][i - 1]; }
        }
      }
    }
  }

  // ==================== Selection predicates ====================

  /** The conjunction of `list_all`'s filters; an absent filter, and an
      empty tag, keep everything. */
  predicate MatchesAll(a: AgentDefinition, agentType: Option<AgentType>,
                       capability: Option<AgentCapability>, tag: Option<string>) {
    && (agentType.None? || a.agentType == agentType.value)
    && (capability.None? || capability.value in a.capabilities)
    && (tag.None? || tag.value == "" || tag.value in a.tags)
  }

  /** Some trigger of the agent has the type and is enabled. */
  predicate HasEnabledTrigger(a: AgentDefinition, t: TriggerType) {
    exists j :: 0 <= j < |a.triggers| && a.triggers[j].triggerType == t && a.triggers[j].enabled
  }

  /** The agent declares that it uses the knowledge base. */
  predicate UsesKnowledgeBase(a: AgentDefinition, kbId: nat) {
    a.useKnowledgeBase && kbId in a.knowledgeBaseIds
  }

  /** Knowledge bases are consulted only when enabled and listed. */
  predicate BindsKnowledgeBases(a: AgentDefinition) {
    a.useKnowledgeBase && a.knowledgeBaseIds != []
  }

  // ==================== Execution ====================

  /** The caller's context dict, which `execute_agent` may write into. */
  class ExecContext {
    var entries: Context

    constructor (entries: Context)
      ensures this.entries == entries
    {
      this.entries := entries;
    }
  }

  function ContextFrame(c: Option<ExecContext>): set<ExecContext> {
    if c.Some? then {c.value} else {}
  }

  /** `get_knowledge_base` for each bound id, in order. */
  function LookUp(ids: seq<nat>, t: map<nat, KBView>): (r: seq<Option<KBView>>)
    ensures |r| == |ids|
    ensures forall i :: 0 <= i < |ids| ==> (r[i].Some? <==> ids[i] in t)
    ensures forall i :: 0 <= i < |ids| && ids[i] in t ==> r[i] == Some(t[ids[i]])
  {
    seq(|ids|, i requires 0 <= i < |ids| => if ids[i] in t then Some(t[ids[i]]) else None)
  }

  /** The context the runner receives: the given entries, plus the
      knowledge-base lookups when the agent binds any. */
  function RunnerContext(a: AgentDefinition, base: Context, t: map<nat, KBView>): (c: Context)
    ensures BindsKnowledgeBases(a) ==> c == base["knowledge_bases" := KnowledgeBases(LookUp(a.knowledgeBaseIds, t))]
    ensures !BindsKnowledgeBases(a) ==> c == base
  {
    if BindsKnowledgeBases(a) then base["knowledge_bases" := KnowledgeBases(LookUp(a.knowledgeBaseIds, t))] else base
  }

  /** The metadata keys `execute_agent` writes. */
  predicate IsExecutionKey(k: string) {
    k == "agent_key" || k == "agent_name" || k == "version" || k == "execution_time_ms"
  }

  /** The post-processing of the runner's outcome: the runner's exception
      is raised again unchanged; otherwise its `metadata` dict (empty when
      missing) receives the execution entries, and a `metadata` that is not
      a dict raises. */
  function Finish(key: string, a: AgentDefinition, out: Result<AgentResult, RunError>, elapsed: nat)
    : (r: Result<AgentResult, RegistryError>)
    ensures out.Err? ==> r == Err(RunnerFailed(out.error))
    ensures out.Ok? ==> (r.Err? <==> "metadata" in out.value && out.value["metadata"].Scalar?)
    ensures r.Err? && out.Ok? ==> r.error == MetadataNotDict
    ensures r.Ok? ==> out.Ok? && r.value.Keys == out.value.Keys + {"metadata"}
    ensures r.Ok? ==> forall k :: k in out.value && k != "metadata" ==> r.value[k] == out.value[k]
    ensures r.Ok? ==> r.value["metadata"].Dict?
    ensures r.Ok? ==> var m := r.value["metadata"].entries;
                      && IsExecutionKeys(m.Keys)
                      && m["agent_key"] == Str(key) && m["agent_name"] == Str(a.name)
                      && m["version"] == Str(a.version) && m["execution_time_ms"] == Num(elapsed)
    ensures r.Ok? ==> var m := r.value["metadata"].entries;
                      && m.Keys == {"agent_key", "agent_name", "version", "execution_time_ms"} + OldMetadata(out.value).Keys
                      && forall k :: k in OldMetadata(out.value) && !IsExecutionKey(k) ==> m[k] == OldMetadata(out.value)[k]
  {
    match out
    case Err(e) => Err(RunnerFailed(e))
    case Ok(res) =>
      var meta := if "metadata" in res then res["metadata"] else Dict(map[]);
      if meta.Scalar? then Err(MetadataNotDict)
      else
        var m := meta.entries["agent_key" := Str(key)]["agent_name" := Str(a.name)]
                             ["version" := Str(a.version)]["execution_time_ms" := Num(elapsed)];
        Ok(res["metadata" := Dict(m)])
  }

  predicate IsExecutionKeys(ks: set<string>) {
    "agent_key" in ks && "agent_name" in ks && "version" in ks && "execution_time_ms" in ks
  }

  /** The runner's own metadata entries (none when it gave none). */
  function OldMetadata(res: AgentResult): map<string, Value> {
    if "metadata" in res && res["metadata"].Dict? then res["metadata"].entries else map[]
  }

  /** A knowledge base after `n` more queries at time `now`. */
  function Queried(v: KBView, n: nat, now: int): (r: KBView)
    ensures r.queryCount == v.queryCount + n
    ensures r == v.(queryCount := v.queryCount + n, lastQueriedAt := r.lastQueriedAt)
    ensures r.lastQueriedAt == if n == 0 then v.lastQueriedAt else Some(now)
  {
    if n == 0 then v else v.(queryCount := v.queryCount + n, lastQueriedAt := Some(now))
  }

  lemma QueriedStep(v: KBView, n: nat, now: int)
    ensures var w := Queried(v, n, now);
            w.(queryCount := w.queryCount + 1, lastQueriedAt := Some(now)) == Queried(v, n + 1, now)
  {
  }

  /** `record_query` for each id in turn: every stored knowledge base gains
      one query per occurrence of its id; absent ids are skipped. */
  method RecordQueries(m: Manager, ids: seq<nat>, success: bool, latencyMs: nat, now: int)
    requires m.Valid()
    modifies m.kbs.Values
    ensures m.Valid()
    ensures forall k :: k in m.kbs ==> m.kbs[k].View() == Queried(old(m.kbs[k].View()), multiset(ids)[k], now)
  {
    ghost var v0 := m.Table();
    for i := 0 to |ids|
      invariant m.Valid()
      invariant forall k :: k in m.kbs ==> k in v0 && m.kbs[k].View() == Queried(v0[k], multiset(ids[..i])[k], now)
    {
      RecordStep(m, v0, ids, i, success, latencyMs, now);
    }
    assert ids[..|ids|] == ids;
  }

  /** One iteration of `RecordQueries`: the query for `ids[i]`. */
  method RecordStep(m: Manager, ghost v0: map<nat, KBView>, ids: seq<nat>, i: nat,
                    success: bool, latencyMs: nat, now: int)
    requires m.Valid() && i < |ids|
    requires forall k :: k in m.kbs ==> k in v0 && m.kbs[k].View() == Queried(v0[k], multiset(ids[..i])[k], now)
    modifies m.kbs.Values
    ensures m.Valid()
    ensures forall k :: k in m.kbs ==> k in v0 && m.kbs[k].View() == Queried(v0[k], multiset(ids[..i + 1])[k], now)
  {
    var id := ids[i];
    assert ids[..i + 1] == ids[..i] + [id];
    m.RecordQuery(id, success, latencyMs, now);
    forall k | k in m.kbs
      ensures k in v0 && m.kbs[k].View() == Queried(v0[k], multiset(ids[..i + 1])[k], now)
    {
      if k == id {
        QueriedStep(v0[k], multiset(ids[..i])[k], now);
      }
    }
  }

  /** The recording step of `execute_agent`: each bound id once per
      occurrence, and nothing when the agent binds no knowledge base. */
  method RecordBound(m: Manager, a: AgentDefinition, success: bool, latencyMs: nat, now: int)
    requires m.Valid()
    modifies m.kbs.Values
    ensures m.Valid()
    ensures forall k :: k in m.kbs ==>
              m.kbs[k].View() == if BindsKnowledgeBases(a)
                                 then Queried(old(m.kbs[k].View()), multiset(a.knowledgeBaseIds)[k], now)
                                 else old(m.kbs[k].View())
  {
    if BindsKnowledgeBases(a) {
      RecordQueries(m, a.knowledgeBaseIds, success, latencyMs, now);
    }
  }

  /** The registration check: each bound id in turn must name a stored,
      enabled knowledge base. */
  method CheckKnowledgeBases(m: Manager, ids: seq<nat>) returns (problem: Option<RegistryError>)
    requires m.Valid()
    ensures problem == KbProblem(ids, m.Table())
  {
    ghost var t := m.Table();
    var i := 0;
    while i < |ids|
      invariant 0 <= i <= |ids|
      invariant KbProblem(ids[i..], t) == KbProblem(ids, t)
    {
      assert ids[i..][1..] == ids[i + 1..];
      var kb := m.GetKnowledgeBase(ids[i]);
      if kb.None? {
        return Some(KnowledgeBaseNotFound(ids[i]));
      }
      if !kb.value.enabled {
        return Some(KnowledgeBaseDisabled(ids[i]));
      }
      i := i + 1;
    }
    return None;
  }

  /** The outer loop of `get_agents_with_trigger`, over the agents in
      registration order. */
  method SelectWithTrigger(all: seq<AgentDefinition>, t: TriggerType) returns (agents: seq<AgentDefinition>)
    ensures agents == Filter(all, (a: AgentDefinition) => HasEnabledTrigger(a, t))
  {
    ghost var p := (a: AgentDefinition) => HasEnabledTrigger(a, t);
    agents := [];
    for i := 0 to |all|
      invariant agents == Filter(all[..i], p)
    {
      FilterPrefixStep(all, i, p);
      var hit := FindTrigger(all[i], t);
      if hit {
        agents := agents + [all[i]];
      }
    }
    assert all[..|all|] == all;
  }

  /** The inner scan of `get_agents_with_trigger`: stops at the first
      enabled trigger of the type. */
  method FindTrigger(a: AgentDefinition, t: TriggerType) returns (found: bool)
    ensures found == HasEnabledTrigger(a, t)
  {
    var j := 0;
    while j < |a.triggers|
      invariant 0 <= j <= |a.triggers|
      invariant forall k :: 0 <= k < j ==> !(a.triggers[k].triggerType == t && a.triggers[k].enabled)
    {
      if a.triggers[j].triggerType == t && a.triggers[j].enabled {
        return true;
      }
      j := j + 1;
    }
    return false;
  }

  /** The context set-up of `execute_agent`: `context or {}` is the
      caller's dict when it is non-empty, a new one otherwise, and the
      knowledge-base lookups are written into it when the agent binds any. */
  method PrepareContext(context: Option<ExecContext>, a: AgentDefinition, t: map<nat, KBView>)
    returns (exec: ExecContext)
    modifies ContextFrame(context)
    ensures var base := if context.Some? then old(context.value.entries) else map[];
            && exec.entries == RunnerContext(a, base, t)
            && (context.Some? ==> context.value.entries == if base == map[] then base else RunnerContext(a, base, t))
    ensures fresh(exec) || (context.Some? && exec == context.value)
  {
    if context.Some? && context.value.entries != map[] {
      exec := context.value;
    } else {
      exec := new ExecContext(map[]);
    }
    if BindsKnowledgeBases(a) {
      var views := LookUp(a.knowledgeBaseIds, t);
      exec.entries := exec.entries["knowledge_bases" := KnowledgeBases(views)];
    }
  }

  ghost predicate Keyed(registry: map<string, AgentDefinition>, order: seq<string>) {
    && (forall k :: k in registry ==> registry[k].key == k)
    && NoDuplicates(order)
    && registry.Keys == Elements(order)
    && (forall i :: 0 <= i < |order| ==> order[i] in registry)
  }

  lemma KeyedInsert(registry: map<string, AgentDefinition>, order: seq<string>, agent: AgentDefinition)
    requires Keyed(registry, order) && agent.key !in registry
    ensures Keyed(registry[agent.key := agent], order + [agent.key])
  {
    ElementsOf(order);
    AddId(order, agent.key);
    ElementsOf(order + [agent.key]);
  }

  lemma KeyedRemove(registry: map<string, AgentDefinition>, order: seq<string>, key: string)
    requires Keyed(registry, order)
    ensures Keyed(registry - {key}, Without(order, key))
  {
    RemoveId(order, key);
    ElementsOf(Without(order, key));
  }

  // ==================== The registry ====================

  class AgentRegistry {
    /** `_registry`; `order` is the dict's insertion order. */
    var registry: map<string, AgentDefinition>
    var order: seq<string>
    /** `_kb_manager`. */
    const kbManager: Manager

    /** Every definition is stored under its own key; `order` lists each key
        once. */
    ghost predicate Valid()
      reads this, kbManager
    {
      Keyed(registry, order) && kbManager.Valid()
    }

    constructor (kbManager: Manager)
      requires kbManager.Valid()
      ensures Valid() && registry == map[] && order == [] && this.kbManager == kbManager
    {
      registry := map[];
      order := [];
      this.kbManager := kbManager;
    }

    /** `self._registry.values()`, in registration order. */
    function Agents(): (r: seq<AgentDefinition>)
      reads this, kbManager
      requires Valid()
      ensures |r| == |order|
      ensures forall i :: 0 <= i < |order| ==> r[i] == registry[order[i]]
    {
      seq(|order|, i requires 0 <= i < |order| && Valid() reads this, kbManager => registry[order[i]])
    }

    /** `register`: a duplicate key, then an unknown or disabled bound
        knowledge base (the first in list order), is refused and leaves the
        registry as it was; otherwise exactly `key -> agent` is added. */
    method Register(agent: AgentDefinition) returns (err: Option<RegistryError>)
      requires Valid()
      modifies this
      ensures Valid()
      ensures err == if agent.key in old(registry) then Some(DuplicateKey(agent.key))
                     else if BindsKnowledgeBases(agent) then KbProblem(agent.knowledgeBaseIds, old(kbManager.Table()))
                     else None
      ensures err.Some? ==> registry == old(registry) && order == old(order)
      ensures err.None? ==> registry == old(registry)[agent.key := agent] && order == old(order) + [agent.key]
    {
      if agent.key in registry {
        return Some(DuplicateKey(agent.key));
      }
      if BindsKnowledgeBases(agent) {
        err := CheckKnowledgeBases(kbManager, agent.knowledgeBaseIds);
        if err.Some? {
          return;
        }
      }
      KeyedInsert(registry, order, agent);
      registry := registry[agent.key := agent];
      order := order + [agent.key];
      err := None;
    }

    /** `unregister`: true iff the key was present; afterwards it is absent
        and the other entries keep their values and order. */
    method Unregister(key: string) returns (removed: bool)
      requires Valid()
      modifies this
      ensures Valid()
      ensures removed == (key in old(registry))
      ensures registry == old(registry) - {key}
      ensures order == Without(old(order), key)
    {
      removed := key in registry;
      registry := registry - {key};
      order := Without(order, key);
      KeyedRemove(old(registry), old(order), key);
    }

    /** `get`. */
    function Get(key: string): (r: Option<AgentDefinition>)
      reads this
      ensures r.Some? <==> key in registry
      ensures r.Some? ==> r.value == registry[key]
    {
      if key in registry then Some(registry[key]) else None
    }

    /** `get_runner`: the stored runner, or "Unknown agent". */
    function GetRunner(key: string): (r: Result<Runner, RegistryError>)
      reads this
      ensures r.Err? <==> key !in registry
      ensures r.Err? ==> r.error == UnknownAgent(key)
      ensures r.Ok? ==> r.value == registry[key].runner
    {
      if key in registry then Ok(registry[key].runner) else Err(UnknownAgent(key))
    }

    /** `list_all`: the filters applied one after another, which is the
        agents passing all of them, in registration order. */
    function ListAll(agentType: Option<AgentType>, capability: Option<AgentCapability>, tag: Option<string>)
      : (r: seq<AgentDefinition>)
      reads this, kbManager
      requires Valid()
      ensures r == Filter(Agents(), (a: AgentDefinition) => MatchesAll(a, agentType, capability, tag))
    {
      var all := Agents();
      var byType := if agentType.Some? then Filter(all, (a: AgentDefinition) => a.agentType == agentType.value) else all;
      var byCapability := if capability.Some? then Filter(byType, (a: AgentDefinition) => capability.value in a.capabilities) else byType;
      var byTag := if tag.Some? && tag.value != "" then Filter(byCapability, (a: AgentDefinition) => tag.value in a.tags) else byCapability;
      ListAllFilters(all, agentType, capability, tag);
      byTag
    }

    /** `list_for_model_selector`. */
    function ListForModelSelector(): (r: seq<SelectorEntry>)
      reads this, kbManager
      requires Valid()
      ensures |r| == |order|
      ensures forall i :: 0 <= i < |r| ==> r[i] == ToModelSelectorFormat(registry[order[i]])
    {
      var agents := Agents();
      seq(|agents|, i requires 0 <= i < |agents| => ToModelSelectorFormat(agents[i]))
    }

    /** The selector entries have pairwise distinct ids. */
    lemma SelectorIdsDistinct(i: nat, j: nat)
      requires Valid() && i < j < |order|
      ensures ListForModelSelector()[i].id != ListForModelSelector()[j].id
    {
      NoDuplicatesDistinct(order, i, j);
      SelectorIdIdentifiesKey(registry[order[i]], registry[order[j]]);
    }

    /** `list_metadata`. */
    function ListMetadata(): (r: seq<AgentMetadata>)
      reads this, kbManager
      requires Valid()
      ensures |r| == |order|
      ensures forall i :: 0 <= i < |r| ==> r[i] == ToMetadata(registry[order[i]])
    {
      var agents := Agents();
      seq(|agents|, i requires 0 <= i < |agents| => ToMetadata(agents[i]))
    }

    /** `get_agents_with_trigger`: each agent once, when some trigger of the
        type is enabled, in registration order. */
    method GetAgentsWithTrigger(t: TriggerType) returns (agents: seq<AgentDefinition>)
      requires Valid()
      ensures agents == Filter(Agents(), (a: AgentDefinition) => HasEnabledTrigger(a, t))
    {
      agents := SelectWithTrigger(Agents(), t);
    }

    /** `get_agents_for_knowledge_base`: the agents using the knowledge base,
        in registration order. */
    function GetAgentsForKnowledgeBase(kbId: nat): (r: seq<AgentDefinition>)
      reads this, kbManager
      requires Valid()
      ensures forall i :: 0 <= i < |r| ==> UsesKnowledgeBase(r[i], kbId)
      ensures forall i :: 0 <= i < |order| && UsesKnowledgeBase(registry[order[i]], kbId) ==> registry[order[i]] in r
      ensures IsSubsequence(r, Agents())
    {
      Filter(Agents(), (a: AgentDefinition) => UsesKnowledgeBase(a, kbId))
    }

    /** `execute_agent`. An unknown key raises before anything runs. Otherwise
        the runner sees the caller's context (a fresh one when none or an
        empty one is given) with the knowledge-base lookups added when the
        agent binds any, and that write is visible to a caller that passed
        a non-empty context. Every bound id is then recorded once, whether
        the run succeeds or fails; the outcome is `Finish`. */
    method ExecuteAgent(key: string, query: string, context: Option<ExecContext>, elapsed: nat, now: int)
      returns (r: Result<AgentResult, RegistryError>)
      requires Valid()
      modifies kbManager.kbs.Values, ContextFrame(context)
      ensures Valid()
      ensures key !in registry ==> r == Err(UnknownAgent(key))
      ensures key !in registry ==> (forall k :: k in kbManager.kbs ==> unchanged(kbManager.kbs[k]))
                                   && (context.Some? ==> unchanged(context.value))
      ensures key in registry ==>
                var a := registry[key];
                var base := if context.Some? then old(context.value.entries) else map[];
                var runIn := RunnerContext(a, base, old(kbManager.Table()));
                && r == Finish(key, a, a.runner(query, runIn), elapsed)
                && (context.Some? ==> context.value.entries == if base == map[] then base else runIn)
                && forall k :: k in kbManager.kbs ==>
                     kbManager.kbs[k].View() == if BindsKnowledgeBases(a)
                                                then Queried(old(kbManager.kbs[k].View()), multiset(a.knowledgeBaseIds)[k], now)
                                                else old(kbManager.kbs[k].View())
    {
      var found := Get(key);
      if found.None? {
        return Err(UnknownAgent(key));
      }
      var a := found.value;
      var exec := PrepareContext(context, a, kbManager.Table());
      var out := a.runner(query, exec.entries);
      r := Finish(key, a, out, elapsed);
      RecordBound(kbManager, a, r.Ok?, elapsed, now);
    }
  }

  /** The three filters of `list_all`, applied in turn, keep what their
      conjunction keeps. */
  lemma ListAllFilters(all: seq<AgentDefinition>, agentType: Option<AgentType>,
                       capability: Option<AgentCapability>, tag: Option<string>)
    ensures var byType := if agentType.Some? then Filter(all, (a: AgentDefinition) => a.agentType == agentType.value) else all;
            var byCapability := if capability.Some? then Filter(byType, (a: AgentDefinition) => capability.value in a.capabilities) else byType;
            var byTag := if tag.Some? && tag.value != "" then Filter(byCapability, (a: AgentDefinition) => tag.value in a.tags) else byCapability;
            byTag == Filter(all, (a: AgentDefinition) => MatchesAll(a, agentType, capability, tag))
  {
    var pT := (a: AgentDefinition) => agentType.None? || a.agentType == agentType.value;
    var pTC := (a: AgentDefinition) => pT(a) && (capability.None? || capability.value in a.capabilities);
    var pAll := (a: AgentDefinition) => MatchesAll(a, agentType, capability, tag);
    var keep := (a: AgentDefinition) => true;
    if agentType.Some? {
      FilterWhenFirst(all, true, (a: AgentDefinition) => a.agentType == agentType.value, pT);
    } else {
      FilterWhenFirst(all, false, keep, pT);
    }
    if capability.Some? {
      FilterWhen(all, true, (a: AgentDefinition) => capability.value in a.capabilities, pT, pTC);
    } else {
      FilterWhen(all, false, keep, pT, pTC);
    }
    if tag.Some? && tag.value != "" {
      FilterWhen(all, true, (a: AgentDefinition) => tag.value in a.tags, pTC, pAll);
    } else {
      FilterWhen(all, false, keep, pTC, pAll);
    }
  }

  /** Registering a fresh key and unregistering it again restores the
      registry and its order. */
  lemma RegisterThenUnregister(registry: map<string, AgentDefinition>, order: seq<string>, agent: AgentDefinition)
    requires registry.Keys == Elements(order) && agent.key !in registry
    ensures registry[agent.key := agent] - {agent.key} == registry
    ensures Without(order + [agent.key], agent.key) == order
  {
    ElementsOf(order);
    WithoutAppended(order, agent.key);
  }
}
