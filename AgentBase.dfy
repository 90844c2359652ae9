/** Agent definitions: the enumerations, trigger configuration, the frozen
    definition record with the defaults its post-construction hook fills in,
    and its two projections (the metadata record and the model-selector
    entry). */
module AgentBase {
  import opened Wrappers
  import KnowledgeModels

  // ==================== Enumerations ====================

  datatype AgentType = Conversational | Research | TaskExecutor | Workflow | Custom

  datatype AgentCapability =
    | WebSearch | Rag | ToolCalling | CodeExecution
    | FileProcessing | ApiIntegration | Scheduling | ConditionalLogic

  datatype TriggerType = Manual | Scheduled | Webhook | ConnectorEvent

  /** The string each agent type stands for (its enum `.value`). */
  function AgentTypeValue(t: AgentType): string {
    match t
    case Conversational => "conversational"
    case Research => "research"
    case TaskExecutor => "task_executor"
    case Workflow => "workflow"
    case Custom => "custom"
  }

  /** Enum lookup by value, as `AgentType(s)`. */
  function AgentTypeFromValue(s: string): (r: Option<AgentType>)
    ensures r.Some? ==> AgentTypeValue(r.value) == s
  {
    if s == "conversational" then Some(Conversational)
    else if s == "research" then Some(Research)
    else if s == "task_executor" then Some(TaskExecutor)
    else if s == "workflow" then Some(Workflow)
    else if s == "custom" then Some(Custom)
    else None
  }

  function CapabilityValue(c: AgentCapability): string {
    match c
    case WebSearch => "web_search"
    case Rag => "rag"
    case ToolCalling => "tool_calling"
    case CodeExecution => "code_execution"
    case FileProcessing => "file_processing"
    case ApiIntegration => "api_integration"
    case Scheduling => "scheduling"
    case ConditionalLogic => "conditional_logic"
  }

  function CapabilityFromValue(s: string): (r: Option<AgentCapability>)
    ensures r.Some? ==> CapabilityValue(r.value) == s
  {
    if s == "web_search" then Some(WebSearch)
    else if s == "rag" then Some(Rag)
    else if s == "tool_calling" then Some(ToolCalling)
    else if s == "code_execution" then Some(CodeExecution)
    else if s == "file_processing" then Some(FileProcessing)
    else if s == "api_integration" then Some(ApiIntegration)
    else if s == "scheduling" then Some(Scheduling)
    else if s == "conditional_logic" then Some(ConditionalLogic)
    else None
  }

  function TriggerTypeValue(t: TriggerType): string {
    match t
    case Manual => "manual"
    case Scheduled => "scheduled"
    case Webhook => "webhook"
    case ConnectorEvent => "connector_event"
  }

  function TriggerTypeFromValue(s: string): (r: Option<TriggerType>)
    ensures r.Some? ==> TriggerTypeValue(r.value) == s
  {
    if s == "manual" then Some(Manual)
    else if s == "scheduled" then Some(Scheduled)
    else if s == "webhook" then Some(Webhook)
    else if s == "connector_event" then Some(ConnectorEvent)
    else None
  }

  /** Every member is found again from its value: the values are distinct. */
  lemma EnumValuesRoundTrip(t: AgentType, c: AgentCapability, g: TriggerType)
    ensures AgentTypeFromValue(AgentTypeValue(t)) == Some(t)
    ensures CapabilityFromValue(CapabilityValue(c)) == Some(c)
    ensures TriggerTypeFromValue(TriggerTypeValue(g)) == Some(g)
  {
  }

  // ==================== Triggers ====================

  datatype TriggerConfig = TriggerConfig(
    triggerType: TriggerType,
    enabled: bool,
    cronExpression: Option<string>,
    webhookUrl: Option<string>,
    webhookSecret: Option<string>,
    connectorEvents: Option<seq<string>>)

  /** `AgentTriggerConfig(trigger_type=t)`: the dataclass defaults. */
  function DefaultTrigger(t: TriggerType): TriggerConfig {
    TriggerConfig(t, true, None, None, None, None)
  }

  // ==================== Runner interface ====================

  /** A value placed in the execution context: a scalar, or the list of
      knowledge-base lookups (`None` for an unknown id). */
  datatype CtxValue = Plain(v: Value) | KnowledgeBases(kbs: seq<Option<KnowledgeModels.KBView>>)

  type Context = map<string, CtxValue>

  /** A value in an agent's result dict: a scalar or a nested dict. */
  datatype ResultValue = Scalar(v: Value) | Dict(entries: map<string, Value>)

  type AgentResult = map<string, ResultValue>

  /** The exception an agent's runner raises. */
  datatype RunError = RunError(message: string)

  type Runner = (string, Context) -> Result<AgentResult, RunError>

  // ==================== Definitions ====================

  /** The arguments a definition is built from; `None` where the caller
      leaves a defaulted field out. */
  datatype AgentArgs = AgentArgs(
    key: string,
    name: string,
    description: string,
    runner: Runner,
    agentType: AgentType,
    capabilities: Option<seq<AgentCapability>>,
    useKnowledgeBase: bool,
    knowledgeBaseIds: Option<seq<nat>>,
    apiEndpoint: Option<string>,
    requiresApiKey: bool,
    version: string,
    triggers: Option<seq<TriggerConfig>>,
    maxTokens: Option<int>,
    timeoutSeconds: int,
    icon: Option<string>,
    color: Option<string>,
    tags: Option<seq<string>>,
    createdAt: Option<int>,
    updatedAt: Option<int>)

  /** A definition once its defaults are filled in. */
  datatype AgentDefinition = AgentDefinition(
    key: string,
    name: string,
    description: string,
    runner: Runner,
    agentType: AgentType,
    capabilities: seq<AgentCapability>,
    useKnowledgeBase: bool,
    knowledgeBaseIds: seq<nat>,
    apiEndpoint: Option<string>,
    requiresApiKey: bool,
    version: string,
    triggers: seq<TriggerConfig>,
    maxTokens: Option<int>,
    timeoutSeconds: int,
    icon: Option<string>,
    color: Option<string>,
    tags: seq<string>,
    createdAt: int,
    updatedAt: int)

  /** `AgentDefinition(key=…, name=…, description=…, runner=…)` with every
      other field left at its declared default. */
  function DefaultArgs(key: string, name: string, description: string, runner: Runner): AgentArgs {
    AgentArgs(key, name, description, runner, Conversational, None, false, None, None, false,
              "1.0.0", None, None, 300, None, None, None, None, None)
  }

  /** The definition `__post_init__` leaves behind; `now` is the clock. */
  function PostInit(a: AgentArgs, now: int): (d: AgentDefinition)
    ensures d.key == a.key && d.name == a.name && d.description == a.description && d.runner == a.runner
    ensures d.agentType == a.agentType && d.useKnowledgeBase == a.useKnowledgeBase
    ensures d.apiEndpoint == a.apiEndpoint && d.requiresApiKey == a.requiresApiKey && d.version == a.version
    ensures d.maxTokens == a.maxTokens && d.timeoutSeconds == a.timeoutSeconds
    ensures d.icon == a.icon && d.color == a.color
    ensures a.capabilities.Some? ==> d.capabilities == a.capabilities.value
    ensures a.capabilities.None? ==> d.capabilities == []
    ensures a.knowledgeBaseIds.Some? ==> d.knowledgeBaseIds == a.knowledgeBaseIds.value
    ensures a.knowledgeBaseIds.None? ==> d.knowledgeBaseIds == []
    ensures a.tags.Some? ==> d.tags == a.tags.value
    ensures a.tags.None? ==> d.tags == []
    ensures a.triggers.Some? ==> d.triggers == a.triggers.value
    ensures a.triggers.None? ==> |d.triggers| == 1 && d.triggers[0].triggerType == Manual && d.triggers[0].enabled
    ensures d.createdAt == (if a.createdAt.Some? then a.createdAt.value else now)
    ensures d.updatedAt == (if a.updatedAt.Some? then a.updatedAt.value else now)
  {
    AgentDefinition(a.key, a.name, a.description, a.runner, a.agentType,
                    a.capabilities.GetOr([]), a.useKnowledgeBase, a.knowledgeBaseIds.GetOr([]),
                    a.apiEndpoint, a.requiresApiKey, a.version,
                    a.triggers.GetOr([DefaultTrigger(Manual)]),
                    a.maxTokens, a.timeoutSeconds, a.icon, a.color, a.tags.GetOr([]),
                    a.createdAt.GetOr(now), a.updatedAt.GetOr(now))
  }

  /** The arguments that rebuild `d` with every field supplied. */
  function ArgsOf(d: AgentDefinition): AgentArgs {
    AgentArgs(d.key, d.name, d.description, d.runner, d.agentType, Some(d.capabilities),
              d.useKnowledgeBase, Some(d.knowledgeBaseIds), d.apiEndpoint, d.requiresApiKey,
              d.version, Some(d.triggers), d.maxTokens, d.timeoutSeconds, d.icon, d.color,
              Some(d.tags), Some(d.createdAt), Some(d.updatedAt))
  }

  /** Filling defaults touches only missing fields: a definition rebuilt from
      its own fields is unchanged, whatever the clock says. */
  lemma PostInitKeepsSupplied(d: AgentDefinition, now: int)
    ensures PostInit(ArgsOf(d), now) == d
  {
  }

  /** A definition given only its four required fields. */
  lemma DefaultDefinition(key: string, name: string, description: string, runner: Runner, now: int)
    ensures var d := PostInit(DefaultArgs(key, name, description, runner), now);
            && d.agentType == Conversational && d.capabilities == [] && d.knowledgeBaseIds == []
            && !d.useKnowledgeBase && !d.requiresApiKey && d.version == "1.0.0"
            && d.timeoutSeconds == 300 && d.tags == [] && d.icon.None? && d.color.None?
            && d.triggers == [TriggerConfig(Manual, true, None, None, None, None)]
            && d.createdAt == now && d.updatedAt == now
  {
  }

  // ==================== Metadata ====================

  datatype TriggerSummary = TriggerSummary(triggerType: string, enabled: bool, cron: Option<string>)

  datatype AgentMetadata = AgentMetadata(
    key: string,
    name: string,
    description: string,
    agentType: string,
    capabilities: seq<string>,
    useKnowledgeBase: bool,
    knowledgeBaseCount: nat,
    version: string,
    apiEndpoint: Option<string>,
    requiresApiKey: bool,
    triggers: seq<TriggerSummary>,
    maxTokens: Option<int>,
    timeoutSeconds: int,
    icon: Option<string>,
    color: Option<string>,
    tags: seq<string>,
    createdAt: int,
    updatedAt: int)

  function CapabilityValues(cs: seq<AgentCapability>): (r: seq<string>)
    ensures |r| == |cs| && forall i :: 0 <= i < |cs| ==> r[i] == CapabilityValue(cs[i])
  {
    seq(|cs|, i requires 0 <= i < |cs| => CapabilityValue(cs[i]))
  }

  /** The capabilities a list of values names, if every value names one. */
  function CapabilitiesFromValues(vs: seq<string>): Option<seq<AgentCapability>>
    decreases |vs|
  {
    if vs == [] then Some([])
    else
      var c, rest := CapabilityFromValue(vs[0]), CapabilitiesFromValues(vs[1..]);
      if c.Some? && rest.Some? then Some([c.value] + rest.value) else None
  }

  /** The capability values identify the capabilities, in order. */
  lemma {:induction false} CapabilityValuesRoundTrip(cs: seq<AgentCapability>)
    ensures CapabilitiesFromValues(CapabilityValues(cs)) == Some(cs)
    decreases |cs|
  {
    if cs != [] {
      EnumValuesRoundTrip(Conversational, cs[0], Manual);
      assert CapabilityValues(cs)[1..] == CapabilityValues(cs[1..]);
      CapabilityValuesRoundTrip(cs[1..]);
      assert [cs[0]] + cs[1..] == cs;
    }
  }

  function TriggerSummaries(ts: seq<TriggerConfig>): (r: seq<TriggerSummary>)
    ensures |r| == |ts|
    ensures forall i :: 0 <= i < |ts| ==>
              r[i] == TriggerSummary(TriggerTypeValue(ts[i].triggerType), ts[i].enabled, ts[i].cronExpression)
  {
    seq(|ts|, i requires 0 <= i < |ts| =>
      TriggerSummary(TriggerTypeValue(ts[i].triggerType), ts[i].enabled, ts[i].cronExpression))
  }

  /** `to_metadata`. */
  function ToMetadata(d: AgentDefinition): (m: AgentMetadata)
    ensures m.key == d.key && m.name == d.name && m.description == d.description
    ensures m.agentType == AgentTypeValue(d.agentType)
    ensures m.knowledgeBaseCount == |d.knowledgeBaseIds|
    ensures m.useKnowledgeBase == d.useKnowledgeBase && m.version == d.version
    ensures m.apiEndpoint == d.apiEndpoint && m.requiresApiKey == d.requiresApiKey
    ensures m.maxTokens == d.maxTokens && m.timeoutSeconds == d.timeoutSeconds
    ensures m.icon == d.icon && m.color == d.color && m.tags == d.tags
    ensures m.createdAt == d.createdAt && m.updatedAt == d.updatedAt
    ensures CapabilitiesFromValues(m.capabilities) == Some(d.capabilities)
    ensures |m.triggers| == |d.triggers|
    ensures forall i :: 0 <= i < |d.triggers| ==>
              && TriggerTypeFromValue(m.triggers[i].triggerType) == Some(d.triggers[i].triggerType)
              && m.triggers[i].enabled == d.triggers[i].enabled
              && m.triggers[i].cron == d.triggers[i].cronExpression
  {
    CapabilityValuesRoundTrip(d.capabilities);
    var ts := TriggerSummaries(d.triggers);
    assert forall i :: 0 <= i < |d.triggers| ==>
             TriggerTypeFromValue(ts[i].triggerType) == Some(d.triggers[i].triggerType) by {
      forall i | 0 <= i < |d.triggers|
        ensures TriggerTypeFromValue(ts[i].triggerType) == Some(d.triggers[i].triggerType)
      {
        EnumValuesRoundTrip(Conversational, WebSearch, d.triggers[i].triggerType);
      }
    }
    AgentMetadata(d.key, d.name, d.description, AgentTypeValue(d.agentType),
                  CapabilityValues(d.capabilities), d.useKnowledgeBase, |d.knowledgeBaseIds|,
                  d.version, d.apiEndpoint, d.requiresApiKey, ts,
                  d.maxTokens, d.timeoutSeconds, d.icon, d.color, d.tags, d.createdAt, d.updatedAt)
  }

  // ==================== Model-selector entry ====================

  datatype SelectorMetadata = SelectorMetadata(agentType: string, useKb: bool, tags: seq<string>)

  datatype SelectorEntry = SelectorEntry(
    id: string,
    name: string,
    description: string,
    provider: string,
    entryType: string,
    capabilities: seq<string>,
    icon: string,
    color: string,
    version: string,
    metadata: SelectorMetadata)

  const SelectorPrefix: string := "agent:"
  const DefaultColor: string := "#6366f1"

  /** The robot-face emoji, U+1F916: the fallback icon. */
  const DefaultIcon: string := "\U{1F916}"

  /** Python's `x or default` on an optional string: the default replaces
      both `None` and the empty string. */
  function OrDefault(x: Option<string>, default: string): (r: string)
    ensures x.Some? && x.value != "" ==> r == x.value
    ensures x.None? || x.value == "" ==> r == default
  {
    if x.Some? && x.value != "" then x.value else default
  }

  /** `to_model_selector_format`. */
  function ToModelSelectorFormat(d: AgentDefinition): (e: SelectorEntry)
    ensures e.id == SelectorPrefix + d.key && e.provider == "AgentHub" && e.entryType == "agent"
    ensures e.name == d.name && e.description == d.description && e.version == d.version
    ensures CapabilitiesFromValues(e.capabilities) == Some(d.capabilities)
    ensures e.color == (if d.color.Some? && d.color.value != "" then d.color.value else DefaultColor)
    ensures e.icon == (if d.icon.Some? && d.icon.value != "" then d.icon.value else DefaultIcon)
    ensures e.metadata == SelectorMetadata(AgentTypeValue(d.agentType), d.useKnowledgeBase, d.tags)
  {
    CapabilityValuesRoundTrip(d.capabilities);
    SelectorEntry(SelectorPrefix + d.key, d.name, d.description, "AgentHub", "agent",
                  CapabilityValues(d.capabilities), OrDefault(d.icon, DefaultIcon),
                  OrDefault(d.color, DefaultColor), d.version,
                  SelectorMetadata(AgentTypeValue(d.agentType), d.useKnowledgeBase, d.tags))
  }

  /** The prefix keeps agent entries apart from models and from each other:
      the key is read back from the id, so distinct keys give distinct ids. */
  lemma SelectorIdIdentifiesKey(d: AgentDefinition, d2: AgentDefinition)
    ensures |ToModelSelectorFormat(d).id| >= |SelectorPrefix|
    ensures ToModelSelectorFormat(d).id[..|SelectorPrefix|] == SelectorPrefix
    ensures ToModelSelectorFormat(d).id[|SelectorPrefix|..] == d.key
    ensures ToModelSelectorFormat(d).id == ToModelSelectorFormat(d2).id <==> d.key == d2.key
  {
    var id, id2 := ToModelSelectorFormat(d).id, ToModelSelectorFormat(d2).id;
    if id == id2 {
      assert id[|SelectorPrefix|..] == d.key;
      assert id2[|SelectorPrefix|..] == d2.key;
    }
  }

  // ==================== The default icon as written ====================

  /** The fallback icon as the source file spells it: four characters. */
  const WrittenDefaultIcon: string := "\U{F0}\U{178}\U{A4}\U{2013}"

  /** The selector icon with the fallback as written. */
  function WrittenSelectorIcon(icon: Option<string>): (r: string)
    ensures icon.None? ==> r == WrittenDefaultIcon
  {
    OrDefault(icon, WrittenDefaultIcon)
  }

  /** The UTF-8 encoding of a code point. */
  function Utf8Encode(c: char): (bs: seq<nat>)
    ensures 1 <= |bs| <= 4 && forall i :: 0 <= i < |bs| ==> bs[i] < 256
  {
    var n := c as int;
    if n < 0x80 then [n]
    else if n < 0x800 then [0xC0 + n / 0x40, 0x80 + n % 0x40]
    else if n < 0x1_0000 then [0xE0 + n / 0x1000, 0x80 + (n / 0x40) % 0x40, 0x80 + n % 0x40]
    else [0xF0 + n / 0x4_0000, 0x80 + (n / 0x1000) % 0x40, 0x80 + (n / 0x40) % 0x40, 0x80 + n % 0x40]
  }

  /** One byte read in the Windows-1252 code page; five bytes have no
      character there. */
  function Cp1252Char(b: nat): Option<char>
    requires b < 256
  {
    if b < 0x80 || b >= 0xA0 then Some(b as char)
    else
      var table: seq<int> := [
        0x20AC, -1, 0x201A, 0x0192, 0x201E, 0x2026, 0x2020, 0x2021,
        0x02C6, 0x2030, 0x0160, 0x2039, 0x0152, -1, 0x017D, -1,
        -1, 0x2018, 0x2019, 0x201C, 0x201D, 0x2022, 0x2013, 0x2014,
        0x02DC, 0x2122, 0x0161, 0x203A, 0x0153, -1, 0x017E, 0x0178];
      var u := table[b - 0x80];
      if u < 0 then None else Some(u as char)
  }

  function Cp1252Decode(bs: seq<nat>): Option<string>
    requires forall i :: 0 <= i < |bs| ==> bs[i] < 256
    decreases |bs|
  {
    if bs == [] then Some([])
    else
      var c, rest := Cp1252Char(bs[0]), Cp1252Decode(bs[1..]);
      if c.Some? && rest.Some? then Some([c.value] + rest.value) else None
  }

  /** As written, the fallback is not an emoji: it is the robot face's UTF-8
      bytes misread as Windows-1252, four characters where one was meant. */
  lemma WrittenIconIsMojibake()
    ensures |WrittenSelectorIcon(None)| == 4
    ensures WrittenSelectorIcon(None) != DefaultIcon
    ensures Cp1252Decode(Utf8Encode(DefaultIcon[0])) == Some(WrittenSelectorIcon(None))
  {
    var bs := Utf8Encode(DefaultIcon[0]);
    assert bs == [0xF0, 0x9F, 0xA4, 0x96];
    assert Cp1252Char(0xF0) == Some('\U{F0}') && Cp1252Char(0x9F) == Some('\U{178}');
    assert Cp1252Char(0xA4) == Some('\U{A4}') && Cp1252Char(0x96) == Some('\U{2013}');
    assert bs[1..][1..] == bs[2..] && bs[2..][1..] == bs[3..] && bs[3..][1..] == [];
    assert Cp1252Decode(bs[3..]).Some? && Cp1252Decode(bs[3..]).value == "\U{2013}";
    assert Cp1252Decode(bs[2..]).value == "\U{A4}\U{2013}";
    assert Cp1252Decode(bs[1..]).value == "\U{178}\U{A4}\U{2013}";
    assert Cp1252Decode(bs).value == WrittenDefaultIcon;
    assert Cp1252Decode(bs) == Some(Cp1252Decode(bs).value);
  }

  /** The fallback the model uses: one character, the robot face, exactly
      the text whose misreading the source shows. */
  lemma SelectorIconFallback(d: AgentDefinition)
    requires d.icon.None? || d.icon == Some("")
    ensures ToModelSelectorFormat(d).icon == DefaultIcon && |DefaultIcon| == 1
    ensures Cp1252Decode(Utf8Encode(ToModelSelectorFormat(d).icon[0])) == Some(WrittenDefaultIcon)
  {
    WrittenIconIsMojibake();
  }
}
