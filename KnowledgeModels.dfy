/** The knowledge-base entities: versions, connectors and the knowledge base
    itself, whose methods update it in place. */
module KnowledgeModels {
  import opened Wrappers
  import opened Text
  import Seqs

  datatype SourceType = Notion | Slack | GoogleDrive | Confluence | GitHub | WebScraper | Custom

  datatype Status = Active | Inactive | Syncing | Error

  // ---------------------------------------------------------------------------
  // Semantic version tags "v{major}.{minor}.{micro}"
  // ---------------------------------------------------------------------------

  datatype Version = Version(major: nat, minor: nat, micro: nat)

  /** The tag the source writes for a version. */
  function Tag(v: Version): string {
    "v" + NatToString(v.major) + "." + NatToString(v.minor) + "." + NatToString(v.micro)
  }

  function ParseNumber(s: string): Option<nat> {
    if s != [] && AllDigits(s) then Some(DigitsValue(s)) else None
  }

  /** `packaging.version.parse(tag.lstrip('v'))` for release versions of three
      numeric components; any other form is `None`. */
  function ParseTag(tag: string): Option<Version> {
    var parts := SplitOn(LStrip(tag, 'v'), '.');
    if |parts| != 3 then None
    else
      match (ParseNumber(parts[0]), ParseNumber(parts[1]), ParseNumber(parts[2]))
      case (Some(a), Some(b), Some(c)) => Some(Version(a, b, c))
      case _ => None
  }

  lemma ParseNumberOfNatToString(n: nat)
    ensures ParseNumber(NatToString(n)) == Some(n)
  {
    DigitsValueOfNatToString(n);
  }

  lemma LStripTag(body: string)
    requires body != [] && IsDigit(body[0])
    ensures LStrip("v" + body, 'v') == body
  {
    assert ("v" + body)[1..] == body;
    assert LeadingCount(body, 'v') == 0;
  }

  /** Parsing a tag the source wrote gives back its version. */
  lemma {:induction false} ParseTagOfTag(v: Version)
    ensures ParseTag(Tag(v)) == Some(v)
  {
    var a, b, c := NatToString(v.major), NatToString(v.minor), NatToString(v.micro);
    var body := a + ['.'] + b + ['.'] + c;
    assert Tag(v) == "v" + body;
    LStripTag(body);
    DigitsHaveNoSeparator(a, '.');
    DigitsHaveNoSeparator(b, '.');
    DigitsHaveNoSeparator(c, '.');
    SplitOnThree(a, b, c, '.');
    ParseNumberOfNatToString(v.major);
    ParseNumberOfNatToString(v.minor);
    ParseNumberOfNatToString(v.micro);
  }

  /** Distinct versions have distinct tags. */
  lemma TagInjective(v: Version, w: Version)
    ensures Tag(v) == Tag(w) ==> v == w
  {
    ParseTagOfTag(v);
    ParseTagOfTag(w);
  }

  /** The `current_version` a new knowledge base starts with. */
  const DefaultVersionTag: string := "v1.0.0"

  lemma DefaultVersionTagParses()
    ensures ParseTag(DefaultVersionTag) == Some(Version(1, 0, 0))
  {
    assert Tag(Version(1, 0, 0)) == DefaultVersionTag;
    ParseTagOfTag(Version(1, 0, 0));
  }

  /** The tag `create_version` derives from the current one: same major and
      minor, micro plus one; `None` when the current tag does not parse. */
  function NextTag(tag: string): Option<string> {
    match ParseTag(tag)
    case None => None
    case Some(v) => Some(Tag(v.(micro := v.micro + 1)))
  }

  /** `NextTag` is defined exactly on the tags that parse, and its result
      parses as the bumped version. */
  lemma NextTagParses(tag: string)
    ensures NextTag(tag).Some? <==> ParseTag(tag).Some?
    ensures NextTag(tag).Some? ==>
              ParseTag(NextTag(tag).value) == Some(ParseTag(tag).value.(micro := ParseTag(tag).value.micro + 1))
  {
    if ParseTag(tag).Some? {
      var v := ParseTag(tag).value;
      ParseTagOfTag(v.(micro := v.micro + 1));
    }
  }

  // ---------------------------------------------------------------------------
  // Records
  // ---------------------------------------------------------------------------

  /** One entry of the version history; never changed once appended. The
      checksum is an opaque value computed outside the model. */
  datatype KnowledgeVersion = KnowledgeVersion(
    version: string,
    createdAt: int,
    documentCount: int,
    totalSizeBytes: int,
    metadata: map<string, Value>,
    checksum: Option<string>)

  datatype ConnectorConfig = ConnectorConfig(
    connectorId: nat,
    connectorType: SourceType,
    name: string,
    enabled: bool,
    config: map<string, Value>,
    autoSync: bool,
    syncIntervalMinutes: int,
    lastSyncAt: Option<int>,
    nextSyncAt: Option<int>,
    totalSyncs: int,
    failedSyncs: int,
    lastError: Option<string>)

  /** A connector with the record's field defaults for everything not given. */
  function NewConnector(id: nat, connectorType: SourceType, name: string, config: map<string, Value>,
                        autoSync: bool, syncIntervalMinutes: int, nextSyncAt: Option<int>): ConnectorConfig
  {
    ConnectorConfig(id, connectorType, name, true, config, autoSync, syncIntervalMinutes,
                    None, nextSyncAt, 0, 0, None)
  }

  /** A time-bucketed usage snapshot (the float average latency is left out). */
  datatype UsageMetrics = UsageMetrics(
    kbId: nat,
    periodStart: int,
    periodEnd: int,
    totalQueries: int,
    successfulQueries: int,
    failedQueries: int,
    totalSyncs: int,
    successfulSyncs: int,
    failedSyncs: int,
    documentsAdded: int,
    documentsUpdated: int,
    documentsDeleted: int,
    bytesProcessed: int,
    agentsUsing: seq<string>)

  /** The value of every field of a knowledge base at one moment. */
  datatype KBView = KBView(
    kbId: nat,
    name: string,
    description: string,
    status: Status,
    enabled: bool,
    currentVersion: string,
    versions: seq<KnowledgeVersion>,
    connectors: seq<ConnectorConfig>,
    agentKeys: seq<string>,
    createdAt: int,
    updatedAt: int,
    createdBy: Option<string>,
    queryCount: int,
    lastQueriedAt: Option<int>)

  /** The next tag after a tag the source wrote is the tag of the version
      with the micro number bumped. */
  lemma NextTagOfTag(v: Version)
    ensures NextTag(Tag(v)) == Some(Tag(v.(micro := v.micro + 1)))
  {
    ParseTagOfTag(v);
  }

  // ---------------------------------------------------------------------------
  // Pure parts of the knowledge-base operations
  // ---------------------------------------------------------------------------

  /** Some stored version carries exactly this tag. */
  predicate HasVersion(versions: seq<KnowledgeVersion>, tag: string) {
    exists i :: 0 <= i < |versions| && versions[i].version == tag
  }

  /** The versioning promise: the current tag and every tag of the history
      are well formed; before any version is created the current tag is the
      default one, afterwards it is a tag of the history (the latest one, or
      one rolled back to). */
  ghost predicate VersionHistoryValid(current: string, versions: seq<KnowledgeVersion>) {
    && ParseTag(current).Some?
    && (forall i :: 0 <= i < |versions| ==> ParseTag(versions[i].version).Some?)
    && (versions == [] ==> current == DefaultVersionTag)
    && (versions != [] ==> HasVersion(versions, current))
  }

  /** `get_active_connectors`: the enabled connectors, in their order. */
  function ActiveConnectors(cs: seq<ConnectorConfig>): (r: seq<ConnectorConfig>)
    ensures forall i :: 0 <= i < |r| ==> r[i].enabled && r[i] in cs
    ensures forall i :: 0 <= i < |cs| && cs[i].enabled ==> cs[i] in r
    ensures Seqs.IsSubsequence(r, cs)
    ensures forall c :: multiset(r)[c] == if c.enabled then multiset(cs)[c] else 0
  {
    Seqs.FilterMultiset(cs, (c: ConnectorConfig) => c.enabled);
    Seqs.Filter(cs, (c: ConnectorConfig) => c.enabled)
  }

  /** The connector list `remove_connector` leaves: every connector with another
      id, in order; it is shorter exactly when some connector had the id. */
  function WithoutConnector(cs: seq<ConnectorConfig>, id: nat): (r: seq<ConnectorConfig>)
    ensures forall i :: 0 <= i < |r| ==> r[i].connectorId != id && r[i] in cs
    ensures forall i :: 0 <= i < |cs| && cs[i].connectorId != id ==> cs[i] in r
    ensures Seqs.IsSubsequence(r, cs)
    ensures |r| < |cs| <==> exists i :: 0 <= i < |cs| && cs[i].connectorId == id
    ensures forall c :: multiset(r)[c] == if c.connectorId != id then multiset(cs)[c] else 0
  {
    Seqs.FilterMultiset(cs, (c: ConnectorConfig) => c.connectorId != id);
    Seqs.Filter(cs, (c: ConnectorConfig) => c.connectorId != id)
  }

  // ---------------------------------------------------------------------------
  // The knowledge base
  // ---------------------------------------------------------------------------

  /** The exception `create_version` raises when the current tag does not
      parse as a release version. */
  datatype VersionError = InvalidVersion(tag: string)

  /** The versioning promise on one value of a knowledge base. */
  ghost predicate HistoryValid(v: KBView) {
    VersionHistoryValid(v.currentVersion, v.versions)
  }

  /** On a history keeping the promise `create_version` does not raise, and
      appending the version it builds keeps the promise. */
  lemma CreateKeepsHistory(current: string, versions: seq<KnowledgeVersion>, nv: KnowledgeVersion)
    requires VersionHistoryValid(current, versions)
    ensures NextTag(current).Some?
    ensures NextTag(current) == Some(nv.version) ==> VersionHistoryValid(nv.version, versions + [nv])
  {
    NextTagParses(current);
    if NextTag(current) == Some(nv.version) {
      var vs := versions + [nv];
      assert vs[|versions|].version == nv.version;
      forall i | 0 <= i < |vs| ensures ParseTag(vs[i].version).Some? {
        if i < |versions| {
          assert vs[i] == versions[i];
        }
      }
    }
  }

  /** Rolling back to a tag of the history keeps the promise. */
  lemma RollbackKeepsHistory(current: string, versions: seq<KnowledgeVersion>, target: string)
    requires VersionHistoryValid(current, versions)
    requires HasVersion(versions, target)
    ensures VersionHistoryValid(target, versions)
  {
    var i :| 0 <= i < |versions| && versions[i].version == target;
  }

  /** A new knowledge base keeps the promise. */
  lemma DefaultHistoryValid()
    ensures VersionHistoryValid(DefaultVersionTag, [])
  {
    DefaultVersionTagParses();
  }

  /** The first version a new knowledge base gets is v1.0.1. */
  lemma FirstVersionTag()
    ensures NextTag(DefaultVersionTag) == Some("v1.0.1")
  {
    assert NatToString(0) == "0" && NatToString(1) == "1";
    assert Tag(Version(1, 0, 0)) == DefaultVersionTag;
    assert Tag(Version(1, 0, 1)) == "v1.0.1";
    NextTagOfTag(Version(1, 0, 0));
  }

  class KnowledgeBase {
    const kbId: nat
    var name: string
    var description: string
    var status: Status
    var enabled: bool
    var currentVersion: string
    var versions: seq<KnowledgeVersion>
    var connectors: seq<ConnectorConfig>
    var agentKeys: seq<string>
    var createdAt: int
    var updatedAt: int
    var createdBy: Option<string>
    var queryCount: int
    var lastQueriedAt: Option<int>

    function View(): KBView
      reads this
    {
      KBView(kbId, name, description, status, enabled, currentVersion, versions, connectors,
             agentKeys, createdAt, updatedAt, createdBy, queryCount, lastQueriedAt)
    }

    ghost predicate Valid()
      reads this
    {
      HistoryValid(View())
    }

    /** A knowledge base with the record's defaults: active, enabled, tag
        v1.0.0, no versions, no connectors, not queried. */
    constructor (id: nat, name: string, description: string, agentKeys: seq<string>,
                 createdBy: Option<string>, now: int)
      ensures Valid()
      ensures View() == KBView(id, name, description, Active, true, DefaultVersionTag, [], [],
                               agentKeys, now, now, createdBy, 0, None)
    {
      kbId := id;
      this.name := name;
      this.description := description;
      status := Active;
      enabled := true;
      currentVersion := DefaultVersionTag;
      versions := [];
      connectors := [];
      this.agentKeys := agentKeys;
      createdAt := now;
      updatedAt := now;
      this.createdBy := createdBy;
      queryCount := 0;
      lastQueriedAt := None;
      new;
      DefaultHistoryValid();
    }

    /** `add_connector`: append the connector as given. */
    method AddConnector(c: ConnectorConfig, now: int)
      modifies this
      ensures View() == old(View()).(connectors := old(connectors) + [c], updatedAt := now)
    {
      connectors := connectors + [c];
      updatedAt := now;
    }

    /** `remove_connector`: drop every connector with the id; true iff one was
        dropped, and only then is `updated_at` touched. */
    method RemoveConnector(id: nat, now: int) returns (removed: bool)
      modifies this
      ensures removed <==> exists i :: 0 <= i < |old(connectors)| && old(connectors)[i].connectorId == id
      ensures View() == old(View()).(connectors := WithoutConnector(old(connectors), id),
                                     updatedAt := if removed then now else old(updatedAt))
    {
      var originalCount := |connectors|;
      connectors := WithoutConnector(connectors, id);
      removed := |connectors| < originalCount;
      if removed {
        updatedAt := now;
      }
    }

    /** `create_version`: when the current tag parses, append a version whose
        tag bumps its micro number and make it current; otherwise raise
        `InvalidVersion` and change nothing. `CreateKeepsHistory` says that on
        a knowledge base keeping the versioning promise it succeeds and keeps
        the promise. */
    method CreateVersion(documentCount: int, totalSizeBytes: int, metadata: Option<map<string, Value>>,
                         checksum: string, now: int) returns (r: Result<KnowledgeVersion, VersionError>)
      modifies this
      ensures r.Err? <==> NextTag(old(currentVersion)).None?
      ensures r.Err? ==> r.error == InvalidVersion(old(currentVersion)) && View() == old(View())
      ensures r.Ok? ==>
                && Some(r.value.version) == NextTag(old(currentVersion))
                && r.value == KnowledgeVersion(r.value.version, now, documentCount, totalSizeBytes,
                                               metadata.GetOr(map[]), Some(checksum))
                && View() == old(View()).(versions := old(versions) + [r.value],
                                          currentVersion := r.value.version, updatedAt := now)
      ensures old(Valid()) ==> r.Ok? && Valid()
    {
      ghost var wasValid := Valid();
      var next := NextTag(currentVersion);
      if next.None? {
        NextTagParses(currentVersion);
        return Err(InvalidVersion(currentVersion));
      }
      var nv := KnowledgeVersion(next.value, now, documentCount, totalSizeBytes, metadata.GetOr(map[]),
                                 Some(checksum));
      if wasValid {
        CreateKeepsHistory(currentVersion, versions, nv);
      }
      versions := versions + [nv];
      currentVersion := next.value;
      updatedAt := now;
      r := Ok(nv);
    }

    /** `rollback_version`: make `target` current iff the history holds it; the
        history itself is never changed. */
    method RollbackVersion(target: string, now: int) returns (ok: bool)
      modifies this
      ensures ok == HasVersion(old(versions), target)
      ensures View() == if ok then old(View()).(currentVersion := target, updatedAt := now)
                        else old(View())
      ensures old(Valid()) ==> Valid()
    {
      ok := HasVersion(versions, target);
      if ok {
        if Valid() {
          RollbackKeepsHistory(currentVersion, versions, target);
        }
        currentVersion := target;
        updatedAt := now;
      }
    }

    /** The field writes of `update_knowledge_base`: each given field
        replaced, `updated_at` stamped. */
    method Update(newName: Option<string>, newDescription: Option<string>, newAgentKeys: Option<seq<string>>,
                  now: int)
      modifies this
      ensures View() == old(View()).(name := newName.GetOr(old(name)), description := newDescription.GetOr(old(description)),
                                     agentKeys := newAgentKeys.GetOr(old(agentKeys)), updatedAt := now)
    {
      name := newName.GetOr(name);
      description := newDescription.GetOr(description);
      agentKeys := newAgentKeys.GetOr(agentKeys);
      updatedAt := now;
    }

    /** `enable`: enabled and ACTIVE. */
    method Enable(now: int)
      modifies this
      ensures View() == old(View()).(enabled := true, status := Active, updatedAt := now)
    {
      enabled := true;
      status := Active;
      updatedAt := now;
    }

    /** `disable`: disabled and INACTIVE. */
    method Disable(now: int)
      modifies this
      ensures View() == old(View()).(enabled := false, status := Inactive, updatedAt := now)
    {
      enabled := false;
      status := Inactive;
      updatedAt := now;
    }

    /** `get_active_connectors`: exactly the enabled connectors, in order. */
    function GetActiveConnectors(): (r: seq<ConnectorConfig>)
      reads this
      ensures forall i :: 0 <= i < |r| ==> r[i].enabled && r[i] in connectors
      ensures forall i :: 0 <= i < |connectors| && connectors[i].enabled ==> connectors[i] in r
      ensures Seqs.IsSubsequence(r, connectors)
      ensures forall c :: multiset(r)[c] == if c.enabled then multiset(connectors)[c] else 0
    {
      ActiveConnectors(connectors)
    }

    /** `record_query`: one more query, stamped now. */
    method RecordQuery(now: int)
      modifies this
      ensures View() == old(View()).(queryCount := old(queryCount) + 1, lastQueriedAt := Some(now))
    {
      queryCount := queryCount + 1;
      lastQueriedAt := Some(now);
    }
  }

  /** Every operation that does not touch the version fields keeps the
      versioning promise: it depends on those two fields only. */
  lemma HistoryValidOnVersions(a: KBView, b: KBView)
    requires a.currentVersion == b.currentVersion && a.versions == b.versions
    ensures HistoryValid(a) == HistoryValid(b)
  {
  }
}
