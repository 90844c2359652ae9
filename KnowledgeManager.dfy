/** The knowledge-base manager: a table from id to knowledge base, with CRUD,
    versioning, connector lifecycle, sync bookkeeping and the sync-due scan.
    Every operation on an absent id answers with a sentinel instead of failing. */
module KnowledgeManager {
  import opened Wrappers
  import opened KnowledgeModels
  import opened Seqs

  // ---------------------------------------------------------------------------
  // Pure parts
  // ---------------------------------------------------------------------------

  /** The `list_knowledge_bases` filters: the agent key (when given and
      non-empty) is among the KB's agent keys, and the KB is enabled (when
      `enabledOnly`). */
  predicate ListedBy(v: KBView, agentKey: Option<string>, enabledOnly: bool) {
    && (agentKey.Some? && agentKey.value != "" ==> agentKey.value in v.agentKeys)
    && (enabledOnly ==> v.enabled)
  }

  /** The patch `update_knowledge_base` applies: each given field replaced. */
  function UpdatedView(v: KBView, name: Option<string>, description: Option<string>,
                       agentKeys: Option<seq<string>>, now: int): KBView
  {
    v.(name := name.GetOr(v.name), description := description.GetOr(v.description),
       agentKeys := agentKeys.GetOr(v.agentKeys), updatedAt := now)
  }

  /** A connector `trigger_sync` works on: enabled and, when an id is given,
      carrying that id. */
  predicate SelectedForSync(c: ConnectorConfig, connectorId: Option<nat>) {
    c.enabled && (connectorId.Some? ==> c.connectorId == connectorId.value)
  }

  /** The bookkeeping `trigger_sync` does on one connector. */
  function SyncedConnector(c: ConnectorConfig, connectorId: Option<nat>, now: int): (r: ConnectorConfig)
    ensures !SelectedForSync(c, connectorId) ==> r == c
    ensures SelectedForSync(c, connectorId) ==>
              && r.totalSyncs == c.totalSyncs + 1
              && r.lastSyncAt == Some(now)
              && r.nextSyncAt == (if c.autoSync then Some(now + c.syncIntervalMinutes) else c.nextSyncAt)
              && r.(totalSyncs := c.totalSyncs, lastSyncAt := c.lastSyncAt, nextSyncAt := c.nextSyncAt) == c
  {
    if SelectedForSync(c, connectorId) then
      c.(lastSyncAt := Some(now), totalSyncs := c.totalSyncs + 1,
         nextSyncAt := if c.autoSync then Some(now + c.syncIntervalMinutes) else c.nextSyncAt)
    else c
  }

  /** A connector is due: enabled, auto-syncing, with a next-sync time not
      later than `now`. */
  predicate ConnectorDue(c: ConnectorConfig, now: int) {
    c.enabled && c.autoSync && c.nextSyncAt.Some? && c.nextSyncAt.value <= now
  }

  /** The pairs the sync-due scan yields for one knowledge base. */
  function DueInKb(v: KBView, now: int): seq<(nat, nat)> {
    if !v.enabled then []
    else DueConnectors(v.kbId, ActiveConnectors(v.connectors), now)
  }

  function DueConnectors(kbId: nat, cs: seq<ConnectorConfig>, now: int): (r: seq<(nat, nat)>)
    ensures forall p :: p in r <==> p.0 == kbId && exists i :: 0 <= i < |cs| && cs[i].connectorId == p.1
                                                                  && ConnectorDue(cs[i], now)
    decreases |cs|
  {
    if cs == [] then []
    else
      var rest := DueConnectors(kbId, cs[1..], now);
      assert forall i :: 1 <= i < |cs| ==> cs[i] == cs[1..][i - 1];
      if ConnectorDue(cs[0], now) then
        [(kbId, cs[0].connectorId)] + rest
      else rest
  }

  /** The scan over a sequence of knowledge bases, in order. */
  function DueAll(vs: seq<KBView>, now: int): seq<(nat, nat)>
    decreases |vs|
  {
    if vs == [] then [] else DueAll(vs[..|vs| - 1], now) + DueInKb(vs[|vs| - 1], now)
  }

  /** Some connector with the id is due. */
  predicate HasDueConnector(cs: seq<ConnectorConfig>, connectorId: nat, now: int) {
    exists i :: 0 <= i < |cs| && cs[i].connectorId == connectorId && ConnectorDue(cs[i], now)
  }

  /** Some enabled knowledge base with the id has a due connector with the id. */
  predicate DuePair(vs: seq<KBView>, p: (nat, nat), now: int) {
    exists k :: 0 <= k < |vs| && vs[k].kbId == p.0 && vs[k].enabled && HasDueConnector(vs[k].connectors, p.1, now)
  }

  /** One knowledge base's part of the scan holds exactly its due pairs. */
  lemma DueInKbMembership(v: KBView, now: int, p: (nat, nat))
    ensures p in DueInKb(v, now) <==> v.kbId == p.0 && v.enabled && HasDueConnector(v.connectors, p.1, now)
  {
    if v.enabled {
      var act := ActiveConnectors(v.connectors);
      if p in DueInKb(v, now) {
        var i :| 0 <= i < |act| && act[i].connectorId == p.1 && ConnectorDue(act[i], now);
        assert act[i] in v.connectors;
        var j :| 0 <= j < |v.connectors| && v.connectors[j] == act[i];
      }
      if p.0 == v.kbId && HasDueConnector(v.connectors, p.1, now) {
        var i :| 0 <= i < |v.connectors| && v.connectors[i].connectorId == p.1 && ConnectorDue(v.connectors[i], now);
        assert v.connectors[i] in act;
        var j :| 0 <= j < |act| && act[j] == v.connectors[i];
      }
    }
  }

  /** A pair is in the scan iff its knowledge base is enabled and has a due
      connector with that id. */
  lemma {:induction false} DueAllMembership(vs: seq<KBView>, now: int, p: (nat, nat))
    ensures p in DueAll(vs, now) <==> DuePair(vs, p, now)
    decreases |vs|
  {
    if vs != [] {
      var n := |vs| - 1;
      DueAllMembership(vs[..n], now, p);
      DueInKbMembership(vs[n], now, p);
      if DuePair(vs, p, now) {
        var k :| 0 <= k < |vs| && vs[k].kbId == p.0 && vs[k].enabled && HasDueConnector(vs[k].connectors, p.1, now);
        if k < n {
          assert vs[..n][k] == vs[k];
        }
      }
      if DuePair(vs[..n], p, now) {
        var k :| 0 <= k < n && vs[..n][k].kbId == p.0 && vs[..n][k].enabled
                 && HasDueConnector(vs[..n][k].connectors, p.1, now);
        assert vs[k] == vs[..n][k];
      }
    }
  }

  /** The latest snapshot lying inside the period bounds that are given. */
  predicate InPeriod(m: UsageMetrics, periodStart: Option<int>, periodEnd: Option<int>) {
    (periodStart.Some? ==> m.periodStart >= periodStart.value)
    && (periodEnd.Some? ==> m.periodEnd <= periodEnd.value)
  }

  /** The selection `trigger_sync` computes (the matching enabled connectors,
      or all active ones), tested for emptiness; when it is empty the sync
      would leave every connector as it was. */
  method SelectForSync(cs: seq<ConnectorConfig>, connectorId: Option<nat>, now: int) returns (any: bool)
    ensures any == AnySelected(cs, connectorId)
    ensures !any ==> SyncAll(cs, connectorId, now) == cs
  {
    var toSync := Seqs.Filter(cs, (c: ConnectorConfig) => SelectedForSync(c, connectorId));
    SelectionEmpty(cs, connectorId, now);
    any := toSync != [];
  }

  /** The loop of `trigger_sync` over the connectors: each selected one gets
      its sync bookkeeping, the others are kept. */
  method SyncConnectors(cs: seq<ConnectorConfig>, connectorId: Option<nat>, now: int)
    returns (synced: seq<ConnectorConfig>)
    ensures synced == SyncAll(cs, connectorId, now)
  {
    synced := cs;
    var i := 0;
    while i < |synced|
      invariant 0 <= i <= |synced| == |cs|
      invariant forall j :: 0 <= j < i ==> synced[j] == SyncedConnector(cs[j], connectorId, now)
      invariant forall j :: i <= j < |cs| ==> synced[j] == cs[j]
    {
      synced := synced[i := SyncedConnector(synced[i], connectorId, now)];
      i := i + 1;
    }
  }

  /** The inner loop of `get_connectors_due_for_sync` on one knowledge base:
      nothing when it is disabled, else its due active connectors in order. */
  method ScanKb(v: KBView, now: int) returns (due: seq<(nat, nat)>)
    ensures due == DueInKb(v, now)
  {
    due := [];
    if !v.enabled {
      return;
    }
    var active := ActiveConnectors(v.connectors);
    var j := 0;
    while j < |active|
      invariant 0 <= j <= |active|
      invariant due == DueConnectors(v.kbId, active[..j], now)
    {
      var c := active[j];
      if c.autoSync && c.nextSyncAt.Some? && c.nextSyncAt.value <= now {
        due := due + [(v.kbId, c.connectorId)];
      }
      DueConnectorsSnoc(v.kbId, active, j, now);
      j := j + 1;
    }
    assert active[..|active|] == active;
  }

  /** The knowledge base `create_knowledge_base` builds: the record's
      defaults with the given fields, and one version, v1.0.1, made current. */
  function InitialView(id: nat, name: string, description: string, agentKeys: Option<seq<string>>,
                       createdBy: Option<string>, checksum: string, now: int): KBView
  {
    KBView(id, name, description, Active, true, "v1.0.1",
           [KnowledgeVersion("v1.0.1", now, 0, 0, map["initial" := Bool(true)], Some(checksum))],
           [], agentKeys.GetOr([]), now, now, createdBy, 0, None)
  }

  /** The construction and first `create_version` of `create_knowledge_base`. */
  method NewKnowledgeBase(id: nat, name: string, description: string, agentKeys: Option<seq<string>>,
                          createdBy: Option<string>, checksum: string, now: int) returns (kb: KnowledgeBase)
    ensures fresh(kb)
    ensures kb.View() == InitialView(id, name, description, agentKeys, createdBy, checksum, now)
    ensures kb.Valid()
  {
    kb := new KnowledgeBase(id, name, description, agentKeys.GetOr([]), createdBy, now);
    FirstVersionTag();
    var _ := kb.CreateVersion(0, 0, Some(map["initial" := Bool(true)]), checksum, now);
  }

  /** A knowledge base `create_knowledge_base` builds keeps the versioning
      promise. */
  lemma InitialViewValid(id: nat, name: string, description: string, agentKeys: Option<seq<string>>,
                         createdBy: Option<string>, checksum: string, now: int)
    ensures HistoryValid(InitialView(id, name, description, agentKeys, createdBy, checksum, now))
  {
    var v := InitialView(id, name, description, agentKeys, createdBy, checksum, now);
    DefaultHistoryValid();
    FirstVersionTag();
    CreateKeepsHistory(DefaultVersionTag, [], v.versions[0]);
    assert [] + [v.versions[0]] == v.versions;
  }

  // ---------------------------------------------------------------------------
  // The manager
  // ---------------------------------------------------------------------------

  class KnowledgeBaseManager {
    /** `_knowledge_bases`; `order` is the dict's insertion order. */
    var kbs: map<nat, KnowledgeBase>
    var order: seq<nat>
    /** `_metrics`. */
    var metrics: map<nat, seq<UsageMetrics>>
    /** Sources of fresh ids, in place of `uuid4()`. */
    var nextKbId: nat
    var nextConnectorId: nat

    /** Every knowledge base is stored under its own id, which the id
        counter has passed; `order` lists each stored id once. Distinct ids
        therefore hold distinct objects. */
    ghost predicate Valid()
      reads this
    {
      && (forall id :: id in kbs ==> id < nextKbId && kbs[id].kbId == id)
      && NoDuplicates(order)
      && kbs.Keys == Elements(order)
      && (forall i :: 0 <= i < |order| ==> order[i] in kbs)
    }

    /** Every connector of every stored knowledge base carries an id the
        connector-id counter has passed, so the next id is new to all of them. */
    ghost predicate ConnectorIdsIssued()
      reads this, kbs.Values
    {
      forall id, i :: id in kbs && 0 <= i < |kbs[id].connectors| ==>
        kbs[id].connectors[i].connectorId < nextConnectorId
    }

    /** The value of every stored knowledge base, by id. */
    function Table(): (t: map<nat, KBView>)
      reads this, kbs.Values
      ensures t.Keys == kbs.Keys
      ensures forall id :: id in kbs ==> t[id] == kbs[id].View()
    {
      map id | id in kbs :: kbs[id].View()
    }

    /** The stored knowledge bases' values in table order. */
    function Views(): (r: seq<KBView>)
      reads this, kbs.Values
      requires Valid()
      ensures |r| == |order|
      ensures forall i :: 0 <= i < |order| ==> r[i] == kbs[order[i]].View()
    {
      ElementsOf(order);
      ViewsIn(Table(), order)
    }

    constructor ()
      ensures Valid() && kbs == map[] && order == [] && metrics == map[]
    {
      kbs := map[];
      order := [];
      metrics := map[];
      nextKbId := 0;
      nextConnectorId := 0;
    }

    // ==================== CRUD ====================

    /** `create_knowledge_base`: a new knowledge base under a fresh id, holding
        exactly one version, v1.0.1, which is current. */
    method CreateKnowledgeBase(name: string, description: string, agentKeys: Option<seq<string>>,
                               createdBy: Option<string>, checksum: string, now: int)
      returns (kb: KnowledgeBase)
      requires Valid()
      modifies this
      ensures Valid() && fresh(kb)
      ensures kb.kbId !in old(kbs) && kbs == old(kbs)[kb.kbId := kb] && order == old(order) + [kb.kbId]
      ensures metrics == old(metrics)
      ensures kb.View() == InitialView(kb.kbId, name, description, agentKeys, createdBy, checksum, now)
      ensures kb.Valid()
    {
      kb := NewKnowledgeBase(nextKbId, name, description, agentKeys, createdBy, checksum, now);
      AddId(order, nextKbId);
      kbs := kbs[kb.kbId := kb];
      order := order + [kb.kbId];
      nextKbId := nextKbId + 1;
    }

    /** `get_knowledge_base`. */
    function GetKnowledgeBase(id: nat): (r: Option<KnowledgeBase>)
      reads this
      ensures r.Some? <==> id in kbs
      ensures r.Some? ==> r.value == kbs[id]
    {
      if id in kbs then Some(kbs[id]) else None
    }

    /** `list_knowledge_bases`: the stored knowledge bases passing the filters,
        in table order. */
    function ListKnowledgeBases(agentKey: Option<string>, enabledOnly: bool): (r: seq<KBView>)
      reads this, kbs.Values
      requires Valid()
      ensures forall i :: 0 <= i < |r| ==> r[i] in Views() && ListedBy(r[i], agentKey, enabledOnly)
      ensures forall id :: id in kbs && ListedBy(Table()[id], agentKey, enabledOnly) ==> Table()[id] in r
      ensures Seqs.IsSubsequence(r, Views())
    {
      var all := Views();
      var byAgent := if agentKey.Some? && agentKey.value != "" then
                       Seqs.Filter(all, (v: KBView) => agentKey.value in v.agentKeys)
                     else all;
      var kept := if enabledOnly then Seqs.Filter(byAgent, (v: KBView) => v.enabled) else byAgent;
      ListFilters(all, agentKey, enabledOnly, byAgent, kept);
      ViewsCoverTable();
      kept
    }

    /** `update_knowledge_base`: replace the fields given; `None` for an
        absent id. */
    method UpdateKnowledgeBase(id: nat, name: Option<string>, description: Option<string>,
                               agentKeys: Option<seq<string>>, now: int) returns (r: Option<KnowledgeBase>)
      requires Valid()
      modifies kbs.Values
      ensures Valid()
      ensures r.Some? <==> id in kbs
      ensures r.Some? ==> r.value == kbs[id]
      ensures id in kbs ==> kbs[id].View() == UpdatedView(old(kbs[id].View()), name, description, agentKeys, now)
      ensures forall k :: k in kbs && k != id ==> unchanged(kbs[k])
    {
      if id !in kbs {
        return None;
      }
      var kb := kbs[id];
      kb.Update(name, description, agentKeys, now);
      r := Some(kb);
    }

    /** `delete_knowledge_base`: true iff the id was stored; afterwards it is in
        neither the table nor the metrics. */
    method DeleteKnowledgeBase(id: nat) returns (deleted: bool)
      requires Valid()
      modifies this
      ensures Valid()
      ensures deleted == (id in old(kbs))
      ensures kbs == old(kbs) - {id}
      ensures metrics == if deleted then old(metrics) - {id} else old(metrics)
      ensures order == Without(old(order), id)
    {
      deleted := id in kbs;
      if deleted {
        kbs := kbs - {id};
        metrics := metrics - {id};
      }
      order := Without(order, id);
      RemoveId(old(order), id);
      ElementsOf(order);
    }

    // ==================== Enable / disable ====================

    /** `enable_knowledge_base`. */
    method EnableKnowledgeBase(id: nat, now: int) returns (ok: bool)
      requires Valid()
      modifies kbs.Values
      ensures Valid()
      ensures ok == (id in kbs)
      ensures ok ==> kbs[id].View() == old(kbs[id].View()).(enabled := true, status := Active, updatedAt := now)
      ensures forall k :: k in kbs && k != id ==> unchanged(kbs[k])
    {
      ok := id in kbs;
      if ok {
        kbs[id].Enable(now);
      }
    }

    /** `disable_knowledge_base`. */
    method DisableKnowledgeBase(id: nat, now: int) returns (ok: bool)
      requires Valid()
      modifies kbs.Values
      ensures Valid()
      ensures ok == (id in kbs)
      ensures ok ==> kbs[id].View() == old(kbs[id].View()).(enabled := false, status := Inactive, updatedAt := now)
      ensures forall k :: k in kbs && k != id ==> unchanged(kbs[k])
    {
      ok := id in kbs;
      if ok {
        kbs[id].Disable(now);
      }
    }

    // ==================== Versioning ====================

    /** `create_version`: `None` for an absent id; otherwise as the knowledge
        base's own `create_version`, whose `InvalidVersion` passes through. */
    method CreateVersion(id: nat, documentCount: int, totalSizeBytes: int,
                         metadata: Option<map<string, Value>>, checksum: string, now: int)
      returns (r: Result<Option<KnowledgeVersion>, VersionError>)
      requires Valid()
      modifies kbs.Values
      ensures Valid()
      ensures id !in kbs ==> r == Ok(None)
      ensures id in kbs ==>
                var v := old(kbs[id].View());
                && (r.Err? <==> NextTag(v.currentVersion).None?)
                && (r.Err? ==> kbs[id].View() == v)
                && (r.Ok? ==>
                      && r.value.Some?
                      && Some(r.value.value.version) == NextTag(v.currentVersion)
                      && r.value.value == KnowledgeVersion(r.value.value.version, now, documentCount, totalSizeBytes,
                                                           metadata.GetOr(map[]), Some(checksum))
                      && kbs[id].View() == v.(versions := v.versions + [r.value.value],
                                              currentVersion := r.value.value.version, updatedAt := now))
      ensures id in kbs && old(kbs[id].Valid()) ==> r.Ok? && kbs[id].Valid()
      ensures forall k :: k in kbs && k != id ==> unchanged(kbs[k])
    {
      if id !in kbs {
        return Ok(None);
      }
      var created := kbs[id].CreateVersion(documentCount, totalSizeBytes, metadata, checksum, now);
      match created
      case Ok(nv) => r := Ok(Some(nv));
      case Err(e) => r := Err(e);
    }

    /** `rollback_version`: false for an absent id or a tag not in history. */
    method RollbackVersion(id: nat, target: string, now: int) returns (ok: bool)
      requires Valid()
      modifies kbs.Values
      ensures Valid()
      ensures ok <==> id in kbs && HasVersion(old(kbs[id].versions), target)
      ensures id in kbs ==> kbs[id].View() == if ok then old(kbs[id].View()).(currentVersion := target, updatedAt := now)
                                              else old(kbs[id].View())
      ensures id in kbs && old(kbs[id].Valid()) ==> kbs[id].Valid()
      ensures forall k :: k in kbs && k != id ==> unchanged(kbs[k])
    {
      if id !in kbs {
        return false;
      }
      ok := kbs[id].RollbackVersion(target, now);
    }

    /** `get_versions`: the history, or `[]` for an absent id. */
    function GetVersions(id: nat): (r: seq<KnowledgeVersion>)
      reads this, kbs.Values
      ensures id in kbs ==> r == Table()[id].versions
      ensures id !in kbs ==> r == []
    {
      if id in kbs then kbs[id].versions else []
    }

    // ==================== Connectors ====================

    /** `add_connector`: a new enabled connector under the next unused id, due
        `interval` minutes from now when it auto-syncs; `None` for an absent id. */
    method AddConnector(id: nat, connectorType: SourceType, name: string, config: map<string, Value>,
                        autoSync: bool, syncIntervalMinutes: int, now: int) returns (r: Option<ConnectorConfig>)
      requires Valid()
      modifies this, kbs.Values
      ensures Valid() && kbs == old(kbs) && order == old(order) && metrics == old(metrics)
      ensures r.Some? <==> id in kbs
      ensures r.Some? ==> r.value.connectorId == old(nextConnectorId) && nextConnectorId == old(nextConnectorId) + 1
      ensures r.None? ==> nextConnectorId == old(nextConnectorId)
      ensures old(ConnectorIdsIssued()) ==> ConnectorIdsIssued()
      ensures old(ConnectorIdsIssued()) && r.Some? ==>
                forall i :: 0 <= i < |old(kbs[id].connectors)| ==> old(kbs[id].connectors)[i].connectorId != r.value.connectorId
      ensures r.Some? ==>
                && r.value == NewConnector(r.value.connectorId, connectorType, name, config, autoSync,
                                           syncIntervalMinutes,
                                           if autoSync then Some(now + syncIntervalMinutes) else None)
                && kbs[id].View() == old(kbs[id].View()).(connectors := old(kbs[id].connectors) + [r.value],
                                                          updatedAt := now)
      ensures forall k :: k in kbs && k != id ==> unchanged(kbs[k])
    {
      if id !in kbs {
        return None;
      }
      var c := NewConnector(nextConnectorId, connectorType, name, config, autoSync, syncIntervalMinutes,
                            if autoSync then Some(now + syncIntervalMinutes) else None);
      nextConnectorId := nextConnectorId + 1;
      kbs[id].AddConnector(c, now);
      r := Some(c);
    }

    /** `remove_connector`: false for an absent id; otherwise as the knowledge
        base's own `remove_connector`. */
    method RemoveConnector(id: nat, connectorId: nat, now: int) returns (ok: bool)
      requires Valid()
      modifies kbs.Values
      ensures Valid()
      ensures id !in kbs ==> !ok
      ensures id in kbs ==>
                var v := old(kbs[id].View());
                && (ok <==> exists i :: 0 <= i < |v.connectors| && v.connectors[i].connectorId == connectorId)
                && kbs[id].View() == v.(connectors := WithoutConnector(v.connectors, connectorId),
                                        updatedAt := if ok then now else v.updatedAt)
      ensures forall k :: k in kbs && k != id ==> unchanged(kbs[k])
    {
      if id !in kbs {
        return false;
      }
      ok := kbs[id].RemoveConnector(connectorId, now);
    }

    /** `enable_connector`. */
    method EnableConnector(id: nat, connectorId: nat, now: int) returns (ok: bool)
      requires Valid()
      modifies kbs.Values
      ensures Valid()
      ensures id !in kbs ==> !ok
      ensures id in kbs ==> ConnectorFlagSet(old(kbs[id].View()), kbs[id].View(), connectorId, true, now, ok)
      ensures forall k :: k in kbs && k != id ==> unchanged(kbs[k])
    {
      ok := SetConnectorEnabled(id, connectorId, true, now);
    }

    /** `disable_connector`. */
    method DisableConnector(id: nat, connectorId: nat, now: int) returns (ok: bool)
      requires Valid()
      modifies kbs.Values
      ensures Valid()
      ensures id !in kbs ==> !ok
      ensures id in kbs ==> ConnectorFlagSet(old(kbs[id].View()), kbs[id].View(), connectorId, false, now, ok)
      ensures forall k :: k in kbs && k != id ==> unchanged(kbs[k])
    {
      ok := SetConnectorEnabled(id, connectorId, false, now);
    }

    /** The loop both connector switches run: the first connector with the id
        gets the flag; false when the id or the connector is absent. */
    method SetConnectorEnabled(id: nat, connectorId: nat, flag: bool, now: int) returns (ok: bool)
      requires Valid()
      modifies kbs.Values
      ensures Valid()
      ensures id !in kbs ==> !ok
      ensures id in kbs ==> ConnectorFlagSet(old(kbs[id].View()), kbs[id].View(), connectorId, flag, now, ok)
      ensures forall k :: k in kbs && k != id ==> unchanged(kbs[k])
    {
      if id !in kbs {
        return false;
      }
      var kb := kbs[id];
      var cs := kb.connectors;
      var i := 0;
      while i < |cs|
        invariant 0 <= i <= |cs|
        invariant forall j :: 0 <= j < i ==> cs[j].connectorId != connectorId
      {
        if cs[i].connectorId == connectorId {
          kb.connectors := cs[i := cs[i].(enabled := flag)];
          kb.updatedAt := now;
          return true;
        }
        i := i + 1;
      }
      return false;
    }

    /** `trigger_sync`: false for an absent id and when no connector is
        selected; the status always ends ACTIVE; the selected connectors get
        their sync bookkeeping and all others are left as they were. */
    method TriggerSync(id: nat, connectorId: Option<nat>, now: int) returns (ok: bool)
      requires Valid()
      modifies kbs.Values
      ensures Valid()
      ensures id !in kbs ==> !ok
      ensures id in kbs ==>
                var v := old(kbs[id].View());
                && ok == AnySelected(v.connectors, connectorId)
                && kbs[id].View() == v.(status := Active, connectors := SyncAll(v.connectors, connectorId, now),
                                        updatedAt := if ok then now else v.updatedAt)
      ensures forall k :: k in kbs && k != id ==> unchanged(kbs[k])
    {
      if id !in kbs {
        return false;
      }
      var kb := kbs[id];
      kb.status := Syncing;
      var cs := kb.connectors;
      var any := SelectForSync(cs, connectorId, now);
      if !any {
        kb.status := Active;
        return false;
      }
      var synced := SyncConnectors(cs, connectorId, now);
      kb.connectors := synced;
      kb.status := Active;
      kb.updatedAt := now;
      return true;
    }

    /** `get_connectors_due_for_sync`: the (kb id, connector id) pairs of the
        due connectors of enabled knowledge bases, in table order. */
    method GetConnectorsDueForSync(now: int) returns (due: seq<(nat, nat)>)
      requires Valid()
      ensures due == DueAll(Views(), now)
    {
      var views := Views();
      due := [];
      var k := 0;
      while k < |views|
        invariant 0 <= k <= |views|
        invariant due == DueAll(views[..k], now)
      {
        var inKb := ScanKb(views[k], now);
        due := due + inKb;
        DueAllSnoc(views, k, now);
        k := k + 1;
      }
      assert views[..|views|] == views;
    }

    // ==================== Monitoring ====================

    /** `record_query`: one more query on a stored knowledge base; nothing for
        an absent id. The success flag and latency are accepted and unused. */
    method RecordQuery(id: nat, success: bool, latencyMs: nat, now: int)
      requires Valid()
      modifies kbs.Values
      ensures Valid()
      ensures id in kbs ==> kbs[id].View() == old(kbs[id].View()).(queryCount := old(kbs[id].queryCount) + 1,
                                                                   lastQueriedAt := Some(now))
      ensures forall k :: k in kbs && k != id ==> unchanged(kbs[k])
    {
      if id !in kbs {
        return;
      }
      kbs[id].RecordQuery(now);
    }

    /** `get_metrics`: the latest stored snapshot inside the bounds given. */
    function GetMetrics(id: nat, periodStart: Option<int>, periodEnd: Option<int>): (r: Option<UsageMetrics>)
      reads this
      ensures r.Some? <==> id in metrics && exists k :: 0 <= k < |metrics[id]| && InPeriod(metrics[id][k], periodStart, periodEnd)
      ensures r.Some? ==> exists k :: 0 <= k < |metrics[id]| && r.value == metrics[id][k]
                                      && InPeriod(metrics[id][k], periodStart, periodEnd)
                                      && forall j :: k < j < |metrics[id]| ==> !InPeriod(metrics[id][j], periodStart, periodEnd)
    {
      if id !in metrics then None else LatestInPeriod(metrics[id], periodStart, periodEnd)
    }

    /** `get_knowledge_bases_for_agent`: the enabled knowledge bases listing
        the agent key, in table order. */
    function GetKnowledgeBasesForAgent(agentKey: string): (r: seq<KBView>)
      reads this, kbs.Values
      requires Valid()
      ensures forall i :: 0 <= i < |r| ==> r[i] in Views() && r[i].enabled && agentKey in r[i].agentKeys
      ensures forall id :: id in kbs && Table()[id].enabled && agentKey in Table()[id].agentKeys ==> Table()[id] in r
      ensures Seqs.IsSubsequence(r, Views())
      ensures agentKey != "" ==> r == ListKnowledgeBases(Some(agentKey), true)
    {
      var all := Views();
      var p := (v: KBView) => agentKey in v.agentKeys && v.enabled;
      ViewsCoverTable();
      if agentKey != "" then
        Seqs.FilterCompose(all, (v: KBView) => agentKey in v.agentKeys, (v: KBView) => v.enabled, p);
        Seqs.Filter(all, p)
      else
        Seqs.Filter(all, p)
    }

    // ==================== Proof helpers ====================

    lemma ViewsCoverTable()
      requires Valid()
      ensures forall id :: id in kbs ==> Table()[id] in Views()
    {
      ElementsOf(order);
      forall id | id in kbs ensures Table()[id] in Views() {
        var i :| 0 <= i < |order| && order[i] == id;
        assert Views()[i] == Table()[id];
      }
    }
  }

  // ---------------------------------------------------------------------------
  // Lemmas about the pure parts
  // ---------------------------------------------------------------------------

  /** The connector list after a sync: every connector passed through
      `SyncedConnector`, in order. */
  function SyncAll(cs: seq<ConnectorConfig>, connectorId: Option<nat>, now: int): (r: seq<ConnectorConfig>)
    ensures |r| == |cs|
    ensures forall i :: 0 <= i < |cs| ==> r[i] == SyncedConnector(cs[i], connectorId, now)
  {
    seq(|cs|, i requires 0 <= i < |cs| => SyncedConnector(cs[i], connectorId, now))
  }

  /** The connector-switch outcome on one knowledge base: true iff it has a
      connector with the id; then only the first such connector changes, to
      `flag`, and `updated_at` is stamped; otherwise nothing changes. */
  ghost predicate ConnectorFlagSet(before: KBView, after: KBView, connectorId: nat, flag: bool, now: int, ok: bool)
  {
    var cs := before.connectors;
    && (ok <==> exists i :: 0 <= i < |cs| && cs[i].connectorId == connectorId)
    && (!ok ==> after == before)
    && (ok ==> exists i :: && 0 <= i < |cs| && cs[i].connectorId == connectorId
                           && (forall j :: 0 <= j < i ==> cs[j].connectorId != connectorId)
                           && after == before.(connectors := cs[i := cs[i].(enabled := flag)], updatedAt := now))
  }

  /** The values under `ids`, in that order. */
  function ViewsIn(t: map<nat, KBView>, ids: seq<nat>): (r: seq<KBView>)
    requires forall i :: 0 <= i < |ids| ==> ids[i] in t
    ensures |r| == |ids| && forall i :: 0 <= i < |ids| ==> r[i] == t[ids[i]]
  {
    seq(|ids|, i requires 0 <= i < |ids| && ids[i] in t => t[ids[i]])
  }

  /** The last snapshot inside the given bounds (the source filters on the
      two bounds one after the other; a single filter on both is the same). */
  function LatestInPeriod(ms: seq<UsageMetrics>, periodStart: Option<int>, periodEnd: Option<int>): (r: Option<UsageMetrics>)
    ensures r.Some? <==> exists k :: 0 <= k < |ms| && InPeriod(ms[k], periodStart, periodEnd)
    ensures r.Some? ==> exists k :: 0 <= k < |ms| && r.value == ms[k] && InPeriod(ms[k], periodStart, periodEnd)
                                    && forall j :: k < j < |ms| ==> !InPeriod(ms[j], periodStart, periodEnd)
  {
    var p := (m: UsageMetrics) => InPeriod(m, periodStart, periodEnd);
    var inside := Seqs.Filter(ms, p);
    if inside == [] then
      None
    else
      Seqs.FilterLast(ms, p);
      var k := Seqs.LastIndex(ms, p);
      assert p(ms[k]);
      Some(inside[|inside| - 1])
  }

  /** Some connector is selected for the sync. */
  predicate AnySelected(cs: seq<ConnectorConfig>, connectorId: Option<nat>) {
    exists i :: 0 <= i < |cs| && SelectedForSync(cs[i], connectorId)
  }

  /** The selection `trigger_sync` computes is empty iff no connector is
      selected, and then the sync leaves every connector as it was. */
  lemma SelectionEmpty(cs: seq<ConnectorConfig>, connectorId: Option<nat>, now: int)
    ensures Seqs.Filter(cs, (c: ConnectorConfig) => SelectedForSync(c, connectorId)) == [] <==> !AnySelected(cs, connectorId)
    ensures !AnySelected(cs, connectorId) ==> SyncAll(cs, connectorId, now) == cs
  {
    var toSync := Seqs.Filter(cs, (c: ConnectorConfig) => SelectedForSync(c, connectorId));
    if toSync != [] {
      assert toSync[0] in cs && SelectedForSync(toSync[0], connectorId);
    }
  }

  lemma DueAllSnoc(vs: seq<KBView>, k: nat, now: int)
    requires k < |vs|
    ensures DueAll(vs[..k + 1], now) == DueAll(vs[..k], now) + DueInKb(vs[k], now)
  {
    assert vs[..k + 1][..k] == vs[..k];
  }

  lemma ListFilters(all: seq<KBView>, agentKey: Option<string>, enabledOnly: bool,
                    byAgent: seq<KBView>, kept: seq<KBView>)
    requires byAgent == if agentKey.Some? && agentKey.value != "" then
                          Seqs.Filter(all, (v: KBView) => agentKey.value in v.agentKeys) else all
    requires kept == if enabledOnly then Seqs.Filter(byAgent, (v: KBView) => v.enabled) else byAgent
    ensures forall i :: 0 <= i < |kept| ==> kept[i] in all && ListedBy(kept[i], agentKey, enabledOnly)
    ensures forall i :: 0 <= i < |all| && ListedBy(all[i], agentKey, enabledOnly) ==> all[i] in kept
    ensures Seqs.IsSubsequence(kept, all)
  {
    var p := (v: KBView) => ListedBy(v, agentKey, enabledOnly);
    if agentKey.Some? && agentKey.value != "" {
      if enabledOnly {
        Seqs.FilterCompose(all, (v: KBView) => agentKey.value in v.agentKeys, (v: KBView) => v.enabled, p);
      } else {
        Seqs.FilterCompose(all, (v: KBView) => agentKey.value in v.agentKeys, (v: KBView) => true, p);
        Seqs.FilterAll(byAgent, (v: KBView) => true);
      }
    } else {
      if enabledOnly {
        Seqs.FilterCompose(all, (v: KBView) => true, (v: KBView) => v.enabled, p);
        Seqs.FilterAll(all, (v: KBView) => true);
      } else {
        Seqs.FilterAll(all, p);
      }
    }
    assert kept == Seqs.Filter(all, p);
  }

  lemma DueConnectorsSnoc(kbId: nat, cs: seq<ConnectorConfig>, j: nat, now: int)
    requires j < |cs|
    ensures DueConnectors(kbId, cs[..j + 1], now)
            == DueConnectors(kbId, cs[..j], now) + (if ConnectorDue(cs[j], now) then [(kbId, cs[j].connectorId)] else [])
  {
    DueConnectorsAppend(kbId, cs[..j], [cs[j]], now);
    assert cs[..j + 1] == cs[..j] + [cs[j]];
  }

  lemma {:induction false} DueConnectorsAppend(kbId: nat, a: seq<ConnectorConfig>, b: seq<ConnectorConfig>, now: int)
    ensures DueConnectors(kbId, a + b, now) == DueConnectors(kbId, a, now) + DueConnectors(kbId, b, now)
    decreases |a|
  {
    if a == [] {
      assert a + b == b;
    } else {
      assert (a + b)[1..] == a[1..] + b;
      DueConnectorsAppend(kbId, a[1..], b, now);
    }
  }
}
