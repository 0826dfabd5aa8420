/**
 * The provider and model catalogue (backend/internal/handlers/providers.go and
 * backend/internal/handlers/models.go). The `providers` and `models` tables are
 * maps from row id to row; ids come from an AUTOINCREMENT counter, so a new row
 * always gets an id above every id ever used.
 */
module Catalog {
  import opened Wrappers
  import opened Text
  import opened Json
  import opened Sql
  import Upstream

  datatype Provider = Provider(
    name: string,
    baseUrl: string,
    apiKey: string,
    modelPrefix: string,
    providerType: string,
    vertexProject: string,
    vertexLocation: string,
    extraHeaders: string,
    proxyUrl: string,
    isActive: bool,
    updatedAt: int)

  /** The CreateProvider body; `name` and `api_key` are required (non-empty). */
  datatype ProviderCreate = ProviderCreate(
    name: string,
    baseUrl: string,
    apiKey: string,
    modelPrefix: string,
    providerType: string,
    vertexProject: string,
    vertexLocation: string,
    extraHeaders: string,
    proxyUrl: string)

  /** The UpdateProvider body: every field optional. */
  datatype ProviderUpdate = ProviderUpdate(
    name: Option<string>,
    baseUrl: Option<string>,
    apiKey: Option<string>,
    modelPrefix: Option<string>,
    providerType: Option<string>,
    vertexProject: Option<string>,
    vertexLocation: Option<string>,
    extraHeaders: Option<string>,
    proxyUrl: Option<string>,
    isActive: Option<bool>)

  /** A `models` row. `customName` is the custom_name flag (NULL reads as false). */
  datatype ModelRow = ModelRow(
    providerId: int,
    originalId: string,
    displayName: string,
    isActive: bool,
    customName: bool)

  datatype ModelUpdate = ModelUpdate(displayName: Option<string>, isActive: Option<bool>)

  /** One entry of the ListAllModels answer (a row joined with its provider's name). */
  datatype ModelView = ModelView(
    providerId: int,
    providerName: string,
    originalId: string,
    displayName: string,
    isActive: bool,
    customName: bool)

  // ---------------------------------------------------------------------------
  // Display names

  /** The derived name of a model: `prefix/original`, or `original` without a prefix. */
  function DisplayName(prefix: string, originalId: string): (d: string)
    ensures prefix == "" ==> d == originalId
    ensures prefix != "" ==> |d| == |prefix| + 1 + |originalId| && d[|prefix|] == '/'
  {
    if prefix == "" then originalId else prefix + "/" + originalId
  }

  /** A derived name ends with the original id and, under a prefix, starts with `prefix/`. */
  lemma DisplayNameShape(prefix: string, originalId: string)
    ensures HasSuffix(DisplayName(prefix, originalId), originalId)
    ensures prefix == "" ==> DisplayName(prefix, originalId) == originalId
    ensures prefix != "" ==>
      var d := DisplayName(prefix, originalId);
      HasPrefix(d, prefix + "/") && |d| == |prefix| + 1 + |originalId|
  {
    var d := DisplayName(prefix, originalId);
    if prefix != "" {
      assert d[..|prefix| + 1] == prefix + "/";
    }
    assert d[|d| - |originalId|..] == originalId;
  }

  /** Recovers the original id from a derived display name. */
  function OriginalFromDisplay(prefix: string, d: string): (o: Option<string>)
    ensures o.Some? ==> HasSuffix(d, o.value)
    ensures prefix == "" ==> o == Some(d)
  {
    if prefix == "" then Some(d)
    else if HasPrefix(d, prefix + "/") then Some(d[|prefix| + 1..])
    else None
  }

  lemma DisplayNameRoundTrip(prefix: string, originalId: string)
    ensures OriginalFromDisplay(prefix, DisplayName(prefix, originalId)) == Some(originalId)
  {
    if prefix != "" {
      var d := prefix + "/" + originalId;
      assert d[|prefix| + 1..] == originalId;
    }
  }

  /** Under one prefix, different models never share a derived name. */
  lemma DisplayNameInjective(prefix: string, a: string, b: string)
    requires DisplayName(prefix, a) == DisplayName(prefix, b)
    ensures a == b
  {
    DisplayNameRoundTrip(prefix, a);
    DisplayNameRoundTrip(prefix, b);
  }

  // ---------------------------------------------------------------------------
  // Provider rows

  predicate ValidCreate(req: ProviderCreate) {
    req.name != "" && req.apiKey != ""
  }

  /** The inserted row: "standard" and "global" replace an empty type and location. */
  function NewProvider(req: ProviderCreate, now: int): (p: Provider)
    ensures p.providerType != "" && p.vertexLocation != "" && p.isActive
    ensures req.providerType != "" ==> p.providerType == req.providerType
    ensures req.providerType == "" ==> p.providerType == "standard"
    ensures req.vertexLocation != "" ==> p.vertexLocation == req.vertexLocation
    ensures req.vertexLocation == "" ==> p.vertexLocation == "global"
    ensures p.name == req.name && p.apiKey == req.apiKey && p.baseUrl == req.baseUrl
    ensures p.modelPrefix == req.modelPrefix && p.proxyUrl == req.proxyUrl
  {
    Provider(req.name, req.baseUrl, req.apiKey, req.modelPrefix,
             if req.providerType == "" then "standard" else req.providerType,
             req.vertexProject,
             if req.vertexLocation == "" then "global" else req.vertexLocation,
             req.extraHeaders, req.proxyUrl, true, now)
  }

  /** Whether the request carries a field to write (an empty api_key does not count). */
  predicate HasFields(u: ProviderUpdate) {
    u.name.Some? || u.baseUrl.Some? || (u.apiKey.Some? && u.apiKey.value != "") ||
    u.modelPrefix.Some? || u.providerType.Some? || u.vertexProject.Some? ||
    u.vertexLocation.Some? || u.extraHeaders.Some? || u.proxyUrl.Some? || u.isActive.Some?
  }

  /** The partial update UpdateProvider promises: present fields only, updated_at iff any. */
  function ApplyProviderUpdate(p: Provider, u: ProviderUpdate, now: int): (q: Provider)
    ensures q.name == u.name.GetOr(p.name) && q.baseUrl == u.baseUrl.GetOr(p.baseUrl)
    ensures q.apiKey == (if u.apiKey.Some? && u.apiKey.value != "" then u.apiKey.value else p.apiKey)
    ensures q.modelPrefix == u.modelPrefix.GetOr(p.modelPrefix)
    ensures q.providerType == u.providerType.GetOr(p.providerType)
    ensures q.vertexProject == u.vertexProject.GetOr(p.vertexProject)
    ensures q.vertexLocation == u.vertexLocation.GetOr(p.vertexLocation)
    ensures q.extraHeaders == u.extraHeaders.GetOr(p.extraHeaders)
    ensures q.proxyUrl == u.proxyUrl.GetOr(p.proxyUrl)
    ensures q.isActive == u.isActive.GetOr(p.isActive)
    ensures q.updatedAt == (if HasFields(u) then now else p.updatedAt)
    ensures !HasFields(u) ==> q == p
  {
    Provider(
      u.name.GetOr(p.name),
      u.baseUrl.GetOr(p.baseUrl),
      if u.apiKey.Some? && u.apiKey.value != "" then u.apiKey.value else p.apiKey,
      u.modelPrefix.GetOr(p.modelPrefix),
      u.providerType.GetOr(p.providerType),
      u.vertexProject.GetOr(p.vertexProject),
      u.vertexLocation.GetOr(p.vertexLocation),
      u.extraHeaders.GetOr(p.extraHeaders),
      u.proxyUrl.GetOr(p.proxyUrl),
      u.isActive.GetOr(p.isActive),
      if HasFields(u) then now else p.updatedAt)
  }

  /** The columns UpdateProvider may write. */
  datatype ProviderColumn =
    | NameCol | BaseUrlCol | ApiKeyCol | ModelPrefixCol | ProviderTypeCol | VertexProjectCol
    | VertexLocationCol | ExtraHeadersCol | ProxyUrlCol | IsActiveCol | UpdatedAtCol

  function ProviderColumnName(c: ProviderColumn): string {
    match c
    case NameCol => "name"
    case BaseUrlCol => "base_url"
    case ApiKeyCol => "api_key"
    case ModelPrefixCol => "model_prefix"
    case ProviderTypeCol => "provider_type"
    case VertexProjectCol => "vertex_project"
    case VertexLocationCol => "vertex_location"
    case ExtraHeadersCol => "extra_headers"
    case ProxyUrlCol => "proxy_url"
    case IsActiveCol => "is_active"
    case UpdatedAtCol => "updated_at"
  }

  function TextSet(column: ProviderColumn, v: Option<string>): seq<Assignment<ProviderColumn>> {
    if v.Some? then [SetText(column, v.value)] else []
  }

  function ApiKeySet(v: Option<string>): seq<Assignment<ProviderColumn>> {
    if v.Some? && v.value != "" then [SetText(ApiKeyCol, v.value)] else []
  }

  function ActiveSet(v: Option<bool>): seq<Assignment<ProviderColumn>> {
    if v.Some? then [SetInt(IsActiveCol, if v.value then 1 else 0)] else []
  }

  /** The first five checks of the handler: name, base_url, api_key, model_prefix, provider_type. */
  function LeadingAssignments(u: ProviderUpdate): (sets: seq<Assignment<ProviderColumn>>)
    ensures sets == [] <==>
      !(u.name.Some? || u.baseUrl.Some? || (u.apiKey.Some? && u.apiKey.value != "") ||
        u.modelPrefix.Some? || u.providerType.Some?)
    ensures forall i :: 0 <= i < |sets| ==> sets[i].SetText?
  {
    TextSet(NameCol, u.name) + TextSet(BaseUrlCol, u.baseUrl) + ApiKeySet(u.apiKey) +
    TextSet(ModelPrefixCol, u.modelPrefix) + TextSet(ProviderTypeCol, u.providerType)
  }

  /** The last five: vertex_project, vertex_location, extra_headers, proxy_url, is_active. */
  function TrailingAssignments(u: ProviderUpdate): (sets: seq<Assignment<ProviderColumn>>)
    ensures sets == [] <==>
      !(u.vertexProject.Some? || u.vertexLocation.Some? || u.extraHeaders.Some? || u.proxyUrl.Some? ||
        u.isActive.Some?)
    ensures forall i :: 0 <= i < |sets| ==> !sets[i].SetCurrentTimestamp?
  {
    TextSet(VertexProjectCol, u.vertexProject) + TextSet(VertexLocationCol, u.vertexLocation) +
    TextSet(ExtraHeadersCol, u.extraHeaders) + TextSet(ProxyUrlCol, u.proxyUrl) + ActiveSet(u.isActive)
  }

  /** The `updates`/`args` the handler appends, one per present field, in field order. */
  function ProviderFieldAssignments(u: ProviderUpdate): (sets: seq<Assignment<ProviderColumn>>)
    ensures sets == [] <==> !HasFields(u)
    ensures forall i :: 0 <= i < |sets| ==> !sets[i].SetCurrentTimestamp?
  {
    LeadingAssignments(u) + TrailingAssignments(u)
  }

  /** The full SET list: the fields, then `updated_at = CURRENT_TIMESTAMP` when there are any. */
  function ProviderAssignments(u: ProviderUpdate): (sets: seq<Assignment<ProviderColumn>>)
    ensures sets == [] <==> !HasFields(u)
    ensures sets != [] ==> sets[|sets| - 1] == SetCurrentTimestamp(UpdatedAtCol)
    ensures |Args(sets)| + 1 == |sets| || sets == []
  {
    var fields := ProviderFieldAssignments(u);
    if fields == [] then []
    else
      ArgsAppendStamp(fields);
      fields + [SetCurrentTimestamp(UpdatedAtCol)]
  }

  lemma {:induction false} ArgsAppendStamp(fields: seq<Assignment<ProviderColumn>>)
    requires forall i :: 0 <= i < |fields| ==> !fields[i].SetCurrentTimestamp?
    ensures |Args(fields + [SetCurrentTimestamp(UpdatedAtCol)])| == |fields|
  {
    if fields != [] {
      assert (fields + [SetCurrentTimestamp(UpdatedAtCol)])[1..] == fields[1..] + [SetCurrentTimestamp(UpdatedAtCol)];
      ArgsAppendStamp(fields[1..]);
    } else {
      assert Args([SetCurrentTimestamp(UpdatedAtCol)]) == [] + Args<ProviderColumn>([]);
    }
  }

  /** How SQLite applies one SET clause to a providers row. */
  function SetProviderColumn(now: int, p: Provider, a: Assignment<ProviderColumn>): Provider {
    match a
    case SetText(col, s) =>
      (match col
       case NameCol => p.(name := s)
       case BaseUrlCol => p.(baseUrl := s)
       case ApiKeyCol => p.(apiKey := s)
       case ModelPrefixCol => p.(modelPrefix := s)
       case ProviderTypeCol => p.(providerType := s)
       case VertexProjectCol => p.(vertexProject := s)
       case VertexLocationCol => p.(vertexLocation := s)
       case ExtraHeadersCol => p.(extraHeaders := s)
       case ProxyUrlCol => p.(proxyUrl := s)
       case _ => p)
    case SetInt(col, n) => if col == IsActiveCol then p.(isActive := n == 1) else p
    case SetCurrentTimestamp(col) => if col == UpdatedAtCol then p.(updatedAt := now) else p
  }

  function ApplyProviderAssignment(now: int): (Provider, Assignment<ProviderColumn>) -> Provider {
    (p: Provider, a: Assignment<ProviderColumn>) => SetProviderColumn(now, p, a)
  }

  lemma ApplyOptional(p: Provider, sets: seq<Assignment<ProviderColumn>>, now: int)
    requires |sets| <= 1
    ensures ApplyAll(p, sets, ApplyProviderAssignment(now)) ==
      if sets == [] then p else SetProviderColumn(now, p, sets[0])
  {
    if sets != [] {
      assert sets[1..] == [];
    }
  }

  /** The first five clauses write the first five columns, each only when given. */
  lemma LeadingColumns(p: Provider, u: ProviderUpdate, now: int)
    ensures ApplyAll(p, LeadingAssignments(u), ApplyProviderAssignment(now)) ==
      p.(name := u.name.GetOr(p.name), baseUrl := u.baseUrl.GetOr(p.baseUrl),
         apiKey := if u.apiKey.Some? && u.apiKey.value != "" then u.apiKey.value else p.apiKey,
         modelPrefix := u.modelPrefix.GetOr(p.modelPrefix), providerType := u.providerType.GetOr(p.providerType))
  {
    var f := ApplyProviderAssignment(now);
    var a1, a2, a3 := TextSet(NameCol, u.name), TextSet(BaseUrlCol, u.baseUrl), ApiKeySet(u.apiKey);
    var a4, a5 := TextSet(ModelPrefixCol, u.modelPrefix), TextSet(ProviderTypeCol, u.providerType);
    var s2 := a1 + a2;
    var s3 := s2 + a3;
    var s4 := s3 + a4;
    var p1 := ApplyAll(p, a1, f);
    assert p1 == p.(name := u.name.GetOr(p.name)) by { ApplyOptional(p, a1, now); }
    var p2 := ApplyAll(p, s2, f);
    assert p2 == p1.(baseUrl := u.baseUrl.GetOr(p.baseUrl)) by {
      ApplyAllAppend(p, a1, a2, f);
      ApplyOptional(p1, a2, now);
    }
    var p3 := ApplyAll(p, s3, f);
    assert p3 == p2.(apiKey := if u.apiKey.Some? && u.apiKey.value != "" then u.apiKey.value else p.apiKey) by {
      ApplyAllAppend(p, s2, a3, f);
      ApplyOptional(p2, a3, now);
    }
    var p4 := ApplyAll(p, s4, f);
    assert p4 == p3.(modelPrefix := u.modelPrefix.GetOr(p.modelPrefix)) by {
      ApplyAllAppend(p, s3, a4, f);
      ApplyOptional(p3, a4, now);
    }
    ApplyAllAppend(p, s4, a5, f);
    ApplyOptional(p4, a5, now);
  }

  /** The last five clauses write the last five data columns, each only when given. */
  lemma TrailingColumns(p: Provider, u: ProviderUpdate, now: int)
    ensures ApplyAll(p, TrailingAssignments(u), ApplyProviderAssignment(now)) ==
      p.(vertexProject := u.vertexProject.GetOr(p.vertexProject),
         vertexLocation := u.vertexLocation.GetOr(p.vertexLocation),
         extraHeaders := u.extraHeaders.GetOr(p.extraHeaders), proxyUrl := u.proxyUrl.GetOr(p.proxyUrl),
         isActive := u.isActive.GetOr(p.isActive))
  {
    var f := ApplyProviderAssignment(now);
    var a1, a2 := TextSet(VertexProjectCol, u.vertexProject), TextSet(VertexLocationCol, u.vertexLocation);
    var a3, a4 := TextSet(ExtraHeadersCol, u.extraHeaders), TextSet(ProxyUrlCol, u.proxyUrl);
    var a5 := ActiveSet(u.isActive);
    var s2 := a1 + a2;
    var s3 := s2 + a3;
    var s4 := s3 + a4;
    var p1 := ApplyAll(p, a1, f);
    assert p1 == p.(vertexProject := u.vertexProject.GetOr(p.vertexProject)) by { ApplyOptional(p, a1, now); }
    var p2 := ApplyAll(p, s2, f);
    assert p2 == p1.(vertexLocation := u.vertexLocation.GetOr(p.vertexLocation)) by {
      ApplyAllAppend(p, a1, a2, f);
      ApplyOptional(p1, a2, now);
    }
    var p3 := ApplyAll(p, s3, f);
    assert p3 == p2.(extraHeaders := u.extraHeaders.GetOr(p.extraHeaders)) by {
      ApplyAllAppend(p, s2, a3, f);
      ApplyOptional(p2, a3, now);
    }
    var p4 := ApplyAll(p, s4, f);
    assert p4 == p3.(proxyUrl := u.proxyUrl.GetOr(p.proxyUrl)) by {
      ApplyAllAppend(p, s3, a4, f);
      ApplyOptional(p3, a4, now);
    }
    ApplyAllAppend(p, s4, a5, f);
    ApplyOptional(p4, a5, now);
  }

  /** The statement UpdateProvider builds performs exactly the promised partial update. */
  lemma ProviderStatementImplementsUpdate(p: Provider, u: ProviderUpdate, now: int)
    ensures ApplyAll(p, ProviderAssignments(u), ApplyProviderAssignment(now)) == ApplyProviderUpdate(p, u, now)
  {
    var f := ApplyProviderAssignment(now);
    var lead, trail := LeadingAssignments(u), TrailingAssignments(u);
    var fields := lead + trail;
    if fields != [] {
      var mid := ApplyAll(p, lead, f);
      LeadingColumns(p, u, now);
      ApplyAllAppend(p, lead, trail, f);
      TrailingColumns(mid, u, now);
      var stamp := [SetCurrentTimestamp(UpdatedAtCol)];
      ApplyAllAppend(p, fields, stamp, f);
      ApplyOptional(ApplyAll(p, fields, f), stamp, now);
    }
  }

  /** The client configuration the handlers derive from a provider row. */
  function ProviderConfigOf(p: Provider, decodeHeaders: string -> Option<map<string, string>>)
    : (cfg: Upstream.ProviderConfig)
    ensures cfg.baseUrl == p.baseUrl && cfg.apiKey == p.apiKey && cfg.proxyUrl == p.proxyUrl
    ensures cfg.providerType == p.providerType
    ensures p.extraHeaders == "" ==> cfg.extraHeaders == map[]
  {
    Upstream.ProviderConfig(
      p.baseUrl, p.apiKey, p.providerType, "", "",
      if p.extraHeaders == "" then map[] else decodeHeaders(p.extraHeaders).GetOr(map[]),
      p.proxyUrl)
  }

  // ---------------------------------------------------------------------------
  // Model-table transformations (specifications of the handlers below)

  /** A row with its derived name under `prefix`; nothing else about it changes. */
  function Renamed(row: ModelRow, prefix: string): (r: ModelRow)
    ensures r.displayName == DisplayName(prefix, row.originalId)
    ensures r.(displayName := row.displayName) == row
  {
    row.(displayName := DisplayName(prefix, row.originalId))
  }

  /** Every model of provider `pid` renamed under `prefix`; custom names are not spared. */
  function ResyncProvider(m: map<int, ModelRow>, pid: int, prefix: string): (r: map<int, ModelRow>)
    ensures r.Keys == m.Keys
    ensures forall k :: k in m && m[k].providerId != pid ==> r[k] == m[k]
    ensures forall k :: k in m && m[k].providerId == pid ==> r[k] == Renamed(m[k], prefix)
  {
    map k | k in m :: if m[k].providerId == pid then Renamed(m[k], prefix) else m[k]
  }

  function WithoutProvider(m: map<int, ModelRow>, pid: int): (r: map<int, ModelRow>)
    ensures forall k :: k in r <==> k in m && m[k].providerId != pid
    ensures forall k :: k in r ==> r[k] == m[k]
  {
    map k | k in m && m[k].providerId != pid :: m[k]
  }

  /** The prefix ListAllModels reads for a provider id; a missing provider reads as none. */
  function PrefixOf(providers: map<int, Provider>, pid: int): string {
    if pid in providers then providers[pid].modelPrefix else ""
  }

  /** ListAllModels' UPDATE: rows without a custom name get their derived name. */
  function ResyncAll(providers: map<int, Provider>, m: map<int, ModelRow>): (r: map<int, ModelRow>)
    ensures r.Keys == m.Keys
    ensures forall k :: k in m && m[k].customName ==> r[k] == m[k]
    ensures forall k :: k in m && !m[k].customName ==>
      r[k] == m[k].(displayName := DisplayName(PrefixOf(providers, m[k].providerId), m[k].originalId))
  {
    map k | k in m :: if m[k].customName then m[k]
                      else m[k].(displayName := DisplayName(PrefixOf(providers, m[k].providerId), m[k].originalId))
  }

  lemma ResyncAllIdempotent(providers: map<int, Provider>, m: map<int, ModelRow>)
    ensures ResyncAll(providers, ResyncAll(providers, m)) == ResyncAll(providers, m)
  {
  }

  /** UpdateModel: a non-empty name is stored and marked custom; is_active independently. */
  function ApplyModelUpdate(row: ModelRow, u: ModelUpdate): (r: ModelRow)
    ensures r.providerId == row.providerId && r.originalId == row.originalId
    ensures u.displayName.Some? && u.displayName.value != "" ==>
      r.displayName == u.displayName.value && r.customName
    ensures !(u.displayName.Some? && u.displayName.value != "") ==>
      r.displayName == row.displayName && r.customName == row.customName
    ensures r.isActive == u.isActive.GetOr(row.isActive)
  {
    var named := if u.displayName.Some? && u.displayName.value != ""
                 then row.(displayName := u.displayName.value, customName := true)
                 else row;
    if u.isActive.Some? then named.(isActive := u.isActive.value) else named
  }

  /** A name set through UpdateModel survives any later ListAllModels. */
  lemma CustomNameSticky(providers: map<int, Provider>, m: map<int, ModelRow>, k: int, u: ModelUpdate)
    requires k in m && u.displayName.Some? && u.displayName.value != ""
    ensures ResyncAll(providers, m[k := ApplyModelUpdate(m[k], u)])[k].displayName == u.displayName.value
  {
  }

  /** The row ResetModelDisplayName leaves behind. */
  function ResetRow(row: ModelRow, prefix: string): (r: ModelRow)
    ensures !r.customName && r.displayName == DisplayName(prefix, row.originalId)
    ensures r.(displayName := row.displayName, customName := row.customName) == row
  {
    row.(displayName := DisplayName(prefix, row.originalId), customName := false)
  }

  /** After a reset, ListAllModels' resync leaves the row as it is. */
  lemma ResetAgreesWithResync(providers: map<int, Provider>, m: map<int, ModelRow>, k: int)
    requires k in m && m[k].providerId in providers
    ensures var m' := m[k := ResetRow(m[k], providers[m[k].providerId].modelPrefix)];
            ResyncAll(providers, m')[k] == m'[k]
  {
  }

  /** BatchToggleModels' UPDATE ... WHERE id IN (...). */
  function ToggleAll(m: map<int, ModelRow>, ids: seq<int>, active: bool): (r: map<int, ModelRow>)
    ensures r.Keys == m.Keys
    ensures forall k :: k in m && k in ids ==> r[k] == m[k].(isActive := active)
    ensures forall k :: k in m && k !in ids ==> r[k] == m[k]
  {
    map k | k in m :: if k in ids then m[k].(isActive := active) else m[k]
  }

  function ViewOf(row: ModelRow, providerName: string): ModelView {
    ModelView(row.providerId, providerName, row.originalId, row.displayName, row.isActive, row.customName)
  }

  /** The JOIN of ListAllModels: rows of missing providers are not listed. */
  function ListView(providers: map<int, Provider>, m: map<int, ModelRow>): (r: map<int, ModelView>)
    ensures forall k :: k in r <==> k in m && m[k].providerId in providers
    ensures forall k :: k in r ==> r[k] == ViewOf(m[k], providers[m[k].providerId].name)
  {
    map k | k in m && m[k].providerId in providers :: ViewOf(m[k], providers[m[k].providerId].name)
  }

  // ---------------------------------------------------------------------------
  // FetchModels reconciliation

  /** `m["id"].(string)` of one listed model; a missing, non-string or empty id is skipped. */
  function FetchedId(j: Json): (r: Option<string>)
    ensures r.Some? <==> j.Obj? && "id" in j.fields && j.fields["id"].Str? && j.fields["id"].s != ""
    ensures r.Some? ==> r.value == j.fields["id"].s
  {
    if j.Obj? then
      match StringField(j.fields, "id")
      case Some(s) => if s != "" then Some(s) else None
      case None => None
    else None
  }

  /** The usable ids of a listing, in listing order (duplicates kept). */
  function FetchedIds(data: seq<Json>): (ids: seq<string>)
    ensures |ids| <= |data|
    ensures forall x :: x in ids ==> x != ""
    decreases |data|
  {
    if data == [] then []
    else
      var rest := FetchedIds(data[..|data| - 1]);
      match FetchedId(data[|data| - 1])
      case Some(x) => rest + [x]
      case None => rest
  }

  /** An id is fetched exactly when some listed entry carries it. */
  lemma {:induction false} FetchedIdsExact(data: seq<Json>, x: string)
    ensures x in FetchedIds(data) <==> exists i :: 0 <= i < |data| && FetchedId(data[i]) == Some(x)
    decreases |data|
  {
    if data != [] {
      var init := data[..|data| - 1];
      FetchedIdsExact(init, x);
      if x in FetchedIds(data) && x !in FetchedIds(init) {
        assert FetchedId(data[|data| - 1]) == Some(x);
      }
      if exists i :: 0 <= i < |data| && FetchedId(data[i]) == Some(x) {
        var i :| 0 <= i < |data| && FetchedId(data[i]) == Some(x);
        if i < |data| - 1 {
          assert init[i] == data[i];
        }
      }
      forall i | 0 <= i < |init|
        ensures init[i] == data[i]
      {
      }
    }
  }

  /** The fetched ids with no existing row, in order: the rows to insert. */
  function FreshIds(ids: seq<string>, existing: map<string, int>): (r: seq<string>)
    ensures forall x :: x in r <==> x in ids && x !in existing
    ensures |r| <= |ids|
    decreases |ids|
  {
    if ids == [] then []
    else
      var rest := FreshIds(ids[..|ids| - 1], existing);
      assert forall x :: x in ids <==> x in ids[..|ids| - 1] || x == ids[|ids| - 1];
      if ids[|ids| - 1] in existing then rest else rest + [ids[|ids| - 1]]
  }

  function SetOf(ids: seq<string>): set<string> {
    set x | x in ids
  }

  /**
   * The `existingModels` map: for each original id of provider `pid`, the id of
   * one of its rows (which one, when several share the original id, depends on
   * the order the query returns rows in).
   */
  predicate Indexes(m: map<int, ModelRow>, pid: int, existing: map<string, int>) {
    (forall o :: o in existing ==>
       existing[o] in m && m[existing[o]].providerId == pid && m[existing[o]].originalId == o) &&
    (forall k :: k in m && m[k].providerId == pid ==> m[k].originalId in existing)
  }

  /** Row `k` is the one `existing` names for its original id. */
  predicate Claimed(m: map<int, ModelRow>, existing: map<string, int>, k: int) {
    k in m && m[k].originalId in existing && existing[m[k].originalId] == k
  }

  /** The display-name UPDATEs: claimed rows whose original id was fetched. */
  function Refresh(m: map<int, ModelRow>, existing: map<string, int>, fetched: set<string>, prefix: string)
    : (r: map<int, ModelRow>)
    ensures r.Keys == m.Keys
  {
    map k | k in m :: if Claimed(m, existing, k) && m[k].originalId in fetched
                      then Renamed(m[k], prefix)
                      else m[k]
  }

  function NewModelRow(pid: int, prefix: string, originalId: string): ModelRow {
    ModelRow(pid, originalId, DisplayName(prefix, originalId), false, false)
  }

  /** The INSERTs: one inactive row per new original id, with consecutive ids from `start`. */
  function Inserted(newIds: seq<string>, pid: int, prefix: string, start: int): (r: map<int, ModelRow>)
    ensures forall k :: k in r <==> start <= k < start + |newIds|
    decreases |newIds|
  {
    if newIds == [] then map[]
    else
      var last := |newIds| - 1;
      Inserted(newIds[..last], pid, prefix, start)[start + last := NewModelRow(pid, prefix, newIds[last])]
  }

  /** The row inserted for the `j`-th new id gets id `start + j`. */
  lemma {:induction false} InsertedAt(newIds: seq<string>, pid: int, prefix: string, start: int, j: int)
    requires 0 <= j < |newIds|
    ensures Inserted(newIds, pid, prefix, start)[start + j] == NewModelRow(pid, prefix, newIds[j])
    decreases |newIds|
  {
    var last := |newIds| - 1;
    if j < last {
      InsertedAt(newIds[..last], pid, prefix, start, j);
    }
  }

  /** The DELETEs: the rows named for original ids that were not fetched. */
  function StaleIds(existing: map<string, int>, fetched: set<string>): set<int> {
    set o | o in existing && o !in fetched :: existing[o]
  }

  /** The models table after a successful FetchModels. */
  function Reconciled(m: map<int, ModelRow>, existing: map<string, int>, ids: seq<string>,
                      pid: int, prefix: string, start: int): map<int, ModelRow>
  {
    (Refresh(m, existing, SetOf(ids), prefix) + Inserted(FreshIds(ids, existing), pid, prefix, start))
    - StaleIds(existing, SetOf(ids))
  }

  predicate IdsBelow(m: map<int, ModelRow>, start: int) {
    forall k :: k in m ==> k < start
  }

  /** A row is deleted exactly when it is claimed for an original id that was not fetched. */
  lemma StaleIdsExact(m: map<int, ModelRow>, existing: map<string, int>, pid: int, fetched: set<string>, k: int)
    requires Indexes(m, pid, existing)
    ensures k in StaleIds(existing, fetched) <==> Claimed(m, existing, k) && m[k].originalId !in fetched
  {
    if k in StaleIds(existing, fetched) {
      var o :| o in existing && o !in fetched && existing[o] == k;
      assert m[k].originalId == o;
    }
    if Claimed(m, existing, k) && m[k].originalId !in fetched {
      var o := m[k].originalId;
      assert o in existing && o !in fetched && existing[o] == k;
    }
  }

  /** The rows that existed before: kept unless stale, with refreshed names. */
  lemma ReconciledOld(m: map<int, ModelRow>, existing: map<string, int>, ids: seq<string>,
                      pid: int, prefix: string, start: int, k: int)
    requires Indexes(m, pid, existing) && IdsBelow(m, start) && k in m
    ensures var r := Reconciled(m, existing, ids, pid, prefix, start);
            (k in r <==> !(Claimed(m, existing, k) && m[k].originalId !in ids)) &&
            (k in r ==> r[k] == Refresh(m, existing, SetOf(ids), prefix)[k])
  {
    StaleIdsExact(m, existing, pid, SetOf(ids), k);
    var inserted := Inserted(FreshIds(ids, existing), pid, prefix, start);
    assert k !in inserted;
  }

  /** The rows that did not exist before: exactly the inserted ones. */
  lemma ReconciledNew(m: map<int, ModelRow>, existing: map<string, int>, ids: seq<string>,
                      pid: int, prefix: string, start: int, j: int)
    requires Indexes(m, pid, existing) && IdsBelow(m, start)
    requires 0 <= j < |FreshIds(ids, existing)|
    ensures var r := Reconciled(m, existing, ids, pid, prefix, start);
            start + j in r && r[start + j] == NewModelRow(pid, prefix, FreshIds(ids, existing)[j])
  {
    var k := start + j;
    var newIds := FreshIds(ids, existing);
    var refreshed := Refresh(m, existing, SetOf(ids), prefix);
    var inserted := Inserted(newIds, pid, prefix, start);
    var stale := StaleIds(existing, SetOf(ids));
    assert k !in stale by {
      StaleIdsExact(m, existing, pid, SetOf(ids), k);
    }
    assert k !in refreshed && k in inserted;
    assert inserted[k] == NewModelRow(pid, prefix, newIds[j]) by {
      InsertedAt(newIds, pid, prefix, start, j);
    }
    assert Reconciled(m, existing, ids, pid, prefix, start) == (refreshed + inserted) - stale;
  }

  /** No other ids appear. */
  lemma ReconciledDomain(m: map<int, ModelRow>, existing: map<string, int>, ids: seq<string>,
                         pid: int, prefix: string, start: int, k: int)
    requires k in Reconciled(m, existing, ids, pid, prefix, start) && k !in m
    ensures start <= k < start + |FreshIds(ids, existing)|
  {
  }

  /** Rows of other providers are untouched by a fetch. */
  lemma ReconcileKeepsOtherProviders(m: map<int, ModelRow>, existing: map<string, int>, ids: seq<string>,
                                     pid: int, prefix: string, start: int, k: int)
    requires Indexes(m, pid, existing) && IdsBelow(m, start)
    requires k in m && m[k].providerId != pid
    ensures var r := Reconciled(m, existing, ids, pid, prefix, start);
            k in r && r[k] == m[k]
  {
    ReconciledOld(m, existing, ids, pid, prefix, start, k);
  }

  /** Every fetched id ends up with a row of the provider carrying the derived name. */
  lemma ReconcileCoversFetched(m: map<int, ModelRow>, existing: map<string, int>, ids: seq<string>,
                               pid: int, prefix: string, start: int, x: string)
    requires Indexes(m, pid, existing) && IdsBelow(m, start)
    requires x in ids
    ensures var r := Reconciled(m, existing, ids, pid, prefix, start);
            exists k :: k in r && r[k].providerId == pid && r[k].originalId == x &&
                        r[k].displayName == DisplayName(prefix, x)
  {
    var r := Reconciled(m, existing, ids, pid, prefix, start);
    if x in existing {
      var k := existing[x];
      assert k in r && r[k].providerId == pid && r[k].originalId == x &&
             r[k].displayName == DisplayName(prefix, x) by {
        assert Claimed(m, existing, k) && x in SetOf(ids);
        ReconciledOld(m, existing, ids, pid, prefix, start, k);
      }
    } else {
      var newIds := FreshIds(ids, existing);
      var j :| 0 <= j < |newIds| && newIds[j] == x;
      assert start + j in r && r[start + j] == NewModelRow(pid, prefix, x) by {
        ReconciledNew(m, existing, ids, pid, prefix, start, j);
      }
    }
  }

  /** A row named for an original id that is no longer listed is removed. */
  lemma ReconcileDropsStale(m: map<int, ModelRow>, existing: map<string, int>, ids: seq<string>,
                            pid: int, prefix: string, start: int, k: int)
    requires Indexes(m, pid, existing) && IdsBelow(m, start)
    requires Claimed(m, existing, k) && m[k].originalId !in ids
    ensures k !in Reconciled(m, existing, ids, pid, prefix, start)
  {
    ReconciledOld(m, existing, ids, pid, prefix, start, k);
  }

  /** Rows that a fetch adds are inactive, uncustomised rows of the provider for fetched ids. */
  lemma ReconcileInsertsInactive(m: map<int, ModelRow>, existing: map<string, int>, ids: seq<string>,
                                 pid: int, prefix: string, start: int, k: int)
    requires Indexes(m, pid, existing) && IdsBelow(m, start)
    requires k in Reconciled(m, existing, ids, pid, prefix, start) && k !in m
    ensures var r := Reconciled(m, existing, ids, pid, prefix, start);
            r[k].providerId == pid && !r[k].isActive && !r[k].customName &&
            r[k].originalId in ids && r[k].originalId !in existing &&
            r[k].displayName == DisplayName(prefix, r[k].originalId)
  {
    ReconciledDomain(m, existing, ids, pid, prefix, start, k);
    ReconciledNew(m, existing, ids, pid, prefix, start, k - start);
    var newIds := FreshIds(ids, existing);
    assert newIds[k - start] in newIds;
  }

  /**
   * An empty listing (always the case for a Vertex provider, whose listing is
   * never requested) deletes every model of the provider, provided no two of
   * its rows share an original id.
   */
  lemma EmptyListingDeletesAll(m: map<int, ModelRow>, existing: map<string, int>, pid: int,
                               prefix: string, start: int, k: int)
    requires Indexes(m, pid, existing) && IdsBelow(m, start)
    requires forall a, b :: (a in m && b in m && m[a].providerId == pid && m[b].providerId == pid &&
                             m[a].originalId == m[b].originalId) ==> a == b
    requires k in m && m[k].providerId == pid
    ensures k !in Reconciled(m, existing, [], pid, prefix, start)
  {
    var o := m[k].originalId;
    assert existing[o] in m && m[existing[o]].providerId == pid && m[existing[o]].originalId == o;
    assert Claimed(m, existing, k);
    ReconcileDropsStale(m, existing, [], pid, prefix, start, k);
  }

  /** The parts of the summary message: non-zero counts in the order added, updated, deleted. */
  function SummaryParts(added: int, updated: int, deleted: int): (parts: seq<string>)
    ensures 1 <= |parts| <= 3
    ensures parts == ["没有变化"] <==> added <= 0 && updated <= 0 && deleted <= 0
    ensures added > 0 ==> parts[0] == "添加 " + Itoa(added) + " 个新模型"
    ensures deleted > 0 ==> parts[|parts| - 1] == "删除 " + Itoa(deleted) + " 个已下线模型"
    ensures |parts| == 3 <==> added > 0 && updated > 0 && deleted > 0
  {
    var parts :=
      (if added > 0 then ["添加 " + Itoa(added) + " 个新模型"] else []) +
      (if updated > 0 then ["更新 " + Itoa(updated) + " 个模型"] else []) +
      (if deleted > 0 then ["删除 " + Itoa(deleted) + " 个已下线模型"] else []);
    if parts == [] then ["没有变化"]
    else
      assert parts[0][0] in {'添', '更', '删'};
      parts
  }

  /** The FetchModels message: the parts joined by "、". */
  function Summary(added: int, updated: int, deleted: int): (msg: string)
    ensures added <= 0 && updated <= 0 && deleted <= 0 ==> msg == "没有变化"
  {
    Join(SummaryParts(added, updated, deleted), "、")
  }

  // Loop steps of FetchModels

  lemma RefreshExistingStep(m: map<int, ModelRow>, existing: map<string, int>, pid: int,
                            fetched: set<string>, prefix: string, x: string)
    requires Indexes(m, pid, existing) && x in existing
    ensures Refresh(m, existing, fetched + {x}, prefix) ==
      Refresh(m, existing, fetched, prefix)[existing[x] := Renamed(m[existing[x]], prefix)]
  {
    var k := existing[x];
    assert Claimed(m, existing, k);
  }

  lemma RefreshFreshStep(m: map<int, ModelRow>, existing: map<string, int>,
                         fetched: set<string>, prefix: string, x: string)
    requires x !in existing
    ensures Refresh(m, existing, fetched + {x}, prefix) == Refresh(m, existing, fetched, prefix)
  {
  }

  lemma InsertedSnoc(newIds: seq<string>, x: string, pid: int, prefix: string, start: int)
    ensures Inserted(newIds + [x], pid, prefix, start) ==
      Inserted(newIds, pid, prefix, start)[start + |newIds| := NewModelRow(pid, prefix, x)]
  {
    assert (newIds + [x])[..|newIds|] == newIds;
  }

  lemma FetchedIdsSnoc(data: seq<Json>, i: int)
    requires 0 <= i < |data|
    ensures FetchedIds(data[..i + 1]) ==
      match FetchedId(data[i])
      case Some(x) => FetchedIds(data[..i]) + [x]
      case None => FetchedIds(data[..i])
  {
    assert data[..i + 1][..i] == data[..i];
  }

  lemma FreshIdsSnoc(ids: seq<string>, x: string, existing: map<string, int>)
    ensures FreshIds(ids + [x], existing) ==
      if x in existing then FreshIds(ids, existing) else FreshIds(ids, existing) + [x]
  {
    assert (ids + [x])[..|ids|] == ids;
  }

  /** No two rows of a provider share an original id (what AddModel's check protects). */
  predicate UniquePerProvider(m: map<int, ModelRow>) {
    forall a, b :: (a in m && b in m && m[a].providerId == m[b].providerId &&
                    m[a].originalId == m[b].originalId) ==> a == b
  }

  predicate HasModel(m: map<int, ModelRow>, pid: int, originalId: string) {
    exists k :: k in m && m[k].providerId == pid && m[k].originalId == originalId
  }

  datatype BatchToggle = BatchToggle(modelIds: seq<int>, isActive: bool)

  /** A fetch hands out ids from the counter only, so all ids stay below the advanced counter. */
  lemma ReconciledBelow(m: map<int, ModelRow>, existing: map<string, int>, ids: seq<string>,
                        pid: int, prefix: string, start: int)
    requires 0 < start && forall k :: k in m ==> 0 < k < start
    ensures forall k :: k in Reconciled(m, existing, ids, pid, prefix, start) ==>
      0 < k < start + |FreshIds(ids, existing)|
  {
    forall k | k in Reconciled(m, existing, ids, pid, prefix, start)
      ensures 0 < k < start + |FreshIds(ids, existing)|
    {
      if k !in m {
        ReconciledDomain(m, existing, ids, pid, prefix, start, k);
      }
    }
  }

  // The handlers' loops, on table values

  /** The next element a map or row iteration visits; the order is unspecified. */
  method Choose<T>(s: set<T>) returns (x: T)
    requires s != {}
    ensures x in s
  {
    x :| x in s;
  }

  /** The prefix-resync loop: every model row of `pid` renamed under `prefix`, one row at a time. */
  method RenameRows(m: map<int, ModelRow>, pid: int, prefix: string) returns (r: map<int, ModelRow>)
    ensures r == ResyncProvider(m, pid, prefix)
  {
    r := m;
    var todo := set k | k in m && m[k].providerId == pid;
    while todo != {}
      invariant forall j :: j in todo ==> j in m && m[j].providerId == pid
      invariant r.Keys == m.Keys
      invariant forall j :: j in r ==>
        r[j] == if m[j].providerId == pid && j !in todo then Renamed(m[j], prefix) else m[j]
      decreases |todo|
    {
      var row := Choose(todo);
      r := r[row := Renamed(r[row], prefix)];
      todo := todo - {row};
    }
    var spec := ResyncProvider(m, pid, prefix);
    assert r.Keys == spec.Keys;
    assert forall j :: j in r ==> r[j] == spec[j];
  }

  /** The `existingModels` loop: one entry per original id among the provider's rows. */
  method ExistingModels(m: map<int, ModelRow>, pid: int) returns (existing: map<string, int>)
    ensures Indexes(m, pid, existing)
  {
    existing := map[];
    var todo := set k | k in m && m[k].providerId == pid;
    while todo != {}
      invariant forall j :: j in todo ==> j in m && m[j].providerId == pid
      invariant forall o :: o in existing ==>
        existing[o] in m && m[existing[o]].providerId == pid && m[existing[o]].originalId == o
      invariant forall j :: j in m && m[j].providerId == pid && j !in todo ==> m[j].originalId in existing
      decreases |todo|
    {
      var row := Choose(todo);
      existing := existing[m[row].originalId := row];
      todo := todo - {row};
    }
  }

  lemma UpdateLeft<K, V>(a: map<K, V>, b: map<K, V>, k: K, v: V)
    requires k !in b
    ensures (a + b)[k := v] == a[k := v] + b
  {
  }

  lemma UpdateRight<K, V>(a: map<K, V>, b: map<K, V>, k: K, v: V)
    ensures (a + b)[k := v] == a + b[k := v]
  {
  }

  /** What the loop over the listing has produced so far. */
  datatype FetchTally = FetchTally(rows: map<int, ModelRow>, next: int, fetched: set<string>,
                                   added: int, updated: int)

  /**
   * The loop over the listing, entry by entry: an entry without a usable id is
   * skipped; a claimed original id has its row renamed (updated); any other id
   * gets an inactive row under the next id (added).
   */
  function FetchFold(m: map<int, ModelRow>, start: int, pid: int, prefix: string,
                     data: seq<Json>, existing: map<string, int>): (t: FetchTally)
    requires Indexes(m, pid, existing)
    ensures m.Keys <= t.rows.Keys
    decreases |data|
  {
    if data == [] then FetchTally(m, start, {}, 0, 0)
    else
      var t := FetchFold(m, start, pid, prefix, data[..|data| - 1], existing);
      match FetchedId(data[|data| - 1])
      case None => t
      case Some(x) =>
        if x in existing then
          var k := existing[x];
          t.(rows := t.rows[k := Renamed(t.rows[k], prefix)], fetched := t.fetched + {x},
             updated := t.updated + 1)
        else
          t.(rows := t.rows[t.next := NewModelRow(pid, prefix, x)], next := t.next + 1,
             fetched := t.fetched + {x}, added := t.added + 1)
  }

  /** The fold's counters: the fetched ids as a set, one added per new id, one updated per claimed id. */
  lemma {:induction false} FetchFoldCounts(m: map<int, ModelRow>, start: int, pid: int, prefix: string,
                                           data: seq<Json>, existing: map<string, int>)
    requires Indexes(m, pid, existing)
    ensures var t := FetchFold(m, start, pid, prefix, data, existing);
      var ids := FetchedIds(data);
      var newIds := FreshIds(ids, existing);
      t.fetched == SetOf(ids) && t.added == |newIds| && t.updated == |ids| - |newIds| &&
      t.next == start + |newIds|
    decreases |data|
  {
    if data != [] {
      var init := data[..|data| - 1];
      FetchFoldCounts(m, start, pid, prefix, init, existing);
      var t := FetchFold(m, start, pid, prefix, init, existing);
      match FetchedId(data[|data| - 1]) {
        case None =>
        case Some(x) =>
          var ids := FetchedIds(init);
          FreshIdsSnoc(ids, x, existing);
          assert SetOf(ids + [x]) == t.fetched + {x};
      }
    }
  }

  /** Renaming a claimed row keeps the rows equal to the refreshed table plus the inserted rows. */
  lemma FetchExistingStep(m: map<int, ModelRow>, start: int, pid: int, prefix: string,
                          existing: map<string, int>, fetched: set<string>, newIds: seq<string>,
                          rows: map<int, ModelRow>, x: string)
    requires Indexes(m, pid, existing) && IdsBelow(m, start) && x in existing
    requires rows == Refresh(m, existing, fetched, prefix) + Inserted(newIds, pid, prefix, start)
    ensures existing[x] in rows
    ensures rows[existing[x] := Renamed(rows[existing[x]], prefix)] ==
      Refresh(m, existing, fetched + {x}, prefix) + Inserted(newIds, pid, prefix, start)
  {
    var k := existing[x];
    var refreshed := Refresh(m, existing, fetched, prefix);
    var inserted := Inserted(newIds, pid, prefix, start);
    RefreshExistingStep(m, existing, pid, fetched, prefix, x);
    assert k in m && k !in inserted;
    assert Renamed(rows[k], prefix) == Renamed(m[k], prefix);
    UpdateLeft(refreshed, inserted, k, Renamed(rows[k], prefix));
  }

  /** Inserting a row for a new id keeps the same shape, with one more inserted row. */
  lemma FetchFreshStep(m: map<int, ModelRow>, start: int, pid: int, prefix: string,
                       existing: map<string, int>, fetched: set<string>, newIds: seq<string>,
                       rows: map<int, ModelRow>, x: string)
    requires x !in existing
    requires rows == Refresh(m, existing, fetched, prefix) + Inserted(newIds, pid, prefix, start)
    ensures rows[start + |newIds| := NewModelRow(pid, prefix, x)] ==
      Refresh(m, existing, fetched + {x}, prefix) + Inserted(newIds + [x], pid, prefix, start)
  {
    RefreshFreshStep(m, existing, fetched, prefix, x);
    InsertedSnoc(newIds, x, pid, prefix, start);
    UpdateRight(Refresh(m, existing, fetched, prefix), Inserted(newIds, pid, prefix, start),
                start + |newIds|, NewModelRow(pid, prefix, x));
  }

  /**
   * The fold in closed form: refreshed claimed rows plus the inserted ones,
   * with the counters matching the fetched and new ids.
   */
  lemma {:induction false} FetchFoldClosed(m: map<int, ModelRow>, start: int, pid: int, prefix: string,
                                           data: seq<Json>, existing: map<string, int>)
    requires Indexes(m, pid, existing) && IdsBelow(m, start)
    ensures var t := FetchFold(m, start, pid, prefix, data, existing);
      var ids := FetchedIds(data);
      var newIds := FreshIds(ids, existing);
      t.fetched == SetOf(ids) && t.added == |newIds| && t.updated == |ids| - |newIds| &&
      t.next == start + |newIds| &&
      t.rows == Refresh(m, existing, t.fetched, prefix) + Inserted(newIds, pid, prefix, start)
    decreases |data|
  {
    FetchFoldCounts(m, start, pid, prefix, data, existing);
    if data == [] {
      var refreshed := Refresh(m, existing, {}, prefix);
      assert forall k :: k in refreshed ==> refreshed[k] == m[k];
      assert refreshed == m;
      assert Inserted([], pid, prefix, start) == map[];
    } else {
      var init := data[..|data| - 1];
      FetchFoldClosed(m, start, pid, prefix, init, existing);
      var t := FetchFold(m, start, pid, prefix, init, existing);
      var ids := FetchedIds(init);
      var newIds := FreshIds(ids, existing);
      var after := FetchFold(m, start, pid, prefix, data, existing);
      var newIdsAfter := FreshIds(FetchedIds(data), existing);
      match FetchedId(data[|data| - 1]) {
        case None =>
          assert after == t && FetchedIds(data) == ids;
        case Some(x) =>
          assert FetchedIds(data) == ids + [x];
          assert after.fetched == t.fetched + {x};
          FreshIdsSnoc(ids, x, existing);
          if x in existing {
            var k := existing[x];
            assert after.rows == t.rows[k := Renamed(t.rows[k], prefix)];
            assert newIdsAfter == newIds;
            FetchExistingStep(m, start, pid, prefix, existing, t.fetched, newIds, t.rows, x);
          } else {
            assert t.next == start + |newIds|;
            assert after.rows == t.rows[start + |newIds| := NewModelRow(pid, prefix, x)];
            assert newIdsAfter == newIds + [x];
            FetchFreshStep(m, start, pid, prefix, existing, t.fetched, newIds, t.rows, x);
          }
      }
    }
  }

  /** The loop over the listing, as the handler runs it; `next` is the id counter after. */
  method ApplyFetched(m: map<int, ModelRow>, start: int, pid: int, prefix: string,
                      data: seq<Json>, existing: map<string, int>)
    returns (r: map<int, ModelRow>, next: int, fetched: set<string>, added: int, updated: int)
    requires Indexes(m, pid, existing)
    ensures FetchTally(r, next, fetched, added, updated) == FetchFold(m, start, pid, prefix, data, existing)
  {
    r, next, fetched, added, updated := m, start, {}, 0, 0;
    var i := 0;
    while i < |data|
      invariant 0 <= i <= |data|
      invariant FetchTally(r, next, fetched, added, updated) == FetchFold(m, start, pid, prefix, data[..i], existing)
    {
      assert data[..i + 1][..i] == data[..i];
      var entry := FetchedId(data[i]);
      if entry.Some? {
        var x := entry.value;
        fetched := fetched + {x};
        if x in existing {
          var k := existing[x];
          r := r[k := Renamed(r[k], prefix)];
          updated := updated + 1;
        } else {
          r := r[next := NewModelRow(pid, prefix, x)];
          next := next + 1;
          added := added + 1;
        }
      }
      i := i + 1;
    }
    assert data[..i] == data;
  }

  /** The original ids among `names` that were not fetched, as the rows they claim. */
  function StaleAmong(existing: map<string, int>, names: set<string>, fetched: set<string>): set<int> {
    set o | o in names && o in existing && o !in fetched :: existing[o]
  }

  lemma StaleAmongBounds(existing: map<string, int>, fetched: set<string>)
    ensures StaleAmong(existing, {}, fetched) == {}
    ensures StaleAmong(existing, existing.Keys, fetched) == StaleIds(existing, fetched)
  {
  }

  /** One turn of the deletion loop keeps the table and the count in step with `done`. */
  lemma DeleteStaleStep(m: map<int, ModelRow>, r: map<int, ModelRow>, existing: map<string, int>,
                        done: set<string>, fetched: set<string>, deleted: int, name: string)
    requires r == m - StaleAmong(existing, done, fetched) && deleted == |done - fetched|
    requires name in existing && name !in done
    ensures (if name in fetched then r else r - {existing[name]}) ==
            m - StaleAmong(existing, done + {name}, fetched)
    ensures (if name in fetched then deleted else deleted + 1) == |(done + {name}) - fetched|
  {
    var before := StaleAmong(existing, done, fetched);
    var after := StaleAmong(existing, done + {name}, fetched);
    if name in fetched {
      assert after == before;
      assert (done + {name}) - fetched == done - fetched;
    } else {
      assert after == before + {existing[name]};
      assert (m - before) - {existing[name]} == m - after;
      assert (done + {name}) - fetched == (done - fetched) + {name};
    }
  }

  /** The deletion loop: every row claimed for an original id that was not fetched. */
  method DeleteStale(m: map<int, ModelRow>, existing: map<string, int>, fetched: set<string>)
    returns (r: map<int, ModelRow>, deleted: int)
    ensures r == m - StaleIds(existing, fetched)
    ensures deleted == |existing.Keys - fetched|
  {
    StaleAmongBounds(existing, fetched);
    r := m;
    var todo := existing.Keys;
    deleted := 0;
    ghost var done: set<string> := {};
    while todo != {}
      invariant todo !! done && todo + done == existing.Keys
      invariant deleted == |done - fetched|
      invariant r == m - StaleAmong(existing, done, fetched)
      decreases |todo|
    {
      var name := Choose(todo);
      DeleteStaleStep(m, r, existing, done, fetched, deleted, name);
      if name !in fetched {
        r := r - {existing[name]};
        deleted := deleted + 1;
      }
      todo := todo - {name};
      done := done + {name};
    }
  }

  /**
   * A successful fetch, in terms of the `existingModels` map the handler read:
   * the table is reconciled, the counter advanced past the inserted rows, and
   * the message counts added, updated and deleted ids.
   */
  ghost predicate FetchOutcome(m: map<int, ModelRow>, start: int, pid: int, prefix: string, data: seq<Json>,
                               r: map<int, ModelRow>, next: int, message: string)
  {
    var ids := FetchedIds(data);
    exists existing :: Indexes(m, pid, existing) &&
      var newIds := FreshIds(ids, existing);
      r == Reconciled(m, existing, ids, pid, prefix, start) && next == start + |newIds| &&
      message == Summary(|newIds|, |ids| - |newIds|, |existing.Keys - SetOf(ids)|)
  }

  /** A successful fetch inserts at most one row per listed id: the counter advances by no more. */
  lemma FetchOutcomeCounts(m: map<int, ModelRow>, start: int, pid: int, prefix: string, data: seq<Json>,
                           r: map<int, ModelRow>, next: int, message: string)
    requires FetchOutcome(m, start, pid, prefix, data, r, next, message)
    ensures start <= next <= start + |FetchedIds(data)|
  {
    var ids := FetchedIds(data);
    var existing: map<string, int> :| next == start + |FreshIds(ids, existing)|;
    assert |FreshIds(ids, existing)| <= |ids|;
  }

  /** FetchModels after a successful listing: the three loops and the summary. */
  method ReconcileModels(m: map<int, ModelRow>, start: int, pid: int, prefix: string, data: seq<Json>)
    returns (r: map<int, ModelRow>, next: int, message: string)
    requires 0 < start && forall k :: k in m ==> 0 < k < start
    ensures FetchOutcome(m, start, pid, prefix, data, r, next, message)
    ensures forall k :: k in r ==> 0 < k < next
  {
    var existing := ExistingModels(m, pid);
    var refreshed, fetched, added, updated;
    refreshed, next, fetched, added, updated := ApplyFetched(m, start, pid, prefix, data, existing);
    FetchFoldClosed(m, start, pid, prefix, data, existing);
    var deleted;
    r, deleted := DeleteStale(refreshed, existing, fetched);
    ReconciledBelow(m, existing, FetchedIds(data), pid, prefix, start);
    message := Summary(added, updated, deleted);
    ghost var ids := FetchedIds(data);
    assert r == Reconciled(m, existing, ids, pid, prefix, start);
  }

  /**
   * UpdateProvider's statement: the SET clauses of the fields given, then the
   * timestamp, keyed by id. With no field given no statement is issued. The
   * row the statement leaves behind is ApplyProviderUpdate's (see
   * ProviderStatementImplementsUpdate).
   */
  method ProviderUpdateStatement(id: int, u: ProviderUpdate) returns (query: string, args: seq<SqlValue>)
    ensures HasFields(u) ==>
      query == "UPDATE providers SET " + Join(Clauses(ProviderAssignments(u), ProviderColumnName), ", ") + " WHERE id = ?" &&
      args == Args(ProviderAssignments(u)) + [IntArg(id)]
    ensures !HasFields(u) ==> query == "" && args == []
  {
    var sets := ProviderAssignments(u);
    if sets == [] {
      return "", [];
    }
    query := BuildUpdateQuery("UPDATE providers SET ", Clauses(sets, ProviderColumnName));
    args := Args(sets) + [IntArg(id)];
  }

  /** AddModel's duplicate check is what keeps original ids unique per provider. */
  lemma AddModelKeepsUnique(m: map<int, ModelRow>, k: int, row: ModelRow)
    requires UniquePerProvider(m) && k !in m && !HasModel(m, row.providerId, row.originalId)
    ensures UniquePerProvider(m[k := row])
  {
  }

  /** The placeholder loop of BatchToggleModels: the statement and its arguments. */
  method ToggleStatement(ids: seq<int>, isActive: bool) returns (query: string, args: seq<int>)
    ensures query == "UPDATE models SET is_active = ? WHERE id IN (" + Join(seq(|ids|, _ => "?"), ",") + ")"
    ensures |args| == |ids| + 1 && args[0] == (if isActive then 1 else 0) && args[1..] == ids
  {
    var placeholders := new string[|ids|];
    var argv := new int[|ids| + 1];
    argv[0] := if isActive then 1 else 0;
    var i := 0;
    while i < |ids|
      invariant 0 <= i <= |ids|
      invariant placeholders[..i] == seq(i, _ => "?")
      invariant argv[0] == (if isActive then 1 else 0)
      invariant argv[1..i + 1] == ids[..i]
    {
      placeholders[i] := "?";
      argv[i + 1] := ids[i];
      i := i + 1;
    }
    assert placeholders[..] == placeholders[..i];
    assert argv[1..] == argv[1..i + 1];
    query := "UPDATE models SET is_active = ? WHERE id IN (" + Join(placeholders[..], ",") + ")";
    args := argv[..];
  }
  class Catalog {
    var providers: map<int, Provider>
    var models: map<int, ModelRow>
    /** The AUTOINCREMENT counters: the next id each table hands out. */
    var nextProviderId: int
    var nextModelId: int

    ghost predicate Valid()
      reads this
    {
      1 <= nextProviderId && 1 <= nextModelId &&
      (forall id :: id in providers ==> 0 < id < nextProviderId) &&
      (forall id :: id in models ==> 0 < id < nextModelId)
    }

    constructor ()
      ensures Valid()
      ensures providers == map[] && models == map[] && nextProviderId == 1 && nextModelId == 1
    {
      providers := map[];
      models := map[];
      nextProviderId := 1;
      nextModelId := 1;
    }

    /** CreateProvider: 400 unless name and api_key are given; otherwise a new row with defaults. */
    method CreateProvider(req: Option<ProviderCreate>, now: int) returns (status: int, id: int)
      requires Valid()
      modifies this
      ensures Valid()
      ensures req.None? || !ValidCreate(req.value) ==> status == 400 && unchanged(this)
      ensures req.Some? && ValidCreate(req.value) ==>
        status == 200 && id == old(nextProviderId) && id !in old(providers) &&
        providers == old(providers)[id := NewProvider(req.value, now)] &&
        nextProviderId == id + 1 && models == old(models) && nextModelId == old(nextModelId)
    {
      if req.None? || !ValidCreate(req.value) {
        return 400, 0;
      }
      id := nextProviderId;
      providers := providers[id := NewProvider(req.value, now)];
      nextProviderId := nextProviderId + 1;
      status := 200;
    }

    /** UpdateProvider: 400 / 404 / partial update, prefix resync, client invalidation. */
    method UpdateProvider(idParam: string, req: Option<ProviderUpdate>, now: int, pool: Upstream.ClientPool)
      returns (status: int)
      requires Valid()
      modifies this, pool
      ensures Valid()
      ensures req.None? ==> status == 400 && unchanged(this) && unchanged(pool)
      ensures req.Some? && AtoiOrZero(idParam) !in old(providers) ==>
        status == 404 && unchanged(this) && unchanged(pool)
      ensures req.Some? && AtoiOrZero(idParam) in old(providers) ==>
        var id := AtoiOrZero(idParam);
        var p := old(providers)[id];
        var u := req.value;
        status == 200 &&
        providers == old(providers)[id := ApplyProviderUpdate(p, u, now)] &&
        models == (if u.modelPrefix.Some? && u.modelPrefix.value != p.modelPrefix
                   then ResyncProvider(old(models), id, u.modelPrefix.value)
                   else old(models)) &&
        pool.clients == old(pool.clients) - {p.proxyUrl}
      ensures nextProviderId == old(nextProviderId) && nextModelId == old(nextModelId)
    {
      if req.None? {
        return 400;
      }
      var id := AtoiOrZero(idParam);
      if id !in providers {
        return 404;
      }
      var u := req.value;
      var p := providers[id];
      if HasFields(u) {
        providers := providers[id := ApplyProviderUpdate(p, u, now)];
      }
      if u.modelPrefix.Some? && u.modelPrefix.value != p.modelPrefix {
        models := RenameRows(models, id, u.modelPrefix.value);
      }
      pool.InvalidateClient(p.proxyUrl);
      status := 200;
    }

    /** DeleteProvider: 404, or the provider and all its models removed (API keys are kept). */
    method DeleteProvider(idParam: string, pool: Upstream.ClientPool) returns (status: int)
      requires Valid()
      modifies this, pool
      ensures Valid()
      ensures AtoiOrZero(idParam) !in old(providers) ==> status == 404 && unchanged(this) && unchanged(pool)
      ensures AtoiOrZero(idParam) in old(providers) ==>
        status == 200 &&
        providers == old(providers) - {AtoiOrZero(idParam)} &&
        models == WithoutProvider(old(models), AtoiOrZero(idParam)) &&
        pool.clients == old(pool.clients) - {old(providers)[AtoiOrZero(idParam)].proxyUrl}
      ensures nextProviderId == old(nextProviderId) && nextModelId == old(nextModelId)
    {
      var id := AtoiOrZero(idParam);
      if id !in providers {
        return 404;
      }
      var proxyUrl := providers[id].proxyUrl;
      models := WithoutProvider(models, id);
      providers := providers - {id};
      pool.InvalidateClient(proxyUrl);
      status := 200;
    }

    /**
     * FetchModels: 404 for an unknown provider, 500 when the listing fails,
     * otherwise the table reconciled with the listing and a summary message.
     */
    method FetchModels(idParam: string, outcome: Upstream.HttpOutcome, proxyParses: bool,
                       decodeHeaders: string -> Option<map<string, string>>, pool: Upstream.ClientPool)
      returns (status: int, message: string, totalFetched: int)
      requires Valid()
      modifies this, pool
      ensures Valid()
      ensures providers == old(providers) && nextProviderId == old(nextProviderId)
      ensures AtoiOrZero(idParam) !in old(providers) ==> status == 404 && unchanged(this) && unchanged(pool)
      ensures AtoiOrZero(idParam) in old(providers) ==>
        var pid := AtoiOrZero(idParam);
        var p := old(providers)[pid];
        var listing := Upstream.Listing(ProviderConfigOf(p, decodeHeaders), outcome);
        (listing.Err? ==> status == 500 && message == "拉取模型失败: " + listing.error &&
                          models == old(models) && nextModelId == old(nextModelId)) &&
        (listing.Ok? ==>
          status == 200 && totalFetched == |listing.value| &&
          FetchOutcome(old(models), old(nextModelId), pid, p.modelPrefix, listing.value,
                       models, nextModelId, message))
    {
      var pid := AtoiOrZero(idParam);
      if pid !in providers {
        return 404, "", 0;
      }
      var p := providers[pid];
      var cfg := ProviderConfigOf(p, decodeHeaders);
      var listing, _ := pool.ListModels(cfg, proxyParses, outcome);
      if listing.Err? {
        return 500, "拉取模型失败: " + listing.error, 0;
      }
      var data := listing.value;
      models, nextModelId, message := ReconcileModels(models, nextModelId, pid, p.modelPrefix, data);
      totalFetched := |data|;
      status := 200;
    }

    /** AddModel: 400 for a missing id or a duplicate, 404 for an unknown provider, else an active row. */
    method AddModel(idParam: string, req: Option<string>) returns (status: int)
      requires Valid()
      modifies this
      ensures Valid()
      ensures providers == old(providers) && nextProviderId == old(nextProviderId)
      ensures status == (if req.None? || req.value == "" then 400
                         else if AtoiOrZero(idParam) !in old(providers) then 404
                         else if HasModel(old(models), AtoiOrZero(idParam), req.value) then 400
                         else 200)
      ensures status != 200 ==> unchanged(this)
      ensures status == 200 ==>
        var pid := AtoiOrZero(idParam);
        nextModelId == old(nextModelId) + 1 &&
        models == old(models)[old(nextModelId) :=
          ModelRow(pid, req.value, DisplayName(old(providers)[pid].modelPrefix, req.value), true, false)]
    {
      if req.None? || req.value == "" {
        return 400;
      }
      var pid := AtoiOrZero(idParam);
      if pid !in providers {
        return 404;
      }
      var modelId := req.value;
      if HasModel(models, pid, modelId) {
        return 400;
      }
      var row := ModelRow(pid, modelId, DisplayName(providers[pid].modelPrefix, modelId), true, false);
      models := models[nextModelId := row];
      nextModelId := nextModelId + 1;
      status := 200;
    }

    /** ListAllModels: resync non-custom names, then list the rows whose provider exists. */
    method ListAllModels() returns (result: map<int, ModelView>)
      requires Valid()
      modifies this
      ensures Valid()
      ensures models == ResyncAll(old(providers), old(models))
      ensures result == ListView(providers, models)
      ensures providers == old(providers) && nextProviderId == old(nextProviderId)
      ensures nextModelId == old(nextModelId)
    {
      models := ResyncAll(providers, models);
      result := ListView(providers, models);
    }

    /** UpdateModel: 400 for a bad id or body, 404 for a missing row, else the field updates. */
    method UpdateModel(idParam: string, req: Option<ModelUpdate>) returns (status: int)
      requires Valid()
      modifies this
      ensures Valid()
      ensures Atoi(idParam).None? || req.None? ==> status == 400 && unchanged(this)
      ensures Atoi(idParam).Some? && req.Some? && Atoi(idParam).value !in old(models) ==>
        status == 404 && unchanged(this)
      ensures Atoi(idParam).Some? && req.Some? && Atoi(idParam).value in old(models) ==>
        var id := Atoi(idParam).value;
        status == 200 && models == old(models)[id := ApplyModelUpdate(old(models)[id], req.value)]
      ensures providers == old(providers) && nextProviderId == old(nextProviderId)
      ensures nextModelId == old(nextModelId)
    {
      var parsed := Atoi(idParam);
      if parsed.None? || req.None? {
        return 400;
      }
      var id := parsed.value;
      if id !in models {
        return 404;
      }
      models := models[id := ApplyModelUpdate(models[id], req.value)];
      status := 200;
    }

    /** ResetModelDisplayName: back to the derived name, custom flag cleared; the name is returned. */
    method ResetModelDisplayName(idParam: string) returns (status: int, name: string)
      requires Valid()
      modifies this
      ensures Valid()
      ensures status == (if Atoi(idParam).None? then 400
                         else if Atoi(idParam).value !in old(models) then 404
                         else if old(models)[Atoi(idParam).value].providerId !in old(providers) then 404
                         else 200)
      ensures status != 200 ==> unchanged(this)
      ensures status == 200 ==>
        var id := Atoi(idParam).value;
        var row := old(models)[id];
        var prefix := old(providers)[row.providerId].modelPrefix;
        name == DisplayName(prefix, row.originalId) &&
        models == old(models)[id := ResetRow(row, prefix)]
      ensures providers == old(providers) && nextProviderId == old(nextProviderId)
      ensures nextModelId == old(nextModelId)
    {
      var parsed := Atoi(idParam);
      if parsed.None? {
        return 400, "";
      }
      var id := parsed.value;
      if id !in models || models[id].providerId !in providers {
        return 404, "";
      }
      var row := models[id];
      var prefix := providers[row.providerId].modelPrefix;
      name := DisplayName(prefix, row.originalId);
      models := models[id := ResetRow(row, prefix)];
      status := 200;
    }

    /** DeleteModel: 400 for a bad id, 404 for a missing row, else the row removed. */
    method DeleteModel(idParam: string) returns (status: int)
      requires Valid()
      modifies this
      ensures Valid()
      ensures Atoi(idParam).None? ==> status == 400 && unchanged(this)
      ensures Atoi(idParam).Some? && Atoi(idParam).value !in old(models) ==> status == 404 && unchanged(this)
      ensures Atoi(idParam).Some? && Atoi(idParam).value in old(models) ==>
        status == 200 && models == old(models) - {Atoi(idParam).value}
      ensures providers == old(providers) && nextProviderId == old(nextProviderId)
      ensures nextModelId == old(nextModelId)
    {
      var parsed := Atoi(idParam);
      if parsed.None? {
        return 400;
      }
      if parsed.value !in models {
        return 404;
      }
      models := models - {parsed.value};
      status := 200;
    }

    /**
     * BatchToggleModels: 400 for a missing or empty list; otherwise the
     * `placeholders`/`args` arrays are filled and one UPDATE sets is_active on
     * exactly the listed ids. The message counts the ids as sent.
     */
    method BatchToggleModels(req: Option<BatchToggle>) returns (status: int, message: string, query: string, args: seq<int>)
      requires Valid()
      modifies this
      ensures Valid()
      ensures req.None? || req.value.modelIds == [] ==> status == 400 && unchanged(this)
      ensures req.Some? && req.value.modelIds != [] ==>
        var ids := req.value.modelIds;
        status == 200 &&
        models == ToggleAll(old(models), ids, req.value.isActive) &&
        query == "UPDATE models SET is_active = ? WHERE id IN (" + Join(seq(|ids|, _ => "?"), ",") + ")" &&
        args == [if req.value.isActive then 1 else 0] + ids &&
        message == "已更新 " + Itoa(|ids|) + " 个模型"
      ensures providers == old(providers) && nextProviderId == old(nextProviderId)
      ensures nextModelId == old(nextModelId)
    {
      if req.None? || req.value.modelIds == [] {
        return 400, "", "", [];
      }
      var ids := req.value.modelIds;
      query, args := ToggleStatement(ids, req.value.isActive);
      assert args == [args[0]] + args[1..];
      models := ToggleAll(models, ids, req.value.isActive);
      message := "已更新 " + Itoa(|ids|) + " 个模型";
      status := 200;
    }
  }
}
