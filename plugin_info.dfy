/** The plugin record serialiser: `PluginInfo` maps a plugin record to the
    fields of its output message, `PluginsInfo` maps a list of them and
    `VersionsInfo` wraps a version list.

    The structure converters (`change_struct_type`, `change_list_value_type`,
    `tags_to_dict`, `datetime_to_iso8601`) and `RepositoryInfo(x,
    minimal=True)` are not part of this model: they are opaque functions
    supplied in `Converters`. The output is the message built from the field
    dict; building the protobuf message itself is not modelled. */
module PluginSerialiser {
  import opened PyModel

  /** The opaque conversions the serialiser applies. */
  datatype Converters = Converters(
    structOf: PyVal -> PyVal,        // change_struct_type
    listValueOf: PyVal -> PyVal,     // change_list_value_type
    tagsToDict: PyVal -> PyVal,      // utils.tags_to_dict
    iso8601: PyVal -> PyVal,         // utils.datetime_to_iso8601
    repositoryInfo: PyVal -> PyVal)  // RepositoryInfo(x, minimal=True)

  /** A plugin record. Local plugins carry a `repository` reference, remote
      ones a `repository_info` dict; an absent attribute reads as None. Only
      `repositoryId` is ever written by the serialiser. */
  class Plugin {
    const pluginId: PyVal
    const name: PyVal
    const state: PyVal
    const image: PyVal
    const serviceType: PyVal
    const provider: PyVal
    const registryUrl: PyVal
    const capability: PyVal
    const template: PyVal
    const labels: PyVal
    const tags: PyVal
    const projectId: PyVal
    const domainId: PyVal
    const createdAt: PyVal
    const updatedAt: PyVal
    const repository: PyVal
    const repositoryInfo: PyVal
    var repositoryId: PyVal
  }

  /** `isinstance(v, Struct)`. */
  predicate IsStruct(v: PyVal) {
    v.PyObject? && v.cls == "Struct"
  }

  /** The fields only the full output sets. */
  datatype Details = Details(
    registryUrl: PyVal, capability: PyVal, template: PyVal, labels: PyVal, tags: PyVal,
    projectId: PyVal, domainId: PyVal, createdAt: PyVal, updatedAt: PyVal)

  /** The output message. A field that is `None` here was not among the keys
      of the dict the message is built from. */
  datatype PluginMessage = PluginMessage(
    pluginId: PyVal, name: PyVal, state: PyVal, image: PyVal, serviceType: PyVal, provider: PyVal,
    details: Option<Details>,
    repositoryInfo: Option<PyVal>)

  const MINIMAL_FIELDS: set<string> := {"plugin_id", "name", "state", "image", "service_type", "provider"}
  const FULL_FIELDS: set<string> :=
    {"registry_url", "capability", "template", "labels", "tags", "project_id", "domain_id", "created_at", "updated_at"}

  /** The keys of the dict the message is built from. */
  function FieldNames(m: PluginMessage): set<string> {
    MINIMAL_FIELDS
    + (if m.details.Some? then FULL_FIELDS else {})
    + (if m.repositoryInfo.Some? then {"repository_info"} else {})
  }

  /** The full-output fields of `p`: the structured ones converted, `tags`
      kept when it is already a Struct, each timestamp converted unless the
      conversion is falsy. */
  function DetailsOf(p: Plugin, conv: Converters): (d: Details)
    ensures d.registryUrl == p.registryUrl && d.projectId == p.projectId && d.domainId == p.domainId
    ensures d.capability == conv.structOf(p.capability) && d.template == conv.structOf(p.template)
    ensures d.labels == conv.listValueOf(p.labels)
    ensures IsStruct(p.tags) ==> d.tags == p.tags
    ensures !IsStruct(p.tags) ==> d.tags == conv.structOf(conv.tagsToDict(p.tags))
    ensures Truthy(conv.iso8601(p.createdAt)) ==> d.createdAt == conv.iso8601(p.createdAt)
    ensures !Truthy(conv.iso8601(p.createdAt)) ==> d.createdAt == p.createdAt
    ensures Truthy(conv.iso8601(p.updatedAt)) ==> d.updatedAt == conv.iso8601(p.updatedAt)
    ensures !Truthy(conv.iso8601(p.updatedAt)) ==> d.updatedAt == p.updatedAt
  {
    Details(
      p.registryUrl,
      conv.structOf(p.capability),
      conv.structOf(p.template),
      conv.listValueOf(p.labels),
      if IsStruct(p.tags) then p.tags else conv.structOf(conv.tagsToDict(p.tags)),
      p.projectId,
      p.domainId,
      Or(conv.iso8601(p.createdAt), p.createdAt),
      Or(conv.iso8601(p.updatedAt), p.updatedAt))
  }

  /** The `repository_info` of the full output: from `repository_info` when
      that is set, else from `repository` when that is set, else absent. */
  function RepositoryEntry(p: Plugin, conv: Converters): Option<PyVal> {
    if Truthy(p.repositoryInfo) then Some(conv.repositoryInfo(p.repositoryInfo))
    else if Truthy(p.repository) then Some(conv.repositoryInfo(p.repository))
    else None
  }

  /** The message `PluginInfo(p, minimal)` builds. */
  function InfoOf(p: Plugin, minimal: bool, conv: Converters): PluginMessage {
    PluginMessage(p.pluginId, p.name, p.state, p.image, p.serviceType, p.provider,
                  if minimal then None else Some(DetailsOf(p, conv)),
                  if minimal then None else RepositoryEntry(p, conv))
  }

  /** The output's keys: the six identity keys, copied from the record; the
      nine further keys unless minimal; and `repository_info` exactly when
      not minimal and the record has a `repository` or a `repository_info`. */
  lemma InfoFields(p: Plugin, minimal: bool, conv: Converters)
    ensures var m := InfoOf(p, minimal, conv);
            && m.pluginId == p.pluginId && m.name == p.name && m.state == p.state
            && m.image == p.image && m.serviceType == p.serviceType && m.provider == p.provider
    ensures minimal ==> FieldNames(InfoOf(p, minimal, conv)) == MINIMAL_FIELDS
    ensures !minimal ==>
              FieldNames(InfoOf(p, minimal, conv))
              == MINIMAL_FIELDS + FULL_FIELDS
                 + if Truthy(p.repository) || Truthy(p.repositoryInfo) then {"repository_info"} else {}
  {
  }

  /** `repository_info` appears only in the full output, and when the record
      has both fields it is taken from `repository_info`. */
  lemma RepositoryInfoPrecedence(p: Plugin, minimal: bool, conv: Converters)
    ensures minimal ==> InfoOf(p, minimal, conv).repositoryInfo == None
    ensures !minimal && Truthy(p.repositoryInfo) ==>
              InfoOf(p, minimal, conv).repositoryInfo == Some(conv.repositoryInfo(p.repositoryInfo))
    ensures !minimal && !Truthy(p.repositoryInfo) && Truthy(p.repository) ==>
              InfoOf(p, minimal, conv).repositoryInfo == Some(conv.repositoryInfo(p.repository))
  {
  }

  /** The message of `PluginInfo`, built by successive updates: the
      `repository` entry first, then the `repository_info` entry over it. */
  method BuildInfo(p: Plugin, minimal: bool, conv: Converters) returns (info: PluginMessage)
    ensures info == InfoOf(p, minimal, conv)
  {
    info := PluginMessage(p.pluginId, p.name, p.state, p.image, p.serviceType, p.provider, None, None);
    if !minimal {
      info := info.(details := Some(DetailsOf(p, conv)));
      if Truthy(p.repository) {
        info := info.(repositoryInfo := Some(conv.repositoryInfo(p.repository)));
      }
      if Truthy(p.repositoryInfo) {
        info := info.(repositoryInfo := Some(conv.repositoryInfo(p.repositoryInfo)));
      }
    }
  }

  /** `list(map(partial(PluginInfo, minimal=...), plugins))`, messages only. */
  function InfosOf(plugins: seq<Plugin>, minimal: bool, conv: Converters): seq<PluginMessage> {
    if plugins == [] then []
    else InfosOf(plugins[..|plugins| - 1], minimal, conv) + [InfoOf(plugins[|plugins| - 1], minimal, conv)]
  }

  /** The mapped list has one message per record, in the same order. */
  lemma {:induction false} InfosOfAt(plugins: seq<Plugin>, minimal: bool, conv: Converters)
    ensures |InfosOf(plugins, minimal, conv)| == |plugins|
    ensures forall i :: 0 <= i < |plugins| ==> InfosOf(plugins, minimal, conv)[i] == InfoOf(plugins[i], minimal, conv)
  {
    if plugins != [] {
      var init := plugins[..|plugins| - 1];
      InfosOfAt(init, minimal, conv);
      assert forall i :: 0 <= i < |init| ==> init[i] == plugins[i];
    }
  }

  /** The `repository_id` after the migration step: back-filled from
      `repository.repository_id` when it is empty and `repository` is set. */
  function MigratedId(p: Plugin, current: PyVal): (r: Outcome<PyVal>)
    ensures Truthy(current) || !Truthy(p.repository) ==> r == Ok(current)
    ensures !Truthy(current) && Truthy(p.repository) ==>
              r == Attribute(p.repository, "repository_id")
  {
    if !Truthy(current) && Truthy(p.repository) then Attribute(p.repository, "repository_id")
    else Ok(current)
  }

  /** A back-filled id is left alone by a second migration. */
  lemma MigrationIdempotent(p: Plugin, current: PyVal)
    requires MigratedId(p, current).Ok?
    ensures MigratedId(p, MigratedId(p, current).value) == MigratedId(p, current)
  {
  }

  /** The record's `repository_id` after a call with flag `minimal`. */
  function AfterMigration(p: Plugin, current: PyVal, minimal: bool): PyVal {
    if !minimal && MigratedId(p, current).Ok? then MigratedId(p, current).value else current
  }

  /** The temporary DB-migration step: when `repository_id` is empty and
      `repository` is set, `repository_id` is overwritten with the
      repository's id. Nothing else of the record changes. */
  method MigrateRepositoryId(p: Plugin) returns (r: Outcome<()>)
    modifies p`repositoryId
    ensures var m := MigratedId(p, old(p.repositoryId));
            && (r.Ok? <==> m.Ok?)
            && (!m.Ok? ==> r == Raised(AttributeError("repository_id")))
            && p.repositoryId == (if m.Ok? then m.value else old(p.repositoryId))
  {
    if !Truthy(p.repositoryId) && Truthy(p.repository) {
      var id := Attribute(p.repository, "repository_id");
      if !id.Ok? {
        return Raised(AttributeError("repository_id"));
      }
      p.repositoryId := id.value;
    }
    r := Ok(());
  }

  /** `PluginInfo(plugin_vo, minimal)`: the output fields, and the migration
      step when not minimal. The record is touched only when not minimal,
      `repository_id` is empty and `repository` is set. */
  method PluginInfo(p: Plugin, minimal: bool, conv: Converters) returns (r: Outcome<PluginMessage>)
    modifies p`repositoryId
    ensures var m := if minimal then Ok(old(p.repositoryId)) else MigratedId(p, old(p.repositoryId));
            && (r.Ok? <==> m.Ok?)
            && (r.Ok? ==> r.value == InfoOf(p, minimal, conv))
            && (!m.Ok? ==> r == Raised(AttributeError("repository_id")))
            && p.repositoryId == AfterMigration(p, old(p.repositoryId), minimal)
  {
    var info := BuildInfo(p, minimal, conv);
    if !minimal {
      var migrated := MigrateRepositoryId(p);
      if !migrated.Ok? {
        return Raised(AttributeError("repository_id"));
      }
    }
    r := Ok(info);
  }

  /** The reply of `PluginsInfo`. */
  datatype PluginsReply = PluginsReply(results: seq<PluginMessage>, totalCount: PyVal)

  /** `PluginsInfo(plugin_vos, total_count, minimal=...)`: every record
      serialised in order with the same flag, the count passed through. The
      first record whose migration fails aborts the call. */
  method PluginsInfo(plugins: seq<Plugin>, totalCount: PyVal, minimal: bool, conv: Converters)
    returns (r: Outcome<PluginsReply>)
    modifies set p | p in plugins
    ensures r.Ok? <==> minimal || forall q :: q in plugins ==> MigratedId(q, old(q.repositoryId)).Ok?
    ensures !r.Ok? ==> r == Raised(AttributeError("repository_id"))
    ensures r.Ok? ==> && r.value.totalCount == totalCount
                      && r.value.results == InfosOf(plugins, minimal, conv)
                      && (forall q :: q in plugins ==> q.repositoryId == AfterMigration(q, old(q.repositoryId), minimal))
    ensures forall q :: q in plugins ==>
              q.repositoryId == old(q.repositoryId) || q.repositoryId == AfterMigration(q, old(q.repositoryId), minimal)
  {
    var results: seq<PluginMessage> := [];
    for i := 0 to |plugins|
      invariant results == InfosOf(plugins[..i], minimal, conv)
      invariant forall q :: q in plugins[..i] ==>
                  (minimal || MigratedId(q, old(q.repositoryId)).Ok?)
                  && q.repositoryId == AfterMigration(q, old(q.repositoryId), minimal)
      invariant forall q :: q in plugins && q !in plugins[..i] ==> q.repositoryId == old(q.repositoryId)
    {
      var p := plugins[i];
      if p in plugins[..i] && !minimal {
        MigrationIdempotent(p, old(p.repositoryId));
      }
      var info := PluginInfo(p, minimal, conv);
      if !info.Ok? {
        assert p !in plugins[..i];
        return Raised(AttributeError("repository_id"));
      }
      results := results + [info.value];
      assert plugins[..i + 1][..i] == plugins[..i];
    }
    assert plugins[..|plugins|] == plugins;
    r := Ok(PluginsReply(results, totalCount));
  }

  /** The reply of `VersionsInfo`. */
  datatype VersionsReply = VersionsReply(results: seq<PyVal>, totalCount: nat)

  /** `VersionsInfo(version_list)`: the versions unchanged, counted. */
  function VersionsInfo(versions: seq<PyVal>): (r: VersionsReply)
    ensures r.results == versions && r.totalCount == |versions|
  {
    VersionsReply(versions, |versions|)
  }
}
