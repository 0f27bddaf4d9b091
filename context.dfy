/** The rendering context (`inputs_map` of create-cp-input.py) and what each
    of its writers does to it, as functions from the old context to the new
    one.  The class in module Accumulator performs these writes in place. */
module Context {
  import opened Wrappers
  import opened Documents
  import opened Topics
  import opened Credentials
  import opened Connectors

  /** The values the context holds. */
  datatype Value =
    | Text(text: string)                          // '', names, the timestamp, bootstrap servers
    | TextList(items: seq<string>)                // hosts, queries, plugins, connector paths
    | Fields(fields: map<string, string>)         // credential blocks, cluster_data, projects
    | ConnectorList(connectors: seq<ConnectorView>)

  type Context = map<string, Value>

  /** The context after a writer, and the failure that stopped it, if any.
      Writes made before a failure stay. */
  datatype Step = Step(context: Context, failure: Option<Error>)

  /** The context after `process`, and the topics the broker section resolved to. */
  datatype Processed = Processed(context: Context, result: Result<seq<ResolvedTopic>, Error>)

  const TimestampKey: string := "timestamp"
  const NameKey: string := "name"
  const BootstrapServersKey: string := "bootstrap_servers"
  const ConnectKey: string := "connect"
  const ConsumerKey: string := "consumer"
  const ProducerKey: string := "producer"
  const KsqlKey: string := "ksql"
  const SchemaRegistryKey: string := "schema_registry"
  const UrlKey: string := "url"
  const KsqlQueriesKey: string := "ksql_queries"
  const KsqlHostsKey: string := "ksql_hosts"
  const ConnectHostsKey: string := "connect_hosts"
  const ConnectConnectorsKey: string := "connect_connectors"
  const ConnectConnectorsJsonKey: string := "connect_connectors_json"
  const Hub: string := "hub"
  const Local: string := "local"
  const Remote: string := "remote"

  /** `connect_plugins_<type>`, where one plugin list is stored. */
  function PluginsKey(pluginType: string): string
  {
    "connect_plugins_" + pluginType
  }

  /** The context before any writer runs. */
  function InitialContext(): (c: Context)
    ensures forall k :: k in {KsqlQueriesKey, KsqlHostsKey, ConnectHostsKey, ConnectConnectorsKey} ==>
      k in c && c[k] == TextList([])
    ensures TimestampKey in c && c[TimestampKey] == Text("")
    ensures NameKey !in c && ConnectConnectorsJsonKey !in c && KsqlKey !in c && SchemaRegistryKey !in c
  {
    map[
      TimestampKey := Text(""), "context" := Text(""), "company" := Text(""), "env" := Text(""),
      "source" := Text(""), "projects" := Fields(map[]), BootstrapServersKey := Text(""),
      ConnectKey := TextList([]), ConsumerKey := TextList([]), ProducerKey := TextList([]),
      "cluster_data" := Fields(map["ssh_username" := "TODO", "ssh_key" := "TODO"]),
      KsqlQueriesKey := TextList([]), KsqlHostsKey := TextList([]), ConnectHostsKey := TextList([]),
      ConnectConnectorsKey := TextList([]), "connect_plugins" := TextList([])]
  }

  /** `b` is `a` except possibly at the given keys. */
  ghost predicate SameOutside(a: Context, b: Context, keys: set<string>)
  {
    forall k :: k !in keys ==> (k in a <==> k in b) && (k in a ==> a[k] == b[k])
  }

  // ---------------------------------------------------------------------
  // ksql

  /** `process_ksql`: behind the provision gate, store the hosts, then the queries. */
  function KsqlStep(c: Context, doc: KsqlDoc): (s: Step)
    ensures !Provisioned(doc.provision) ==> s == Step(c, None)
    ensures s.failure.Some? ==> s.failure.value.MissingKey?
    ensures SameOutside(c, s.context, {KsqlHostsKey, KsqlQueriesKey})
  {
    if !Provisioned(doc.provision) then Step(c, None)
    else if doc.hosts.None? then Step(c, Some(MissingKey("hosts")))
    else
      var withHosts := c[KsqlHostsKey := TextList(doc.hosts.value)];
      if doc.queries.None? then Step(withHosts, Some(MissingKey("queries")))
      else Step(withHosts[KsqlQueriesKey := TextList(doc.queries.value)], None)
  }

  /** Nothing is stored unless `provision` is present and equal to True. */
  lemma KsqlGate(c: Context, doc: KsqlDoc)
    ensures !Provisioned(doc.provision) ==> KsqlStep(c, doc) == Step(c, None)
    ensures KsqlStep(c, doc).context != c ==> doc.provision == Some(Bool(true)) || doc.provision == Some(Int(1))
  {
  }

  /** When provisioned, the section fails exactly on a missing `hosts` or
      `queries` key; otherwise both lists are stored as given, in order, and
      no other key changes. */
  lemma KsqlStoresLists(c: Context, doc: KsqlDoc)
    requires Provisioned(doc.provision)
    ensures var s := KsqlStep(c, doc);
      && (s.failure.None? <==> doc.hosts.Some? && doc.queries.Some?)
      && (s.failure.None? ==>
            && s.context[KsqlHostsKey] == TextList(doc.hosts.value)
            && s.context[KsqlQueriesKey] == TextList(doc.queries.value))
      && SameOutside(c, s.context, {KsqlHostsKey, KsqlQueriesKey})
  {
  }

  // ---------------------------------------------------------------------
  // connect

  /** `provision_connect_connectors`: both keys are written only once every
      connector has loaded. */
  function ConnectorsStep(c: Context, paths: seq<string>, files: map<string, ConnectorJson>): (s: Step)
    ensures s.failure.None? <==> LoadConnectors(paths, files).Ok?
    ensures s.failure.Some? ==> s.context == c
    ensures s.failure.None? ==>
      && ConnectConnectorsKey in s.context && ConnectConnectorsJsonKey in s.context
      && s.context[ConnectConnectorsKey] == TextList(paths)
      && s.context[ConnectConnectorsJsonKey] == ConnectorList(LoadConnectors(paths, files).value)
    ensures SameOutside(c, s.context, {ConnectConnectorsKey, ConnectConnectorsJsonKey})
  {
    match LoadConnectors(paths, files)
    case Err(e) => Step(c, Some(e))
    case Ok(views) => Step(c[ConnectConnectorsKey := TextList(paths)][ConnectConnectorsJsonKey := ConnectorList(views)], None)
  }

  /** `process_connect`: behind the provision gate, store the hosts, the hub,
      local and remote plugin lists, then the connectors. */
  function ConnectStep(c: Context, doc: ConnectDoc, files: map<string, ConnectorJson>): (s: Step)
    ensures !Provisioned(doc.provision) ==> s == Step(c, None)
    ensures SameOutside(c, s.context, ConnectKeys())
  {
    if !Provisioned(doc.provision) then Step(c, None)
    else if doc.hosts.None? then Step(c, Some(MissingKey("hosts")))
    else
      var c1 := c[ConnectHostsKey := TextList(doc.hosts.value)];
      if doc.plugins.None? then Step(c1, Some(MissingKey("plugins")))
      else if doc.plugins.value.hub.None? then Step(c1, Some(MissingKey(Hub)))
      else
        var c2 := c1[PluginsKey(Hub) := TextList(doc.plugins.value.hub.value)];
        if doc.plugins.value.local.None? then Step(c2, Some(MissingKey(Local)))
        else
          var c3 := c2[PluginsKey(Local) := TextList(doc.plugins.value.local.value)];
          if doc.plugins.value.remote.None? then Step(c3, Some(MissingKey(Remote)))
          else
            var c4 := c3[PluginsKey(Remote) := TextList(doc.plugins.value.remote.value)];
            if doc.connectors.None? then Step(c4, Some(MissingKey("connectors")))
            else ConnectorsStep(c4, doc.connectors.value, files)
  }

  /** The keys `process_connect` may write. */
  function ConnectKeys(): set<string>
  {
    {ConnectHostsKey, PluginsKey(Hub), PluginsKey(Local), PluginsKey(Remote),
     ConnectConnectorsKey, ConnectConnectorsJsonKey}
  }

  /** Nothing is stored unless `provision` is present and equal to True. */
  lemma ConnectGate(c: Context, doc: ConnectDoc, files: map<string, ConnectorJson>)
    ensures ConnectStep(c, doc, files).context != c ==>
      doc.provision == Some(Bool(true)) || doc.provision == Some(Int(1))
  {
  }

  /** A provisioned connect section succeeds exactly when every key it reads
      exists and every connector file loads. */
  lemma ConnectSucceedsIff(c: Context, doc: ConnectDoc, files: map<string, ConnectorJson>)
    requires Provisioned(doc.provision)
    ensures ConnectStep(c, doc, files).failure.None? <==>
      && doc.hosts.Some?
      && doc.plugins.Some?
      && doc.plugins.value.hub.Some? && doc.plugins.value.local.Some? && doc.plugins.value.remote.Some?
      && doc.connectors.Some?
      && forall i :: 0 <= i < |doc.connectors.value| ==> LoadConnector(doc.connectors.value[i], files).Ok?
  {
  }

  /** No key outside the connect keys changes, on success or failure. */
  lemma ConnectFrame(c: Context, doc: ConnectDoc, files: map<string, ConnectorJson>)
    ensures SameOutside(c, ConnectStep(c, doc, files).context, ConnectKeys())
  {
  }

  /** On success every list is stored as given, under its own key, and each
      connector appears, in order, with its name and its flattened
      configuration. */
  lemma ConnectStoresLists(c: Context, doc: ConnectDoc, files: map<string, ConnectorJson>)
    requires Provisioned(doc.provision)
    ensures var s := ConnectStep(c, doc, files);
      s.failure.None? ==>
        && s.context[ConnectHostsKey] == TextList(doc.hosts.value)
        && s.context[PluginsKey(Hub)] == TextList(doc.plugins.value.hub.value)
        && s.context[PluginsKey(Local)] == TextList(doc.plugins.value.local.value)
        && s.context[PluginsKey(Remote)] == TextList(doc.plugins.value.remote.value)
        && s.context[ConnectConnectorsKey] == TextList(doc.connectors.value)
        && s.context[ConnectConnectorsJsonKey].ConnectorList?
        && var views := s.context[ConnectConnectorsJsonKey].connectors;
        && |views| == |doc.connectors.value|
        && forall i :: 0 <= i < |views| ==>
             var json := files[doc.connectors.value[i]];
             views[i] == ConnectorView(json.name.value, ConfigLines(json.config.value))
  {
    var s := ConnectStep(c, doc, files);
    if s.failure.None? {
      var paths := doc.connectors.value;
      var views := LoadConnectors(paths, files).value;
      assert forall i :: 0 <= i < |paths| ==> LoadConnector(paths[i], files) == Ok(views[i]);
    }
  }

  // ---------------------------------------------------------------------
  // credentials

  /** One service of `process_ccloud_config`: look the block up, project it,
      store the projection under the service's name. */
  function ServiceStep(c: Context, docs: CloudDoc, service: string): (s: Step)
    ensures s.failure.None? <==> service in docs.services && GetApiConfig(docs.services[service]).Ok?
    ensures s.failure.None? ==> s.context == c[service := Fields(GetApiConfig(docs.services[service]).value)]
    ensures s.failure.Some? ==> s.context == c
  {
    if service !in docs.services then Step(c, Some(MissingKey(service)))
    else
      match GetApiConfig(docs.services[service])
      case Err(e) => Step(c, Some(e))
      case Ok(v) => Step(c[service := Fields(v)], None)
  }

  /** `process_ccloud_config`: bootstrap servers, then the connect, consumer,
      producer, ksql and schema_registry credentials, then the registry url. */
  function CcloudStep(c: Context, docs: CloudDoc): (s: Step)
    ensures s.failure.Some? ==> s.failure.value.MissingKey?
    ensures s.failure.None? ==>
      && docs.bootstrapServers.Some?
      && BootstrapServersKey in s.context
      && s.context[BootstrapServersKey] == Text(docs.bootstrapServers.value)
  {
    if docs.bootstrapServers.None? then Step(c, Some(MissingKey(BootstrapServersKey)))
    else
      var s0 := Step(c[BootstrapServersKey := Text(docs.bootstrapServers.value)], None);
      var s1 := ServiceStep(s0.context, docs, ConnectKey);
      if s1.failure.Some? then s1 else
      var s2 := ServiceStep(s1.context, docs, ConsumerKey);
      if s2.failure.Some? then s2 else
      var s3 := ServiceStep(s2.context, docs, ProducerKey);
      if s3.failure.Some? then s3 else
      var s4 := ServiceStep(s3.context, docs, KsqlKey);
      if s4.failure.Some? then s4 else
      var s5 := ServiceStep(s4.context, docs, SchemaRegistryKey);
      if s5.failure.Some? then s5 else
      var registry := docs.services[SchemaRegistryKey];
      if UrlKey !in registry then Step(s5.context, Some(MissingKey(UrlKey)))
      else Step(s5.context[SchemaRegistryKey :=
                  Fields(GetApiConfig(registry).value[UrlKey := registry[UrlKey]])], None)
  }

  /** The services whose credentials are projected. */
  function CredentialServices(): set<string>
  {
    {ConnectKey, ConsumerKey, ProducerKey, KsqlKey, SchemaRegistryKey}
  }

  /** A block that has both credential keys. */
  predicate HasCredentials(docs: CloudDoc, service: string)
  {
    service in docs.services && ApiKey in docs.services[service] && ApiSecret in docs.services[service]
  }

  /** There is no fallback: the credentials are stored exactly when the
      bootstrap servers, every service block with both keys, and the
      registry url are present. */
  lemma CcloudSucceedsIff(c: Context, docs: CloudDoc)
    ensures CcloudStep(c, docs).failure.None? <==>
      && docs.bootstrapServers.Some?
      && HasCredentials(docs, ConnectKey)
      && HasCredentials(docs, ConsumerKey)
      && HasCredentials(docs, ProducerKey)
      && HasCredentials(docs, KsqlKey)
      && HasCredentials(docs, SchemaRegistryKey)
      && UrlKey in docs.services[SchemaRegistryKey]
  {
  }

  /** The credentials a service block projects to. */
  function Projected(docs: CloudDoc, service: string): map<string, string>
    requires HasCredentials(docs, service)
  {
    GetApiConfig(docs.services[service]).value
  }

  /** A completed credentials step has written the five projections over the
      bootstrap servers, the registry's with its url added. */
  lemma CcloudCompletedContext(c: Context, docs: CloudDoc)
    requires CcloudStep(c, docs).failure.None?
    ensures docs.bootstrapServers.Some?
    ensures forall service :: service in CredentialServices() ==> HasCredentials(docs, service)
    ensures UrlKey in docs.services[SchemaRegistryKey]
    ensures CcloudStep(c, docs).context ==
      c[BootstrapServersKey := Text(docs.bootstrapServers.value)]
       [ConnectKey := Fields(Projected(docs, ConnectKey))]
       [ConsumerKey := Fields(Projected(docs, ConsumerKey))]
       [ProducerKey := Fields(Projected(docs, ProducerKey))]
       [KsqlKey := Fields(Projected(docs, KsqlKey))]
       [SchemaRegistryKey := Fields(Projected(docs, SchemaRegistryKey)[UrlKey := docs.services[SchemaRegistryKey][UrlKey]])]
  {
    CcloudSucceedsIff(c, docs);
  }

  /** On success each service holds exactly `api_key` and `api_secret`, copied
      from its own block, and the schema registry also `url`. */
  lemma CcloudProjectsCredentials(c: Context, docs: CloudDoc)
    requires CcloudStep(c, docs).failure.None?
    ensures var s := CcloudStep(c, docs).context;
      && HasCredentials(docs, SchemaRegistryKey) && UrlKey in docs.services[SchemaRegistryKey]
      && docs.bootstrapServers.Some?
      && s[BootstrapServersKey] == Text(docs.bootstrapServers.value)
      && (forall service :: service in CredentialServices() - {SchemaRegistryKey} ==>
            HasCredentials(docs, service) && s[service] == Fields(Projected(docs, service)))
      && s[SchemaRegistryKey].Fields?
      && var registry := docs.services[SchemaRegistryKey];
      && var stored := s[SchemaRegistryKey].fields;
      && stored.Keys == {ApiKey, ApiSecret, UrlKey}
      && stored[ApiKey] == registry[ApiKey] && stored[ApiSecret] == registry[ApiSecret]
      && stored[UrlKey] == registry[UrlKey]
  {
    CcloudCompletedContext(c, docs);
    var s := CcloudStep(c, docs).context;
    forall service | service in CredentialServices() - {SchemaRegistryKey}
      ensures HasCredentials(docs, service) && s[service] == Fields(Projected(docs, service))
    {
      assert service == ConnectKey || service == ConsumerKey || service == ProducerKey || service == KsqlKey;
    }
  }

  /** No key other than the bootstrap servers and the five services changes,
      whether the step completes or fails. */
  lemma CcloudFrame(c: Context, docs: CloudDoc)
    ensures SameOutside(c, CcloudStep(c, docs).context, CredentialServices() + {BootstrapServersKey})
  {
    if docs.bootstrapServers.Some? {
      var c0 := c[BootstrapServersKey := Text(docs.bootstrapServers.value)];
      var s1 := ServiceStep(c0, docs, ConnectKey);
      var s2 := ServiceStep(s1.context, docs, ConsumerKey);
      var s3 := ServiceStep(s2.context, docs, ProducerKey);
      var s4 := ServiceStep(s3.context, docs, KsqlKey);
      var s5 := ServiceStep(s4.context, docs, SchemaRegistryKey);
      var result := CcloudStep(c, docs).context;
      assert result in {c0, s1.context, s2.context, s3.context, s4.context, s5.context} ||
             result == s5.context[SchemaRegistryKey := result[SchemaRegistryKey]];
      forall k | k !in CredentialServices() + {BootstrapServersKey}
        ensures (k in c <==> k in result) && (k in c ==> c[k] == result[k])
      {
        assert k in c <==> k in s5.context;
        assert k in c ==> c[k] == s5.context[k];
      }
    }
  }

  // ---------------------------------------------------------------------
  // process

  /** `process`: timestamp and name, then broker, ksql and connect in that
      order; the first failure stops the run. */
  function ProcessStep(c: Context, doc: FeatureDoc, now: string, files: map<string, ConnectorJson>): (p: Processed)
    ensures TimestampKey in p.context && p.context[TimestampKey] == Text(now)
    ensures doc.name.Some? ==> NameKey in p.context && p.context[NameKey] == Text(doc.name.value)
    ensures p.result.Ok? ==>
      && doc.name.Some? && doc.broker.Some?
      && p.result == ResolveBroker(doc.name.value, doc.broker.value)
  {
    var stamped := c[TimestampKey := Text(now)];
    if doc.name.None? then Processed(stamped, Err(MissingKey(NameKey)))
    else
      var named := stamped[NameKey := Text(doc.name.value)];
      if doc.broker.None? then Processed(named, Err(MissingKey("broker")))
      else
        match ResolveBroker(doc.name.value, doc.broker.value)
        case Err(e) => Processed(named, Err(e))
        case Ok(topics) =>
          if doc.ksql.None? then Processed(named, Err(MissingKey(KsqlKey)))
          else
            var k := KsqlStep(named, doc.ksql.value);
            if k.failure.Some? then Processed(k.context, Err(k.failure.value))
            else if doc.connect.None? then Processed(k.context, Err(MissingKey(ConnectKey)))
            else
              var s := ConnectStep(k.context, doc.connect.value, files);
              if s.failure.Some? then Processed(s.context, Err(s.failure.value))
              else Processed(s.context, Ok(topics))
  }

  /** The sections run in order: when the broker section fails, neither the
      ksql nor the connect keys are touched. */
  lemma BrokerFailureStopsTheRun(c: Context, doc: FeatureDoc, now: string, files: map<string, ConnectorJson>)
    requires doc.name.Some? && doc.broker.Some?
    requires ResolveBroker(doc.name.value, doc.broker.value).Err?
    ensures ProcessStep(c, doc, now, files) ==
      Processed(c[TimestampKey := Text(now)][NameKey := Text(doc.name.value)],
                Err(ResolveBroker(doc.name.value, doc.broker.value).error))
  {
  }

  /** A run that completes reports the broker's resolved topics and has
      stored what the ksql and then the connect section store. */
  lemma CompletedRun(c: Context, doc: FeatureDoc, now: string, files: map<string, ConnectorJson>)
    requires ProcessStep(c, doc, now, files).result.Ok?
    ensures doc.name.Some? && doc.broker.Some? && doc.ksql.Some? && doc.connect.Some?
    ensures ProcessStep(c, doc, now, files).result == ResolveBroker(doc.name.value, doc.broker.value)
    ensures var named := c[TimestampKey := Text(now)][NameKey := Text(doc.name.value)];
      var k := KsqlStep(named, doc.ksql.value);
      && k.failure.None?
      && ProcessStep(c, doc, now, files).context == ConnectStep(k.context, doc.connect.value, files).context
  {
  }
}
