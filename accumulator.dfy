/** The process-wide `inputs_map` of create-cp-input.py as an object whose
    methods write into it in place, each proved to leave exactly the context
    its step function in module Context describes. */
module Accumulator {
  import opened Wrappers
  import opened Documents
  import opened Topics
  import opened Credentials
  import opened Connectors
  import opened Context

  /** The `for ... append` loop of the host, query and plugin provisioners. */
  method CopyInOrder(items: seq<string>) returns (copy: seq<string>)
    ensures copy == items
  {
    copy := [];
    var i := 0;
    while i < |items|
      invariant 0 <= i <= |items|
      invariant copy == items[..i]
    {
      copy := copy + [items[i]];
      i := i + 1;
    }
  }

  class InputsMap {
    var entries: Context

    /** The context as the module-level initialiser builds it. */
    constructor ()
      ensures entries == InitialContext()
    {
      entries := InitialContext();
    }

    /** `provision_ksql_query`. */
    method ProvisionKsqlQuery(queries: seq<string>)
      modifies this
      ensures entries == old(entries)[KsqlQueriesKey := TextList(queries)]
    {
      var copy := CopyInOrder(queries);
      entries := entries[KsqlQueriesKey := TextList(copy)];
    }

    /** `provision_ksql_hosts`. */
    method ProvisionKsqlHosts(hosts: seq<string>)
      modifies this
      ensures entries == old(entries)[KsqlHostsKey := TextList(hosts)]
    {
      var copy := CopyInOrder(hosts);
      entries := entries[KsqlHostsKey := TextList(copy)];
    }

    /** `process_ksql`. */
    method ProcessKsql(doc: KsqlDoc) returns (failure: Option<Error>)
      modifies this
      ensures Step(entries, failure) == KsqlStep(old(entries), doc)
    {
      if Provisioned(doc.provision) {
        if doc.hosts.None? {
          return Some(MissingKey("hosts"));
        }
        ProvisionKsqlHosts(doc.hosts.value);
        if doc.queries.None? {
          return Some(MissingKey("queries"));
        }
        ProvisionKsqlQuery(doc.queries.value);
      }
      failure := None;
    }

    /** `provision_connect_plugins`, for one plugin type. */
    method ProvisionConnectPlugins(plugins: seq<string>, pluginType: string)
      modifies this
      ensures entries == old(entries)[PluginsKey(pluginType) := TextList(plugins)]
    {
      var copy := CopyInOrder(plugins);
      entries := entries[PluginsKey(pluginType) := TextList(copy)];
    }

    /** `provision_connect_connectors`, over connector files already parsed:
        `files` maps a path to its parsed content, and a path it lacks is a
        file that cannot be opened. */
    method ProvisionConnectConnectors(paths: seq<string>, files: map<string, ConnectorJson>) returns (failure: Option<Error>)
      modifies this
      ensures Step(entries, failure) == ConnectorsStep(old(entries), paths, files)
    {
      var connectors: seq<string> := [];
      var views: seq<ConnectorView> := [];
      var i := 0;
      while i < |paths|
        invariant 0 <= i <= |paths|
        invariant connectors == paths[..i]
        invariant |views| == i
        invariant forall k :: 0 <= k < i ==> LoadConnector(paths[k], files) == Ok(views[k])
        invariant entries == old(entries)
      {
        connectors := connectors + [paths[i]];
        if paths[i] !in files {
          FirstFailureIsReported(paths, files, i);
          return Some(FileNotFound(paths[i]));
        }
        var data := files[paths[i]];
        if data.name.None? {
          FirstFailureIsReported(paths, files, i);
          return Some(MissingKey("name"));
        }
        if data.config.None? {
          FirstFailureIsReported(paths, files, i);
          return Some(MissingKey("config"));
        }
        var lines := FlattenConfig(data.config.value);
        views := views + [ConnectorView(data.name.value, lines)];
        i := i + 1;
      }
      assert connectors == paths;
      assert views == LoadConnectors(paths, files).value;
      entries := entries[ConnectConnectorsKey := TextList(connectors)];
      entries := entries[ConnectConnectorsJsonKey := ConnectorList(views)];
      failure := None;
    }

    /** `provision_connect_hosts`. */
    method ProvisionConnectHosts(hosts: seq<string>)
      modifies this
      ensures entries == old(entries)[ConnectHostsKey := TextList(hosts)]
    {
      var copy := CopyInOrder(hosts);
      entries := entries[ConnectHostsKey := TextList(copy)];
    }

    /** `process_connect`. */
    method ProcessConnect(doc: ConnectDoc, files: map<string, ConnectorJson>) returns (failure: Option<Error>)
      modifies this
      ensures Step(entries, failure) == ConnectStep(old(entries), doc, files)
    {
      if Provisioned(doc.provision) {
        if doc.hosts.None? {
          return Some(MissingKey("hosts"));
        }
        ProvisionConnectHosts(doc.hosts.value);
        if doc.plugins.None? {
          return Some(MissingKey("plugins"));
        }
        if doc.plugins.value.hub.None? {
          return Some(MissingKey(Hub));
        }
        ProvisionConnectPlugins(doc.plugins.value.hub.value, Hub);
        if doc.plugins.value.local.None? {
          return Some(MissingKey(Local));
        }
        ProvisionConnectPlugins(doc.plugins.value.local.value, Local);
        if doc.plugins.value.remote.None? {
          return Some(MissingKey(Remote));
        }
        ProvisionConnectPlugins(doc.plugins.value.remote.value, Remote);
        if doc.connectors.None? {
          return Some(MissingKey("connectors"));
        }
        failure := ProvisionConnectConnectors(doc.connectors.value, files);
        return;
      }
      failure := None;
    }

    /** One `inputs_map[service] = get_api_config(docs[service])` line. */
    method StoreApiConfig(docs: CloudDoc, service: string) returns (failure: Option<Error>)
      modifies this
      ensures Step(entries, failure) == ServiceStep(old(entries), docs, service)
    {
      if service !in docs.services {
        return Some(MissingKey(service));
      }
      var config := GetApiConfig(docs.services[service]);
      if config.Err? {
        return Some(config.error);
      }
      entries := entries[service := Fields(config.value)];
      failure := None;
    }

    /** `process_ccloud_config`. */
    method ProcessCcloudConfig(docs: CloudDoc) returns (failure: Option<Error>)
      modifies this
      ensures Step(entries, failure) == CcloudStep(old(entries), docs)
    {
      if docs.bootstrapServers.None? {
        return Some(MissingKey(BootstrapServersKey));
      }
      entries := entries[BootstrapServersKey := Text(docs.bootstrapServers.value)];
      failure := StoreApiConfig(docs, ConnectKey);
      if failure.Some? {
        return;
      }
      failure := StoreApiConfig(docs, ConsumerKey);
      if failure.Some? {
        return;
      }
      failure := StoreApiConfig(docs, ProducerKey);
      if failure.Some? {
        return;
      }
      failure := StoreApiConfig(docs, KsqlKey);
      if failure.Some? {
        return;
      }
      failure := StoreApiConfig(docs, SchemaRegistryKey);
      if failure.Some? {
        return;
      }
      var registry := docs.services[SchemaRegistryKey];
      if UrlKey !in registry {
        return Some(MissingKey(UrlKey));
      }
      // the nested write into the block stored just above
      entries := entries[SchemaRegistryKey := Fields(entries[SchemaRegistryKey].fields[UrlKey := registry[UrlKey]])];
    }

    /** `process`: the timestamp (`now` stands for the clock), the feature
        name, then the broker, ksql and connect sections in that order. */
    method Process(doc: FeatureDoc, now: string, files: map<string, ConnectorJson>)
      returns (result: Result<seq<ResolvedTopic>, Error>)
      modifies this
      ensures Processed(entries, result) == ProcessStep(old(entries), doc, now, files)
    {
      entries := entries[TimestampKey := Text(now)];
      if doc.name.None? {
        return Err(MissingKey(NameKey));
      }
      var feid := doc.name.value;
      entries := entries[NameKey := Text(feid)];
      if doc.broker.None? {
        return Err(MissingKey("broker"));
      }
      result := ProcessBroker(feid, doc.broker.value);
      if result.Err? {
        return;
      }
      if doc.ksql.None? {
        return Err(MissingKey(KsqlKey));
      }
      var failure := ProcessKsql(doc.ksql.value);
      if failure.Some? {
        return Err(failure.value);
      }
      if doc.connect.None? {
        return Err(MissingKey(ConnectKey));
      }
      failure := ProcessConnect(doc.connect.value, files);
      if failure.Some? {
        return Err(failure.value);
      }
    }
  }
}
