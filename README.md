# Input generator for cp-ansible and JulieOps: a Dafny model

`create-cp-input.py` reads a feature-environment document and a Confluent
Cloud credentials document and fills one process-wide dictionary,
`inputs_map`, that is then rendered through Jinja2 templates into a
cp-ansible inventory and a JulieOps topic descriptor. This project models the
deterministic part of that program:

- topic resolution (`process_topic_item`, `process_broker`): the qualified
  topic name and the three-tier rule for partitions and replication (the
  item's own value, else a non-zero override, else 1), including the failures
  the source runs into when the override block is absent or incomplete;
- credential projection (`get_api_config`, `process_ccloud_config`):
  exactly `api_key` and `api_secret` per service, plus `url` for the schema
  registry, with no fallback;
- the `inputs_map` accumulator: the ksql and connect provisioners, the
  connector-configuration flattening into `"key : value"` lines, the
  `provision == True` gates and the order of `process`.

Layout:

| file | module | contents |
|---|---|---|
| wrappers.dfy | Wrappers | `Option`, `Result` |
| documents.dfy | Documents | the parsed input documents, the `Error` kinds, the provision gate |
| topics.dfy | Topics | topic resolution as functions, `ProcessBroker` as the source's loops, lemmas |
| credentials.dfy | Credentials | `GetApiConfig` and its lemmas |
| connectors.dfy | Connectors | configuration flattening and connector loading |
| context.dfy | Context | the context's values and keys, one step function per writer, lemmas |
| accumulator.dfy | Accumulator | class `InputsMap` whose methods write the context in place |

Each key a document may lack is an `Option` field, and each Python exception
the code can raise on these documents is an `Error`: `MissingKey` for a
`KeyError`, `Unbound` for the `UnboundLocalError` of an override local that
was never assigned, `FileNotFound` for a connector file that cannot be
opened. The source only logs the resolved topics; here `ResolveBroker` and
`ProcessBroker` return them, so that the precedence rules can be stated.

Behaviour worth knowing, all as the code does it:

- There is no default for the override values. Without an `override` block
  the locals `override_part` and `override_repl` are never assigned, so the
  first dependency or topic to resolve fails on `override_part`; with no item
  to resolve the run goes on.
- The log statement on line 104 reads both override locals, so an `override`
  block that lacks `partitions` or `replication` fails there, even when no
  topic follows. A topic `{name: orders, partitions: 6}` under an override
  with only `partitions: 3` therefore does not resolve to partitions 6 and
  replication 1: the run stops (`ExamplePartialOverrideFails`).
- There is no global credential fallback: every one of the five service
  blocks must carry both `api_key` and `api_secret`, looked up in that order.
- `do_process` runs `process_ccloud_config` before `process`, so the
  credentials are stored before the broker, ksql and connect sections run.
- The provision gate is Python's `doc['provision'] == True`, which also holds
  for the integer 1.
- A writer that fails keeps the writes it made before the failure; the run
  then aborts, so nothing is rendered.

## Model

| member | source | states |
|---|---|---|
| Topics.ResolveField | create-cp-input.py:77-89 | one field's three-tier rule: an item value is the result; without one the result is the override or 1 and never 0, and a non-zero override is used; stated further by PerItemValueWins, FallsBackToOverrideThenOne and FieldsAreIndependent |
| Topics.QualifiedName | create-cp-input.py:76 | the qualified name is the feature id, a dot and the item name, and both parts can be read back from it |
| Topics.ResolveTopic | create-cp-input.py:74-89 | fails exactly when the item has no `name` (a lookup failure on `name`); otherwise the result carries the qualified name |
| Topics.PerItemValueWins | create-cp-input.py:77-78 | a partition count or replication factor on the item is the result, whatever the override |
| Topics.FallsBackToOverrideThenOne | create-cp-input.py:79-89 | without an item value a non-zero override is used, a zero override gives 1, so an absent item value never resolves to 0 |
| Topics.FieldsAreIndependent | create-cp-input.py:77-89 | partitions do not depend on the item's replication or the replication override, and replication does not depend on the partition inputs |
| Topics.ExampleOverrideApplies | create-cp-input.py:74-89 | `{name: orders}` with override 3/2 under feature `fe1` resolves to `fe1.orders`, 3, 2 |
| Topics.ResolveItems | create-cp-input.py:109-110 | a list resolves exactly when it is empty or the override is bound and every item has a name; then item by item in order; otherwise the error is the unbound `override_part` or the missing `name` |
| Topics.ExtractOverride | create-cp-input.py:96-104 | no override block leaves both locals unbound; a complete block binds both to its values; a block lacking a key fails on `override_part`, else on `override_repl`, at the log line |
| Topics.ResolveBroker | create-cp-input.py:94-120 | `process_broker` as a function: on success the `topic` section and `dependencies` exist and one topic comes back per dependency and topic; every failure is a missing key or an unbound local; stated further by ResolutionOrder, BrokerSucceedsIff and the failure lemmas |
| Topics.ResolveList | create-cp-input.py:109-110 | the loop calling `process_topic_item` on each item gives exactly `ResolveItems` |
| Topics.ProcessBroker | create-cp-input.py:94-120 | the conditionally assigned override locals, then the loops over dependencies and topics, give exactly `ResolveBroker` |
| Topics.ResolutionOrder | create-cp-input.py:109-118 | a successful run yields every dependency resolved in order, followed by every topic resolved in order |
| Topics.BrokerSucceedsIff | create-cp-input.py:96-118 | the broker section completes iff the `topic` section exists, the override block is absent or complete, `dependencies` exists, an override exists once there is an item, and every item has a name |
| Topics.MissingOverrideFailsWhenThereIsWork | create-cp-input.py:109-118 | with no override block and at least one dependency or topic the run fails on the unbound `override_part` |
| Topics.IncompleteOverrideFails | create-cp-input.py:96-104 | an override block lacking `partitions` or `replication` fails on the unassigned local, whatever the lists hold |
| Topics.MissingSectionsAndKeys | create-cp-input.py:96-114 | a missing `topic` or `dependencies` is a lookup failure; a missing `topics` returns the resolved dependencies |
| Topics.ExamplePartialOverrideFails | create-cp-input.py:96-104 | a topic with its own partitions under an override that gives only partitions fails on `override_repl` |
| Credentials.GetApiConfig | create-cp-input.py:215-219 | succeeds iff the block has `api_key` and `api_secret` (the first missing one is the error); the result has exactly those keys with the block's values |
| Credentials.CompleteBlockIsReturnedUnchanged | create-cp-input.py:215-219 | a block holding just the two credentials is returned unchanged |
| Credentials.ProjectionIsIdempotent | create-cp-input.py:215-219 | projecting a projection gives the same projection |
| Credentials.OnlyCredentialKeysMatter | create-cp-input.py:215-219 | blocks that agree on the two credential keys project to the same result; other keys are ignored |
| Connectors.ConfigLine | create-cp-input.py:164 | the display line is key, `" : "`, value, and key and value can be read back from its two ends |
| Connectors.ConfigLines | create-cp-input.py:162-164 | one line per configuration entry, in iteration order |
| Connectors.FlattenConfig | create-cp-input.py:162-164 | the flattening loop yields exactly `ConfigLines` |
| Connectors.LoadConnector | create-cp-input.py:157-166 | one connector loads iff its file opens and has `name` and `config`; otherwise the error is the missing file, then `name`, then `config`; the view carries the name and exactly the `key : value` lines of its config |
| Connectors.LoadConnectors | create-cp-input.py:155-166 | succeeds iff every connector file opens and has `name` and `config`; then one view per path in order; otherwise the error of the first connector that fails |
| Connectors.FirstFailureIsReported | create-cp-input.py:155-161 | the connector loop stops with the error of the first failing connector |
| Context.InitialContext | create-cp-input.py:60 | the list entries the writers fill start empty, the timestamp starts as `''`, and `name`, `ksql`, `schema_registry` and `connect_connectors_json` are not present yet |
| Context.KsqlStep | create-cp-input.py:137-141 | `process_ksql` as a function: unprovisioned it changes nothing and does not fail; every failure is a missing key; only `ksql_hosts` and `ksql_queries` can change; stated further by KsqlGate and KsqlStoresLists |
| Context.KsqlGate | create-cp-input.py:139 | nothing is stored unless `provision` is present and equal to True (boolean true or integer 1) |
| Context.KsqlStoresLists | create-cp-input.py:122-141 | a provisioned ksql section fails iff `hosts` or `queries` is missing; on success both lists are stored unchanged under `ksql_hosts` and `ksql_queries`; no other key changes |
| Context.ConnectorsStep | create-cp-input.py:152-168 | completes iff every connector loads; on success `connect_connectors` holds the paths and `connect_connectors_json` the loaded views; on failure the context is unchanged (both keys are written only after the loop); only the two connector keys can change |
| Context.ConnectStep | create-cp-input.py:178-185 | `process_connect` as a function: unprovisioned it changes nothing and does not fail; only the connect keys can change; stated further by ConnectSucceedsIff and ConnectStoresLists |
| Context.ConnectGate | create-cp-input.py:180 | the context changes only when `provision` is boolean true or integer 1 |
| Context.ConnectSucceedsIff | create-cp-input.py:178-185 | a provisioned connect section completes iff hosts, the three plugin lists and the connectors exist and every connector loads |
| Context.ConnectStoresLists | create-cp-input.py:145-185 | on success hosts, hub/local/remote plugins and connector paths are stored unchanged under their keys and each connector appears in order with its name and flattened config |
| Context.ConnectFrame | create-cp-input.py:145-185 | no key outside the hosts, the three plugin lists and the two connector keys changes, on success or failure |
| Context.ServiceStep | create-cp-input.py:223 | one service succeeds iff its block exists and projects; it then stores the projection under the service name, and on failure leaves the context as it was |
| Context.CcloudStep | create-cp-input.py:221-228 | `process_ccloud_config` as a function: every failure is a missing key; on success the bootstrap servers are stored; stated further by CcloudSucceedsIff, CcloudProjectsCredentials and CcloudFrame |
| Context.CcloudSucceedsIff | create-cp-input.py:221-228 | the credentials step completes iff bootstrap servers, all five blocks with both credentials, and the registry url exist: no fallback |
| Context.CcloudCompletedContext | create-cp-input.py:221-228 | a completed step has written the bootstrap servers and the five projections, the registry's with its url added |
| Context.CcloudProjectsCredentials | create-cp-input.py:221-228 | on success each service holds its block's projection, and the schema registry exactly `api_key`, `api_secret` and `url` copied from its block |
| Context.CcloudFrame | create-cp-input.py:221-228 | no key other than the bootstrap servers and the five services changes, on success or failure |
| Context.ProcessStep | create-cp-input.py:189-205 | `process` as a function: the timestamp is always stored, the feature name whenever present, and a completed run reports exactly the broker's resolved topics |
| Context.BrokerFailureStopsTheRun | create-cp-input.py:189-205 | when the broker section fails, only the timestamp and name have been stored; ksql and connect do not run |
| Context.CompletedRun | create-cp-input.py:189-205 | a completed run reports the broker's resolved topics and holds what the ksql and then the connect section store |
| Accumulator.CopyInOrder | create-cp-input.py:129-134 | the copy loop returns a list equal to its input, same length and order |
| Accumulator.InputsMap.constructor | create-cp-input.py:60 | the context starts as the module-level initialiser: empty strings, empty lists and the `TODO` cluster data |
| Accumulator.InputsMap.ProvisionKsqlQuery | create-cp-input.py:122-127 | stores the queries unchanged under `ksql_queries` and changes nothing else |
| Accumulator.InputsMap.ProvisionKsqlHosts | create-cp-input.py:129-134 | stores the hosts unchanged under `ksql_hosts` and changes nothing else |
| Accumulator.InputsMap.ProcessKsql | create-cp-input.py:137-143 | leaves the context and failure `KsqlStep` describes |
| Accumulator.InputsMap.ProvisionConnectPlugins | create-cp-input.py:145-150 | stores the plugins unchanged under `connect_plugins_<type>` and changes nothing else |
| Accumulator.InputsMap.ProvisionConnectConnectors | create-cp-input.py:152-168 | writes the paths and the flattened connectors only when every connector loads, as `ConnectorsStep` describes |
| Accumulator.InputsMap.ProvisionConnectHosts | create-cp-input.py:170-175 | stores the hosts unchanged under `connect_hosts` and changes nothing else |
| Accumulator.InputsMap.ProcessConnect | create-cp-input.py:178-187 | leaves the context and failure `ConnectStep` describes |
| Accumulator.InputsMap.StoreApiConfig | create-cp-input.py:223-227 | leaves the context and failure `ServiceStep` describes |
| Accumulator.InputsMap.ProcessCcloudConfig | create-cp-input.py:221-228 | leaves the context and failure `CcloudStep` describes, including the nested `url` write into the stored registry block |
| Accumulator.InputsMap.Process | create-cp-input.py:189-205 | leaves the context and result `ProcessStep` describes: timestamp, name, broker, ksql, connect in that order |

## Left out

- File input and output: `create_template`, `print_hosts`, `render_template`, `do_process` and the `open` of each connector file; a connector file is given already parsed, as the `files` parameter of the connect writers, and a path missing from it stands for a file that cannot be opened.
- YAML and JSON parsing and Jinja2 rendering: third-party code; a JSON parse error is not modelled.
- `parse_arguments` (argparse) and every `logging` call, except that the argument of the log call on line 104 is evaluated and can fail, which is modelled.
- The clock: `datetime.now()` on line 190 is the `now` parameter of `Process`, stored as text.
- The `requests` import on line 19 is never used.
- Values of another YAML type than the model gives them (a string where a count is expected, `null` for a list, a non-string host that makes a log concatenation fail): each such document is outside the model.
- `str(config[item])` on line 164: configuration values are taken to be already in their string form.
- The provision gate counts the boolean true and the integer 1 as `== True`; a float `1.0`, also equal to True in Python, is not modelled.
- Parameters the source never uses (at most passes on): the `feid` of the provisioners and of `process_ksql`/`process_connect`, the `output_file` of `process_topic_item`, and the `output_file` and `template_julie` of `process_broker`.
- `ConnectorJson.config` is a sequence standing for a parsed JSON object in iteration order; such an object has unique keys, and a sequence that repeats a key is not produced by any file.
