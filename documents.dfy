/** The already-parsed input documents of the input generator.

    Every key that a YAML or JSON document may or may not carry is an
    `Option` field: `None` is "the key is absent".  The values are typed
    (integers for counts, strings for names, lists of strings for hosts);
    a document whose value has another YAML type is not part of this model. */
module Documents {
  import opened Wrappers

  /** Why a run stops.  Each one is an uncaught Python exception. */
  datatype Error =
    | MissingKey(key: string)       // KeyError on a dictionary lookup
    | Unbound(variable: string)     // UnboundLocalError on a local never assigned
    | FileNotFound(path: string)    // open() of a connector file that does not exist

  /** A YAML scalar, as far as the `provision` flag needs one. */
  datatype Scalar = Bool(b: bool) | Int(i: int) | Str(s: string)

  /** Python's `v == True`: also true for the integer 1. */
  predicate EqualsTrue(v: Scalar)
  {
    v == Bool(true) || v == Int(1)
  }

  /** The gate `'provision' in doc and doc['provision'] == True`. */
  predicate Provisioned(provision: Option<Scalar>)
  {
    provision.Some? && EqualsTrue(provision.value)
  }

  /** One entry of `topic.dependencies` or `topic.topics`. */
  datatype TopicItem = TopicItem(name: Option<string>, partitions: Option<int>, replication: Option<int>)

  /** The `topic.override` block. */
  datatype Override = Override(partitions: Option<int>, replication: Option<int>)

  /** The `topic` section of the broker document. */
  datatype TopicSection = TopicSection(
    override: Option<Override>,
    dependencies: Option<seq<TopicItem>>,
    topics: Option<seq<TopicItem>>)

  /** The `broker` section of the feature document. */
  datatype BrokerDoc = BrokerDoc(topic: Option<TopicSection>)

  /** The `ksql` section of the feature document. */
  datatype KsqlDoc = KsqlDoc(provision: Option<Scalar>, hosts: Option<seq<string>>, queries: Option<seq<string>>)

  /** The `connect.plugins` block. */
  datatype Plugins = Plugins(hub: Option<seq<string>>, local: Option<seq<string>>, remote: Option<seq<string>>)

  /** The `connect` section of the feature document; `connectors` lists file paths. */
  datatype ConnectDoc = ConnectDoc(
    provision: Option<Scalar>,
    hosts: Option<seq<string>>,
    plugins: Option<Plugins>,
    connectors: Option<seq<string>>)

  /** A connector file after JSON parsing.  `config` is the JSON object in its
      iteration order, each value already turned into its string form. */
  datatype ConnectorJson = ConnectorJson(name: Option<string>, config: Option<seq<(string, string)>>)

  /** The feature-environment document. */
  datatype FeatureDoc = FeatureDoc(
    name: Option<string>,
    broker: Option<BrokerDoc>,
    ksql: Option<KsqlDoc>,
    connect: Option<ConnectDoc>)

  /** A per-service block of the credentials document (`api_key`, `api_secret`, `url`, ...). */
  type ServiceBlock = map<string, string>

  /** The credentials document: `bootstrap_servers` and one block per service name. */
  datatype CloudDoc = CloudDoc(bootstrapServers: Option<string>, services: map<string, ServiceBlock>)
}
