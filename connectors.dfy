/** Connector definitions: the flattening loop of
    `provision_connect_connectors` (create-cp-input.py), over connector
    files that are already parsed. */
module Connectors {
  import opened Wrappers
  import opened Documents

  /** A connector as the rendering context holds it: its name and its
      configuration as display lines. */
  datatype ConnectorView = ConnectorView(name: string, config: seq<string>)

  /** The display line of one configuration entry; key and value can be read
      back from either end of it. */
  function ConfigLine(entry: (string, string)): (line: string)
    ensures |line| == |entry.0| + 3 + |entry.1|
    ensures line[..|entry.0|] == entry.0
    ensures line[|entry.0|..|entry.0| + 3] == " : "
    ensures line[|entry.0| + 3..] == entry.1
  {
    entry.0 + " : " + entry.1
  }

  /** The flattened configuration: one line per entry, in iteration order. */
  function ConfigLines(config: seq<(string, string)>): (lines: seq<string>)
    ensures |lines| == |config|
    ensures forall i :: 0 <= i < |config| ==> lines[i] == ConfigLine(config[i])
  {
    if config == [] then []
    else [ConfigLine(config[0])] + ConfigLines(config[1..])
  }

  /** The inner loop of `provision_connect_connectors`. */
  method FlattenConfig(config: seq<(string, string)>) returns (lines: seq<string>)
    ensures lines == ConfigLines(config)
  {
    lines := [];
    var i := 0;
    while i < |config|
      invariant 0 <= i <= |config|
      invariant |lines| == i
      invariant forall k :: 0 <= k < i ==> lines[k] == ConfigLine(config[k])
    {
      lines := lines + [ConfigLine(config[i])];
      i := i + 1;
    }
  }

  /** One connector: open the file, then look up `name`, then `config`. */
  function LoadConnector(path: string, files: map<string, ConnectorJson>): (r: Result<ConnectorView, Error>)
    ensures r.Ok? <==> path in files && files[path].name.Some? && files[path].config.Some?
    ensures r.Err? ==> r.error == if path !in files then FileNotFound(path)
                                  else if files[path].name.None? then MissingKey("name")
                                  else MissingKey("config")
    ensures r.Ok? ==> && r.value.name == files[path].name.value
                      && r.value.config == ConfigLines(files[path].config.value)
  {
    if path !in files then Err(FileNotFound(path))
    else if files[path].name.None? then Err(MissingKey("name"))
    else if files[path].config.None? then Err(MissingKey("config"))
    else Ok(ConnectorView(files[path].name.value, ConfigLines(files[path].config.value)))
  }

  /** Every connector of the list, in order; the first that fails stops the loop. */
  function LoadConnectors(paths: seq<string>, files: map<string, ConnectorJson>): (r: Result<seq<ConnectorView>, Error>)
    ensures r.Ok? <==> forall i :: 0 <= i < |paths| ==> LoadConnector(paths[i], files).Ok?
    ensures r.Ok? ==>
      && |r.value| == |paths|
      && forall i :: 0 <= i < |paths| ==> LoadConnector(paths[i], files) == Ok(r.value[i])
    ensures r.Err? ==>
      exists i :: && 0 <= i < |paths|
                  && LoadConnector(paths[i], files) == Err(r.error)
                  && forall k :: 0 <= k < i ==> LoadConnector(paths[k], files).Ok?
  {
    if paths == [] then Ok([])
    else
      match LoadConnector(paths[0], files)
      case Err(e) => Err(e)
      case Ok(c) =>
        match LoadConnectors(paths[1..], files)
        case Err(e) =>
          ghost var j :| 0 <= j < |paths[1..]| && LoadConnector(paths[1..][j], files) == Err(e) &&
            forall k :: 0 <= k < j ==> LoadConnector(paths[1..][k], files).Ok?;
          assert LoadConnector(paths[j + 1], files) == Err(e);
          assert forall k :: 1 <= k < j + 1 ==> paths[k] == paths[1..][k - 1];
          Err(e)
        case Ok(cs) =>
          assert forall i :: 1 <= i < |paths| ==> paths[i] == paths[1..][i - 1];
          Ok([c] + cs)
  }

  /** The loop stops at the first connector that fails, with that
      connector's error. */
  lemma FirstFailureIsReported(paths: seq<string>, files: map<string, ConnectorJson>, i: nat)
    requires i < |paths|
    requires forall k :: 0 <= k < i ==> LoadConnector(paths[k], files).Ok?
    requires LoadConnector(paths[i], files).Err?
    ensures LoadConnectors(paths, files) == Err(LoadConnector(paths[i], files).error)
  {
  }
}
