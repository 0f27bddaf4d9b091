/** Topic resolution of the broker section: `process_topic_item` and
    `process_broker` of create-cp-input.py.

    The source only logs the resolved values; here they are the result, so
    that the precedence rules can be stated about them. */
module Topics {
  import opened Wrappers
  import opened Documents

  /** A topic after resolution: its qualified name and both counts, always set. */
  datatype ResolvedTopic = ResolvedTopic(name: string, partitions: int, replication: int)

  /** The override locals once both are bound (the block exists with both keys). */
  datatype OverridePair = OverridePair(partitions: int, replication: int)

  /** One field's three-tier rule: the item's own value, else a non-zero
      override, else 1. */
  function ResolveField(own: Option<int>, override: int): (r: int)
    ensures own.Some? ==> r == own.value
    ensures own.None? ==> r != 0 && (r == override || r == 1)
    ensures own.None? && override != 0 ==> r == override
  {
    if own.Some? then own.value
    else if override != 0 then override
    else 1
  }

  /** The topic's qualified name: the feature identifier, a dot, the item name.
      Both parts can be read back from it. */
  function QualifiedName(feid: string, name: string): (q: string)
    ensures |q| == |feid| + 1 + |name|
    ensures q[..|feid|] == feid && q[|feid|] == '.' && q[|feid| + 1..] == name
  {
    feid + "." + name
  }

  /** `process_topic_item`: fails only when the item has no `name`. */
  function ResolveTopic(feid: string, item: TopicItem, overridePart: int, overrideRepl: int): (r: Result<ResolvedTopic, Error>)
    ensures r.Err? <==> item.name.None?
    ensures r.Err? ==> r.error == MissingKey("name")
    ensures r.Ok? ==> r.value.name == QualifiedName(feid, item.name.value)
  {
    if item.name.None? then Err(MissingKey("name"))
    else
      Ok(ResolvedTopic(
        QualifiedName(feid, item.name.value),
        ResolveField(item.partitions, overridePart),
        ResolveField(item.replication, overrideRepl)))
  }

  /** `out` is `items` resolved one by one, in order, with the bound override. */
  ghost predicate ResolvesTo(feid: string, items: seq<TopicItem>, bound: Option<OverridePair>, out: seq<ResolvedTopic>)
  {
    && |out| == |items|
    && forall i :: 0 <= i < |items| ==>
         bound.Some? && ResolveTopic(feid, items[i], bound.value.partitions, bound.value.replication) == Ok(out[i])
  }

  /** The loop of `process_broker` over one list.  Each call first evaluates
      the override locals, so a list with an item and no bound override fails
      on `override_part` before any item is looked at. */
  function ResolveItems(feid: string, items: seq<TopicItem>, bound: Option<OverridePair>): (r: Result<seq<ResolvedTopic>, Error>)
    ensures r.Ok? <==> items == [] || (bound.Some? && forall i :: 0 <= i < |items| ==> items[i].name.Some?)
    ensures r.Ok? ==> ResolvesTo(feid, items, bound, r.value)
    ensures r.Err? ==> r.error == if bound.None? then Unbound("override_part") else MissingKey("name")
  {
    if items == [] then Ok([])
    else if bound.None? then Err(Unbound("override_part"))
    else
      match ResolveTopic(feid, items[0], bound.value.partitions, bound.value.replication)
      case Err(e) => Err(e)
      case Ok(t) =>
        match ResolveItems(feid, items[1..], bound)
        case Err(e) => Err(e)
        case Ok(ts) =>
          assert forall i :: 1 <= i < |items| ==> items[i] == items[1..][i - 1];
          Ok([t] + ts)
  }

  /** Lines 96-104: the override locals.  They are assigned only from keys
      that exist, and the log line right after reads both, so a block that
      lacks a key fails there.  `Ok(None)`: no block, neither local bound. */
  function ExtractOverride(section: TopicSection): (r: Result<Option<OverridePair>, Error>)
    ensures r == Ok(None) <==> section.override.None?
    ensures r.Ok? <==>
      || section.override.None?
      || (section.override.value.partitions.Some? && section.override.value.replication.Some?)
    ensures r.Err? ==>
      r.error == Unbound(if section.override.value.partitions.None? then "override_part" else "override_repl")
    ensures r.Ok? && r.value.Some? ==>
      && Some(r.value.value.partitions) == section.override.value.partitions
      && Some(r.value.value.replication) == section.override.value.replication
  {
    if section.override.None? then Ok(None)
    else if section.override.value.partitions.None? then Err(Unbound("override_part"))
    else if section.override.value.replication.None? then Err(Unbound("override_repl"))
    else Ok(Some(OverridePair(section.override.value.partitions.value, section.override.value.replication.value)))
  }

  /** `process_broker`: every dependency, then (when the key exists) every topic. */
  function ResolveBroker(feid: string, doc: BrokerDoc): (r: Result<seq<ResolvedTopic>, Error>)
    ensures r.Ok? ==> doc.topic.Some? && doc.topic.value.dependencies.Some?
    ensures r.Ok? ==>
      |r.value| == |doc.topic.value.dependencies.value| +
                   (if doc.topic.value.topics.Some? then |doc.topic.value.topics.value| else 0)
    ensures r.Err? ==> r.error.MissingKey? || r.error.Unbound?
  {
    if doc.topic.None? then Err(MissingKey("topic"))
    else
      var section := doc.topic.value;
      match ExtractOverride(section)
      case Err(e) => Err(e)
      case Ok(bound) =>
        if section.dependencies.None? then Err(MissingKey("dependencies"))
        else
          match ResolveItems(feid, section.dependencies.value, bound)
          case Err(e) => Err(e)
          case Ok(deps) =>
            if section.topics.None? then Ok(deps)
            else
              match ResolveItems(feid, section.topics.value, bound)
              case Err(e) => Err(e)
              case Ok(ts) => Ok(deps + ts)
  }

  /** Two resolutions of the same list agree. */
  lemma ResolvesToUnique(feid: string, items: seq<TopicItem>, bound: Option<OverridePair>, a: seq<ResolvedTopic>, b: seq<ResolvedTopic>)
    requires ResolvesTo(feid, items, bound, a) && ResolvesTo(feid, items, bound, b)
    ensures a == b
  {
  }

  /** The override the two locals give once line 104 has passed: both bound
      or neither. */
  function Bound(overridePart: Option<int>, overrideRepl: Option<int>): Option<OverridePair>
    requires overridePart.Some? <==> overrideRepl.Some?
  {
    if overridePart.Some? then Some(OverridePair(overridePart.value, overrideRepl.value)) else None
  }

  /** One `for` loop of `process_broker`: `process_topic_item` on each item,
      the override locals evaluated as arguments of every call. */
  method ResolveList(feid: string, items: seq<TopicItem>, overridePart: Option<int>, overrideRepl: Option<int>)
    returns (r: Result<seq<ResolvedTopic>, Error>)
    requires overridePart.Some? <==> overrideRepl.Some?
    ensures r == ResolveItems(feid, items, Bound(overridePart, overrideRepl))
  {
    ghost var bound := Bound(overridePart, overrideRepl);
    var resolved: seq<ResolvedTopic> := [];
    var i := 0;
    while i < |items|
      invariant 0 <= i <= |items|
      invariant ResolvesTo(feid, items[..i], bound, resolved)
      invariant i > 0 ==> bound.Some?
      invariant forall k :: 0 <= k < i ==> items[k].name.Some?
    {
      if overridePart.None? {
        return Err(Unbound("override_part"));
      }
      var t := ResolveTopic(feid, items[i], overridePart.value, overrideRepl.value);
      if t.Err? {
        return Err(t.error);
      }
      resolved := resolved + [t.value];
      i := i + 1;
    }
    assert items[..i] == items;
    ResolvesToUnique(feid, items, bound, resolved, ResolveItems(feid, items, bound).value);
    r := Ok(resolved);
  }

  /** `process_broker` as the source runs it: conditionally assigned override
      locals, then the loop over the dependencies and the loop over the topics. */
  method ProcessBroker(feid: string, doc: BrokerDoc) returns (r: Result<seq<ResolvedTopic>, Error>)
    ensures r == ResolveBroker(feid, doc)
  {
    if doc.topic.None? {
      return Err(MissingKey("topic"));
    }
    var section := doc.topic.value;
    var overridePart: Option<int> := None;
    var overrideRepl: Option<int> := None;
    if section.override.Some? {
      var block := section.override.value;
      if block.partitions.Some? {
        overridePart := block.partitions;
      }
      if block.replication.Some? {
        overrideRepl := block.replication;
      }
      // the log line reads both locals
      if overridePart.None? {
        return Err(Unbound("override_part"));
      }
      if overrideRepl.None? {
        return Err(Unbound("override_repl"));
      }
    }
    assert ExtractOverride(section) == Ok(Bound(overridePart, overrideRepl));

    if section.dependencies.None? {
      return Err(MissingKey("dependencies"));
    }
    var dependencies := ResolveList(feid, section.dependencies.value, overridePart, overrideRepl);
    if dependencies.Err? || section.topics.None? {
      return dependencies;
    }
    var topics := ResolveList(feid, section.topics.value, overridePart, overrideRepl);
    if topics.Err? {
      return topics;
    }
    r := Ok(dependencies.value + topics.value);
  }

  // ---------------------------------------------------------------------
  // Precedence of a single topic item

  /** A value on the item wins, whatever the override. */
  lemma PerItemValueWins(feid: string, item: TopicItem, overridePart: int, overrideRepl: int)
    requires item.name.Some?
    ensures var t := ResolveTopic(feid, item, overridePart, overrideRepl);
      && t.Ok?
      && (item.partitions.Some? ==> t.value.partitions == item.partitions.value)
      && (item.replication.Some? ==> t.value.replication == item.replication.value)
  {
  }

  /** Without a value on the item a non-zero override is used, and a zero
      override gives 1: a zero override never reaches the result. */
  lemma FallsBackToOverrideThenOne(feid: string, item: TopicItem, overridePart: int, overrideRepl: int)
    requires item.name.Some?
    ensures var t := ResolveTopic(feid, item, overridePart, overrideRepl).value;
      && (item.partitions.None? ==> t.partitions == if overridePart != 0 then overridePart else 1)
      && (item.replication.None? ==> t.replication == if overrideRepl != 0 then overrideRepl else 1)
      && (item.partitions.None? ==> t.partitions != 0)
      && (item.replication.None? ==> t.replication != 0)
  {
  }

  /** Each field is decided on its own: the partition count depends neither
      on the item's replication nor on the replication override, and the
      other way round. */
  lemma FieldsAreIndependent(feid: string, item: TopicItem, overridePart: int, overrideRepl: int,
                             otherRepl: Option<int>, otherOverrideRepl: int,
                             otherPart: Option<int>, otherOverridePart: int)
    requires item.name.Some?
    ensures ResolveTopic(feid, item, overridePart, overrideRepl).value.partitions
         == ResolveTopic(feid, item.(replication := otherRepl), overridePart, otherOverrideRepl).value.partitions
    ensures ResolveTopic(feid, item, overridePart, overrideRepl).value.replication
         == ResolveTopic(feid, item.(partitions := otherPart), otherOverridePart, overrideRepl).value.replication
  {
  }

  /** The example `{name: "orders"}` with override partitions 3, replication 2. */
  lemma ExampleOverrideApplies()
    ensures ResolveTopic("fe1", TopicItem(Some("orders"), None, None), 3, 2)
         == Ok(ResolvedTopic("fe1.orders", 3, 2))
  {
    assert QualifiedName("fe1", "orders") == "fe1.orders";
  }

  // ---------------------------------------------------------------------
  // process_broker

  /** On success the result is the dependencies resolved in order, followed by
      the topics resolved in order (none when the `topics` key is absent). */
  lemma {:induction false} ResolutionOrder(feid: string, doc: BrokerDoc)
    requires ResolveBroker(feid, doc).Ok?
    ensures doc.topic.Some? && doc.topic.value.dependencies.Some?
    ensures var section := doc.topic.value;
      var r := ResolveBroker(feid, doc).value;
      var deps := section.dependencies.value;
      var topics := if section.topics.Some? then section.topics.value else [];
      var bound := ExtractOverride(section).value;
      && |r| == |deps| + |topics|
      && ResolvesTo(feid, deps, bound, r[..|deps|])
      && ResolvesTo(feid, topics, bound, r[|deps|..])
  {
    var section := doc.topic.value;
    var r := ResolveBroker(feid, doc).value;
    var deps := section.dependencies.value;
    var bound := ExtractOverride(section).value;
    var d := ResolveItems(feid, deps, bound).value;
    if section.topics.Some? {
      var t := ResolveItems(feid, section.topics.value, bound).value;
      assert r == d + t;
      assert r[..|deps|] == d && r[|deps|..] == t;
    } else {
      assert r == d && r[|deps|..] == [];
    }
  }

  /** Whether `process_broker` completes: a `topic` section, an override block
      that is either absent or complete, a `dependencies` key, a bound
      override as soon as there is one item to resolve, and a name on every
      item. */
  lemma BrokerSucceedsIff(feid: string, doc: BrokerDoc)
    ensures ResolveBroker(feid, doc).Ok? <==>
      && doc.topic.Some?
      && var section := doc.topic.value;
      && (section.override.Some? ==>
            section.override.value.partitions.Some? && section.override.value.replication.Some?)
      && section.dependencies.Some?
      && var items := section.dependencies.value + (if section.topics.Some? then section.topics.value else []);
      && (items != [] ==> section.override.Some?)
      && forall i :: 0 <= i < |items| ==> items[i].name.Some?
  {
    if doc.topic.Some? && doc.topic.value.dependencies.Some? {
      var section := doc.topic.value;
      var deps := section.dependencies.value;
      var topics := if section.topics.Some? then section.topics.value else [];
      var items := deps + topics;
      assert forall i :: 0 <= i < |deps| ==> items[i] == deps[i];
      assert forall i :: 0 <= i < |topics| ==> items[|deps| + i] == topics[i];
    }
  }

  /** Without an override block there is no zero default: as soon as one
      dependency or topic must be resolved, the run fails on the unbound
      `override_part`. */
  lemma MissingOverrideFailsWhenThereIsWork(feid: string, doc: BrokerDoc)
    requires doc.topic.Some? && doc.topic.value.override.None?
    requires doc.topic.value.dependencies.Some?
    requires var section := doc.topic.value;
      section.dependencies.value != [] || (section.topics.Some? && section.topics.value != [])
    ensures ResolveBroker(feid, doc) == Err(Unbound("override_part"))
  {
  }

  /** An override block that lacks one of its keys fails at the log line that
      follows the assignments, even when there is nothing to resolve. */
  lemma IncompleteOverrideFails(feid: string, doc: BrokerDoc)
    requires doc.topic.Some? && doc.topic.value.override.Some?
    requires var block := doc.topic.value.override.value;
      block.partitions.None? || block.replication.None?
    ensures ResolveBroker(feid, doc) ==
      Err(Unbound(if doc.topic.value.override.value.partitions.None? then "override_part" else "override_repl"))
  {
  }

  /** A missing `topic` section or `dependencies` key is a lookup failure;
      a missing `topics` key ends the run normally after the dependencies. */
  lemma MissingSectionsAndKeys(feid: string, doc: BrokerDoc)
    ensures doc.topic.None? ==> ResolveBroker(feid, doc) == Err(MissingKey("topic"))
    ensures doc.topic.Some? && ExtractOverride(doc.topic.value).Ok? && doc.topic.value.dependencies.None? ==>
      ResolveBroker(feid, doc) == Err(MissingKey("dependencies"))
    ensures doc.topic.Some? && ExtractOverride(doc.topic.value).Ok? &&
            doc.topic.value.dependencies.Some? && doc.topic.value.topics.None? ==>
      ResolveBroker(feid, doc) == ResolveItems(feid, doc.topic.value.dependencies.value, ExtractOverride(doc.topic.value).value)
  {
  }

  /** `{name: "orders", partitions: 6}` under an override that gives only
      `partitions: 3` does not resolve to partitions 6, replication 1: the
      override block lacks `replication`, so the run stops on `override_repl`. */
  lemma ExamplePartialOverrideFails()
    ensures ResolveBroker("fe1", BrokerDoc(Some(TopicSection(
              Some(Override(Some(3), None)),
              Some([]),
              Some([TopicItem(Some("orders"), Some(6), None)])))))
         == Err(Unbound("override_repl"))
  {
  }
}
