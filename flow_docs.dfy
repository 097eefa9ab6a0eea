/** A user's flow document in the `reactflow_data` collection and the pure
    computations the manager performs on it: the document a save writes, the
    node and edge filtering of a node removal, and the node stamping and
    array-union append of a node addition. */
module FlowDocs {
  import opened Values

  /** A stored document: field name to value, as `doc.to_dict()` returns it. */
  type Doc = map<string, Value>

  /** The document `save_flow_data` writes: the lists and theme as given,
      the write time, and counts recomputed from the lists. */
  function SavedDoc(nodes: seq<Value>, edges: seq<Value>, theme: Value, now: int): (r: Doc)
    ensures r.Keys == {"nodes", "edges", "theme", "updated_at", "node_count", "edge_count"}
    ensures r["nodes"].Array? && r["edges"].Array?
    ensures r["node_count"] == Int(|r["nodes"].items|) && r["edge_count"] == Int(|r["edges"].items|)
  {
    map[
      "nodes" := Array(nodes),
      "edges" := Array(edges),
      "theme" := theme,
      "updated_at" := Timestamp(now),
      "node_count" := Int(|nodes|),
      "edge_count" := Int(|edges|)
    ]
  }

  /** A saved document holds exactly the given lists and theme, and its
      counts agree with the lengths of the lists. */
  lemma SavedDocContents(nodes: seq<Value>, edges: seq<Value>, theme: Value, now: int)
    ensures var d := SavedDoc(nodes, edges, theme, now);
      && d.Keys == {"nodes", "edges", "theme", "updated_at", "node_count", "edge_count"}
      && d["nodes"] == Array(nodes) && d["edges"] == Array(edges) && d["theme"] == theme
      && d["node_count"] == Int(|d["nodes"].items|) && d["edge_count"] == Int(|d["edges"].items|)
      && d["updated_at"] == Timestamp(now)
  {
  }

  /** The elements `for x in doc.get(key, [])` iterates over, or None when
      that loop raises before any condition can be evaluated: a missing field
      reads as `[]`; iterating an empty string or dict yields nothing; a
      non-empty string or dict yields strings, which cannot be subscripted by
      a field name; any other non-list value is not iterable. */
  function ItemsOf(doc: Doc, key: string): (r: Option<seq<Value>>)
    ensures key !in doc ==> r == Some([])
    ensures key in doc && doc[key].Array? ==> r == Some(doc[key].items)
    ensures key in doc && (doc[key].Null? || doc[key].Bool? || doc[key].Int? || doc[key].Timestamp?) ==> r.None?
  {
    if key !in doc then Some([])
    else
      match doc[key]
      case Array(items) => Some(items)
      case Str(s) => if s == "" then Some([]) else None
      case Object(fields) => if fields == map[] then Some([]) else None
      case _ => None
  }

  /** The node `n` carries the id `nodeId`. */
  predicate HasId(n: Value, nodeId: string)
  {
    Field(n, "id") == Some(Str(nodeId))
  }

  /** The edge `e` starts or ends at `nodeId`. */
  predicate Touches(e: Value, nodeId: string)
  {
    Field(e, "source") == Some(Str(nodeId)) || Field(e, "target") == Some(Str(nodeId))
  }

  /** Every node can be asked for its `id` without raising. */
  predicate NodesReadable(nodes: seq<Value>)
  {
    forall i :: 0 <= i < |nodes| ==> Field(nodes[i], "id").Some?
  }

  /** Every edge can be tested with `e['source'] != node_id and
      e['target'] != node_id` without raising: `source` is present, and
      `target` is present unless `source` already equals the id. */
  predicate EdgesReadable(edges: seq<Value>, nodeId: string)
  {
    forall i :: 0 <= i < |edges| ==>
      Field(edges[i], "source").Some? &&
      (Field(edges[i], "source") == Some(Str(nodeId)) || Field(edges[i], "target").Some?)
  }

  /** `n['id'] != node_id`, None where the subscript raises. */
  function NodeKept(n: Value, nodeId: string): (r: Option<bool>)
    ensures r.Some? <==> Field(n, "id").Some?
    ensures r == Some(true) <==> Field(n, "id").Some? && !HasId(n, nodeId)
  {
    match Field(n, "id")
    case None => None
    case Some(id) => Some(id != Str(nodeId))
  }

  /** `e['source'] != node_id and e['target'] != node_id`, evaluated left to
      right with short-circuit, None where a subscript raises. */
  function EdgeKept(e: Value, nodeId: string): (r: Option<bool>)
    ensures r.Some? <==>
      Field(e, "source").Some? && (Field(e, "source") == Some(Str(nodeId)) || Field(e, "target").Some?)
    ensures r == Some(true) <==>
      Field(e, "source").Some? && Field(e, "target").Some? && !Touches(e, nodeId)
  {
    match Field(e, "source")
    case None => None
    case Some(source) =>
      if source == Str(nodeId) then Some(false)
      else
        match Field(e, "target")
        case None => None
        case Some(target) => Some(target != Str(nodeId))
  }

  /** The node comprehension of `remove_node`: it raises exactly when some
      node has no `id`; otherwise no kept node has the id, and every node
      with another id is kept. */
  function FilterNodes(nodes: seq<Value>, nodeId: string): (r: Option<seq<Value>>)
    ensures r.Some? <==> NodesReadable(nodes)
    ensures r.Some? ==> forall n :: n in r.value ==> n in nodes && !HasId(n, nodeId)
    ensures r.Some? ==> forall n :: n in nodes && !HasId(n, nodeId) ==> n in r.value
  {
    Filter(nodes, n => NodeKept(n, nodeId))
  }

  /** The edge comprehension of `remove_node`: it raises exactly when some
      edge cannot be tested; otherwise no kept edge touches the node, and
      every edge that touches neither end is kept. */
  function FilterEdges(edges: seq<Value>, nodeId: string): (r: Option<seq<Value>>)
    ensures r.Some? <==> EdgesReadable(edges, nodeId)
    ensures r.Some? ==> forall e :: e in r.value ==> e in edges && !Touches(e, nodeId)
    ensures r.Some? ==> forall e :: e in edges && !Touches(e, nodeId) ==> e in r.value
  {
    assert forall e :: EdgeKept(e, nodeId) == Some(true) <==> Field(e, "source").Some? && Field(e, "target").Some? && !Touches(e, nodeId);
    Filter(edges, e => EdgeKept(e, nodeId))
  }

  /** Node filtering keeps the original order: a single node survives
      exactly when it has another id, and filtering a concatenation
      concatenates the filtered parts. */
  lemma FilterNodesInOrder(a: seq<Value>, b: seq<Value>, nodeId: string)
    requires NodesReadable(a) && NodesReadable(b)
    ensures FilterNodes(a + b, nodeId) == Some(FilterNodes(a, nodeId).value + FilterNodes(b, nodeId).value)
    ensures forall n :: Field(n, "id").Some? ==>
      FilterNodes([n], nodeId) == Some(if HasId(n, nodeId) then [] else [n])
  {
    FilterAppend(a, b, n => NodeKept(n, nodeId));
    forall n | Field(n, "id").Some?
      ensures FilterNodes([n], nodeId) == Some(if HasId(n, nodeId) then [] else [n])
    {
      FilterSingle(n, m => NodeKept(m, nodeId));
    }
  }

  /** Edge filtering keeps the original order, in the same sense. */
  lemma FilterEdgesInOrder(a: seq<Value>, b: seq<Value>, nodeId: string)
    requires EdgesReadable(a, nodeId) && EdgesReadable(b, nodeId)
    ensures FilterEdges(a + b, nodeId) == Some(FilterEdges(a, nodeId).value + FilterEdges(b, nodeId).value)
    ensures forall e :: EdgesReadable([e], nodeId) ==>
      FilterEdges([e], nodeId) == Some(if Touches(e, nodeId) then [] else [e])
  {
    FilterAppend(a, b, e => EdgeKept(e, nodeId));
    forall e | EdgesReadable([e], nodeId)
      ensures FilterEdges([e], nodeId) == Some(if Touches(e, nodeId) then [] else [e])
    {
      assert [e][0] == e;
      FilterSingle(e, f => EdgeKept(f, nodeId));
    }
  }

  /** The fields `remove_node` writes back into the document it read, or
      None when reading the lists or evaluating a comprehension raises.
      Only `nodes`, `edges` and `updated_at` change; the theme and both
      counts keep their stored values. */
  function RemoveNodeUpdate(doc: Doc, nodeId: string, now: int): (r: Option<Doc>)
    ensures r.Some? <==>
      && ItemsOf(doc, "nodes").Some? && ItemsOf(doc, "edges").Some?
      && NodesReadable(ItemsOf(doc, "nodes").value)
      && EdgesReadable(ItemsOf(doc, "edges").value, nodeId)
    ensures r.Some? ==> r.value.Keys == doc.Keys + {"nodes", "edges", "updated_at"}
    ensures r.Some? ==> forall k :: k in doc && k !in {"nodes", "edges", "updated_at"} ==> r.value[k] == doc[k]
    ensures r.Some? ==> r.value["updated_at"] == Timestamp(now)
    ensures r.Some? ==> r.value["nodes"] == Array(FilterNodes(ItemsOf(doc, "nodes").value, nodeId).value)
    ensures r.Some? ==> r.value["edges"] == Array(FilterEdges(ItemsOf(doc, "edges").value, nodeId).value)
  {
    var nodes := ItemsOf(doc, "nodes");
    var edges := ItemsOf(doc, "edges");
    if nodes.None? || edges.None? then None
    else
      var kept := FilterNodes(nodes.value, nodeId);
      var linked := FilterEdges(edges.value, nodeId);
      if kept.None? || linked.None? then None
      else Some(doc["nodes" := Array(kept.value)]["edges" := Array(linked.value)]["updated_at" := Timestamp(now)])
  }

  /** After a removal no node has the id and no edge touches it; every other
      node and every edge touching neither end is still there. */
  lemma RemoveNodeClears(doc: Doc, nodeId: string, now: int)
    requires RemoveNodeUpdate(doc, nodeId, now).Some?
    ensures var d := RemoveNodeUpdate(doc, nodeId, now).value;
      && d["nodes"].Array? && d["edges"].Array?
      && (forall n :: n in d["nodes"].items <==> n in ItemsOf(doc, "nodes").value && !HasId(n, nodeId))
      && (forall e :: e in d["edges"].items <==> e in ItemsOf(doc, "edges").value && !Touches(e, nodeId))
  {
  }

  /** The counts are not recomputed by a removal: on a document just saved,
      removing a node that is present leaves `node_count` at the old length
      while the list has become shorter. */
  lemma {:induction false} RemoveNodeLeavesStaleCount(nodes: seq<Value>, edges: seq<Value>, theme: Value, saved: int, nodeId: string, now: int, i: nat)
    requires i < |nodes| && HasId(nodes[i], nodeId)
    requires RemoveNodeUpdate(SavedDoc(nodes, edges, theme, saved), nodeId, now).Some?
    ensures var d := RemoveNodeUpdate(SavedDoc(nodes, edges, theme, saved), nodeId, now).value;
      d["node_count"] == Int(|nodes|) && |d["nodes"].items| < |nodes|
  {
    var doc := SavedDoc(nodes, edges, theme, saved);
    assert ItemsOf(doc, "nodes") == Some(nodes);
    assert NodeKept(nodes[i], nodeId) == Some(false);
    FilterDrops(nodes, n => NodeKept(n, nodeId), i);
  }

  /** A removal example: with nodes `n1`, `n2` and one edge from `n1` to
      `n2`, removing `n1` leaves the node `n2` and no edge. */
  lemma RemoveNodeExample(n1: Value, n2: Value, edge: Value, theme: Value, saved: int, now: int)
    requires n1 == Object(map["id" := Str("n1")]) && n2 == Object(map["id" := Str("n2")])
    requires edge == Object(map["source" := Str("n1"), "target" := Str("n2")])
    ensures var d := RemoveNodeUpdate(SavedDoc([n1, n2], [edge], theme, saved), "n1", now);
      d.Some? && d.value["nodes"] == Array([n2]) && d.value["edges"] == Array([])
  {
    var doc := SavedDoc([n1, n2], [edge], theme, saved);
    assert ItemsOf(doc, "nodes") == Some([n1, n2]);
    assert ItemsOf(doc, "edges") == Some([edge]);
    assert NodeKept(n1, "n1") == Some(false) && NodeKept(n2, "n1") == Some(true);
    assert EdgeKept(edge, "n1") == Some(false);
    FilterSingle(n1, n => NodeKept(n, "n1"));
    FilterSingle(n2, n => NodeKept(n, "n1"));
    FilterSingle(edge, e => EdgeKept(e, "n1"));
    FilterAppend([n1], [n2], n => NodeKept(n, "n1"));
    assert [n1] + [n2] == [n1, n2];
  }

  /** `node['data']['created_at'] = stamp`, the in-place update `add_node`
      makes before writing: None where Python raises (the node is not a
      dict, has no `data`, or its `data` is not a dict). Only
      `data.created_at` changes. */
  function StampNode(node: Value, stamp: string): (r: Option<Value>)
    ensures r.Some? <==> Field(node, "data").Some? && Field(node, "data").value.Object?
    ensures r.Some? ==> r.value.Object? && r.value.fields.Keys == node.fields.Keys
    ensures r.Some? ==> forall k :: k in node.fields && k != "data" ==> r.value.fields[k] == node.fields[k]
    ensures r.Some? ==> Field(r.value.fields["data"], "created_at") == Some(Str(stamp))
    ensures r.Some? ==>
      && r.value.fields["data"].Object?
      && r.value.fields["data"].fields.Keys == node.fields["data"].fields.Keys + {"created_at"}
    ensures r.Some? ==> forall k :: k in node.fields["data"].fields && k != "created_at" ==>
      Field(r.value.fields["data"], k) == Some(node.fields["data"].fields[k])
  {
    match Field(node, "data")
    case Some(Object(data)) => Some(Object(node.fields["data" := Object(data["created_at" := Str(stamp)])]))
    case _ => None
  }

  /** The store's array-union append of one element to a field: a list
      gains the element unless it already holds an equal one; a missing or
      non-list field becomes a one-element list. */
  function ArrayUnion(field: Option<Value>, x: Value): (r: seq<Value>)
    ensures x in r
    ensures field.Some? && field.value.Array? ==> forall y :: y in field.value.items ==> y in r
    ensures field.Some? && field.value.Array? ==>
      |field.value.items| <= |r| <= |field.value.items| + 1 && r[..|field.value.items|] == field.value.items
    ensures field.Some? && field.value.Array? && x in field.value.items ==> r == field.value.items
  {
    match field
    case Some(Array(items)) => if x in items then items else items + [x]
    case _ => [x]
  }

  /** The fields `add_node` writes into an existing document: the node list
      after the array-union append, and the write time. */
  function AddNodeUpdate(doc: Doc, node: Value, now: int): (r: Doc)
    ensures r.Keys == doc.Keys + {"nodes", "updated_at"}
    ensures forall k :: k in doc && k !in {"nodes", "updated_at"} ==> r[k] == doc[k]
    ensures r["nodes"].Array? && node in r["nodes"].items
    ensures "nodes" in doc && doc["nodes"].Array? ==> forall n :: n in doc["nodes"].items ==> n in r["nodes"].items
    ensures r["updated_at"] == Timestamp(now)
  {
    var field := if "nodes" in doc then Some(doc["nodes"]) else None;
    doc["nodes" := Array(ArrayUnion(field, node))]["updated_at" := Timestamp(now)]
  }

  /** Adding a node does not recompute the counts either: on a document just
      saved, appending a node that is not yet in the list leaves
      `node_count` one below the list length. */
  lemma AddNodeLeavesStaleCount(nodes: seq<Value>, edges: seq<Value>, theme: Value, saved: int, node: Value, now: int)
    requires node !in nodes
    ensures var d := AddNodeUpdate(SavedDoc(nodes, edges, theme, saved), node, now);
      d["node_count"] == Int(|nodes|) && |d["nodes"].items| == |nodes| + 1
  {
  }
}
