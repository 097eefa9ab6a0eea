/** The request handlers' validation and response shaping. Each route is
    split in two pure functions: `...Call` turns the parsed request into
    either an early reply or the arguments it passes to the manager, and
    `...Reply` shapes the JSON body and status from the manager's result.
    `ready` says whether the manager exists (the store was initialised at
    start-up). */
module Handlers {
  import opened Values
  import opened FlowDocs
  import opened FlowStore

  /** A JSON response body and its HTTP status. */
  datatype Reply = Reply(body: map<string, Value>, status: int)

  function Error(message: string, status: int): Reply
  {
    Reply(map["error" := Str(message)], status)
  }

  /** The reply of every data route when the store was not initialised. */
  const NotInitialized: Reply := Error("Firebase not initialized", 500)

  /** The 500 reply the handler's catch-all produces when the parsed body is
      not a JSON object and `data.get(...)` raises an AttributeError. */
  function NoGet(body: Value): (r: Reply)
    ensures r.status == 500 && r.body.Keys == {"error"}
    ensures r.body["error"] == Str("'" + TypeName(body) + "' object has no attribute 'get'")
    ensures r.body["error"].Str? && |r.body["error"].s| > |TypeName(body)| + 1
    ensures r.body["error"].s[1..|TypeName(body)| + 1] == TypeName(body)
  {
    Error("'" + TypeName(body) + "' object has no attribute 'get'", 500)
  }

  const DefaultUser: Value := Str("default_user")
  const DefaultTheme: Value := Str("light")

  /** The payload `load_flow` returns, with status 200, when there is no
      document (or an empty one) for the user. */
  const NoDataPayload: map<string, Value> :=
    map["nodes" := Array([]), "edges" := Array([]), "theme" := DefaultTheme,
        "message" := Str("No data found for user")]

  /** What `save_flow` passes to `save_flow_data`. */
  datatype SaveArgs = SaveArgs(userId: Value, nodes: seq<Value>, edges: seq<Value>, theme: Value)

  /** What `add_node` passes to the manager's `add_node`. */
  datatype AddArgs = AddArgs(userId: Value, node: Value)

  /** `save_flow` up to the manager call: defaults for missing fields, and a
      400 before any write when `nodes` or `edges` is not a list. */
  function SaveFlowCall(ready: bool, body: Value): (r: Result<SaveArgs, Reply>)
    ensures !ready ==> r == Failure(NotInitialized)
    ensures ready && !body.Object? ==> r == Failure(NoGet(body))
    ensures r.Success? <==>
      ready && body.Object? &&
      Get(body.fields, "nodes", Array([])).Array? && Get(body.fields, "edges", Array([])).Array?
    ensures ready && body.Object? && r.Failure? ==> r.error == Error("Invalid data format", 400)
    ensures r.Success? ==>
      && r.value.userId == Get(body.fields, "user_id", DefaultUser)
      && Array(r.value.nodes) == Get(body.fields, "nodes", Array([]))
      && Array(r.value.edges) == Get(body.fields, "edges", Array([]))
      && r.value.theme == Get(body.fields, "theme", DefaultTheme)
  {
    if !ready then Failure(NotInitialized)
    else if !body.Object? then Failure(NoGet(body))
    else
      var userId := Get(body.fields, "user_id", DefaultUser);
      var nodes := Get(body.fields, "nodes", Array([]));
      var edges := Get(body.fields, "edges", Array([]));
      var theme := Get(body.fields, "theme", DefaultTheme);
      if !nodes.Array? || !edges.Array? then Failure(Error("Invalid data format", 400))
      else Success(SaveArgs(userId, nodes.items, edges.items, theme))
  }

  /** An empty JSON object saves an empty light-themed flow for the default
      user. */
  lemma SaveFlowDefaults()
    ensures SaveFlowCall(true, Object(map[])) == Success(SaveArgs(DefaultUser, [], [], DefaultTheme))
  {
  }

  /** `save_flow`'s reply: 200 with the list lengths on success, 400 for a
      non-list `nodes` or `edges`, 500 when the store is not initialised,
      the body is not an object, or the save fails. */
  function SaveFlowReply(ready: bool, body: Value, saved: bool): (r: Reply)
    ensures !ready ==> r == NotInitialized
    ensures r.status == 200 || r.status == 400 || r.status == 500
    ensures r.status == 400 <==>
      ready && body.Object? &&
      !(Get(body.fields, "nodes", Array([])).Array? && Get(body.fields, "edges", Array([])).Array?)
    ensures r.status == 200 <==> SaveFlowCall(ready, body).Success? && saved
    ensures r.status == 200 ==>
      && "node_count" in r.body && "edge_count" in r.body
      && r.body["node_count"] == Int(|Get(body.fields, "nodes", Array([])).items|)
      && r.body["edge_count"] == Int(|Get(body.fields, "edges", Array([])).items|)
    ensures SaveFlowCall(ready, body).Success? && !saved ==> r == Error("Failed to save flow data", 500)
    ensures SaveFlowCall(ready, body).Failure? ==> r == SaveFlowCall(ready, body).error
    ensures r.status == 200 ==>
      r.body == map["message" := Str("Flow data saved successfully"),
                    "node_count" := Int(|SaveFlowCall(ready, body).value.nodes|),
                    "edge_count" := Int(|SaveFlowCall(ready, body).value.edges|)]
  {
    match SaveFlowCall(ready, body)
    case Failure(early) => early
    case Success(a) =>
      if saved then
        Reply(map["message" := Str("Flow data saved successfully"),
                  "node_count" := Int(|a.nodes|), "edge_count" := Int(|a.edges|)], 200)
      else Error("Failed to save flow data", 500)
  }

  /** `load_flow`'s reply from what `get_flow_data` returned: an absent or
      empty document is not an error but the empty default payload; a
      present document is projected with defaults `[]`, `'light'`, `null`
      and `0`. */
  function LoadFlowReply(ready: bool, found: Option<Doc>): (r: Reply)
    ensures !ready ==> r == NotInitialized
    ensures ready ==> r.status == 200
    ensures ready && (found.None? || found.value == map[]) ==> r.body == NoDataPayload
    ensures ready && found.Some? && found.value != map[] ==>
      && r.body.Keys == {"nodes", "edges", "theme", "updated_at", "node_count", "edge_count"}
      && r.body["nodes"] == Get(found.value, "nodes", Array([]))
      && r.body["edges"] == Get(found.value, "edges", Array([]))
      && r.body["theme"] == Get(found.value, "theme", DefaultTheme)
      && r.body["updated_at"] == Get(found.value, "updated_at", Null)
      && r.body["node_count"] == Get(found.value, "node_count", Int(0))
      && r.body["edge_count"] == Get(found.value, "edge_count", Int(0))
  {
    if !ready then NotInitialized
    else if found.None? || found.value == map[] then Reply(NoDataPayload, 200)
    else
      var doc := found.value;
      Reply(map["nodes" := Get(doc, "nodes", Array([])),
                "edges" := Get(doc, "edges", Array([])),
                "theme" := Get(doc, "theme", DefaultTheme),
                "updated_at" := Get(doc, "updated_at", Null),
                "node_count" := Get(doc, "node_count", Int(0)),
                "edge_count" := Get(doc, "edge_count", Int(0))], 200)
  }

  /** Saving through `save_flow` and then loading the same user id returns
      the lists and theme of the request and counts equal to their
      lengths. */
  lemma SaveThenLoad(docs: Collection, body: Value, now: int)
    requires SaveFlowCall(true, body).Success? && SaveFlowCall(true, body).value.userId.Str?
    ensures var a := SaveFlowCall(true, body).value;
      var r := LoadFlowReply(true, Lookup(docs[a.userId.s := SavedDoc(a.nodes, a.edges, a.theme, now)], a.userId.s));
      && r.status == 200
      && r.body["nodes"] == Get(body.fields, "nodes", Array([]))
      && r.body["edges"] == Get(body.fields, "edges", Array([]))
      && r.body["theme"] == Get(body.fields, "theme", DefaultTheme)
      && r.body["node_count"] == Int(|a.nodes|) && r.body["edge_count"] == Int(|a.edges|)
      && r.body["updated_at"] == Timestamp(now)
  {
    var a := SaveFlowCall(true, body).value;
    var doc := SavedDoc(a.nodes, a.edges, a.theme, now);
    assert "nodes" in doc;
  }

  /** Loading a user id that has no document, in particular one just
      deleted, gives the empty default payload with 200. */
  lemma LoadWithoutDocument(docs: Collection, userId: string)
    ensures userId !in docs ==> LoadFlowReply(true, Lookup(docs, userId)) == Reply(NoDataPayload, 200)
    ensures LoadFlowReply(true, Lookup(docs - {userId}, userId)) == Reply(NoDataPayload, 200)
  {
  }

  /** `add_node` up to the manager call: the user id defaults, and a
      missing or empty (falsy) `node` is a 400. */
  function AddNodeCall(ready: bool, body: Value): (r: Result<AddArgs, Reply>)
    ensures !ready ==> r == Failure(NotInitialized)
    ensures ready && !body.Object? ==> r == Failure(NoGet(body))
    ensures r.Success? <==> ready && body.Object? && Truthy(Get(body.fields, "node", Null))
    ensures ready && body.Object? && r.Failure? ==> r.error == Error("Node data required", 400)
    ensures r.Success? ==>
      r.value.userId == Get(body.fields, "user_id", DefaultUser) && r.value.node == body.fields["node"]
  {
    if !ready then Failure(NotInitialized)
    else if !body.Object? then Failure(NoGet(body))
    else
      var node := Get(body.fields, "node", Null);
      if !Truthy(node) then Failure(Error("Node data required", 400))
      else Success(AddArgs(Get(body.fields, "user_id", DefaultUser), node))
  }

  /** `add_node`'s reply. */
  function AddNodeReply(ready: bool, body: Value, added: bool): (r: Reply)
    ensures !ready ==> r == NotInitialized
    ensures r.status == 200 || r.status == 400 || r.status == 500
    ensures r.status == 400 <==> ready && body.Object? && !Truthy(Get(body.fields, "node", Null))
    ensures r.status == 200 <==> AddNodeCall(ready, body).Success? && added
    ensures AddNodeCall(ready, body).Success? && !added ==> r == Error("Failed to add node", 500)
    ensures AddNodeCall(ready, body).Failure? ==> r == AddNodeCall(ready, body).error
    ensures r.status == 200 ==> r.body == map["message" := Str("Node added successfully")]
  {
    match AddNodeCall(ready, body)
    case Failure(early) => early
    case Success(_) =>
      if added then Reply(map["message" := Str("Node added successfully")], 200)
      else Error("Failed to add node", 500)
  }

  /** `delete_node`'s reply from the manager's `remove_node` result. */
  function DeleteNodeReply(ready: bool, removed: bool): (r: Reply)
    ensures !ready ==> r == NotInitialized
    ensures r.status == 200 <==> ready && removed
    ensures r.status == 200 ==> r.body == map["message" := Str("Node deleted successfully")]
    ensures ready && !removed ==> r == Error("Failed to delete node", 500)
  {
    if !ready then NotInitialized
    else if removed then Reply(map["message" := Str("Node deleted successfully")], 200)
    else Error("Failed to delete node", 500)
  }

  /** `delete_flow`'s reply from the manager's `delete_flow_data` result. */
  function DeleteFlowReply(ready: bool, deleted: bool): (r: Reply)
    ensures !ready ==> r == NotInitialized
    ensures r.status == 200 <==> ready && deleted
    ensures r.status == 200 ==> r.body == map["message" := Str("Flow data deleted successfully")]
    ensures ready && !deleted ==> r == Error("Failed to delete flow data", 500)
  {
    if !ready then NotInitialized
    else if deleted then Reply(map["message" := Str("Flow data deleted successfully")], 200)
    else Error("Failed to delete flow data", 500)
  }
}
