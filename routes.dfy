/** The data routes end to end: each handler as the source runs it, calling
    the manager (null when the store was not initialised) between parsing
    the request and shaping the reply. The store's failure and the clock
    readings are parameters. */
module Routes {
  import opened Values
  import opened FlowDocs
  import opened FlowStore
  import opened Handlers

  /** POST /api/flow/save. A `user_id` of null is saved under the id the
      store generates (`generatedId`, not yet in use); any other non-string
      `user_id` cannot name a document, so the store call fails and the
      handler answers 500. */
  method SaveFlow(m: FlowDataManager?, body: Value, now: int, generatedId: string, storeError: bool) returns (r: Reply)
    requires m != null ==> generatedId !in m.docs
    modifies m
    ensures m == null ==> r == NotInitialized
    ensures m != null ==>
      match SaveFlowCall(true, body)
      case Failure(early) => r == early && m.docs == old(m.docs)
      case Success(a) =>
        var key := DocumentKey(a.userId, generatedId);
        var saved := key.Some? && !storeError;
        && r == SaveFlowReply(true, body, saved)
        && m.docs == if saved then old(m.docs)[key.value := SavedDoc(a.nodes, a.edges, a.theme, now)] else old(m.docs)
    ensures r.status != 200 ==> m == null || m.docs == old(m.docs)
  {
    if m == null {
      return NotInitialized;
    }
    match SaveFlowCall(true, body)
    case Failure(early) =>
      r := early;
    case Success(a) =>
      var saved := false;
      var key := DocumentKey(a.userId, generatedId);
      if key.Some? {
        saved := m.SaveFlowData(key.value, a.nodes, a.edges, a.theme, now, storeError);
      }
      r := SaveFlowReply(true, body, saved);
  }

  /** GET /api/flow/load/<user_id>. */
  method LoadFlow(m: FlowDataManager?, userId: string, storeError: bool) returns (r: Reply)
    ensures r == LoadFlowReply(m != null, if m == null || storeError then None else Lookup(m.docs, userId))
  {
    if m == null {
      return NotInitialized;
    }
    var found := m.GetFlowData(userId, storeError);
    r := LoadFlowReply(true, found);
  }

  /** POST /api/flow/node. A null `user_id` names a freshly generated id,
      which has no document to update, so the add fails. */
  method AddNode(m: FlowDataManager?, body: Value, createdAt: string, now: int, generatedId: string, storeError: bool) returns (r: Reply)
    requires m != null ==> generatedId !in m.docs
    modifies m
    ensures m == null ==> r == NotInitialized
    ensures m != null ==>
      match AddNodeCall(true, body)
      case Failure(early) => r == early && m.docs == old(m.docs)
      case Success(a) =>
        var key := DocumentKey(a.userId, generatedId);
        var added := key.Some? && StampNode(a.node, createdAt).Some? && !storeError && key.value in old(m.docs);
        && r == AddNodeReply(true, body, added)
        && m.docs == if added then old(m.docs)[key.value := AddNodeUpdate(old(m.docs)[key.value], StampNode(a.node, createdAt).value, now)] else old(m.docs)
    ensures r.status != 200 ==> m == null || m.docs == old(m.docs)
  {
    if m == null {
      return NotInitialized;
    }
    match AddNodeCall(true, body)
    case Failure(early) =>
      r := early;
    case Success(a) =>
      var added := false;
      var key := DocumentKey(a.userId, generatedId);
      if key.Some? {
        added := m.AddNode(key.value, a.node, createdAt, now, storeError);
      }
      r := AddNodeReply(true, body, added);
  }

  /** DELETE /api/flow/node/<user_id>/<node_id>. */
  method DeleteNode(m: FlowDataManager?, userId: string, nodeId: string, now: int, storeError: bool) returns (r: Reply)
    modifies m
    ensures m == null ==> r == NotInitialized
    ensures m != null ==>
      var removed := !storeError && userId in old(m.docs) && old(m.docs)[userId] != map[]
        && RemoveNodeUpdate(old(m.docs)[userId], nodeId, now).Some?;
      && r == DeleteNodeReply(true, removed)
      && m.docs == if removed then old(m.docs)[userId := RemoveNodeUpdate(old(m.docs)[userId], nodeId, now).value] else old(m.docs)
  {
    if m == null {
      return NotInitialized;
    }
    var removed := m.RemoveNode(userId, nodeId, now, storeError);
    r := DeleteNodeReply(true, removed);
  }

  /** DELETE /api/flow/<user_id>. */
  method DeleteFlow(m: FlowDataManager?, userId: string, storeError: bool) returns (r: Reply)
    modifies m
    ensures m == null ==> r == NotInitialized
    ensures m != null ==>
      && r == DeleteFlowReply(true, !storeError)
      && m.docs == if storeError then old(m.docs) else old(m.docs) - {userId}
  {
    if m == null {
      return NotInitialized;
    }
    var deleted := m.DeleteFlowData(userId, storeError);
    r := DeleteFlowReply(true, deleted);
  }
}
