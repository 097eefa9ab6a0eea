/** The data access layer: `FlowDataManager` over the `reactflow_data`
    collection, held here as a map from user id to document. A failing store
    call is the parameter `storeError`; the manager catches it, reports
    failure and leaves the collection as it was. */
module FlowStore {
  import opened Values
  import opened FlowDocs

  /** The collection: at most one document per user id. */
  type Collection = map<string, Doc>

  /** What a read of the document with key `userId` returns. */
  function Lookup(docs: Collection, userId: string): (r: Option<Doc>)
    ensures r.Some? <==> userId in docs
    ensures r.Some? ==> r.value == docs[userId]
  {
    if userId in docs then Some(docs[userId]) else None
  }

  /** The document key `collection.document(user_id)` names: a string names
      itself, `None` makes the store pick a fresh id (`generatedId`), and any
      other value makes the store raise (None here). */
  function DocumentKey(userId: Value, generatedId: string): (r: Option<string>)
    ensures r.Some? <==> userId.Str? || userId.Null?
    ensures userId.Str? ==> r == Some(userId.s)
    ensures userId.Null? ==> r == Some(generatedId)
  {
    match userId
    case Str(s) => Some(s)
    case Null => Some(generatedId)
    case _ => None
  }

  /** Saving then reading the same user id gives back the lists and theme
      just saved, with counts equal to their lengths; no other user's
      document is affected. */
  lemma SaveThenGet(docs: Collection, userId: string, nodes: seq<Value>, edges: seq<Value>, theme: Value, now: int)
    ensures var got := Lookup(docs[userId := SavedDoc(nodes, edges, theme, now)], userId);
      && got.Some?
      && got.value["nodes"] == Array(nodes) && got.value["edges"] == Array(edges)
      && got.value["theme"] == theme
      && got.value["node_count"] == Int(|nodes|) && got.value["edge_count"] == Int(|edges|)
    ensures forall other :: other != userId ==>
      Lookup(docs[userId := SavedDoc(nodes, edges, theme, now)], other) == Lookup(docs, other)
  {
  }

  /** After a delete there is no document for that user id, whether or not
      there was one before; other users' documents are unchanged. */
  lemma DeleteThenGet(docs: Collection, userId: string)
    ensures Lookup(docs - {userId}, userId).None?
    ensures forall other :: other != userId ==> Lookup(docs - {userId}, other) == Lookup(docs, other)
  {
  }

  class FlowDataManager {
    /** The `reactflow_data` collection as the store holds it. */
    var docs: Collection

    constructor (collection: Collection)
      ensures docs == collection
    {
      docs := collection;
    }

    /** `save_flow_data`: a full overwrite (upsert) of the user's document. */
    method SaveFlowData(userId: string, nodes: seq<Value>, edges: seq<Value>, theme: Value, now: int, storeError: bool)
      returns (ok: bool)
      modifies this
      ensures ok == !storeError
      ensures ok ==> docs == old(docs)[userId := SavedDoc(nodes, edges, theme, now)]
      ensures !ok ==> docs == old(docs)
    {
      if storeError {
        return false;
      }
      docs := docs[userId := SavedDoc(nodes, edges, theme, now)];
      ok := true;
    }

    /** `get_flow_data`: the stored document, or None when there is none or
        the read fails (the two are not told apart). */
    method GetFlowData(userId: string, storeError: bool) returns (r: Option<Doc>)
      ensures r.Some? <==> !storeError && userId in docs
      ensures r.Some? ==> r.value == docs[userId]
    {
      if storeError {
        return None;
      }
      r := Lookup(docs, userId);
    }

    /** `delete_flow_data`: removes the document; deleting a missing
        document is not an error. */
    method DeleteFlowData(userId: string, storeError: bool) returns (ok: bool)
      modifies this
      ensures ok == !storeError
      ensures ok ==> docs == old(docs) - {userId}
      ensures !ok ==> docs == old(docs)
    {
      if storeError {
        return false;
      }
      docs := docs - {userId};
      ok := true;
    }

    /** `add_node`: stamps `node.data.created_at`, then array-union appends
        the node to the existing document's list and refreshes `updated_at`.
        The update fails when the node cannot be stamped, when there is no
        document to update, or when the store call fails. */
    method AddNode(userId: string, node: Value, createdAt: string, now: int, storeError: bool)
      returns (ok: bool)
      modifies this
      ensures ok <==> StampNode(node, createdAt).Some? && !storeError && userId in old(docs)
      ensures ok ==> docs == old(docs)[userId := AddNodeUpdate(old(docs)[userId], StampNode(node, createdAt).value, now)]
      ensures !ok ==> docs == old(docs)
    {
      var stamped := StampNode(node, createdAt);
      if stamped.None? || storeError || userId !in docs {
        return false;
      }
      docs := docs[userId := AddNodeUpdate(docs[userId], stamped.value, now)];
      ok := true;
    }

    /** `remove_node`: reads the document, filters out the node and every
        edge touching it, and writes back only `nodes`, `edges` and
        `updated_at`. It fails without side effects when the document is
        missing or empty, when a filter raises, or when the store fails. */
    method RemoveNode(userId: string, nodeId: string, now: int, storeError: bool) returns (ok: bool)
      modifies this
      ensures ok <==>
        && !storeError && userId in old(docs) && old(docs)[userId] != map[]
        && RemoveNodeUpdate(old(docs)[userId], nodeId, now).Some?
      ensures ok ==> docs == old(docs)[userId := RemoveNodeUpdate(old(docs)[userId], nodeId, now).value]
      ensures !ok ==> docs == old(docs)
    {
      var found := GetFlowData(userId, storeError);
      if found.None? || found.value == map[] {
        return false;
      }
      var updated := RemoveNodeUpdate(found.value, nodeId, now);
      if updated.None? {
        return false;
      }
      docs := docs[userId := updated.value];
      ok := true;
    }
  }
}
