# Knowledge canvas backend: flow documents in Dafny

The backend keeps one *flow document* per user in the document collection
`reactflow_data`: the nodes and edges of a visual flow editor, a theme, the
counts `node_count`/`edge_count` and a server write time `updated_at`. The
class `FlowDataManager` saves, reads, deletes and edits these documents, and
the REST handlers validate requests, substitute defaults and shape JSON
replies around it.

This project models that core:

- `values.dfy` (module `Values`): JSON values (plus the store's timestamp),
  Python's `d[k]`, `d.get(k, default)` and truthiness, and a list
  comprehension whose condition may raise (`Filter`), with its order
  lemmas.
- `flow_docs.dfy` (module `FlowDocs`): documents as field maps, the document
  a save writes, the node and edge filtering of `remove_node` (including the
  `KeyError`/`TypeError` cases, which make the manager report failure), the
  `created_at` stamping and array-union append of `add_node`, and lemmas:
  filter correctness, order preservation, a removal example, and
  that neither `remove_node` nor `add_node` recomputes the counts.
- `flow_store.dfy` (module `FlowStore`): the class `FlowDataManager`, whose
  field `docs` stands for the collection; its methods change it exactly as
  the source's `set`/`update`/`delete` calls do.
- `handlers.dfy` (module `Handlers`): the handlers' validation and reply
  shaping as pure functions of the parsed body (or path parameters) and the
  manager's result, and the save-then-load and load-without-document
  lemmas.
- `routes.dfy` (module `Routes`): the five data routes end to end, calling
  the manager (`null` when the store was not initialised).

A failing store call is the parameter `storeError`; the write time
(`SERVER_TIMESTAMP` once resolved) is the parameter `now`, stored as
`Timestamp(now)`; the local clock reading of `add_node` is the parameter
`createdAt`; the id the store generates for `document(None)` is the
parameter `generatedId`.

The model follows main.py in these details:
- a document that exists but is empty is treated like a missing one, both by
  `remove_node` (failure) and by `load_flow` (empty default payload), since
  both test the dict's truthiness;
- `user_id` defaults to `default_user` only when the key is missing; an empty
  string is passed through;
- `add_node` requires an existing document (the store's update fails
  otherwise), and the route answers 500;
- a JSON `null` `user_id` is passed to the store as `None`, which names a
  freshly generated document id: `save_flow` writes under that id and
  answers 200, `add_node` finds no document there and answers 500.

## Model

| member | source | states |
|---|---|---|
| `Values.Filter` | main.py:150-152 | a comprehension raises exactly when some condition raises; otherwise every kept element satisfies the condition, and every element that satisfies it is kept |
| `Values.FilterAppend` | main.py:150-152 | the comprehension keeps the original order: filtering `a + b` gives the filtered `a` followed by the filtered `b` |
| `Values.FilterDrops` | main.py:150-152 | an element whose condition is false is dropped, so the result is strictly shorter than the input |
| `FlowDocs.SavedDoc` | main.py:75-82 | the document a save writes has exactly the six fields, list-valued `nodes` and `edges`, and counts equal to the lengths of the stored lists |
| `FlowDocs.SavedDocContents` | main.py:75-84 | the saved document holds `nodes`, `edges` and `theme` exactly as given, the write time, and `node_count`/`edge_count` equal to the list lengths |
| `FlowDocs.ItemsOf` | main.py:150-152 | `doc.get(key, [])` iterated: a missing field reads as empty, a list gives its elements, a null, boolean, number or timestamp raises |
| `FlowDocs.NodeKept` | main.py:150 | the node condition raises iff the node has no `id`, and holds iff the node has an `id` other than the removed one |
| `FlowDocs.EdgeKept` | main.py:151-152 | the short-circuit edge condition raises iff `source` is missing, or `target` is missing while `source` is another id; it holds iff both ends are present and neither is the removed id |
| `FlowDocs.FilterNodes` | main.py:150 | raises exactly when a node has no `id`; otherwise no kept node has the removed id and every node with another id is kept |
| `FlowDocs.FilterEdges` | main.py:151-152 | raises exactly when an edge lacks `source`, or lacks `target` while its `source` is another id; otherwise no kept edge touches the id and every edge touching neither end is kept |
| `FlowDocs.FilterNodesInOrder` | main.py:150 | remaining nodes keep their original order: a single node survives iff it has another id, and filtering distributes over concatenation |
| `FlowDocs.FilterEdgesInOrder` | main.py:151-152 | remaining edges keep their original order in the same sense |
| `FlowDocs.RemoveNodeUpdate` | main.py:145-159 | succeeds iff both lists can be read and filtered; then only `nodes`, `edges` and `updated_at` are written, `theme`, the counts and every other field keep their values |
| `FlowDocs.RemoveNodeClears` | main.py:149-159 | after a removal a node is in the list iff it was there with another id, and an edge is there iff it was there and touches neither end |
| `FlowDocs.RemoveNodeLeavesStaleCount` | main.py:155-159 | on a freshly saved document, removing a present node leaves `node_count` at the old length while the list is shorter |
| `FlowDocs.RemoveNodeExample` | main.py:142-166 | nodes `n1`, `n2` and an edge `n1`→`n2`: removing `n1` leaves nodes `[n2]` and no edges |
| `FlowDocs.StampNode` | main.py:128 | succeeds iff the node is a dict whose `data` is a dict; then `data.created_at` is the stamp, `data` gains no other key, and every other field and `data` entry is unchanged |
| `FlowDocs.ArrayUnion` | main.py:130-133 | the element ends up in the list; an existing list keeps all its elements as a prefix and grows by at most one, not at all if it already held the element |
| `FlowDocs.AddNodeUpdate` | main.py:130-133 | the node is in the new list, every old node stays, `updated_at` is the write time, and every other field is unchanged |
| `FlowDocs.AddNodeLeavesStaleCount` | main.py:130-133 | on a freshly saved document, adding a new node leaves `node_count` one below the list length |
| `FlowStore.Lookup` | main.py:95-104 | a read yields a document iff one is stored under the key, and then exactly that document |
| `FlowStore.DocumentKey` | main.py:73 | a string `user_id` names its own document, `null` names the store-generated id, any other value names none (the store raises) |
| `FlowStore.SaveThenGet` | main.py:73-104 | reading after a save returns the saved lists and theme with counts equal to their lengths; other users' documents are unaffected |
| `FlowStore.DeleteThenGet` | main.py:113-116 | after a delete there is no document for the user, whether or not there was one; other users' documents are unchanged |
| `FlowStore.FlowDataManager.constructor` | main.py:66-68 | the manager starts over the given collection |
| `FlowStore.FlowDataManager.SaveFlowData` | main.py:70-90 | succeeds iff the store call does; then replaces the user's document by the saved document, else changes nothing |
| `FlowStore.FlowDataManager.GetFlowData` | main.py:92-108 | returns the stored document iff it exists and the read succeeds; otherwise the absent value |
| `FlowStore.FlowDataManager.DeleteFlowData` | main.py:110-120 | succeeds iff the store call does, also for a missing document; then no document is left for the user and the others are unchanged |
| `FlowStore.FlowDataManager.AddNode` | main.py:122-140 | succeeds iff the node can be stamped, the document exists and the store call succeeds; then the document gets the array-union update, else nothing changes |
| `FlowStore.FlowDataManager.RemoveNode` | main.py:142-166 | succeeds iff the read succeeds, the document is non-empty and the filters do not raise; then the document gets the removal update, else nothing changes |
| `Handlers.NoGet` | main.py:192-215 | a body that is not a JSON object reaches the catch-all: 500 with only an `error` field, the AttributeError text naming the body's Python type |
| `Handlers.SaveFlowCall` | main.py:186-199 | 500 when not initialised or the body is not an object; 400 iff `nodes` or `edges` is not a list; otherwise the arguments with defaults `default_user`, `[]`, `[]`, `light` |
| `Handlers.SaveFlowDefaults` | main.py:193-196 | an empty object saves an empty `light` flow for `default_user` |
| `Handlers.SaveFlowReply` | main.py:185-215 | status is 200, 400 or 500; 400 exactly for non-list `nodes`/`edges`; every early reply is the one `SaveFlowCall` built; 200 iff the save was attempted and succeeded, with body exactly the success message and counts equal to the request's list lengths; a failed save gives 500 `Failed to save flow data` |
| `Handlers.LoadFlowReply` | main.py:219-242 | 500 when not initialised, else 200; an absent or empty document gives the empty default payload; a present one is projected with defaults `[]`, `light`, `null`, `0` |
| `Handlers.SaveThenLoad` | main.py:193-235 | saving a request and loading the same user returns the request's lists and theme and counts equal to their lengths |
| `Handlers.LoadWithoutDocument` | main.py:227-242 | loading a user that has no document, e.g. one just deleted, gives the empty default payload with 200 |
| `Handlers.AddNodeCall` | main.py:250-261 | 500 when not initialised or the body is not an object; 400 iff `node` is missing or falsy; otherwise the node and the user id defaulting to `default_user` |
| `Handlers.AddNodeReply` | main.py:250-272 | status is 200, 400 or 500; every early reply is the one `AddNodeCall` built; 200 iff the call was made and succeeded, with body exactly `Node added successfully`; a failed add gives 500 `Failed to add node` |
| `Handlers.DeleteNodeReply` | main.py:276-291 | 500 `Firebase not initialized` when not initialised; 200 with the success message iff the removal succeeded; otherwise 500 `Failed to delete node` |
| `Handlers.DeleteFlowReply` | main.py:295-310 | 500 `Firebase not initialized` when not initialised; 200 with the success message iff the delete succeeded; otherwise 500 `Failed to delete flow data` |
| `Routes.SaveFlow` | main.py:185-215 | the reply of the save handler and the new collection, a `null` user id saving under the generated id; any reply other than 200 leaves the collection unchanged |
| `Routes.LoadFlow` | main.py:218-246 | the load reply built from what the manager read |
| `Routes.AddNode` | main.py:249-272 | the add-node reply and the new collection, a `null` user id naming the generated id, which has no document, so the add fails; any reply other than 200 leaves it unchanged |
| `Routes.DeleteNode` | main.py:275-291 | the delete-node reply and the collection after the removal |
| `Routes.DeleteFlow` | main.py:294-310 | the delete-flow reply and the collection after the delete |

## Left out

- Store initialisation and credential loading from the environment (main.py:25-61): foreign SDK calls; a failed initialisation appears only as a `null` manager.
- Flask setup, CORS, logging, the 404/500 error handlers, `app.run` (main.py:10-22, main.py:339-359): framework plumbing.
- `/health` and `/api/users` (main.py:175-182, main.py:313-337): they report a clock reading and enumerate the collection in an unspecified order.
- The handlers' catch-all for other exceptions: only the `AttributeError` from a body that is not a JSON object is modelled; a body that fails to parse, and serialisation errors of `jsonify`, are not.
- JSON serialisation of the reply: `updated_at` stays a `Timestamp` value instead of the date string `jsonify` writes; floating-point numbers are not among the modelled values.
- Document keys: the store's rules for document ids (non-empty, no `/`) are not modelled; a `null` `user_id` gets the store-generated id `generatedId`, assumed unused; any other non-string `user_id` is modelled as a failed store call.
- `FlowStore.FlowDataManager.AddNode`: the array-union de-duplication and the failure of an update on a missing document are the store's documented behaviour, assumed here because the source does not show them.
- `FlowStore.FlowDataManager.RemoveNode`: one `storeError` flag stands for either of its two store calls (the read and the update) failing; both give the same result and state.
- The in-place change of the request's node dict in `add_node`: modelled as the stamped copy that is written; the caller never reads the dict again.
- Concurrent writers and the non-atomic read-modify-write of `remove_node`: concurrency is out of scope; each call is atomic here.
- `updated_at` monotonicity: write times are parameters, with no ordering imposed between calls.
