# Bridgeport: the hello-world-protocol bridge, modelled in Dafny

The bridge serves a store of hello-world-protocol messages. Its reader half has two entry points:

- a **batch query** endpoint. It takes a base64-encoded JSON envelope `{v: 3, q: {...}}`, validates it and runs it as a find/aggregate cursor. It answers with one JSON array or with newline-delimited JSON.
- a **subscription** endpoint. It validates a restricted envelope and watches the internal `bridgeport_events` collection through a change-stream pipeline. It streams the matching documents as Server-Sent Events (section 9.2 of the WHATWG HTML Living Standard).

Its transformer half ingests ledger actions:

- `process` checks a transaction against the protocol rules. It writes the message record to `hello` and, for a live action, to `bridgeport_events`.
- `rollback` deletes the record again.

## What the model covers

- **`Js`** (`js.dfy`): the JSON values `JSON.parse` produces and the few JavaScript operations the core applies to them:
  - property reads, including the `find`/`sort` methods every array inherits from `Array.prototype`;
  - `typeof`, where `typeof null` and `typeof []` are `'object'`;
  - truthiness, `Object.keys`, and the UTF-16 `length` of a string.
- **`ValidateQuery`** (`validate_query.dfy`): the validator as a total function. Its outcome is `Success`, `Reject(msg)` with the exact message of the first failing check, or `Throw` for the TypeError raised when the envelope or `q` is `null`. It is proved equal to a declarative grammar of accepted envelopes (`Accepted`).
- **`Request`** (`request.dfy`): the decode/validate guard both handlers begin with, and how each failure becomes a 400 `{error}` reply.
- **`Query`** (`query.js` → `query.dfy`):
  - the cursor chain, built step by step by a method that is proved against the plan function `PlannedOps`;
  - the choice of framing;
  - a line-splitting reader, which gets back exactly one serialized result per line.
- **`Socket`** (`socket.dfy`):
  - the `_id` rename of the filter and projection, and the `$replaceRoot`/`$mergeObjects` stage as a right-biased map union;
  - the `$match`/`$project` stages pushed after it, and the `_id` restore applied to every event;
  - round-trip and "what the client sees is part of the document" lemmas.
- **`ServerSentEvents`** (`sse.dfy`):
  - the open, message and heartbeat frames, and the stream as a class that grows by one frame per callback;
  - a reader following the event-stream interpretation rules of section 9.2.6 of the WHATWG HTML Living Standard, which is proved to receive exactly the open and message payloads, in order.
- **`Defaults`** (`defaults.dfy`): the two example envelopes, proved accepted in their modes, with their plan and pipeline computed.
- **`Store`** (`store.dfy`): the transformer's document store as a class over `map<string, map<string, Doc>>`. Each `create`/`delete` can fail, which leaves the store unchanged. `EventsCollection` is declared here once: the transformer copies live records to it and every subscription watches it.
- **`Process`** and **`Rollback`** (`process.dfy`, `rollback.dfy`):
  - the three ingest rules in order;
  - the writes, as methods over the store that are proved against the functions `Processed` and `RolledBack`;
  - lemmas that rejection writes nothing, that only the transaction's own record is touched, and that rollback undoes processing.

`JSON.stringify` is a parameter of type `Json -> string`. Only the literal text the bridge wraps around it is modelled. Where a lemma needs it, its output is required to be one line (`Text.SingleLine`); `JSON.stringify` without indentation guarantees that.

### Where the code and its design description differ (the model follows the code)

- **Find or aggregate.** The description asks for exactly one of `find`/`aggregate`. The code tests their truthiness. A q-block holding both keys is still always rejected, by a later check (`Validate`, fifth ensures). In batch mode, with an acceptable collection, `find: 0` and no `aggregate` gets the "must contain either find or aggregate" message; socket mode gets the "must contain a find field" message instead.
- **Aggregate stages.** "An array of objects" is `typeof stage === 'object'`, so `null` and array stages are accepted.
- **The `find` field.** "Must be an object" admits an array too.
- **A `q` that is an array.** `q: []` in socket mode passes the find/aggregate check, because `[].find` is a function. It is then rejected with the "find must be an object" message.
- **A `q` that is `null`.** It passes the `typeof q === 'object'` check and then throws. The handler turns the throw into a 400 carrying the engine's error text, not a validation message.
- **Restoring `_id`.** The description says every emitted event carries the document's own `_id`. For a projection that only includes or excludes top-level fields, the code guarantees that only when the projection keeps the transient field. Otherwise `_id` is set to `undefined` and `JSON.stringify` drops it (`DeliveredEventIsPartOfDocument`). A computed projection can break it outright: `project: {_id: "$sender"}` is renamed to `{_bridgeport_original_id: "$sender"}`, so the client receives `_id` equal to the sender.
- **Deletions reach subscribers as empty events.** The description says every message carries the restored document. A rollback of a live action deletes its record from `bridgeport_events`, and the deletion's change event has no document. The merged root is then the feed's `_id` alone, and the restore drops it. So every subscription whose filter matches that root, including the default `find: {}`, receives `{"type":"message","data":{}}` (`Socket.DeletionDeliversEmpty`).
- **Renaming `_id` in the filter.** The description asks for every reference to the document's identifier to be renamed. The code renames only a top-level `_id` key of `find` and `project`. The store reads filter keys as paths and operators, so `{$or: [{_id: X}]}`, `{"_id.k": X}` and `{$expr: {$eq: ["$_id", X]}}` still address the feed's own `_id`, and such a subscription never matches on the document's id (`RenamedFilterSeesDocument` speaks of literal top-level field names only).
- **The message limit.** The error text says "512 bytes". The check compares `s4.length`, which counts UTF-16 code units, so a 300-character message of two-byte UTF-8 characters passes (`Js.Utf16Length`, `Process.MessageFits`).

## Model

| member | source | states |
|---|---|---|
| Js.OwnKeys | reader/src/validateQuery.js:16-23 | `Object.keys` of an object is its key set; of an array, only decimal index strings |
| Js.Utf16Length | transformer/process.js:20-26 | `length` lies between the number of characters and twice it, and equals it when no character is outside the BMP |
| ValidateQuery.Validate | reader/src/validateQuery.js:1-150 | `Success` iff the envelope is in the declarative grammar `Accepted`; `Throw` exactly for `null` or an otherwise valid envelope with `q: null`; a missing or different `v` gets the version message whatever else holds; an extra top-level key is rejected; `find` with `aggregate` is never accepted; socket mode rejects the five batch-only keys |
| ValidateQuery.ArrayQBlockRejected | reader/src/validateQuery.js:25-92 | an envelope `{v: 3, q: [...]}` is always rejected: in batch mode because it names no collection, in socket mode because its index keys are none of the forbidden fields and its inherited `find` method is not an object |
| ValidateQuery.CheckAggregate | reader/src/validateQuery.js:66-85 | succeeds iff `aggregate` is an array of object-typed stages and q holds only `aggregate` and `collection`; never throws; a present `find` is rejected |
| ValidateQuery.CheckFind | reader/src/validateQuery.js:86-146 | succeeds iff `find` is an object or array, q holds only the six find-mode keys, `sort`/`project` are object-typed and `skip`/`limit` are numbers when present (any sign); never throws; a present `aggregate` key is rejected |
| Request.Admit | reader/src/query.js:5-21 | a decoding failure yields the fixed base64 message and validation is never reached; admission iff the envelope is `Accepted` in the mode, and the admitted q-block fits the mode's grammar; a rejection carries the validator's message, a throw the exception's |
| Query.FindChainShape | reader/src/query.js:27-33 | the find chain starts with `find`, then holds each truthy step among sort, project, skip and limit exactly once, in that fixed order, and nothing else |
| Query.PlannedOps | reader/src/query.js:24-33 | aggregate mode issues only `aggregate` with the pipeline unchanged; find mode as in `FindChainShape` (so `skip: 0` adds no step, a negative skip does) |
| Query.BuildCursor | reader/src/query.js:24-33 | the cursor built by reassignment targets `q.collection` and issues exactly `PlannedOps(q)` |
| Query.HandleQuery | reader/src/query.js:3-50 | fails iff admission fails, with the same error; an answer targets `q.collection`, which never has the reserved prefix and is never the event collection, runs `PlannedOps(q)`, and is one JSON array iff the `format` header is exactly `json`; its body is `ReplyBody` of the results the store yields for those operations |
| Query.ReplyBody | reader/src/query.js:36-47 | the `json` framing is the serialized array of all results; the line framing gives a line reader back one serialized result per line, in cursor order |
| Query.NdjsonAppend | reader/src/query.js:44-46 | streaming more results appends their lines to what was sent |
| Query.NdjsonLines | reader/src/query.js:44-46 | a reader splitting the body at line feeds gets one serialized result per line, in cursor order |
| Socket.RenameId | reader/src/socket.js:42-45 | after the rename there is no `_id`; every other key keeps its value; the `_id` value moves to the transient field; an object without `_id` is unchanged |
| Socket.SubscriptionPipeline | reader/src/socket.js:26-53 | stage 1 is the merge stage, stage 2 `$match` of the renamed filter, and a renamed `$project` stage is added iff `project` is truthy (length 2 or 3) |
| Socket.BuildPipeline | reader/src/socket.js:26-53 | the pipeline built by pushing stages is `SubscriptionPipeline(q)` |
| Socket.Subscribe | reader/src/socket.js:3-56 | a refused envelope is rejected before anything is watched; a failing watch becomes a 400; otherwise the stream always watches `bridgeport_events` with `SubscriptionPipeline(q)` |
| Socket.MergedRoot | reader/src/socket.js:26-37 | the later object wins: the root's `_id` is the feed id, the transient field holds the document's `_id`, every other field is the document's |
| Socket.Restore | reader/src/socket.js:90-91 | no event keeps the transient field; `_id` is present iff the transient field was, with its value; nothing else changes |
| Socket.RestoreUndoesMerge | reader/src/socket.js:30-91 | restoring the merged root gives back the full document exactly |
| Socket.DeletionDeliversEmpty | reader/src/socket.js:30-91 | a change event without a document merges to the feed's `_id` alone and is delivered as the empty object |
| Socket.DeliveredEventIsPartOfDocument | reader/src/socket.js:46-91 | for top-level inclusion/exclusion projections, whatever part of the merged root is delivered, its restore is a part of the document, and its `_id` is the document's own whenever the transient field survived |
| Socket.RenamedFilterSeesDocument | reader/src/socket.js:26-46 | every top-level key of the renamed filter, read as a literal field name, finds in the merged root exactly what the original key finds in the document |
| Socket.RestoreInvertsRename | reader/src/socket.js:42-91 | rename followed by restore is the identity on objects without the transient field |
| ServerSentEvents.DataLineThenBlank | reader/src/socket.js:92-98 | a `data: ` line and a blank line deliver exactly the line's payload to an event-stream reader |
| ServerSentEvents.OpenFrameDelivers | reader/src/socket.js:66-68 | the open frame's leading blank line dispatches nothing, and the frame delivers `{"type":"open","data":[]}` |
| ServerSentEvents.HeartbeatDelivers | reader/src/socket.js:71-75 | a heartbeat is a comment and delivers no event |
| ServerSentEvents.FrameDelivers | reader/src/socket.js:66-98 | each frame delivers exactly its payload, whatever follows it |
| ServerSentEvents.StreamDelivers | reader/src/socket.js:58-100 | a reader of the whole body receives the open payload and each message payload, in the order written, and nothing for heartbeats |
| ServerSentEvents.EventStream.constructor | reader/src/socket.js:59-68 | the stream writes the five event-stream headers and starts with the open frame |
| ServerSentEvents.EventStream.Body | reader/src/socket.js:66-98 | a client reading the body written so far receives the open payload and the message payloads, in order |
| ServerSentEvents.EventStream.OnChange | reader/src/socket.js:82-100 | appends one message frame with the restored event, leaves the headers as written, and keeps the invariant that the open frame is first and unique and no sent event holds the transient field |
| ServerSentEvents.EventStream.Heartbeat | reader/src/socket.js:70-75 | appends one heartbeat frame, leaves the headers as written, and keeps the same invariant |
| Defaults.DefaultQueryBody | reader/src/defaults.js:4-9 | the default q-block names `hello`, which lacks the reserved prefix, and is a find-mode batch body |
| Defaults.DefaultQueryAccepted | reader/src/defaults.js:2-10 | the default query has exactly the keys `v` and `q` and is accepted in batch mode |
| Defaults.DefaultQueryPlan | reader/src/defaults.js:4-9 | its plan is find `{}`, project `{message: 1}`, limit 10, with no sort and no skip |
| Defaults.DefaultSocketAccepted | reader/src/defaults.js:11-16 | the default subscription holds none of the socket-forbidden keys and is accepted in socket mode |
| Defaults.DefaultSocketPipeline | reader/src/defaults.js:11-16 | its pipeline is the merge stage and `$match` of `{}` |
| Store.Inserted | transformer/process.js:36-45 | `create` stores the record under its `_id` and changes no other lookup |
| Store.Removed | transformer/rollback.js:4-13 | `delete` by `_id` leaves no record under that key and changes no other lookup or collection |
| Store.RemovedIdempotent | transformer/rollback.js:4-13 | deleting twice is deleting once |
| Store.RemovedAfterInserted | transformer/rollback.js:4-13 | deleting what was inserted restores every other lookup |
| Store.State.constructor | transformer/process.js:1 | the store starts from the given collections |
| Store.State.Create | transformer/process.js:36-45 | a write that succeeds inserts; a failed one reports failure and changes nothing |
| Store.State.Delete | transformer/rollback.js:4-13 | a delete that succeeds removes; a failed one reports failure and changes nothing |
| Process.FindSigner | transformer/process.js:13 | the in-order scan finds a signer iff some input carries that address with every earlier input signed; finds none iff every input is signed by someone else; otherwise it faults (TypeError) |
| Process.CheckAction | transformer/process.js:6-33 | valid iff `IsHello`, and then the record is `{_id: tx.h, sender: s3, message: s4}`; no outputs is a TypeError, and so is a signer scan that reaches an input without `e` before a match; each rule's failure gets its own message in order; a message over 512 units is never valid |
| Process.ProcessAction | transformer/process.js:1-50 | the store and the logged failure are those of `Processed`: checks first, then `hello`, then the event collection when live, stopping at the first failed write |
| Process.RejectedLeavesStore | transformer/process.js:6-45 | an action that breaks a rule leaves the store unchanged and logs a failure |
| Process.AcceptedIsWritten | transformer/process.js:29-45 | with working writes the record is stored under `tx.h` in `hello`, and in the event collection iff live (which is untouched otherwise) |
| Process.HelloFailureStopsRun | transformer/process.js:36-49 | a failed `hello` write leaves the store unchanged, so no event is written either |
| Process.ProcessTouchesOnlyItsRecord | transformer/process.js:29-45 | no lookup changes except `tx.h` in `hello` and the event collection |
| Rollback.RollbackAction | transformer/rollback.js:1-18 | the store and the logged failure are those of `RolledBack`: `hello` first, then the event collection when live, stopping at the first failure |
| Rollback.RollbackRemovesRecord | transformer/rollback.js:4-13 | with working deletes `tx.h` is gone from `hello`, and from the event collection when live; no other lookup changes |
| Rollback.RollbackTouchesOnlyItsRecord | transformer/rollback.js:3-13 | whatever fails, no lookup changes except `tx.h` in the two collections, and no collection appears or disappears |
| Rollback.RollbackUndoesProcess | transformer/rollback.js:4-13 | rollback after an accepted action's processing, with the same `tx.h` and `live`, leaves `tx.h` in neither collection it was written to, and every other record as it was before processing |

## Left out

- Base64 and JSON decoding are library calls. The decoded value is an input (`Option<Json>`), and failure is the single `None` case.
- Numbers are integers. Floating point plays no part: the code only asks `typeof === 'number'` and truthiness of them.
- Store semantics are opaque descriptors. This covers MongoDB's matching, sorting, projection, aggregation, change streams, `toArray` and `stream`. The results a cursor yields are a parameter of the batch handler (`Query.Execute`).
- ReplyBody: the JSON-array framing is stated only through the `stringify` parameter, because the text of `JSON.stringify` of an array (and its key order) is outside the model.
- The delivered event is not computed. Which fields survive `$match`/`$project` depends on the store's projection semantics. `DeliveredEventIsPartOfDocument` covers top-level inclusion/exclusion projections, whose result is a part of the merged root.
- DeliveredEventIsPartOfDocument: computed projections (`{_id: "$sender"}` delivers `_id` equal to the sender) and nested ones (`{"a.b": 1}` delivers a sub-object) are not covered.
- RenamedFilterSeesDocument: operator keys (`$or`, `$expr`) and dotted path keys in a filter are not modelled; the code does not rename `_id` inside them.
- Timers, callbacks and connection teardown are left out: the 30-second heartbeat interval, `req.on('close')`, `cursor.on('change')` registration and `pipe(res)`. The stream model records the frames in the order the callbacks write them.
- Exceptions thrown by the store or by `res` inside the handlers are left out, except for two cases modelled as parameters:
  - a failing `watch`;
  - a failing `create`/`delete`.
- The text of an engine exception is abstracted to `ExceptionMessage`.
- In-place mutation of the parsed envelope (the `_id` rename writes into `q.find` and `q.project`) is modelled as functions producing new objects. Nothing reads the envelope after the rename.
- The `transformer/state` module is not part of this model. It is represented by `Store.State`: `create` inserts by `_id`, `delete` removes by `_id`, and either may fail. A duplicate `_id` on `create` is one of the failures the fault set stands for.
- A missing `tx` is left out. In `process.js` and `rollback.js`, it makes the logging in the catch handler itself throw. `Action.tx` is always present in the model.
- Logging (`console.log`/`console.error`) is reduced to the failure each handler returns.
- The default envelopes are shipped as `JSON.stringify(..., null, 2)` text. The model holds their parsed values; the indented text is not modelled.
- The event-stream reader handles LF line ends and the `data` field only. That is all the bridge sends; CR line ends and the `event`, `id` and `retry` fields are not modelled.
- `reader/src/index.js` and `transformer/index.js` are routing, configuration and connection glue. They are not part of this model.
