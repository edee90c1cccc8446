/** The live-subscription bridge: admit the envelope in socket mode, build a
    change-stream pipeline over the internal event collection that hides the
    feed's own `_id` from the caller's filter and projection, and restore the
    document's `_id` on every event before it is sent. */
module Socket {
  import opened Js
  import opened ValidateQuery
  import opened Request
  import Store

  /** The transient field that carries a document's own `_id` through the pipeline. */
  const TransientId := "_bridgeport_original_id"

  // ---------------------------------------------------------------------
  // Renaming `_id` in the caller's filter and projection
  // ---------------------------------------------------------------------

  /** Where a top-level key of the caller's object ends up after the rename. */
  function RenamedKey(k: string): string
  {
    if k == "_id" then TransientId else k
  }

  /** Moves the value of `_id`, if any, to the transient field. */
  function RenameId(m: map<string, Json>): (r: map<string, Json>)
    ensures "_id" !in r
    ensures "_id" !in m ==> r == m
    ensures forall k :: k in m && k != TransientId ==> RenamedKey(k) in r && r[RenamedKey(k)] == m[k]
    ensures r.Keys <= (m.Keys - {"_id"}) + {TransientId}
  {
    if "_id" in m then (m - {"_id"})[TransientId := m["_id"]] else m
  }

  /** The rename applied to a filter or projection value; an array has no `_id`. */
  function RenameIdIn(j: Json): Json
  {
    if j.JObj? then JObj(RenameId(j.fields)) else j
  }

  // ---------------------------------------------------------------------
  // The change-stream pipeline
  // ---------------------------------------------------------------------

  /** A one-operator pipeline stage `{op: arg}`. */
  function Stage(op: string, arg: Json): Json
  {
    JObj(map[op := arg])
  }

  /** `$replaceRoot` with `$mergeObjects` of the full document and
      `{_id: '$_id', _bridgeport_original_id: '$fullDocument._id'}`. */
  const ReplaceRootStage: Json :=
    Stage("$replaceRoot", JObj(map["newRoot" :=
      Stage("$mergeObjects", JArr([
        JStr("$fullDocument"),
        JObj(map["_id" := JStr("$_id"), TransientId := JStr("$fullDocument._id")])
      ]))]))

  /** The pipeline a subscription watches with. */
  function SubscriptionPipeline(q: map<string, Json>): (p: seq<Json>)
    requires SubscriptionBody(q)
    ensures |p| == if Truthy(Member(JObj(q), "project")) then 3 else 2
    ensures p[0] == ReplaceRootStage
    ensures p[1] == Stage("$match", RenameIdIn(q["find"]))
    ensures |p| == 3 ==> "project" in q && p[2] == Stage("$project", RenameIdIn(q["project"]))
  {
    [ReplaceRootStage, Stage("$match", RenameIdIn(q["find"]))]
      + if Truthy(Member(JObj(q), "project")) then [Stage("$project", RenameIdIn(q["project"]))] else []
  }

  /** Builds the pipeline by pushing stages, as the handler does. */
  method BuildPipeline(q: map<string, Json>) returns (pipeline: seq<Json>)
    requires SubscriptionBody(q)
    ensures pipeline == SubscriptionPipeline(q)
  {
    var query := JObj(q);
    pipeline := [ReplaceRootStage];
    pipeline := pipeline + [Stage("$match", RenameIdIn(q["find"]))];
    if Truthy(Member(query, "project")) {
      pipeline := pipeline + [Stage("$project", RenameIdIn(q["project"]))];
    }
  }

  /** `Rejected` is a 400 reply; `Watching` is an open change stream on
      `collection` with `pipeline`, after which the event stream starts. */
  datatype Subscription =
    | Rejected(error: ErrorBody)
    | Watching(collection: string, pipeline: seq<Json>)

  /** The subscription request handler up to the opening of the stream.
      `watchFails` says whether the store refuses to open the change stream. */
  method Subscribe(decoded: Option<Json>, watchFails: bool) returns (s: Subscription)
    ensures Admit(decoded, Socket).Refused? ==> s == Rejected(Admit(decoded, Socket).error)
    ensures Admit(decoded, Socket).Admitted? && watchFails ==> s == Rejected(ExceptionMessage)
    ensures Admit(decoded, Socket).Admitted? && !watchFails ==>
              s == Watching(Store.EventsCollection, SubscriptionPipeline(Admit(decoded, Socket).q))
  {
    var admission := Admit(decoded, Socket);
    match admission
    case Refused(error) =>
      s := Rejected(error);
    case Admitted(q) =>
      var pipeline := BuildPipeline(q);
      if watchFails {
        s := Rejected(ExceptionMessage);
      } else {
        s := Watching(Store.EventsCollection, pipeline);
      }
  }

  // ---------------------------------------------------------------------
  // What the first stage computes, and the restore on delivery
  // ---------------------------------------------------------------------

  /** A change notification: the feed's own `_id` and the changed document,
      absent for a deletion. */
  datatype ChangeEvent = ChangeEvent(feedId: Json, fullDocument: Option<map<string, Json>>)

  function DocumentOf(ev: ChangeEvent): map<string, Json>
  {
    match ev.fullDocument
    case Some(d) => d
    case None => map[]  // `$mergeObjects` skips a missing operand
  }

  /** The new root the first stage makes: the full document, then the feed's
      `_id` and the document's `_id` under the transient name; later keys win. */
  function MergedRoot(ev: ChangeEvent): (root: map<string, Json>)
    ensures "_id" in root && root["_id"] == ev.feedId
    ensures "_id" in DocumentOf(ev) ==> TransientId in root && root[TransientId] == DocumentOf(ev)["_id"]
    ensures "_id" !in DocumentOf(ev) ==>
              (TransientId in root <==> TransientId in DocumentOf(ev))
              && (TransientId in root ==> root[TransientId] == DocumentOf(ev)[TransientId])
    ensures forall k :: k != "_id" && k != TransientId ==>
              (k in root <==> k in DocumentOf(ev)) && (k in root ==> root[k] == DocumentOf(ev)[k])
  {
    var doc := DocumentOf(ev);
    doc + (map["_id" := ev.feedId] + if "_id" in doc then map[TransientId := doc["_id"]] else map[])
  }

  /** Sets `_id` from the transient field and deletes the transient field. When
      the transient field is missing, `_id` becomes `undefined`, which
      `JSON.stringify` leaves out, so the key is dropped. */
  function Restore(event: map<string, Json>): (r: map<string, Json>)
    ensures TransientId !in r
    ensures "_id" in r <==> TransientId in event
    ensures TransientId in event ==> r["_id"] == event[TransientId]
    ensures forall k :: k != "_id" && k != TransientId ==>
              (k in r <==> k in event) && (k in r ==> r[k] == event[k])
  {
    if TransientId in event then (event - {TransientId})["_id" := event[TransientId]]
    else event - {"_id"}
  }

  /** `a` holds some of the fields of `b`, with the same values. */
  ghost predicate SubMap(a: map<string, Json>, b: map<string, Json>)
  {
    a.Keys <= b.Keys && forall k :: k in a ==> a[k] == b[k]
  }

  /** Restoring the merged root gives back the document exactly: the client
      sees the document's own `_id`, never the feed's. */
  lemma RestoreUndoesMerge(ev: ChangeEvent)
    requires TransientId !in DocumentOf(ev)
    ensures Restore(MergedRoot(ev)) == DocumentOf(ev)
  {
    var doc, r := DocumentOf(ev), Restore(MergedRoot(ev));
    assert r.Keys == doc.Keys;
  }

  /** A deletion carries no document, so the merged root is the feed's `_id`
      alone and the restored event is empty: the `_id` is dropped. */
  lemma DeletionDeliversEmpty(feedId: Json)
    ensures MergedRoot(ChangeEvent(feedId, None)) == map["_id" := feedId]
    ensures Restore(MergedRoot(ChangeEvent(feedId, None))) == map[]
  {
    RestoreUndoesMerge(ChangeEvent(feedId, None));
    assert MergedRoot(ChangeEvent(feedId, None)).Keys == {"_id"};
  }

  /** For a `$match` and a `$project` that only include or exclude top-level
      fields, the delivered event is a part of the merged root (`SubMap`).
      Restoring such a part gives a part of the document, and its `_id` is the
      document's own whenever the transient field survived. Computed and
      nested projections deliver values that are not fields of the root and
      are outside this lemma. */
  lemma DeliveredEventIsPartOfDocument(ev: ChangeEvent, delivered: map<string, Json>)
    requires TransientId !in DocumentOf(ev)
    requires SubMap(delivered, MergedRoot(ev))
    ensures SubMap(Restore(delivered), DocumentOf(ev))
    ensures TransientId in delivered ==>
              "_id" in Restore(delivered) && "_id" in DocumentOf(ev)
              && Restore(delivered)["_id"] == DocumentOf(ev)["_id"]
  {
    var doc, root, r := DocumentOf(ev), MergedRoot(ev), Restore(delivered);
    forall k | k in r ensures k in doc && r[k] == doc[k] {
      if k == "_id" {
        assert TransientId in delivered;
      }
    }
  }

  /** Every top-level key of the caller's filter, once renamed and read as a
      literal field name, looks up in the merged root exactly what the original
      key looks up in the document. The store reads a key as a field name only
      when it has no leading `$` and no `.`; operator and path keys are not
      renamed and still address the feed's own `_id`. */
  lemma RenamedFilterSeesDocument(filter: map<string, Json>, ev: ChangeEvent)
    requires TransientId !in DocumentOf(ev)
    ensures forall k :: k in filter && k != TransientId ==>
              && RenamedKey(k) in RenameId(filter)
              && RenameId(filter)[RenamedKey(k)] == filter[k]
              && (RenamedKey(k) in MergedRoot(ev) <==> k in DocumentOf(ev))
              && (k in DocumentOf(ev) ==> MergedRoot(ev)[RenamedKey(k)] == DocumentOf(ev)[k])
  {
    forall k | k in filter && k != TransientId
      ensures (RenamedKey(k) in MergedRoot(ev) <==> k in DocumentOf(ev))
      ensures k in DocumentOf(ev) ==> MergedRoot(ev)[RenamedKey(k)] == DocumentOf(ev)[k]
    {
      if k == "_id" {
        assert RenamedKey(k) == TransientId;
      }
    }
  }

  /** The rename and the restore are inverse on objects without the transient field. */
  lemma RestoreInvertsRename(m: map<string, Json>)
    requires TransientId !in m
    ensures Restore(RenameId(m)) == m
  {
    var r := Restore(RenameId(m));
    assert r.Keys == m.Keys;
  }
}
