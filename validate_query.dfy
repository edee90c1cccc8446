/** The query envelope validator: an ordered chain of checks over a decoded
    envelope `{v, q}`. The first failing check decides the one rejection
    message; an envelope that passes every check is a `Success`. */
module ValidateQuery {
  import opened Js

  /** `Socket` is the live-subscription mode; `Batch` is every other mode
      (the batch handler passes no mode at all). */
  datatype Mode = Socket | Batch

  /** `Reject(msg)` is the 400 reply `{error: msg}` the validator writes;
      `Throw` is a TypeError raised while reading from `null`. */
  datatype Outcome = Success | Reject(msg: string) | Throw

  const VersionMsg := "Invalid query. The query must have a \"v\" field with value 3."
  const QBlockMsg := "Invalid query. The query must have a \"q\" field that is an object."
  const TopLevelMsg := "Invalid query. The query cannot contain anything other than a q-block and a v-block."
  const SocketFieldsMsg := "When connecting to a socket, \"aggregate\", \"collection\", \"sort\", \"skip\" and \"limit\" are not allowed."
  const CollectionMsg := "Invalid query. Provide a collection name in the q-block."
  const ReservedPrefixMsg := "You are not allowed to perform operations on collections that start with \"bridgeport_\""
  const FindOrAggregateMsg := "Invalid query. The q-block must contain either find or aggregate."
  const FindFieldMsg := "Invalid query. The q-block must contain a find field."
  const AggregateArrayMsg := "Invalid query. When aggregating, the \"aggregate\" field must be an array of objects."
  const AggregateFieldsMsg := "Invalid query. When aggregating, \"aggregate\" and \"collection\" must be the only two fields in the q-block."
  const FindObjectMsg := "Invalid query. The \"find\" field must be an object."
  const FindFieldsMsg := "Invalid query. When not aggregating, only \"collection\", \"find\", \"sort\", \"project\", \"skip\", and \"limit\" can be given as q-block fields."
  const SortObjectMsg := "Invalid query. The \"sort\" field must be an object."
  const ProjectObjectMsg := "Invalid query. The \"project\" field must be an object."
  const SkipNumberMsg := "Invalid query. The \"skip\" field must be a number."
  const LimitNumberMsg := "Invalid query. The \"limit\" field must be a number."

  /** Collections whose names start with this prefix are internal bookkeeping. */
  const ReservedPrefix := "bridgeport_"

  const EnvelopeKeys: set<string> := {"v", "q"}
  const SocketForbidden: set<string> := {"aggregate", "collection", "sort", "skip", "limit"}
  const AggregateFields: set<string> := {"aggregate", "collection"}
  const FindFields: set<string> := {"collection", "find", "sort", "project", "skip", "limit"}

  // ---------------------------------------------------------------------
  // The grammar of accepted envelopes, stated declaratively.
  // ---------------------------------------------------------------------

  predicate ObjectTyped(j: Json)
  {
    TypeOfJson(j) == TObject
  }

  /** `key` is absent, or present with a value of type `tag`. */
  predicate OptionalOfType(q: map<string, Json>, key: string, tag: TypeTag)
  {
    key in q ==> TypeOfJson(q[key]) == tag
  }

  /** An aggregate q-block: an array of object-typed stages (`null` included)
      and no field besides `aggregate` and `collection`. */
  predicate AggregateBody(q: map<string, Json>)
  {
    && "aggregate" in q && q["aggregate"].JArr?
    && (forall i :: 0 <= i < |q["aggregate"].elems| ==> ObjectTyped(q["aggregate"].elems[i]))
    && q.Keys <= AggregateFields
  }

  /** A find q-block: a truthy object filter, only the six find-mode fields,
      object-typed `sort`/`project` and numeric `skip`/`limit` when present. */
  predicate FindBody(q: map<string, Json>)
  {
    && "find" in q && (q["find"].JObj? || q["find"].JArr?)
    && q.Keys <= FindFields
    && OptionalOfType(q, "sort", TObject)
    && OptionalOfType(q, "project", TObject)
    && OptionalOfType(q, "skip", TNumber)
    && OptionalOfType(q, "limit", TNumber)
  }

  /** A batch q-block names a non-reserved collection and is an aggregate or a find. */
  predicate BatchBody(q: map<string, Json>)
  {
    && "collection" in q && q["collection"].JStr?
    && !(ReservedPrefix <= q["collection"].s)
    && (AggregateBody(q) || FindBody(q))
  }

  /** A subscription q-block is a find without the batch-only fields. */
  predicate SubscriptionBody(q: map<string, Json>)
  {
    FindBody(q) && q.Keys !! SocketForbidden
  }

  predicate ModeBody(q: map<string, Json>, mode: Mode)
  {
    if mode == Socket then SubscriptionBody(q) else BatchBody(q)
  }

  /** An envelope is exactly `{v: 3, q: <object>}` whose q-block fits the mode. */
  predicate Accepted(parsed: Json, mode: Mode)
  {
    && parsed.JObj? && parsed.fields.Keys <= EnvelopeKeys
    && "v" in parsed.fields && parsed.fields["v"] == JNum(3)
    && "q" in parsed.fields && parsed.fields["q"].JObj?
    && ModeBody(parsed.fields["q"].fields, mode)
  }

  // ---------------------------------------------------------------------
  // The validator, check by check in the order of the source.
  // ---------------------------------------------------------------------

  function Validate(parsed: Json, mode: Mode): (r: Outcome)
    ensures r == Success <==> Accepted(parsed, mode)
    ensures r == Throw <==>
              || parsed.JNull?
              || (&& parsed.JObj? && parsed.fields.Keys <= EnvelopeKeys
                  && "v" in parsed.fields && parsed.fields["v"] == JNum(3)
                  && "q" in parsed.fields && parsed.fields["q"] == JNull)
    // the version check comes first: a missing or different `v` decides the message
    ensures (!parsed.JNull? && !(parsed.JObj? && "v" in parsed.fields && parsed.fields["v"] == JNum(3))) ==>
              r == Reject(VersionMsg)
    // any top-level key besides v and q is rejected
    ensures (parsed.JObj? && !(parsed.fields.Keys <= EnvelopeKeys)) ==>
              r.Reject? && r.msg in {VersionMsg, QBlockMsg, TopLevelMsg}
    // a q-block with both `find` and `aggregate` is never accepted
    ensures (&& parsed.JObj? && "q" in parsed.fields && parsed.fields["q"].JObj?
             && "find" in parsed.fields["q"].fields && "aggregate" in parsed.fields["q"].fields) ==>
              r.Reject?
    // a socket q-block carrying a batch-only field is rejected
    ensures (&& mode == Socket && parsed.JObj? && "q" in parsed.fields && parsed.fields["q"].JObj?
             && !(parsed.fields["q"].fields.Keys !! SocketForbidden)) ==>
              r.Reject?
  {
    if parsed.JNull? then Throw  // reading `v` of null
    else if Member(parsed, "v") != Defined(JNum(3)) then Reject(VersionMsg)
    else if TypeOf(Member(parsed, "q")) != TObject then Reject(QBlockMsg)
    else if !(OwnKeys(parsed) <= EnvelopeKeys) then Reject(TopLevelMsg)
    else
      var q := Member(parsed, "q").json;
      // `Object.keys(null)` in socket mode, `null.collection` otherwise
      if q.JNull? then Throw
      else if mode == Socket && !(OwnKeys(q) !! SocketForbidden) then Reject(SocketFieldsMsg)
      else if mode == Batch && TypeOf(Member(q, "collection")) != TString then Reject(CollectionMsg)
      else if mode == Batch && ReservedPrefix <= Member(q, "collection").json.s then Reject(ReservedPrefixMsg)
      else if !Truthy(Member(q, "find")) && !Truthy(Member(q, "aggregate")) then
        Reject(if mode == Batch then FindOrAggregateMsg else FindFieldMsg)
      else if Truthy(Member(q, "aggregate")) then CheckAggregate(q)
      else CheckFind(q)
  }

  /** An array q-block is always rejected: in batch mode it names no
      collection; in socket mode its index keys are none of the forbidden
      fields and its inherited `find` method is not an object. */
  lemma ArrayQBlockRejected(s: seq<Json>, mode: Mode)
    ensures Validate(JObj(map["v" := JNum(3), "q" := JArr(s)]), mode) ==
              Reject(if mode == Batch then CollectionMsg else FindObjectMsg)
  {
    var parsed := JObj(map["v" := JNum(3), "q" := JArr(s)]);
    assert parsed.fields.Keys == EnvelopeKeys;
    if mode == Socket {
      forall k | k in OwnKeys(JArr(s)) ensures k !in SocketForbidden {
        NoIndexKeyIsRead(k);
      }
    }
  }

  /** The aggregate-mode checks, reached when `aggregate` is truthy. */
  function CheckAggregate(q: Json): (r: Outcome)
    requires q.JObj? || q.JArr?
    requires Truthy(Member(q, "aggregate"))
    ensures r == Success <==> q.JObj? && AggregateBody(q.fields)
    ensures r != Throw
    ensures q.JObj? && "find" in q.fields ==> r.Reject?
  {
    var agg := Member(q, "aggregate");
    if !(agg.Defined? && agg.json.JArr?)
       || (exists i :: 0 <= i < |agg.json.elems| && TypeOfJson(agg.json.elems[i]) != TObject)
    then Reject(AggregateArrayMsg)
    else if !(OwnKeys(q) <= AggregateFields) then Reject(AggregateFieldsMsg)
    else Success
  }

  /** The find-mode checks, reached when `find` is truthy and `aggregate` is not. */
  function CheckFind(q: Json): (r: Outcome)
    requires q.JObj? || q.JArr?
    requires Truthy(Member(q, "find")) && !Truthy(Member(q, "aggregate"))
    ensures r == Success <==> q.JObj? && FindBody(q.fields)
    ensures r != Throw
    ensures q.JObj? && "aggregate" in q.fields ==> r.Reject?
  {
    if TypeOf(Member(q, "find")) != TObject then Reject(FindObjectMsg)
    else if !(OwnKeys(q) <= FindFields) then Reject(FindFieldsMsg)
    else if TypeOf(Member(q, "sort")) != TUndefined && TypeOf(Member(q, "sort")) != TObject then Reject(SortObjectMsg)
    else if TypeOf(Member(q, "project")) != TUndefined && TypeOf(Member(q, "project")) != TObject then Reject(ProjectObjectMsg)
    else if TypeOf(Member(q, "skip")) != TUndefined && TypeOf(Member(q, "skip")) != TNumber then Reject(SkipNumberMsg)
    else if TypeOf(Member(q, "limit")) != TUndefined && TypeOf(Member(q, "limit")) != TNumber then Reject(LimitNumberMsg)
    else Success
  }
}
