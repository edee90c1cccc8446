/** The batch query handler: admit the envelope in batch mode, turn the
    q-block into a chain of cursor operations on the named collection, and
    frame the results as one JSON array or as newline-delimited JSON. */
module Query {
  import opened Js
  import opened Text
  import opened ValidateQuery
  import opened Request
  import Store

  /** One cursor operation, as an opaque descriptor of the store call. */
  datatype Op =
    | Aggregate(stages: seq<Json>)
    | Find(filter: Json)
    | Sort(sortSpec: Json)
    | Project(projection: Json)
    | Skip(skipCount: int)
    | Limit(limitCount: int)

  /** The q-block fields that add an operation after `find`, in the order the
      handler applies them. */
  const CursorSteps: seq<string> := ["sort", "project", "skip", "limit"]

  /** The q-block field an operation comes from. */
  function KeyOf(op: Op): string
  {
    match op
    case Aggregate(_) => "aggregate"
    case Find(_) => "find"
    case Sort(_) => "sort"
    case Project(_) => "project"
    case Skip(_) => "skip"
    case Limit(_) => "limit"
  }

  /** The position of an operation's kind in the fixed chain. */
  function Rank(op: Op): nat
  {
    match op
    case Aggregate(_) => 0
    case Find(_) => 0
    case Sort(_) => 1
    case Project(_) => 2
    case Skip(_) => 3
    case Limit(_) => 4
  }

  /** The field is given and truthy. */
  predicate Present(q: map<string, Json>, key: string)
  {
    key in q && Truthy(Defined(q[key]))
  }

  /** The operation a present cursor-step field adds. */
  function StepOp(q: map<string, Json>, key: string): Op
    requires FindBody(q) && key in CursorSteps && key in q
  {
    if key == "sort" then Sort(q[key])
    else if key == "project" then Project(q[key])
    else if key == "skip" then Skip(q[key].n)
    else Limit(q[key].n)
  }

  function StepIf(q: map<string, Json>, key: string): seq<Op>
    requires FindBody(q) && key in CursorSteps
  {
    if Present(q, key) then [StepOp(q, key)] else []
  }

  /** `find` followed by each truthy cursor step, in the fixed order. */
  function FindChain(q: map<string, Json>): seq<Op>
    requires FindBody(q)
  {
    [Find(q["find"])] + StepIf(q, "sort") + StepIf(q, "project") + StepIf(q, "skip") + StepIf(q, "limit")
  }

  /** Each operation ranks strictly below every later one. */
  predicate Ascending(ops: seq<Op>)
  {
    forall i, j :: 0 <= i < j < |ops| ==> Rank(ops[i]) < Rank(ops[j])
  }

  /** Every operation after the first is the step of a truthy cursor-step field. */
  predicate TruthySteps(q: map<string, Json>, ops: seq<Op>)
    requires FindBody(q)
  {
    forall i :: 0 < i < |ops| ==>
      && KeyOf(ops[i]) in CursorSteps && Present(q, KeyOf(ops[i]))
      && ops[i] == StepOp(q, KeyOf(ops[i]))
  }

  /** Every truthy cursor-step field has its step after the first operation. */
  predicate AllStepsIssued(q: map<string, Json>, ops: seq<Op>)
  {
    forall key :: key in CursorSteps && Present(q, key) ==>
      exists i :: 0 < i < |ops| && KeyOf(ops[i]) == key
  }

  /** The rank of the step a cursor-step field adds. */
  function StepRank(key: string): nat
  {
    if key == "sort" then 1 else if key == "project" then 2 else if key == "skip" then 3 else 4
  }

  /** Appending the step of `key` to a chain whose operations all rank below
      it keeps the chain ascending and made of truthy steps. */
  lemma AppendStep(q: map<string, Json>, ops: seq<Op>, key: string)
    requires FindBody(q) && key in CursorSteps && |ops| >= 1
    requires Ascending(ops) && TruthySteps(q, ops)
    requires forall i :: 0 <= i < |ops| ==> Rank(ops[i]) < StepRank(key)
    ensures Ascending(ops + StepIf(q, key)) && TruthySteps(q, ops + StepIf(q, key))
    ensures forall i :: 0 <= i < |ops + StepIf(q, key)| ==> Rank((ops + StepIf(q, key))[i]) <= StepRank(key)
    ensures Present(q, key) ==> |StepIf(q, key)| == 1 && KeyOf((ops + StepIf(q, key))[|ops|]) == key
  {
    if Present(q, key) {
      var op := StepOp(q, key);
      assert KeyOf(op) == key && Rank(op) == StepRank(key);
      var ops' := ops + [op];
      forall i | 0 < i < |ops'|
        ensures KeyOf(ops'[i]) in CursorSteps && Present(q, KeyOf(ops'[i])) && ops'[i] == StepOp(q, KeyOf(ops'[i]))
      {
        if i < |ops| { assert ops'[i] == ops[i]; }
      }
    } else {
      assert ops + StepIf(q, key) == ops;
    }
  }

  /** The find chain starts with `find`, then holds exactly the truthy
      cursor steps, each once, in the fixed order. */
  lemma FindChainShape(q: map<string, Json>)
    requires FindBody(q)
    ensures var ops := FindChain(q);
            && |ops| >= 1 && ops[0] == Find(q["find"])
            && Ascending(ops) && TruthySteps(q, ops) && AllStepsIssued(q, ops)
  {
    var o0 := [Find(q["find"])];
    AppendStep(q, o0, "sort");
    var o1 := o0 + StepIf(q, "sort");
    AppendStep(q, o1, "project");
    var o2 := o1 + StepIf(q, "project");
    AppendStep(q, o2, "skip");
    var o3 := o2 + StepIf(q, "skip");
    AppendStep(q, o3, "limit");
    var ops := o3 + StepIf(q, "limit");
    assert ops == FindChain(q);
    forall key | key in CursorSteps && Present(q, key)
      ensures exists i :: 0 < i < |ops| && KeyOf(ops[i]) == key
    {
      if key == "sort" {
        assert ops[|o0|] == o1[|o0|];
      } else if key == "project" {
        assert ops[|o1|] == o2[|o1|];
      } else if key == "skip" {
        assert ops[|o2|] == o3[|o2|];
      } else {
        assert KeyOf(ops[|o3|]) == key;
      }
    }
  }

  /** The cursor operations the handler issues for a validated batch q-block. */
  function PlannedOps(q: map<string, Json>): (ops: seq<Op>)
    requires BatchBody(q)
    // aggregate mode passes the pipeline through and adds nothing
    ensures AggregateBody(q) ==> ops == [Aggregate(q["aggregate"].elems)]
    // find mode: find first, then each truthy step once, in the fixed order
    ensures FindBody(q) ==>
              && |ops| >= 1 && ops[0] == Find(q["find"])
              && Ascending(ops) && TruthySteps(q, ops) && AllStepsIssued(q, ops)
  {
    if Present(q, "aggregate") then [Aggregate(q["aggregate"].elems)]
    else FindChainShape(q); FindChain(q)
  }

  /** Builds the cursor step by step, reassigning it as the handler does. */
  method BuildCursor(q: map<string, Json>) returns (collection: string, ops: seq<Op>)
    requires BatchBody(q)
    ensures collection == q["collection"].s
    ensures ops == PlannedOps(q)
  {
    var query := JObj(q);
    collection := q["collection"].s;
    if Truthy(Member(query, "aggregate")) {
      ops := [Aggregate(q["aggregate"].elems)];
    } else {
      ops := [Find(q["find"])];
      if Truthy(Member(query, "sort")) { ops := ops + [Sort(q["sort"])]; }
      assert ops == [Find(q["find"])] + StepIf(q, "sort");
      if Truthy(Member(query, "project")) { ops := ops + [Project(q["project"])]; }
      assert ops == [Find(q["find"])] + StepIf(q, "sort") + StepIf(q, "project");
      if Truthy(Member(query, "skip")) { ops := ops + [Skip(q["skip"].n)]; }
      assert ops == [Find(q["find"])] + StepIf(q, "sort") + StepIf(q, "project") + StepIf(q, "skip");
      if Truthy(Member(query, "limit")) { ops := ops + [Limit(q["limit"].n)]; }
      assert ops == FindChain(q);
    }
  }

  datatype Framing = JsonArray | JsonLines

  /** The store running a cursor: the results `ops` yield on a collection, in
      cursor order. Its semantics are the store's and are not modelled. */
  type Execute = (string, seq<Op>) -> seq<Json>

  /** `Failed` is a 400 reply; `Answered` is a 200 reply with the result of
      `ops` on `collection`, framed as `framing` says, in `body`. */
  datatype QueryResponse =
    | Failed(error: ErrorBody)
    | Answered(collection: string, ops: seq<Op>, framing: Framing, body: string)

  /** The batch request handler. `format` is the `format` request header. */
  method HandleQuery(decoded: Option<Json>, format: Option<string>, execute: Execute, stringify: Stringify)
    returns (resp: QueryResponse)
    ensures resp.Failed? <==> Admit(decoded, Batch).Refused?
    ensures resp.Failed? ==> resp.error == Admit(decoded, Batch).error
    ensures resp.Answered? ==>
              && Admit(decoded, Batch).Admitted?
              && resp.collection == Admit(decoded, Batch).q["collection"].s
              && !(ReservedPrefix <= resp.collection)
              && resp.collection != Store.EventsCollection
              && resp.ops == PlannedOps(Admit(decoded, Batch).q)
              && (resp.framing == JsonArray <==> format == Some("json"))
              && resp.body == ReplyBody(resp.framing, execute(resp.collection, resp.ops), stringify)
  {
    var admission := Admit(decoded, Batch);
    match admission
    case Refused(error) =>
      resp := Failed(error);
    case Admitted(q) =>
      var collection, ops := BuildCursor(q);
      assert ReservedPrefix <= Store.EventsCollection;
      var framing := if format == Some("json") then JsonArray else JsonLines;
      var results := execute(collection, ops);
      resp := Answered(collection, ops, framing, ReplyBody(framing, results, stringify));
  }

  /** Each result serialized and followed by a line feed, in cursor order. */
  function Ndjson(results: seq<Json>, stringify: Stringify): string
  {
    if results == [] then "" else stringify(results[0]) + "\n" + Ndjson(results[1..], stringify)
  }

  function Encoded(results: seq<Json>, stringify: Stringify): (texts: seq<string>)
  {
    seq(|results|, i requires 0 <= i < |results| => stringify(results[i]))
  }

  /** Streaming more results appends to what was already sent. */
  lemma {:induction false} NdjsonAppend(a: seq<Json>, b: seq<Json>, stringify: Stringify)
    ensures Ndjson(a + b, stringify) == Ndjson(a, stringify) + Ndjson(b, stringify)
    decreases |a|
  {
    if a != [] {
      assert (a + b)[0] == a[0] && (a + b)[1..] == a[1..] + b;
      NdjsonAppend(a[1..], b, stringify);
    } else {
      assert a + b == b;
    }
  }

  /** A reader that splits the body at line feeds gets back one serialized
      result per line, in cursor order. */
  lemma {:induction false} NdjsonLines(results: seq<Json>, stringify: Stringify)
    requires SingleLine(stringify)
    ensures Lines(Ndjson(results, stringify)) == Encoded(results, stringify)
    decreases |results|
  {
    if results != [] {
      assert NoLineBreak(stringify(results[0]));
      LinesOfLine(stringify(results[0]), Ndjson(results[1..], stringify));
      NdjsonLines(results[1..], stringify);
      assert Encoded(results, stringify) == [stringify(results[0])] + Encoded(results[1..], stringify);
    }
  }

  /** The 200 body for the results the cursor yields: one JSON array, or
      one serialized result per line, which a line reader gets back in order. */
  function ReplyBody(framing: Framing, results: seq<Json>, stringify: Stringify): (body: string)
    ensures framing == JsonArray ==> body == stringify(JArr(results))
    ensures framing == JsonLines && SingleLine(stringify) ==> Lines(body) == Encoded(results, stringify)
  {
    assert SingleLine(stringify) ==> Lines(Ndjson(results, stringify)) == Encoded(results, stringify) by {
      if SingleLine(stringify) {
        NdjsonLines(results, stringify);
      }
    }
    match framing
    case JsonArray => stringify(JArr(results))
    case JsonLines => Ndjson(results, stringify)
  }
}
