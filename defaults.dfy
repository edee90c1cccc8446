/** The two example envelopes the reader offers its users: a batch query and
    a subscription. Both are accepted in the mode they are meant for. */
module Defaults {
  import opened Js
  import opened ValidateQuery
  import opened Query
  import opened Socket

  /** `{v: 3, q: {collection: 'hello', find: {}, project: {message: 1}, limit: 10}}` */
  const DefaultQueryBlock: map<string, Json> := map[
    "collection" := JStr("hello"),
    "find" := JObj(map[]),
    "project" := JObj(map["message" := JNum(1)]),
    "limit" := JNum(10)
  ]

  const DefaultQuery: Json := JObj(map["v" := JNum(3), "q" := JObj(DefaultQueryBlock)])

  /** `{v: 3, q: {find: {}}}` */
  const DefaultSocketBlock: map<string, Json> := map["find" := JObj(map[])]

  const DefaultSocket: Json := JObj(map["v" := JNum(3), "q" := JObj(DefaultSocketBlock)])

  /** The default query block is a find on a public collection. */
  lemma DefaultQueryBody()
    ensures !(ReservedPrefix <= DefaultQueryBlock["collection"].s)
    ensures BatchBody(DefaultQueryBlock) && FindBody(DefaultQueryBlock)
  {
    assert DefaultQueryBlock.Keys == {"collection", "find", "project", "limit"};
    assert "hello"[0] != ReservedPrefix[0];
  }

  /** The default query is a well-formed batch envelope, accepted in batch mode. */
  lemma DefaultQueryAccepted()
    ensures DefaultQuery.fields.Keys == EnvelopeKeys
    ensures Validate(DefaultQuery, Batch) == Success
  {
    DefaultQueryBody();
    assert DefaultQuery.fields.Keys == {"v", "q"};
    assert Accepted(DefaultQuery, Batch);
  }

  /** The default query finds everything, projects `message` and keeps ten,
      with no sort and no skip. */
  lemma DefaultQueryPlan()
    ensures BatchBody(DefaultQueryBlock)
    ensures PlannedOps(DefaultQueryBlock) ==
              [Find(JObj(map[])), Project(JObj(map["message" := JNum(1)])), Limit(10)]
  {
    DefaultQueryBody();
    var q := DefaultQueryBlock;
    assert "aggregate" !in q && "sort" !in q && "skip" !in q;
    assert FindChain(q) == [Find(JObj(map[]))] + [] + [Project(JObj(map["message" := JNum(1)]))] + [] + [Limit(10)];
  }

  /** The default subscription holds none of the batch-only fields and is
      accepted in socket mode. */
  lemma DefaultSocketAccepted()
    ensures DefaultSocket.fields.Keys == EnvelopeKeys
    ensures DefaultSocketBlock.Keys !! SocketForbidden
    ensures SubscriptionBody(DefaultSocketBlock)
    ensures Validate(DefaultSocket, Socket) == Success
  {
    assert DefaultSocket.fields.Keys == {"v", "q"};
    assert DefaultSocketBlock.Keys == {"find"};
    assert Accepted(DefaultSocket, Socket);
  }

  /** The default subscription watches with the merge stage and a match on
      the empty filter, and no projection. */
  lemma DefaultSocketPipeline()
    ensures SubscriptionBody(DefaultSocketBlock)
    ensures SubscriptionPipeline(DefaultSocketBlock) ==
              [ReplaceRootStage, Stage("$match", JObj(map[]))]
  {
    DefaultSocketAccepted();
    assert "project" !in DefaultSocketBlock;
    assert RenameId(map[]) == map[];
  }
}
