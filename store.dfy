/** The document store the transformer writes to: named collections of
    records keyed by `_id`. Only insertion and deletion by `_id` are used. */
module Store {
  import opened Js

  /** A hello-world record `{_id, sender, message}`; `sender` is the
      declared sender key, absent when the output carries none. */
  datatype Doc = Doc(id: string, sender: Option<string>, message: string)

  type Collections = map<string, map<string, Doc>>

  /** The collection live records are copied to; every subscription watches it. */
  const EventsCollection := "bridgeport_events"

  /** The record under `key` in `name`, if the collection and the record exist. */
  function Lookup(c: Collections, name: string, key: string): Option<Doc>
  {
    if name in c && key in c[name] then Some(c[name][key]) else None
  }

  /** `c` with `doc` stored under its `_id` in `name` (the collection is
      created when missing). */
  function Inserted(c: Collections, name: string, doc: Doc): (r: Collections)
    ensures Lookup(r, name, doc.id) == Some(doc)
    ensures forall n, k :: n != name || k != doc.id ==> Lookup(r, n, k) == Lookup(c, n, k)
    ensures r.Keys == c.Keys + {name}
  {
    c[name := (if name in c then c[name] else map[])[doc.id := doc]]
  }

  /** `c` without the record under `key` in `name`; a missing collection or
      record is left as it is. */
  function Removed(c: Collections, name: string, key: string): (r: Collections)
    ensures Lookup(r, name, key) == None
    ensures forall n, k :: n != name || k != key ==> Lookup(r, n, k) == Lookup(c, n, k)
    ensures r.Keys == c.Keys
  {
    if name in c then c[name := c[name] - {key}] else c
  }

  /** Removing twice is removing once. */
  lemma RemovedIdempotent(c: Collections, name: string, key: string)
    ensures Removed(Removed(c, name, key), name, key) == Removed(c, name, key)
  {
    if name in c {
      assert Removed(c, name, key)[name] - {key} == c[name] - {key};
    }
  }

  /** Removing what was just inserted restores every lookup but that record's,
      which is now absent. */
  lemma RemovedAfterInserted(c: Collections, name: string, doc: Doc)
    ensures forall n, k :: Lookup(Removed(Inserted(c, name, doc), name, doc.id), n, k) ==
              if n == name && k == doc.id then None else Lookup(c, n, k)
  {
  }

  /** The store behind the transformer. Every write is a fallible call into
      a database this model does not see: `fails` says whether it fails, in
      which case the store is unchanged. */
  class State {
    var collections: Collections

    constructor (initial: Collections)
      ensures collections == initial
    {
      collections := initial;
    }

    /** Inserts `doc` into `name`; `ok` is false when the write failed. */
    method Create(name: string, doc: Doc, fails: bool) returns (ok: bool)
      modifies this
      ensures ok == !fails
      ensures collections == if fails then old(collections) else Inserted(old(collections), name, doc)
    {
      if fails {
        ok := false;
      } else {
        collections := Inserted(collections, name, doc);
        ok := true;
      }
    }

    /** Deletes the record whose `_id` is `key` from `name`; `ok` is false
      when the write failed. */
    method Delete(name: string, key: string, fails: bool) returns (ok: bool)
      modifies this
      ensures ok == !fails
      ensures collections == if fails then old(collections) else Removed(old(collections), name, key)
    {
      if fails {
        ok := false;
      } else {
        collections := Removed(collections, name, key);
        ok := true;
      }
    }
  }
}
