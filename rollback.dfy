/** The rollback rule of the transformer: when the ledger drops a
    transaction, its record is deleted from `hello` and, for a live action,
    from the event collection. */
module Rollback {
  import opened Js
  import opened Store
  import opened Process

  /** What rolling back `a` does to `c`; `faults` names the collections whose
      delete fails. The `hello` delete comes first and a failure stops the run. */
  function RolledBack(c: Collections, a: Action, faults: set<string>): (r: Run)
  {
    if HelloCollection in faults then Run(c, Some(WriteFailed(HelloCollection)))
    else
      var c1 := Removed(c, HelloCollection, a.tx.h);
      if !a.live then Run(c1, None)
      else if EventsCollection in faults then Run(c1, Some(WriteFailed(EventsCollection)))
      else Run(Removed(c1, EventsCollection, a.tx.h), None)
  }

  /** The handler: delete the transaction's record from `hello`, then from
      the event collection when live. A failure is caught and returned as the
      logged failure. */
  method RollbackAction(state: State, a: Action, faults: set<string>) returns (logged: Option<Failure>)
    modifies state
    ensures Run(state.collections, logged) == RolledBack(old(state.collections), a, faults)
  {
    var ok := state.Delete(HelloCollection, a.tx.h, HelloCollection in faults);
    if !ok {
      return Some(WriteFailed(HelloCollection));
    }
    if a.live {
      ok := state.Delete(EventsCollection, a.tx.h, EventsCollection in faults);
      if !ok {
        return Some(WriteFailed(EventsCollection));
      }
    }
    logged := None;
  }

  /** With working deletes, the record is gone from `hello`, gone from the
      event collection when live, and no other record is touched. */
  lemma RollbackRemovesRecord(c: Collections, a: Action, faults: set<string>)
    requires HelloCollection !in faults && EventsCollection !in faults
    ensures RolledBack(c, a, faults).logged == None
    ensures Lookup(RolledBack(c, a, faults).store, HelloCollection, a.tx.h) == None
    ensures a.live ==> Lookup(RolledBack(c, a, faults).store, EventsCollection, a.tx.h) == None
    ensures forall n, k ::
              (k != a.tx.h || (n != HelloCollection && (n != EventsCollection || !a.live))) ==>
                Lookup(RolledBack(c, a, faults).store, n, k) == Lookup(c, n, k)
  {
  }

  /** Whatever fails, rollback touches no record but the transaction's own,
      in `hello` and the event collection. */
  lemma RollbackTouchesOnlyItsRecord(c: Collections, a: Action, faults: set<string>)
    ensures forall n, k :: (k != a.tx.h || (n != HelloCollection && n != EventsCollection)) ==>
              Lookup(RolledBack(c, a, faults).store, n, k) == Lookup(c, n, k)
    ensures RolledBack(c, a, faults).store.Keys == c.Keys
  {
  }

  /** Rolling back an accepted action with the same transaction id and
      liveness undoes its processing: the record is absent from both
      collections it was written to, and every other record is as it was. */
  lemma {:induction false} RollbackUndoesProcess(c: Collections, a: Action)
    requires IsHello(a)
    ensures Processed(c, a, {}).logged == None && RolledBack(Processed(c, a, {}).store, a, {}).logged == None
    ensures forall n, k :: Lookup(RolledBack(Processed(c, a, {}).store, a, {}).store, n, k) ==
              if k == a.tx.h && (n == HelloCollection || (a.live && n == EventsCollection)) then None
              else Lookup(c, n, k)
  {
    AcceptedIsWritten(c, a, {});
    ProcessTouchesOnlyItsRecord(c, a, {});
    RollbackRemovesRecord(Processed(c, a, {}).store, a, {});
  }
}
