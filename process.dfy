/** The ingest rule of the transformer: a ledger action is a hello-world
    message when its first output names the protocol, its declared sender
    signed one of its inputs, and its message is present, inline and at most
    512 units long. Such an action is written to `hello` and, when it is live,
    to the event collection the subscriptions watch. */
module Process {
  import opened Js
  import opened Store

  /** The protocol namespace every hello-world output carries in `s2`. */
  const Namespace := "1He11omzQsAeYa2JUj52sFZRQEsSzPFNZx"

  /** The largest accepted message, in string length units. */
  const MaxMessageLength := 512

  const HelloCollection := "hello"

  const NamespaceMsg := "Transaction has invalid protocol namespace!"
  const SignerMsg := "HWP sender did not sign at least one input to the transaction!"
  const MessageMsg := "Message is either missing or longer than 512 bytes!"

  // ---------------------------------------------------------------------
  // The ledger action, as the indexer delivers it
  // ---------------------------------------------------------------------

  /** The signature of an input: `a` is the signing address, when known. */
  datatype Edge = Edge(a: Option<string>)

  /** A transaction input; `e` is absent for an input with no signature data. */
  datatype Input = Input(e: Option<Edge>)

  /** A transaction output: its pushed strings `s2`..`s4`, and `f4`, the file
      reference the indexer gives instead of `s4` for a long push. */
  datatype Output = Output(s2: Option<string>, s3: Option<string>, s4: Option<string>, f4: Option<string>)

  datatype Tx = Tx(h: string)

  datatype Action = Action(tx: Tx, ins: seq<Input>, outs: seq<Output>, live: bool)

  /** What the handler logs when it stops early. `Raised(msg)` is one of the
      three rule errors; `TypeError` is a read through a missing value;
      `WriteFailed(name)` is a failed store write to `name`. */
  datatype Failure = Raised(msg: string) | TypeError | WriteFailed(name: string)

  /** A string field is truthy when present and not empty. */
  predicate Given(s: Option<string>)
  {
    s.Some? && s.value != ""
  }

  // ---------------------------------------------------------------------
  // The signer check: `in.some(input => input.e.a === out[0].s3)`
  // ---------------------------------------------------------------------

  datatype Search = Found | NotFound | Faulted

  /** Input `i` carries a signature whose address equals `signer` (absent
      equals absent, as `undefined === undefined`). */
  predicate SignedAt(ins: seq<Input>, i: int, signer: Option<string>)
    requires 0 <= i < |ins|
  {
    ins[i].e.Some? && ins[i].e.value.a == signer
  }

  /** Input `i` is signed by `signer`, and every input before it carries a
      signature, so an in-order scan reaches it without a fault. */
  predicate ReachedSigned(ins: seq<Input>, i: int, signer: Option<string>)
    requires 0 <= i < |ins|
  {
    SignedAt(ins, i, signer) && forall j :: 0 <= j < i ==> ins[j].e.Some?
  }

  /** Past a first input that carries a signature, reaching input `i + 1` of
      `ins` is reaching input `i` of the rest. */
  lemma ReachedShift(ins: seq<Input>, i: int, signer: Option<string>)
    requires |ins| >= 1 && ins[0].e.Some? && 0 <= i < |ins| - 1
    ensures ReachedSigned(ins, i + 1, signer) <==> ReachedSigned(ins[1..], i, signer)
  {
    assert ins[1..][i] == ins[i + 1];
    if ReachedSigned(ins[1..], i, signer) {
      forall j | 0 <= j < i + 1 ensures ins[j].e.Some? {
        if j > 0 { assert ins[j] == ins[1..][j - 1]; }
      }
    }
    if ReachedSigned(ins, i + 1, signer) {
      forall j | 0 <= j < i ensures ins[1..][j].e.Some? {
        assert ins[1..][j] == ins[j + 1];
      }
    }
  }

  /** The inputs are scanned in order and the scan stops at the first match;
      an input without `e` reached before any match raises a TypeError. */
  function FindSigner(ins: seq<Input>, signer: Option<string>): (r: Search)
    ensures r == Found <==> exists i :: 0 <= i < |ins| && ReachedSigned(ins, i, signer)
    ensures r == NotFound <==>
              forall i :: 0 <= i < |ins| ==> ins[i].e.Some? && !SignedAt(ins, i, signer)
    decreases |ins|
  {
    if ins == [] then NotFound
    else if ins[0].e.None? then Faulted
    else if ins[0].e.value.a == signer then assert ReachedSigned(ins, 0, signer); Found
    else
      var r := FindSigner(ins[1..], signer);
      assert r == Found ==> exists i :: 0 <= i < |ins| && ReachedSigned(ins, i, signer) by {
        if r == Found {
          var i :| 0 <= i < |ins| - 1 && ReachedSigned(ins[1..], i, signer);
          ReachedShift(ins, i, signer);
        }
      }
      assert (exists i :: 0 <= i < |ins| && ReachedSigned(ins, i, signer)) ==> r == Found by {
        if exists i :: 0 <= i < |ins| && ReachedSigned(ins, i, signer) {
          var i :| 0 <= i < |ins| && ReachedSigned(ins, i, signer);
          ReachedShift(ins, i - 1, signer);
        }
      }
      assert r == NotFound <==>
             forall i :: 0 <= i < |ins| ==> ins[i].e.Some? && !SignedAt(ins, i, signer) by {
        forall i | 0 < i < |ins| ensures ins[i] == ins[1..][i - 1] { }
      }
      r
  }

  // ---------------------------------------------------------------------
  // The rules, in the order the handler applies them
  // ---------------------------------------------------------------------

  /** The message push is present, not replaced by a file reference, and
      short enough. `length` counts UTF-16 code units. */
  predicate MessageFits(o: Output)
  {
    Given(o.s4) && !Given(o.f4) && Utf16Length(o.s4.value) <= MaxMessageLength
  }

  /** A hello-world action, stated declaratively. */
  predicate IsHello(a: Action)
  {
    && |a.outs| >= 1
    && a.outs[0].s2 == Some(Namespace)
    && (exists i :: 0 <= i < |a.ins| && ReachedSigned(a.ins, i, a.outs[0].s3))
    && MessageFits(a.outs[0])
  }

  /** The record an action stands for. */
  function Record(a: Action): Doc
    requires |a.outs| >= 1 && Given(a.outs[0].s4)
  {
    Doc(a.tx.h, a.outs[0].s3, a.outs[0].s4.value)
  }

  datatype Verdict = Valid(doc: Doc) | Invalid(failure: Failure)

  /** The three checks and the record construction, first failure first. */
  function CheckAction(a: Action): (r: Verdict)
    ensures r.Valid? <==> IsHello(a)
    ensures r.Valid? ==> |a.outs| >= 1 && Given(a.outs[0].s4) && r.doc == Record(a)
    ensures a.outs == [] ==> r == Invalid(TypeError)
    ensures |a.outs| >= 1 && a.outs[0].s2 != Some(Namespace) ==> r == Invalid(Raised(NamespaceMsg))
    ensures |a.outs| >= 1 && a.outs[0].s2 == Some(Namespace) && FindSigner(a.ins, a.outs[0].s3) == NotFound ==>
              r == Invalid(Raised(SignerMsg))
    ensures |a.outs| >= 1 && a.outs[0].s2 == Some(Namespace) && FindSigner(a.ins, a.outs[0].s3) == Found
            && !MessageFits(a.outs[0]) ==>
              r == Invalid(Raised(MessageMsg))
    ensures |a.outs| >= 1 && a.outs[0].s2 == Some(Namespace) && FindSigner(a.ins, a.outs[0].s3) == Faulted ==>
              r == Invalid(TypeError)
    // a message longer than 512 units is never written, whatever else holds
    ensures |a.outs| >= 1 && a.outs[0].s4.Some? && Utf16Length(a.outs[0].s4.value) > MaxMessageLength ==>
              r.Invalid?
  {
    if a.outs == [] then Invalid(TypeError)  // `out[0].s2` of undefined
    else
      var o := a.outs[0];
      if o.s2 != Some(Namespace) then Invalid(Raised(NamespaceMsg))
      else
        match FindSigner(a.ins, o.s3)
        case Faulted => Invalid(TypeError)   // `e.a` of undefined
        case NotFound => Invalid(Raised(SignerMsg))
        case Found =>
          if !Given(o.s4) || Given(o.f4) || Utf16Length(o.s4.value) > MaxMessageLength then
            Invalid(Raised(MessageMsg))
          else
            Valid(Doc(a.tx.h, o.s3, o.s4.value))
  }

  // ---------------------------------------------------------------------
  // The writes
  // ---------------------------------------------------------------------

  /** The store after a handler run, and what it logged (`None` when it
      ran to the end). */
  datatype Run = Run(store: Collections, logged: Option<Failure>)

  /** What processing `a` does to `c`; `faults` names the collections whose
      write fails. The `hello` write comes first and a failure stops the run. */
  function Processed(c: Collections, a: Action, faults: set<string>): (r: Run)
  {
    match CheckAction(a)
    case Invalid(f) => Run(c, Some(f))
    case Valid(doc) =>
      if HelloCollection in faults then Run(c, Some(WriteFailed(HelloCollection)))
      else
        var c1 := Inserted(c, HelloCollection, doc);
        if !a.live then Run(c1, None)
        else if EventsCollection in faults then Run(c1, Some(WriteFailed(EventsCollection)))
        else Run(Inserted(c1, EventsCollection, doc), None)
  }

  /** The handler: check, build the record, write it to `hello` and then,
      for a live action, to the event collection. Every failure is caught and
      returned as the logged failure. */
  method ProcessAction(state: State, a: Action, faults: set<string>) returns (logged: Option<Failure>)
    modifies state
    ensures Run(state.collections, logged) == Processed(old(state.collections), a, faults)
  {
    var verdict := CheckAction(a);
    if verdict.Invalid? {
      return Some(verdict.failure);
    }
    var data := verdict.doc;
    var ok := state.Create(HelloCollection, data, HelloCollection in faults);
    if !ok {
      return Some(WriteFailed(HelloCollection));
    }
    if a.live {
      ok := state.Create(EventsCollection, data, EventsCollection in faults);
      if !ok {
        return Some(WriteFailed(EventsCollection));
      }
    }
    logged := None;
  }

  // ---------------------------------------------------------------------
  // What processing promises
  // ---------------------------------------------------------------------

  /** Every check precedes every write: an action that is not a hello-world
      message leaves the store as it was. */
  lemma RejectedLeavesStore(c: Collections, a: Action, faults: set<string>)
    requires !IsHello(a)
    ensures Processed(c, a, faults).store == c
    ensures Processed(c, a, faults).logged.Some?
  {
  }

  /** A hello-world action with working writes stores its record under the
      transaction id in `hello`, and in the event collection exactly when live. */
  lemma AcceptedIsWritten(c: Collections, a: Action, faults: set<string>)
    requires IsHello(a)
    requires HelloCollection !in faults && EventsCollection !in faults
    ensures Processed(c, a, faults).logged == None
    ensures Lookup(Processed(c, a, faults).store, HelloCollection, a.tx.h) == Some(Record(a))
    ensures a.live ==> Lookup(Processed(c, a, faults).store, EventsCollection, a.tx.h) == Some(Record(a))
    ensures !a.live ==> forall k :: Lookup(Processed(c, a, faults).store, EventsCollection, k) == Lookup(c, EventsCollection, k)
  {
    assert CheckAction(a).Valid?;
  }

  /** A failed `hello` write also prevents the event write. */
  lemma HelloFailureStopsRun(c: Collections, a: Action, faults: set<string>)
    requires HelloCollection in faults
    ensures Processed(c, a, faults).store == c
  {
  }

  /** Processing touches no record but the transaction's own in `hello` and
      the event collection. */
  lemma ProcessTouchesOnlyItsRecord(c: Collections, a: Action, faults: set<string>)
    ensures forall n, k :: (k != a.tx.h || (n != HelloCollection && n != EventsCollection)) ==>
              Lookup(Processed(c, a, faults).store, n, k) == Lookup(c, n, k)
  {
    if CheckAction(a).Valid? {
      assert CheckAction(a).doc.id == a.tx.h;
    }
  }
}
