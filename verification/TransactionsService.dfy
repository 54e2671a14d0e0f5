/**
 * The ledger service as it runs: lookup, append under a unique constraint, fall back to the winner;
 * then ack or nack.
 */
module TransactionsService {
  import opened Wrappers
  import D = LedgerDelivery

  datatype RecordOutcome = RecordOutcome(transaction: D.Payload, created: bool)

  /** How a message was disposed of. `Requeued` is nack(message, false, true). */
  datatype Disposal = Acked | Requeued

  /** The statement that meets a database error, if any. */
  datatype Fault = NoFault | LookupFails | InsertFails | FallbackFails

  predicate OnePerId(ledger: seq<D.Payload>) {
    forall i, j :: 0 <= i < j < |ledger| ==> ledger[i].transactionId != ledger[j].transactionId
  }

  /** The ledger row of this id. */
  predicate Holds(ledger: seq<D.Payload>, x: D.Payload, id: string) {
    x in ledger && x.transactionId == id
  }

  lemma {:induction false} HolderIsUnique(ledger: seq<D.Payload>, x: D.Payload, y: D.Payload, id: string)
    requires OnePerId(ledger) && Holds(ledger, x, id) && Holds(ledger, y, id)
    ensures x == y
  {
    var i :| 0 <= i < |ledger| && ledger[i] == x;
    var j :| 0 <= j < |ledger| && ledger[j] == y;
    var least, most := if i < j then i else j, if i < j then j else i;
    assert least == most;
  }

  class LedgerService {
    var ledger: seq<D.Payload>

    constructor ()
      ensures ledger == []
    {
      ledger := [];
    }

    method FindByTransactionId(id: string) returns (found: Option<D.Payload>)
      ensures found.Some? <==> D.HasId(ledger, id)
      ensures found.Some? ==> Holds(ledger, found.value, id)
    {
      var i := 0;
      while i < |ledger|
        invariant 0 <= i <= |ledger|
        invariant forall j :: 0 <= j < i ==> ledger[j].transactionId != id
      {
        if ledger[i].transactionId == id {
          assert ledger[i] in ledger;
          return Some(ledger[i]);
        }
        i := i + 1;
      }
      found := None;
    }

    /** The INSERT; false on a violation of uq_transactions_transaction_id. */
    method Append(x: D.Payload) returns (ok: bool)
      modifies this
      ensures ok <==> !D.HasId(old(ledger), x.transactionId)
      ensures ledger == if ok then old(ledger) + [x] else old(ledger)
    {
      var known := FindByTransactionId(x.transactionId);
      ok := known.None?;
      if ok {
        ledger := ledger + [x];
      }
    }

    /**
     * `meanwhile` are the rows other deliveries commit between the lookup and the
     * insert. `None` stands for an error thrown to the caller.
     */
    method Record(x: D.Payload, meanwhile: seq<D.Payload>, fault: Fault) returns (r: Option<RecordOutcome>)
      requires OnePerId(ledger + meanwhile)
      modifies this
      ensures OnePerId(ledger)
      ensures fault.LookupFails? ==> ledger == old(ledger) && r == None
      ensures !fault.LookupFails? && D.HasId(old(ledger), x.transactionId) ==>
                ledger == old(ledger) && r.Some? && !r.value.created
                    && Holds(ledger, r.value.transaction, x.transactionId)
      ensures !fault.LookupFails? && !D.HasId(old(ledger), x.transactionId) ==>
                if fault.InsertFails? then ledger == old(ledger) + meanwhile && r == None
                else if !D.HasId(meanwhile, x.transactionId) then
                  ledger == old(ledger) + meanwhile + [x] && r == Some(RecordOutcome(x, true))
                else
                  && ledger == old(ledger) + meanwhile
                  && (r == None <==> fault.FallbackFails?)
                  && (r.Some? ==> !r.value.created && Holds(meanwhile, r.value.transaction, x.transactionId))
    {
      if fault.LookupFails? {
        assert forall i :: 0 <= i < |ledger| ==> ledger[i] == (ledger + meanwhile)[i];
        return None;
      }
      var known := FindByTransactionId(x.transactionId);
      if known.Some? {
        assert forall i :: 0 <= i < |ledger| ==> ledger[i] == (ledger + meanwhile)[i];
        return Some(RecordOutcome(known.value, false));
      }
      ledger := ledger + meanwhile;
      if fault.InsertFails? {
        return None;
      }
      KnownInEither(old(ledger), meanwhile, x.transactionId);
      var appended := Append(x);
      if appended {
        forall i | 0 <= i < |ledger| - 1 ensures ledger[i].transactionId != x.transactionId {
          assert ledger[i] in old(ledger) + meanwhile;
        }
        return Some(RecordOutcome(x, true));
      }
      if fault.FallbackFails? {
        return None;
      }
      var winner := FindByTransactionId(x.transactionId);
      if winner.None? {
        return None;
      }
      r := Some(RecordOutcome(winner.value, false));
    }

    /**
     * Manual acknowledgement: malformed, appended or known is acked, and every
     * error of a statement that is reached sends the message back.
     */
    method OnTransactionRecorded(x: D.Payload, meanwhile: seq<D.Payload>, fault: Fault) returns (disposal: Disposal)
      requires OnePerId(ledger + meanwhile)
      modifies this
      ensures OnePerId(ledger) && old(ledger) <= ledger
      ensures !D.ValidPayload(x) ==> disposal == Acked && ledger == old(ledger)
      ensures D.ValidPayload(x) ==>
                (disposal == Requeued <==>
                   match fault
                   case NoFault => false
                   case LookupFails => true
                   case InsertFails => !D.HasId(old(ledger), x.transactionId)
                   case FallbackFails => !D.HasId(old(ledger), x.transactionId) && D.HasId(meanwhile, x.transactionId))
      ensures disposal == Acked && D.ValidPayload(x) ==> D.HasId(ledger, x.transactionId)
    {
      if !D.ValidPayload(x) {
        assert forall i :: 0 <= i < |ledger| ==> ledger[i] == (ledger + meanwhile)[i];
        return Acked;
      }
      var r := Record(x, meanwhile, fault);
      disposal := if r.Some? then Acked else Requeued;
    }
  }

  lemma {:induction false} KnownInEither(a: seq<D.Payload>, b: seq<D.Payload>, id: string)
    ensures D.HasId(a + b, id) <==> D.HasId(a, id) || D.HasId(b, id)
  {
    if D.HasId(a, id) {
      var x :| x in a && x.transactionId == id;
      assert x in a + b;
    }
    if D.HasId(b, id) {
      var x :| x in b && x.transactionId == id;
      assert x in a + b;
    }
  }
}
