/**
 * What becomes of a payment whose metadata carries a malformed user reference: it is approved, and its
 * ledger rows are lost.
 */
module DroppedMessage {
  import opened PaymentDomain
  import opened WorkerProgram
  import opened PaymentWorld
  import opened LedgerDelivery
  import A = AccountsLedger
  import M = MoneyConservation
  import R = References
  import S = SettledRun

  // ------------------------------------------- system runs as delivery runs

  function Lifted(run: seq<Step>): seq<Event>
    decreases |run|
  {
    if run == [] then [] else [WorldStep(run[0])] + Lifted(run[1..])
  }

  predicate CreatesWellFormed(run: seq<Step>) {
    forall i :: 0 <= i < |run| && run[i].Initiate? ==> WellFormed(run[i].order)
  }

  lemma {:induction false} LiftedRuns(d: Delivery, run: seq<Step>)
    requires M.LegalRun(d.world, run) && CreatesWellFormed(run)
    ensures Feasible(d, Lifted(run)) && After(d, Lifted(run)) == d.(world := M.TakeAll(d.world, run))
    decreases |run|
  {
    if run != [] {
      var next := d.(world := Take(d.world, run[0]));
      assert Change(d, WorldStep(run[0])) == next;
      LiftedRuns(next, run[1..]);
      OneMoreStep(d, WorldStep(run[0]), Lifted(run[1..]));
    }
  }

  lemma {:induction false} Regroup(run: seq<Event>, more: seq<Event>)
    requires run != []
    ensures [run[0]] + (run[1..] + more) == run + more
  {
  }

  lemma {:induction false} RunsJoin(d: Delivery, run: seq<Event>, more: seq<Event>)
    requires Feasible(d, run) && Feasible(After(d, run), more)
    ensures Feasible(d, run + more) && After(d, run + more) == After(After(d, run), more)
    decreases |run|
  {
    if run == [] {
      assert run + more == more;
    } else {
      var e, rest := run[0], run[1..];
      RunsJoin(Change(d, e), rest, more);
      OneMoreStep(d, e, rest + more);
      Regroup(run, more);
    }
  }

  // ---------------------------------------------------- an approved payment

  /** Three different references the generator may return, for the opening, the debit and the credit. */
  predicate ThreeReferences(opening: string, d: string, c: string) {
    && R.Accepts("trx", opening) && R.Accepts("trx", d) && R.Accepts("trx", c)
    && opening != d && opening != c && d != c
  }

  /** Both wallets open, the source with just the amount. */
  function TwoWallets(o: Order, opening: string): World
    requires ValidOrder(o)
  {
    World(A.Open(A.Open(A.NO_ACCOUNTS, o.source, o.currency, o.amount, opening), o.destination, o.currency, 0, ""),
        map[])
  }

  function ApprovalRun(o: Order, opening: string, d: string, c: string): seq<Step>
    requires ValidOrder(o)
  {
    [OpenWallet(o.source, o.currency, o.amount, opening)]
    + ([OpenWallet(o.destination, o.currency, 0, "")] + ([Initiate(o)] + S.RunFrom(o.reference, d, c, 0)))
  }

  lemma {:induction false} WalletsOpen(o: Order, opening: string, d: string, c: string)
    requires ValidOrder(o) && ThreeReferences(opening, d, c)
    ensures var first := OpenWallet(o.source, o.currency, o.amount, opening);
      var second := OpenWallet(o.destination, o.currency, 0, "");
      && Legal(GENESIS, first) && Legal(Take(GENESIS, first), second)
      && Take(Take(GENESIS, first), second) == TwoWallets(o, opening)
    ensures S.Payable(TwoWallets(o, opening).accounts, o) && S.FreshPair(TwoWallets(o, opening).accounts, d, c)
  {
  }

  lemma {:induction false} ApprovalRuns(o: Order, opening: string, d: string, c: string)
    requires ValidOrder(o) && WellFormed(o) && ThreeReferences(opening, d, c)
    ensures M.LegalRun(GENESIS, ApprovalRun(o, opening, d, c)) && CreatesWellFormed(ApprovalRun(o, opening, d, c))
    ensures M.TakeAll(GENESIS, ApprovalRun(o, opening, d, c)).payments == map[o.reference := S.Scene(o, d, c, S.STEPS)]
  {
    var w := TwoWallets(o, opening);
    var first := OpenWallet(o.source, o.currency, o.amount, opening);
    var second := OpenWallet(o.destination, o.currency, 0, "");
    var rest := [Initiate(o)] + S.RunFrom(o.reference, d, c, 0);
    WalletsOpen(o, opening, d, c);
    S.OrderCanBePaid(w, o, d, c);
    M.OneMoreStep(Take(GENESIS, first), second, rest);
    M.OneMoreStep(GENESIS, first, [second] + rest);
    ActsOnly(o.reference, d, c, 0);
  }

  lemma {:induction false} ActsOnly(payment: string, d: string, c: string, k: nat)
    requires k <= S.STEPS
    ensures forall i :: 0 <= i < |S.RunFrom(payment, d, c, k)| ==> S.RunFrom(payment, d, c, k)[i].Act?
    decreases S.STEPS - k
  {
    if k < S.STEPS {
      ActsOnly(payment, d, c, k + 1);
    }
  }

  // ------------------------------------------------------------ the lost row

  /** One relay publishes the row and marks it, one consumer takes the message and acknowledges it. */
  function DeliveryOf(row: RowId): seq<Event> {
    [ClaimRow(0, row)] + ([Publish(0, true, true)] + ([MarkRow(0)] + ([Hand(0, 0)] + ([Ack(0)] + []))))
  }

  lemma {:induction false} MalformedRowPasses(d: Delivery, row: RowId)
    requires d == QUIET.(world := d.world)
    requires RowExists(d.world, row) && MessageAt(d.world, row).LedgerMessage?
    requires !ValidPayload(PayloadOf(row.payment, MessageAt(d.world, row)))
    ensures Feasible(d, DeliveryOf(row))
    ensures After(d, DeliveryOf(row)) == d.(rows := map[row := Sending(true, 1)], nextTag := 1)
  {
    var x := PayloadOf(row.payment, MessageAt(d.world, row));
    var d1 := d.(relays := map[0 := Relay(row, Claimed)]);
    var d2 := d.(relays := map[0 := Relay(row, Confirmed)], queue := map[0 := x], nextTag := 1);
    var d3 := d.(rows := map[row := Sending(true, 1)], queue := map[0 := x], nextTag := 1);
    var d4 := d3.(consumers := map[0 := Consumer(0, x, Malformed)]);
    var d5 := d.(rows := map[row := Sending(true, 1)], nextTag := 1);
    assert Change(d, ClaimRow(0, row)) == d1;
    assert Change(d1, Publish(0, true, true)) == d2;
    assert Change(d2, MarkRow(0)) == d3;
    assert Change(d3, Hand(0, 0)) == d4;
    assert Change(d4, Ack(0)) == d5;
    OneMoreStep(d4, Ack(0), []);
    OneMoreStep(d3, Hand(0, 0), [Ack(0)] + []);
    OneMoreStep(d2, MarkRow(0), [Hand(0, 0)] + ([Ack(0)] + []));
    OneMoreStep(d1, Publish(0, true, true), [MarkRow(0)] + ([Hand(0, 0)] + ([Ack(0)] + [])));
    OneMoreStep(d, ClaimRow(0, row), [Publish(0, true, true)] + ([MarkRow(0)] + ([Hand(0, 0)] + ([Ack(0)] + []))));
  }

  /**
   * For every order the platform accepts with a malformed user, a run that approves it and then has either of
   * its two movements published, gone from the queue and absent from the ledger, for good.
   */
  lemma {:induction false} MalformedUserLosesItsRows(o: Order, index: nat, opening: string, d: string, c: string)
    returns (run: seq<Event>)
    requires ThreeReferences(opening, d, c)
    requires ValidOrder(o) && WellFormed(o) && o.user.Some? && !R.Accepts("usr", o.user.value) && index < 2
    ensures Feasible(QUIET, run)
    ensures var after := After(QUIET, run); var row := RowId(o.reference, index);
      && RowExists(after.world, row) && after.world.payments[o.reference].stored.status == Approved
      && MessageAt(after.world, row) == LedgerOf(o, if index == 0 then DebitLeg else CreditLeg)
      && SendingOf(after, row).published
      && var x := PayloadOf(o.reference, MessageAt(after.world, row));
      && !Queued(after.queue, x) && x !in after.ledger && !CanArrive(after, x)
  {
    var row := RowId(o.reference, index);
    ApprovalRuns(o, opening, d, c);
    LiftedRuns(QUIET, ApprovalRun(o, opening, d, c));
    var approved := After(QUIET, Lifted(ApprovalRun(o, opening, d, c)));
    PayloadIsValidButForTheUser(o, if index == 0 then DebitLeg else CreditLeg);
    MalformedRowPasses(approved, row);
    RunsJoin(QUIET, Lifted(ApprovalRun(o, opening, d, c)), DeliveryOf(row));
    run := Lifted(ApprovalRun(o, opening, d, c)) + DeliveryOf(row);
    ArrivalExactly(run, row);
  }
}
