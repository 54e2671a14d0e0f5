/**
 * When a decline is final, with accounts deciding by its own ledger: wallets may
 * be missing, frozen or short, and may be opened, unfrozen and paid into later.
 * Only a wallet of another currency refuses for ever.
 */
module WorldSettlement {
  import opened Wrappers
  import opened PaymentDomain
  import opened SagaProtocol
  import opened SagaGuarantees
  import opened SagaSettlement
  import opened PaymentWorld
  import opened MoneyConservation
  import opened UnusedNames
  import A = AccountsLedger
  import R = References
  import S = SettledRun

  function ViewOf(w: World, p: string): Posted
    requires p in w.payments
  {
    View(w.accounts, w.payments[p].order)
  }

  /** The source wallet exists and settles in another currency. */
  predicate OtherCurrency(a: A.Accounts, o: Order) {
    o.source in a.wallets && a.wallets[o.source].currency != o.currency
  }

  /** Accounts would apply this debit if it arrived now. */
  predicate Debitable(a: A.Accounts, o: Order) {
    A.Precheck(a, RequestOf(o, DebitLeg)).None? && A.GuardHolds(a.wallets[o.source], RequestOf(o, DebitLeg))
  }

  // ------------------------------------------------ a wallet of another currency

  lemma {:induction false} StepKeepsCurrency(w: World, s: Step, n: string)
    requires Legal(w, s) && n in w.accounts.wallets
    ensures n in Take(w, s).accounts.wallets
    ensures Take(w, s).accounts.wallets[n].currency == w.accounts.wallets[n].currency
  {
  }

  lemma {:induction false} StepCannotDebit(w: World, s: Step, p: string)
    requires EntriesOk(w) && OrdersOk(w) && Legal(w, s) && p in w.payments
    requires OtherCurrency(w.accounts, w.payments[p].order) && ViewOf(w, p).debit.None?
    ensures p in Take(w, s).payments && Take(w, s).payments[p].order == w.payments[p].order
    ensures ViewOf(Take(w, s), p).debit.None?
  {
    OtherStepsLeaveAlone(w, s, p);
  }

  lemma {:induction false} OtherCurrencyNeverDebits(w: World, run: seq<Step>, p: string)
    requires WorldOk(w) && LegalRun(w, run) && p in w.payments
    requires OtherCurrency(w.accounts, w.payments[p].order) && ViewOf(w, p).debit.None?
    ensures p in TakeAll(w, run).payments && ViewOf(TakeAll(w, run), p).debit.None?
    decreases |run|
  {
    if run != [] {
      TakeKeeps(w, run[0]);
      StepCannotDebit(w, run[0], p);
      StepKeepsCurrency(w, run[0], w.payments[p].order.source);
      OtherCurrencyNeverDebits(Take(w, run[0]), run[1..], p);
    }
  }

  // ---------------------------------------------------- funding any other wallet

  /** The payment is where it was, and so is its part of the ledger. */
  ghost predicate Undisturbed(w: World, v: World, p: string) {
    p in w.payments && p in v.payments && v.payments[p] == w.payments[p] && ViewOf(v, p) == ViewOf(w, p)
  }

  predicate Receives(a: A.Accounts, n: string, currency: string) {
    n in a.wallets && a.wallets[n].active && a.wallets[n].currency == currency
  }

  lemma {:induction false} WalletCanReceive(w: World, p: string) returns (s: Step)
    requires WorldOk(w) && NamesLeft(w, 1) && p in w.payments && !OtherCurrency(w.accounts, w.payments[p].order)
    ensures Legal(w, s) && WorldOk(Take(w, s)) && Undisturbed(w, Take(w, s), p)
    ensures Receives(Take(w, s).accounts, w.payments[p].order.source, w.payments[p].order.currency)
  {
    var o := w.payments[p].order;
    s := if o.source in w.accounts.wallets then ChangeStatus(o.source, true)
         else OpenWallet(o.source, o.currency, 0, "");
    TakeKeeps(w, s);
    OtherStepsLeaveAlone(w, s, p);
  }

  lemma {:induction false} WalletCanBeFunded(w: World, p: string) returns (run: seq<Step>)
    requires WorldOk(w) && NamesLeft(w, 4) && p in w.payments && ViewOf(w, p).debit.None?
    requires Receives(w.accounts, w.payments[p].order.source, w.payments[p].order.currency)
    ensures LegalRun(w, run) && |run| == 14 && Undisturbed(w, TakeAll(w, run), p)
    ensures Debitable(TakeAll(w, run).accounts, w.payments[p].order)
  {
    var o := w.payments[p].order;
    var payer := UnusedWallet(w);
    var q := UnusedPayment(w);
    var paid := UnusedReference(w);
    R.KeyIsTransactionId(q, DebitLeg);
    var gift := Order(q, q, o.amount, o.currency, payer, o.source, None);
    var opening := OpenWallet(payer, o.currency, o.amount, paid);
    var v := Take(w, opening);
    TakeKeeps(w, opening);
    StepUsesOneName(w, opening, 3);
    OtherStepsLeaveAlone(w, opening, p);
    FreshOrderHasNothingPosted(v, gift);
    GiftIsPayable(w, v, o, gift, paid);
    var d, c := UnusedPair(v);
    GiftLeavesUndisturbed(v, p, gift, d, c);
    var rest := [Initiate(gift)] + S.RunFrom(q, d, c, 0);
    OneMoreStep(w, opening, rest);
    run := [opening] + rest;
  }

  lemma {:induction false} GiftLeavesUndisturbed(v: World, p: string, gift: Order, d: string, c: string)
    requires A.AccountsOk(v.accounts) && OrdersOk(v) && p in v.payments && ViewOf(v, p).debit.None?
    requires ValidOrder(gift) && S.Payable(v.accounts, gift) && S.FreshPair(v.accounts, d, c)
              && gift.reference !in v.payments
    requires var o := v.payments[p].order;
      gift.amount == o.amount && gift.currency == o.currency && gift.destination == o.source
    ensures var run := [Initiate(gift)] + S.RunFrom(gift.reference, d, c, 0);
      && LegalRun(v, run) && |run| == 13 && Undisturbed(v, TakeAll(v, run), p)
      && Debitable(TakeAll(v, run).accounts, v.payments[p].order)
  {
    S.OrderCanBePaid(v, gift, d, c);
    S.RunLength(gift.reference, d, c, 0);
    GiftArrives(v, v.payments[p].order, gift, d, c);
  }

  lemma {:induction false} GiftIsPayable(w: World, v: World, o: Order, gift: Order, paid: string)
    requires ValidOrder(o) && Receives(w.accounts, o.source, o.currency)
    requires gift.amount == o.amount && gift.currency == o.currency && gift.destination == o.source
    requires gift.source !in w.accounts.wallets
    requires v.accounts == A.Open(w.accounts, gift.source, o.currency, o.amount, paid)
    requires R.Accepts("wlt", gift.source) && R.Accepts("pay", gift.reference) && R.IsTransactionId(gift.transactionId)
    requires View(v.accounts, gift) == NOTHING_POSTED
    ensures ValidOrder(gift) && S.Payable(v.accounts, gift)
  {
  }

  lemma {:induction false} GiftArrives(v: World, o: Order, gift: Order, d: string, c: string)
    requires A.AccountsOk(v.accounts) && ValidOrder(o) && ValidOrder(gift) && S.Payable(v.accounts, gift)
    requires gift.amount == o.amount && gift.currency == o.currency && gift.destination == o.source
    requires gift.reference != o.reference && View(v.accounts, o).debit.None?
    ensures var a := S.Paid(v.accounts, gift, d, c);
      View(a, o) == View(v.accounts, o) && Debitable(a, o)
  {
    assert A.WalletOk(v.accounts.wallets[o.source]);
  }

  // ------------------------------------------------------------ the late debit

  lemma {:induction false} DebitArrives(w: World, p: string, r: nat, reference: string)
    requires A.FreshReference(w.accounts, reference)
    requires OrdersOk(w) && p in w.payments && ViewOf(w, p).debit.None? && Debitable(w.accounts, w.payments[p].order)
    requires r in w.payments[p].wire && w.payments[p].wire[r] == DebitLeg
    ensures var s := Act(p, Deliver(r, Applied(reference)));
      && Legal(w, s) && p in Take(w, s).payments
      && Take(w, s).payments[p].stored == w.payments[p].stored && ViewOf(Take(w, s), p).debit.Some?
  {
    ActShowsInOneView(w, p, Deliver(r, Applied(reference)), p);
  }

  lemma {:induction false} DebitIsSent(w: World, p: string, i: nat)
    requires p in w.payments && i in w.payments[p].workers
    requires w.payments[p].workers[i].pc.SendDebit? && w.payments[p].workers[i].pc.call.awaiting.None?
    ensures var s := Act(p, Post(i));
      && Legal(w, s)
      && var v := Take(w, s);
      && v.accounts == w.accounts && p in v.payments
      && v.payments[p].order == w.payments[p].order && v.payments[p].stored == w.payments[p].stored
      && w.payments[p].nextId in v.payments[p].wire && v.payments[p].wire[w.payments[p].nextId] == DebitLeg
      && forall q :: q in v.payments ==> q in w.payments && v.payments[q].order == w.payments[q].order
  {
  }

  lemma {:induction false} DebitIsRetried(w: World, p: string, i: nat)
    requires p in w.payments && i in w.payments[p].workers
    requires w.payments[p].workers[i].pc.SendDebit? && w.payments[p].workers[i].pc.call.awaiting.Some?
    ensures var s := Act(p, GiveUp(i, true));
      && Legal(w, s)
      && var v := Take(w, s);
      && v.accounts == w.accounts && p in v.payments
      && v.payments[p].order == w.payments[p].order && v.payments[p].stored == w.payments[p].stored
      && i in v.payments[p].workers
      && v.payments[p].workers[i].pc.SendDebit? && v.payments[p].workers[i].pc.call.awaiting.None?
      && forall q :: q in v.payments ==> q in w.payments && v.payments[q].order == w.payments[q].order
  {
  }

  /** The row as it was, and the debit recorded. */
  ghost predicate DebitedLate(w: World, run: seq<Step>, p: string) {
    && p in w.payments && LegalRun(w, run)
    && var v := TakeAll(w, run);
    && p in v.payments && v.payments[p].order == w.payments[p].order
    && v.payments[p].stored == w.payments[p].stored && ViewOf(v, p).debit.Some?
  }

  lemma {:induction false} LateAfter(w: World, s: Step, rest: seq<Step>, p: string)
    requires Legal(w, s) && p in w.payments && DebitedLate(Take(w, s), rest, p)
    requires Take(w, s).payments[p].order == w.payments[p].order && Take(w, s).payments[p].stored
              == w.payments[p].stored
    ensures DebitedLate(w, [s] + rest, p)
  {
    OneMoreStep(w, s, rest);
  }

  lemma {:induction false} OnWireThenDebited(w: World, p: string, r: nat, reference: string) returns (run: seq<Step>)
    requires A.FreshReference(w.accounts, reference)
    requires OrdersOk(w) && p in w.payments && ViewOf(w, p).debit.None? && Debitable(w.accounts, w.payments[p].order)
    requires r in w.payments[p].wire && w.payments[p].wire[r] == DebitLeg
    ensures DebitedLate(w, run, p)
  {
    var s := Act(p, Deliver(r, Applied(reference)));
    DebitArrives(w, p, r, reference);
    OrderStays(w.payments[p], ViewOf(w, p), s.action);
    assert DebitedLate(Take(w, s), [], p);
    LateAfter(w, s, [], p);
    run := [s] + [];
  }

  lemma {:induction false} SentThenDebited(w: World, p: string, i: nat, reference: string) returns (run: seq<Step>)
    requires A.FreshReference(w.accounts, reference)
    requires OrdersOk(w) && p in w.payments && ViewOf(w, p).debit.None? && Debitable(w.accounts, w.payments[p].order)
    requires i in w.payments[p].workers
    requires w.payments[p].workers[i].pc.SendDebit? && w.payments[p].workers[i].pc.call.awaiting.None?
    ensures DebitedLate(w, run, p)
  {
    DebitIsSent(w, p, i);
    run := OnWireThenDebited(Take(w, Act(p, Post(i))), p, w.payments[p].nextId, reference);
    LateAfter(w, Act(p, Post(i)), run, p);
    run := [Act(p, Post(i))] + run;
  }

  lemma {:induction false} DisquietThenDebited(w: World, p: string, reference: string) returns (run: seq<Step>)
    requires A.FreshReference(w.accounts, reference)
    requires OrdersOk(w) && p in w.payments && ViewOf(w, p).debit.None? && Debitable(w.accounts, w.payments[p].order)
    requires !QuietDebit(w.payments[p])
    ensures DebitedLate(w, run, p)
  {
    var l := w.payments[p];
    if OnWire(l, DebitLeg) {
      var r :| r in l.wire && l.wire[r] == DebitLeg;
      run := OnWireThenDebited(w, p, r, reference);
    } else {
      var i :| i in l.workers && l.workers[i].pc.SendDebit?;
      if l.workers[i].pc.call.awaiting.None? {
        run := SentThenDebited(w, p, i, reference);
      } else {
        DebitIsRetried(w, p, i);
        run := SentThenDebited(Take(w, Act(p, GiveUp(i, true))), p, i, reference);
        LateAfter(w, Act(p, GiveUp(i, true)), run, p);
        run := [Act(p, GiveUp(i, true))] + run;
      }
    }
  }

  /** Unless the wallet settles in another currency, what can still arrive can still be carried out. */
  lemma {:induction false} LateDebitIsPossible(w: World, p: string) returns (run: seq<Step>)
    requires WorldOk(w) && NamesLeft(w, 16) && p in w.payments && ViewOf(w, p).debit.None?
    requires !OtherCurrency(w.accounts, w.payments[p].order) && !QuietDebit(w.payments[p])
    ensures DebitedLate(w, run, p)
  {
    var s := WalletCanReceive(w, p);
    var w1 := Take(w, s);
    StepUsesOneName(w, s, 15);
    var funding := WalletCanBeFunded(w1, p);
    var w2 := TakeAll(w1, funding);
    RunKeepsWorld(w1, funding);
    RunUsesFewNames(w1, funding, 1);
    var reference := UnusedReference(w2);
    var debiting := DisquietThenDebited(w2, p, reference);
    RunsJoin(w1, funding, debiting);
    OneMoreStep(w, s, funding + debiting);
    run := [s] + (funding + debiting);
  }

  // ---------------------------------------------------------------- theorems

  ghost predicate NeverDebited(w: World, p: string) {
    forall more :: LegalRun(w, more) && p in TakeAll(w, more).payments ==> ViewOf(TakeAll(w, more), p).debit.None?
  }

  lemma {:induction false} BarredIsNeverDebited(w: World, p: string)
    requires WorldOk(w) && p in w.payments && Barred(w.payments[p], ViewOf(w, p), DebitLeg)
    ensures NeverDebited(w, p)
  {
    forall more | LegalRun(w, more) && p in TakeAll(w, more).payments ensures ViewOf(TakeAll(w, more), p).debit.None? {
      assert PaymentOk(w, p);
      SystemRunIsProtocolRun(w, more, p);
      RunMovesOn(w.payments[p], ViewOf(w, p), Own(more, p));
      assert Barred(TakeAll(w, more).payments[p], ViewOf(TakeAll(w, more), p), DebitLeg);
    }
  }

  /** The run is short enough, by far, for the generator not to have run out of names. */
  predicate Short(run: seq<Step>) { |run| + 20 <= R.Pow32(R.TIME_LENGTH) }

  /** No debit of the payment is recorded, and none can be. */
  ghost predicate SafelyUndebited(w: World, p: string)
    requires p in w.payments
  {
    ViewOf(w, p).debit.None? && (QuietDebit(w.payments[p]) || OtherCurrency(w.accounts, w.payments[p].order))
  }

  /**
   * In a reachable state of the system a declined payment is never debited exactly
   * when it is not debited yet and either no debit is on the wire or about to be
   * sent, or its source wallet settles in another currency.
   */
  lemma {:induction false} DeclineIsFinalInTheWorld(run: seq<Step>, p: string)
    requires LegalRun(GENESIS, run) && p in TakeAll(GENESIS, run).payments
    requires TakeAll(GENESIS, run).payments[p].stored.status == Declined
    ensures var w := TakeAll(GENESIS, run);
      && (SafelyUndebited(w, p) ==> NeverDebited(w, p))
      && (Short(run) ==> (NeverDebited(w, p) <==> SafelyUndebited(w, p)))
  {
    RunKeepsWorld(GENESIS, run);
    var w := TakeAll(GENESIS, run);
    assert PaymentOk(w, p);
    if SafelyUndebited(w, p) {
      SafeIsNeverDebited(w, p);
    } else if Short(run) {
      RunUsesFewNames(GENESIS, run, 20);
      UnsafeCanBeDebited(w, p);
    }
  }

  lemma {:induction false} SafeIsNeverDebited(w: World, p: string)
    requires WorldOk(w) && p in w.payments && w.payments[p].version >= 2 && SafelyUndebited(w, p)
    ensures NeverDebited(w, p)
  {
    if QuietDebit(w.payments[p]) {
      BarredIsNeverDebited(w, p);
    } else {
      forall more | LegalRun(w, more) && p in TakeAll(w, more).payments
          ensures ViewOf(TakeAll(w, more), p).debit.None? {
        OtherCurrencyNeverDebits(w, more, p);
      }
    }
  }

  lemma {:induction false} UnsafeCanBeDebited(w: World, p: string)
    requires WorldOk(w) && NamesLeft(w, 16) && p in w.payments && !SafelyUndebited(w, p)
    ensures !NeverDebited(w, p)
  {
    if ViewOf(w, p).debit.None? {
      var more := LateDebitIsPossible(w, p);
      assert LegalRun(w, more) && p in TakeAll(w, more).payments;
    } else {
      assert LegalRun(w, []) && TakeAll(w, []) == w;
    }
  }

  ghost predicate NeverDeclinedAndDebited(w: World, p: string) {
    forall more :: LegalRun(w, more) && p in TakeAll(w, more).payments ==>
                     !DeclinedAndDebited(TakeAll(w, more).payments[p], ViewOf(TakeAll(w, more), p))
  }

  /**
   * The same at the lookup that decides: no continuation declines the payment and still debits it,
   * exactly under that condition.
   */
  lemma {:induction false} LookupDecidesInTheWorld(run: seq<Step>, p: string, id: nat)
    requires LegalRun(GENESIS, run) && p in TakeAll(GENESIS, run).payments
    requires var w := TakeAll(GENESIS, run); var l := w.payments[p];
      Enabled(l, ViewOf(w, p), Perform(id)) && LooksUpNoDebit(l, ViewOf(w, p), Perform(id))
    ensures var w := TakeAll(GENESIS, run); var l := w.payments[p];
      && Legal(w, Act(p, Perform(id)))
      && var v := Take(w, Act(p, Perform(id)));
      && (SafelyUndebited(w, p) ==> NeverDeclinedAndDebited(v, p))
      && (Short(run) ==> (NeverDeclinedAndDebited(v, p) <==> SafelyUndebited(w, p)))
  {
    var w := TakeAll(GENESIS, run);
    RunKeepsWorld(GENESIS, run);
    LookupInTheWorld(w, p, id);
    if SafelyUndebited(w, p) {
      HarmlessLookup(w, p, id);
    } else if Short(run) {
      RunUsesFewNames(GENESIS, run, 20);
      HarmfulLookup(w, p, id);
    }
  }

  lemma {:induction false} LookupInTheWorld(w: World, p: string, id: nat)
    requires OrdersOk(w) && p in w.payments && Enabled(w.payments[p], ViewOf(w, p), Perform(id))
    ensures var s := Act(p, Perform(id));
      && Legal(w, s)
      && var v := Take(w, s);
      && v.accounts == w.accounts && p in v.payments && v.payments[p] == Next(w.payments[p], ViewOf(w, p), Perform(id))
      && v.payments[p].order == w.payments[p].order && ViewOf(v, p) == ViewOf(w, p)
  {
    OrderStays(w.payments[p], ViewOf(w, p), Perform(id));
  }

  lemma {:induction false} HarmlessLookup(w: World, p: string, id: nat)
    requires WorldOk(w) && p in w.payments
    requires Enabled(w.payments[p], ViewOf(w, p), Perform(id))
              && LooksUpNoDebit(w.payments[p], ViewOf(w, p), Perform(id))
    requires QuietDebit(w.payments[p]) || OtherCurrency(w.accounts, w.payments[p].order)
    ensures Legal(w, Act(p, Perform(id))) && NeverDeclinedAndDebited(Take(w, Act(p, Perform(id))), p)
  {
    LookupInTheWorld(w, p, id);
    TakeKeeps(w, Act(p, Perform(id)));
    assert PaymentOk(w, p);
    var v := Take(w, Act(p, Perform(id)));
    if QuietDebit(w.payments[p]) {
      QuietLookupBars(w.payments[p], ViewOf(w, p), id);
      BarredIsNeverDebited(v, p);
    } else {
      forall more | LegalRun(v, more)
          ensures p in TakeAll(v, more).payments && ViewOf(TakeAll(v, more), p).debit.None? {
        OtherCurrencyNeverDebits(v, more, p);
      }
    }
  }

  lemma {:induction false} HarmfulLookup(w: World, p: string, id: nat)
    requires WorldOk(w) && NamesLeft(w, 18) && p in w.payments
    requires Enabled(w.payments[p], ViewOf(w, p), Perform(id))
              && LooksUpNoDebit(w.payments[p], ViewOf(w, p), Perform(id))
    requires !QuietDebit(w.payments[p]) && !OtherCurrency(w.accounts, w.payments[p].order)
    ensures Legal(w, Act(p, Perform(id))) && !NeverDeclinedAndDebited(Take(w, Act(p, Perform(id))), p)
  {
    var s := Act(p, Perform(id));
    LookupInTheWorld(w, p, id);
    var v := Take(w, s);
    DeclinedStillDisquiet(w, p, id);
    var u := Take(v, s);
    StepUsesOneName(w, s, 17);
    StepUsesOneName(v, s, 16);
    var rest := LateDebitIsPossible(u, p);
    BothInTheEnd(v, s, rest, p);
  }

  lemma {:induction false} DeclinedStillDisquiet(w: World, p: string, id: nat)
    requires WorldOk(w) && p in w.payments
    requires Enabled(w.payments[p], ViewOf(w, p), Perform(id))
              && LooksUpNoDebit(w.payments[p], ViewOf(w, p), Perform(id))
    requires !QuietDebit(w.payments[p]) && !OtherCurrency(w.accounts, w.payments[p].order)
    ensures var s := Act(p, Perform(id));
      && Legal(w, s) && Legal(Take(w, s), s)
      && var u := Take(Take(w, s), s);
      && WorldOk(u) && p in u.payments && u.payments[p].stored.status == Declined
      && ViewOf(u, p).debit.None? && !QuietDebit(u.payments[p]) && !OtherCurrency(u.accounts, u.payments[p].order)
  {
    var s := Act(p, Perform(id));
    assert PaymentOk(w, p);
    LookupInTheWorld(w, p, id);
    AbsentLookupDeclines(w.payments[p], ViewOf(w, p), id);
    TakeKeeps(w, s);
    LookupInTheWorld(Take(w, s), p, id);
    TakeKeeps(Take(w, s), s);
    DisquietStays(w.payments[p], ViewOf(w, p), id, Take(Take(w, s), s).payments[p]);
  }

  lemma {:induction false} BothInTheEnd(v: World, s: Step, rest: seq<Step>, p: string)
    requires Legal(v, s) && DebitedLate(Take(v, s), rest, p) && Take(v, s).payments[p].stored.status == Declined
    ensures !NeverDeclinedAndDebited(v, p)
  {
    OneMoreStep(v, s, rest);
    var more := [s] + rest;
    assert LegalRun(v, more) && p in TakeAll(v, more).payments;
    assert DeclinedAndDebited(TakeAll(v, more).payments[p], ViewOf(TakeAll(v, more), p));
  }
}
