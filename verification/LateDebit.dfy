/** The late debit in the whole system: every payment terminal, and money missing from the wallets. */
module LateDebit {
  import opened Wrappers
  import opened PaymentDomain
  import opened Sums
  import opened SagaProtocol
  import opened SagaSettlement
  import opened PaymentWorld
  import opened MoneyConservation
  import A = AccountsLedger
  import R = References

  /** Accounts with the one wallet that matters: the source, holding exactly the amount. */
  function Funded(o: Order, opening: string): A.Accounts
    requires ValidOrder(o)
  {
    A.Open(A.NO_ACCOUNTS, o.source, o.currency, o.amount, opening)
  }

  /** Two different references the generator may return, for the opening entry and for the debit. */
  predicate TwoReferences(opening: string, reference: string) {
    R.Accepts("trx", opening) && R.Accepts("trx", reference) && opening != reference
  }

  function Stage(o: Order, opening: string, reference: string, k: nat): World
    requires ValidOrder(o)
  {
    World(if k < 10 then Funded(o, opening) else A.Post(Funded(o, opening), RequestOf(o, DebitLeg), reference),
          map[o.reference := Scene(o, reference, k)])
  }

  /** The rest of the run, from step `k` on. */
  function RunFrom(payment: string, reference: string, k: nat): seq<Step>
    requires k <= 10
    decreases 10 - k
  {
    if k == 10 then [] else [Act(payment, Script(reference)[k])] + RunFrom(payment, reference, k + 1)
  }

  lemma {:induction false} NothingPostedYet(o: Order, opening: string)
    requires ValidOrder(o)
    ensures View(Funded(o, opening), o) == NOTHING_POSTED
  {
  }

  lemma {:induction false} SceneOrder(o: Order, reference: string, k: nat)
    ensures Scene(o, reference, k).order == o
  {
  }

  lemma {:induction false} QuietStage(o: Order, opening: string, reference: string, k: nat)
    requires ValidOrder(o) && k < 9
    ensures Legal(Stage(o, opening, reference, k), Act(o.reference, Script(reference)[k]))
    ensures Take(Stage(o, opening, reference, k), Act(o.reference, Script(reference)[k]))
              == Stage(o, opening, reference, k + 1)
  {
    NothingPostedYet(o, opening);
    SceneOrder(o, reference, k);
    if k < 5 {
      SagaScenes(o, reference, k);
    } else {
      RecoveryScenes(o, reference, k);
    }
    assert !Script(reference)[k].Deliver?;
    SamePayment(o, Scene(o, reference, k), Scene(o, reference, k + 1));
  }

  lemma {:induction false} SamePayment(o: Order, l: Local, m: Local)
    ensures map[o.reference := l][o.reference := m] == map[o.reference := m]
  {
  }

  lemma {:induction false} DebitArrives(o: Order, opening: string, reference: string)
    requires TwoReferences(opening, reference) && ValidOrder(o)
    ensures Legal(Stage(o, opening, reference, 9), Act(o.reference, Script(reference)[9]))
    ensures Take(Stage(o, opening, reference, 9), Act(o.reference, Script(reference)[9]))
              == Stage(o, opening, reference, 10)
  {
    var l := Scene(o, reference, 9);
    assert Script(reference)[9] == Deliver(1, Applied(reference));
    NothingPostedYet(o, opening);
    assert l.wire == map[1 := DebitLeg];
    assert Possible(Funded(o, opening), RequestOf(o, DebitLeg), Applied(reference));
    assert Dispose(l, 1, Applied(reference)) == Scene(o, reference, 10);
    SamePayment(o, l, Scene(o, reference, 10));
  }

  lemma {:induction false} StagePasses(o: Order, opening: string, reference: string, k: nat)
    requires TwoReferences(opening, reference) && ValidOrder(o) && k < 10
    ensures Legal(Stage(o, opening, reference, k), Act(o.reference, Script(reference)[k]))
    ensures Take(Stage(o, opening, reference, k), Act(o.reference, Script(reference)[k]))
              == Stage(o, opening, reference, k + 1)
  {
    if k < 9 {
      QuietStage(o, opening, reference, k);
    } else {
      DebitArrives(o, opening, reference);
    }
  }

  lemma {:induction false} PlayStages(o: Order, opening: string, reference: string, k: nat)
    requires TwoReferences(opening, reference) && ValidOrder(o) && k <= 10
    ensures LegalRun(Stage(o, opening, reference, k), RunFrom(o.reference, reference, k))
    ensures TakeAll(Stage(o, opening, reference, k), RunFrom(o.reference, reference, k))
              == Stage(o, opening, reference, 10)
    ensures Act(o.reference, LoseLock) !in RunFrom(o.reference, reference, k)
    decreases 10 - k
  {
    if k < 10 {
      StagePasses(o, opening, reference, k);
      PlayStages(o, opening, reference, k + 1);
      OneMoreStep(Stage(o, opening, reference, k), Act(o.reference, Script(reference)[k]),
          RunFrom(o.reference, reference, k + 1));
      ScriptKeepsLock(reference);
    }
  }

  /**
   * Without quiet lookups settlement fails: for every valid order there is a run, with the lock never lost, after
   * which every payment is terminal and the wallets hold less than they were opened with, by exactly the amount.
   */
  lemma {:induction false} SettlementNeedsQuietLookups(o: Order, opening: string, reference: string)
    returns (run: seq<Step>)
    requires TwoReferences(opening, reference) && ValidOrder(o)
    ensures LegalRun(GENESIS, run) && Act(o.reference, LoseLock) !in run
    ensures var w := TakeAll(GENESIS, run);
      && (forall p :: p in w.payments ==> Terminal(w.payments[p].stored.status))
      && Sum(Held(w, o.currency)) + o.amount == Sum(Opened(w, o.currency))
  {
    run := WholeRun(o, opening, reference);
    NoRunCreatesMoney(run, o.currency);
    InTransitAtTheEnd(o, opening, reference);
  }

  lemma {:induction false} WholeRun(o: Order, opening: string, reference: string) returns (run: seq<Step>)
    requires TwoReferences(opening, reference) && ValidOrder(o)
    ensures LegalRun(GENESIS, run) && TakeAll(GENESIS, run) == Stage(o, opening, reference, 10)
    ensures Act(o.reference, LoseLock) !in run
  {
    var first := OpenWallet(o.source, o.currency, o.amount, opening);
    var ready := Take(GENESIS, first);
    var rest := RunFrom(o.reference, reference, 0);
    PlayStages(o, opening, reference, 0);
    assert Take(ready, Initiate(o)) == Stage(o, opening, reference, 0);
    OneMoreStep(ready, Initiate(o), rest);
    OneMoreStep(GENESIS, first, [Initiate(o)] + rest);
    run := [first] + ([Initiate(o)] + rest);
  }

  lemma {:induction false} InTransitAtTheEnd(o: Order, opening: string, reference: string)
    requires ValidOrder(o)
    ensures Sum(InTransit(Stage(o, opening, reference, 10), o.currency)) == o.amount
    ensures Terminal(Scene(o, reference, 10).stored.status)
  {
    var w := Stage(o, opening, reference, 10);
    SceneOrder(o, reference, 10);
    assert View(w.accounts, o) == Posted(Some(reference), None, None);
    assert InTransit(w, o.currency) == map[][o.reference := o.amount];
    var empty: map<string, int> := map[];
    SumUpdate(empty, o.reference, o.amount);
  }
}
