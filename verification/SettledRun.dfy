/**
 * The undisturbed payment, step by step, in a system where anything else may be going on: debited,
 * credited, approved.
 */
module SettledRun {
  import opened Wrappers
  import opened PaymentDomain
  import opened WorkerProgram
  import opened SagaProtocol
  import opened PaymentWorld
  import opened MoneyConservation
  import A = AccountsLedger

  const STEPS := 12

  function Script(d: string, c: string, k: nat): Action
    requires k < STEPS
  {
    match k
    case 0 => StartSaga
    case 3 => Post(0)
    case 4 => Deliver(1, Applied(d))
    case 5 => Receive(0)
    case 8 => Post(0)
    case 9 => Deliver(2, Applied(c))
    case 10 => Receive(0)
    case _ => Perform(0)
  }

  /** The payment before step `k`. */
  function Scene(o: Order, d: string, c: string, k: nat): Local {
    var at := (w: Worker, version: nat, stored: Snapshot, nextId: nat) =>
      Local(o, version, stored, [], map[0 := w], map[], map[], nextId, Some(0));
    var debited := map[1 := Granted(DebitLeg, d)];
    match k
    case 0 => Created(o)
    case 1 => at(Worker(ReadForDebit, FRESH, 0), 1, FRESH, 1)
    case 2 => at(Worker(SaveProcessing, STARTED, 1), 1, FRESH, 1)
    case 3 => at(Worker(SendDebit(FIRST_ATTEMPT), STARTED, 2), 2, STARTED, 1)
    case 4 => at(Worker(SendDebit(Call(false, Some(1))), STARTED, 2), 2, STARTED, 2).(wire := map[1 := DebitLeg])
    case 5 => at(Worker(SendDebit(Call(false, Some(1))), STARTED, 2), 2, STARTED, 2).(replies := debited)
    case 6 => at(Worker(SaveDebited, Debited(d), 2), 2, STARTED, 2).(replies := debited)
    case 7 => at(Worker(ReadForCredit, Debited(d), 3), 3, Debited(d), 2).(replies := debited)
    case 8 => at(Worker(SendCredit(FIRST_ATTEMPT), Debited(d), 3), 3, Debited(d), 2).(replies := debited)
    case 9 => at(Worker(SendCredit(Call(false, Some(2))), Debited(d), 3), 3, Debited(d), 3)
              .(replies := debited, wire := map[2 := CreditLeg])
    case 10 => at(Worker(SendCredit(Call(false, Some(2))), Debited(d), 3), 3, Debited(d), 3)
               .(replies := debited[2 := Granted(CreditLeg, c)])
    case 11 => at(Worker(SaveApproved, Settled(d, c), 3), 3, Debited(d),
        3).(replies := debited[2 := Granted(CreditLeg, c)])
    case _ => Local(o, 4, Settled(d, c), ApprovalMessages(o, Settled(d, c)), map[], map[],
                    debited[2 := Granted(CreditLeg, c)], 3, None)
  }

  function Seen(d: string, c: string, k: nat): Posted {
    Posted(if k < 5 then None else Some(d), if k < 10 then None else Some(c), None)
  }

  lemma {:induction false} OpeningScenes(o: Order, d: string, c: string, k: nat)
    requires k < 3
    ensures Enabled(Scene(o, d, c, k), Seen(d, c, k), Script(d, c, k))
    ensures Next(Scene(o, d, c, k), Seen(d, c, k), Script(d, c, k)) == Scene(o, d, c, k + 1)
  {
    assert Next(Scene(o, d, c, k), Seen(d, c, k), Script(d, c, k)).workers == Scene(o, d, c, k + 1).workers;
  }

  lemma {:induction false} DebitScenes(o: Order, d: string, c: string, k: nat)
    requires 3 <= k < 6
    ensures Enabled(Scene(o, d, c, k), Seen(d, c, k), Script(d, c, k))
    ensures Next(Scene(o, d, c, k), Seen(d, c, k), Script(d, c, k)) == Scene(o, d, c, k + 1)
  {
    assert Next(Scene(o, d, c, k), Seen(d, c, k), Script(d, c, k)).workers == Scene(o, d, c, k + 1).workers;
  }

  lemma {:induction false} RecordingScenes(o: Order, d: string, c: string, k: nat)
    requires 6 <= k < 8
    ensures Enabled(Scene(o, d, c, k), Seen(d, c, k), Script(d, c, k))
    ensures Next(Scene(o, d, c, k), Seen(d, c, k), Script(d, c, k)) == Scene(o, d, c, k + 1)
  {
    assert Next(Scene(o, d, c, k), Seen(d, c, k), Script(d, c, k)).workers == Scene(o, d, c, k + 1).workers;
  }

  lemma {:induction false} CreditScenes(o: Order, d: string, c: string, k: nat)
    requires 8 <= k < 11
    ensures Enabled(Scene(o, d, c, k), Seen(d, c, k), Script(d, c, k))
    ensures Next(Scene(o, d, c, k), Seen(d, c, k), Script(d, c, k)) == Scene(o, d, c, k + 1)
  {
    assert Next(Scene(o, d, c, k), Seen(d, c, k), Script(d, c, k)).workers == Scene(o, d, c, k + 1).workers;
  }

  lemma {:induction false} ApprovalScene(o: Order, d: string, c: string)
    ensures Enabled(Scene(o, d, c, 11), Seen(d, c, 11), Script(d, c, 11))
    ensures Next(Scene(o, d, c, 11), Seen(d, c, 11), Script(d, c, 11)) == Scene(o, d, c, 12)
  {
    var l := Scene(o, d, c, 11);
    var w := l.workers[0];
    assert Commit(l, w).workers == l.workers;
    assert Advance(w, AnswerTo(l, Seen(d, c, 11), w)) == None;
    assert Commit(l, w).outbox == [] + ApprovalMessages(o, Settled(d, c)) == ApprovalMessages(o, Settled(d, c));
  }

  lemma {:induction false} ScenePasses(o: Order, d: string, c: string, k: nat)
    requires k < STEPS
    ensures Enabled(Scene(o, d, c, k), Seen(d, c, k), Script(d, c, k))
    ensures Next(Scene(o, d, c, k), Seen(d, c, k), Script(d, c, k)) == Scene(o, d, c, k + 1)
    ensures Scene(o, d, c, k).order == o
  {
    if k < 3 {
      OpeningScenes(o, d, c, k);
    } else if k < 6 {
      DebitScenes(o, d, c, k);
    } else if k < 8 {
      RecordingScenes(o, d, c, k);
    } else if k < 11 {
      CreditScenes(o, d, c, k);
    } else {
      ApprovalScene(o, d, c);
    }
  }

  // -------------------------------------------------------------- in the world

  /** Accounts would carry out both movements now. */
  predicate Payable(a: A.Accounts, o: Order) {
    && A.Precheck(a, RequestOf(o, DebitLeg)).None? && A.GuardHolds(a.wallets[o.source], RequestOf(o, DebitLeg))
    && A.Precheck(a, RequestOf(o, CreditLeg)).None? && A.GuardHolds(a.wallets[o.destination], RequestOf(o, CreditLeg))
    && View(a, o) == NOTHING_POSTED
  }

  /** Two references the generator may give the two entries. */
  predicate FreshPair(a: A.Accounts, d: string, c: string) {
    A.FreshReference(a, d) && A.FreshReference(a, c) && d != c
  }

  function Paid(a: A.Accounts, o: Order, d: string, c: string): A.Accounts
    requires Payable(a, o)
  {
    A.Post(A.Post(a, RequestOf(o, DebitLeg), d), RequestOf(o, CreditLeg), c)
  }

  function AccountsAt(a: A.Accounts, o: Order, d: string, c: string, k: nat): A.Accounts
    requires Payable(a, o)
  {
    if k < 5 then a else if k < 10 then A.Post(a, RequestOf(o, DebitLeg), d) else Paid(a, o, d, c)
  }

  function Stage(w: World, o: Order, d: string, c: string, k: nat): World
    requires Payable(w.accounts, o)
  {
    World(AccountsAt(w.accounts, o, d, c, k), w.payments[o.reference := Scene(o, d, c, k)])
  }

  lemma {:induction false} ViewAt(a: A.Accounts, o: Order, d: string, c: string, k: nat)
    requires ValidOrder(o) && Payable(a, o)
    ensures View(AccountsAt(a, o, d, c, k), o) == Seen(d, c, k)
  {
  }

  lemma {:induction false} DeliveryIsPossible(a: A.Accounts, o: Order, d: string, c: string, k: nat)
    requires ValidOrder(o) && Payable(a, o) && (k == 4 || k == 9) && FreshPair(a, d, c)
    ensures var l := Scene(o, d, c, k); var script := Script(d, c, k);
      && Possible(AccountsAt(a, o, d, c, k), RequestOf(o, l.wire[script.request]), script.outcome)
      && AccountsAt(a, o, d, c, k + 1)
         == A.Post(AccountsAt(a, o, d, c, k), RequestOf(o, l.wire[script.request]), script.outcome.reference)
  {
  }

  lemma {:induction false} StagePasses(w: World, o: Order, d: string, c: string, k: nat)
    requires ValidOrder(o) && Payable(w.accounts, o) && k < STEPS && FreshPair(w.accounts, d, c)
    ensures Legal(Stage(w, o, d, c, k), Act(o.reference, Script(d, c, k)))
    ensures Take(Stage(w, o, d, c, k), Act(o.reference, Script(d, c, k))) == Stage(w, o, d, c, k + 1)
  {
    ScenePasses(o, d, c, k);
    ViewAt(w.accounts, o, d, c, k);
    if k == 4 || k == 9 {
      DeliveryIsPossible(w.accounts, o, d, c, k);
    }
    Overwrites(w.payments, o.reference, Scene(o, d, c, k), Scene(o, d, c, k + 1));
  }

  lemma {:induction false} Overwrites(m: map<string, Local>, p: string, l: Local, n: Local)
    ensures m[p := l][p := n] == m[p := n]
  {
  }

  function RunFrom(payment: string, d: string, c: string, k: nat): seq<Step>
    requires k <= STEPS
    decreases STEPS - k
  {
    if k == STEPS then [] else [Act(payment, Script(d, c, k))] + RunFrom(payment, d, c, k + 1)
  }

  lemma {:induction false} RunLength(payment: string, d: string, c: string, k: nat)
    requires k <= STEPS
    ensures |RunFrom(payment, d, c, k)| == STEPS - k
    decreases STEPS - k
  {
    if k < STEPS {
      RunLength(payment, d, c, k + 1);
    }
  }

  lemma {:induction false} PlayStages(w: World, o: Order, d: string, c: string, k: nat)
    requires ValidOrder(o) && Payable(w.accounts, o) && k <= STEPS && FreshPair(w.accounts, d, c)
    ensures LegalRun(Stage(w, o, d, c, k), RunFrom(o.reference, d, c, k))
    ensures TakeAll(Stage(w, o, d, c, k), RunFrom(o.reference, d, c, k)) == Stage(w, o, d, c, STEPS)
    decreases STEPS - k
  {
    if k < STEPS {
      StagePasses(w, o, d, c, k);
      PlayStages(w, o, d, c, k + 1);
      OneMoreStep(Stage(w, o, d, c, k), Act(o.reference, Script(d, c, k)), RunFrom(o.reference, d, c, k + 1));
    }
  }

  /**
   * Whatever else is going on, a payable order can be created and carried through, touching nothing
   * but its own two wallets.
   */
  lemma {:induction false} OrderCanBePaid(w: World, o: Order, d: string, c: string)
    requires ValidOrder(o) && o.reference !in w.payments && Payable(w.accounts, o) && FreshPair(w.accounts, d, c)
    ensures var run := [Initiate(o)] + RunFrom(o.reference, d, c, 0);
      && LegalRun(w, run)
      && TakeAll(w, run) == World(Paid(w.accounts, o, d, c), w.payments[o.reference := Scene(o, d, c, STEPS)])
  {
    assert Take(w, Initiate(o)) == Stage(w, o, d, c, 0);
    PlayStages(w, o, d, c, 0);
    OneMoreStep(w, Initiate(o), RunFrom(o.reference, d, c, 0));
  }
}
