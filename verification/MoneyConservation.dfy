/** Where the money is, over whole runs of the system. */
module MoneyConservation {
  import opened Wrappers
  import opened PaymentDomain
  import opened Sums
  import opened SagaProtocol
  import opened SagaGuarantees
  import opened SagaSettlement
  import opened PaymentWorld
  import A = AccountsLedger

  // -------------------------------------------------------------------- runs

  predicate LegalRun(w: World, run: seq<Step>)
    decreases |run|
  {
    run == [] || (Legal(w, run[0]) && LegalRun(Take(w, run[0]), run[1..]))
  }

  function TakeAll(w: World, run: seq<Step>): World
    requires LegalRun(w, run)
    decreases |run|
  {
    if run == [] then w else TakeAll(Take(w, run[0]), run[1..])
  }

  lemma {:induction false} OneMoreStep(w: World, s: Step, rest: seq<Step>)
    requires Legal(w, s) && LegalRun(Take(w, s), rest)
    ensures LegalRun(w, [s] + rest) && TakeAll(w, [s] + rest) == TakeAll(Take(w, s), rest)
  {
    var run := [s] + rest;
    assert run[0] == s && run[1..] == rest;
  }

  lemma {:induction false} RunsJoin(w: World, run: seq<Step>, more: seq<Step>)
    requires LegalRun(w, run) && LegalRun(TakeAll(w, run), more)
    ensures LegalRun(w, run + more) && TakeAll(w, run + more) == TakeAll(TakeAll(w, run), more)
    decreases |run|
  {
    if run == [] {
      assert run + more == more;
    } else {
      RunsJoin(Take(w, run[0]), run[1..], more);
      OneMoreStep(w, run[0], run[1..] + more);
      assert [run[0]] + (run[1..] + more) == run + more;
    }
  }

  lemma {:induction false} RunKeepsWorld(w: World, run: seq<Step>)
    requires WorldOk(w) && LegalRun(w, run)
    ensures WorldOk(TakeAll(w, run))
    decreases |run|
  {
    if run != [] {
      TakeKeeps(w, run[0]);
      RunKeepsWorld(Take(w, run[0]), run[1..]);
    }
  }

  // -------------------------------------------------------------- the accounts

  /** In each currency: what wallets hold, what they were opened with, and what is on its way. */
  ghost function Held(w: World, currency: string): map<string, int> {
    map n | n in w.accounts.wallets :: if w.accounts.wallets[n].currency == currency
        then w.accounts.wallets[n].balance else 0
  }

  ghost function Opened(w: World, currency: string): map<string, int> {
    map n | n in w.accounts.wallets ::
      if w.accounts.wallets[n].currency == currency && (n, A.OpeningKey(n)) in w.accounts.index
      then w.accounts.index[(n, A.OpeningKey(n))].amount else 0
  }

  /** What a payment has taken out of its source and put neither in its destination nor back. */
  function Moving(o: Order, p: Posted): int {
    (if p.debit.Some? then o.amount else 0) - (if p.credit.Some? then o.amount else 0)
    - (if p.refund.Some? then o.amount else 0)
  }

  function Share(w: World, currency: string, p: string): int
    requires p in w.payments
  {
    var o := w.payments[p].order;
    if o.currency == currency then Moving(o, View(w.accounts, o)) else 0
  }

  ghost function InTransit(w: World, currency: string): map<string, int> {
    map p | p in w.payments :: Share(w, currency, p)
  }

  ghost predicate Conserved(w: World, currency: string) {
    Sum(Held(w, currency)) + Sum(InTransit(w, currency)) == Sum(Opened(w, currency))
  }

  /** The system once accounts has applied request `r` of payment `p`. */
  function Granting(w: World, p: string, r: nat, reference: string): World
    requires p in w.payments && r in w.payments[p].wire
    requires RequestOf(w.payments[p].order, w.payments[p].wire[r]).wallet in w.accounts.wallets
  {
    var l := w.payments[p];
    World(A.Post(w.accounts, RequestOf(l.order, l.wire[r]), reference),
        w.payments[p := Dispose(l, r, Applied(reference))])
  }

  /** How much of that request counts in this currency. */
  function Counted(w: World, p: string, r: nat, currency: string): int
    requires p in w.payments && r in w.payments[p].wire
  {
    var o := w.payments[p].order;
    if o.currency == currency then A.Delta(RequestOf(o, w.payments[p].wire[r]).flow, o.amount) else 0
  }

  lemma {:induction false} GrantMovesHeld(w: World, p: string, r: nat, reference: string, currency: string)
    requires p in w.payments && r in w.payments[p].wire
    requires var n := RequestOf(w.payments[p].order, w.payments[p].wire[r]).wallet;
      n in w.accounts.wallets && w.accounts.wallets[n].currency == w.payments[p].order.currency
    ensures var n := RequestOf(w.payments[p].order, w.payments[p].wire[r]).wallet;
      Held(Granting(w, p, r, reference), currency) ==
      Held(w, currency)[n := Held(w, currency)[n] + Counted(w, p, r, currency)]
    ensures Opened(Granting(w, p, r, reference), currency) == Opened(w, currency)
  {
  }

  lemma {:induction false} RecordingMoves(o: Order, p: Posted, leg: Leg, reference: string)
    requires p.Get(leg).None?
    ensures Moving(o, p.Put(leg, reference)) == Moving(o, p) - A.Delta(RequestOf(o, leg).flow, o.amount)
  {
  }

  lemma {:induction false} GrantShowsInOneView(w: World, p: string, r: nat, reference: string, q: string)
    requires OrdersOk(w) && p in w.payments && q in w.payments && r in w.payments[p].wire
    requires RequestOf(w.payments[p].order, w.payments[p].wire[r]).wallet in w.accounts.wallets
    ensures View(Granting(w, p, r, reference).accounts, w.payments[q].order) ==
            if q == p then View(w.accounts, w.payments[p].order).Put(w.payments[p].wire[r], reference)
            else View(w.accounts, w.payments[q].order)
  {
  }

  lemma {:induction false} GrantMovesTransit(w: World, p: string, r: nat, reference: string, currency: string)
    requires OrdersOk(w) && p in w.payments && r in w.payments[p].wire
    requires RequestOf(w.payments[p].order, w.payments[p].wire[r]).wallet in w.accounts.wallets
    requires View(w.accounts, w.payments[p].order).Get(w.payments[p].wire[r]).None?
    ensures var t, t' := InTransit(w, currency), InTransit(Granting(w, p, r, reference), currency);
      && t'.Keys == t.Keys
      && forall q :: q in t ==> t'[q] == t[q] - if q == p then Counted(w, p, r, currency) else 0
  {
    var o := w.payments[p].order;
    var v := Granting(w, p, r, reference);
    assert v.payments.Keys == w.payments.Keys;
    forall q | q in w.payments
      ensures Share(v, currency, q) == Share(w, currency, q) - if q == p then Counted(w, p, r, currency) else 0
    {
      GrantShowsInOneView(w, p, r, reference, q);
      RecordingMoves(o, View(w.accounts, o), w.payments[p].wire[r], reference);
    }
  }

  lemma {:induction false} GrantConserves(w: World, p: string, r: nat, reference: string, currency: string)
    requires OrdersOk(w) && p in w.payments && r in w.payments[p].wire && Conserved(w, currency)
    requires var n := RequestOf(w.payments[p].order, w.payments[p].wire[r]).wallet;
      n in w.accounts.wallets && w.accounts.wallets[n].currency == w.payments[p].order.currency
    requires View(w.accounts, w.payments[p].order).Get(w.payments[p].wire[r]).None?
    ensures Conserved(Granting(w, p, r, reference), currency)
  {
    var n, delta := RequestOf(w.payments[p].order, w.payments[p].wire[r]).wallet, Counted(w, p, r, currency);
    GrantTransfers(w, p, r, reference, currency);
    TransferConserves(w, Granting(w, p, r, reference), n, p, delta, currency);
  }

  /** `delta` more in wallet `n`, and as much less on its way in payment `p`; nothing else changes. */
  ghost predicate Transfers(w: World, v: World, n: string, p: string, delta: int, currency: string) {
    && Opened(v, currency) == Opened(w, currency)
    && n in Held(w, currency) && Held(v, currency) == Held(w, currency)[n := Held(w, currency)[n] + delta]
    && p in InTransit(w, currency) && InTransit(v, currency).Keys == InTransit(w, currency).Keys
    && forall q :: q in InTransit(w, currency) ==>
                     InTransit(v, currency)[q] == InTransit(w, currency)[q] - if q == p then delta else 0
  }

  lemma {:induction false} GrantTransfers(w: World, p: string, r: nat, reference: string, currency: string)
    requires OrdersOk(w) && p in w.payments && r in w.payments[p].wire
    requires var n := RequestOf(w.payments[p].order, w.payments[p].wire[r]).wallet;
      n in w.accounts.wallets && w.accounts.wallets[n].currency == w.payments[p].order.currency
    requires View(w.accounts, w.payments[p].order).Get(w.payments[p].wire[r]).None?
    ensures Transfers(w, Granting(w, p, r, reference), RequestOf(w.payments[p].order, w.payments[p].wire[r]).wallet, p,
                      Counted(w, p, r, currency), currency)
  {
    GrantMovesHeld(w, p, r, reference, currency);
    GrantMovesTransit(w, p, r, reference, currency);
  }

  lemma {:induction false} TransferConserves(w: World, v: World, n: string, p: string, delta: int, currency: string)
    requires Conserved(w, currency) && Transfers(w, v, n, p, delta, currency)
    ensures Conserved(v, currency)
  {
    SumTransfer(Held(w, currency), Held(v, currency), InTransit(w, currency), InTransit(v, currency), n, p, delta);
  }

  lemma {:induction false} ApplyConserves(w: World, p: string, a: Action, currency: string)
    requires OrdersOk(w) && Legal(w, Act(p, a)) && a.Deliver? && a.outcome.Applied? && Conserved(w, currency)
    ensures Conserved(Take(w, Act(p, a)), currency)
  {
    ApplyGrants(w, p, a);
    GrantConserves(w, p, a.request, a.outcome.reference, currency);
  }

  lemma {:induction false} ApplyGrants(w: World, p: string, a: Action)
    requires Legal(w, Act(p, a)) && a.Deliver? && a.outcome.Applied?
    ensures p in w.payments && a.request in w.payments[p].wire
    ensures var n := RequestOf(w.payments[p].order, w.payments[p].wire[a.request]).wallet;
      n in w.accounts.wallets && w.accounts.wallets[n].currency == w.payments[p].order.currency
    ensures View(w.accounts, w.payments[p].order).Get(w.payments[p].wire[a.request]).None?
    ensures Take(w, Act(p, a)) == Granting(w, p, a.request, a.outcome.reference)
  {
  }

  lemma {:induction false} QuietActMovesNothing(w: World, p: string, a: Action, currency: string)
    requires Legal(w, Act(p, a)) && !(a.Deliver? && a.outcome.Applied?)
    ensures var v := Take(w, Act(p, a));
      && Held(v, currency) == Held(w, currency) && Opened(v, currency) == Opened(w, currency)
      && InTransit(v, currency) == InTransit(w, currency)
  {
    var l := w.payments[p];
    var v := Take(w, Act(p, a));
    OrderStays(l, View(w.accounts, l.order), a);
    assert v.accounts == w.accounts && v.payments.Keys == w.payments.Keys;
    forall q | q in w.payments ensures Share(v, currency, q) == Share(w, currency, q) {
      assert v.payments[q].order == w.payments[q].order;
    }
  }

  lemma {:induction false} QuietActConserves(w: World, p: string, a: Action, currency: string)
    requires Legal(w, Act(p, a)) && !(a.Deliver? && a.outcome.Applied?) && Conserved(w, currency)
    ensures Conserved(Take(w, Act(p, a)), currency)
  {
    QuietActMovesNothing(w, p, a, currency);
  }

  lemma {:induction false} OpenMoves(w: World, s: Step, currency: string)
    requires A.Indexed(w.accounts) && Legal(w, s) && s.OpenWallet?
    ensures var v := Take(w, s); var amount := if s.currency == currency then s.opening else 0;
      && Held(v, currency) == Held(w, currency)[s.name := amount]
      && Opened(v, currency) == Opened(w, currency)[s.name := amount]
  {
    assert (s.name, A.OpeningKey(s.name)) !in w.accounts.index;
    OpenMovesHeld(w, s, currency);
  }

  lemma {:induction false} OpenMovesHeld(w: World, s: Step, currency: string)
    requires Legal(w, s) && s.OpenWallet?
    ensures Held(Take(w, s), currency) == Held(w, currency)[s.name := if s.currency == currency then s.opening else 0]
  {
  }

  lemma {:induction false} OpenLeavesTransit(w: World, s: Step, currency: string)
    requires EntriesOk(w) && Legal(w, s) && s.OpenWallet?
    ensures InTransit(Take(w, s), currency) == InTransit(w, currency)
  {
    var v := Take(w, s);
    OpenKeepsViews(w, s);
    forall q | q in w.payments ensures Share(v, currency, q) == Share(w, currency, q) {
    }
  }

  lemma {:induction false} OpenConserves(w: World, s: Step, currency: string)
    requires EntriesOk(w) && A.Indexed(w.accounts) && Legal(w, s) && s.OpenWallet? && Conserved(w, currency)
    ensures Conserved(Take(w, s), currency)
  {
    var amount := if s.currency == currency then s.opening else 0;
    OpenMoves(w, s, currency);
    OpenLeavesTransit(w, s, currency);
    SumUpdate(Held(w, currency), s.name, amount);
    SumUpdate(Opened(w, currency), s.name, amount);
  }

  lemma {:induction false} StatusMovesNothing(w: World, name: string, active: bool, currency: string)
    requires name in w.accounts.wallets
    ensures var v := w.(accounts := A.SetActive(w.accounts, name, active));
      Held(v, currency) == Held(w, currency) && Opened(v, currency) == Opened(w, currency)
  {
  }

  lemma {:induction false} StatusConserves(w: World, s: Step, currency: string)
    requires Legal(w, s) && s.ChangeStatus? && Conserved(w, currency)
    ensures Conserved(Take(w, s), currency)
  {
    StatusMovesNothing(w, s.name, s.active, currency);
    var v := w.(accounts := A.SetActive(w.accounts, s.name, s.active));
    assert v == Take(w, s);
    forall q | q in w.payments ensures Share(v, currency, q) == Share(w, currency, q) {
    }
    assert InTransit(v, currency) == InTransit(w, currency);
  }

  lemma {:induction false} InitiateConserves(w: World, o: Order, currency: string)
    requires EntriesOk(w) && Legal(w, Initiate(o)) && Conserved(w, currency)
    ensures Conserved(Take(w, Initiate(o)), currency)
  {
    InitiateMovesNothing(w, o, currency);
    SumUpdate(InTransit(w, currency), o.reference, 0);
  }

  lemma {:induction false} InitiateMovesNothing(w: World, o: Order, currency: string)
    requires EntriesOk(w) && Legal(w, Initiate(o))
    ensures var v := Take(w, Initiate(o));
      && Held(v, currency) == Held(w, currency) && Opened(v, currency) == Opened(w, currency)
      && InTransit(v, currency) == InTransit(w, currency)[o.reference := 0]
      && o.reference !in InTransit(w, currency)
  {
    var v := World(w.accounts, w.payments[o.reference := Created(o)]);
    assert Take(w, Initiate(o)) == v;
    InitiateAddsNothing(w, o, currency);
  }

  lemma {:induction false} InitiateAddsNothing(w: World, o: Order, currency: string)
    requires EntriesOk(w) && o.reference !in w.payments
    ensures InTransit(World(w.accounts, w.payments[o.reference := Created(o)]), currency)
              == InTransit(w, currency)[o.reference := 0]
  {
    var v := World(w.accounts, w.payments[o.reference := Created(o)]);
    FreshOrderHasNothingPosted(w, o);
    assert Share(v, currency, o.reference) == 0;
    forall q | q in w.payments ensures q in v.payments && Share(v, currency, q) == Share(w, currency, q) {
      assert v.payments[q] == w.payments[q];
    }
  }

  lemma {:induction false} StepConserves(w: World, s: Step, currency: string)
    requires A.Indexed(w.accounts) && EntriesOk(w) && OrdersOk(w) && Legal(w, s) && Conserved(w, currency)
    ensures Conserved(Take(w, s), currency)
  {
    match s
    case OpenWallet(_, _, _, _) => OpenConserves(w, s, currency);
    case ChangeStatus(_, _) => StatusConserves(w, s, currency);
    case Initiate(o) => InitiateConserves(w, o, currency);
    case Act(p, a) =>
      if a.Deliver? && a.outcome.Applied? {
        ApplyConserves(w, p, a, currency);
      } else {
        QuietActConserves(w, p, a, currency);
      }
  }

  lemma {:induction false} RunConserves(w: World, run: seq<Step>, currency: string)
    requires WorldOk(w) && LegalRun(w, run) && Conserved(w, currency)
    ensures Conserved(TakeAll(w, run), currency)
    decreases |run|
  {
    if run != [] {
      TakeKeeps(w, run[0]);
      StepConserves(w, run[0], currency);
      RunConserves(Take(w, run[0]), run[1..], currency);
    }
  }

  lemma {:induction false} TransitIsAnAmount(w: World, currency: string, p: string)
    requires WorldOk(w) && p in w.payments
    ensures var t := InTransit(w, currency)[p]; t == 0 || t == w.payments[p].order.amount
  {
    assert PaymentOk(w, p);
    InvIsMoneySafe(w.payments[p], View(w.accounts, w.payments[p].order));
  }

  /**
   * No run creates money. In every reachable state and every currency, what the
   * wallets hold plus what was debited and neither credited nor refunded is what
   * the wallets were opened with; and each payment has at most its own amount,
   * never less than nothing, on the way.
   */
  lemma {:induction false} NoRunCreatesMoney(run: seq<Step>, currency: string)
    requires LegalRun(GENESIS, run)
    ensures var w := TakeAll(GENESIS, run);
      && Sum(Held(w, currency)) + Sum(InTransit(w, currency)) == Sum(Opened(w, currency))
      && Sum(Held(w, currency)) <= Sum(Opened(w, currency))
      && (forall p :: p in w.payments ==>
            InTransit(w, currency)[p] == 0 || InTransit(w, currency)[p] == w.payments[p].order.amount)
  {
    var w := TakeAll(GENESIS, run);
    GenesisIsConserved(currency);
    RunKeepsWorld(GENESIS, run);
    RunConserves(GENESIS, run, currency);
    TransitIsNeverNegative(w, currency);
  }

  lemma {:induction false} GenesisIsConserved(currency: string)
    ensures Conserved(GENESIS, currency)
  {
    assert Held(GENESIS, currency) == map[] && InTransit(GENESIS, currency) == map[];
    assert Opened(GENESIS, currency) == map[];
  }

  lemma {:induction false} TransitIsNeverNegative(w: World, currency: string)
    requires WorldOk(w)
    ensures Sum(InTransit(w, currency)) >= 0
    ensures forall p :: p in w.payments ==>
              InTransit(w, currency)[p] == 0 || InTransit(w, currency)[p] == w.payments[p].order.amount
  {
    forall p | p in w.payments
      ensures InTransit(w, currency)[p] == 0 || InTransit(w, currency)[p] == w.payments[p].order.amount
      ensures w.payments[p].order.amount >= 0
    {
      TransitIsAnAmount(w, currency, p);
    }
    SumNonNegative(InTransit(w, currency));
  }

  // -------------------------------------------- one payment inside the system

  /** The actions of one payment within a run of the whole system. */
  function Own(run: seq<Step>, p: string): seq<Action> {
    if run == [] then []
    else (if run[0].Act? && run[0].payment == p then [run[0].action] else []) + Own(run[1..], p)
  }

  /**
   * Seen from one payment, a run of the whole system is a run of its own protocol:
   * everything proved of one payment holds of each, however many others run.
   */
  lemma {:induction false} SystemRunIsProtocolRun(w: World, run: seq<Step>, p: string)
    requires WorldOk(w) && LegalRun(w, run) && p in w.payments
    ensures var l := w.payments[p]; var v := TakeAll(w, run);
      && p in v.payments && v.payments[p].order == l.order
      && Feasible(l, View(w.accounts, l.order), Own(run, p))
      && After(l, View(w.accounts, l.order), Own(run, p)) == (v.payments[p], View(v.accounts, l.order))
    decreases |run|
  {
    if run != [] {
      var l := w.payments[p];
      var v := Take(w, run[0]);
      TakeKeeps(w, run[0]);
      OtherStepsLeaveAlone(w, run[0], p);
      SystemRunIsProtocolRun(v, run[1..], p);
      if run[0].Act? && run[0].payment == p {
        var own := Own(run, p);
        assert own[0] == run[0].action && own[1..] == Own(run[1..], p);
      } else {
        assert Own(run, p) == Own(run[1..], p);
      }
    }
  }

  lemma {:induction false} OtherStepsLeaveAlone(w: World, s: Step, p: string)
    requires EntriesOk(w) && OrdersOk(w) && Legal(w, s) && p in w.payments
    ensures var l := w.payments[p]; var v := Take(w, s);
      && p in v.payments && v.payments[p].order == l.order
      && if s.Act? && s.payment == p
         then v.payments[p] == Next(l, View(w.accounts, l.order), s.action)
              && View(v.accounts, l.order) == NextPosted(l, View(w.accounts, l.order), s.action)
         else v.payments[p] == l && View(v.accounts, l.order) == View(w.accounts, l.order)
  {
    match s
    case OpenWallet(_, _, _, _) => OpenKeepsViews(w, s);
    case ChangeStatus(_, _) =>
    case Initiate(o) =>
    case Act(q, a) =>
      ActShowsInOneView(w, q, a, p);
      OrderStays(w.payments[q], View(w.accounts, w.payments[q].order), a);
  }

  // ---------------------------------------------------------- exact settlement

  /** Throughout the run, a lookup that finds no debit finds none undelivered and no saga able to send one. */
  ghost predicate QuietThroughout(w: World, run: seq<Step>)
    requires LegalRun(w, run)
    decreases |run|
  {
    run != [] ==>
      && (run[0].Act? ==>
            var l := w.payments[run[0].payment];
            LooksUpNoDebit(l, View(w.accounts, l.order), run[0].action) ==> QuietDebit(l))
      && QuietThroughout(Take(w, run[0]), run[1..])
  }

  ghost predicate AllDeclinesFinal(w: World) {
    forall p :: p in w.payments ==> DeclinesAreFinal(w.payments[p], View(w.accounts, w.payments[p].order))
  }

  lemma {:induction false} StepKeepsDeclines(w: World, s: Step)
    requires WorldOk(w) && AllDeclinesFinal(w) && Legal(w, s)
    requires s.Act? ==>
               var l := w.payments[s.payment];
               LooksUpNoDebit(l, View(w.accounts, l.order), s.action) ==> QuietDebit(l)
    ensures AllDeclinesFinal(Take(w, s))
  {
    var v := Take(w, s);
    forall p | p in v.payments ensures DeclinesAreFinal(v.payments[p], View(v.accounts, v.payments[p].order)) {
      if p in w.payments {
        OtherStepsLeaveAlone(w, s, p);
        assert PaymentOk(w, p);
        if s.Act? && s.payment == p {
          StepKeepsFinality(w.payments[p], View(w.accounts, w.payments[p].order), s.action);
        }
      }
    }
  }

  lemma {:induction false} RunKeepsDeclines(w: World, run: seq<Step>)
    requires WorldOk(w) && AllDeclinesFinal(w) && LegalRun(w, run) && QuietThroughout(w, run)
    ensures AllDeclinesFinal(TakeAll(w, run))
    decreases |run|
  {
    if run != [] {
      TakeKeeps(w, run[0]);
      StepKeepsDeclines(w, run[0]);
      RunKeepsDeclines(Take(w, run[0]), run[1..]);
    }
  }

  /** With quiet lookups, once every payment is terminal the wallets hold exactly what they were opened with. */
  lemma {:induction false} AllTerminalMeansAllSettled(run: seq<Step>, currency: string)
    requires LegalRun(GENESIS, run) && QuietThroughout(GENESIS, run)
    requires forall p :: p in TakeAll(GENESIS, run).payments ==>
                           Terminal(TakeAll(GENESIS, run).payments[p].stored.status)
    ensures var w := TakeAll(GENESIS, run); Sum(Held(w, currency)) == Sum(Opened(w, currency))
  {
    var w := TakeAll(GENESIS, run);
    NoRunCreatesMoney(run, currency);
    RunKeepsWorld(GENESIS, run);
    RunKeepsDeclines(GENESIS, run);
    forall p | p in w.payments ensures InTransit(w, currency)[p] == 0 {
      TerminalIsEven(w, p);
    }
    SumOfZeros(InTransit(w, currency));
  }

  lemma {:induction false} TerminalIsEven(w: World, p: string)
    requires WorldOk(w) && AllDeclinesFinal(w) && p in w.payments && Terminal(w.payments[p].stored.status)
    ensures Moving(w.payments[p].order, View(w.accounts, w.payments[p].order)) == 0
  {
    var l := w.payments[p];
    var q := View(w.accounts, l.order);
    assert PaymentOk(w, p);
    assert DeclinesAreFinal(l, q);
    InvIsMoneySafe(l, q);
  }

  // ------------------------------------------------ rows, ledger and wallets

  /** In every reachable state, every row agrees with the accounts ledger. */
  lemma {:induction false} EveryRowAgrees(run: seq<Step>, p: string)
    requires LegalRun(GENESIS, run) && p in TakeAll(GENESIS, run).payments
    ensures var w := TakeAll(GENESIS, run); var l := w.payments[p];
      RowMatchesLedger(l.stored, View(w.accounts, l.order)) && MoneySafe(View(w.accounts, l.order))
  {
    RunKeepsWorld(GENESIS, run);
    var w := TakeAll(GENESIS, run);
    assert PaymentOk(w, p);
    InvIsMoneySafe(w.payments[p], View(w.accounts, w.payments[p].order));
  }

  /** And what it agrees with are entries of the right wallet, of the payment's own amount, currency and direction. */
  lemma {:induction false} RecordedLegsAreEntries(run: seq<Step>, p: string, leg: Leg)
    requires LegalRun(GENESIS, run) && p in TakeAll(GENESIS, run).payments
    requires var w := TakeAll(GENESIS, run); View(w.accounts, w.payments[p].order).Get(leg).Some?
    ensures var w := TakeAll(GENESIS, run); var o := w.payments[p].order;
      var wallet, key := if leg == CreditLeg then o.destination else o.source, A.MovementKey(p, leg);
      && (wallet, key) in w.accounts.index && wallet in w.accounts.wallets
      && var e := w.accounts.index[(wallet, key)];
      && e in w.accounts.wallets[wallet].log
      && View(w.accounts, o).Get(leg) == Some(e.reference)
      && e.amount == o.amount && e.currency == o.currency
      && e.flow == if leg == DebitLeg then A.DebitFlow else A.CreditFlow
  {
    RunKeepsWorld(GENESIS, run);
    RecordedEntry(TakeAll(GENESIS, run), p, leg);
  }

  lemma {:induction false} RecordedEntry(w: World, p: string, leg: Leg)
    requires A.Indexed(w.accounts) && EntriesOk(w) && OrdersOk(w) && p in w.payments
    requires View(w.accounts, w.payments[p].order).Get(leg).Some?
    ensures var o := w.payments[p].order;
      var wallet, key := if leg == CreditLeg then o.destination else o.source, A.MovementKey(p, leg);
      && (wallet, key) in w.accounts.index && wallet in w.accounts.wallets
      && var e := w.accounts.index[(wallet, key)];
      && e in w.accounts.wallets[wallet].log
      && View(w.accounts, o).Get(leg) == Some(e.reference)
      && e.amount == o.amount && e.currency == o.currency
      && e.flow == if leg == DebitLeg then A.DebitFlow else A.CreditFlow
  {
    var r := RequestOf(w.payments[p].order, leg);
    assert EntryExplained(w, r.wallet, r.key);
  }

  /** Among any number of concurrent payments: once a refund is being requested, that payment's credit never lands. */
  lemma {:induction false} SystemRefundExcludesCredit(run: seq<Step>, more: seq<Step>, p: string)
    requires LegalRun(GENESIS, run) && LegalRun(TakeAll(GENESIS, run), more) && p in TakeAll(GENESIS, run).payments
    requires var w := TakeAll(GENESIS, run); RefundIssued(w.payments[p], View(w.accounts, w.payments[p].order))
    ensures var w := TakeAll(GENESIS, run); View(TakeAll(w, more).accounts, w.payments[p].order).credit.None?
  {
    RunKeepsWorld(GENESIS, run);
    var w := TakeAll(GENESIS, run);
    assert PaymentOk(w, p);
    SystemRunIsProtocolRun(w, more, p);
    RefundBarsCredit(w.payments[p], View(w.accounts, w.payments[p].order), Own(more, p));
  }

  // --------------------------------------------------- references name entries

  lemma {:induction false} StepKeepsReferences(w: World, s: Step)
    requires A.ReferencesUnique(w.accounts) && Legal(w, s)
    ensures A.ReferencesUnique(Take(w, s).accounts)
  {
  }

  lemma {:induction false} RunKeepsReferences(w: World, run: seq<Step>)
    requires A.ReferencesUnique(w.accounts) && LegalRun(w, run)
    ensures A.ReferencesUnique(TakeAll(w, run).accounts)
    decreases |run|
  {
    if run != [] {
      StepKeepsReferences(w, run[0]);
      RunKeepsReferences(Take(w, run[0]), run[1..]);
    }
  }

  function StoredReference(s: Snapshot, leg: Leg): Option<string> {
    match leg
    case DebitLeg => s.debit
    case CreditLeg => s.credit
    case RefundLeg => s.refund
  }

  /**
   * A movement reference stored in any payment's row names that payment's entry for that leg, and no
   * other entry of accounts.
   */
  lemma {:induction false} StoredReferenceNamesOneEntry(run: seq<Step>, p: string, leg: Leg)
    requires LegalRun(GENESIS, run) && p in TakeAll(GENESIS, run).payments
    requires StoredReference(TakeAll(GENESIS, run).payments[p].stored, leg).Some?
    ensures var w := TakeAll(GENESIS, run); var l := w.payments[p]; var r := RequestOf(l.order, leg);
      var reference := StoredReference(l.stored, leg).value;
      && (r.wallet, r.key) in w.accounts.index
      && forall x :: x in w.accounts.index ==> (w.accounts.index[x].reference == reference <==> x == (r.wallet, r.key))
  {
    var w := TakeAll(GENESIS, run);
    RunKeepsWorld(GENESIS, run);
    RunKeepsReferences(GENESIS, run);
    assert PaymentOk(w, p);
    StoredIsPosted(w.payments[p], View(w.accounts, w.payments[p].order), leg);
    RecordedEntry(w, p, leg);
  }

  lemma {:induction false} StoredIsPosted(l: Local, q: Posted, leg: Leg)
    requires RowOk(l, q) && StoredReference(l.stored, leg).Some?
    ensures q.Get(leg) == StoredReference(l.stored, leg)
  {
  }
}
