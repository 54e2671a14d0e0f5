/**
 * The whole system: the accounts database and every payment, each with its own
 * workers, requests and outbox. Steps of different payments, wallet openings,
 * freezes and deliveries interleave freely.
 */
module PaymentWorld {
  import opened Wrappers
  import opened PaymentDomain
  import opened SagaProtocol
  import A = AccountsLedger
  import R = References

  datatype World = World(accounts: A.Accounts, payments: map<string, Local>)

  datatype Step =
    | OpenWallet(name: string, currency: string, opening: nat, reference: string)
    | ChangeStatus(name: string, active: bool)
    | Initiate(order: Order)
    | Act(payment: string, action: Action)

  const GENESIS := World(A.NO_ACCOUNTS, map[])

  /** What `movement` puts in the body of the request for one leg. */
  function RequestOf(o: Order, leg: Leg): A.Request {
    match leg
    case DebitLeg => A.Request(o.source, A.MovementKey(o.reference, leg), A.DebitFlow, o.amount, o.currency)
    case CreditLeg => A.Request(o.destination, A.MovementKey(o.reference, leg), A.CreditFlow, o.amount, o.currency)
    case RefundLeg => A.Request(o.source, A.MovementKey(o.reference, leg), A.CreditFlow, o.amount, o.currency)
  }

  /** The answer of GET movements/:key for this leg. */
  function Recorded(a: A.Accounts, o: Order, leg: Leg): Option<string> {
    var r := RequestOf(o, leg);
    if (r.wallet, r.key) in a.index then Some(a.index[(r.wallet, r.key)].reference) else None
  }

  function View(a: A.Accounts, o: Order): Posted {
    Posted(Recorded(a, o, DebitLeg), Recorded(a, o, CreditLeg), Recorded(a, o, RefundLeg))
  }

  /** What the creating handler demands: `Money.of`, `Reference.of` and `Payment.initiate`. */
  predicate Initiable(o: Order) {
    && o.amount >= 5 && o.amount % 5 == 0 && o.source != o.destination
    && R.Accepts("wlt", o.source) && R.Accepts("wlt", o.destination)
  }

  /** What the API checks before that, and the handler does not. */
  predicate Requested(o: Order) {
    o.amount <= A.AMOUNT_MAX && R.IsTransactionId(o.transactionId)
  }

  /** A payment as it is created: checked, and under a generated reference. */
  predicate ValidOrder(o: Order) {
    Initiable(o) && Requested(o) && R.Accepts("pay", o.reference)
  }

  /**
   * Movements take effect and are replayed only as accounts decides. A refusal,
   * and a request that comes to nothing, are possible at any time: a refusal may
   * rest on a stale look at a wallet.
   */
  predicate Possible(a: A.Accounts, r: A.Request, outcome: Outcome) {
    match outcome
    case Applied(reference) =>
      A.Precheck(a, r).None? && r.wallet in a.wallets
      && A.GuardHolds(a.wallets[r.wallet], r) && A.FreshReference(a, reference)
    case Replayed(reference) =>
      (r.wallet, r.key) in a.index && A.Replay(a.index[(r.wallet, r.key)], r).Accepted?
    case Rejected(_) => true
    case Failed => true
  }

  predicate Legal(w: World, s: Step) {
    match s
    case OpenWallet(name, _, opening, reference) =>
      && name !in w.accounts.wallets && R.Accepts("wlt", name) && opening <= A.AMOUNT_MAX
      && (opening > 0 ==> A.FreshReference(w.accounts, reference))
    case ChangeStatus(name, _) => name in w.accounts.wallets
    case Initiate(o) => ValidOrder(o) && o.reference !in w.payments
    case Act(p, a) =>
      p in w.payments
      && var l := w.payments[p];
      && Enabled(l, View(w.accounts, l.order), a)
      && (a.Deliver? ==> Possible(w.accounts, RequestOf(l.order, l.wire[a.request]), a.outcome))
  }

  function Take(w: World, s: Step): World
    requires Legal(w, s)
  {
    match s
    case OpenWallet(name, currency, opening, reference) =>
      w.(accounts := A.Open(w.accounts, name, currency, opening, reference))
    case ChangeStatus(name, active) => w.(accounts := A.SetActive(w.accounts, name, active))
    case Initiate(o) => w.(payments := w.payments[o.reference := Created(o)])
    case Act(p, a) =>
      var l := w.payments[p];
      World(
        if a.Deliver? && a.outcome.Applied?
        then A.Post(w.accounts, RequestOf(l.order, l.wire[a.request]), a.outcome.reference) else w.accounts,
        w.payments[p := Next(l, View(w.accounts, l.order), a)])
  }

  // --------------------------------------------------------------- invariant

  /** Every ledger entry is an opening, or a leg of a known payment: right wallet, direction, amount and currency. */
  ghost predicate EntryExplained(w: World, n: string, k: A.Key)
    requires (n, k) in w.accounts.index
  {
    match k
    case OpeningKey(name) => name == n
    case MovementKey(p, leg) =>
      p in w.payments
      && var r := RequestOf(w.payments[p].order, leg);
      r.wallet == n && r.key == k && A.SameOperation(w.accounts.index[(n, k)], r)
  }

  ghost predicate EntriesOk(w: World) {
    forall n, k :: (n, k) in w.accounts.index ==> EntryExplained(w, n, k)
  }

  ghost predicate OrdersOk(w: World) {
    forall p :: p in w.payments ==> w.payments[p].order.reference == p && ValidOrder(w.payments[p].order)
  }

  ghost predicate PaymentOk(w: World, p: string)
    requires p in w.payments
  {
    Inv(w.payments[p], View(w.accounts, w.payments[p].order))
  }

  ghost predicate WorldOk(w: World) {
    A.AccountsOk(w.accounts) && EntriesOk(w) && OrdersOk(w) && forall p :: p in w.payments ==> PaymentOk(w, p)
  }

  lemma {:induction false} OrderStays(l: Local, p: Posted, a: Action)
    requires Enabled(l, p, a)
    ensures Next(l, p, a).order == l.order
  {
  }

  lemma {:induction false} ActKeepsEntries(w: World, p: string, a: Action)
    requires EntriesOk(w) && OrdersOk(w) && Legal(w, Act(p, a))
    ensures EntriesOk(Take(w, Act(p, a))) && OrdersOk(Take(w, Act(p, a)))
  {
    var l := w.payments[p];
    var v := Take(w, Act(p, a));
    OrderStays(l, View(w.accounts, l.order), a);
    assert forall q :: q in v.payments <==> q in w.payments;
    assert forall q :: q in w.payments ==> v.payments[q].order == w.payments[q].order;
    forall n, k | (n, k) in v.accounts.index ensures EntryExplained(v, n, k) {
      if (n, k) in w.accounts.index {
        assert EntryExplained(w, n, k);
      }
    }
  }

  /** A step of one payment shows in its own view of the ledger, as the protocol says, and in no other. */
  lemma {:induction false} ActShowsInOneView(w: World, p: string, a: Action, q: string)
    requires OrdersOk(w) && Legal(w, Act(p, a)) && q in w.payments
    ensures View(Take(w, Act(p, a)).accounts, w.payments[q].order) ==
            if q == p then NextPosted(w.payments[p], View(w.accounts, w.payments[p].order), a)
            else View(w.accounts, w.payments[q].order)
  {
    if a.Deliver? {
      var leg := w.payments[p].wire[a.request];
      assert leg == DebitLeg || leg == CreditLeg || leg == RefundLeg;
    }
  }

  lemma {:induction false} ActKeepsAccounts(w: World, p: string, a: Action)
    requires A.AccountsOk(w.accounts) && OrdersOk(w) && Legal(w, Act(p, a))
    ensures A.AccountsOk(Take(w, Act(p, a)).accounts)
  {
    if a.Deliver? && a.outcome.Applied? {
      ApplyKeepsAccounts(w, w.payments[p].order, w.payments[p].wire[a.request], a.outcome.reference);
    }
  }

  lemma {:induction false} ApplyKeepsAccounts(w: World, o: Order, leg: Leg, reference: string)
    requires A.AccountsOk(w.accounts) && ValidOrder(o) && Possible(w.accounts, RequestOf(o, leg), Applied(reference))
    ensures A.AccountsOk(A.Post(w.accounts, RequestOf(o, leg), reference))
  {
    A.PostKeeps(w.accounts, RequestOf(o, leg), reference);
  }

  lemma {:induction false} ActKeepsPayment(w: World, p: string, a: Action, q: string)
    requires OrdersOk(w) && Legal(w, Act(p, a)) && q in w.payments
    requires PaymentOk(w, p) && PaymentOk(w, q)
    ensures PaymentOk(Take(w, Act(p, a)), q)
  {
    ActShowsInOneView(w, p, a, q);
    if q == p {
      StepKeeps(w.payments[p], View(w.accounts, w.payments[p].order), a);
      OrderStays(w.payments[p], View(w.accounts, w.payments[p].order), a);
    }
  }

  lemma {:induction false} ActKeeps(w: World, p: string, a: Action)
    requires WorldOk(w) && Legal(w, Act(p, a))
    ensures WorldOk(Take(w, Act(p, a)))
  {
    var v := Take(w, Act(p, a));
    ActKeepsEntries(w, p, a);
    ActKeepsAccounts(w, p, a);
    forall q | q in v.payments ensures PaymentOk(v, q) {
      ActKeepsPayment(w, p, a, q);
    }
  }

  lemma {:induction false} TakeKeeps(w: World, s: Step)
    requires WorldOk(w) && Legal(w, s)
    ensures WorldOk(Take(w, s))
  {
    var v := Take(w, s);
    match s
    case OpenWallet(name, currency, opening, reference) =>
      A.OpenKeeps(w.accounts, name, currency, opening, reference);
      OpenKeepsViews(w, s);
      forall q | q in v.payments ensures PaymentOk(v, q) {
        assert PaymentOk(w, q);
      }
    case ChangeStatus(name, active) =>
      A.SetActiveKeeps(w.accounts, name, active);
      StatusKeeps(w, name, active);
    case Initiate(o) =>
      InitiateKeeps(w, o);
    case Act(p, a) => ActKeeps(w, p, a);
  }

  lemma {:induction false} StatusKeeps(w: World, name: string, active: bool)
    requires WorldOk(w) && Legal(w, ChangeStatus(name, active))
    ensures var v := Take(w, ChangeStatus(name, active));
      EntriesOk(v) && OrdersOk(v) && forall p :: p in v.payments ==> PaymentOk(v, p)
  {
    var v := Take(w, ChangeStatus(name, active));
    assert v.accounts.index == w.accounts.index && v.payments == w.payments;
    SameIndexSameEntries(w, v);
    forall q | q in v.payments ensures PaymentOk(v, q) {
      assert PaymentOk(w, q);
      assert View(v.accounts, v.payments[q].order) == View(w.accounts, w.payments[q].order);
    }
  }

  lemma {:induction false} SameIndexSameEntries(w: World, v: World)
    requires EntriesOk(w) && v.accounts.index == w.accounts.index && v.payments == w.payments
    ensures EntriesOk(v)
  {
    forall n, k | (n, k) in v.accounts.index ensures EntryExplained(v, n, k) {
      assert EntryExplained(w, n, k);
    }
  }

  lemma {:induction false} OpenKeepsViews(w: World, s: Step)
    requires EntriesOk(w) && Legal(w, s) && s.OpenWallet?
    ensures EntriesOk(Take(w, s))
    ensures forall o: Order :: View(Take(w, s).accounts, o) == View(w.accounts, o)
  {
    var v := Take(w, s);
    forall n, k | (n, k) in v.accounts.index ensures EntryExplained(v, n, k) {
      if (n, k) in w.accounts.index {
        assert EntryExplained(w, n, k);
      }
    }
  }

  lemma {:induction false} FreshOrderHasNothingPosted(w: World, o: Order)
    requires EntriesOk(w) && o.reference !in w.payments
    ensures View(w.accounts, o) == NOTHING_POSTED
  {
    assert forall n, leg: Leg :: (n, A.MovementKey(o.reference, leg)) in w.accounts.index ==>
        EntryExplained(w, n, A.MovementKey(o.reference, leg));
  }

  lemma {:induction false} InitiateKeeps(w: World, o: Order)
    requires WorldOk(w) && Legal(w, Initiate(o))
    ensures WorldOk(Take(w, Initiate(o)))
  {
    var v := Take(w, Initiate(o));
    InitiateKeepsEntries(w, o);
    FreshOrderHasNothingPosted(w, o);
    InvInit(o);
    forall q | q in v.payments ensures PaymentOk(v, q) {
      if q != o.reference {
        assert PaymentOk(w, q);
      }
    }
  }

  lemma {:induction false} InitiateKeepsEntries(w: World, o: Order)
    requires EntriesOk(w) && OrdersOk(w) && Legal(w, Initiate(o))
    ensures EntriesOk(Take(w, Initiate(o))) && OrdersOk(Take(w, Initiate(o)))
  {
    var v := Take(w, Initiate(o));
    forall n, k | (n, k) in v.accounts.index ensures EntryExplained(v, n, k) {
      assert EntryExplained(w, n, k);
    }
  }
}
