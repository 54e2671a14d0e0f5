/**
 * The accounts service: wallets, their append-only ledger and the unique index
 * on (wallet, idempotency key). A movement is decided in two looks at the
 * database, `Precheck` and `InTransaction`, between which anything may commit.
 */
module AccountsLedger {
  import opened Wrappers
  import opened PaymentDomain
  import R = References

  datatype Flow = DebitFlow | CreditFlow

  datatype Key = OpeningKey(wallet: string) | MovementKey(payment: string, leg: Leg)

  datatype Entry = Entry(reference: string, key: Key, flow: Flow, amount: int, currency: string, before: int,
      after: int)

  datatype Wallet = Wallet(currency: string, active: bool, balance: int, reserved: int, log: seq<Entry>)

  datatype Accounts = Accounts(wallets: map<string, Wallet>, index: map<(string, Key), Entry>)

  datatype Request = Request(wallet: string, key: Key, flow: Flow, amount: int, currency: string)

  datatype Verdict = Accepted(entry: Entry) | Refused(reason: FailureReason) | KeyConflict

  const AMOUNT_MAX := 1_000_000_000_000

  /** What every service demands of an amount. */
  predicate ValidAmount(n: int) { 5 <= n <= AMOUNT_MAX && n % 5 == 0 }

  predicate WellKeyed(k: Key) {
    match k
    case OpeningKey(wallet) => R.Accepts("wlt", wallet)
    case MovementKey(payment, _) => R.Accepts("pay", payment)
  }

  /** What the generator returns for a new entry: well formed, and no entry of any wallet carries it. */
  predicate FreshReference(a: Accounts, reference: string) {
    R.Accepts("trx", reference) && forall x :: x in a.index ==> a.index[x].reference != reference
  }

  function Delta(flow: Flow, amount: int): int {
    if flow == CreditFlow then amount else -amount
  }

  function SameOperation(e: Entry, r: Request): bool {
    e.flow == r.flow && e.amount == r.amount && e.currency == r.currency
  }

  function Replay(e: Entry, r: Request): Verdict {
    if SameOperation(e, r) then Accepted(e) else KeyConflict
  }

  function AssertOperable(w: Wallet, r: Request): Option<FailureReason> {
    if !w.active then Some(WalletFrozen)
    else if w.currency != r.currency then Some(CurrencyMismatch)
    else None
  }

  /** The WHERE clause of the guarded UPDATE. */
  predicate GuardHolds(w: Wallet, r: Request) {
    var delta := Delta(r.flow, r.amount);
    w.active && w.currency == r.currency && (delta < 0 ==> w.balance - w.reserved >= -delta)
  }

  function NewEntry(w: Wallet, r: Request, reference: string): Entry {
    var after := w.balance + Delta(r.flow, r.amount);
    Entry(reference, r.key, r.flow, r.amount, r.currency, after - Delta(r.flow, r.amount), after)
  }

  /** Balance update and ledger row, committed together. */
  function Post(a: Accounts, r: Request, reference: string): Accounts
    requires r.wallet in a.wallets
  {
    var w := a.wallets[r.wallet];
    var e := NewEntry(w, r, reference);
    Accounts(a.wallets[r.wallet := w.(balance := e.after, log := w.log + [e])], a.index[(r.wallet, r.key) := e])
  }

  function Precheck(a: Accounts, r: Request): Option<Verdict> {
    if r.wallet !in a.wallets then Some(Refused(WalletNotFound))
    else if (r.wallet, r.key) in a.index then Some(Replay(a.index[(r.wallet, r.key)], r))
    else match AssertOperable(a.wallets[r.wallet], r)
         case Some(reason) => Some(Refused(reason))
         case None => None
  }

  /** Why the guarded UPDATE touched no row. */
  function RefusalReason(a: Accounts, r: Request): FailureReason {
    if r.wallet !in a.wallets then WalletNotFound
    else match AssertOperable(a.wallets[r.wallet], r)
         case Some(reason) => reason
         case None => InsufficientBalance
  }

  /** The transaction, and the fallback after a unique violation has rolled it back. */
  function InTransaction(a: Accounts, r: Request, reference: string): (Accounts, Verdict) {
    if r.wallet !in a.wallets || !GuardHolds(a.wallets[r.wallet], r) then (a, Refused(RefusalReason(a, r)))
    else if (r.wallet, r.key) in a.index then (a, Replay(a.index[(r.wallet, r.key)], r))
    else (Post(a, r, reference), Accepted(NewEntry(a.wallets[r.wallet], r, reference)))
  }

  function Apply(a: Accounts, r: Request, reference: string): (Accounts, Verdict) {
    match Precheck(a, r)
    case Some(v) => (a, v)
    case None => InTransaction(a, r, reference)
  }

  /**
   * Which verdict a movement gets, read off the columns. A recorded key is
   * answered by its entry alone; a new one is refused for the first of: no such
   * wallet, frozen, another currency, too little above what is reserved.
   */
  ghost predicate VerdictFits(a: Accounts, r: Request, reference: string, v: Verdict) {
    if r.wallet !in a.wallets then v == Refused(WalletNotFound)
    else if (r.wallet, r.key) in a.index then
      var e := a.index[(r.wallet, r.key)];
      v == if e.flow == r.flow && e.amount == r.amount && e.currency == r.currency then Accepted(e) else KeyConflict
    else
      var w := a.wallets[r.wallet];
      var short := r.flow == DebitFlow && w.balance - w.reserved < r.amount;
      && (v == Refused(WalletFrozen) <==> !w.active)
      && (v == Refused(CurrencyMismatch) <==> w.active && w.currency != r.currency)
      && (v == Refused(InsufficientBalance) <==> w.active && w.currency == r.currency && short)
      && (v.Accepted? <==> w.active && w.currency == r.currency && !short)
      && (v.Accepted? ==>
            v.entry == Entry(reference, r.key, r.flow, r.amount, r.currency, w.balance,
                             if r.flow == DebitFlow then w.balance - r.amount else w.balance + r.amount))
  }

  lemma {:induction false} VerdictIsReadOffColumns(a: Accounts, r: Request, reference: string)
    requires r.amount > 0
    ensures VerdictFits(a, r, reference, Apply(a, r, reference).1)
  {
  }

  /**
   * Inside the transaction the guard comes first: a movement that is recorded
   * already is still refused when the wallet would not let it through again.
   */
  lemma {:induction false} TransactionVerdict(a: Accounts, r: Request, reference: string)
    requires r.amount > 0
    ensures var v := InTransaction(a, r, reference).1;
      if r.wallet !in a.wallets then v == Refused(WalletNotFound)
      else
        var w := a.wallets[r.wallet];
        var short := r.flow == DebitFlow && w.balance - w.reserved < r.amount;
        && (v == Refused(WalletFrozen) <==> !w.active)
        && (v == Refused(CurrencyMismatch) <==> w.active && w.currency != r.currency)
        && (v == Refused(InsufficientBalance) <==> w.active && w.currency == r.currency && short)
        && (v.Refused? <==> !w.active || w.currency != r.currency || short)
        && (!v.Refused? ==> VerdictFits(a, r, reference, v))
  {
  }

  function OpeningEntry(name: string, currency: string, opening: nat, reference: string): Entry {
    Entry(reference, OpeningKey(name), CreditFlow, opening, currency, 0, opening)
  }

  /** A new wallet; a positive opening balance comes with the ledger row that explains it. */
  function Open(a: Accounts, name: string, currency: string, opening: nat, reference: string): Accounts {
    var e := OpeningEntry(name, currency, opening, reference);
    var log := if opening > 0 then [e] else [];
    Accounts(a.wallets[name := Wallet(currency, true, opening, 0, log)],
             if opening > 0 then a.index[(name, e.key) := e] else a.index)
  }

  function SetActive(a: Accounts, name: string, active: bool): Accounts
    requires name in a.wallets
  {
    a.(wallets := a.wallets[name := a.wallets[name].(active := active)])
  }

  // --------------------------------------------------------------- invariant

  function Last(log: seq<Entry>): int {
    if log == [] then 0 else log[|log| - 1].after
  }

  function SignedSum(log: seq<Entry>): int {
    if log == [] then 0 else SignedSum(log[..|log| - 1]) + Delta(log[|log| - 1].flow, log[|log| - 1].amount)
  }

  ghost predicate Chained(log: seq<Entry>) {
    forall i :: 0 <= i < |log| ==>
      log[i].before == Last(log[..i]) && log[i].after == log[i].before + Delta(log[i].flow, log[i].amount)
  }

  ghost predicate OncePerKey(log: seq<Entry>) {
    forall i, j :: 0 <= i < j < |log| ==> log[i].key != log[j].key
  }

  ghost predicate WalletOk(w: Wallet) {
    && Chained(w.log) && OncePerKey(w.log)
    && (forall i :: 0 <= i < |w.log| ==> w.log[i].after >= 0)
    && w.balance == Last(w.log)
    && 0 <= w.reserved <= w.balance
  }

  ghost predicate Indexed(a: Accounts) {
    && (forall n, k :: (n, k) in a.index ==>
          n in a.wallets && a.index[(n, k)] in a.wallets[n].log && a.index[(n, k)].key == k)
    && (forall n, i :: n in a.wallets && 0 <= i < |a.wallets[n].log| ==>
          var e := a.wallets[n].log[i]; (n, e.key) in a.index && a.index[(n, e.key)] == e)
  }

  ghost predicate AccountsOk(a: Accounts) {
    Indexed(a) && forall n :: n in a.wallets ==> WalletOk(a.wallets[n])
  }

  lemma {:induction false} ChainSums(log: seq<Entry>)
    requires Chained(log)
    ensures Last(log) == SignedSum(log)
  {
    if log != [] {
      var init := log[..|log| - 1];
      assert forall i :: 0 <= i < |init| ==> init[..i] == log[..i];
      ChainSums(init);
    }
  }

  lemma {:induction false} ExtendWallet(w: Wallet, e: Entry)
    requires WalletOk(w) && e.before == w.balance && e.after == e.before + Delta(e.flow, e.amount)
    requires e.after >= w.reserved && forall i :: 0 <= i < |w.log| ==> w.log[i].key != e.key
    ensures WalletOk(w.(balance := e.after, log := w.log + [e]))
  {
    var log := w.log + [e];
    forall i | 0 <= i < |log|
      ensures log[i].before == Last(log[..i]) && log[i].after == log[i].before + Delta(log[i].flow, log[i].amount)
    {
      assert i < |w.log| ==> log[..i] == w.log[..i];
      assert log[..|w.log|] == w.log;
    }
  }

  lemma {:induction false} PostKeeps(a: Accounts, r: Request, reference: string)
    requires AccountsOk(a) && r.wallet in a.wallets && (r.wallet, r.key) !in a.index
    requires GuardHolds(a.wallets[r.wallet], r) && (r.flow == CreditFlow ==> r.amount >= 0)
    ensures AccountsOk(Post(a, r, reference))
  {
    var w := a.wallets[r.wallet];
    var e := NewEntry(w, r, reference);
    var b := Post(a, r, reference);
    assert forall i :: 0 <= i < |w.log| ==> (r.wallet, w.log[i].key) in a.index;
    ExtendWallet(w, e);
    PostIndexed(a, r, reference);
  }

  lemma {:induction false} PostIndexed(a: Accounts, r: Request, reference: string)
    requires Indexed(a) && r.wallet in a.wallets && (r.wallet, r.key) !in a.index
    ensures Indexed(Post(a, r, reference))
  {
    var w := a.wallets[r.wallet];
    var e := NewEntry(w, r, reference);
    var b := Post(a, r, reference);
    forall n, k | (n, k) in b.index
      ensures n in b.wallets && b.index[(n, k)] in b.wallets[n].log && b.index[(n, k)].key == k
    {
      if (n, k) == (r.wallet, r.key) {
        assert b.wallets[n].log[|w.log|] == e;
      } else {
        assert (n, k) in a.index;
        assert forall x :: x in a.wallets[n].log ==> x in b.wallets[n].log;
      }
    }
    forall n, i | n in b.wallets && 0 <= i < |b.wallets[n].log|
      ensures var x := b.wallets[n].log[i]; (n, x.key) in b.index && b.index[(n, x.key)] == x
    {
      if n != r.wallet || i < |w.log| {
        assert b.wallets[n].log[i] == a.wallets[n].log[i];
      }
    }
  }

  lemma {:induction false} OpenKeeps(a: Accounts, name: string, currency: string, opening: nat, reference: string)
    requires AccountsOk(a) && name !in a.wallets
    ensures AccountsOk(Open(a, name, currency, opening, reference))
  {
    var b := Open(a, name, currency, opening, reference);
    assert forall k :: (name, k) !in a.index;
    assert b.wallets[name].log[..0] == [];
  }

  lemma {:induction false} SetActiveKeeps(a: Accounts, name: string, active: bool)
    requires AccountsOk(a) && name in a.wallets
    ensures AccountsOk(SetActive(a, name, active))
  {
    var b := SetActive(a, name, active);
    assert forall n :: n in b.wallets ==> b.wallets[n].log == a.wallets[n].log;
  }

  // -------------------------------------------------------------------- runs

  datatype Op =
    | OpenWallet(name: string, currency: string, opening: nat, reference: string)
    | ChangeStatus(name: string, active: bool)
    | Move(request: Request, reference: string)

  predicate Legal(a: Accounts, op: Op) {
    match op
    case OpenWallet(name, _, opening, reference) =>
      && name !in a.wallets && R.Accepts("wlt", name) && opening <= AMOUNT_MAX
      && (opening > 0 ==> FreshReference(a, reference))
    case ChangeStatus(name, _) => name in a.wallets
    case Move(r, reference) => ValidAmount(r.amount) && WellKeyed(r.key) && FreshReference(a, reference)
  }

  function Execute(a: Accounts, op: Op): Accounts
    requires Legal(a, op)
  {
    match op
    case OpenWallet(name, currency, opening, reference) => Open(a, name, currency, opening, reference)
    case ChangeStatus(name, active) => SetActive(a, name, active)
    case Move(r, reference) => InTransaction(a, r, reference).0
  }

  predicate LegalRun(a: Accounts, ops: seq<Op>)
    decreases |ops|
  {
    ops == [] || (Legal(a, ops[0]) && LegalRun(Execute(a, ops[0]), ops[1..]))
  }

  function ExecuteAll(a: Accounts, ops: seq<Op>): Accounts
    requires LegalRun(a, ops)
    decreases |ops|
  {
    if ops == [] then a else ExecuteAll(Execute(a, ops[0]), ops[1..])
  }

  const NO_ACCOUNTS := Accounts(map[], map[])

  lemma {:induction false} ExecuteKeeps(a: Accounts, op: Op)
    requires AccountsOk(a) && Legal(a, op)
    ensures AccountsOk(Execute(a, op))
  {
    match op
    case OpenWallet(name, currency, opening, reference) => OpenKeeps(a, name, currency, opening, reference);
    case ChangeStatus(name, active) => SetActiveKeeps(a, name, active);
    case Move(r, reference) =>
      if r.wallet in a.wallets && GuardHolds(a.wallets[r.wallet], r) && (r.wallet, r.key) !in a.index {
        PostKeeps(a, r, reference);
      }
  }

  lemma {:induction false} RunKeepsOk(a: Accounts, ops: seq<Op>)
    requires AccountsOk(a) && LegalRun(a, ops)
    ensures AccountsOk(ExecuteAll(a, ops))
    decreases |ops|
  {
    if ops != [] {
      ExecuteKeeps(a, ops[0]);
      RunKeepsOk(Execute(a, ops[0]), ops[1..]);
    }
  }

  lemma {:induction false} WalletStory(w: Wallet)
    requires WalletOk(w)
    ensures forall i :: 0 <= i < |w.log| ==> w.log[i].before == if i == 0 then 0 else w.log[i - 1].after
    ensures w.balance == SignedSum(w.log)
  {
    ChainSums(w.log);
    forall i | 0 <= i < |w.log| ensures w.log[i].before == if i == 0 then 0 else w.log[i - 1].after {
      assert w.log[i].before == Last(w.log[..i]);
    }
  }

  /**
   * Whatever the order of openings, freezes and movements: one entry per key and
   * wallet, entries chained from zero, a balance equal to their signed sum and
   * never below what is reserved.
   */
  lemma {:induction false} LedgerExplainsBalance(ops: seq<Op>, name: string)
    requires LegalRun(NO_ACCOUNTS, ops) && name in ExecuteAll(NO_ACCOUNTS, ops).wallets
    ensures var w := ExecuteAll(NO_ACCOUNTS, ops).wallets[name];
      && (forall i, j :: 0 <= i < j < |w.log| ==> w.log[i].key != w.log[j].key)
      && (forall i :: 0 <= i < |w.log| ==> w.log[i].before == if i == 0 then 0 else w.log[i - 1].after)
      && w.balance == SignedSum(w.log)
      && w.balance >= w.reserved >= 0
  {
    RunKeepsOk(NO_ACCOUNTS, ops);
    WalletStory(ExecuteAll(NO_ACCOUNTS, ops).wallets[name]);
  }

  // ------------------------------------------------------- unique references

  ghost predicate ReferencesUnique(a: Accounts) {
    forall x, y :: x in a.index && y in a.index && a.index[x].reference == a.index[y].reference ==> x == y
  }

  lemma {:induction false} ExecuteKeepsReferences(a: Accounts, op: Op)
    requires ReferencesUnique(a) && Legal(a, op)
    ensures ReferencesUnique(Execute(a, op))
  {
  }

  /** Over all wallets together, a reference names one entry. */
  lemma {:induction false} RunKeepsReferences(a: Accounts, ops: seq<Op>)
    requires ReferencesUnique(a) && LegalRun(a, ops)
    ensures ReferencesUnique(ExecuteAll(a, ops))
    decreases |ops|
  {
    if ops != [] {
      ExecuteKeepsReferences(a, ops[0]);
      RunKeepsReferences(Execute(a, ops[0]), ops[1..]);
    }
  }
}
