/**
 * Balances are bigints in the database and JavaScript numbers in the service.
 * Reading one rounds it to the nearest double, and the balance before a movement
 * is got back from the one after it by a subtraction of doubles.
 */
module NumberExactness {
  import opened PaymentDomain
  import opened AccountsLedger
  import opened Powers
  import R = References

  const TWO_TO_THE_53 := 9_007_199_254_740_992
  const MAX_SAFE_INTEGER := TWO_TO_THE_53 - 1

  // -------------------------------------------------------------- doubles

  /** The distance between neighbouring doubles around `n`, as far as integers are concerned. */
  function Spacing(n: nat): (s: nat)
    ensures s > 0
  {
    if n < TWO_TO_THE_53 then 1 else 2 * Spacing(n / 2)
  }

  /** Round to nearest, ties to even. */
  function Nearest(n: nat): int {
    var s := Spacing(n);
    var down := n / s;
    if 2 * (n % s) < s || (2 * (n % s) == s && down % 2 == 0) then down * s else (down + 1) * s
  }

  lemma {:induction false} HalvesDivide(n: nat, s: nat)
    requires s > 0
    ensures n / (2 * s) == n / 2 / s
  {
    var q, r := n / 2 / s, n / 2 % s;
    assert n == 2 * s * q + (2 * r + n % 2);
    QuotientIs(n, 2 * s, q, 2 * r + n % 2);
  }

  lemma {:induction false} QuotientIs(n: nat, d: nat, q: nat, r: nat)
    requires d > 0 && n == d * q + r && r < d
    ensures n / d == q
  {
    if n / d < q {
      QuotientGap(d, n / d, q);
    } else if n / d > q {
      QuotientGap(d, q, n / d);
    }
  }

  lemma {:induction false} QuotientGap(d: nat, a: nat, b: nat)
    requires a < b
    ensures d * a + d <= d * b
  {
    assert d * (b - a - 1) >= 0;
  }

  /** Neighbouring doubles are as far apart as a 53-bit significand makes them, a power of two. */
  lemma {:induction false} SpacingFits(n: nat)
    ensures n < TWO_TO_THE_53 ==> Spacing(n) == 1
    ensures n >= TWO_TO_THE_53 ==> TWO_TO_THE_53 <= 2 * (n / Spacing(n)) && n / Spacing(n) < TWO_TO_THE_53
    ensures exists k: nat :: Spacing(n) == Pow2(k)
  {
    if n < TWO_TO_THE_53 {
      assert Spacing(n) == Pow2(0);
    } else {
      SpacingFits(n / 2);
      HalvesDivide(n, Spacing(n / 2));
      var k: nat :| Spacing(n / 2) == Pow2(k);
      assert Spacing(n) == Pow2(k + 1);
      if n / 2 < TWO_TO_THE_53 {
        assert n / 2 / 1 == n / 2;
      }
    }
  }

  /** The rounded number is a double, no double is nearer, and of two equally near it is the even one. */
  lemma {:induction false} NearestIsNearest(n: nat)
    ensures var s: int, off := Spacing(n), Nearest(n) - n;
      && Nearest(n) % s == 0
      && -s <= 2 * off <= s
      && (2 * off == s || 2 * off == -s ==> Nearest(n) / s % 2 == 0)
  {
    var s := Spacing(n);
    var down := n / s;
    assert n == s * down + n % s;
    MultipleOf(s, down);
    MultipleOf(s, down + 1);
  }

  lemma {:induction false} MultipleOf(s: nat, q: nat)
    requires s > 0
    ensures (q * s) % s == 0 && (q * s) / s == q && (q + 1) * s == q * s + s
  {
    QuotientIs(q * s, s, q, 0);
  }

  /** `Number(text)` of an integer, and the result of integer arithmetic on numbers. */
  function ToNumber(x: int): int {
    if x < 0 then -Nearest(-x) else Nearest(x)
  }

  /** `balance_after - delta`, as the service computes it from what the database returns. */
  function RecoveredBefore(after: int, delta: int): int {
    ToNumber(ToNumber(after) - ToNumber(delta))
  }

  lemma {:induction false} SafeIntegersAreExact(x: int)
    requires -MAX_SAFE_INTEGER <= x <= MAX_SAFE_INTEGER
    ensures ToNumber(x) == x
  {
    var n := if x < 0 then -x else x;
    assert Spacing(n) == 1;
  }

  // ------------------------------------------------------------- the bound

  function Credits(log: seq<Entry>): nat {
    if log == [] then 0
    else Credits(log[..|log| - 1]) + if log[|log| - 1].flow == CreditFlow then 1 else 0
  }

  ghost predicate AmountsInRange(log: seq<Entry>) {
    forall i :: 0 <= i < |log| ==> 0 <= log[i].amount <= AMOUNT_MAX
  }

  lemma {:induction false} BalanceBelowCredits(log: seq<Entry>)
    requires AmountsInRange(log)
    ensures SignedSum(log) <= Credits(log) * AMOUNT_MAX
  {
    if log != [] {
      BalanceBelowCredits(log[..|log| - 1]);
    }
  }

  lemma {:induction false} PrefixBound(w: Wallet, i: nat)
    requires WalletOk(w) && i <= |w.log| && AmountsInRange(w.log)
    ensures 0 <= Last(w.log[..i]) <= Credits(w.log[..i]) * AMOUNT_MAX
  {
    var prefix := w.log[..i];
    assert forall j :: 0 <= j < |prefix| ==> prefix[..j] == w.log[..j];
    ChainSums(prefix);
    BalanceBelowCredits(prefix);
  }

  /**
   * Up to the 9007th credit of at most AMOUNT_MAX, both balances of every entry
   * are safe integers, reading one back is exact, and the subtraction gives the
   * true balance before.
   */
  lemma {:induction false} BalancesStayExact(w: Wallet, i: nat)
    requires WalletOk(w) && i < |w.log| && Credits(w.log[..i + 1]) <= 9007 && AmountsInRange(w.log)
    ensures var e := w.log[i]; var delta := Delta(e.flow, e.amount);
      && 0 <= e.before <= MAX_SAFE_INTEGER && 0 <= e.after <= MAX_SAFE_INTEGER
      && ToNumber(e.after) == e.after
      && RecoveredBefore(e.after, delta) == e.before == if i == 0 then 0 else w.log[i - 1].after
  {
    var e := w.log[i];
    PrefixBound(w, i);
    PrefixBound(w, i + 1);
    assert w.log[..i + 1][..i] == w.log[..i];
    assert Credits(w.log[..i]) <= Credits(w.log[..i + 1]);
    SafeIntegersAreExact(e.after);
    SafeIntegersAreExact(Delta(e.flow, e.amount));
    SafeIntegersAreExact(e.before);
  }

  // ------------------------------------------------------ and it is tight

  /** The `j`th deposit, under a payment reference and with an entry reference of its own. */
  function Deposit(name: string, currency: string, j: nat, amount: nat): Op {
    Move(Request(name, MovementKey(R.NameAt("pay", j), CreditLeg), CreditFlow, amount, currency),
        R.NameAt("trx", j + 1))
  }

  lemma {:induction false} OneMoreOp(a: Accounts, ops: seq<Op>, op: Op)
    requires LegalRun(a, ops) && Legal(ExecuteAll(a, ops), op)
    ensures LegalRun(a, ops + [op]) && ExecuteAll(a, ops + [op]) == Execute(ExecuteAll(a, ops), op)
    decreases |ops|
  {
    var run := ops + [op];
    if ops == [] {
      assert run == [op] && run[1..] == [];
    } else {
      OneMoreOp(Execute(a, ops[0]), ops[1..], op);
      assert run[0] == ops[0] && run[1..] == ops[1..] + [op];
    }
  }

  /** Only names up to the `n`th are in use. */
  ghost predicate NamesUsed(a: Accounts, n: nat) {
    && (forall x :: x in a.index ==> exists i: nat :: i <= n && a.index[x].reference == R.NameAt("trx", i))
    && (forall m, p, leg :: (m, MovementKey(p, leg)) in a.index ==> exists i: nat :: i < n && p == R.NameAt("pay", i))
  }

  /** `n` deposits made: an active wallet of `n + 1` credits. */
  ghost predicate Filled(a: Accounts, name: string, currency: string, n: nat) {
    && name in a.wallets
    && var w := a.wallets[name];
    && w.active && w.currency == currency
    && w.balance == (n + 1) * AMOUNT_MAX && Credits(w.log) == n + 1 && AmountsInRange(w.log)
    && NamesUsed(a, n)
  }

  lemma {:induction false} NextNamesAreFree(a: Accounts, name: string, n: nat)
    requires NamesUsed(a, n) && n + 1 < R.Pow32(R.TIME_LENGTH)
    ensures FreshReference(a, R.NameAt("trx", n + 1))
    ensures R.Accepts("pay", R.NameAt("pay", n)) && (name, MovementKey(R.NameAt("pay", n), CreditLeg)) !in a.index
  {
    R.NameIsAccepted("trx", n + 1);
    R.NameIsAccepted("pay", n);
    forall x | x in a.index ensures a.index[x].reference != R.NameAt("trx", n + 1) {
      var i: nat :| i <= n && a.index[x].reference == R.NameAt("trx", i);
      R.NamesDiffer("trx", i, n + 1);
    }
    if (name, MovementKey(R.NameAt("pay", n), CreditLeg)) in a.index {
      var i: nat :| i < n && R.NameAt("pay", n) == R.NameAt("pay", i);
      R.NamesDiffer("pay", i, n);
    }
  }

  lemma {:induction false} DepositAppends(a: Accounts, name: string, currency: string, n: nat, amount: nat)
    requires Filled(a, name, currency, n) && n + 1 < R.Pow32(R.TIME_LENGTH) && ValidAmount(amount)
    ensures Legal(a, Deposit(name, currency, n, amount))
    ensures var b := Execute(a, Deposit(name, currency, n, amount)); var w := a.wallets[name];
      && name in b.wallets
      && var v := b.wallets[name];
      && |v.log| == |w.log| + 1 && v.log[..|w.log|] == w.log
      && v.balance == w.balance + amount && v == w.(balance := v.balance, log := v.log)
      && v.log[|w.log|].flow == CreditFlow && v.log[|w.log|].amount == amount
      && v.log[|w.log|].before == w.balance && v.log[|w.log|].after == v.balance
      && b == Post(a, Deposit(name, currency, n, amount).request, R.NameAt("trx", n + 1))
  {
    NextNamesAreFree(a, name, n);
  }

  lemma {:induction false} DepositUsesItsNames(a: Accounts, name: string, currency: string, n: nat, amount: nat)
    requires name in a.wallets && NamesUsed(a, n)
    ensures NamesUsed(Post(a, Deposit(name, currency, n, amount).request, R.NameAt("trx", n + 1)), n + 1)
  {
    var key := MovementKey(R.NameAt("pay", n), CreditLeg);
    var b := Post(a, Deposit(name, currency, n, amount).request, R.NameAt("trx", n + 1));
    assert b.index[(name, key)].reference == R.NameAt("trx", n + 1);
    forall x | x in b.index ensures exists i: nat :: i <= n + 1 && b.index[x].reference == R.NameAt("trx", i) {
      if x != (name, key) {
        var i: nat :| i <= n && a.index[x].reference == R.NameAt("trx", i);
      }
    }
    forall m, p, leg | (m, MovementKey(p, leg)) in b.index
        ensures exists i: nat :: i < n + 1 && p == R.NameAt("pay", i) {
      if (m, MovementKey(p, leg)) != (name, key) {
        var i: nat :| i < n && p == R.NameAt("pay", i);
      }
    }
  }

  /** These operations open a wallet with the largest amount and make `n` more deposits of it. */
  ghost predicate Fills(ops: seq<Op>, name: string, currency: string, n: nat) {
    LegalRun(NO_ACCOUNTS, ops) && Filled(ExecuteAll(NO_ACCOUNTS, ops), name, currency, n)
  }

  lemma {:induction false} DepositsFill(name: string, currency: string, n: nat) returns (ops: seq<Op>)
    requires R.Accepts("wlt", name) && n < R.Pow32(R.TIME_LENGTH)
    ensures Fills(ops, name, currency, n)
    decreases n
  {
    if n == 0 {
      ops := OpeningFills(name, currency);
    } else {
      ops := DepositsFill(name, currency, n - 1);
      ops := OneMoreFills(ops, name, currency, n - 1);
    }
  }

  lemma {:induction false} OneMoreFills(ops: seq<Op>, name: string, currency: string, n: nat) returns (more: seq<Op>)
    requires n + 1 < R.Pow32(R.TIME_LENGTH) && Fills(ops, name, currency, n)
    ensures Fills(more, name, currency, n + 1)
  {
    var op := Deposit(name, currency, n, AMOUNT_MAX);
    DepositFills(ExecuteAll(NO_ACCOUNTS, ops), name, currency, n);
    OneMoreOp(NO_ACCOUNTS, ops, op);
    more := ops + [op];
  }

  lemma {:induction false} DepositFills(a: Accounts, name: string, currency: string, n: nat)
    requires Filled(a, name, currency, n) && n + 1 < R.Pow32(R.TIME_LENGTH)
    ensures Legal(a, Deposit(name, currency, n, AMOUNT_MAX))
    ensures Filled(Execute(a, Deposit(name, currency, n, AMOUNT_MAX)), name, currency, n + 1)
  {
    DepositAppends(a, name, currency, n, AMOUNT_MAX);
    DepositUsesItsNames(a, name, currency, n, AMOUNT_MAX);
    var w, v := a.wallets[name], Execute(a, Deposit(name, currency, n, AMOUNT_MAX)).wallets[name];
    OneMoreCredit(w.log, v.log);
  }

  lemma {:induction false} OneMoreCredit(log: seq<Entry>, more: seq<Entry>)
    requires |more| == |log| + 1 && more[..|log|] == log && AmountsInRange(log)
    requires more[|log|].flow == CreditFlow && 0 <= more[|log|].amount <= AMOUNT_MAX
    ensures Credits(more) == Credits(log) + 1 && AmountsInRange(more)
  {
    forall i | 0 <= i < |more| ensures 0 <= more[i].amount <= AMOUNT_MAX {
      assert i < |log| ==> more[i] == more[..|log|][i];
    }
  }

  lemma {:induction false} OpeningFills(name: string, currency: string) returns (ops: seq<Op>)
    requires R.Accepts("wlt", name)
    ensures Fills(ops, name, currency, 0)
  {
    var a := Open(NO_ACCOUNTS, name, currency, AMOUNT_MAX, R.NameAt("trx", 0));
    R.NameIsAccepted("trx", 0);
    ops := [OpenWallet(name, currency, AMOUNT_MAX, R.NameAt("trx", 0))];
    assert ops[1..] == [];
    assert ExecuteAll(a, []) == a;
    assert a.wallets[name].log[..0] == [];
  }

  /** The first odd balance beyond 2^53 that the amounts can make comes back one too large. */
  lemma {:induction false} FirstWrongBalance()
    ensures RecoveredBefore(TWO_TO_THE_53 + 3, 199_254_740_995) == 9007 * AMOUNT_MAX + 1
  {
    assert Spacing((TWO_TO_THE_53 + 3) / 2) == 1;
    assert Spacing(TWO_TO_THE_53 + 3) == 2;
    SafeIntegersAreExact(199_254_740_995);
    SafeIntegersAreExact(9007 * AMOUNT_MAX + 1);
  }

  /**
   * The 9008th credit can be one too many: a wallet the service can reach whose recorded balance
   * before would be wrong.
   */
  lemma {:induction false} OneMoreCreditIsTooMany(name: string, currency: string) returns (ops: seq<Op>)
    requires R.Accepts("wlt", name)
    ensures LegalRun(NO_ACCOUNTS, ops) && name in ExecuteAll(NO_ACCOUNTS, ops).wallets
    ensures var w := ExecuteAll(NO_ACCOUNTS, ops).wallets[name];
      && w.log != [] && Credits(w.log) == 9008 && AmountsInRange(w.log)
      && var e := w.log[|w.log| - 1];
      && e.flow == CreditFlow && e.amount % 5 == 0
      && RecoveredBefore(e.after, e.amount) == e.before + 1
  {
    ops := DepositsAndOne(name, currency, 9006);
  }

  lemma {:induction false} DepositsAndOne(name: string, currency: string, n: nat) returns (ops: seq<Op>)
    requires R.Accepts("wlt", name) && n == 9006
    ensures LegalRun(NO_ACCOUNTS, ops) && name in ExecuteAll(NO_ACCOUNTS, ops).wallets
    ensures var w := ExecuteAll(NO_ACCOUNTS, ops).wallets[name];
      && w.log != [] && Credits(w.log) == 9008 && AmountsInRange(w.log)
      && var e := w.log[|w.log| - 1];
      && e.flow == CreditFlow && e.amount % 5 == 0
      && RecoveredBefore(e.after, e.amount) == e.before + 1
  {
    R.PlentyOfNames();
    var first := DepositsFill(name, currency, n);
    var a := ExecuteAll(NO_ACCOUNTS, first);
    var last := Deposit(name, currency, n, 199_254_740_995);
    DepositAppends(a, name, currency, n, 199_254_740_995);
    OneMoreOp(NO_ACCOUNTS, first, last);
    ops := first + [last];
    FirstWrongBalance();
    OneMoreCredit(a.wallets[name].log, ExecuteAll(NO_ACCOUNTS, ops).wallets[name].log);
  }
}
