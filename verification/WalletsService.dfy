/** The accounts service as it runs: tables changed in place, a guarded UPDATE, a rollback on a unique violation. */
module WalletsService {
  import opened Wrappers
  import opened PaymentDomain
  import opened AccountsLedger

  class WalletsDatabase {
    var wallets: map<string, Wallet>
    var index: map<(string, Key), Entry>

    constructor ()
      ensures State() == NO_ACCOUNTS
    {
      wallets, index := map[], map[];
    }

    function State(): Accounts
      reads this
    {
      Accounts(wallets, index)
    }

    /** WalletRepository.move: an UPDATE whose WHERE clause is the guard. */
    method MoveBalance(name: string, delta: int, currency: string) returns (applied: bool, after: int)
      modifies this`wallets
      ensures applied <==>
                name in old(wallets) && old(wallets)[name].active && old(wallets)[name].currency == currency
                && (delta < 0 ==> old(wallets)[name].balance - old(wallets)[name].reserved >= -delta)
      ensures applied ==>
                after == old(wallets)[name].balance + delta
                && wallets == old(wallets)[name := old(wallets)[name].(balance := after)]
      ensures !applied ==> wallets == old(wallets)
    {
      applied, after := false, 0;
      if name in wallets {
        var w := wallets[name];
        var debiting := delta < 0;
        if w.active && w.currency == currency && (!debiting || w.balance - w.reserved >= -delta) {
          applied, after := true, w.balance + delta;
          wallets := wallets[name := w.(balance := after)];
        }
      }
    }

    /** The ledger insert; false on a violation of the unique (wallet, key) constraint. */
    method AppendEntry(name: string, e: Entry) returns (ok: bool)
      requires name in wallets
      modifies this
      ensures ok <==> (name, e.key) !in old(index)
      ensures ok ==> index == old(index)[(name, e.key) := e]
                     && wallets == old(wallets)[name := old(wallets)[name].(log := old(wallets)[name].log + [e])]
      ensures !ok ==> State() == old(State())
    {
      if (name, e.key) in index {
        return false;
      }
      index := index[(name, e.key) := e];
      wallets := wallets[name := wallets[name].(log := wallets[name].log + [e])];
      ok := true;
    }

    /** The body of the transaction. A violation leaves the balance moved: the caller rolls back. */
    method ApplyInTransaction(r: Request, reference: string) returns (v: Result<Verdict, ()>)
      modifies this
      ensures v.Ok? ==>
                State() == InTransaction(old(State()), r, reference).0 && v.value
                    == InTransaction(old(State()), r, reference).1
      ensures v.Err? ==>
                r.wallet in old(wallets) && GuardHolds(old(wallets)[r.wallet], r) && (r.wallet, r.key) in old(index)
                && index == old(index)
    {
      var delta := Delta(r.flow, r.amount);
      var applied, after := MoveBalance(r.wallet, delta, r.currency);
      if !applied {
        if r.wallet !in wallets {
          return Ok(Refused(WalletNotFound));
        }
        var operable := AssertOperable(wallets[r.wallet], r);
        return Ok(Refused(if operable.Some? then operable.value else InsufficientBalance));
      }
      var e := Entry(reference, r.key, r.flow, r.amount, r.currency, after - delta, after);
      var appended := AppendEntry(r.wallet, e);
      if !appended {
        return Err(());
      }
      v := Ok(Accepted(e));
    }

    /** Runs the transaction, and on a unique violation answers with the movement that won. */
    method RunTransaction(r: Request, reference: string) returns (v: Verdict)
      modifies this
      ensures (State(), v) == InTransaction(old(State()), r, reference)
    {
      var saved := wallets;
      var outcome := ApplyInTransaction(r, reference);
      match outcome {
        case Ok(verdict) => v := verdict;
        case Err(_) =>
          wallets := saved;
          v := Replay(index[(r.wallet, r.key)], r);
      }
    }

    /** WalletsService.applyMovement, nothing else touching the tables in between. */
    method ApplyMovement(r: Request, reference: string) returns (v: Verdict)
      modifies this
      ensures (State(), v) == Apply(old(State()), r, reference)
      ensures v == Refused(WalletNotFound) <==> r.wallet !in old(wallets)
      ensures r.amount > 0 ==> VerdictFits(old(State()), r, reference, v)
      ensures v.Accepted? && (r.wallet, r.key) !in old(index) ==>
                var w := old(wallets)[r.wallet];
                && wallets == old(wallets)[r.wallet := w.(balance := v.entry.after, log := w.log + [v.entry])]
                && index == old(index)[(r.wallet, r.key) := v.entry]
      ensures !v.Accepted? || (r.wallet, r.key) in old(index) ==> wallets == old(wallets) && index == old(index)
    {
      if r.wallet !in wallets {
        return Refused(WalletNotFound);
      }
      if (r.wallet, r.key) in index {
        return Replay(index[(r.wallet, r.key)], r);
      }
      var operable := AssertOperable(wallets[r.wallet], r);
      if operable.Some? {
        return Refused(operable.value);
      }
      v := RunTransaction(r, reference);
    }

    /** WalletsService.create: no balance without a ledger row explaining it. */
    method Create(name: string, currency: string, opening: nat, reference: string)
      requires name !in wallets && (name, OpeningKey(name)) !in index
      modifies this
      ensures State() == Open(old(State()), name, currency, opening, reference)
      ensures opening == 0 ==>
                wallets == old(wallets)[name := Wallet(currency, true, 0, 0, [])] && index == old(index)
      ensures opening > 0 ==>
                var e := Entry(reference, OpeningKey(name), CreditFlow, opening, currency, 0, opening);
                && wallets == old(wallets)[name := Wallet(currency, true, opening, 0, [e])]
                && index == old(index)[(name, OpeningKey(name)) := e]
    {
      wallets := wallets[name := Wallet(currency, true, opening, 0, [])];
      if opening > 0 {
        var e := Entry(reference, OpeningKey(name), CreditFlow, opening, currency, 0, opening);
        var ok := AppendEntry(name, e);
        assert [] + [e] == [e];
        assert wallets == Open(old(State()), name, currency, opening, reference).wallets;
      }
    }

    /** WalletsService.findMovement; a missing wallet is an error, not an absent movement. */
    method FindMovement(name: string, key: Key) returns (r: Result<Option<Entry>, FailureReason>)
      ensures r.Err? <==> name !in wallets
      ensures r.Ok? ==>
                (r.value.Some? <==> (name, key) in index) && (r.value.Some? ==> r.value.value == index[(name, key)])
    {
      if name !in wallets {
        return Err(WalletNotFound);
      }
      r := Ok(if (name, key) in index then Some(index[(name, key)]) else None);
    }
  }

  /** Exactly once: replaying a request that was accepted changes nothing and returns the same entry. */
  lemma {:induction false} ReplayIsIdempotent(a: Accounts, r: Request, first: string, later: seq<Op>, second: string)
    requires AccountsOk(a) && Apply(a, r, first).1.Accepted? && LegalRun(Apply(a, r, first).0, later)
    ensures var b := ExecuteAll(Apply(a, r, first).0, later);
      Apply(b, r, second) == (b, Apply(a, r, first).1)
  {
    var a1 := Apply(a, r, first).0;
    IndexGrows(a1, later, r.wallet, r.key);
  }

  lemma {:induction false} IndexGrows(a: Accounts, ops: seq<Op>, n: string, k: Key)
    requires LegalRun(a, ops) && n in a.wallets && (n, k) in a.index
    ensures var b := ExecuteAll(a, ops); n in b.wallets && (n, k) in b.index && b.index[(n, k)] == a.index[(n, k)]
    decreases |ops|
  {
    if ops != [] {
      IndexGrows(Execute(a, ops[0]), ops[1..], n, k);
    }
  }
}
