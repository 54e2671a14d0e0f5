/**
 * The generator is random: it may return any well-formed reference, and the unique
 * indexes see to it that only unused ones stick. A run of fewer than 32^10 steps
 * leaves some of every family.
 */
module UnusedNames {
  import opened PaymentDomain
  import opened PaymentWorld
  import opened MoneyConservation
  import A = AccountsLedger
  import R = References

  /** The generator can still find `n` more names of each family. */
  predicate NamesLeft(w: World, n: nat) {
    && |w.accounts.wallets| + n <= R.Pow32(R.TIME_LENGTH)
    && |w.accounts.index| + n <= R.Pow32(R.TIME_LENGTH)
    && |w.payments| + n <= R.Pow32(R.TIME_LENGTH)
  }

  lemma {:induction false} UpdateGrowsByOne<K, V>(m: map<K, V>, k: K, v: V)
    ensures |m[k := v]| <= |m| + 1
  {
    assert m[k := v].Keys == m.Keys + {k};
    assert |m.Keys| == |m| && |m[k := v].Keys| == |m[k := v]|;
  }

  lemma {:induction false} StepUsesOneName(w: World, s: Step, n: nat)
    requires Legal(w, s) && NamesLeft(w, n + 1)
    ensures NamesLeft(Take(w, s), n)
  {
    match s
    case OpenWallet(name, currency, opening, reference) =>
      var e := A.OpeningEntry(name, currency, opening, reference);
      UpdateGrowsByOne(w.accounts.wallets, name, A.Open(w.accounts, name, currency, opening, reference).wallets[name]);
      UpdateGrowsByOne(w.accounts.index, (name, e.key), e);
    case ChangeStatus(name, active) =>
      UpdateGrowsByOne(w.accounts.wallets, name, w.accounts.wallets[name].(active := active));
      assert A.SetActive(w.accounts, name, active).wallets.Keys == w.accounts.wallets.Keys;
      SameKeysSameSize(A.SetActive(w.accounts, name, active).wallets, w.accounts.wallets);
    case Initiate(o) =>
      UpdateGrowsByOne(w.payments, o.reference, Take(w, s).payments[o.reference]);
    case Act(p, a) =>
      SameKeysSameSize(Take(w, s).payments, w.payments);
      if a.Deliver? && a.outcome.Applied? {
        ApplyUsesOneName(w.accounts, RequestOf(w.payments[p].order, w.payments[p].wire[a.request]),
            a.outcome.reference);
      }
  }

  lemma {:induction false} SameKeysSameSize<K, V>(m: map<K, V>, n: map<K, V>)
    requires m.Keys == n.Keys
    ensures |m| == |n|
  {
    assert |m.Keys| == |m| && |n.Keys| == |n|;
  }

  lemma {:induction false} ApplyUsesOneName(a: A.Accounts, r: A.Request, reference: string)
    requires r.wallet in a.wallets
    ensures |A.Post(a, r, reference).wallets| == |a.wallets|
    ensures |A.Post(a, r, reference).index| <= |a.index| + 1
  {
    var b := A.Post(a, r, reference);
    SameKeysSameSize(b.wallets, a.wallets);
    UpdateGrowsByOne(a.index, (r.wallet, r.key), b.index[(r.wallet, r.key)]);
  }

  lemma {:induction false} RunUsesFewNames(w: World, run: seq<Step>, n: nat)
    requires LegalRun(w, run) && NamesLeft(w, n + |run|)
    ensures NamesLeft(TakeAll(w, run), n)
    decreases |run|
  {
    if run != [] {
      StepUsesOneName(w, run[0], n + |run| - 1);
      RunUsesFewNames(Take(w, run[0]), run[1..], n);
    }
  }

  // --------------------------------------------------------- finding one

  function ReferencesIn(a: A.Accounts): set<string> {
    set x | x in a.index :: a.index[x].reference
  }

  lemma {:induction false} FewReferences(index: map<(string, A.Key), A.Entry>)
    ensures |set x | x in index :: index[x].reference| <= |index|
    decreases |index|
  {
    if index != map[] {
      var k :| k in index;
      var rest := index - {k};
      assert rest.Keys == index.Keys - {k};
      assert |rest.Keys| == |rest| && |index.Keys| == |index|;
      FewReferences(rest);
      var all, others := set x | x in index :: index[x].reference, set x | x in rest :: rest[x].reference;
      forall r | r in all ensures r in others + {index[k].reference} {
        var x :| x in index && index[x].reference == r;
        assert x != k ==> x in rest && rest[x].reference == r;
      }
      R.SubsetIsSmaller(all, others + {index[k].reference});
    }
  }

  lemma {:induction false} UnusedReference(w: World) returns (reference: string)
    requires NamesLeft(w, 1)
    ensures A.FreshReference(w.accounts, reference)
  {
    FewReferences(w.accounts.index);
    reference := R.UnusedName("trx", ReferencesIn(w.accounts));
    NotAmongThem(w.accounts, reference);
  }

  lemma {:induction false} UnusedPair(w: World) returns (d: string, c: string)
    requires NamesLeft(w, 2)
    ensures A.FreshReference(w.accounts, d) && A.FreshReference(w.accounts, c) && d != c
  {
    d := UnusedReference(w);
    FewReferences(w.accounts.index);
    c := R.UnusedName("trx", ReferencesIn(w.accounts) + {d});
    NotAmongThem(w.accounts, c);
  }

  lemma {:induction false} NotAmongThem(a: A.Accounts, reference: string)
    requires reference !in ReferencesIn(a)
    ensures forall x :: x in a.index ==> a.index[x].reference != reference
  {
  }

  lemma {:induction false} UnusedWallet(w: World) returns (name: string)
    requires NamesLeft(w, 1)
    ensures R.Accepts("wlt", name) && name !in w.accounts.wallets
  {
    assert |w.accounts.wallets.Keys| == |w.accounts.wallets|;
    name := R.UnusedName("wlt", w.accounts.wallets.Keys);
  }

  lemma {:induction false} UnusedPayment(w: World) returns (reference: string)
    requires NamesLeft(w, 1)
    ensures R.Accepts("pay", reference) && reference !in w.payments
  {
    assert |w.payments.Keys| == |w.payments|;
    reference := R.UnusedName("pay", w.payments.Keys);
  }
}
