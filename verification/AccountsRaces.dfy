/**
 * Concurrent callers of `applyMovement`, statement by statement. The guarded
 * UPDATE takes the row lock and holds it to commit; the ledger insert may hit
 * the unique index and roll everything back; a caller may die anywhere.
 */
module AccountsRaces {
  import opened PaymentDomain
  import opened AccountsLedger

  datatype Stage =
    | Arrived
    | HasWallet(seen: Wallet)
    | Admitted
    | Holding(after: int)
    | Turned
    | Collided
    | Done(verdict: Verdict)

  datatype Caller = Caller(request: Request, stage: Stage)

  datatype Database = Database(committed: Accounts, locks: map<string, nat>, callers: map<nat, Caller>)

  datatype Event =
    | Call(id: nat, request: Request)
    | ReadWallet(id: nat)
    | LookUpKey(id: nat)
    | MoveBalance(id: nat)
    | AppendEntry(id: nat, reference: string)
    | ReadAgain(id: nat)
    | ReadOriginal(id: nat)
    | Die(id: nat)
    | Freeze(name: string, active: bool)

  predicate Enabled(d: Database, e: Event) {
    match e
    case Call(id, r) => id !in d.callers && ValidAmount(r.amount) && WellKeyed(r.key)
    case ReadWallet(id) => id in d.callers && d.callers[id].stage.Arrived?
    case LookUpKey(id) => id in d.callers && d.callers[id].stage.HasWallet?
    case MoveBalance(id) =>
      id in d.callers && d.callers[id].stage.Admitted? && d.callers[id].request.wallet !in d.locks
    case AppendEntry(id, reference) =>
      && id in d.callers && d.callers[id].stage.Holding? && d.callers[id].request.wallet in d.committed.wallets
      && FreshReference(d.committed, reference)
    case ReadAgain(id) => id in d.callers && d.callers[id].stage.Turned?
    case ReadOriginal(id) => id in d.callers && d.callers[id].stage.Collided?
    case Die(id) => id in d.callers && !d.callers[id].stage.Done?
    case Freeze(name, _) => name in d.committed.wallets && name !in d.locks
  }

  function Goto(d: Database, id: nat, s: Stage): Database
    requires id in d.callers
  {
    d.(callers := d.callers[id := d.callers[id].(stage := s)])
  }

  function Unlock(d: Database, id: nat): Database
    requires id in d.callers
  {
    if d.callers[id].stage.Holding? then d.(locks := d.locks - {d.callers[id].request.wallet}) else d
  }

  /** The row the transaction writes: its balance is the one the guarded UPDATE returned. */
  function Written(a: Accounts, r: Request, after: int, reference: string): Accounts
    requires r.wallet in a.wallets
  {
    var e := Entry(reference, r.key, r.flow, r.amount, r.currency, after - Delta(r.flow, r.amount), after);
    var w := a.wallets[r.wallet];
    Accounts(a.wallets[r.wallet := w.(balance := after, log := w.log + [e])], a.index[(r.wallet, r.key) := e])
  }

  function Step(d: Database, e: Event): Database
    requires Enabled(d, e)
  {
    match e
    case Call(id, r) => d.(callers := d.callers[id := Caller(r, Arrived)])
    case ReadWallet(id) =>
      var r := d.callers[id].request;
      if r.wallet in d.committed.wallets then Goto(d, id, HasWallet(d.committed.wallets[r.wallet]))
      else Goto(d, id, Done(Refused(WalletNotFound)))
    case LookUpKey(id) =>
      var r := d.callers[id].request;
      if (r.wallet, r.key) in d.committed.index then Goto(d, id, Done(Replay(d.committed.index[(r.wallet, r.key)], r)))
      else (match AssertOperable(d.callers[id].stage.seen, r)
            case Some(reason) => Goto(d, id, Done(Refused(reason)))
            case None => Goto(d, id, Admitted))
    case MoveBalance(id) =>
      var r := d.callers[id].request;
      if r.wallet in d.committed.wallets && GuardHolds(d.committed.wallets[r.wallet], r) then
        Goto(d, id, Holding(d.committed.wallets[r.wallet].balance + Delta(r.flow, r.amount)))
        .(locks := d.locks[r.wallet := id])
      else Goto(d, id, Turned)
    case AppendEntry(id, reference) =>
      var r := d.callers[id].request;
      var free := Unlock(d, id);
      if (r.wallet, r.key) in d.committed.index then Goto(free, id, Collided)
      else
        var a := Written(d.committed, r, d.callers[id].stage.after, reference);
        Goto(free.(committed := a), id, Done(Accepted(a.index[(r.wallet, r.key)])))
    case ReadAgain(id) =>
      Goto(d, id, Done(Refused(RefusalReason(d.committed, d.callers[id].request))))
    case ReadOriginal(id) =>
      var r := d.callers[id].request;
      Goto(d, id, Done(if (r.wallet, r.key) in d.committed.index
                       then Replay(d.committed.index[(r.wallet, r.key)], r) else KeyConflict))
    case Die(id) =>
      var free := Unlock(d, id);
      free.(callers := free.callers - {id})
    case Freeze(name, active) => d.(committed := SetActive(d.committed, name, active))
  }

  // --------------------------------------------------------------- invariant

  /** A caller that holds a row lock decided on the row as it still is. */
  ghost predicate CallerOk(d: Database, id: nat)
    requires id in d.callers
  {
    var r := d.callers[id].request;
    && ValidAmount(r.amount) && WellKeyed(r.key)
    && match d.callers[id].stage
       case Holding(after) =>
         && r.wallet in d.locks && d.locks[r.wallet] == id && r.wallet in d.committed.wallets
         && GuardHolds(d.committed.wallets[r.wallet], r)
         && after == d.committed.wallets[r.wallet].balance + Delta(r.flow, r.amount)
       case Done(Accepted(e)) =>
         (r.wallet, r.key) in d.committed.index && d.committed.index[(r.wallet, r.key)] == e && SameOperation(e, r)
       case Collided => (r.wallet, r.key) in d.committed.index
       case _ => true
  }

  ghost predicate CallersOk(d: Database) {
    && (forall id :: id in d.callers ==> CallerOk(d, id))
    && (forall n :: n in d.locks ==> d.locks[n] in d.callers && d.callers[d.locks[n]].stage.Holding?
                                     && d.callers[d.locks[n]].request.wallet == n)
  }

  ghost predicate DatabaseOk(d: Database) {
    AccountsOk(d.committed) && CallersOk(d)
  }

  lemma {:induction false} WrittenIsPost(a: Accounts, r: Request, reference: string)
    requires r.wallet in a.wallets
    ensures Written(a, r, a.wallets[r.wallet].balance + Delta(r.flow, r.amount), reference) == Post(a, r, reference)
  {
  }

  /**
   * The refinement: a step either leaves the committed state alone, or is an
   * administrative change, or commits exactly what the one-step `InTransaction`
   * does on the state it finds, and answers with that entry.
   */
  lemma {:induction false} StepRefinesApply(d: Database, e: Event)
    requires CallersOk(d) && Enabled(d, e)
    ensures var f := Step(d, e);
      match e
      case Freeze(name, active) => f.committed == SetActive(d.committed, name, active)
      case AppendEntry(id, reference) =>
        var r := d.callers[id].request;
        && f.committed == InTransaction(d.committed, r, reference).0
        && (f.committed != d.committed ==>
              && Precheck(d.committed, r).None? && GuardHolds(d.committed.wallets[r.wallet], r)
              && f.callers[id].stage == Done(InTransaction(d.committed, r, reference).1)
              && f.callers[id].stage.verdict.Accepted?)
      case _ => f.committed == d.committed
  {
    if e.AppendEntry? {
      assert CallerOk(d, e.id);
      WrittenIsPost(d.committed, d.callers[e.id].request, e.reference);
    }
  }

  lemma {:induction false} StepKeepsAccounts(d: Database, e: Event)
    requires DatabaseOk(d) && Enabled(d, e)
    ensures AccountsOk(Step(d, e).committed)
  {
    StepRefinesApply(d, e);
    if e.AppendEntry? {
      assert CallerOk(d, e.id);
      ExecuteKeeps(d.committed, Move(d.callers[e.id].request, e.reference));
    } else if e.Freeze? {
      SetActiveKeeps(d.committed, e.name, e.active);
    }
  }

  lemma {:induction false} BystanderKeeps(d: Database, e: Event, i: nat)
    requires CallersOk(d) && Enabled(d, e) && i in d.callers && i in Step(d, e).callers
    requires Step(d, e).callers[i] == d.callers[i]
    ensures CallerOk(Step(d, e), i)
  {
    assert CallerOk(d, i);
    if e.AppendEntry? {
      assert CallerOk(d, e.id);
    }
  }

  lemma {:induction false} ActorKeeps(d: Database, e: Event, i: nat)
    requires CallersOk(d) && Enabled(d, e) && i in Step(d, e).callers
    requires i !in d.callers || Step(d, e).callers[i] != d.callers[i]
    ensures CallerOk(Step(d, e), i)
  {
    if i in d.callers {
      assert CallerOk(d, i);
    }
  }

  lemma {:induction false} StepKeepsLocks(d: Database, e: Event)
    requires CallersOk(d) && Enabled(d, e)
    ensures var f := Step(d, e);
      forall n :: n in f.locks ==> f.locks[n] in f.callers && f.callers[f.locks[n]].stage.Holding?
                                   && f.callers[f.locks[n]].request.wallet == n
  {
    if (e.AppendEntry? || e.Die?) && d.callers[e.id].stage.Holding? {
      assert CallerOk(d, e.id);
    }
  }

  lemma {:induction false} StepKeepsDatabase(d: Database, e: Event)
    requires DatabaseOk(d) && Enabled(d, e)
    ensures DatabaseOk(Step(d, e))
  {
    var f := Step(d, e);
    StepKeepsAccounts(d, e);
    StepKeepsLocks(d, e);
    forall i | i in f.callers ensures CallerOk(f, i) {
      if i in d.callers && f.callers[i] == d.callers[i] {
        BystanderKeeps(d, e, i);
      } else {
        ActorKeeps(d, e, i);
      }
    }
  }
}
