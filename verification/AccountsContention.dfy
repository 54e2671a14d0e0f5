/** Many debits of one amount racing for one wallet. */
module AccountsContention {
  import opened PaymentDomain
  import opened AccountsLedger
  import opened AccountsRaces

  predicate Feasible(d: Database, run: seq<Event>)
    decreases |run|
  {
    run == [] || (Enabled(d, run[0]) && Feasible(Step(d, run[0]), run[1..]))
  }

  function After(d: Database, run: seq<Event>): Database
    requires Feasible(d, run)
    decreases |run|
  {
    if run == [] then d else After(Step(d, run[0]), run[1..])
  }

  lemma {:induction false} RunKeepsDatabase(d: Database, run: seq<Event>)
    requires DatabaseOk(d) && Feasible(d, run)
    ensures DatabaseOk(After(d, run))
    decreases |run|
  {
    if run != [] {
      StepKeepsDatabase(d, run[0]);
      RunKeepsDatabase(Step(d, run[0]), run[1..]);
    }
  }

  /** The one-step operation an event amounts to, if it may commit. */
  function CommitOf(d: Database, e: Event): seq<Op>
    requires Enabled(d, e)
  {
    match e
    case AppendEntry(id, reference) => [Move(d.callers[id].request, reference)]
    case Freeze(name, active) => [ChangeStatus(name, active)]
    case _ => []
  }

  /** The operations a concurrent run amounts to: one per commit, in commit order. */
  function Commits(d: Database, run: seq<Event>): seq<Op>
    requires Feasible(d, run)
    decreases |run|
  {
    if run == [] then [] else CommitOf(d, run[0]) + Commits(Step(d, run[0]), run[1..])
  }

  lemma {:induction false} StepIsSerial(d: Database, e: Event)
    requires CallersOk(d) && Enabled(d, e)
    ensures CommitOf(d, e) != [] ==>
              Legal(d.committed, CommitOf(d, e)[0]) && Step(d, e).committed == Execute(d.committed, CommitOf(d, e)[0])
    ensures CommitOf(d, e) == [] ==> Step(d, e).committed == d.committed
  {
    StepRefinesApply(d, e);
    if e.AppendEntry? {
      assert CallerOk(d, e.id);
    }
  }

  lemma {:induction false} OneBefore(a: Accounts, op: Op, ops: seq<Op>)
    requires Legal(a, op) && LegalRun(Execute(a, op), ops)
    ensures LegalRun(a, [op] + ops) && ExecuteAll(a, [op] + ops) == ExecuteAll(Execute(a, op), ops)
  {
    assert ([op] + ops)[0] == op && ([op] + ops)[1..] == ops;
  }

  /** Concurrent callers are serializable: the committed state is that of one whole movement after another. */
  lemma {:induction false} RacesAreSerial(d: Database, run: seq<Event>)
    requires DatabaseOk(d) && Feasible(d, run)
    ensures LegalRun(d.committed, Commits(d, run))
    ensures After(d, run).committed == ExecuteAll(d.committed, Commits(d, run))
    decreases |run|
  {
    if run != [] {
      var e := run[0];
      StepKeepsDatabase(d, e);
      StepIsSerial(d, e);
      RacesAreSerial(Step(d, e), run[1..]);
      var later := Commits(Step(d, e), run[1..]);
      if CommitOf(d, e) == [] {
        assert Commits(d, run) == later;
      } else {
        OneBefore(d.committed, CommitOf(d, e)[0], later);
        assert CommitOf(d, e) == [CommitOf(d, e)[0]];
      }
    }
  }

  /** Every interleaving of callers, races, rollbacks and deaths keeps ledger and balances right. */
  lemma {:induction false} RacesKeepTheLedger(start: Accounts, run: seq<Event>, name: string)
    requires AccountsOk(start) && Feasible(Database(start, map[], map[]), run)
    requires name in After(Database(start, map[], map[]), run).committed.wallets
    ensures var w := After(Database(start, map[], map[]), run).committed.wallets[name];
      && (forall i, j :: 0 <= i < j < |w.log| ==> w.log[i].key != w.log[j].key)
      && (forall i :: 0 <= i < |w.log| ==> w.log[i].before == if i == 0 then 0 else w.log[i - 1].after)
      && w.balance == SignedSum(w.log) && w.balance >= w.reserved >= 0
  {
    RunKeepsDatabase(Database(start, map[], map[]), run);
    WalletStory(After(Database(start, map[], map[]), run).committed.wallets[name]);
  }

  /** An accepted caller is answered with the one entry under its key, for the operation it asked for. */
  lemma {:induction false} AcceptedMeansRecorded(start: Accounts, run: seq<Event>, id: nat)
    requires AccountsOk(start) && Feasible(Database(start, map[], map[]), run)
    requires var d := After(Database(start, map[], map[]), run);
      id in d.callers && d.callers[id].stage.Done? && d.callers[id].stage.verdict.Accepted?
    ensures var d := After(Database(start, map[], map[]), run); var r := d.callers[id].request;
      && (r.wallet, r.key) in d.committed.index
      && d.committed.index[(r.wallet, r.key)] == d.callers[id].stage.verdict.entry
      && SameOperation(d.callers[id].stage.verdict.entry, r)
  {
    RunKeepsDatabase(Database(start, map[], map[]), run);
    assert CallerOk(After(Database(start, map[], map[]), run), id);
  }

  // -------------------------------------------------------------- contention

  /**
   * The events of the experiment: debits of `amount` on `name`, each under a key of its own, nobody
   * dying, no freeze.
   */
  predicate Fits(d: Database, e: Event, name: string, amount: int, currency: string) {
    match e
    case Call(_, r) =>
      && r.wallet == name && r.flow == DebitFlow && r.amount == amount && r.currency == currency
      && (name, r.key) !in d.committed.index
      && forall i :: i in d.callers ==> d.callers[i].request.key != r.key
    case Die(_) => false
    case Freeze(_, _) => false
    case _ => true
  }

  predicate AllFit(d: Database, run: seq<Event>, name: string, amount: int, currency: string)
    requires Feasible(d, run)
    decreases |run|
  {
    run != [] ==> Fits(d, run[0], name, amount, currency) && AllFit(Step(d, run[0]), run[1..], name, amount, currency)
  }

  function Winners(d: Database): set<nat> {
    set id | id in d.callers && d.callers[id].stage.Done? && d.callers[id].stage.verdict.Accepted?
  }

  ghost predicate RacerOk(d: Database, id: nat, name: string, amount: int, currency: string)
    requires id in d.callers && name in d.committed.wallets
  {
    var c := d.callers[id];
    var w := d.committed.wallets[name];
    && c.request.wallet == name && c.request.flow == DebitFlow && c.request.amount == amount && c.request.currency
        == currency
    && ((name, c.request.key) in d.committed.index <==> id in Winners(d))
    && match c.stage
       case HasWallet(seen) => seen.active && seen.currency == currency
       case Turned => w.balance - w.reserved < amount
       case Collided => false
       case Done(Refused(reason)) => reason == InsufficientBalance && w.balance - w.reserved < amount
       case Done(KeyConflict) => false
       case _ => true
  }

  ghost predicate RaceOk(d: Database, name: string, amount: int, currency: string, available: int) {
    && name in d.committed.wallets
    && var w := d.committed.wallets[name];
    && w.active && w.currency == currency
    && w.balance - w.reserved == available - amount * |Winners(d)|
    && (forall i :: i in d.callers ==> RacerOk(d, i, name, amount, currency))
    && KeysApart(d)
  }

  lemma {:induction false} WinnersGrow(d: Database, e: Event)
    requires CallersOk(d) && Enabled(d, e) && !e.Die?
    requires e.LookUpKey? ==> (d.callers[e.id].request.wallet, d.callers[e.id].request.key) !in d.committed.index
    requires e.ReadOriginal? ==> false
    ensures var f := Step(d, e);
      Winners(f) == if e.AppendEntry? && f.callers[e.id].stage.Done? then Winners(d) + {e.id} else Winners(d)
  {
  }

  lemma {:induction false} RacerBystander(d: Database, e: Event, i: nat, name: string, amount: int, currency: string,
                                          available: int)
    requires CallersOk(d) && RaceOk(d, name, amount, currency, available) && Enabled(d, e) && amount > 0
    requires Fits(d, e, name, amount, currency) && i in d.callers && Step(d, e).callers[i] == d.callers[i]
    ensures name in Step(d, e).committed.wallets && RacerOk(Step(d, e), i, name, amount, currency)
  {
    assert RacerOk(d, i, name, amount, currency);
    if e.AppendEntry? {
      assert RacerOk(d, e.id, name, amount, currency) && CallerOk(d, e.id);
    }
  }

  lemma {:induction false} RacerActor(d: Database, e: Event, i: nat, name: string, amount: int, currency: string,
                                      available: int)
    requires CallersOk(d) && RaceOk(d, name, amount, currency, available) && Enabled(d, e) && amount > 0
    requires Fits(d, e, name, amount, currency) && i in Step(d, e).callers
    requires i !in d.callers || Step(d, e).callers[i] != d.callers[i]
    ensures name in Step(d, e).committed.wallets && RacerOk(Step(d, e), i, name, amount, currency)
  {
    if i in d.callers {
      assert RacerOk(d, i, name, amount, currency) && CallerOk(d, i);
    }
  }

  lemma {:induction false} AppendWins(d: Database, e: Event, name: string, amount: int, currency: string,
                                      available: int)
    requires CallersOk(d) && RaceOk(d, name, amount, currency, available) && Enabled(d, e) && e.AppendEntry?
    ensures var f := Step(d, e); var w := d.committed.wallets[name];
      && |Winners(f)| == |Winners(d)| + 1
      && f.committed.wallets == d.committed.wallets[name := f.committed.wallets[name]]
      && f.committed.wallets[name] == w.(balance := w.balance - amount, log := f.committed.wallets[name].log)
  {
    assert RacerOk(d, e.id, name, amount, currency) && CallerOk(d, e.id);
    AppendAddsAWinner(d, e, name);
  }

  lemma {:induction false} AppendAddsAWinner(d: Database, e: Event, name: string)
    requires CallersOk(d) && Enabled(d, e) && e.AppendEntry? && Step(d, e).callers[e.id].stage.Done?
    ensures |Winners(Step(d, e))| == |Winners(d)| + 1
  {
    WinnersGrow(d, e);
    assert e.id !in Winners(d);
  }

  lemma {:induction false} Distribute(a: int, n: int)
    ensures a * (n + 1) == a * n + a
  {
  }

  lemma {:induction false} OthersLeaveBalance(d: Database, e: Event, name: string, amount: int, currency: string,
                                              available: int)
    requires CallersOk(d) && RaceOk(d, name, amount, currency, available) && Enabled(d, e) && !e.AppendEntry?
    requires Fits(d, e, name, amount, currency)
    ensures Step(d, e).committed == d.committed && Winners(Step(d, e)) == Winners(d)
  {
    assert !e.Call? ==> RacerOk(d, e.id, name, amount, currency);
    WinnersGrow(d, e);
  }

  /** What one event does to the wallet they fight for. */
  lemma {:induction false} RaceBalance(d: Database, e: Event, name: string, amount: int, currency: string,
                                       available: int)
    requires CallersOk(d) && RaceOk(d, name, amount, currency, available) && Enabled(d, e)
    requires Fits(d, e, name, amount, currency)
    ensures var f := Step(d, e);
      && name in f.committed.wallets
      && var w := f.committed.wallets[name];
      && w.active && w.currency == currency
      && w.balance - w.reserved == available - amount * |Winners(f)|
  {
    var w := d.committed.wallets[name];
    assert w.balance - w.reserved == available - amount * |Winners(d)|;
    if e.AppendEntry? {
      AppendWins(d, e, name, amount, currency, available);
      Distribute(amount, |Winners(d)|);
    } else {
      OthersLeaveBalance(d, e, name, amount, currency, available);
    }
  }

  lemma {:induction false} StepRace(d: Database, e: Event, name: string, amount: int, currency: string, available: int)
    requires CallersOk(d) && RaceOk(d, name, amount, currency, available) && Enabled(d, e) && amount > 0
    requires Fits(d, e, name, amount, currency)
    ensures RaceOk(Step(d, e), name, amount, currency, available)
  {
    var f := Step(d, e);
    RaceBalance(d, e, name, amount, currency, available);
    KeysStayApart(d, e, name, amount, currency);
    forall i | i in f.callers ensures RacerOk(f, i, name, amount, currency) {
      RacerStep(d, e, i, name, amount, currency, available);
    }
  }

  lemma {:induction false} RacerStep(d: Database, e: Event, i: nat, name: string, amount: int, currency: string,
                                     available: int)
    requires CallersOk(d) && RaceOk(d, name, amount, currency, available) && Enabled(d, e) && amount > 0
    requires Fits(d, e, name, amount, currency) && i in Step(d, e).callers
    ensures name in Step(d, e).committed.wallets && RacerOk(Step(d, e), i, name, amount, currency)
  {
    if i in d.callers && Step(d, e).callers[i] == d.callers[i] {
      RacerBystander(d, e, i, name, amount, currency, available);
    } else {
      RacerActor(d, e, i, name, amount, currency, available);
    }
  }

  ghost predicate KeysApart(d: Database) {
    forall i, j :: i in d.callers && j in d.callers && d.callers[i].request.key == d.callers[j].request.key ==> i == j
  }

  lemma {:induction false} KeysStayApart(d: Database, e: Event, name: string, amount: int, currency: string)
    requires KeysApart(d) && Enabled(d, e) && Fits(d, e, name, amount, currency)
    ensures KeysApart(Step(d, e))
  {
  }

  lemma {:induction false} RunRace(d: Database, run: seq<Event>, name: string, amount: int, currency: string,
                                   available: int)
    requires DatabaseOk(d) && RaceOk(d, name, amount, currency, available) && amount > 0
    requires Feasible(d, run) && AllFit(d, run, name, amount, currency)
    ensures DatabaseOk(After(d, run)) && RaceOk(After(d, run), name, amount, currency, available)
    decreases |run|
  {
    if run != [] {
      StepKeepsDatabase(d, run[0]);
      StepRace(d, run[0], name, amount, currency, available);
      RunRace(Step(d, run[0]), run[1..], name, amount, currency, available);
    }
  }

  function Min(a: int, b: int): int { if a <= b then a else b }

  lemma {:induction false} MulMono(a: int, x: int, y: int)
    requires a > 0
    ensures x <= y ==> a * x <= a * y
  {
    if x <= y {
      assert a * (y - x) >= 0;
    }
  }

  /** `k` out of `n` went through, the rest found too little left: `k` is what the balance covers. */
  lemma {:induction false} Count(n: nat, k: nat, available: int, amount: int)
    requires amount > 0 && k <= n && available - amount * k >= 0
    requires k < n ==> available - amount * k < amount
    ensures k == Min(n, available / amount)
  {
    var q := available / amount;
    assert available == amount * q + available % amount;
    MulMono(amount, q + 1, k);
    MulMono(amount, k + 1, q);
    assert amount * (q + 1) == amount * q + amount;
    assert amount * (k + 1) == amount * k + amount;
  }

  /**
   * However the callers interleave, once all are answered exactly as many debits
   * went through as the available balance covers, and that many amounts are gone.
   */
  lemma {:induction false} ContentionCount(start: Accounts, run: seq<Event>, name: string, amount: int)
    requires AccountsOk(start) && name in start.wallets && start.wallets[name].active && amount > 0
    requires var d := Database(start, map[], map[]);
      Feasible(d, run) && AllFit(d, run, name, amount, start.wallets[name].currency)
    requires var f := After(Database(start, map[], map[]), run); forall i :: i in f.callers ==> f.callers[i].stage.Done?
    ensures var f := After(Database(start, map[], map[]), run);
      var w := start.wallets[name];
      && |Winners(f)| == Min(|f.callers|, (w.balance - w.reserved) / amount)
      && name in f.committed.wallets
      && f.committed.wallets[name].balance - f.committed.wallets[name].reserved
         == w.balance - w.reserved - amount * |Winners(f)|
  {
    var d := Database(start, map[], map[]);
    var w := start.wallets[name];
    var available := w.balance - w.reserved;
    assert Winners(d) == {};
    RunRace(d, run, name, amount, w.currency, available);
    RaceIsCounted(After(d, run), name, amount, w.currency, available);
  }

  lemma {:induction false} RaceIsCounted(f: Database, name: string, amount: int, currency: string, available: int)
    requires AccountsOk(f.committed) && RaceOk(f, name, amount, currency, available) && amount > 0
    requires forall i :: i in f.callers ==> f.callers[i].stage.Done?
    ensures |Winners(f)| == Min(|f.callers|, available / amount)
  {
    assert WalletOk(f.committed.wallets[name]);
    Subset(Winners(f), f.callers.Keys);
    assert |f.callers.Keys| == |f.callers|;
    if |Winners(f)| < |f.callers| {
      var i :| i in f.callers && i !in Winners(f);
      assert RacerOk(f, i, name, amount, currency);
    }
    Count(|f.callers|, |Winners(f)|, available, amount);
  }

  lemma {:induction false} Subset(a: set<nat>, b: set<nat>)
    requires a <= b
    ensures |a| <= |b| && (|a| < |b| ==> exists x :: x in b && x !in a)
  {
    assert b == a + (b - a);
    if b - a != {} {
      var x :| x in b - a;
    } else {
      assert b == a;
    }
  }

  // ------------------------------------------- a refusal of a recorded key

  /** Two callers replay one key on a wallet that covers it once: the duel, event by event. */
  function Duel(start: Accounts, r: Request, reference: string, k: nat): Database
    requires r.wallet in start.wallets
  {
    var seen := HasWallet(start.wallets[r.wallet]);
    var won := Post(start, r, reference);
    var pair := (a: Stage, b: Stage) => map[1 := Caller(r, a), 2 := Caller(r, b)];
    var winner := Done(Accepted(NewEntry(start.wallets[r.wallet], r, reference)));
    match k
    case 0 => Database(start, map[], map[])
    case 1 => Database(start, map[], map[1 := Caller(r, Arrived)])
    case 2 => Database(start, map[], pair(Arrived, Arrived))
    case 3 => Database(start, map[], pair(seen, Arrived))
    case 4 => Database(start, map[], pair(seen, seen))
    case 5 => Database(start, map[], pair(Admitted, seen))
    case 6 => Database(start, map[], pair(Admitted, Admitted))
    case 7 => Database(start, map[r.wallet := 1],
                       pair(Holding(start.wallets[r.wallet].balance + Delta(r.flow, r.amount)), Admitted))
    case 8 => Database(won, map[], pair(winner, Admitted))
    case 9 => Database(won, map[], pair(winner, Turned))
    case _ => Database(won, map[], pair(winner, Done(Refused(InsufficientBalance))))
  }

  function DuelEvents(r: Request, reference: string): seq<Event> {
    [Call(1, r), Call(2, r), ReadWallet(1), ReadWallet(2), LookUpKey(1), LookUpKey(2),
     MoveBalance(1), AppendEntry(1, reference), MoveBalance(2), ReadAgain(2)]
  }

  /** An active wallet that covers the debit once and not twice, under a key not yet recorded. */
  predicate CoversOnce(start: Accounts, r: Request) {
    && r.wallet in start.wallets && r.flow == DebitFlow && ValidAmount(r.amount) && WellKeyed(r.key)
    && var w := start.wallets[r.wallet];
    && w.active && w.currency == r.currency && r.amount <= w.balance - w.reserved < 2 * r.amount
    && (r.wallet, r.key) !in start.index
  }

  lemma {:induction false} DuelStep(start: Accounts, r: Request, reference: string, k: nat)
    requires CoversOnce(start, r) && FreshReference(start, reference) && k < 10
    ensures Enabled(Duel(start, r, reference, k), DuelEvents(r, reference)[k])
    ensures Step(Duel(start, r, reference, k), DuelEvents(r, reference)[k]) == Duel(start, r, reference, k + 1)
  {
    if k < 4 {
      DuelOpens(start, r, reference, k);
    } else if k < 7 {
      DuelGoesOn(start, r, reference, k);
    } else {
      DuelEnds(start, r, reference, k);
    }
  }

  lemma {:induction false} DuelOpens(start: Accounts, r: Request, reference: string, k: nat)
    requires CoversOnce(start, r) && FreshReference(start, reference) && k < 4
    ensures Enabled(Duel(start, r, reference, k), DuelEvents(r, reference)[k])
    ensures Step(Duel(start, r, reference, k), DuelEvents(r, reference)[k]) == Duel(start, r, reference, k + 1)
  {
    assert Step(Duel(start, r, reference, k), DuelEvents(r, reference)[k]).callers
        == Duel(start, r, reference, k + 1).callers;
  }

  lemma {:induction false} DuelGoesOn(start: Accounts, r: Request, reference: string, k: nat)
    requires CoversOnce(start, r) && FreshReference(start, reference) && 4 <= k < 7
    ensures Enabled(Duel(start, r, reference, k), DuelEvents(r, reference)[k])
    ensures Step(Duel(start, r, reference, k), DuelEvents(r, reference)[k]) == Duel(start, r, reference, k + 1)
  {
    assert Step(Duel(start, r, reference, k), DuelEvents(r, reference)[k]).callers
        == Duel(start, r, reference, k + 1).callers;
  }

  lemma {:induction false} DuelEnds(start: Accounts, r: Request, reference: string, k: nat)
    requires CoversOnce(start, r) && FreshReference(start, reference) && 7 <= k < 10
    ensures Enabled(Duel(start, r, reference, k), DuelEvents(r, reference)[k])
    ensures Step(Duel(start, r, reference, k), DuelEvents(r, reference)[k]) == Duel(start, r, reference, k + 1)
  {
    WrittenIsPost(start, r, reference);
    assert Step(Duel(start, r, reference, k), DuelEvents(r, reference)[k]).callers
        == Duel(start, r, reference, k + 1).callers;
  }

  lemma {:induction false} DuelRun(start: Accounts, r: Request, reference: string, k: nat)
    requires CoversOnce(start, r) && FreshReference(start, reference) && k <= 10
    ensures Feasible(Duel(start, r, reference, k), DuelEvents(r, reference)[k..])
    ensures After(Duel(start, r, reference, k), DuelEvents(r, reference)[k..]) == Duel(start, r, reference, 10)
    decreases 10 - k
  {
    var run := DuelEvents(r, reference);
    if k < 10 {
      DuelStep(start, r, reference, k);
      assert run[k..][0] == run[k] && run[k..][1..] == run[k + 1..];
      DuelRun(start, r, reference, k + 1);
    }
  }

  /**
   * A refusal does not mean the key is unrecorded. Whenever a wallet covers a
   * debit once, two callers replaying its key can end with one movement recorded
   * and the other caller refused for want of money.
   */
  lemma {:induction false} RefusedThoughRecorded(start: Accounts, r: Request, reference: string)
    returns (run: seq<Event>)
    requires CoversOnce(start, r) && FreshReference(start, reference)
    ensures Feasible(Database(start, map[], map[]), run)
    ensures var d := After(Database(start, map[], map[]), run);
      && (r.wallet, r.key) in d.committed.index
      && 2 in d.callers && d.callers[2] == Caller(r, Done(Refused(InsufficientBalance)))
  {
    DuelRun(start, r, reference, 0);
    run := DuelEvents(r, reference)[0..];
  }

  // ------------------------------------------ what a refusal does tell

  /** Caller `j` had this key accepted. */
  predicate AcceptedUnder(d: Database, j: nat, n: string, k: Key) {
    && j in d.callers && d.callers[j].request.wallet == n && d.callers[j].request.key == k
    && d.callers[j].stage.Done? && d.callers[j].stage.verdict.Accepted?
  }

  /** Nothing recorded is lost, and every new entry has a caller that was told of it. */
  ghost predicate EntriesHaveCallers(start: Accounts, d: Database) {
    && (forall n, k :: (n, k) in start.index ==> (n, k) in d.committed.index)
    && (forall n, k :: (n, k) in d.committed.index && (n, k) !in start.index ==> exists j :: AcceptedUnder(d, j, n, k))
  }

  lemma {:induction false} AcceptedStays(d: Database, e: Event, j: nat, n: string, k: Key)
    requires Enabled(d, e) && AcceptedUnder(d, j, n, k)
    ensures AcceptedUnder(Step(d, e), j, n, k)
  {
  }

  lemma {:induction false} NewEntryIsTheCallers(d: Database, e: Event, n: string, k: Key)
    requires CallersOk(d) && Enabled(d, e)
    requires (n, k) in Step(d, e).committed.index && (n, k) !in d.committed.index
    ensures e.AppendEntry? && AcceptedUnder(Step(d, e), e.id, n, k)
  {
  }

  lemma {:induction false} IndexStays(d: Database, e: Event, n: string, k: Key)
    requires Enabled(d, e) && (n, k) in d.committed.index
    ensures (n, k) in Step(d, e).committed.index
  {
  }

  lemma {:induction false} RunKeepsCallers(start: Accounts, d: Database, run: seq<Event>)
    requires DatabaseOk(d) && EntriesHaveCallers(start, d) && Feasible(d, run)
    ensures EntriesHaveCallers(start, After(d, run))
    decreases |run|
  {
    if run != [] {
      var f := Step(d, run[0]);
      StepKeepsDatabase(d, run[0]);
      forall n, k | (n, k) in start.index ensures (n, k) in f.committed.index {
        IndexStays(d, run[0], n, k);
      }
      forall n, k | (n, k) in f.committed.index && (n, k) !in start.index
          ensures exists j :: AcceptedUnder(f, j, n, k) {
        if (n, k) in d.committed.index {
          var j :| AcceptedUnder(d, j, n, k);
          AcceptedStays(d, run[0], j, n, k);
        } else {
          NewEntryIsTheCallers(d, run[0], n, k);
        }
      }
      RunKeepsCallers(start, f, run[1..]);
    }
  }

  /**
   * Whatever a refused caller is told, its key is recorded exactly when it was
   * before or another caller of the same key has been accepted.
   */
  lemma {:induction false} RefusedExactlyUnlessAnother(start: Accounts, run: seq<Event>, i: nat)
    requires AccountsOk(start) && Feasible(Database(start, map[], map[]), run)
    requires var d := After(Database(start, map[], map[]), run);
      i in d.callers && d.callers[i].stage.Done? && d.callers[i].stage.verdict.Refused?
    ensures var d := After(Database(start, map[], map[]), run); var r := d.callers[i].request;
      (r.wallet, r.key) in d.committed.index <==>
      (r.wallet, r.key) in start.index || exists j :: j != i && AcceptedUnder(d, j, r.wallet, r.key)
  {
    var d0 := Database(start, map[], map[]);
    var d := After(d0, run);
    var r := d.callers[i].request;
    RunKeepsDatabase(d0, run);
    RunKeepsCallers(start, d0, run);
    if j :| AcceptedUnder(d, j, r.wallet, r.key) {
      assert CallerOk(d, j);
    }
  }

  /** So a refusal of the only caller of a new key is conclusive: nothing is recorded under it. */
  lemma {:induction false} OnlyCallersRefusalIsConclusive(start: Accounts, run: seq<Event>, i: nat)
    requires AccountsOk(start) && Feasible(Database(start, map[], map[]), run)
    requires var d := After(Database(start, map[], map[]), run);
      && i in d.callers && d.callers[i].stage.Done? && d.callers[i].stage.verdict.Refused?
      && var r := d.callers[i].request;
      && (r.wallet, r.key) !in start.index
      && forall j :: j in d.callers && j != i ==>
          (d.callers[j].request.wallet, d.callers[j].request.key) != (r.wallet, r.key)
    ensures var d := After(Database(start, map[], map[]), run); var r := d.callers[i].request;
      (r.wallet, r.key) !in d.committed.index
  {
    RefusedExactlyUnlessAnother(start, run, i);
  }
}
