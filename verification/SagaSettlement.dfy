/**
 * When "Declined" means that nothing moved. In general it does not: recovery
 * declines on an absent debit, and the debit may still be on its way.
 */
module SagaSettlement {
  import opened Wrappers
  import opened PaymentDomain
  import opened WorkerProgram
  import opened SagaProtocol
  import opened SagaGuarantees
  import R = References

  // ------------------------------------------------------- the late debit

  /** The run of the late debit, state by state. */
  function Scene(o: Order, reference: string, k: nat): Local {
    var saga := (w: Worker) => Local(o, w.revision, if w.revision == 1 then FRESH else STARTED, [], map[0 := w],
        map[], map[], 1, Some(0));
    var recovery := (w: Worker) => Local(o, 2, STARTED, [], map[2 := w], map[1 := DebitLeg], map[], 3, Some(2));
    match k
    case 0 => Created(o)
    case 1 => saga(Worker(ReadForDebit, FRESH, 0)).(version := 1, stored := FRESH)
    case 2 => saga(Worker(SaveProcessing, STARTED, 1))
    case 3 => saga(Worker(SendDebit(FIRST_ATTEMPT), STARTED, 2))
    case 4 => saga(Worker(SendDebit(Call(false, Some(1))), STARTED, 2)).(wire := map[1 := DebitLeg], nextId := 2)
    case 5 => Local(o, 2, STARTED, [], map[], map[1 := DebitLeg], map[], 2, None)
    case 6 => recovery(Worker(ReadForRecovery, FRESH, 0))
    case 7 => recovery(Worker(LookDebit, STARTED, 2))
    case 8 => recovery(Worker(SaveAbsentDebit, Closed(AccountsUnavailable), 2))
    case 9 => recovery(Worker(SaveAbsentDebit, Closed(AccountsUnavailable), 2))
              .(version := 3, stored := Closed(AccountsUnavailable), workers := map[], lock := None,
                outbox := [LifecycleMessage(DeclinedEvent(AccountsUnavailable))])
    case _ => Local(o, 3, Closed(AccountsUnavailable), [LifecycleMessage(DeclinedEvent(AccountsUnavailable))],
                    map[], map[], map[1 := Granted(DebitLeg, reference)], 3, None)
  }

  function Script(reference: string): seq<Action> {
    [StartSaga, Perform(0), Perform(0), Post(0), Crash(0),
     StartRecovery, Perform(2), Perform(2), Perform(2), Deliver(1, Applied(reference))]
  }

  lemma {:induction false} SagaScenes(o: Order, reference: string, k: nat)
    requires k < 5
    ensures Enabled(Scene(o, reference, k), NOTHING_POSTED, Script(reference)[k])
              && Next(Scene(o, reference, k), NOTHING_POSTED, Script(reference)[k]) == Scene(o, reference, k + 1)
  {
    assert k == 0 || k == 1 || k == 2 || k == 3 || k == 4;
    assert Next(Scene(o, reference, k), NOTHING_POSTED, Script(reference)[k]).workers
        == Scene(o, reference, k + 1).workers;
  }

  lemma {:induction false} RecoveryScenes(o: Order, reference: string, k: nat)
    requires 5 <= k < 9
    ensures Enabled(Scene(o, reference, k), NOTHING_POSTED, Script(reference)[k])
              && Next(Scene(o, reference, k), NOTHING_POSTED, Script(reference)[k]) == Scene(o, reference, k + 1)
  {
    var l := Scene(o, reference, k);
    if k == 5 {
      assert Next(l, NOTHING_POSTED, Script(reference)[k]).workers == Scene(o, reference, k + 1).workers;
    } else if k < 8 {
      LookupScenes(o, reference, k);
    } else {
      DeclineScene(o, reference);
    }
  }

  lemma {:induction false} LookupScenes(o: Order, reference: string, k: nat)
    requires 6 <= k < 8
    ensures Enabled(Scene(o, reference, k), NOTHING_POSTED, Script(reference)[k])
    ensures Next(Scene(o, reference, k), NOTHING_POSTED, Script(reference)[k]) == Scene(o, reference, k + 1)
  {
    var l := Scene(o, reference, k);
    var w := l.workers[2];
    assert Script(reference)[k] == Perform(2);
    assert Commit(l, w) == l;
    assert Advance(w, AnswerTo(l, NOTHING_POSTED, w)) == Some(Scene(o, reference, k + 1).workers[2]);
  }

  lemma {:induction false} DeclineScene(o: Order, reference: string)
    ensures Enabled(Scene(o, reference, 8), NOTHING_POSTED, Script(reference)[8])
    ensures Next(Scene(o, reference, 8), NOTHING_POSTED, Script(reference)[8]) == Scene(o, reference, 9)
  {
    var l := Scene(o, reference, 8);
    var w := l.workers[2];
    assert Commit(l, w).workers == l.workers;
    assert Advance(w, AnswerTo(l, NOTHING_POSTED, w)) == None;
    assert Commit(l, w).outbox == Scene(o, reference, 9).outbox;
  }

  lemma {:induction false} PlayScript(o: Order, reference: string, k: nat)
    requires k < 10
    ensures Feasible(Scene(o, reference, k), NOTHING_POSTED, Script(reference)[k..])
    ensures After(Scene(o, reference, k), NOTHING_POSTED, Script(reference)[k..])
              == (Scene(o, reference, 10), Posted(Some(reference), None, None))
    decreases 10 - k
  {
    if k < 9 {
      if k < 5 { SagaScenes(o, reference, k); } else { RecoveryScenes(o, reference, k); }
      PlayScript(o, reference, k + 1);
    } else {
      assert Next(Scene(o, reference, 9), NOTHING_POSTED, Script(reference)[9]) == Scene(o, reference, 10);
    }
    Unfold(Scene(o, reference, k), NOTHING_POSTED, Script(reference), k);
  }

  lemma {:induction false} ScriptKeepsLock(reference: string)
    ensures LoseLock !in Script(reference)
  {
    assert forall k :: 0 <= k < |Script(reference)| ==> Script(reference)[k] != LoseLock;
  }

  /**
   * A saga posts its debit and its process dies; the session ends and releases
   * the lock. Recovery looks the debit up, finds nothing and declines. The
   * request, never cancelled, then reaches accounts. The lock is never lost.
   */
  lemma {:induction false} DeclinedMayStillBeDebited(o: Order, reference: string) returns (run: seq<Action>)
    ensures Feasible(Created(o), NOTHING_POSTED, run) && LoseLock !in run
    ensures After(Created(o), NOTHING_POSTED, run).0.stored.status == Declined
    ensures After(Created(o), NOTHING_POSTED, run).1 == Posted(Some(reference), None, None)
  {
    PlayScript(o, reference, 0);
    ScriptKeepsLock(reference);
    run := Script(reference)[0..];
    assert Scene(o, reference, 0) == Created(o);
    assert run == Script(reference);
  }

  lemma {:induction false} Unfold(l: Local, p: Posted, run: seq<Action>, k: nat)
    requires k < |run| && Enabled(l, p, run[k])
    ensures Feasible(l, p, run[k..]) <==> Feasible(Next(l, p, run[k]), NextPosted(l, p, run[k]), run[k + 1..])
    ensures Feasible(l, p, run[k..]) ==>
              After(l, p, run[k..]) == After(Next(l, p, run[k]), NextPosted(l, p, run[k]), run[k + 1..])
  {
    assert run[k..][0] == run[k] && run[k..][1..] == run[k + 1..];
  }

  // ------------------------------------------- exactly when a decline is final

  /** Under any reference, a run that records the debit of a payment whose debit leg is not barred. */
  lemma {:induction false} DebitCanStillHappen(l: Local, p: Posted, reference: string) returns (run: seq<Action>)
    requires Inv(l, p) && l.version >= 2 && !Barred(l, p, DebitLeg)
    ensures Feasible(l, p, run) && After(l, p, run).1.debit.Some?
  {
    if p.debit.Some? {
      run := [];
    } else if OnWire(l, DebitLeg) {
      var r :| r in l.wire && l.wire[r] == DebitLeg;
      run := [Deliver(r, Applied(reference))];
      Unfold(l, p, run, 0);
      assert run[0..] == run;
    } else {
      var w :| w in l.workers && l.workers[w].pc.SendDebit?;
      if l.workers[w].pc.call.awaiting.None? {
        run := SendAndApply(l, p, w, reference);
      } else {
        var m := Next(l, p, GiveUp(w, true));
        var rest := SendAndApply(m, p, w, reference);
        run := [GiveUp(w, true)] + rest;
        Unfold(l, p, run, 0);
        assert run[0..] == run && run[1..] == rest;
      }
    }
  }

  lemma {:induction false} SendAndApply(l: Local, p: Posted, w: nat, reference: string) returns (run: seq<Action>)
    requires p.debit.None?
    requires w in l.workers && l.workers[w].pc.SendDebit? && l.workers[w].pc.call.awaiting.None?
    ensures Feasible(l, p, run) && After(l, p, run).1.debit.Some?
  {
    run := [Post(w), Deliver(l.nextId, Applied(reference))];
    var m := Next(l, p, run[0]);
    Unfold(m, p, run, 1);
    Unfold(l, p, run, 0);
    assert run[0..] == run;
  }

  /**
   * In a reachable state with a declined row, "no money ever moves" holds exactly
   * when the debit is neither recorded, nor on the wire, nor about to be sent.
   */
  lemma {:induction false} DeclineIsFinalExactly(o: Order, run: seq<Action>)
    requires Feasible(Created(o), NOTHING_POSTED, run)
    requires After(Created(o), NOTHING_POSTED, run).0.stored.status == Declined
    ensures var (l, p) := After(Created(o), NOTHING_POSTED, run);
      (forall more :: Feasible(l, p, more) ==> After(l, p, more).1 == NOTHING_POSTED)
      <==>
      (p.debit.None? && !OnWire(l, DebitLeg) && forall i :: i in l.workers ==> !l.workers[i].pc.SendDebit?)
  {
    InvInit(o);
    RunKeeps(Created(o), NOTHING_POSTED, run);
    var (l, p) := After(Created(o), NOTHING_POSTED, run);
    if Barred(l, p, DebitLeg) {
      forall more | Feasible(l, p, more) ensures After(l, p, more).1 == NOTHING_POSTED {
        DeclinedStaysEmpty(l, p, more);
      }
    } else {
      var more := DebitCanStillHappen(l, p, R.NameAt("trx", 0));
      assert After(l, p, more).1 != NOTHING_POSTED;
    }
  }

  lemma {:induction false} DeclinedStaysEmpty(l: Local, p: Posted, more: seq<Action>)
    requires Inv(l, p) && Barred(l, p, DebitLeg) && l.stored.status == Declined && Feasible(l, p, more)
    ensures After(l, p, more).1 == NOTHING_POSTED
  {
    RunKeeps(l, p, more);
    RunMovesOn(l, p, more);
    var (m, q) := After(l, p, more);
    assert Barred(m, q, DebitLeg);
    InvIsMoneySafe(m, q);
  }

  // --------------------------------------------------------- exact settlement

  ghost predicate QuietDebit(l: Local) {
    !OnWire(l, DebitLeg) && forall i :: i in l.workers ==> !l.workers[i].pc.SendDebit?
  }

  ghost predicate LooksUpNoDebit(l: Local, p: Posted, a: Action) {
    a.Perform? && a.worker in l.workers && l.workers[a.worker].pc.LookDebit? && p.debit.None?
  }

  /** Every lookup that finds no debit happens with none undelivered and no live saga able to send one. */
  ghost predicate QuietLookups(l: Local, p: Posted, run: seq<Action>)
    requires Feasible(l, p, run)
    decreases |run|
  {
    run != [] ==>
      && (LooksUpNoDebit(l, p, run[0]) ==> QuietDebit(l))
      && QuietLookups(Next(l, p, run[0]), NextPosted(l, p, run[0]), run[1..])
  }

  ghost predicate DeclinesAreFinal(l: Local, p: Posted) {
    (l.stored.status == Declined || exists i :: i in l.workers && l.workers[i].pc.SaveAbsentDebit?)
    ==> Barred(l, p, DebitLeg)
  }

  lemma {:induction false} StepKeepsFinality(l: Local, p: Posted, a: Action)
    requires Inv(l, p) && Enabled(l, p, a) && DeclinesAreFinal(l, p)
    requires LooksUpNoDebit(l, p, a) ==> QuietDebit(l)
    ensures DeclinesAreFinal(Next(l, p, a), NextPosted(l, p, a))
  {
    var m, q := Next(l, p, a), NextPosted(l, p, a);
    StepKeeps(l, p, a);
    if Barred(l, p, DebitLeg) {
      StepKeepsBarred(l, p, a, DebitLeg);
    } else {
      NoNewDecline(l, p, a);
    }
  }

  /** A decline decided on a refusal, and not yet overtaken, is final. */
  lemma {:induction false} RefusedDeclineBars(l: Local, p: Posted, id: nat)
    requires Inv(l, p) && id in l.workers
    ensures l.workers[id].pc.SaveDeclined? && l.version == 2 ==> Barred(l, p, DebitLeg)
  {
    assert Owner(l.workers[id].pc) ==> forall i :: i in l.workers && Owner(l.workers[i].pc) ==> i == id;
    assert WorkerOk(l, p, l.workers[id]);
  }

  lemma {:induction false} DecliningSave(l: Local, p: Posted, w: Worker)
    requires WorkerOk(l, p, w) && Ready(w) && l.stored.status != Declined
    requires Commit(l, w).stored.status == Declined
    ensures w.pc.SaveAbsentDebit? || (w.pc.SaveDeclined? && l.version == 2)
  {
  }

  lemma {:induction false} DecliningTurn(l: Local, p: Posted, w: Worker, a: Answer)
    requires var next := Advance(w, a); next.Some? && next.value.pc.SaveAbsentDebit?
    ensures w.pc.LookDebit? && a.Absent?
  {
  }

  /** Only a final refusal or an absent lookup leads to a declined row. */
  lemma {:induction false} NoNewDecline(l: Local, p: Posted, a: Action)
    requires Inv(l, p) && Enabled(l, p, a) && DeclinesAreFinal(l, p) && !Barred(l, p, DebitLeg)
    requires LooksUpNoDebit(l, p, a) ==> QuietDebit(l)
    ensures var m := Next(l, p, a);
      m.stored.status != Declined && forall i :: i in m.workers ==> !m.workers[i].pc.SaveAbsentDebit?
  {
    NoRowDeclined(l, p, a);
    var turn := Turn(l, p, a);
    if turn.Some? {
      var (id, answer) := turn.value;
      TurnWorkers(l, p, a);
      var next := Advance(l.workers[id], answer);
      if next.Some? && next.value.pc.SaveAbsentDebit? {
        DecliningTurn(l, p, l.workers[id], answer);
        AbsentLookup(l, p, a);
      }
    }
  }

  lemma {:induction false} NoRowDeclined(l: Local, p: Posted, a: Action)
    requires Inv(l, p) && Enabled(l, p, a) && DeclinesAreFinal(l, p) && !Barred(l, p, DebitLeg)
    ensures Next(l, p, a).stored.status != Declined
  {
    if a.Perform? || a.Break? {
      var w := l.workers[a.worker];
      RefusedDeclineBars(l, p, a.worker);
      if Commit(l, w).stored.status == Declined {
        DecliningSave(l, p, w);
      }
    } else {
      OthersLeaveRow(l, p, a);
    }
  }

  lemma {:induction false} AbsentLookup(l: Local, p: Posted, a: Action)
    requires Inv(l, p) && Enabled(l, p, a)
    requires Turn(l, p, a).Some? && Turn(l, p, a).value.1.Absent?
    requires l.workers[Turn(l, p, a).value.0].pc.LookDebit?
    ensures LooksUpNoDebit(l, p, a)
    ensures QuietDebit(l) ==> Barred(l, p, DebitLeg)
  {
    assert WorkerOk(l, p, l.workers[Turn(l, p, a).value.0]);
  }

  /** After a lookup that found nothing, the worker's next step leaves the row declined. */
  lemma {:induction false} AbsentLookupDeclines(l: Local, p: Posted, id: nat)
    requires Inv(l, p) && LooksUpNoDebit(l, p, Perform(id)) && Enabled(l, p, Perform(id))
    ensures var m := Next(l, p, Perform(id));
      && Enabled(m, p, Perform(id))
      && var n := Next(m, p, Perform(id));
      && n.stored.status == Declined && n.version >= 2
      && n.wire == l.wire && n.workers == l.workers - {id} && n.order == l.order
  {
    var w := l.workers[id];
    assert WorkerOk(l, p, w);
    var m := Next(l, p, Perform(id));
    assert Commit(l, w) == l;
    assert m.workers == l.workers[id := w.(pc := SaveAbsentDebit, held := Closed(AccountsUnavailable))];
    assert m.workers - {id} == l.workers - {id};
  }

  lemma {:induction false} DisquietStays(l: Local, p: Posted, id: nat, n: Local)
    requires !QuietDebit(l) && LooksUpNoDebit(l, p, Perform(id))
    requires n.wire == l.wire && n.workers == l.workers - {id}
    ensures !QuietDebit(n)
  {
    if OnWire(l, DebitLeg) {
      var r :| r in l.wire && l.wire[r] == DebitLeg;
      assert r in n.wire && n.wire[r] == DebitLeg;
    } else {
      var i :| i in l.workers && l.workers[i].pc.SendDebit?;
      assert i in n.workers && n.workers[i].pc.SendDebit?;
    }
  }

  ghost predicate DeclinedAndDebited(l: Local, p: Posted) {
    l.stored.status == Declined && p.debit.Some?
  }

  ghost predicate NeverDeclinedAndDebited(l: Local, p: Posted) {
    forall more :: Feasible(l, p, more) ==> !DeclinedAndDebited(After(l, p, more).0, After(l, p, more).1)
  }

  /**
   * The moment that decides: after an absent-debit lookup, some continuation ends
   * with the payment declined and debited exactly when the lookup met a debit on
   * the wire or a worker about to send one. Accounts may accept whatever arrives.
   */
  lemma {:induction false} LookupDecidesExactly(o: Order, run: seq<Action>, id: nat)
    requires Feasible(Created(o), NOTHING_POSTED, run)
    requires var (l, p) := After(Created(o), NOTHING_POSTED, run);
      Enabled(l, p, Perform(id)) && LooksUpNoDebit(l, p, Perform(id))
    ensures var (l, p) := After(Created(o), NOTHING_POSTED, run); var m := Next(l, p, Perform(id));
      NeverDeclinedAndDebited(m, p) <==> QuietDebit(l)
  {
    InvInit(o);
    RunKeeps(Created(o), NOTHING_POSTED, run);
    var (l, p) := After(Created(o), NOTHING_POSTED, run);
    var m := Next(l, p, Perform(id));
    StepKeeps(l, p, Perform(id));
    if QuietDebit(l) {
      QuietLookupBars(l, p, id);
      forall more | Feasible(m, p, more) ensures !DeclinedAndDebited(After(m, p, more).0, After(m, p, more).1) {
        RunMovesOn(m, p, more);
        assert Barred(After(m, p, more).0, After(m, p, more).1, DebitLeg);
      }
    } else {
      var more := DeclineThenDebit(l, p, id);
      assert DeclinedAndDebited(After(m, p, more).0, After(m, p, more).1);
    }
  }

  lemma {:induction false} QuietLookupBars(l: Local, p: Posted, id: nat)
    requires Inv(l, p) && Enabled(l, p, Perform(id)) && LooksUpNoDebit(l, p, Perform(id)) && QuietDebit(l)
    ensures Barred(Next(l, p, Perform(id)), p, DebitLeg)
  {
    assert WorkerOk(l, p, l.workers[id]);
    assert Barred(l, p, DebitLeg);
    StepKeepsBarred(l, p, Perform(id), DebitLeg);
  }

  lemma {:induction false} DeclineThenDebit(l: Local, p: Posted, id: nat) returns (more: seq<Action>)
    requires Inv(l, p) && Enabled(l, p, Perform(id)) && LooksUpNoDebit(l, p, Perform(id)) && !QuietDebit(l)
    ensures var m := Next(l, p, Perform(id));
      Feasible(m, p, more) && DeclinedAndDebited(After(m, p, more).0, After(m, p, more).1)
  {
    var m := Next(l, p, Perform(id));
    AbsentLookupDeclines(l, p, id);
    var n := Next(m, p, Perform(id));
    StepKeeps(l, p, Perform(id));
    StepKeeps(m, p, Perform(id));
    DisquietStays(l, p, id, n);
    var rest := DebitCanStillHappen(n, p, R.NameAt("trx", 0));
    RunMovesOn(n, p, rest);
    more := [Perform(id)] + rest;
    Unfold(m, p, more, 0);
    assert more[0..] == more && more[1..] == rest;
  }

  lemma {:induction false} RunKeepsFinality(l: Local, p: Posted, run: seq<Action>)
    requires Inv(l, p) && DeclinesAreFinal(l, p) && Feasible(l, p, run) && QuietLookups(l, p, run)
    ensures DeclinesAreFinal(After(l, p, run).0, After(l, p, run).1)
    decreases |run|
  {
    if run != [] {
      StepKeeps(l, p, run[0]);
      StepKeepsFinality(l, p, run[0]);
      RunKeepsFinality(Next(l, p, run[0]), NextPosted(l, p, run[0]), run[1..]);
    }
  }

  /** The debit has been matched by a credit or a refund, or there was none. */
  predicate Even(p: Posted) {
    p.debit.Some? <==> (p.credit.Some? || p.refund.Some?)
  }

  /** With quiet lookups, a terminal payment is even and stays so; a declined one has moved nothing, ever. */
  lemma {:induction false} TerminalMeansEven(o: Order, run: seq<Action>, more: seq<Action>)
    requires Feasible(Created(o), NOTHING_POSTED, run) && Feasible(Created(o), NOTHING_POSTED, run + more)
    requires QuietLookups(Created(o), NOTHING_POSTED, run)
    requires Terminal(After(Created(o), NOTHING_POSTED, run).0.stored.status)
    ensures Even(After(Created(o), NOTHING_POSTED, run + more).1)
    ensures After(Created(o), NOTHING_POSTED, run).0.stored.status == Declined ==>
              After(Created(o), NOTHING_POSTED, run + more).1 == NOTHING_POSTED
  {
    InvInit(o);
    RunKeeps(Created(o), NOTHING_POSTED, run);
    RunKeepsFinality(Created(o), NOTHING_POSTED, run);
    RunTail(Created(o), NOTHING_POSTED, run, more);
    var (l, p) := After(Created(o), NOTHING_POSTED, run);
    if l.stored.status == Declined {
      DeclinedStaysEmpty(l, p, more);
    } else {
      RunKeeps(l, p, more);
      RunMovesOn(l, p, more);
      InvIsMoneySafe(After(l, p, more).0, After(l, p, more).1);
    }
  }

  // ---------------------------------------------------- what the lock adds

  ghost predicate LockHeld(l: Local) {
    forall i :: i in l.workers ==> l.lock == Some(i)
  }

  /** While the lock is never lost, at most one worker is alive. */
  lemma {:induction false} RunKeepsLock(l: Local, p: Posted, run: seq<Action>)
    requires LockHeld(l) && Feasible(l, p, run) && LoseLock !in run
    ensures LockHeld(After(l, p, run).0)
    decreases |run|
  {
    if run != [] {
      StepKeepsLock(l, p, run[0]);
      RunKeepsLock(Next(l, p, run[0]), NextPosted(l, p, run[0]), run[1..]);
    }
  }

  lemma {:induction false} StepKeepsLock(l: Local, p: Posted, a: Action)
    requires LockHeld(l) && Enabled(l, p, a) && a != LoseLock
    ensures LockHeld(Next(l, p, a))
  {
  }

  /** No debit of this payment is undelivered when a lookup finds none. */
  ghost predicate DrainedLookups(l: Local, p: Posted, run: seq<Action>)
    requires Feasible(l, p, run)
    decreases |run|
  {
    run != [] ==>
      && (LooksUpNoDebit(l, p, run[0]) ==> !OnWire(l, DebitLeg))
      && DrainedLookups(Next(l, p, run[0]), NextPosted(l, p, run[0]), run[1..])
  }

  /** With the lock kept, the only way a decline can be wrong is a request still on the wire. */
  lemma {:induction false} LockMakesLookupsQuiet(l: Local, p: Posted, run: seq<Action>)
    requires LockHeld(l) && Feasible(l, p, run) && LoseLock !in run && DrainedLookups(l, p, run)
    ensures QuietLookups(l, p, run)
    decreases |run|
  {
    if run != [] {
      StepKeepsLock(l, p, run[0]);
      LockMakesLookupsQuiet(Next(l, p, run[0]), NextPosted(l, p, run[0]), run[1..]);
    }
  }
}
