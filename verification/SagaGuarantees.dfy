/** What the protocol guarantees about one payment over whole runs. */
module SagaGuarantees {
  import opened Wrappers
  import opened PaymentDomain
  import opened WorkerProgram
  import opened SagaProtocol

  // -------------------------------------------------------------------- runs

  predicate Feasible(l: Local, p: Posted, run: seq<Action>)
    decreases |run|
  {
    run == [] || (Enabled(l, p, run[0]) && Feasible(Next(l, p, run[0]), NextPosted(l, p, run[0]), run[1..]))
  }

  function After(l: Local, p: Posted, run: seq<Action>): (Local, Posted)
    requires Feasible(l, p, run)
    decreases |run|
  {
    if run == [] then (l, p) else After(Next(l, p, run[0]), NextPosted(l, p, run[0]), run[1..])
  }

  lemma {:induction false} RunKeeps(l: Local, p: Posted, run: seq<Action>)
    requires Inv(l, p) && Feasible(l, p, run)
    ensures Inv(After(l, p, run).0, After(l, p, run).1)
    decreases |run|
  {
    if run != [] {
      StepKeeps(l, p, run[0]);
      RunKeeps(Next(l, p, run[0]), NextPosted(l, p, run[0]), run[1..]);
    }
  }

  // ------------------------------------------------------ what only moves on

  /** No request of this leg is recorded, can still arrive, or can ever be sent again. */
  ghost predicate Barred(l: Local, p: Posted, leg: Leg) {
    match leg
    case DebitLeg =>
      l.version >= 2 && Untouched(l, p, leg) && forall i :: i in l.workers ==> !l.workers[i].pc.SendDebit?
    case CreditLeg =>
      l.version >= 3 && Untouched(l, p, leg)
      && forall i :: i in l.workers ==> !l.workers[i].pc.ReadForCredit? && !l.workers[i].pc.SendCredit?
    case RefundLeg => false
  }

  ghost predicate SoleSender(l: Local, id: nat) {
    l.version >= 2 && id < l.nextId && forall i :: i in l.workers && Owner(l.workers[i].pc) ==> i == id
  }

  ghost predicate Later(l: Local, p: Posted, m: Local, q: Posted) {
    && m.order == l.order
    && l.version <= m.version <= 5
    && l.outbox <= m.outbox
    && (forall leg: Leg :: p.Get(leg).Some? ==> q.Get(leg) == p.Get(leg))
    && (Terminal(l.stored.status) ==> m.stored == l.stored && m.version == l.version && m.outbox == l.outbox)
    && (RefundDecided(l) ==> RefundDecided(m))
    && (forall leg: Leg :: Barred(l, p, leg) ==> Barred(m, q, leg))
    && (forall i: nat :: SoleSender(l, i) ==> SoleSender(m, i))
  }

  /** Which program points a step can bring a worker to, as far as sending is concerned. */
  ghost predicate Entry(l: Local, i: nat, pc: Pc) {
    if i !in l.workers then pc.ReadForDebit? || pc.ReadForRecovery?
    else
      var was := l.workers[i].pc;
      && (Owner(pc) ==> Owner(was) || l.version == 1)
      && (pc.SendDebit? ==> was.SendDebit? || l.version == 1)
      && (pc.ReadForCredit? ==> was.ReadForCredit? || l.version == 2)
      && (pc.SendCredit? ==> was.SendCredit? || was.ReadForCredit?)
  }

  lemma {:induction false} TurnEntry(l: Local, p: Posted, i: nat, a: Answer)
    requires Inv(l, p) && i in l.workers
    requires a.Saved? ==> l.workers[i].revision == l.version
    ensures var next := Advance(l.workers[i], a); next.Some? ==> Entry(l, i, next.value.pc)
  {
    assert WorkerOk(l, p, l.workers[i]);
    WorkerEntry(l, p, l.workers[i], a);
  }

  /** The same for one worker by itself. */
  lemma {:induction false} WorkerEntry(l: Local, p: Posted, w: Worker, a: Answer)
    requires WorkerOk(l, p, w) && (a.Saved? ==> w.revision == l.version)
    ensures var next := Advance(w, a);
      next.Some? ==>
        var pc := next.value.pc;
        && (Owner(pc) ==> Owner(w.pc) || l.version == 1)
        && (pc.SendDebit? ==> w.pc.SendDebit? || l.version == 1)
        && (pc.ReadForCredit? ==> w.pc.ReadForCredit? || l.version == 2)
        && (pc.SendCredit? ==> w.pc.SendCredit? || w.pc.ReadForCredit?)
  {
  }

  /**
   * The one worker a step moves, and the answer it moves on; `None` for the steps that move no worker
   * by its program.
   */
  function Turn(l: Local, p: Posted, a: Action): Option<(nat, Answer)>
    requires Enabled(l, p, a)
  {
    match a
    case Perform(id) => Some((id, AnswerTo(l, p, l.workers[id])))
    case Break(id, _) => Some((id, Broken))
    case Receive(id) =>
      var c := l.workers[id].pc.call;
      Some((id, AnswerFrom(c, l.replies[c.awaiting.value])))
    case GiveUp(id, retry) => if retry then None else Some((id, Unavailable))
    case OpenCircuit(id) => Some((id, Unavailable))
    case _ => None
  }

  lemma {:induction false} TurnWorkers(l: Local, p: Posted, a: Action)
    requires Enabled(l, p, a) && Turn(l, p, a).Some?
    ensures var (id, answer) := Turn(l, p, a).value;
      var next := Advance(l.workers[id], answer);
      && id in l.workers
      && (answer.Saved? ==> l.workers[id].revision == l.version)
      && Next(l, p, a).workers == if next.Some? then l.workers[id := next.value] else l.workers - {id}
  {
  }

  lemma {:induction false} StepEntry(l: Local, p: Posted, a: Action, i: nat)
    requires Inv(l, p) && Enabled(l, p, a) && i in Next(l, p, a).workers
    ensures Entry(l, i, Next(l, p, a).workers[i].pc)
  {
    var turn := Turn(l, p, a);
    if turn.Some? {
      TurnWorkers(l, p, a);
      if i == turn.value.0 {
        TurnEntry(l, p, i, turn.value.1);
      }
    } else {
      NoTurnEntry(l, p, a, i);
    }
  }

  lemma {:induction false} NoTurnEntry(l: Local, p: Posted, a: Action, i: nat)
    requires Enabled(l, p, a) && Turn(l, p, a).None? && i in Next(l, p, a).workers
    ensures Entry(l, i, Next(l, p, a).workers[i].pc)
  {
  }

  lemma {:induction false} StepKeepsUntouched(l: Local, p: Posted, a: Action, leg: Leg)
    requires Enabled(l, p, a) && Untouched(l, p, leg)
    requires a.Post? ==> LegOf(l.workers[a.worker].pc) != leg
    ensures Untouched(Next(l, p, a), NextPosted(l, p, a), leg)
  {
    var m := Next(l, p, a);
    assert forall r :: r in m.wire ==> m.wire[r] != leg;
    if a.Deliver? {
      assert l.wire[a.request] != leg;
    }
  }

  lemma {:induction false} StepKeepsBarred(l: Local, p: Posted, a: Action, leg: Leg)
    requires Inv(l, p) && Enabled(l, p, a) && Barred(l, p, leg)
    ensures Barred(Next(l, p, a), NextPosted(l, p, a), leg)
  {
    var m := Next(l, p, a);
    StepKeepsUntouched(l, p, a, leg);
    StepVersion(l, p, a);
    forall i | i in m.workers ensures Entry(l, i, m.workers[i].pc) {
      StepEntry(l, p, a, i);
    }
  }

  lemma {:induction false} StepKeepsSender(l: Local, p: Posted, a: Action, id: nat)
    requires Inv(l, p) && Enabled(l, p, a) && SoleSender(l, id)
    ensures SoleSender(Next(l, p, a), id)
  {
    var m := Next(l, p, a);
    StepVersion(l, p, a);
    forall i | i in m.workers ensures Entry(l, i, m.workers[i].pc) {
      StepEntry(l, p, a, i);
    }
  }

  lemma {:induction false} SaveVersion(l: Local, p: Posted, w: Worker)
    requires RowOk(l, p) && WorkerOk(l, p, w) && Ready(w)
    ensures var m := Commit(l, w);
      && (m.version == l.version ==> m == l)
      && (m.version != l.version ==>
            && m.version == l.version + 1
            && !Terminal(l.stored.status) && (RefundDecided(l) ==> RefundDecided(m))
            && l.outbox <= m.outbox)
  {
  }

  /** The row moves by one guarded save at a time, along the lifecycle, and never out of a terminal state. */
  lemma {:induction false} StepVersion(l: Local, p: Posted, a: Action)
    requires Inv(l, p) && Enabled(l, p, a)
    ensures var m := Next(l, p, a);
      && m.order == l.order && m.nextId >= l.nextId
      && (m.version == l.version ==> m.stored == l.stored && m.outbox == l.outbox)
      && (m.version != l.version ==>
            && m.version == l.version + 1
            && !Terminal(l.stored.status) && (RefundDecided(l) ==> RefundDecided(m))
            && l.outbox <= m.outbox)
  {
    if a.Perform? || a.Break? {
      TurnVersion(l, p, a);
    } else {
      OthersLeaveRow(l, p, a);
    }
  }

  lemma {:induction false} OthersLeaveRow(l: Local, p: Posted, a: Action)
    requires Enabled(l, p, a) && !a.Perform? && !a.Break?
    ensures var m := Next(l, p, a);
      m.order == l.order && m.nextId >= l.nextId && m.version == l.version && m.stored == l.stored && m.outbox
          == l.outbox
  {
  }

  lemma {:induction false} ResumeLeavesRow(l: Local, id: nat, next: Option<Worker>)
    ensures var m := Resume(l, id, next);
      m.order == l.order && m.nextId == l.nextId && m.version == l.version && m.stored == l.stored && m.outbox
          == l.outbox
  {
  }

  lemma {:induction false} TurnVersion(l: Local, p: Posted, a: Action)
    requires Inv(l, p) && Enabled(l, p, a) && (a.Perform? || a.Break?)
    ensures var m := Next(l, p, a);
      && m.order == l.order && m.nextId >= l.nextId
      && (m.version == l.version ==> m.stored == l.stored && m.outbox == l.outbox)
      && (m.version != l.version ==>
            && m.version == l.version + 1
            && !Terminal(l.stored.status) && (RefundDecided(l) ==> RefundDecided(m))
            && l.outbox <= m.outbox)
  {
    var w := l.workers[a.worker];
    var next := Advance(w, if a.Perform? then AnswerTo(l, p, w) else Broken);
    SaveVersion(l, p, w);
    ResumeLeavesRow(Commit(l, w), a.worker, next);
    ResumeLeavesRow(l, a.worker, next);
  }

  lemma {:induction false} StepMovesOn(l: Local, p: Posted, a: Action)
    requires Inv(l, p) && Enabled(l, p, a)
    ensures Later(l, p, Next(l, p, a), NextPosted(l, p, a))
  {
    var m, q := Next(l, p, a), NextPosted(l, p, a);
    StepKeeps(l, p, a);
    StepVersion(l, p, a);
    assert RowShape(m.version, m.stored);
    forall leg: Leg | Barred(l, p, leg) ensures Barred(m, q, leg) {
      StepKeepsBarred(l, p, a, leg);
    }
    forall i: nat | SoleSender(l, i) ensures SoleSender(m, i) {
      StepKeepsSender(l, p, a, i);
    }
  }

  lemma {:induction false} RunMovesOn(l: Local, p: Posted, run: seq<Action>)
    requires Inv(l, p) && Feasible(l, p, run)
    ensures Later(l, p, After(l, p, run).0, After(l, p, run).1)
    decreases |run|
  {
    if run != [] {
      var m, q := Next(l, p, run[0]), NextPosted(l, p, run[0]);
      StepKeeps(l, p, run[0]);
      StepMovesOn(l, p, run[0]);
      RunMovesOn(m, q, run[1..]);
    }
  }

  lemma {:induction false} OneMoreAction(l: Local, p: Posted, a: Action, rest: seq<Action>)
    requires Enabled(l, p, a) && Feasible(Next(l, p, a), NextPosted(l, p, a), rest)
    ensures Feasible(l, p, [a] + rest)
    ensures After(l, p, [a] + rest) == After(Next(l, p, a), NextPosted(l, p, a), rest)
  {
    assert ([a] + rest)[0] == a && ([a] + rest)[1..] == rest;
  }

  // ------------------------------------------------------------- the row

  /**
   * In every reachable state the version fixes the lifecycle position, so a row
   * is saved at most five times, and the outbox holds exactly what that position
   * owes: both movements and the approval, the refund and its event, the decline,
   * or nothing.
   */
  lemma {:induction false} PositionFollowsVersion(o: Order, run: seq<Action>)
    requires Feasible(Created(o), NOTHING_POSTED, run)
    ensures var l := After(Created(o), NOTHING_POSTED, run).0;
      && 1 <= l.version <= 5
      && (l.version == 1 <==> l.stored.status == Pending)
      && (l.version == 2 <==> l.stored == STARTED)
      && (l.version == 3 <==> l.stored.status == Declined || (l.stored.status == Processing && l.stored.debit.Some?))
      && (l.version == 4 <==> l.stored.status == Approved || l.stored.status == CompensationPending)
      && (l.version == 5 <==> l.stored.status == Compensated)
    ensures var l := After(Created(o), NOTHING_POSTED, run).0; var s := l.stored;
      match s.status
      case Approved =>
        s.debit.Some? && s.credit.Some?
        && l.outbox == [LedgerOf(o, DebitLeg), LedgerOf(o, CreditLeg),
                        LifecycleMessage(ApprovedEvent(s.debit.value, s.credit.value))]
      case Compensated =>
        s.refund.Some?
        && l.outbox == [LedgerOf(o, RefundLeg), LifecycleMessage(CompensatedEvent(s.refund.value))]
      case Declined => s.reason.Some? && l.outbox == [LifecycleMessage(DeclinedEvent(s.reason.value))]
      case _ => l.outbox == []
  {
    InvInit(o);
    RunKeeps(Created(o), NOTHING_POSTED, run);
    RunMovesOn(Created(o), NOTHING_POSTED, run);
  }

  /** Once terminal, a row and its outbox never change again, whatever stale workers still try to save. */
  lemma {:induction false} TerminalRowsAreFrozen(o: Order, run: seq<Action>, more: seq<Action>)
    requires Feasible(Created(o), NOTHING_POSTED, run + more) && Feasible(Created(o), NOTHING_POSTED, run)
    requires Terminal(After(Created(o), NOTHING_POSTED, run).0.stored.status)
    ensures var l, m := After(Created(o), NOTHING_POSTED, run).0, After(Created(o), NOTHING_POSTED, run + more).0;
      m.stored == l.stored && m.version == l.version && m.outbox == l.outbox
  {
    InvInit(o);
    RunKeeps(Created(o), NOTHING_POSTED, run);
    RunTail(Created(o), NOTHING_POSTED, run, more);
    RunMovesOn(After(Created(o), NOTHING_POSTED, run).0, After(Created(o), NOTHING_POSTED, run).1, more);
  }

  lemma {:induction false} RunTail(l: Local, p: Posted, first: seq<Action>, second: seq<Action>)
    requires Feasible(l, p, first + second)
    ensures Feasible(l, p, first)
    ensures Feasible(After(l, p, first).0, After(l, p, first).1, second)
    ensures After(l, p, first + second) == After(After(l, p, first).0, After(l, p, first).1, second)
    decreases |first|
  {
    if first == [] {
      assert first + second == second;
    } else {
      assert (first + second)[1..] == first[1..] + second;
      RunTail(Next(l, p, first[0]), NextPosted(l, p, first[0]), first[1..], second);
    }
  }

  ghost predicate RowMatchesLedger(s: Snapshot, p: Posted) {
    && (s.status == Pending ==> p == NOTHING_POSTED)
    && (s.status == Approved ==> p == Posted(s.debit, s.credit, None) && s.debit.Some? && s.credit.Some?)
    && (s.status == Compensated ==> p == Posted(s.debit, None, s.refund) && s.debit.Some? && s.refund.Some?)
    && (s.status == CompensationPending ==> p.debit == s.debit && s.debit.Some? && p.credit.None?)
    && (s.debit.Some? ==> p.debit == s.debit)
  }

  /** No reachable state credits or refunds without a debit, or both credits and refunds. */
  ghost predicate MoneySafe(p: Posted) {
    && (p.credit.Some? || p.refund.Some? ==> p.debit.Some?)
    && !(p.credit.Some? && p.refund.Some?)
  }

  lemma {:induction false} InvIsMoneySafe(l: Local, p: Posted)
    requires Inv(l, p)
    ensures MoneySafe(p) && RowMatchesLedger(l.stored, p)
  {
  }

  /** Rows and ledger agree, reference by reference, in every reachable state. */
  lemma {:induction false} RowsAgreeWithLedger(o: Order, run: seq<Action>)
    requires Feasible(Created(o), NOTHING_POSTED, run)
    ensures var (l, p) := After(Created(o), NOTHING_POSTED, run); RowMatchesLedger(l.stored, p) && MoneySafe(p)
  {
    InvInit(o);
    RunKeeps(Created(o), NOTHING_POSTED, run);
    InvIsMoneySafe(After(Created(o), NOTHING_POSTED, run).0, After(Created(o), NOTHING_POSTED, run).1);
  }

  // ------------------------------------------- exclusivity of credit and refund

  ghost predicate RefundIssued(l: Local, p: Posted) {
    OnWire(l, RefundLeg) || p.refund.Some? || exists i :: i in l.workers && l.workers[i].pc.SendRefund?
  }

  lemma {:induction false} RefundBarsCredit(l: Local, p: Posted, more: seq<Action>)
    requires Inv(l, p) && RefundIssued(l, p) && Feasible(l, p, more)
    ensures After(l, p, more).1.credit.None?
  {
    if i :| i in l.workers && l.workers[i].pc.SendRefund? {
      assert WorkerOk(l, p, l.workers[i]);
    }
    assert RefundDecided(l);
    RunKeeps(l, p, more);
    RunMovesOn(l, p, more);
  }

  /**
   * From the moment a refund is being requested, the destination credit is not
   * recorded and never will be. No step of the argument mentions the lock.
   */
  lemma {:induction false} RefundExcludesCredit(o: Order, run: seq<Action>, more: seq<Action>)
    requires Feasible(Created(o), NOTHING_POSTED, run + more) && Feasible(Created(o), NOTHING_POSTED, run)
    requires RefundIssued(After(Created(o), NOTHING_POSTED, run).0, After(Created(o), NOTHING_POSTED, run).1)
    ensures After(Created(o), NOTHING_POSTED, run + more).1.credit.None?
  {
    InvInit(o);
    RunKeeps(Created(o), NOTHING_POSTED, run);
    RunTail(Created(o), NOTHING_POSTED, run, more);
    RefundBarsCredit(After(Created(o), NOTHING_POSTED, run).0, After(Created(o), NOTHING_POSTED, run).1, more);
  }

  lemma {:induction false} CreditExcludesRefund(o: Order, run: seq<Action>, more: seq<Action>)
    requires Feasible(Created(o), NOTHING_POSTED, run + more) && Feasible(Created(o), NOTHING_POSTED, run)
    requires After(Created(o), NOTHING_POSTED, run).1.credit.Some?
    ensures var (m, q) := After(Created(o), NOTHING_POSTED, run + more); !RefundIssued(m, q)
  {
    InvInit(o);
    RunKeeps(Created(o), NOTHING_POSTED, run);
    RunTail(Created(o), NOTHING_POSTED, run, more);
    var (l, p) := After(Created(o), NOTHING_POSTED, run);
    CreditBarsRefund(l, p, more);
  }

  lemma {:induction false} CreditBarsRefund(l: Local, p: Posted, more: seq<Action>)
    requires Inv(l, p) && p.credit.Some? && Feasible(l, p, more)
    ensures !RefundIssued(After(l, p, more).0, After(l, p, more).1)
  {
    RunKeeps(l, p, more);
    RunMovesOn(l, p, more);
    var (m, q) := After(l, p, more);
    if RefundIssued(m, q) {
      RefundBarsCredit(m, q, []);
    }
  }

  // ------------------------------------------------------ conclusive refusals

  /** The step that hands a named refusal of this leg to the debit or credit handler. */
  ghost predicate HandsOverRefusal(l: Local, a: Action, leg: Leg) {
    && a.Receive? && a.worker in l.workers
    && var pc := l.workers[a.worker].pc;
    && ((leg == DebitLeg && pc.SendDebit?) || (leg == CreditLeg && pc.SendCredit?))
    && pc.call.awaiting.Some? && pc.call.awaiting.value in l.replies
    && AnswerFrom(pc.call, l.replies[pc.call.awaiting.value]).Refused?
  }

  lemma {:induction false} RefusalBars(l: Local, p: Posted, a: Action, leg: Leg)
    requires Inv(l, p) && Enabled(l, p, a) && HandsOverRefusal(l, a, leg)
    ensures Barred(Next(l, p, a), p, leg)
  {
    var id := a.worker;
    var w := l.workers[id];
    var m := Next(l, p, a);
    assert Untouched(l, p, leg);
    assert Owner(w.pc);
    TurnWorkers(l, p, a);
    assert forall i :: i in m.workers && i != id ==> !Owner(m.workers[i].pc);
    assert OnWire(m, leg) ==> OnWire(l, leg);
  }

  /** Accounts may refuse a movement it has already recorded; a refusal that reaches a handler is final all the same. */
  lemma {:induction false} RefusalIsConclusive(o: Order, run: seq<Action>, a: Action, leg: Leg, more: seq<Action>)
    requires Feasible(Created(o), NOTHING_POSTED, run + [a] + more)
    requires Feasible(Created(o), NOTHING_POSTED, run)
    requires HandsOverRefusal(After(Created(o), NOTHING_POSTED, run).0, a, leg)
    ensures After(Created(o), NOTHING_POSTED, run + [a] + more).1.Get(leg).None?
  {
    InvInit(o);
    var (l, p) := After(Created(o), NOTHING_POSTED, run);
    RunKeeps(Created(o), NOTHING_POSTED, run);
    assert run + [a] + more == run + ([a] + more);
    RunTail(Created(o), NOTHING_POSTED, run, [a] + more);
    assert ([a] + more)[0] == a && ([a] + more)[1..] == more;
    RefusalBars(l, p, a, leg);
    StepKeeps(l, p, a);
    RunMovesOn(Next(l, p, a), NextPosted(l, p, a), more);
  }

  /** At most one run ever sends this payment's debit and credit: two such requests come from the same worker. */
  lemma {:induction false} OneSenderPerPayment(o: Order, run: seq<Action>, i: nat, more: seq<Action>, j: nat)
    requires Feasible(Created(o), NOTHING_POSTED, run + more) && Feasible(Created(o), NOTHING_POSTED, run)
    requires var l := After(Created(o), NOTHING_POSTED, run).0; i in l.workers && Owner(l.workers[i].pc)
    requires var m := After(Created(o), NOTHING_POSTED, run + more).0; j in m.workers && Owner(m.workers[j].pc)
    ensures i == j
  {
    InvInit(o);
    RunKeeps(Created(o), NOTHING_POSTED, run);
    RunTail(Created(o), NOTHING_POSTED, run, more);
    var (l, p) := After(Created(o), NOTHING_POSTED, run);
    assert WorkerOk(l, p, l.workers[i]);
    assert SoleSender(l, i);
    RunMovesOn(l, p, more);
  }
}
