/**
 * Which payments can still come to an end. A refund that is owed always can. A
 * payment that is debited and Processing can as long as something of its credit
 * is left, and otherwise never will: that is by design, for no absence of a
 * credit is ever taken for its failure.
 */
module SagaEndings {
  import opened Wrappers
  import opened PaymentDomain
  import opened WorkerProgram
  import opened SagaProtocol
  import opened SagaGuarantees

  /** Some continuation brings the row to this kind of end. */
  ghost predicate CanReach(l: Local, p: Posted, s: Status) {
    exists more :: Feasible(l, p, more) && After(l, p, more).0.stored.status == s
  }

  ghost predicate CanEnd(l: Local, p: Posted) {
    CanReach(l, p, Approved) || CanReach(l, p, Declined) || CanReach(l, p, Compensated)
  }

  lemma {:induction false} ReachesAfter(l: Local, p: Posted, a: Action, s: Status)
    requires Enabled(l, p, a) && CanReach(Next(l, p, a), NextPosted(l, p, a), s)
    ensures CanReach(l, p, s)
  {
    var m, q := Next(l, p, a), NextPosted(l, p, a);
    var more :| Feasible(m, q, more) && After(m, q, more).0.stored.status == s;
    OneMoreAction(l, p, a, more);
    assert Feasible(l, p, [a] + more);
  }

  lemma {:induction false} ReachesNow(l: Local, p: Posted)
    ensures CanReach(l, p, l.stored.status)
  {
    assert Feasible(l, p, []) && After(l, p, []) == (l, p);
  }

  // ---------------------------------------------------------- a fresh recovery

  /** A recovery that has just been started, under whatever lock there is. */
  predicate Recovering(l: Local, id: nat) {
    id in l.workers && l.workers[id] == Worker(ReadForRecovery, FRESH, 0)
  }

  /** A recovery can be started at any time; a lock that is held may be lost. */
  lemma {:induction false} RecoveryCanStart(l: Local, p: Posted, s: Status)
    requires Inv(l, p)
    requires forall m: Local ::
               Inv(m, p) && Recovering(m, l.nextId) && m.stored == l.stored && m.version == l.version
               ==> CanReach(m, p, s)
    ensures CanReach(l, p, s)
  {
    var free := l.(lock := None);
    LoseLockKeeps(l, p);
    StepKeeps(free, p, StartRecovery);
    var m := Next(free, p, StartRecovery);
    assert Recovering(m, l.nextId);
    ReachesAfter(free, p, StartRecovery, s);
    if l.lock.Some? {
      assert Next(l, p, LoseLock) == free;
      ReachesAfter(l, p, LoseLock, s);
    } else {
      assert l == free;
    }
  }

  // ------------------------------------------------------------- an owed refund

  lemma {:induction false} OwedIsRead(l: Local, p: Posted, id: nat)
    requires Inv(l, p) && Recovering(l, id) && l.stored.status == CompensationPending
    ensures var m := Next(l, p, Perform(id));
      && Enabled(l, p, Perform(id))
      && m.workers == l.workers[id := Worker(SendRefund(FIRST_ATTEMPT), l.stored, 4)]
      && m.stored == l.stored && m.version == 4 && IsOwed(m.stored)
  {
    assert RowOk(l, p);
  }

  lemma {:induction false} RefundIsGranted(l: Local, p: Posted, id: nat, reference: string)
    requires id in l.workers && l.workers[id].pc == SendRefund(FIRST_ATTEMPT) && IsOwed(l.workers[id].held)
    requires p.refund.Some? ==> p.refund.value == reference
    ensures var m := Next(l, p, Post(id));
      var d := Deliver(l.nextId, if p.refund.Some? then Replayed(reference) else Applied(reference));
      && Enabled(l, p, Post(id)) && Enabled(m, p, d)
      && var (n, q) := (Next(m, p, d), NextPosted(m, p, d));
      && Enabled(n, q, Receive(id))
      && var r := Next(n, q, Receive(id));
      && r.stored == l.stored && r.version == l.version && r.order == l.order
      && id in r.workers
      && r.workers[id] == l.workers[id].(pc := SaveCompensated,
          held := Unwound(l.workers[id].held.debit.value, reference))
  {
    var m := Next(l, p, Post(id));
    assert m.wire[l.nextId] == RefundLeg;
    assert m.workers[id] == WithCall(l.workers[id], Call(false, Some(l.nextId)));
  }

  lemma {:induction false} RefundIsSaved(l: Local, p: Posted, id: nat)
    requires id in l.workers && l.workers[id].pc.SaveCompensated? && l.workers[id].held.refund.Some?
    requires l.workers[id].revision == l.version && l.workers[id].held.status == Compensated
    ensures Enabled(l, p, Perform(id)) && Next(l, p, Perform(id)).stored.status == Compensated
  {
  }

  lemma {:induction false} RecoveryCompensates(l: Local, p: Posted, id: nat, reference: string)
    requires Inv(l, p) && Recovering(l, id) && l.stored.status == CompensationPending
    requires p.refund.Some? ==> p.refund.value == reference
    ensures CanReach(l, p, Compensated)
  {
    OwedIsRead(l, p, id);
    var m := Next(l, p, Perform(id));
    RefundIsGranted(m, p, id, reference);
    var posted := Next(m, p, Post(id));
    var d := Deliver(m.nextId, if p.refund.Some? then Replayed(reference) else Applied(reference));
    var n, q := Next(posted, p, d), NextPosted(posted, p, d);
    var r := Next(n, q, Receive(id));
    RefundIsSaved(r, q, id);
    ReachesNow(Next(r, q, Perform(id)), q);
    ReachesAfter(r, q, Perform(id), Compensated);
    ReachesAfter(n, q, Receive(id), Compensated);
    ReachesAfter(posted, p, d, Compensated);
    ReachesAfter(m, p, Post(id), Compensated);
    ReachesAfter(l, p, Perform(id), Compensated);
  }

  lemma {:induction false} OwedCanBePaidBack(l: Local, p: Posted, reference: string)
    requires Inv(l, p) && l.stored.status == CompensationPending
    ensures CanReach(l, p, Compensated)
  {
    forall m: Local | Inv(m, p) && Recovering(m, l.nextId) && m.stored == l.stored && m.version == l.version
      ensures CanReach(m, p, Compensated)
    {
      RecoveryCompensates(m, p, l.nextId, if p.refund.Some? then p.refund.value else reference);
    }
    RecoveryCanStart(l, p, Compensated);
  }

  /** From every reachable state a refund that is owed can still be completed, whatever was lost on the way. */
  lemma {:induction false} RefundCanAlwaysComplete(o: Order, run: seq<Action>, reference: string)
    requires Feasible(Created(o), NOTHING_POSTED, run)
    requires After(Created(o), NOTHING_POSTED, run).0.stored.status == CompensationPending
    ensures var (l, p) := After(Created(o), NOTHING_POSTED, run); CanReach(l, p, Compensated)
  {
    InvInit(o);
    RunKeeps(Created(o), NOTHING_POSTED, run);
    OwedCanBePaidBack(After(Created(o), NOTHING_POSTED, run).0, After(Created(o), NOTHING_POSTED, run).1, reference);
  }

  // ------------------------------------------------- a debited payment in doubt

  /** Its row says it is debited, and says nothing of a credit. */
  predicate InDoubt(l: Local) { l.version == 3 && IsDebited(l.stored) }

  predicate KeepsCreditAlive(pc: Pc) {
    pc.ReadForCredit? || pc.SendCredit? || pc.SaveCreditRefused? || pc.SaveRefundDecision?
  }

  /**
   * Something of the credit is left: recorded, on the wire, or with a worker that can still send it or
   * knows it will not be.
   */
  predicate CreditAlive(l: Local, p: Posted) {
    p.credit.Some? || OnWire(l, CreditLeg) || exists i :: i in l.workers && KeepsCreditAlive(l.workers[i].pc)
  }

  lemma {:induction false} DoubtIsRead(l: Local, p: Posted, id: nat)
    requires Recovering(l, id) && InDoubt(l) && p.credit.Some?
    ensures var m := Next(l, p, Perform(id));
      && Enabled(l, p, Perform(id)) && Enabled(m, p, Perform(id))
      && var n := Next(m, p, Perform(id));
      && n.version == 3 && id in n.workers
      && n.workers[id] == Worker(SaveReconciled, Settled(l.stored.debit.value, p.credit.value), 3)
  {
    var m := Next(l, p, Perform(id));
    assert m.workers[id] == Worker(LookCredit, l.stored, 3);
    assert Commit(m, m.workers[id]) == m;
  }

  lemma {:induction false} RecoveryApproves(l: Local, p: Posted, id: nat)
    requires Recovering(l, id) && InDoubt(l) && p.credit.Some?
    ensures CanReach(l, p, Approved)
  {
    DoubtIsRead(l, p, id);
    var m := Next(l, p, Perform(id));
    var n := Next(m, p, Perform(id));
    var done := Next(n, p, Perform(id));
    assert done.stored.status == Approved;
    ReachesNow(done, p);
    ReachesAfter(n, p, Perform(id), Approved);
    ReachesAfter(m, p, Perform(id), Approved);
    ReachesAfter(l, p, Perform(id), Approved);
  }

  lemma {:induction false} RecordedCreditApproves(l: Local, p: Posted)
    requires Inv(l, p) && InDoubt(l) && p.credit.Some?
    ensures CanReach(l, p, Approved)
  {
    forall m: Local | Inv(m, p) && Recovering(m, l.nextId) && m.stored == l.stored && m.version == l.version
      ensures CanReach(m, p, Approved)
    {
      RecoveryApproves(m, p, l.nextId);
    }
    RecoveryCanStart(l, p, Approved);
  }

  lemma {:induction false} CreditOnWireApproves(l: Local, p: Posted, r: nat, reference: string)
    requires Inv(l, p) && InDoubt(l) && r in l.wire && l.wire[r] == CreditLeg
    ensures CanReach(l, p, Approved)
  {
    if p.credit.Some? {
      RecordedCreditApproves(l, p);
    } else {
      var d := Deliver(r, Applied(reference));
      StepKeeps(l, p, d);
      RecordedCreditApproves(Next(l, p, d), NextPosted(l, p, d));
      ReachesAfter(l, p, d, Approved);
    }
  }

  lemma {:induction false} SenderApproves(l: Local, p: Posted, i: nat, reference: string)
    requires Inv(l, p) && InDoubt(l) && i in l.workers && l.workers[i].pc.SendCredit?
    requires l.workers[i].pc.call.awaiting.None?
    ensures CanReach(l, p, Approved)
  {
    var m := Next(l, p, Post(i));
    StepKeeps(l, p, Post(i));
    assert m.wire[l.nextId] == CreditLeg;
    CreditOnWireApproves(m, p, l.nextId, reference);
    ReachesAfter(l, p, Post(i), Approved);
  }

  lemma {:induction false} WaitingSenderApproves(l: Local, p: Posted, i: nat, reference: string)
    requires Inv(l, p) && InDoubt(l) && i in l.workers && l.workers[i].pc.SendCredit?
    ensures CanReach(l, p, Approved)
  {
    if l.workers[i].pc.call.awaiting.None? {
      SenderApproves(l, p, i, reference);
    } else {
      var a := GiveUp(i, true);
      StepKeeps(l, p, a);
      assert Next(l, p, a).workers[i].pc == SendCredit(Call(true, None));
      SenderApproves(Next(l, p, a), p, i, reference);
      ReachesAfter(l, p, a, Approved);
    }
  }

  lemma {:induction false} ReaderApproves(l: Local, p: Posted, i: nat, reference: string)
    requires Inv(l, p) && InDoubt(l) && i in l.workers && l.workers[i].pc.ReadForCredit?
    ensures CanReach(l, p, Approved)
  {
    StepKeeps(l, p, Perform(i));
    assert Next(l, p, Perform(i)).workers[i] == Worker(SendCredit(FIRST_ATTEMPT), l.stored, 3);
    WaitingSenderApproves(Next(l, p, Perform(i)), p, i, reference);
    ReachesAfter(l, p, Perform(i), Approved);
  }

  lemma {:induction false} DeciderCompensates(l: Local, p: Posted, i: nat, reference: string)
    requires Inv(l, p) && InDoubt(l) && i in l.workers
    requires l.workers[i].pc.SaveCreditRefused? || l.workers[i].pc.SaveRefundDecision?
    ensures CanReach(l, p, Compensated)
  {
    assert WorkerOk(l, p, l.workers[i]);
    StepKeeps(l, p, Perform(i));
    assert Next(l, p, Perform(i)).stored.status == CompensationPending;
    OwedCanBePaidBack(Next(l, p, Perform(i)), p, reference);
    ReachesAfter(l, p, Perform(i), Compensated);
  }

  lemma {:induction false} AliveCanEnd(l: Local, p: Posted, reference: string)
    requires Inv(l, p) && InDoubt(l) && CreditAlive(l, p)
    ensures CanEnd(l, p)
  {
    if p.credit.Some? {
      RecordedCreditApproves(l, p);
    } else if OnWire(l, CreditLeg) {
      var r :| r in l.wire && l.wire[r] == CreditLeg;
      CreditOnWireApproves(l, p, r, reference);
    } else {
      var i :| i in l.workers && KeepsCreditAlive(l.workers[i].pc);
      if l.workers[i].pc.ReadForCredit? {
        ReaderApproves(l, p, i, reference);
      } else if l.workers[i].pc.SendCredit? {
        WaitingSenderApproves(l, p, i, reference);
      } else {
        DeciderCompensates(l, p, i, reference);
      }
    }
  }

  // --------------------------------------------------------- and one that is lost

  lemma {:induction false} DeadTurn(l: Local, p: Posted, w: Worker, a: Answer)
    requires InDoubt(l) && WorkerOk(l, p, w) && !KeepsCreditAlive(w.pc) && (a.Saved? ==> w.revision == l.version)
    requires p.credit.None?
    ensures var next := Advance(w, a); next.Some? ==> !KeepsCreditAlive(next.value.pc)
  {
  }

  lemma {:induction false} DeadSave(l: Local, p: Posted, w: Worker)
    requires InDoubt(l) && WorkerOk(l, p, w) && Ready(w) && !KeepsCreditAlive(w.pc) && p.credit.None?
    ensures Commit(l, w) == l
  {
  }

  lemma {:induction false} DeadWorkersStayDead(l: Local, p: Posted, a: Action, i: nat)
    requires Inv(l, p) && Enabled(l, p, a) && InDoubt(l) && !CreditAlive(l, p)
    requires i in Next(l, p, a).workers
    ensures !KeepsCreditAlive(Next(l, p, a).workers[i].pc)
  {
    var turn := Turn(l, p, a);
    if turn.Some? {
      TurnWorkers(l, p, a);
      var (id, answer) := turn.value;
      if i == id {
        DeadTurn(l, p, l.workers[id], answer);
      }
    }
  }

  lemma {:induction false} DeadRowStays(l: Local, p: Posted, a: Action)
    requires Inv(l, p) && Enabled(l, p, a) && InDoubt(l) && !CreditAlive(l, p)
    ensures Next(l, p, a).stored == l.stored && Next(l, p, a).version == l.version
  {
    if a.Perform? || a.Break? {
      DeadSave(l, p, l.workers[a.worker]);
      var w := l.workers[a.worker];
      ResumeLeavesRow(l, a.worker, Advance(w, if a.Perform? then AnswerTo(l, p, w) else Broken));
    } else {
      OthersLeaveRow(l, p, a);
    }
  }

  lemma {:induction false} DeadWireStays(l: Local, p: Posted, a: Action)
    requires Enabled(l, p, a) && !CreditAlive(l, p)
    ensures !OnWire(Next(l, p, a), CreditLeg) && NextPosted(l, p, a).credit.None?
  {
    assert forall r :: r in Next(l, p, a).wire ==> Next(l, p, a).wire[r] != CreditLeg;
  }

  lemma {:induction false} DeadStaysInDoubt(l: Local, p: Posted, more: seq<Action>)
    requires Inv(l, p) && InDoubt(l) && !CreditAlive(l, p) && Feasible(l, p, more)
    ensures After(l, p, more).0.stored == l.stored
    decreases |more|
  {
    if more != [] {
      var a := more[0];
      StepKeeps(l, p, a);
      DeadRowStays(l, p, a);
      DeadWireStays(l, p, a);
      forall i | i in Next(l, p, a).workers ensures !KeepsCreditAlive(Next(l, p, a).workers[i].pc) {
        DeadWorkersStayDead(l, p, a, i);
      }
      DeadStaysInDoubt(Next(l, p, a), NextPosted(l, p, a), more[1..]);
    }
  }

  /**
   * A payment whose row is Processing with its debit recorded can still come to
   * an end exactly when something of its credit is left; otherwise it stays as it
   * is for ever, whatever recovery does.
   */
  lemma {:induction false} DoubtCanEndExactly(o: Order, run: seq<Action>, reference: string)
    requires Feasible(Created(o), NOTHING_POSTED, run)
    requires var s := After(Created(o), NOTHING_POSTED, run).0.stored; s.status == Processing && s.debit.Some?
    ensures var (l, p) := After(Created(o), NOTHING_POSTED, run);
      && (CanEnd(l, p) <==> CreditAlive(l, p))
      && (!CreditAlive(l, p) ==> forall more :: Feasible(l, p, more) ==> After(l, p, more).0.stored == l.stored)
  {
    InvInit(o);
    RunKeeps(Created(o), NOTHING_POSTED, run);
    var (l, p) := After(Created(o), NOTHING_POSTED, run);
    if CreditAlive(l, p) {
      AliveCanEnd(l, p, reference);
    } else {
      forall more | Feasible(l, p, more) ensures After(l, p, more).0.stored == l.stored {
        DeadStaysInDoubt(l, p, more);
      }
    }
  }
}
