/**
 * What every answer does to a payment, told from what can be seen of it: the row,
 * the outbox, the wire, and the reply a request has got. Each result starts from
 * any reachable state and holds whatever everybody else does in the meantime.
 */
module SagaAnswers {
  import opened Wrappers
  import opened PaymentDomain
  import opened WorkerProgram
  import opened SagaProtocol
  import opened SagaGuarantees
  import E = SagaEndings

  ghost predicate Reachable(l: Local, p: Posted) {
    exists o: Order, run: seq<Action> ::
      Feasible(Created(o), NOTHING_POSTED, run) && After(Created(o), NOTHING_POSTED, run) == (l, p)
  }

  lemma {:induction false} ReachableIsInv(l: Local, p: Posted)
    requires Reachable(l, p)
    ensures Inv(l, p)
  {
    var o: Order, run: seq<Action> :|
      Feasible(Created(o), NOTHING_POSTED, run) && After(Created(o), NOTHING_POSTED, run) == (l, p);
    InvInit(o);
    RunKeeps(Created(o), NOTHING_POSTED, run);
  }

  // ----------------------------------------------------- what a request has got

  /** The worker's request of this leg has been answered, and it has not looked at the reply yet. */
  predicate InHand(l: Local, id: nat, leg: Leg, reply: Reply) {
    && id in l.workers && Sending(l.workers[id].pc) && LegOf(l.workers[id].pc) == leg
    && var c := l.workers[id].pc.call;
    c.awaiting.Some? && c.awaiting.value in l.replies && l.replies[c.awaiting.value] == reply
  }

  predicate HearsGrant(l: Local, id: nat, leg: Leg, reference: string) {
    InHand(l, id, leg, Granted(leg, reference))
  }

  /** A refusal, and the request it answers is the first of its call. */
  predicate HearsRefusal(l: Local, id: nat, leg: Leg, reason: FailureReason) {
    InHand(l, id, leg, Denied(leg, reason)) && !l.workers[id].pc.call.uncertain
  }

  /** The ways a call can end with nothing known: no answer, an open circuit, or a refusal after a failed attempt. */
  predicate HearsNothing(l: Local, p: Posted, a: Action, leg: Leg) {
    && Enabled(l, p, a)
    && match a
       case GiveUp(id, retry) => !retry && LegOf(l.workers[id].pc) == leg
       case OpenCircuit(id) => LegOf(l.workers[id].pc) == leg
       case Receive(id) =>
         l.workers[id].pc.call.uncertain && exists reason :: InHand(l, id, leg, Denied(leg, reason))
       case _ => false
  }

  // --------------------------------------------------- what a worker goes on to do

  /** A step of this worker, as against one of another worker, the network, the lock or a new run. */
  predicate Steps(a: Action, id: nat) {
    match a
    case Perform(w) => w == id
    case Break(w, _) => w == id
    case Post(w) => w == id
    case Receive(w) => w == id
    case GiveUp(w, _) => w == id
    case OpenCircuit(w) => w == id
    case Crash(w) => w == id
    case _ => false
  }

  /** Steps of others, in any number. */
  ghost predicate Meanwhile(l: Local, p: Posted, id: nat, more: seq<Action>) {
    Feasible(l, p, more) && forall a :: a in more ==> !Steps(a, id)
  }

  predicate SameRow(l: Local, m: Local) {
    m.stored == l.stored && m.version == l.version && m.outbox == l.outbox
  }

  /** The worker's next step puts one request of this leg on the wire. */
  ghost predicate Sends(l: Local, p: Posted, id: nat, leg: Leg) {
    forall more :: Meanwhile(l, p, id, more) ==>
      var (m, q) := After(l, p, more);
      && Enabled(m, q, Post(id))
      && SameRow(m, Next(m, q, Post(id)))
      && Next(m, q, Post(id)).wire == m.wire[m.nextId := leg]
  }

  /** The worker's next step is a save from this version: it goes through, messages and all, or changes nothing. */
  ghost predicate Saves(l: Local, p: Posted, id: nat, from: nat, s: Snapshot, messages: seq<Message>) {
    forall more :: Meanwhile(l, p, id, more) ==>
      var (m, q) := After(l, p, more);
      && Enabled(m, q, Perform(id))
      && var n := Next(m, q, Perform(id));
      if m.version == from then n.stored == s && n.version == from + 1 && n.outbox == m.outbox + messages
      else SameRow(m, n)
  }

  /** And that save, gone through, was the last thing the run did. */
  ghost predicate SavesAndEnds(l: Local, p: Posted, id: nat, from: nat, s: Snapshot, messages: seq<Message>) {
    && Saves(l, p, id, from, s, messages)
    && forall more :: Meanwhile(l, p, id, more) ==>
      var (m, q) := After(l, p, more);
      m.version == from ==> id !in Next(m, q, Perform(id)).workers
  }

  /** Or a request follows it. */
  ghost predicate SavesAndSends(l: Local, p: Posted, id: nat, from: nat, s: Snapshot, leg: Leg) {
    && Saves(l, p, id, from, s, [])
    && forall more :: Meanwhile(l, p, id, more) ==>
      var (m, q) := After(l, p, more);
      m.version == from ==> Sends(Next(m, q, Perform(id)), q, id, leg)
  }

  /** The worker's next step reads the row, and if it still says `s` a request follows. */
  ghost predicate ReadsAndSends(l: Local, p: Posted, id: nat, s: Snapshot, leg: Leg) {
    forall more :: Meanwhile(l, p, id, more) ==>
      var (m, q) := After(l, p, more);
      && Enabled(m, q, Perform(id)) && SameRow(m, Next(m, q, Perform(id)))
      && (m.stored == s ==> Sends(Next(m, q, Perform(id)), q, id, leg))
  }

  ghost predicate SavesReadsAndSends(l: Local, p: Posted, id: nat, from: nat, s: Snapshot, leg: Leg) {
    && Saves(l, p, id, from, s, [])
    && forall more :: Meanwhile(l, p, id, more) ==>
      var (m, q) := After(l, p, more);
      m.version == from ==> ReadsAndSends(Next(m, q, Perform(id)), q, id, s, leg)
  }

  lemma {:induction false} OthersLeaveWorker(l: Local, p: Posted, a: Action, id: nat)
    requires Inv(l, p) && Enabled(l, p, a) && !Steps(a, id) && id in l.workers
    ensures var m := Next(l, p, a); id in m.workers && m.workers[id] == l.workers[id] && m.order == l.order
  {
    if Turn(l, p, a).Some? {
      TurnWorkers(l, p, a);
    }
    StepVersion(l, p, a);
  }

  /** Nobody else touches a worker's own copy, its revision or its place in the program. */
  lemma {:induction false} MeanwhileKeeps(l: Local, p: Posted, id: nat, more: seq<Action>)
    requires Inv(l, p) && id in l.workers && Meanwhile(l, p, id, more)
    ensures var (m, q) := After(l, p, more);
      Inv(m, q) && id in m.workers && m.workers[id] == l.workers[id] && m.order == l.order
    decreases |more|
  {
    if more != [] {
      assert more[0] in more;
      OthersLeaveWorker(l, p, more[0], id);
      StepKeeps(l, p, more[0]);
      assert forall a :: a in more[1..] ==> a in more;
      MeanwhileKeeps(Next(l, p, more[0]), NextPosted(l, p, more[0]), id, more[1..]);
    }
  }

  lemma {:induction false} SenderSends(l: Local, p: Posted, id: nat)
    requires Inv(l, p) && id in l.workers && Sending(l.workers[id].pc) && l.workers[id].pc.call.awaiting.None?
    ensures Sends(l, p, id, LegOf(l.workers[id].pc))
  {
    forall more | Meanwhile(l, p, id, more)
      ensures var (m, q) := After(l, p, more);
        && Enabled(m, q, Post(id))
        && SameRow(m, Next(m, q, Post(id)))
        && Next(m, q, Post(id)).wire == m.wire[m.nextId := LegOf(l.workers[id].pc)]
    {
      MeanwhileKeeps(l, p, id, more);
    }
  }

  lemma {:induction false} SaverSaves(l: Local, p: Posted, id: nat, s: Snapshot, messages: seq<Message>)
    requires Inv(l, p) && id in l.workers && !Sending(l.workers[id].pc) && Ready(l.workers[id])
    requires NextWant(l.order, l.workers[id]) == WantSave(s, messages)
    ensures Saves(l, p, id, l.workers[id].revision, s, messages)
  {
    var from := l.workers[id].revision;
    forall more | Meanwhile(l, p, id, more)
      ensures var (m, q) := After(l, p, more);
        && Enabled(m, q, Perform(id))
        && var n := Next(m, q, Perform(id));
        if m.version == from then n.stored == s && n.version == from + 1 && n.outbox == m.outbox + messages
        else SameRow(m, n)
    {
      MeanwhileKeeps(l, p, id, more);
      var (m, q) := After(l, p, more);
      PerformRow(m, q, id);
    }
  }

  lemma {:induction false} PerformRow(l: Local, p: Posted, id: nat)
    requires Enabled(l, p, Perform(id))
    ensures SameRow(Commit(l, l.workers[id]), Next(l, p, Perform(id)))
  {
    var w := l.workers[id];
    ResumeLeavesRow(Commit(l, w), id, Advance(w, AnswerTo(l, p, w)));
  }

  /** Where a worker is once its save has gone through. */
  lemma {:induction false} SavedWorker(l: Local, p: Posted, id: nat, more: seq<Action>)
    requires Inv(l, p) && id in l.workers && !Sending(l.workers[id].pc) && Ready(l.workers[id])
    requires NextWant(l.order, l.workers[id]).WantSave? && Meanwhile(l, p, id, more)
    requires After(l, p, more).0.version == l.workers[id].revision
    ensures var (m, q) := After(l, p, more);
      var next := Advance(l.workers[id], Saved);
      && Enabled(m, q, Perform(id)) && Inv(Next(m, q, Perform(id)), q)
      && (next.Some? <==> id in Next(m, q, Perform(id)).workers)
      && (next.Some? ==> Next(m, q, Perform(id)).workers[id] == next.value)
  {
    MeanwhileKeeps(l, p, id, more);
    var (m, q) := After(l, p, more);
    StepKeeps(m, q, Perform(id));
    TurnWorkers(m, q, Perform(id));
  }

  lemma {:induction false} LastSave(l: Local, p: Posted, id: nat, s: Snapshot, messages: seq<Message>)
    requires Inv(l, p) && id in l.workers && !Sending(l.workers[id].pc) && Ready(l.workers[id])
    requires NextWant(l.order, l.workers[id]) == WantSave(s, messages) && Advance(l.workers[id], Saved).None?
    ensures SavesAndEnds(l, p, id, l.workers[id].revision, s, messages)
  {
    SaverSaves(l, p, id, s, messages);
    forall more | Meanwhile(l, p, id, more)
      ensures var (m, q) := After(l, p, more);
        m.version == l.workers[id].revision ==> id !in Next(m, q, Perform(id)).workers
    {
      if After(l, p, more).0.version == l.workers[id].revision {
        SavedWorker(l, p, id, more);
      }
    }
  }

  lemma {:induction false} SaveThenSend(l: Local, p: Posted, id: nat, s: Snapshot, leg: Leg)
    requires Inv(l, p) && id in l.workers && !Sending(l.workers[id].pc) && Ready(l.workers[id])
    requires NextWant(l.order, l.workers[id]) == WantSave(s, [])
    requires var next := Advance(l.workers[id], Saved);
      next.Some? && Sending(next.value.pc) && next.value.pc.call.awaiting.None? && LegOf(next.value.pc) == leg
    ensures SavesAndSends(l, p, id, l.workers[id].revision, s, leg)
  {
    SaverSaves(l, p, id, s, []);
    forall more | Meanwhile(l, p, id, more)
      ensures var (m, q) := After(l, p, more);
        m.version == l.workers[id].revision ==> Sends(Next(m, q, Perform(id)), q, id, leg)
    {
      var (m, q) := After(l, p, more);
      if m.version == l.workers[id].revision {
        SavedWorker(l, p, id, more);
        SenderSends(Next(m, q, Perform(id)), q, id);
      }
    }
  }

  /** The two readers that go on to send, each with the row it sends for. */
  predicate SendsAfterReading(pc: Pc, s: Snapshot, leg: Leg) {
    || (pc.ReadForCredit? && IsDebited(s) && leg == CreditLeg)
    || (pc.ReadForRecovery? && IsOwed(s) && leg == RefundLeg)
  }

  lemma {:induction false} ReadNow(l: Local, p: Posted, id: nat, leg: Leg)
    requires Inv(l, p) && id in l.workers && SendsAfterReading(l.workers[id].pc, l.stored, leg)
    ensures Sends(Next(l, p, Perform(id)), p, id, leg)
  {
    StepKeeps(l, p, Perform(id));
    TurnWorkers(l, p, Perform(id));
    SenderSends(Next(l, p, Perform(id)), p, id);
  }

  lemma {:induction false} ReaderSends(l: Local, p: Posted, id: nat, s: Snapshot, leg: Leg)
    requires Inv(l, p) && id in l.workers && SendsAfterReading(l.workers[id].pc, s, leg)
    ensures ReadsAndSends(l, p, id, s, leg)
  {
    forall more | Meanwhile(l, p, id, more)
      ensures var (m, q) := After(l, p, more);
        && Enabled(m, q, Perform(id)) && SameRow(m, Next(m, q, Perform(id)))
        && (m.stored == s ==> Sends(Next(m, q, Perform(id)), q, id, leg))
    {
      MeanwhileKeeps(l, p, id, more);
      var (m, q) := After(l, p, more);
      PerformRow(m, q, id);
      if m.stored == s {
        ReadNow(m, q, id, leg);
      }
    }
  }

  lemma {:induction false} SaveThenRead(l: Local, p: Posted, id: nat, s: Snapshot, leg: Leg)
    requires Inv(l, p) && id in l.workers && !Sending(l.workers[id].pc) && Ready(l.workers[id])
    requires NextWant(l.order, l.workers[id]) == WantSave(s, [])
    requires var next := Advance(l.workers[id], Saved); next.Some? && SendsAfterReading(next.value.pc, s, leg)
    ensures SavesReadsAndSends(l, p, id, l.workers[id].revision, s, leg)
  {
    SaverSaves(l, p, id, s, []);
    forall more | Meanwhile(l, p, id, more)
      ensures var (m, q) := After(l, p, more);
        m.version == l.workers[id].revision ==> ReadsAndSends(Next(m, q, Perform(id)), q, id, s, leg)
    {
      var (m, q) := After(l, p, more);
      if m.version == l.workers[id].revision {
        SavedWorker(l, p, id, more);
        ReaderSends(Next(m, q, Perform(id)), q, id, s, leg);
      }
    }
  }

  // ---------------------------------------------------------------- the debit

  /** Where a reply in hand takes a worker. */
  lemma {:induction false} Heard(l: Local, p: Posted, id: nat, leg: Leg, reply: Reply)
    requires Inv(l, p) && InHand(l, id, leg, reply)
    ensures var m := Next(l, p, Receive(id));
      var next := Advance(l.workers[id], AnswerFrom(l.workers[id].pc.call, reply));
      && Enabled(l, p, Receive(id)) && SameRow(l, m) && m.order == l.order && Inv(m, p)
      && (next.Some? <==> id in m.workers)
      && (next.Some? ==> m.workers[id] == next.value)
  {
    StepKeeps(l, p, Receive(id));
    TurnWorkers(l, p, Receive(id));
    OthersLeaveRow(l, p, Receive(id));
  }

  /** A debit that was made is recorded, and the credit is requested next. */
  lemma {:induction false} GrantedDebit(l: Local, p: Posted, id: nat, reference: string)
    requires Reachable(l, p) && HearsGrant(l, id, DebitLeg, reference)
    ensures var m := Next(l, p, Receive(id));
      && Enabled(l, p, Receive(id)) && SameRow(l, m)
      && SavesReadsAndSends(m, p, id, 2, Debited(reference), CreditLeg)
  {
    ReachableIsInv(l, p);
    assert WorkerOk(l, p, l.workers[id]);
    Heard(l, p, id, DebitLeg, Granted(DebitLeg, reference));
    SaveThenRead(Next(l, p, Receive(id)), p, id, Debited(reference), CreditLeg);
  }

  /** A debit that was refused declines the payment for exactly the reason given, and says so in one event. */
  lemma {:induction false} RefusedDebit(l: Local, p: Posted, id: nat, reason: FailureReason)
    requires Reachable(l, p) && HearsRefusal(l, id, DebitLeg, reason)
    ensures var m := Next(l, p, Receive(id));
      && Enabled(l, p, Receive(id)) && SameRow(l, m)
      && SavesAndEnds(m, p, id, 2, Closed(reason), [LifecycleMessage(DeclinedEvent(reason))])
    ensures var m := Next(l, p, Receive(id));
      && Enabled(m, p, Perform(id))
      && var n := Next(m, p, Perform(id));
      l.version == 2 ==> n.stored == Closed(reason) && n.outbox == [LifecycleMessage(DeclinedEvent(reason))]
  {
    ReachableIsInv(l, p);
    assert WorkerOk(l, p, l.workers[id]);
    Heard(l, p, id, DebitLeg, Denied(DebitLeg, reason));
    var m := Next(l, p, Receive(id));
    LastSave(m, p, id, Closed(reason), [LifecycleMessage(DeclinedEvent(reason))]);
    SavesNow(m, p, id, 2, Closed(reason), [LifecycleMessage(DeclinedEvent(reason))]);
  }

  lemma {:induction false} SavesNow(l: Local, p: Posted, id: nat, from: nat, s: Snapshot, messages: seq<Message>)
    requires Saves(l, p, id, from, s, messages) && (l.version == from ==> l.outbox == [])
    ensures Enabled(l, p, Perform(id))
    ensures l.version == from ==>
              var n := Next(l, p, Perform(id)); n.stored == s && n.version == from + 1 && n.outbox == messages
  {
    assert Meanwhile(l, p, id, []);
    assert [] + messages == messages;
  }

  /** A debit of which nothing is known leaves the payment as it is, and the run is over. */
  lemma {:induction false} UnclearDebit(l: Local, p: Posted, a: Action)
    requires Reachable(l, p) && HearsNothing(l, p, a, DebitLeg)
    ensures SameRow(l, Next(l, p, a)) && a.worker !in Next(l, p, a).workers
  {
    OthersLeaveRow(l, p, a);
    TurnWorkers(l, p, a);
  }

  // --------------------------------------------------------------- the credit

  /** A credit that was made is saved as an approval, with both ledger messages and the event. */
  lemma {:induction false} GrantedCredit(l: Local, p: Posted, id: nat, reference: string)
    requires Reachable(l, p) && HearsGrant(l, id, CreditLeg, reference)
    ensures p.debit.Some?
    ensures var m := Next(l, p, Receive(id)); var o := l.order;
      && Enabled(l, p, Receive(id)) && SameRow(l, m)
      && SavesAndEnds(m, p, id, 3, Settled(p.debit.value, reference),
                      [LedgerMessage(DebitLeg, DEBIT, o.source, o.amount, o.currency, o.user),
                       LedgerMessage(CreditLeg, CREDIT, o.destination, o.amount, o.currency, o.user),
                       LifecycleMessage(ApprovedEvent(p.debit.value, reference))])
  {
    ReachableIsInv(l, p);
    assert WorkerOk(l, p, l.workers[id]);
    Heard(l, p, id, CreditLeg, Granted(CreditLeg, reference));
    var s := Settled(p.debit.value, reference);
    LastSave(Next(l, p, Receive(id)), p, id, s, ApprovalMessages(l.order, s));
  }

  /**
   * A credit that was refused is saved as an owed refund before anything is sent
   * back, the refund is requested next, and the payment can be compensated.
   */
  lemma {:induction false} RefusedCredit(l: Local, p: Posted, id: nat, reason: FailureReason, refund: string)
    requires Reachable(l, p) && HearsRefusal(l, id, CreditLeg, reason)
    ensures p.debit.Some?
    ensures var m := Next(l, p, Receive(id));
      && Enabled(l, p, Receive(id)) && SameRow(l, m)
      && SavesReadsAndSends(m, p, id, 3, Owed(p.debit.value), RefundLeg)
    ensures l.version == 3 ==> E.CanReach(l, p, Compensated)
  {
    ReachableIsInv(l, p);
    RefusalIsTaken(l, p, id, reason);
    if l.version == 3 {
      OwedInTheEnd(Next(l, p, Receive(id)), p, id, p.debit.value, refund);
      E.ReachesAfter(l, p, Receive(id), Compensated);
    }
  }

  lemma {:induction false} RefusalIsTaken(l: Local, p: Posted, id: nat, reason: FailureReason)
    requires Inv(l, p) && HearsRefusal(l, id, CreditLeg, reason)
    ensures p.debit.Some? && Enabled(l, p, Receive(id)) && (l.version == 3 ==> IsDebited(l.stored))
    ensures var m := Next(l, p, Receive(id));
      Inv(m, p) && SameRow(l, m) && SavesReadsAndSends(m, p, id, 3, Owed(p.debit.value), RefundLeg)
  {
    assert WorkerOk(l, p, l.workers[id]);
    Heard(l, p, id, CreditLeg, Denied(CreditLeg, reason));
    SaveThenRead(Next(l, p, Receive(id)), p, id, Owed(p.debit.value), RefundLeg);
  }

  lemma {:induction false} OwedInTheEnd(l: Local, p: Posted, id: nat, debit: string, refund: string)
    requires Inv(l, p) && l.version == 3 && IsDebited(l.stored) && Saves(l, p, id, 3, Owed(debit), [])
    ensures Enabled(l, p, Perform(id)) && Next(l, p, Perform(id)).stored == Owed(debit)
    ensures E.CanReach(Next(l, p, Perform(id)), p, Compensated) && E.CanReach(l, p, Compensated)
  {
    SavesNow(l, p, id, 3, Owed(debit), []);
    StepKeeps(l, p, Perform(id));
    E.OwedCanBePaidBack(Next(l, p, Perform(id)), p, refund);
    E.ReachesAfter(l, p, Perform(id), Compensated);
  }

  /** The same of any run: the step that hands the refusal over is followed by the save of the owed refund. */
  lemma {:induction false} RefusedCreditIsOwed(o: Order, run: seq<Action>, a: Action, refund: string)
    requires Feasible(Created(o), NOTHING_POSTED, run)
    requires var (l, p) := After(Created(o), NOTHING_POSTED, run);
      Enabled(l, p, a) && HandsOverRefusal(l, a, CreditLeg) && l.version == 3
    ensures var (l, p) := After(Created(o), NOTHING_POSTED, run); var m := Next(l, p, a);
      && l.stored.debit.Some? && Enabled(m, p, Perform(a.worker))
      && var n := Next(m, p, Perform(a.worker));
      && n.stored == Owed(l.stored.debit.value) && n.version == 4
      && E.CanReach(n, p, Compensated)
  {
    var (l, p) := After(Created(o), NOTHING_POSTED, run);
    assert Reachable(l, p);
    ReachableIsInv(l, p);
    var reply := l.replies[l.workers[a.worker].pc.call.awaiting.value];
    assert WorkerOk(l, p, l.workers[a.worker]);
    assert HearsRefusal(l, a.worker, CreditLeg, reply.reason);
    RefusedCredit(l, p, a.worker, reply.reason, refund);
    StepKeeps(l, p, a);
    SavesNow(Next(l, p, a), p, a.worker, 3, Owed(p.debit.value), []);
    OwedInTheEnd(Next(l, p, a), p, a.worker, p.debit.value, refund);
  }

  /** The credit step goes by the row it reads: over, on to the request, or to recovery. */
  lemma {:induction false} CreditReads(l: Local, p: Posted, id: nat)
    requires Reachable(l, p) && id in l.workers && l.workers[id].pc == ReadForCredit
    ensures Enabled(l, p, Perform(id)) && SameRow(l, Next(l, p, Perform(id)))
    ensures var n := Next(l, p, Perform(id));
      if l.stored.status == Approved then id !in n.workers
      else if l.stored.status == Processing && l.stored.debit.Some? then Sends(n, p, id, CreditLeg)
      else Recovers(n, id)
  {
    ReachableIsInv(l, p);
    PerformRow(l, p, id);
    if l.stored.status == Processing && l.stored.debit.Some? {
      ReadNow(l, p, id, CreditLeg);
    } else {
      TurnWorkers(l, p, Perform(id));
    }
  }

  /** A credit of which nothing is known changes nothing and goes to recovery. */
  lemma {:induction false} UnclearCredit(l: Local, p: Posted, a: Action)
    requires Reachable(l, p) && HearsNothing(l, p, a, CreditLeg)
    ensures SameRow(l, Next(l, p, a)) && Recovers(Next(l, p, a), a.worker)
  {
    OthersLeaveRow(l, p, a);
    TurnWorkers(l, p, a);
  }

  // ---------------------------------------------------------------- the refund

  /** The worker is about to read the row for recovery; what it holds from before plays no part in that. */
  predicate Recovers(l: Local, id: nat) {
    id in l.workers && l.workers[id].pc == ReadForRecovery
  }

  /** A refund that was made is saved with its ledger message and its event. */
  lemma {:induction false} GrantedRefund(l: Local, p: Posted, id: nat, reference: string)
    requires Reachable(l, p) && HearsGrant(l, id, RefundLeg, reference)
    ensures p.debit.Some?
    ensures var m := Next(l, p, Receive(id)); var o := l.order;
      && Enabled(l, p, Receive(id)) && SameRow(l, m)
      && SavesAndEnds(m, p, id, 4, Unwound(p.debit.value, reference),
                      [LedgerMessage(RefundLeg, REFUND, o.source, o.amount, o.currency, o.user),
                       LifecycleMessage(CompensatedEvent(reference))])
  {
    ReachableIsInv(l, p);
    assert WorkerOk(l, p, l.workers[id]);
    Heard(l, p, id, RefundLeg, Granted(RefundLeg, reference));
    var s := Unwound(p.debit.value, reference);
    LastSave(Next(l, p, Receive(id)), p, id, s, CompensationMessages(l.order, s));
  }

  /** A refund that was not made, for whatever reason, is still owed. */
  lemma {:induction false} FailedRefund(l: Local, p: Posted, a: Action)
    requires Reachable(l, p)
    requires HearsNothing(l, p, a, RefundLeg)
             || (a.Receive? && exists reason :: HearsRefusal(l, a.worker, RefundLeg, reason))
    ensures Enabled(l, p, a) && SameRow(l, Next(l, p, a)) && a.worker !in Next(l, p, a).workers
  {
    OthersLeaveRow(l, p, a);
    TurnWorkers(l, p, a);
  }

  // ------------------------------------------------------------ how a run begins

  /** The run reads the row: a Pending payment is marked and its debit requested, any other ends it at once. */
  ghost predicate Begins(l: Local, p: Posted, id: nat) {
    forall more :: Meanwhile(l, p, id, more) ==>
      var (m, q) := After(l, p, more);
      && Enabled(m, q, Perform(id))
      && var n := Next(m, q, Perform(id));
      && SameRow(m, n)
      && if m.stored.status == Pending then SavesAndSends(n, q, id, 1, STARTED, DebitLeg) else id !in n.workers
  }

  lemma {:induction false} SagaBegins(l: Local, p: Posted)
    requires Reachable(l, p) && l.lock.None?
    ensures var m := Next(l, p, StartSaga); SameRow(l, m) && m.lock == Some(l.nextId) && Begins(m, p, l.nextId)
  {
    ReachableIsInv(l, p);
    StepKeeps(l, p, StartSaga);
    var m := Next(l, p, StartSaga);
    forall more | Meanwhile(m, p, l.nextId, more)
      ensures var (x, q) := After(m, p, more);
        && Enabled(x, q, Perform(l.nextId))
        && var n := Next(x, q, Perform(l.nextId));
        && SameRow(x, n)
        && if x.stored.status == Pending then SavesAndSends(n, q, l.nextId, 1, STARTED, DebitLeg)
           else l.nextId !in n.workers
    {
      MeanwhileKeeps(m, p, l.nextId, more);
      var (x, q) := After(m, p, more);
      SagaReads(x, q, l.nextId);
    }
  }

  lemma {:induction false} SagaReads(l: Local, p: Posted, id: nat)
    requires Inv(l, p) && id in l.workers && l.workers[id].pc.ReadForDebit?
    ensures Enabled(l, p, Perform(id)) && SameRow(l, Next(l, p, Perform(id)))
    ensures var n := Next(l, p, Perform(id));
      if l.stored.status == Pending then SavesAndSends(n, p, id, 1, STARTED, DebitLeg) else id !in n.workers
  {
    PerformRow(l, p, id);
    TurnWorkers(l, p, Perform(id));
    if l.stored.status == Pending {
      StepKeeps(l, p, Perform(id));
      SaveThenSend(Next(l, p, Perform(id)), p, id, STARTED, DebitLeg);
    }
  }

  lemma {:induction false} RecoveryBegins(l: Local, p: Posted)
    requires Reachable(l, p) && l.lock.None?
    ensures var m := Next(l, p, StartRecovery); SameRow(l, m) && m.lock == Some(l.nextId) && Recovers(m, l.nextId)
  {
  }

  // ------------------------------------------------------------- what recovery does

  /** A found debit is recorded, the refund decided and requested, in this order; an absent one declines. */
  ghost predicate LooksForDebit(l: Local, p: Posted, id: nat) {
    forall more :: Meanwhile(l, p, id, more) ==>
      var (m, q) := After(l, p, more);
      && Enabled(m, q, Perform(id))
      && var n := Next(m, q, Perform(id));
      && SameRow(m, n)
      && match q.debit
         case Some(d) => SavesTwiceAndSends(n, q, id, d)
         case None =>
           SavesAndEnds(n, q, id, 2, Closed(AccountsUnavailable),
                        [LifecycleMessage(DeclinedEvent(AccountsUnavailable))])
  }

  ghost predicate SavesTwiceAndSends(l: Local, p: Posted, id: nat, debit: string) {
    && Saves(l, p, id, 2, Debited(debit), [])
    && forall more :: Meanwhile(l, p, id, more) ==>
      var (m, q) := After(l, p, more);
      m.version == 2 ==> SavesAndSends(Next(m, q, Perform(id)), q, id, 3, Owed(debit), RefundLeg)
  }

  /** A found credit approves; an absent one proves nothing, and the payment is left as it is. */
  ghost predicate LooksForCredit(l: Local, p: Posted, id: nat, debit: string) {
    forall more :: Meanwhile(l, p, id, more) ==>
      var (m, q) := After(l, p, more); var o := l.order;
      && Enabled(m, q, Perform(id))
      && var n := Next(m, q, Perform(id));
      && SameRow(m, n)
      && match q.credit
         case Some(c) =>
           SavesAndEnds(n, q, id, 3, Settled(debit, c),
                        [LedgerMessage(DebitLeg, DEBIT, o.source, o.amount, o.currency, o.user),
                         LedgerMessage(CreditLeg, CREDIT, o.destination, o.amount, o.currency, o.user),
                         LifecycleMessage(ApprovedEvent(debit, c))])
         case None => id !in n.workers
  }

  lemma {:induction false} FoundDebitIsOwed(l: Local, p: Posted, id: nat, debit: string)
    requires Inv(l, p) && id in l.workers && l.workers[id] == Worker(SaveFoundDebit, Debited(debit), 2)
    ensures SavesTwiceAndSends(l, p, id, debit)
  {
    SaverSaves(l, p, id, Debited(debit), []);
    forall more | Meanwhile(l, p, id, more)
      ensures var (m, q) := After(l, p, more);
        m.version == 2 ==> SavesAndSends(Next(m, q, Perform(id)), q, id, 3, Owed(debit), RefundLeg)
    {
      var (m, q) := After(l, p, more);
      if m.version == 2 {
        SavedWorker(l, p, id, more);
        SaveThenSend(Next(m, q, Perform(id)), q, id, Owed(debit), RefundLeg);
      }
    }
  }

  lemma {:induction false} DebitLookup(l: Local, p: Posted, id: nat)
    requires Inv(l, p) && id in l.workers && l.workers[id] == Worker(LookDebit, STARTED, 2)
    ensures Enabled(l, p, Perform(id)) && SameRow(l, Next(l, p, Perform(id)))
    ensures var n := Next(l, p, Perform(id));
      match p.debit
      case Some(d) => SavesTwiceAndSends(n, p, id, d)
      case None =>
        SavesAndEnds(n, p, id, 2, Closed(AccountsUnavailable), [LifecycleMessage(DeclinedEvent(AccountsUnavailable))])
  {
    PerformRow(l, p, id);
    TurnWorkers(l, p, Perform(id));
    StepKeeps(l, p, Perform(id));
    var n := Next(l, p, Perform(id));
    match p.debit {
      case Some(d) => FoundDebitIsOwed(n, p, id, d);
      case None =>
        var event := DeclinedEvent(AccountsUnavailable);
        LastSave(n, p, id, Closed(AccountsUnavailable), [LifecycleMessage(event)]);
    }
  }

  lemma {:induction false} CreditLookup(l: Local, p: Posted, id: nat, debit: string)
    requires Inv(l, p) && id in l.workers && l.workers[id] == Worker(LookCredit, Debited(debit), 3)
    ensures Enabled(l, p, Perform(id)) && SameRow(l, Next(l, p, Perform(id)))
    ensures var n := Next(l, p, Perform(id));
      match p.credit
      case Some(c) =>
        SavesAndEnds(n, p, id, 3, Settled(debit, c), ApprovalMessages(l.order, Settled(debit, c)))
      case None => id !in n.workers
  {
    PerformRow(l, p, id);
    TurnWorkers(l, p, Perform(id));
    StepVersion(l, p, Perform(id));
    StepKeeps(l, p, Perform(id));
    if p.credit.Some? {
      var s := Settled(debit, p.credit.value);
      LastSave(Next(l, p, Perform(id)), p, id, s, ApprovalMessages(l.order, s));
    }
  }

  lemma {:induction false} LooksUpDebit(l: Local, p: Posted, id: nat)
    requires Inv(l, p) && id in l.workers && l.workers[id] == Worker(LookDebit, STARTED, 2)
    ensures LooksForDebit(l, p, id)
  {
    forall more | Meanwhile(l, p, id, more)
      ensures var (m, q) := After(l, p, more);
        && Enabled(m, q, Perform(id))
        && var n := Next(m, q, Perform(id));
        && SameRow(m, n)
        && match q.debit
           case Some(d) => SavesTwiceAndSends(n, q, id, d)
           case None =>
             SavesAndEnds(n, q, id, 2, Closed(AccountsUnavailable),
                          [LifecycleMessage(DeclinedEvent(AccountsUnavailable))])
    {
      MeanwhileKeeps(l, p, id, more);
      DebitLookup(After(l, p, more).0, After(l, p, more).1, id);
    }
  }

  lemma {:induction false} LooksUpCredit(l: Local, p: Posted, id: nat, debit: string)
    requires Inv(l, p) && id in l.workers && l.workers[id] == Worker(LookCredit, Debited(debit), 3)
    ensures LooksForCredit(l, p, id, debit)
  {
    forall more | Meanwhile(l, p, id, more)
      ensures var (m, q) := After(l, p, more); var o := l.order;
        && Enabled(m, q, Perform(id))
        && var n := Next(m, q, Perform(id));
        && SameRow(m, n)
        && match q.credit
           case Some(c) =>
             SavesAndEnds(n, q, id, 3, Settled(debit, c),
                          [LedgerMessage(DebitLeg, DEBIT, o.source, o.amount, o.currency, o.user),
                           LedgerMessage(CreditLeg, CREDIT, o.destination, o.amount, o.currency, o.user),
                           LifecycleMessage(ApprovedEvent(debit, c))])
           case None => id !in n.workers
    {
      MeanwhileKeeps(l, p, id, more);
      CreditLookup(After(l, p, more).0, After(l, p, more).1, id, debit);
    }
  }

  /** Recovery goes by the row it reads: nothing to do, a refund to repeat, or one of two questions to accounts. */
  lemma {:induction false} RecoveryReads(l: Local, p: Posted, id: nat)
    requires Reachable(l, p) && Recovers(l, id)
    ensures Enabled(l, p, Perform(id)) && SameRow(l, Next(l, p, Perform(id)))
    ensures var n := Next(l, p, Perform(id));
      match l.stored.status
      case Processing =>
        (match l.stored.debit
         case None => LooksForDebit(n, p, id)
         case Some(d) => LooksForCredit(n, p, id, d))
      case CompensationPending => Sends(n, p, id, RefundLeg)
      case _ => id !in n.workers
  {
    ReachableIsInv(l, p);
    PerformRow(l, p, id);
    TurnWorkers(l, p, Perform(id));
    StepKeeps(l, p, Perform(id));
    var n := Next(l, p, Perform(id));
    if l.stored.status == CompensationPending {
      SenderSends(n, p, id);
    } else if l.stored == STARTED {
      LooksUpDebit(n, p, id);
    } else if l.stored.status == Processing {
      LooksUpCredit(n, p, id, l.stored.debit.value);
    }
  }

  // ------------------------------------------------------------- when things break

  /**
   * A statement that breaks has been committed or has not. In the credit step the
   * run goes to recovery, as it does after a lost version check there; anywhere
   * else it is over.
   */
  lemma {:induction false} BrokenStep(l: Local, p: Posted, id: nat)
    requires Reachable(l, p) && Enabled(l, p, Perform(id))
    ensures SameRow(l, Next(l, p, Break(id, false)))
    ensures SameRow(Next(l, p, Perform(id)), Next(l, p, Break(id, true)))
    ensures forall committed ::
              var m := Next(l, p, Break(id, committed));
              if CreditPhase(l.workers[id].pc) then Recovers(m, id) else id !in m.workers
  {
    var w := l.workers[id];
    PerformRow(l, p, id);
    ResumeLeavesRow(l, id, Advance(w, Broken));
    ResumeLeavesRow(Commit(l, w), id, Advance(w, Broken));
    TurnWorkers(l, p, Break(id, true));
    TurnWorkers(l, p, Break(id, false));
  }

  /**
   * A save the version check turns away changes nothing: the credit step goes to
   * recovery, a recorded debit is tried once more as a decline from the same
   * revision, and anything else is over.
   */
  lemma {:induction false} LostVersionCheck(l: Local, p: Posted, id: nat)
    requires Reachable(l, p) && Enabled(l, p, Perform(id)) && NextWant(l.order, l.workers[id]).WantSave?
    requires l.version != l.workers[id].revision
    ensures var m := Next(l, p, Perform(id));
      && SameRow(l, m)
      && match l.workers[id].pc
         case SaveApproved | SaveCreditRefused => Recovers(m, id)
         case SaveDebited => id in m.workers && m.workers[id].pc == SaveDeclined && m.workers[id].revision == 2
         case _ => id !in m.workers
  {
    ReachableIsInv(l, p);
    assert WorkerOk(l, p, l.workers[id]);
    PerformRow(l, p, id);
    TurnWorkers(l, p, Perform(id));
  }

  /** A retry asks for the same leg again, and from then on no refusal counts. */
  lemma {:induction false} RetryAsksAgain(l: Local, p: Posted, id: nat)
    requires Reachable(l, p) && Enabled(l, p, GiveUp(id, true))
    ensures var m := Next(l, p, GiveUp(id, true));
      && SameRow(l, m) && Sends(m, p, id, LegOf(l.workers[id].pc))
      && m.workers[id].pc.call.uncertain
  {
    ReachableIsInv(l, p);
    StepKeeps(l, p, GiveUp(id, true));
    SenderSends(Next(l, p, GiveUp(id, true)), p, id);
  }

  /** What accounts does with a request is what its sender hears of it. */
  lemma {:induction false} RequestIsAnswered(l: Local, p: Posted, id: nat, outcome: Outcome)
    requires Reachable(l, p) && Enabled(l, p, Post(id))
    requires Enabled(Next(l, p, Post(id)), p, Deliver(l.nextId, outcome))
    ensures var leg := LegOf(l.workers[id].pc);
      var m := Next(Next(l, p, Post(id)), p, Deliver(l.nextId, outcome));
      match outcome
      case Applied(reference) => HearsGrant(m, id, leg, reference)
      case Replayed(reference) => HearsGrant(m, id, leg, reference)
      case Rejected(reason) =>
        if l.workers[id].pc.call == FIRST_ATTEMPT then HearsRefusal(m, id, leg, reason)
        else HearsNothing(m, p, Receive(id), leg)
      case Failed => HearsNothing(m, p, GiveUp(id, false), leg)
    ensures outcome.Applied? ==>
              var q := NextPosted(Next(l, p, Post(id)), p, Deliver(l.nextId, outcome));
              q == p.Put(LegOf(l.workers[id].pc), outcome.reference)
  {
    var leg := LegOf(l.workers[id].pc);
    var m := Next(Next(l, p, Post(id)), p, Deliver(l.nextId, outcome));
    if outcome.Rejected? {
      assert InHand(m, id, leg, Denied(leg, outcome.reason));
    }
  }

  // ------------------------------------------------------- where a decline comes from

  /** Some step of the run hands a debit refusal for this reason over. */
  ghost predicate Refuses(l: Local, p: Posted, run: seq<Action>, reason: FailureReason)
    requires Feasible(l, p, run)
    decreases |run|
  {
    run != []
    && ((run[0].Receive? && HearsRefusal(l, run[0].worker, DebitLeg, reason))
        || Refuses(Next(l, p, run[0]), NextPosted(l, p, run[0]), run[1..], reason))
  }

  /** Some step of the run is a recovery that asks for the debit and finds none. */
  ghost predicate FindsNoDebit(l: Local, p: Posted, run: seq<Action>)
    requires Feasible(l, p, run)
    decreases |run|
  {
    run != []
    && ((run[0].Perform? && l.workers[run[0].worker].pc.LookDebit? && p.debit.None?)
        || FindsNoDebit(Next(l, p, run[0]), NextPosted(l, p, run[0]), run[1..]))
  }

  predicate BringsDecline(l: Local, w: Worker, reason: FailureReason) {
    w.held.reason == Some(reason) && (w.pc.SaveAbsentDebit? || (w.pc.SaveDeclined? && l.version == 2))
  }

  /** The row is declined for this reason, or a worker is about to decline it. */
  predicate Declining(l: Local, reason: FailureReason) {
    || (l.stored.status == Declined && l.stored.reason == Some(reason))
    || exists i :: i in l.workers && BringsDecline(l, l.workers[i], reason)
  }

  ghost predicate Causes(l: Local, p: Posted, a: Action, reason: FailureReason) {
    || (a.Receive? && HearsRefusal(l, a.worker, DebitLeg, reason))
    || (reason == AccountsUnavailable
        && a.Perform? && a.worker in l.workers && l.workers[a.worker].pc.LookDebit? && p.debit.None?)
  }

  lemma {:induction false} DecliningSave(l: Local, p: Posted, w: Worker, reason: FailureReason)
    requires RowOk(l, p) && WorkerOk(l, p, w) && Ready(w)
    requires Commit(l, w).stored.status == Declined && Commit(l, w).stored.reason == Some(reason)
    ensures l.stored == Commit(l, w).stored || BringsDecline(l, w, reason)
  {
  }

  lemma {:induction false} DecliningRow(l: Local, p: Posted, a: Action, reason: FailureReason)
    requires Inv(l, p) && Enabled(l, p, a)
    requires Next(l, p, a).stored.status == Declined && Next(l, p, a).stored.reason == Some(reason)
    ensures Declining(l, reason)
  {
    if a.Perform? || a.Break? {
      var w := l.workers[a.worker];
      DecliningSave(l, p, w, reason);
      ResumeLeavesRow(l, a.worker, Advance(w, if a.Perform? then AnswerTo(l, p, w) else Broken));
      ResumeLeavesRow(Commit(l, w), a.worker, Advance(w, if a.Perform? then AnswerTo(l, p, w) else Broken));
    } else {
      OthersLeaveRow(l, p, a);
    }
  }

  /** The turns after which a worker is about to decline. */
  lemma {:induction false} DecliningTurn(l: Local, p: Posted, w: Worker, a: Answer, m: Local, reason: FailureReason)
    requires WorkerOk(l, p, w) && (a.Conflict? ==> l.version != w.revision) && m.version >= l.version
    requires var next := Advance(w, a); next.Some? && BringsDecline(m, next.value, reason)
    ensures (w.pc.SendDebit? && a == Refused(reason))
            || (w.pc.LookDebit? && a.Absent? && reason == AccountsUnavailable)
  {
  }

  lemma {:induction false} DecliningWorker(l: Local, p: Posted, a: Action, reason: FailureReason, i: nat)
    requires Inv(l, p) && Enabled(l, p, a)
    requires i in Next(l, p, a).workers && BringsDecline(Next(l, p, a), Next(l, p, a).workers[i], reason)
    ensures Declining(l, reason) || Causes(l, p, a, reason)
  {
    var m := Next(l, p, a);
    StepVersion(l, p, a);
    var turn := Turn(l, p, a);
    if turn.Some? && turn.value.0 == i {
      TurnWorkers(l, p, a);
      var w := l.workers[i];
      assert WorkerOk(l, p, w);
      DecliningTurn(l, p, w, turn.value.1, m, reason);
      TurnCauses(l, p, a, reason);
    } else if i in l.workers && m.workers[i] == l.workers[i] {
      assert WorkerOk(l, p, l.workers[i]);
      assert BringsDecline(l, l.workers[i], reason);
    } else {
      NoTurnDeclines(l, p, a, i, reason);
    }
  }

  lemma {:induction false} TurnCauses(l: Local, p: Posted, a: Action, reason: FailureReason)
    requires Inv(l, p) && Enabled(l, p, a) && Turn(l, p, a).Some?
    requires var (id, answer) := Turn(l, p, a).value;
      || (l.workers[id].pc.SendDebit? && answer == Refused(reason))
      || (l.workers[id].pc.LookDebit? && answer.Absent? && reason == AccountsUnavailable)
    ensures Causes(l, p, a, reason)
  {
    var id := Turn(l, p, a).value.0;
    assert WorkerOk(l, p, l.workers[id]);
  }

  lemma {:induction false} NoTurnDeclines(l: Local, p: Posted, a: Action, i: nat, reason: FailureReason)
    requires Enabled(l, p, a) && i in Next(l, p, a).workers
    requires Turn(l, p, a).Some? ==> Turn(l, p, a).value.0 != i
    requires BringsDecline(Next(l, p, a), Next(l, p, a).workers[i], reason)
    ensures i in l.workers && Next(l, p, a).workers[i] == l.workers[i]
  {
    if Turn(l, p, a).Some? {
      TurnWorkers(l, p, a);
    }
  }

  lemma {:induction false} DeclineHasACause(l: Local, p: Posted, run: seq<Action>, reason: FailureReason)
    requires Inv(l, p) && Feasible(l, p, run) && Declining(After(l, p, run).0, reason)
    ensures Declining(l, reason) || Refuses(l, p, run, reason)
            || (reason == AccountsUnavailable && FindsNoDebit(l, p, run))
    decreases |run|
  {
    if run != [] {
      var m, q := Next(l, p, run[0]), NextPosted(l, p, run[0]);
      StepKeeps(l, p, run[0]);
      DeclineHasACause(m, q, run[1..], reason);
      if Declining(m, reason) {
        if m.stored.status == Declined && m.stored.reason == Some(reason) {
          DecliningRow(l, p, run[0], reason);
        } else {
          var i :| i in m.workers && BringsDecline(m, m.workers[i], reason);
          DecliningWorker(l, p, run[0], reason, i);
        }
      }
    }
  }

  /**
   * A payment is declined for the reason its debit was refused for, or for
   * "accounts unavailable" because a recovery found no debit, and for no other.
   */
  lemma {:induction false} DeclineReasonWasGiven(o: Order, run: seq<Action>)
    requires Feasible(Created(o), NOTHING_POSTED, run)
    requires After(Created(o), NOTHING_POSTED, run).0.stored.status == Declined
    ensures var s := After(Created(o), NOTHING_POSTED, run).0.stored;
      && s.reason.Some?
      && (Refuses(Created(o), NOTHING_POSTED, run, s.reason.value)
          || (s.reason.value == AccountsUnavailable && FindsNoDebit(Created(o), NOTHING_POSTED, run)))
  {
    InvInit(o);
    RunKeeps(Created(o), NOTHING_POSTED, run);
    var s := After(Created(o), NOTHING_POSTED, run).0.stored;
    DeclineHasACause(Created(o), NOTHING_POSTED, run, s.reason.value);
  }
}
