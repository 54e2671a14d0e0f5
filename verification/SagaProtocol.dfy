/**
 * One payment and everything that acts on it: its row, its outbox, the workers
 * running its saga or its recovery, and the movement requests they have put on
 * the wire. The advisory lock may be lost at any moment, a worker may die at any
 * moment, and a request may reach accounts at any later time or never.
 *
 * What accounts has recorded for the payment is the `Posted` view: for each leg,
 * the reference of the ledger entry filed under that leg's key.
 */
module SagaProtocol {
  import opened Wrappers
  import opened PaymentDomain
  import opened WorkerProgram

  datatype Posted = Posted(debit: Option<string>, credit: Option<string>, refund: Option<string>)
  {
    function Get(leg: Leg): Option<string> {
      match leg
      case DebitLeg => debit
      case CreditLeg => credit
      case RefundLeg => refund
    }

    function Put(leg: Leg, reference: string): Posted {
      match leg
      case DebitLeg => this.(debit := Some(reference))
      case CreditLeg => this.(credit := Some(reference))
      case RefundLeg => this.(refund := Some(reference))
    }
  }

  const NOTHING_POSTED := Posted(None, None, None)

  /** A response on its way back to the attempt that sent the request. */
  datatype Reply =
    | Granted(leg: Leg, reference: string)
    | Denied(leg: Leg, reason: FailureReason)

  /** How accounts disposes of a request. `Failed` also stands for a request that is never delivered. */
  datatype Outcome =
    | Applied(reference: string)
    | Replayed(reference: string)
    | Rejected(reason: FailureReason)
    | Failed

  datatype Local = Local(
    order: Order,
    version: nat,
    stored: Snapshot,
    outbox: seq<Message>,
    workers: map<nat, Worker>,
    wire: map<nat, Leg>,
    replies: map<nat, Reply>,
    nextId: nat,
    lock: Option<nat>
  )

  datatype Action =
    | StartSaga
    | StartRecovery
    | Perform(worker: nat)
    | Break(worker: nat, committed: bool)
    | Post(worker: nat)
    | Receive(worker: nat)
    | GiveUp(worker: nat, retry: bool)
    | OpenCircuit(worker: nat)
    | Crash(worker: nat)
    | LoseLock
    | Deliver(request: nat, outcome: Outcome)

  function Created(o: Order): Local {
    Local(o, 1, FRESH, [], map[], map[], map[], 0, None)
  }

  predicate Sending(pc: Pc) {
    pc.SendDebit? || pc.SendCredit? || pc.SendRefund?
  }

  function WithCall(w: Worker, c: Call): Worker
    requires Sending(w.pc)
  {
    match w.pc
    case SendDebit(_) => w.(pc := SendDebit(c))
    case SendCredit(_) => w.(pc := SendCredit(c))
    case _ => w.(pc := SendRefund(c))
  }

  predicate Enabled(l: Local, p: Posted, a: Action) {
    match a
    case StartSaga | StartRecovery => l.lock.None?
    case Perform(w) => w in l.workers && !Sending(l.workers[w].pc) && Ready(l.workers[w])
    case Break(w, _) => w in l.workers && !Sending(l.workers[w].pc) && Ready(l.workers[w])
    case Post(w) => w in l.workers && Sending(l.workers[w].pc) && l.workers[w].pc.call.awaiting.None?
    case Receive(w) =>
      w in l.workers && Sending(l.workers[w].pc) && l.workers[w].pc.call.awaiting.Some?
      && l.workers[w].pc.call.awaiting.value in l.replies
    case GiveUp(w, _) => w in l.workers && Sending(l.workers[w].pc) && l.workers[w].pc.call.awaiting.Some?
    case OpenCircuit(w) => w in l.workers && Sending(l.workers[w].pc) && l.workers[w].pc.call == FIRST_ATTEMPT
    case Crash(w) => w in l.workers
    case LoseLock => l.lock.Some?
    case Deliver(r, outcome) =>
      r in l.wire
      && (outcome.Applied? ==> p.Get(l.wire[r]).None?)
      && (outcome.Replayed? ==> p.Get(l.wire[r]) == Some(outcome.reference))
  }

  /** The worker goes on as its program says; when the run is over its session, and the lock with it, is released. */
  function Resume(l: Local, id: nat, next: Option<Worker>): Local {
    match next
    case Some(w) => l.(workers := l.workers[id := w])
    case None => l.(workers := l.workers - {id}, lock := if l.lock == Some(id) then None else l.lock)
  }

  function Start(l: Local, pc: Pc): Local {
    l.(workers := l.workers[l.nextId := Worker(pc, FRESH, 0)], lock := Some(l.nextId), nextId := l.nextId + 1)
  }

  /** The guarded UPDATE of `save`, and the messages enqueued in the same transaction. */
  function Commit(l: Local, w: Worker): Local
    requires Ready(w)
  {
    match NextWant(l.order, w)
    case WantSave(s, ms) =>
      if l.version == w.revision then l.(version := l.version + 1, stored := s, outbox := l.outbox + ms) else l
    case _ => l
  }

  function AnswerTo(l: Local, p: Posted, w: Worker): Answer
    requires Ready(w) && !Sending(w.pc)
  {
    match NextWant(l.order, w)
    case WantRow => Row(l.stored, l.version)
    case WantSave(_, _) => if l.version == w.revision then Saved else Conflict
    case WantLookup(leg) => (match p.Get(leg) case Some(r) => Found(r) case None => Absent)
    case WantMovement(_) => Unavailable
  }

  /** A refusal counts as one only when no earlier attempt is unaccounted for. */
  function AnswerFrom(c: Call, r: Reply): Answer {
    match r
    case Granted(_, reference) => Moved(reference)
    case Denied(_, reason) => if c.uncertain then Unavailable else Refused(reason)
  }

  function Dispose(l: Local, r: nat, outcome: Outcome): Local
    requires r in l.wire
  {
    var leg := l.wire[r];
    var gone := l.(wire := l.wire - {r});
    match outcome
    case Applied(reference) => gone.(replies := l.replies[r := Granted(leg, reference)])
    case Replayed(reference) => gone.(replies := l.replies[r := Granted(leg, reference)])
    case Rejected(reason) => gone.(replies := l.replies[r := Denied(leg, reason)])
    case Failed => gone
  }

  function Next(l: Local, p: Posted, a: Action): Local
    requires Enabled(l, p, a)
  {
    match a
    case StartSaga => Start(l, ReadForDebit)
    case StartRecovery => Start(l, ReadForRecovery)
    case Perform(id) =>
      var w := l.workers[id];
      Resume(Commit(l, w), id, Advance(w, AnswerTo(l, p, w)))
    case Break(id, committed) =>
      var w := l.workers[id];
      Resume(if committed then Commit(l, w) else l, id, Advance(w, Broken))
    case Post(id) =>
      var w := l.workers[id];
      l.(workers := l.workers[id := WithCall(w, w.pc.call.(awaiting := Some(l.nextId)))],
         wire := l.wire[l.nextId := LegOf(w.pc)],
         nextId := l.nextId + 1)
    case Receive(id) =>
      var w := l.workers[id];
      Resume(l, id, Advance(w, AnswerFrom(w.pc.call, l.replies[w.pc.call.awaiting.value])))
    case GiveUp(id, retry) =>
      var w := l.workers[id];
      Resume(l, id, if retry then Some(WithCall(w, Call(true, None))) else Advance(w, Unavailable))
    case OpenCircuit(id) => Resume(l, id, Advance(l.workers[id], Unavailable))
    case Crash(id) => Resume(l, id, None)
    case LoseLock => l.(lock := None)
    case Deliver(r, outcome) => Dispose(l, r, outcome)
  }

  function NextPosted(l: Local, p: Posted, a: Action): Posted
    requires Enabled(l, p, a)
  {
    if a.Deliver? && a.outcome.Applied? then p.Put(l.wire[a.request], a.outcome.reference) else p
  }

  // ------------------------------------------------------------------ shapes

  const STARTED := Snapshot(Processing, None, None, None, None)

  function Debited(d: string): Snapshot { STARTED.(debit := Some(d)) }

  function Owed(d: string): Snapshot { Snapshot(CompensationPending, Some(CreditFailed), Some(d), None, None) }

  function Settled(d: string, c: string): Snapshot { Snapshot(Approved, None, Some(d), Some(c), None) }

  function Unwound(d: string, r: string): Snapshot {
    Snapshot(Compensated, Some(CreditFailed), Some(d), None, Some(r))
  }

  function Closed(reason: FailureReason): Snapshot { Snapshot(Declined, Some(reason), None, None, None) }

  predicate IsDebited(s: Snapshot) { s.debit.Some? && s == Debited(s.debit.value) }
  predicate IsOwed(s: Snapshot) { s.debit.Some? && s == Owed(s.debit.value) }
  predicate IsSettled(s: Snapshot) { s.debit.Some? && s.credit.Some? && s == Settled(s.debit.value, s.credit.value) }
  predicate IsUnwound(s: Snapshot) { s.debit.Some? && s.refund.Some? && s == Unwound(s.debit.value, s.refund.value) }
  predicate IsClosed(s: Snapshot) { s.reason.Some? && s == Closed(s.reason.value) }

  /** The lifecycle position is a function of the version. */
  predicate RowShape(v: nat, s: Snapshot) {
    || (v == 1 && s == FRESH)
    || (v == 2 && s == STARTED)
    || (v == 3 && (IsDebited(s) || IsClosed(s)))
    || (v == 4 && (IsSettled(s) || IsOwed(s)))
    || (v == 5 && IsUnwound(s))
  }

  predicate Agrees(s: Snapshot, p: Posted) {
    && (s.debit.Some? ==> p.debit == s.debit)
    && (s.credit.Some? ==> p.credit == s.credit)
    && (s.refund.Some? ==> p.refund == s.refund)
  }

  /** What a payment in this state has written to the outbox since it was created. */
  function Owes(o: Order, s: Snapshot): seq<Message> {
    if IsSettled(s) then ApprovalMessages(o, s)
    else if IsUnwound(s) then CompensationMessages(o, s)
    else if IsClosed(s) then DeclineMessages(s)
    else []
  }

  // --------------------------------------------------------------- invariant

  predicate CreditPhase(pc: Pc) {
    pc.ReadForCredit? || pc.SendCredit? || pc.SaveApproved? || pc.SaveCreditRefused?
  }

  /** Past its own Processing save: the only run that may send this payment's debit or credit. */
  predicate Owner(pc: Pc) {
    pc.SendDebit? || pc.SaveDebited? || pc.SaveDeclined? || CreditPhase(pc)
  }

  predicate OnWire(l: Local, leg: Leg) {
    exists r :: r in l.wire && l.wire[r] == leg
  }

  /** Nothing of this leg is recorded and nothing of it can still arrive. */
  predicate Untouched(l: Local, p: Posted, leg: Leg) {
    !OnWire(l, leg) && p.Get(leg).None?
  }

  predicate NoCredit(l: Local, p: Posted) {
    Untouched(l, p, CreditLeg) && forall i :: i in l.workers ==> !CreditPhase(l.workers[i].pc)
  }

  predicate CreditAllowed(l: Local) {
    l.version >= 3 && (l.stored.status == Processing || l.stored.status == Approved)
  }

  predicate RefundDecided(l: Local) {
    l.stored.status == CompensationPending || l.stored.status == Compensated
  }

  predicate Awaits(l: Local, leg: Leg, c: Call) {
    c.awaiting.Some? ==>
      var r := c.awaiting.value;
      && r < l.nextId
      && (r in l.wire ==> l.wire[r] == leg)
      && (r in l.replies ==> l.replies[r].leg == leg)
  }

  /** As long as no attempt has failed, at most the awaited request is about, and a refusal of it is final. */
  predicate Conclusive(l: Local, p: Posted, leg: Leg, c: Call) {
    !c.uncertain ==>
      match c.awaiting
      case None => Untouched(l, p, leg)
      case Some(r) =>
        && (forall j :: j in l.wire && l.wire[j] == leg ==> j == r)
        && (r in l.wire ==> p.Get(leg).None?)
        && (r in l.replies && l.replies[r].Denied? ==> r !in l.wire && p.Get(leg).None?)
  }

  predicate WorkerOk(l: Local, p: Posted, w: Worker) {
    && w.revision <= l.version
    && match w.pc
       case ReadForDebit | ReadForRecovery => true
       case SaveProcessing => w.revision == 1 && w.held == STARTED
       case SendDebit(c) => w.revision == 2 && w.held == STARTED && Awaits(l, DebitLeg, c)
           && Conclusive(l, p, DebitLeg, c)
       case SaveDebited => w.revision == 2 && IsDebited(w.held) && Agrees(w.held, p)
       case SaveDeclined =>
         && w.revision == 2 && w.held.status == Declined && w.held.reason.Some?
         && (l.version == 2 ==> IsClosed(w.held) && Untouched(l, p, DebitLeg))
       case ReadForCredit => w.revision == 3 && Untouched(l, p, CreditLeg)
       case SendCredit(c) =>
         && w.revision == 3 && IsDebited(w.held) && Agrees(w.held, p)
         && (l.version == 3 ==> l.stored == w.held)
         && Awaits(l, CreditLeg, c) && Conclusive(l, p, CreditLeg, c)
       case SaveApproved | SaveReconciled =>
         && w.revision == 3 && IsSettled(w.held) && Agrees(w.held, p)
         && (l.version == 3 ==> l.stored == Debited(w.held.debit.value))
       case SaveCreditRefused =>
         && w.revision == 3 && IsOwed(w.held) && Agrees(w.held, p)
         && (l.version == 3 ==> l.stored == Debited(w.held.debit.value))
         && Untouched(l, p, CreditLeg)
       case LookDebit => w.revision == 2 && w.held == STARTED
       case SaveFoundDebit => w.revision == 2 && IsDebited(w.held) && Agrees(w.held, p)
       case SaveAbsentDebit => w.revision == 2 && IsClosed(w.held)
       case SaveRefundDecision =>
         && w.revision == 3 && IsOwed(w.held) && Agrees(w.held, p)
         && (l.version == 3 ==> l.stored == Debited(w.held.debit.value))
         && NoCredit(l, p)
       case SendRefund(c) =>
         && w.revision == 4 && IsOwed(w.held) && Agrees(w.held, p)
         && (l.version == 4 ==> l.stored == w.held)
         && Awaits(l, RefundLeg, c)
       case SaveCompensated =>
         && w.revision == 4 && IsUnwound(w.held) && Agrees(w.held, p)
         && (l.version == 4 ==> l.stored == Owed(w.held.debit.value))
       case LookCredit =>
         && w.revision == 3 && IsDebited(w.held) && Agrees(w.held, p)
         && (l.version == 3 ==> l.stored == w.held)
  }

  predicate WorkersOk(l: Local, p: Posted) {
    && (forall i :: i in l.workers ==> i < l.nextId && WorkerOk(l, p, l.workers[i]))
    && (forall i, j :: i in l.workers && j in l.workers && Owner(l.workers[i].pc) && Owner(l.workers[j].pc) ==> i == j)
  }

  predicate WireOk(l: Local, p: Posted) {
    && (forall r :: r in l.wire ==> r < l.nextId && r !in l.replies)
    && (forall r :: r in l.replies ==> r < l.nextId)
    && (forall r :: r in l.replies && l.replies[r].Granted? ==> p.Get(l.replies[r].leg) == Some(l.replies[r].reference))
  }

  predicate RowOk(l: Local, p: Posted) {
    && RowShape(l.version, l.stored)
    && Agrees(l.stored, p)
    && l.outbox == Owes(l.order, l.stored)
  }

  predicate TrafficOk(l: Local, p: Posted) {
    && (l.version == 1 ==> Untouched(l, p, DebitLeg))
    && (!CreditAllowed(l) ==> NoCredit(l, p))
    && (!RefundDecided(l) ==> Untouched(l, p, RefundLeg))
  }

  predicate Inv(l: Local, p: Posted) {
    RowOk(l, p) && TrafficOk(l, p) && WireOk(l, p) && WorkersOk(l, p)
  }

  lemma InvInit(o: Order)
    ensures Inv(Created(o), NOTHING_POSTED)
  {
  }

  // ------------------------------------------------------------ preservation

  /** A worker whose own data did not change is still fine if the row only moved past it. */
  lemma {:induction false} OtherWorkerKeeps(l: Local, p: Posted, m: Local, w: Worker)
    requires WorkerOk(l, p, w) && RowShape(l.version, l.stored)
    requires m.wire == l.wire && m.replies == l.replies && m.nextId >= l.nextId
    requires (m.version == l.version && m.stored == l.stored) || m.version == l.version + 1
    requires w.pc.SaveRefundDecision? ==> NoCredit(m, p)
    ensures WorkerOk(m, p, w)
  {
    assert OnWire(m, CreditLeg) == OnWire(l, CreditLeg);
    assert OnWire(m, DebitLeg) == OnWire(l, DebitLeg);
  }

  /** Nothing but one worker changes. */
  lemma {:induction false} ResumeKeeps(l: Local, p: Posted, id: nat, next: Option<Worker>)
    requires Inv(l, p) && id in l.workers
    requires next.Some? ==> WorkerOk(l, p, next.value)
    requires next.Some? && Owner(next.value.pc) ==> Owner(l.workers[id].pc)
    requires next.Some? && CreditPhase(next.value.pc) ==> CreditPhase(l.workers[id].pc)
    ensures Inv(Resume(l, id, next), p)
  {
    var m := Resume(l, id, next);
    ResumeTraffic(l, p, id, next);
    forall i | i in m.workers ensures WorkerOk(m, p, m.workers[i]) {
      var w := if i == id then next.value else l.workers[i];
      OtherWorkerKeeps(l, p, m, w);
    }
  }

  lemma {:induction false} ResumeTraffic(l: Local, p: Posted, id: nat, next: Option<Worker>)
    requires RowOk(l, p) && TrafficOk(l, p) && WireOk(l, p) && id in l.workers
    requires next.Some? && CreditPhase(next.value.pc) ==> CreditPhase(l.workers[id].pc)
    ensures var m := Resume(l, id, next);
      && RowOk(m, p) && TrafficOk(m, p) && WireOk(m, p)
      && (forall leg: Leg :: OnWire(m, leg) == OnWire(l, leg))
      && (NoCredit(l, p) ==> NoCredit(m, p))
  {
    var m := Resume(l, id, next);
    forall leg: Leg ensures OnWire(m, leg) == OnWire(l, leg) {
    }
    assert NoCredit(l, p) ==> NoCredit(m, p);
  }

  /** The conditions under which a save that passes its version guard is safe, whatever the worker does next. */
  predicate SafeSave(l: Local, p: Posted, w: Worker, next: Option<Worker>) {
    && Ready(w) && NextWant(l.order, w).WantSave? && l.version == w.revision
    && var m := Commit(l, w);
    && RowOk(m, p)
    && (!CreditAllowed(m) ==> Untouched(l, p, CreditLeg) && (CreditPhase(w.pc) || NoCredit(l, p)))
    && (RefundDecided(l) ==> RefundDecided(m))
    && (next.Some? ==>
          && (Owner(next.value.pc) ==> Owner(w.pc) || l.version == 1)
          && (CreditPhase(next.value.pc) ==> CreditAllowed(m) && l.version == 2)
          && next.value.revision <= m.version
          && !next.value.pc.SaveDeclined?)
  }

  lemma {:induction false} SaveTraffic(l: Local, p: Posted, id: nat, next: Option<Worker>)
    requires Inv(l, p) && id in l.workers && SafeSave(l, p, l.workers[id], next)
    ensures TrafficOk(Resume(Commit(l, l.workers[id]), id, next), p)
  {
    var w := l.workers[id];
    var m := Resume(Commit(l, w), id, next);
    assert OnWire(m, CreditLeg) == OnWire(l, CreditLeg);
    assert OnWire(m, DebitLeg) == OnWire(l, DebitLeg);
    assert OnWire(m, RefundLeg) == OnWire(l, RefundLeg);
    if !CreditAllowed(m) {
      assert forall i :: i in m.workers && i != id ==>
          i in l.workers && (CreditPhase(l.workers[i].pc) ==> Owner(l.workers[i].pc));
    }
  }

  lemma {:induction false} SaveBystander(l: Local, p: Posted, id: nat, next: Option<Worker>, i: nat)
    requires Inv(l, p) && id in l.workers && SafeSave(l, p, l.workers[id], next)
    requires i in l.workers && i != id
    ensures WorkerOk(Resume(Commit(l, l.workers[id]), id, next), p, l.workers[i])
  {
    var m := Resume(Commit(l, l.workers[id]), id, next);
    var o := l.workers[i];
    if o.pc.SaveRefundDecision? {
      assert NoCredit(m, p) by { assert OnWire(m, CreditLeg) == OnWire(l, CreditLeg); }
    }
    OtherWorkerKeeps(l, p, m, o);
  }

  lemma {:induction false} SaveOwner(l: Local, p: Posted, id: nat, next: Option<Worker>)
    requires Inv(l, p) && id in l.workers && SafeSave(l, p, l.workers[id], next)
    ensures var m := Resume(Commit(l, l.workers[id]), id, next);
      forall i, j :: i in m.workers && j in m.workers && Owner(m.workers[i].pc) && Owner(m.workers[j].pc) ==> i == j
  {
    assert forall i :: i in l.workers && Owner(l.workers[i].pc) ==> 2 <= l.workers[i].revision <= l.version;
  }

  lemma {:induction false} SaveKeeps(l: Local, p: Posted, id: nat, next: Option<Worker>)
    requires Inv(l, p) && id in l.workers && SafeSave(l, p, l.workers[id], next)
    requires next.Some? ==> WorkerOk(Resume(Commit(l, l.workers[id]), id, next), p, next.value)
    ensures Inv(Resume(Commit(l, l.workers[id]), id, next), p)
  {
    var m := Resume(Commit(l, l.workers[id]), id, next);
    SaveTraffic(l, p, id, next);
    SaveOwner(l, p, id, next);
    forall i | i in m.workers ensures i < m.nextId && WorkerOk(m, p, m.workers[i]) {
      if i != id {
        SaveBystander(l, p, id, next, i);
      }
    }
    assert WireOk(m, p) && RowOk(m, p);
  }

  /** An answer the environment may give without this worker changing the row. */
  predicate Plausible(l: Local, p: Posted, w: Worker, a: Answer) {
    match a
    case Row(s, v) => s == l.stored && v == l.version
        && (w.pc.ReadForDebit? || w.pc.ReadForCredit? || w.pc.ReadForRecovery?)
    case Conflict => l.version != w.revision && Ready(w) && NextWant(l.order, w).WantSave?
    case Found(r) => (w.pc.LookDebit? && p.debit == Some(r)) || (w.pc.LookCredit? && p.credit == Some(r))
    case Absent => (w.pc.LookDebit? && p.debit.None?) || (w.pc.LookCredit? && p.credit.None?)
    case Moved(r) => Sending(w.pc) && p.Get(LegOf(w.pc)) == Some(r)
    case Refused(_) => Sending(w.pc) && Untouched(l, p, LegOf(w.pc))
    case Unavailable => Sending(w.pc)
    case Broken => !Sending(w.pc)
    case _ => false
  }

  predicate FollowsOn(l: Local, p: Posted, w: Worker, next: Option<Worker>) {
    next.Some? ==>
      && WorkerOk(l, p, next.value)
      && (Owner(next.value.pc) ==> Owner(w.pc))
      && (CreditPhase(next.value.pc) ==> CreditPhase(w.pc))
  }

  lemma {:induction false} DebitTurn(l: Local, p: Posted, w: Worker, a: Answer)
    requires RowOk(l, p) && WorkerOk(l, p, w) && Plausible(l, p, w, a)
    requires w.pc.ReadForDebit? || w.pc.SaveProcessing? || w.pc.SendDebit? || w.pc.SaveDebited? || w.pc.SaveDeclined?
    ensures FollowsOn(l, p, w, Advance(w, a))
  {
  }

  lemma {:induction false} CreditTurn(l: Local, p: Posted, w: Worker, a: Answer)
    requires RowOk(l, p) && WorkerOk(l, p, w) && Plausible(l, p, w, a)
    requires CreditPhase(w.pc)
    ensures FollowsOn(l, p, w, Advance(w, a))
  {
  }

  lemma {:induction false} RecoveryTurn(l: Local, p: Posted, w: Worker, a: Answer)
    requires RowOk(l, p) && WorkerOk(l, p, w) && Plausible(l, p, w, a)
    requires !w.pc.ReadForDebit? && !w.pc.SaveProcessing? && !Owner(w.pc)
    ensures FollowsOn(l, p, w, Advance(w, a))
  {
  }

  lemma {:induction false} TurnKeeps(l: Local, p: Posted, id: nat, a: Answer)
    requires Inv(l, p) && id in l.workers && Plausible(l, p, l.workers[id], a)
    ensures Inv(Resume(l, id, Advance(l.workers[id], a)), p)
  {
    var w := l.workers[id];
    if CreditPhase(w.pc) {
      CreditTurn(l, p, w, a);
    } else if w.pc.ReadForDebit? || w.pc.SaveProcessing? || Owner(w.pc) {
      DebitTurn(l, p, w, a);
    } else {
      RecoveryTurn(l, p, w, a);
    }
    ResumeKeeps(l, p, id, Advance(w, a));
  }

  /** Once its guard passes, each of the ten saves of the program is safe, and so is what the worker does next. */
  lemma {:induction false} SagaSave(l: Local, p: Posted, id: nat, a: Answer)
    requires Inv(l, p) && id in l.workers && (a == Saved || a == Broken)
    requires var w := l.workers[id]; Ready(w) && NextWant(l.order, w).WantSave? && l.version == w.revision
    requires var pc := l.workers[id].pc; pc.SaveProcessing? || pc.SaveDebited? || pc.SaveDeclined? || CreditPhase(pc)
    ensures var w := l.workers[id]; var next := Advance(w, a);
      SafeSave(l, p, w, next) && (next.Some? ==> WorkerOk(Resume(Commit(l, w), id, next), p, next.value))
  {
    if CreditPhase(l.workers[id].pc) {
      CreditSave(l, p, id, a);
    } else {
      DebitSave(l, p, id, a);
    }
  }

  lemma {:induction false} DebitSave(l: Local, p: Posted, id: nat, a: Answer)
    requires Inv(l, p) && id in l.workers && (a == Saved || a == Broken)
    requires var w := l.workers[id]; Ready(w) && NextWant(l.order, w).WantSave? && l.version == w.revision
    requires var pc := l.workers[id].pc; pc.SaveProcessing? || pc.SaveDebited? || pc.SaveDeclined?
    ensures var w := l.workers[id]; var next := Advance(w, a);
      SafeSave(l, p, w, next) && (next.Some? ==> WorkerOk(Resume(Commit(l, w), id, next), p, next.value))
  {
    var w := l.workers[id];
    var m := Resume(Commit(l, w), id, Advance(w, a));
    assert OnWire(m, CreditLeg) == OnWire(l, CreditLeg);
    assert OnWire(m, DebitLeg) == OnWire(l, DebitLeg);
  }

  lemma {:induction false} CreditSave(l: Local, p: Posted, id: nat, a: Answer)
    requires Inv(l, p) && id in l.workers && (a == Saved || a == Broken)
    requires var w := l.workers[id]; Ready(w) && NextWant(l.order, w).WantSave? && l.version == w.revision
    requires CreditPhase(l.workers[id].pc)
    ensures var w := l.workers[id]; var next := Advance(w, a);
      SafeSave(l, p, w, next) && (next.Some? ==> WorkerOk(Resume(Commit(l, w), id, next), p, next.value))
  {
    var w := l.workers[id];
    var m := Resume(Commit(l, w), id, Advance(w, a));
    assert OnWire(m, CreditLeg) == OnWire(l, CreditLeg);
  }

  lemma {:induction false} RecoverySave(l: Local, p: Posted, id: nat, a: Answer)
    requires Inv(l, p) && id in l.workers && (a == Saved || a == Broken)
    requires var w := l.workers[id]; Ready(w) && NextWant(l.order, w).WantSave? && l.version == w.revision
    requires var pc := l.workers[id].pc; !pc.SaveProcessing? && !Owner(pc)
    ensures var w := l.workers[id]; var next := Advance(w, a);
      SafeSave(l, p, w, next) && (next.Some? ==> WorkerOk(Resume(Commit(l, w), id, next), p, next.value))
  {
    if l.workers[id].pc.SaveFoundDebit? {
      FoundDebitSave(l, p, id, a);
    } else {
      ClosingSave(l, p, id, a);
    }
  }

  lemma {:induction false} FoundDebitSave(l: Local, p: Posted, id: nat, a: Answer)
    requires Inv(l, p) && id in l.workers && (a == Saved || a == Broken)
    requires var w := l.workers[id]; Ready(w) && NextWant(l.order, w).WantSave? && l.version == w.revision
    requires l.workers[id].pc.SaveFoundDebit?
    ensures var w := l.workers[id]; var next := Advance(w, a);
      SafeSave(l, p, w, next) && (next.Some? ==> WorkerOk(Resume(Commit(l, w), id, next), p, next.value))
  {
    var w := l.workers[id];
    var m := Resume(Commit(l, w), id, Advance(w, a));
    assert OnWire(m, CreditLeg) == OnWire(l, CreditLeg);
    assert NoCredit(l, p);
    assert NoCredit(m, p);
  }

  lemma {:induction false} ClosingSave(l: Local, p: Posted, id: nat, a: Answer)
    requires Inv(l, p) && id in l.workers && (a == Saved || a == Broken)
    requires var w := l.workers[id]; Ready(w) && NextWant(l.order, w).WantSave? && l.version == w.revision
    requires var pc := l.workers[id].pc; !pc.SaveProcessing? && !pc.SaveFoundDebit? && !Owner(pc)
    ensures var w := l.workers[id]; var next := Advance(w, a);
      SafeSave(l, p, w, next) && (next.Some? ==> WorkerOk(Resume(Commit(l, w), id, next), p, next.value))
  {
    var w := l.workers[id];
    var m := Resume(Commit(l, w), id, Advance(w, a));
    assert OnWire(m, CreditLeg) == OnWire(l, CreditLeg);
    assert OnWire(m, RefundLeg) == OnWire(l, RefundLeg);
  }

  lemma {:induction false} StartKeeps(l: Local, p: Posted, pc: Pc)
    requires Inv(l, p) && (pc.ReadForDebit? || pc.ReadForRecovery?)
    ensures Inv(Start(l, pc), p)
  {
    var m := Start(l, pc);
    assert OnWire(m, CreditLeg) == OnWire(l, CreditLeg);
    assert OnWire(m, DebitLeg) == OnWire(l, DebitLeg);
    assert OnWire(m, RefundLeg) == OnWire(l, RefundLeg);
    assert NoCredit(l, p) ==> NoCredit(m, p);
    forall i | i in m.workers ensures i < m.nextId && WorkerOk(m, p, m.workers[i]) {
      if i != l.nextId {
        OtherWorkerKeeps(l, p, m, l.workers[i]);
      }
    }
    assert WireOk(m, p) && RowOk(m, p) && TrafficOk(m, p);
  }

  lemma {:induction false} PostWire(l: Local, p: Posted, id: nat)
    requires Inv(l, p) && Enabled(l, p, Post(id))
    ensures var m := Next(l, p, Post(id));
      forall g: Leg :: g != LegOf(l.workers[id].pc) ==> (OnWire(m, g) <==> OnWire(l, g))
  {
    var m := Next(l, p, Post(id));
    forall g: Leg | g != LegOf(l.workers[id].pc) ensures OnWire(m, g) <==> OnWire(l, g) {
      if OnWire(l, g) {
        var r :| r in l.wire && l.wire[r] == g;
        assert r in m.wire && m.wire[r] == g;
      }
    }
  }

  lemma {:induction false} PostSender(l: Local, p: Posted, id: nat)
    requires Inv(l, p) && Enabled(l, p, Post(id))
    ensures var m := Next(l, p, Post(id)); WorkerOk(m, p, m.workers[id])
  {
  }

  /** A fresh request leaves every other worker's view of the wire alone. */
  lemma {:induction false} PostBystander(l: Local, p: Posted, id: nat, i: nat)
    requires Inv(l, p) && Enabled(l, p, Post(id)) && i in l.workers && i != id
    ensures WorkerOk(Next(l, p, Post(id)), p, l.workers[i])
  {
    var m := Next(l, p, Post(id));
    var leg := LegOf(l.workers[id].pc);
    PostWire(l, p, id);
    if leg == CreditLeg {
      assert !NoCredit(l, p);
      assert Owner(l.workers[id].pc);
    } else {
      assert NoCredit(l, p) ==> NoCredit(m, p);
    }
  }

  lemma {:induction false} PostKeeps(l: Local, p: Posted, id: nat)
    requires Inv(l, p) && Enabled(l, p, Post(id))
    ensures Inv(Next(l, p, Post(id)), p)
  {
    var m := Next(l, p, Post(id));
    forall i | i in m.workers ensures i < m.nextId && WorkerOk(m, p, m.workers[i]) {
      if i != id {
        PostBystander(l, p, id, i);
      } else {
        PostSender(l, p, id);
      }
    }
    assert WorkersOk(m, p);
    PostTraffic(l, p, id);
  }

  lemma {:induction false} PostTraffic(l: Local, p: Posted, id: nat)
    requires Inv(l, p) && Enabled(l, p, Post(id))
    ensures var m := Next(l, p, Post(id)); RowOk(m, p) && WireOk(m, p) && TrafficOk(m, p)
  {
    var m := Next(l, p, Post(id));
    var leg := LegOf(l.workers[id].pc);
    assert WorkerOk(l, p, l.workers[id]);
    PostWire(l, p, id);
    assert leg == CreditLeg ==> !NoCredit(l, p);
    assert leg != CreditLeg && NoCredit(l, p) ==> NoCredit(m, p);
  }

  lemma {:induction false} DeliverWorker(l: Local, p: Posted, r: nat, outcome: Outcome, i: nat)
    requires Inv(l, p) && Enabled(l, p, Deliver(r, outcome)) && i in l.workers
    ensures WorkerOk(Dispose(l, r, outcome), NextPosted(l, p, Deliver(r, outcome)), l.workers[i])
  {
    var w := l.workers[i];
    DeliverTraffic(l, p, r, outcome);
    if Sending(w.pc) {
      DeliverSender(l, p, r, outcome, w);
    } else {
      DeliverIdle(l, p, r, outcome, w);
    }
  }

  lemma {:induction false} DeliverSender(l: Local, p: Posted, r: nat, outcome: Outcome, w: Worker)
    requires WireOk(l, p) && WorkerOk(l, p, w) && Sending(w.pc) && Enabled(l, p, Deliver(r, outcome))
    ensures WorkerOk(Dispose(l, r, outcome), NextPosted(l, p, Deliver(r, outcome)), w)
  {
    var m := Dispose(l, r, outcome);
    assert OnWire(l, l.wire[r]);
    assert forall g: Leg :: OnWire(m, g) ==> OnWire(l, g);
  }

  lemma {:induction false} DeliverIdle(l: Local, p: Posted, r: nat, outcome: Outcome, w: Worker)
    requires WorkerOk(l, p, w) && !Sending(w.pc) && Enabled(l, p, Deliver(r, outcome))
    requires NoCredit(l, p) ==> NoCredit(Dispose(l, r, outcome), NextPosted(l, p, Deliver(r, outcome)))
    ensures WorkerOk(Dispose(l, r, outcome), NextPosted(l, p, Deliver(r, outcome)), w)
  {
    var m := Dispose(l, r, outcome);
    assert OnWire(l, l.wire[r]);
    assert forall g: Leg :: OnWire(m, g) ==> OnWire(l, g);
  }

  lemma {:induction false} DeliverTraffic(l: Local, p: Posted, r: nat, outcome: Outcome)
    requires RowOk(l, p) && TrafficOk(l, p) && WireOk(l, p) && Enabled(l, p, Deliver(r, outcome))
    ensures var m, q := Dispose(l, r, outcome), NextPosted(l, p, Deliver(r, outcome));
      && RowOk(m, q) && TrafficOk(m, q) && WireOk(m, q)
      && (NoCredit(l, p) ==> NoCredit(m, q))
  {
    var m, q := Dispose(l, r, outcome), NextPosted(l, p, Deliver(r, outcome));
    assert OnWire(l, l.wire[r]);
    assert forall g: Leg :: OnWire(m, g) ==> OnWire(l, g);
    assert NoCredit(l, p) ==> NoCredit(m, q);
  }

  lemma {:induction false} DeliverKeeps(l: Local, p: Posted, r: nat, outcome: Outcome)
    requires Inv(l, p) && Enabled(l, p, Deliver(r, outcome))
    ensures Inv(Next(l, p, Deliver(r, outcome)), NextPosted(l, p, Deliver(r, outcome)))
  {
    var m, q := Dispose(l, r, outcome), NextPosted(l, p, Deliver(r, outcome));
    DeliverTraffic(l, p, r, outcome);
    forall i | i in m.workers ensures i < m.nextId && WorkerOk(m, q, m.workers[i]) {
      DeliverWorker(l, p, r, outcome, i);
    }
    assert WorkersOk(m, q);
  }

  lemma {:induction false} ReceiveKeeps(l: Local, p: Posted, id: nat)
    requires Inv(l, p) && Enabled(l, p, Receive(id))
    ensures Inv(Next(l, p, Receive(id)), p)
  {
    var w := l.workers[id];
    var a := AnswerFrom(w.pc.call, l.replies[w.pc.call.awaiting.value]);
    if w.pc.SendRefund? && a.Refused? {
      ResumeKeeps(l, p, id, None);
    } else {
      TurnKeeps(l, p, id, a);
    }
  }

  lemma {:induction false} GiveUpKeeps(l: Local, p: Posted, id: nat, retry: bool)
    requires Inv(l, p) && Enabled(l, p, GiveUp(id, retry))
    ensures Inv(Next(l, p, GiveUp(id, retry)), p)
  {
    if retry {
      ResumeKeeps(l, p, id, Some(WithCall(l.workers[id], Call(true, None))));
    } else {
      TurnKeeps(l, p, id, Unavailable);
    }
  }

  lemma {:induction false} PerformKeeps(l: Local, p: Posted, id: nat)
    requires Inv(l, p) && Enabled(l, p, Perform(id))
    ensures Inv(Next(l, p, Perform(id)), p)
  {
    var w := l.workers[id];
    if NextWant(l.order, w).WantSave? && l.version == w.revision {
      if w.pc.SaveProcessing? || Owner(w.pc) {
        SagaSave(l, p, id, Saved);
      } else {
        RecoverySave(l, p, id, Saved);
      }
      SaveKeeps(l, p, id, Advance(w, Saved));
    } else {
      TurnKeeps(l, p, id, AnswerTo(l, p, w));
    }
  }

  lemma {:induction false} BreakKeeps(l: Local, p: Posted, id: nat, committed: bool)
    requires Inv(l, p) && Enabled(l, p, Break(id, committed))
    ensures Inv(Next(l, p, Break(id, committed)), p)
  {
    var w := l.workers[id];
    if committed && NextWant(l.order, w).WantSave? && l.version == w.revision {
      if w.pc.SaveProcessing? || Owner(w.pc) {
        SagaSave(l, p, id, Broken);
      } else {
        RecoverySave(l, p, id, Broken);
      }
      SaveKeeps(l, p, id, Advance(w, Broken));
    } else {
      TurnKeeps(l, p, id, Broken);
    }
  }

  /** Every action of every worker, of the network and of the lock keeps the invariant. */
  lemma {:induction false} StepKeeps(l: Local, p: Posted, a: Action)
    requires Inv(l, p) && Enabled(l, p, a)
    ensures Inv(Next(l, p, a), NextPosted(l, p, a))
  {
    match a
    case StartSaga => StartKeeps(l, p, ReadForDebit);
    case StartRecovery => StartKeeps(l, p, ReadForRecovery);
    case Perform(id) => PerformKeeps(l, p, id);
    case Break(id, committed) => BreakKeeps(l, p, id, committed);
    case Post(id) => PostKeeps(l, p, id);
    case Receive(id) => ReceiveKeeps(l, p, id);
    case GiveUp(id, retry) => GiveUpKeeps(l, p, id, retry);
    case OpenCircuit(id) => TurnKeeps(l, p, id, Unavailable);
    case Crash(id) => ResumeKeeps(l, p, id, None);
    case LoseLock => LoseLockKeeps(l, p);
    case Deliver(r, outcome) => DeliverKeeps(l, p, r, outcome);
  }

  lemma {:induction false} LoseLockKeeps(l: Local, p: Posted)
    requires Inv(l, p)
    ensures Inv(l.(lock := None), p)
  {
    var m := l.(lock := None);
    assert OnWire(m, CreditLeg) == OnWire(l, CreditLeg);
    assert OnWire(m, DebitLeg) == OnWire(l, DebitLeg);
    assert OnWire(m, RefundLeg) == OnWire(l, RefundLeg);
    assert NoCredit(l, p) ==> NoCredit(m, p);
    forall i | i in m.workers ensures WorkerOk(m, p, m.workers[i]) {
      OtherWorkerKeeps(l, p, m, l.workers[i]);
    }
  }
}
