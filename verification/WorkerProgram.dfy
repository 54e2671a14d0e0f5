/**
 * The command handlers as a program: what a worker asks for next (`Want`) and
 * how it goes on once it has an answer (`Advance`). Everything between two
 * requests to the database or to accounts happens inside one `Advance`, on the
 * worker's own copy of the payment.
 */
module WorkerProgram {
  import opened Wrappers
  import opened PaymentDomain

  /** One movement request in progress: whether an earlier attempt failed, and the attempt now awaited. */
  datatype Call = Call(uncertain: bool, awaiting: Option<nat>)

  const FIRST_ATTEMPT := Call(false, None)

  datatype Pc =
    // debit-source-wallet.handler
    | ReadForDebit
    | SaveProcessing
    | SendDebit(call: Call)
    | SaveDebited
    | SaveDeclined
    // credit-destination-wallet.handler
    | ReadForCredit
    | SendCredit(call: Call)
    | SaveApproved
    | SaveCreditRefused
    // compensate-payment.handler
    | ReadForRecovery
    | LookDebit
    | SaveFoundDebit
    | SaveAbsentDebit
    | SaveRefundDecision
    | SendRefund(call: Call)
    | SaveCompensated
    | LookCredit
    | SaveReconciled

  /** A worker: where it is, its own (possibly stale) copy, and the version that copy was read or saved at. */
  datatype Worker = Worker(pc: Pc, held: Snapshot, revision: nat)

  datatype LedgerType = DEBIT | CREDIT | REFUND

  /** Outbox messages. A ledger message is keyed by the movement's own idempotency key, here the leg. */
  datatype Message =
    | LedgerMessage(leg: Leg, kind: LedgerType, wallet: string, amount: int, currency: string, user: Option<string>)
    | LifecycleMessage(event: DomainEvent)

  datatype Want =
    | WantRow
    | WantSave(snapshot: Snapshot, messages: seq<Message>)
    | WantMovement(leg: Leg)
    | WantLookup(leg: Leg)

  datatype Answer =
    | NoRow
    | Row(snapshot: Snapshot, version: nat)
    | Saved
    | Conflict
    | Moved(reference: string)
    | Refused(reason: FailureReason)
    | Unavailable
    | Found(reference: string)
    | Absent
    | Broken

  function LedgerOf(o: Order, leg: Leg): Message {
    match leg
    case DebitLeg => LedgerMessage(leg, DEBIT, o.source, o.amount, o.currency, o.user)
    case CreditLeg => LedgerMessage(leg, CREDIT, o.destination, o.amount, o.currency, o.user)
    case RefundLeg => LedgerMessage(leg, REFUND, o.source, o.amount, o.currency, o.user)
  }

  function ApprovalMessages(o: Order, s: Snapshot): seq<Message>
    requires s.debit.Some? && s.credit.Some?
  {
    [LedgerOf(o, DebitLeg), LedgerOf(o, CreditLeg), LifecycleMessage(ApprovedEvent(s.debit.value, s.credit.value))]
  }

  function CompensationMessages(o: Order, s: Snapshot): seq<Message>
    requires s.refund.Some?
  {
    [LedgerOf(o, RefundLeg), LifecycleMessage(CompensatedEvent(s.refund.value))]
  }

  function DeclineMessages(s: Snapshot): seq<Message>
    requires s.reason.Some?
  {
    [LifecycleMessage(DeclinedEvent(s.reason.value))]
  }

  /** A worker that reaches a save holds the columns that save's messages are made of. */
  predicate Ready(w: Worker) {
    match w.pc
    case SaveApproved | SaveReconciled => w.held.debit.Some? && w.held.credit.Some?
    case SaveCompensated => w.held.refund.Some?
    case SaveDeclined | SaveAbsentDebit => w.held.reason.Some?
    case _ => true
  }

  function LegOf(pc: Pc): Leg
    requires pc.SendDebit? || pc.SendCredit? || pc.SendRefund?
  {
    if pc.SendDebit? then DebitLeg else if pc.SendCredit? then CreditLeg else RefundLeg
  }

  function NextWant(o: Order, w: Worker): Want
    requires Ready(w)
  {
    match w.pc
    case ReadForDebit | ReadForCredit | ReadForRecovery => WantRow
    case SendDebit(_) => WantMovement(DebitLeg)
    case SendCredit(_) => WantMovement(CreditLeg)
    case SendRefund(_) => WantMovement(RefundLeg)
    case LookDebit => WantLookup(DebitLeg)
    case LookCredit => WantLookup(CreditLeg)
    case SaveProcessing | SaveDebited | SaveCreditRefused | SaveFoundDebit | SaveRefundDecision => WantSave(w.held, [])
    case SaveApproved | SaveReconciled => WantSave(w.held, ApprovalMessages(o, w.held))
    case SaveCompensated => WantSave(w.held, CompensationMessages(o, w.held))
    case SaveDeclined | SaveAbsentDebit => WantSave(w.held, DeclineMessages(w.held))
  }

  /** The debit handler's catch block, for any domain error that is not "accounts unavailable". */
  function DeclineInCatch(w: Worker, reason: FailureReason): Option<Worker> {
    match Decline(w.held, reason)
    case Ok(s) => Some(w.(pc := SaveDeclined, held := s))
    case Err(_) => None
  }

  function AdvanceDebit(w: Worker, a: Answer): Option<Worker>
    requires w.pc.ReadForDebit? || w.pc.SaveProcessing? || w.pc.SendDebit? || w.pc.SaveDebited? || w.pc.SaveDeclined?
  {
    match w.pc
    case ReadForDebit =>
      (match a
       case Row(s, v) =>
         if s.status != Pending then None
         else (match MarkProcessing(s)
               case Ok(t) => Some(Worker(SaveProcessing, t, v))
               case Err(_) => None)
       case _ => None)
    case SaveProcessing =>
      if a.Saved? then Some(Worker(SendDebit(FIRST_ATTEMPT), w.held, w.revision + 1)) else None
    case SendDebit(_) =>
      (match a
       case Moved(r) =>
         (match MarkDebited(w.held, r)
          case Ok(s) => Some(w.(pc := SaveDebited, held := s))
          case Err(_) => DeclineInCatch(w, AccountsUnavailable))
       case Refused(reason) => DeclineInCatch(w, reason)
       case _ => None)
    case SaveDebited =>
      (match a
       case Saved => Some(Worker(ReadForCredit, w.held, w.revision + 1))
       // A version conflict is a domain error too, so the catch block tries to decline.
       case Conflict => DeclineInCatch(w, AccountsUnavailable)
       case _ => None)
    case SaveDeclined => None
  }

  function ToRecovery(w: Worker): Worker {
    w.(pc := ReadForRecovery)
  }

  function AdvanceCredit(w: Worker, a: Answer): Option<Worker>
    requires w.pc.ReadForCredit? || w.pc.SendCredit? || w.pc.SaveApproved? || w.pc.SaveCreditRefused?
  {
    match w.pc
    case ReadForCredit =>
      (match a
       case Row(s, v) =>
         if s.status == Approved then None
         else if s.status != Processing || s.debit.None? then Some(ToRecovery(w))
         else Some(Worker(SendCredit(FIRST_ATTEMPT), s, v))
       case _ => Some(ToRecovery(w)))
    case SendCredit(_) =>
      (match a
       case Moved(r) =>
         (match Approve(w.held, r)
          case Ok(s) => Some(w.(pc := SaveApproved, held := s))
          case Err(_) => Some(ToRecovery(w)))
       case Refused(_) =>
         (match MarkCompensationPending(w.held, CreditFailed)
          case Ok(s) => Some(w.(pc := SaveCreditRefused, held := s))
          case Err(_) => Some(ToRecovery(w)))
       case _ => Some(ToRecovery(w)))
    case SaveApproved =>
      if a.Saved? then None else Some(ToRecovery(w))
    case SaveCreditRefused =>
      Some(if a.Saved? then ToRecovery(w.(revision := w.revision + 1)) else ToRecovery(w))
  }

  function AfterFoundDebit(w: Worker): Option<Worker> {
    if w.held.status == Processing then
      match MarkCompensationPending(w.held, CreditFailed)
      case Ok(s) => Some(w.(pc := SaveRefundDecision, held := s))
      case Err(_) => None
    else Some(w.(pc := SendRefund(FIRST_ATTEMPT)))
  }

  function AdvanceRecovery(w: Worker, a: Answer): Option<Worker>
    requires w.pc.ReadForRecovery? || w.pc.LookDebit? || w.pc.SaveFoundDebit? || w.pc.SaveAbsentDebit?
             || w.pc.SaveRefundDecision? || w.pc.SendRefund? || w.pc.SaveCompensated?
             || w.pc.LookCredit? || w.pc.SaveReconciled?
  {
    match w.pc
    case ReadForRecovery =>
      (match a
       case Row(s, v) =>
         if s.status != Processing && s.status != CompensationPending then None
         else if s.debit.None? then Some(Worker(LookDebit, s, v))
         else if s.status == Processing then Some(Worker(LookCredit, s, v))
         else Some(Worker(SendRefund(FIRST_ATTEMPT), s, v))
       case _ => None)
    case LookDebit =>
      (match a
       case Found(r) =>
         if w.held.status == Processing then
           (match MarkDebited(w.held, r)
            case Ok(s) => Some(w.(pc := SaveFoundDebit, held := s))
            case Err(_) => None)
         else AfterFoundDebit(w)
       case Absent =>
         (match Decline(w.held, AccountsUnavailable)
          case Ok(s) => Some(w.(pc := SaveAbsentDebit, held := s))
          case Err(_) => None)
       case _ => None)
    case SaveFoundDebit =>
      if a.Saved? then AfterFoundDebit(w.(revision := w.revision + 1)) else None
    case SaveAbsentDebit => None
    case SaveRefundDecision =>
      if a.Saved? then Some(Worker(SendRefund(FIRST_ATTEMPT), w.held, w.revision + 1)) else None
    case SendRefund(_) =>
      (match a
       case Moved(r) =>
         (match Compensate(w.held, r)
          case Ok(s) => Some(w.(pc := SaveCompensated, held := s))
          case Err(_) => None)
       case _ => None)
    case SaveCompensated => None
    case LookCredit =>
      (match a
       case Found(r) =>
         (match Approve(w.held, r)
          case Ok(s) => Some(w.(pc := SaveReconciled, held := s))
          case Err(_) => None)
       case _ => None)
    case SaveReconciled => None
  }

  /** One turn of a worker; `None` when its handler, and with it the run, is over. */
  function Advance(w: Worker, a: Answer): (next: Option<Worker>)
    ensures next.Some? ==> Ready(next.value)
  {
    match w.pc
    case ReadForDebit | SaveProcessing | SendDebit(_) | SaveDebited | SaveDeclined => AdvanceDebit(w, a)
    case ReadForCredit | SendCredit(_) | SaveApproved | SaveCreditRefused => AdvanceCredit(w, a)
    case _ => AdvanceRecovery(w, a)
  }
}
