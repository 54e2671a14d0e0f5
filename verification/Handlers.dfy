/**
 * The command handlers and the saga as they are written: one mutable payment,
 * ports asked in turn, errors thrown and caught. Each is proved to hold, answer
 * by answer, the very dialogue of its program in `WorkerProgram`.
 */
module Handlers {
  import opened Wrappers
  import opened PaymentDomain
  import opened WorkerProgram

  // ------------------------------------------------------ the expected dialogue

  /** Every turn brings a run closer to its end. */
  function Rank(pc: Pc): nat {
    match pc
    case ReadForDebit => 12
    case SaveProcessing => 11
    case SendDebit(_) => 10
    case SaveDebited => 9
    case ReadForCredit => 8
    case SendCredit(_) => 7
    case SaveApproved | SaveCreditRefused => 6
    case ReadForRecovery => 5
    case LookDebit | LookCredit => 4
    case SaveFoundDebit => 3
    case SaveRefundDecision => 2
    case SendRefund(_) => 1
    case SaveDeclined | SaveAbsentDebit | SaveCompensated | SaveReconciled => 0
  }

  lemma {:induction false} TurnsEnd(w: Worker, a: Answer)
    ensures Advance(w, a).Some? ==> Rank(Advance(w, a).value.pc) < Rank(w.pc)
  {
  }

  function Head(script: seq<Answer>): Answer { if script == [] then Broken else script[0] }

  function Tail(script: seq<Answer>): seq<Answer> { if script == [] then [] else script[1..] }

  /** What a worker asks for, in order, when the environment answers by the script and then breaks. */
  function Dialogue(o: Order, w: Worker, script: seq<Answer>): seq<Want>
    requires Ready(w)
    decreases Rank(w.pc)
  {
    TurnsEnd(w, Head(script));
    [NextWant(o, w)] + Continue(o, w, script)
  }

  function Continue(o: Order, w: Worker, script: seq<Answer>): seq<Want>
    decreases Rank(w.pc), 0
  {
    TurnsEnd(w, Head(script));
    match Advance(w, Head(script))
    case None => []
    case Some(next) => Dialogue(o, next, Tail(script))
  }

  function Rest(o: Order, next: Option<Worker>, script: seq<Answer>): seq<Want>
    requires next.Some? ==> Ready(next.value)
  {
    match next
    case None => []
    case Some(w) => Dialogue(o, w, script)
  }

  const AT_DEBIT := Worker(ReadForDebit, FRESH, 0)
  const AT_CREDIT := Worker(ReadForCredit, FRESH, 0)
  const AT_RECOVERY := Worker(ReadForRecovery, FRESH, 0)

  /** A step that begins by reading the row forgets whatever copy was held before. */
  lemma {:induction false} ReadForgets(o: Order, w: Worker, script: seq<Answer>)
    ensures w.pc.ReadForCredit? ==> Dialogue(o, w, script) == Dialogue(o, AT_CREDIT, script)
    ensures w.pc.ReadForRecovery? ==> Dialogue(o, w, script) == Dialogue(o, AT_RECOVERY, script)
    decreases Rank(w.pc)
  {
    if w.pc.ReadForCredit? {
      ReadForgets(o, ToRecovery(w), Tail(script));
      ReadForgets(o, ToRecovery(AT_CREDIT), Tail(script));
    }
  }

  // ------------------------------------------------------------------- ports

  function Lifecycle(events: seq<DomainEvent>): seq<Message> {
    if events == [] then [] else [LifecycleMessage(events[0])] + Lifecycle(events[1..])
  }

  datatype Exit = Returned | DomainError | OtherError

  /** The repository, accounts and the outbox, as seen from one run: they answer by a script and keep a log. */
  class Ports {
    var script: seq<Answer>
    var asked: seq<Want>

    constructor (script: seq<Answer>)
      ensures this.script == script && asked == []
    {
      this.script := script;
      asked := [];
    }

    method Ask(o: Order, ghost w: Worker, want: Want) returns (a: Answer)
      requires Ready(w) && want == NextWant(o, w)
      modifies this
      ensures a == Head(old(script)) && script == Tail(old(script)) && asked == old(asked) + [want]
      ensures asked + Rest(o, Advance(w, a), script) == old(asked) + Dialogue(o, w, old(script))
    {
      a := Head(script);
      script := Tail(script);
      asked := asked + [want];
    }
  }

  // ------------------------------------------------- debit-source-wallet.handler

  /** The catch block: any domain error but "accounts unavailable" declines. */
  method DeclineInCatchBlock(o: Order, env: Ports, payment: Payment, reason: FailureReason, ghost w: Worker)
    requires payment.status == Processing && payment.events == [] && w.held == payment.ToSnapshot()
    modifies env, payment
    ensures env.asked == old(env.asked) + Rest(o, DeclineInCatch(w, reason), old(env.script))
  {
    var declined := payment.DoDecline(reason);
    var events := payment.PullEvents();
    assert events == [DeclinedEvent(reason)];
    ghost var closing := w.(pc := SaveDeclined, held := payment.ToSnapshot());
    assert Lifecycle(events) == DeclineMessages(closing.held);
    var saved := env.Ask(o, closing, WantSave(payment.ToSnapshot(), Lifecycle(events)));
  }

  method DebitSourceWallet(o: Order, env: Ports) returns (exit: Exit)
    modifies env
    ensures env.asked + (if exit == Returned then Dialogue(o, AT_CREDIT, env.script) else [])
            == old(env.asked) + Dialogue(o, AT_DEBIT, old(env.script))
  {
    ghost var w := AT_DEBIT;
    var found := env.Ask(o, w, WantRow);
    if found.NoRow? {
      return DomainError;
    }
    if !found.Row? {
      return OtherError;
    }
    var payment := new Payment.Restore(o, found.snapshot);
    if payment.status != Pending {
      return DomainError;
    }
    var marked := payment.DoMarkProcessing();
    w := Worker(SaveProcessing, payment.ToSnapshot(), found.version);
    var saved := env.Ask(o, w, WantSave(payment.ToSnapshot(), []));
    if !saved.Saved? {
      return if saved.Conflict? then DomainError else OtherError;
    }

    exit := SendDebitAndRecord(o, env, payment, w.revision + 1);
  }

  /** The try block and what it catches. */
  method SendDebitAndRecord(o: Order, env: Ports, payment: Payment, ghost version: nat) returns (exit: Exit)
    requires payment.order == o && payment.events == [] && payment.status == Processing
    modifies env, payment
    ensures env.asked + (if exit == Returned then Dialogue(o, AT_CREDIT, env.script) else [])
            == old(env.asked) + Dialogue(o, Worker(SendDebit(FIRST_ATTEMPT), old(payment.ToSnapshot()), version),
                old(env.script))
  {
    ghost var w := Worker(SendDebit(FIRST_ATTEMPT), payment.ToSnapshot(), version);
    var movement := env.Ask(o, w, WantMovement(DebitLeg));
    match movement {
      case Moved(reference) =>
        exit := RecordDebit(o, env, payment, reference, w);
      case Refused(reason) =>
        DeclineInCatchBlock(o, env, payment, reason, w);
        exit := DomainError;
      case _ =>
        exit := DomainError;
    }
  }

  /** A version conflict here is a domain error too, so it ends in the catch block. */
  method RecordDebit(o: Order, env: Ports, payment: Payment, reference: string, ghost before: Worker)
    returns (exit: Exit)
    requires payment.order == o && payment.events == [] && payment.status == Processing
    requires before.held == payment.ToSnapshot()
    modifies env, payment
    ensures var w := before.(pc := SaveDebited, held := old(payment.ToSnapshot()).(debit := Some(reference)));
      env.asked + (if exit == Returned then Dialogue(o, AT_CREDIT, env.script) else [])
      == old(env.asked) + Dialogue(o, w, old(env.script))
  {
    var debited := payment.DoMarkDebited(reference);
    ghost var w := before.(pc := SaveDebited, held := payment.ToSnapshot());
    var saved := env.Ask(o, w, WantSave(payment.ToSnapshot(), []));
    if saved.Saved? {
      ReadForgets(o, Worker(ReadForCredit, w.held, w.revision + 1), env.script);
      return Returned;
    }
    if !saved.Conflict? {
      return OtherError;
    }
    DeclineInCatchBlock(o, env, payment, AccountsUnavailable, w);
    exit := DomainError;
  }

  // ------------------------------------------- credit-destination-wallet.handler

  /** `movementsOf` for an approved payment, then the pulled events. */
  function Approval(o: Order, events: seq<DomainEvent>): seq<Message> {
    [LedgerOf(o, DebitLeg), LedgerOf(o, CreditLeg)] + Lifecycle(events)
  }

  method CreditDestinationWallet(o: Order, env: Ports) returns (exit: Exit)
    modifies env
    ensures env.asked + (if exit == Returned then [] else Dialogue(o, AT_RECOVERY, env.script))
            == old(env.asked) + Dialogue(o, AT_CREDIT, old(env.script))
  {
    ghost var w := AT_CREDIT;
    var found := env.Ask(o, w, WantRow);
    if !found.Row? {
      ReadForgets(o, ToRecovery(w), env.script);
      return if found.NoRow? then DomainError else OtherError;
    }
    var payment := new Payment.Restore(o, found.snapshot);
    if payment.status == Approved {
      return Returned;
    }
    if payment.status != Processing || payment.debit.None? {
      ReadForgets(o, ToRecovery(w), env.script);
      return DomainError;
    }

    exit := SendCreditAndSettle(o, env, payment, found.version);
  }

  method SendCreditAndSettle(o: Order, env: Ports, payment: Payment, ghost version: nat) returns (exit: Exit)
    requires payment.order == o && payment.events == [] && payment.status == Processing && payment.debit.Some?
    modifies env, payment
    ensures env.asked + (if exit == Returned then [] else Dialogue(o, AT_RECOVERY, env.script))
            == old(env.asked) + Dialogue(o, Worker(SendCredit(FIRST_ATTEMPT), old(payment.ToSnapshot()), version),
                old(env.script))
  {
    ghost var w := Worker(SendCredit(FIRST_ATTEMPT), payment.ToSnapshot(), version);
    var movement := env.Ask(o, w, WantMovement(CreditLeg));
    match movement {
      case Moved(reference) =>
        exit := SaveApproval(o, env, payment, reference, w, SaveApproved);
        ReadForgets(o, Worker(ReadForRecovery, payment.ToSnapshot(), version), env.script);
      case Refused(_) =>
        exit := SaveRefusal(o, env, payment, w);
      case _ =>
        exit := DomainError;
        ReadForgets(o, ToRecovery(w), env.script);
    }
  }

  /** The refund is owed before anything else is sent. */
  method SaveRefusal(o: Order, env: Ports, payment: Payment, ghost before: Worker) returns (exit: Exit)
    requires payment.order == o && payment.status == Processing && before.held == payment.ToSnapshot()
    modifies env, payment
    ensures exit != Returned
    ensures var w := before.(pc := SaveCreditRefused,
                             held := before.held.(status := CompensationPending, reason := Some(CreditFailed)));
      env.asked + Dialogue(o, AT_RECOVERY, env.script) == old(env.asked) + Dialogue(o, w, old(env.script))
  {
    var pending := payment.DoMarkCompensationPending(CreditFailed);
    ghost var w := before.(pc := SaveCreditRefused, held := payment.ToSnapshot());
    var saved := env.Ask(o, w, WantSave(payment.ToSnapshot(), []));
    exit := if saved.Saved? || saved.Conflict? then DomainError else OtherError;
    ReadForgets(o, ToRecovery(if saved.Saved? then w.(revision := w.revision + 1) else w), env.script);
  }

  /** Approval, both ledger movements and the event, in one transaction. */
  method SaveApproval(o: Order, env: Ports, payment: Payment, credit: string, ghost before: Worker, ghost pc: Pc)
    returns (exit: Exit)
    requires payment.order == o && payment.events == [] && payment.status == Processing && payment.debit.Some?
    requires before.held == payment.ToSnapshot() && (pc.SaveApproved? || pc.SaveReconciled?)
    modifies env, payment
    ensures payment.ToSnapshot() == old(payment.ToSnapshot()).(status := Approved, credit := Some(credit))
    ensures var w := before.(pc := pc, held := payment.ToSnapshot());
      env.asked + (if exit == Returned || pc.SaveReconciled? then [] else Dialogue(o, ToRecovery(w), env.script))
      == old(env.asked) + Dialogue(o, w, old(env.script))
  {
    var approved := payment.DoApprove(credit);
    var events := payment.PullEvents();
    ghost var w := before.(pc := pc, held := payment.ToSnapshot());
    assert Lifecycle(events) == [LifecycleMessage(ApprovedEvent(w.held.debit.value, credit))];
    var saved := env.Ask(o, w, WantSave(payment.ToSnapshot(), Approval(o, events)));
    exit := if saved.Saved? then Returned else if saved.Conflict? then DomainError else OtherError;
  }

  // ------------------------------------------------- compensate-payment.handler

  method CompensatePayment(o: Order, env: Ports) returns (exit: Exit)
    modifies env
    ensures env.asked == old(env.asked) + Dialogue(o, AT_RECOVERY, old(env.script))
  {
    ghost var w := AT_RECOVERY;
    var found := env.Ask(o, w, WantRow);
    if !found.Row? {
      return if found.NoRow? then DomainError else OtherError;
    }
    var payment := new Payment.Restore(o, found.snapshot);
    if payment.status == Compensated {
      return Returned;
    }
    if payment.status != Processing && payment.status != CompensationPending {
      return DomainError;
    }

    var debitWasRecorded := payment.debit.Some?;
    ghost var revision := found.version;
    if !debitWasRecorded {
      var confirmed;
      confirmed, revision, exit := ConfirmDebit(o, env, payment, found.version);
      if !confirmed {
        return;
      }
    } else if payment.status == Processing {
      exit := ReconcileCredit(o, env, payment, found.version);
      return;
    }

    exit := DecideAndRefund(o, env, payment, revision);
  }

  /** Persists the refund decision before the external call, then refunds. */
  method DecideAndRefund(o: Order, env: Ports, payment: Payment, ghost version: nat) returns (exit: Exit)
    requires payment.order == o && payment.events == []
    requires payment.status == Processing || payment.status == CompensationPending
    modifies env, payment
    ensures env.asked == old(env.asked) + Onwards(o, old(payment.ToSnapshot()), version, old(env.script))
  {
    ghost var revision := version;
    if payment.status == Processing {
      var pending := payment.DoMarkCompensationPending(CreditFailed);
      ghost var w := Worker(SaveRefundDecision, payment.ToSnapshot(), version);
      var saved := env.Ask(o, w, WantSave(payment.ToSnapshot(), []));
      if !saved.Saved? {
        return if saved.Conflict? then DomainError else OtherError;
      }
      revision := version + 1;
    }
    exit := Refund(o, env, payment, revision);
  }

  method Refund(o: Order, env: Ports, payment: Payment, ghost version: nat) returns (exit: Exit)
    requires payment.order == o && payment.events == [] && payment.status == CompensationPending
    modifies env, payment
    ensures env.asked == old(env.asked)
                         + Dialogue(o, Worker(SendRefund(FIRST_ATTEMPT), old(payment.ToSnapshot()), version),
                             old(env.script))
  {
    ghost var w := Worker(SendRefund(FIRST_ATTEMPT), payment.ToSnapshot(), version);
    var refund := env.Ask(o, w, WantMovement(RefundLeg));
    if !refund.Moved? {
      return Returned;
    }
    var compensated := payment.DoCompensate(refund.reference);
    var events := payment.PullEvents();
    w := w.(pc := SaveCompensated, held := payment.ToSnapshot());
    assert Lifecycle(events) == [LifecycleMessage(CompensatedEvent(refund.reference))];
    var saved := env.Ask(o, w, WantSave(payment.ToSnapshot(), [LedgerOf(o, RefundLeg)] + Lifecycle(events)));
    exit := if saved.Saved? then Returned else if saved.Conflict? then DomainError else OtherError;
  }

  /** What a recovery goes on to ask once it knows the debit happened. */
  function Onwards(o: Order, s: Snapshot, revision: nat, script: seq<Answer>): seq<Want> {
    Rest(o, AfterFoundDebit(Worker(SaveFoundDebit, s, revision)), script)
  }

  method ConfirmDebit(o: Order, env: Ports, payment: Payment, ghost version: nat)
    returns (confirmed: bool, ghost revision: nat, exit: Exit)
    requires payment.order == o && payment.events == [] && payment.debit.None?
    requires payment.status == Processing || payment.status == CompensationPending
    modifies env, payment
    ensures payment.events == [] || !confirmed
    ensures confirmed ==> payment.status == old(payment.status)
    ensures env.asked + (if confirmed then Onwards(o, payment.ToSnapshot(), revision, env.script) else [])
            == old(env.asked) + Dialogue(o, Worker(LookDebit, old(payment.ToSnapshot()), version), old(env.script))
  {
    confirmed, revision, exit := false, version, Returned;
    ghost var w := Worker(LookDebit, payment.ToSnapshot(), version);
    var movement := env.Ask(o, w, WantLookup(DebitLeg));
    match movement {
      case Found(reference) =>
        if payment.status == Processing {
          var debited := payment.DoMarkDebited(reference);
          w := w.(pc := SaveFoundDebit, held := payment.ToSnapshot());
          var saved := env.Ask(o, w, WantSave(payment.ToSnapshot(), []));
          if !saved.Saved? {
            exit := if saved.Conflict? then DomainError else OtherError;
            return;
          }
          revision := version + 1;
        }
        confirmed := true;
      case Absent =>
        var declined := payment.DoDecline(AccountsUnavailable);
        if declined.Err? {
          exit := DomainError;
          return;
        }
        var events := payment.PullEvents();
        w := w.(pc := SaveAbsentDebit, held := payment.ToSnapshot());
        assert Lifecycle(events) == DeclineMessages(w.held);
        var saved := env.Ask(o, w, WantSave(payment.ToSnapshot(), Lifecycle(events)));
        exit := if saved.Saved? then Returned else if saved.Conflict? then DomainError else OtherError;
      case _ =>
    }
  }

  method ReconcileCredit(o: Order, env: Ports, payment: Payment, ghost version: nat) returns (exit: Exit)
    requires payment.order == o && payment.events == [] && payment.debit.Some? && payment.status == Processing
    modifies env, payment
    ensures env.asked == old(env.asked)
              + Dialogue(o, Worker(LookCredit, old(payment.ToSnapshot()), version), old(env.script))
  {
    ghost var w := Worker(LookCredit, payment.ToSnapshot(), version);
    var credit := env.Ask(o, w, WantLookup(CreditLeg));
    if !credit.Found? {
      return Returned;
    }
    exit := SaveApproval(o, env, payment, credit.reference, w, SaveReconciled);
  }

  // -------------------------------------------------------------- payment.saga

  /** The whole saga asks exactly what its program asks, for every script of answers. */
  method RunSaga(o: Order, env: Ports) returns (exit: Exit)
    modifies env
    ensures env.asked == old(env.asked) + Dialogue(o, AT_DEBIT, old(env.script))
  {
    var debited := DebitSourceWallet(o, env);
    if debited != Returned {
      return if debited == DomainError then Returned else OtherError;
    }
    var credited := CreditDestinationWallet(o, env);
    if credited == Returned {
      return Returned;
    }
    exit := CompensatePayment(o, env);
  }
}
