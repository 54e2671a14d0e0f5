/**
 * The payment aggregate: its lifecycle table, its transitions as functions on a
 * stored snapshot, and the mutable object that performs them in place.
 */
module PaymentDomain {
  import opened Wrappers

  datatype Status = Pending | Processing | Approved | Declined | Compensated | CompensationPending

  datatype FailureReason =
    | InsufficientBalance
    | WalletNotFound
    | WalletFrozen
    | CurrencyMismatch
    | AccountsUnavailable
    | CreditFailed

  datatype Leg = DebitLeg | CreditLeg | RefundLeg

  /** What never changes about a payment. `user` is the optional user reference carried in its metadata. */
  datatype Order = Order(
    reference: string,
    transactionId: string,
    amount: int,
    currency: string,
    source: string,
    destination: string,
    user: Option<string>
  )

  /** What does change: the columns a save writes, timestamps aside. */
  datatype Snapshot = Snapshot(
    status: Status,
    reason: Option<FailureReason>,
    debit: Option<string>,
    credit: Option<string>,
    refund: Option<string>
  )

  datatype DomainEvent =
    | ApprovedEvent(debit: string, credit: string)
    | DeclinedEvent(reason: FailureReason)
    | CompensatedEvent(refund: string)

  datatype TransitionError = InvalidTransition(from: Status, to: Status)

  function AllowedTransitions(s: Status): set<Status> {
    match s
    case Pending => {Processing, Declined}
    case Processing => {Approved, Declined, Compensated, CompensationPending}
    case CompensationPending => {Compensated}
    case Approved => {}
    case Declined => {}
    case Compensated => {}
  }

  predicate Terminal(s: Status) {
    s == Approved || s == Declined || s == Compensated
  }

  /** How many saves a payment may still go through before it is terminal. */
  function StepsLeft(s: Status): nat {
    match s
    case Pending => 3
    case Processing => 2
    case CompensationPending => 1
    case _ => 0
  }

  // Terminal is exactly "no way out", and every allowed transition makes progress.
  lemma LifecycleIsWellFounded(s: Status, t: Status)
    ensures Terminal(s) <==> AllowedTransitions(s) == {}
    ensures t in AllowedTransitions(s) ==> StepsLeft(t) < StepsLeft(s)
  {
    if s == Pending {
      assert Declined in AllowedTransitions(s);
    } else if s == Processing {
      assert Declined in AllowedTransitions(s);
    } else if s == CompensationPending {
      assert Compensated in AllowedTransitions(s);
    }
  }

  const FRESH := Snapshot(Pending, None, None, None, None)

  function TransitionTo(s: Snapshot, target: Status): Result<Snapshot, TransitionError> {
    if target in AllowedTransitions(s.status) then Ok(s.(status := target))
    else Err(InvalidTransition(s.status, target))
  }

  function MarkProcessing(s: Snapshot): Result<Snapshot, TransitionError> {
    TransitionTo(s, Processing)
  }

  function MarkDebited(s: Snapshot, debit: string): Result<Snapshot, TransitionError> {
    if s.status == Processing then Ok(s.(debit := Some(debit)))
    else Err(InvalidTransition(s.status, Processing))
  }

  function Approve(s: Snapshot, credit: string): Result<Snapshot, TransitionError> {
    match TransitionTo(s, Approved)
    case Err(e) => Err(e)
    case Ok(t) => if t.debit.Some? then Ok(t.(credit := Some(credit))) else Err(InvalidTransition(Approved, Approved))
  }

  function Decline(s: Snapshot, reason: FailureReason): Result<Snapshot, TransitionError> {
    match TransitionTo(s, Declined)
    case Err(e) => Err(e)
    case Ok(t) => Ok(t.(reason := Some(reason)))
  }

  function Compensate(s: Snapshot, refund: string): Result<Snapshot, TransitionError> {
    match TransitionTo(s, Compensated)
    case Err(e) => Err(e)
    case Ok(t) => Ok(t.(refund := Some(refund), reason := if t.reason.Some? then t.reason else Some(CreditFailed)))
  }

  function MarkCompensationPending(s: Snapshot, reason: FailureReason): Result<Snapshot, TransitionError> {
    match TransitionTo(s, CompensationPending)
    case Err(e) => Err(e)
    case Ok(t) => Ok(t.(reason := Some(reason)))
  }

  /**
   * The aggregate as the program holds it: one object, changed in place, that
   * accumulates the events its next successful save will enqueue.
   */
  class Payment {
    const order: Order
    var status: Status
    var reason: Option<FailureReason>
    var debit: Option<string>
    var credit: Option<string>
    var refund: Option<string>
    var events: seq<DomainEvent>

    /** Rehydration is silent: no event is replayed. */
    constructor Restore(order: Order, s: Snapshot)
      ensures this.order == order && ToSnapshot() == s && events == []
    {
      this.order := order;
      status, reason, debit, credit, refund := s.status, s.reason, s.debit, s.credit, s.refund;
      events := [];
    }

    function ToSnapshot(): (s: Snapshot)
      reads this
    {
      Snapshot(status, reason, debit, credit, refund)
    }

    method Transition(target: Status) returns (r: Result<(), TransitionError>)
      modifies this`status
      ensures r.Ok? <==> TransitionTo(old(ToSnapshot()), target).Ok?
      ensures r.Ok? ==> ToSnapshot() == TransitionTo(old(ToSnapshot()), target).value
      ensures r.Err? ==> r.error == InvalidTransition(old(status), target) && ToSnapshot() == old(ToSnapshot())
    {
      if target !in AllowedTransitions(status) {
        return Err(InvalidTransition(status, target));
      }
      status := target;
      r := Ok(());
    }

    method DoMarkProcessing() returns (r: Result<(), TransitionError>)
      modifies this
      ensures events == old(events)
      ensures match MarkProcessing(old(ToSnapshot()))
              case Ok(s) => r.Ok? && ToSnapshot() == s
              case Err(e) => r == Err(e) && ToSnapshot() == old(ToSnapshot())
      ensures r.Ok? <==> old(status) == Pending
      ensures ToSnapshot() == if r.Ok? then old(ToSnapshot()).(status := Processing) else old(ToSnapshot())
    {
      r := Transition(Processing);
    }

    method DoMarkDebited(reference: string) returns (r: Result<(), TransitionError>)
      modifies this
      ensures events == old(events)
      ensures match MarkDebited(old(ToSnapshot()), reference)
              case Ok(s) => r.Ok? && ToSnapshot() == s
              case Err(e) => r == Err(e) && ToSnapshot() == old(ToSnapshot())
      ensures r.Ok? <==> old(status) == Processing
      ensures ToSnapshot() == if r.Ok? then old(ToSnapshot()).(debit := Some(reference)) else old(ToSnapshot())
    {
      if status != Processing {
        return Err(InvalidTransition(status, Processing));
      }
      debit := Some(reference);
      r := Ok(());
    }

    /**
     * The one transition that is not all-or-nothing: without a debit reference it
     * throws after the status and the credit reference have been overwritten.
     */
    method DoApprove(reference: string) returns (r: Result<(), TransitionError>)
      modifies this
      ensures match Approve(old(ToSnapshot()), reference)
              case Ok(s) => r.Ok? && ToSnapshot() == s && s.debit.Some?
                            && events == old(events) + [ApprovedEvent(s.debit.value, reference)]
              case Err(e) => r == Err(e) && events == old(events)
      ensures r.Ok? <==> old(status) == Processing && old(debit).Some?
      ensures r.Ok? ==> ToSnapshot() == old(ToSnapshot()).(status := Approved, credit := Some(reference))
      ensures r.Err? && old(status) != Processing ==> ToSnapshot() == old(ToSnapshot())
      ensures r.Err? && old(status) == Processing ==>
                ToSnapshot() == old(ToSnapshot()).(status := Approved, credit := Some(reference))
    {
      r := Transition(Approved);
      if r.Err? {
        return;
      }
      credit := Some(reference);
      if debit.None? {
        return Err(InvalidTransition(status, Approved));
      }
      events := events + [ApprovedEvent(debit.value, reference)];
    }

    method DoDecline(why: FailureReason) returns (r: Result<(), TransitionError>)
      modifies this
      ensures match Decline(old(ToSnapshot()), why)
              case Ok(s) => r.Ok? && ToSnapshot() == s && events == old(events) + [DeclinedEvent(why)]
              case Err(e) => r == Err(e) && ToSnapshot() == old(ToSnapshot()) && events == old(events)
      ensures r.Ok? <==> old(status) == Pending || old(status) == Processing
      ensures r.Ok? ==> ToSnapshot() == old(ToSnapshot()).(status := Declined, reason := Some(why))
    {
      r := Transition(Declined);
      if r.Ok? {
        reason := Some(why);
        events := events + [DeclinedEvent(why)];
      }
    }

    method DoCompensate(reference: string) returns (r: Result<(), TransitionError>)
      modifies this
      ensures match Compensate(old(ToSnapshot()), reference)
              case Ok(s) => r.Ok? && ToSnapshot() == s && events == old(events) + [CompensatedEvent(reference)]
              case Err(e) => r == Err(e) && ToSnapshot() == old(ToSnapshot()) && events == old(events)
      ensures r.Ok? <==> old(status) == Processing || old(status) == CompensationPending
      ensures r.Ok? ==> status == Compensated && refund == Some(reference)
      ensures debit == old(debit) && credit == old(credit)
      ensures r.Ok? ==> reason == if old(reason).Some? then old(reason) else Some(CreditFailed)
    {
      r := Transition(Compensated);
      if r.Ok? {
        refund := Some(reference);
        if reason.None? {
          reason := Some(CreditFailed);
        }
        events := events + [CompensatedEvent(reference)];
      }
    }

    method DoMarkCompensationPending(why: FailureReason) returns (r: Result<(), TransitionError>)
      modifies this
      ensures events == old(events)
      ensures match MarkCompensationPending(old(ToSnapshot()), why)
              case Ok(s) => r.Ok? && ToSnapshot() == s
              case Err(e) => r == Err(e) && ToSnapshot() == old(ToSnapshot())
      ensures r.Ok? <==> old(status) == Processing
      ensures r.Ok? ==> ToSnapshot() == old(ToSnapshot()).(status := CompensationPending, reason := Some(why))
    {
      r := Transition(CompensationPending);
      if r.Ok? {
        reason := Some(why);
      }
    }

    /** Hands the accumulated events over once. */
    method PullEvents() returns (pulled: seq<DomainEvent>)
      modifies this`events
      ensures pulled == old(events) && events == []
    {
      pulled := events;
      events := [];
    }
  }
}
