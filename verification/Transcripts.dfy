/** The three courses a payment can take when every answer arrives, want by want, as the handlers ask. */
module Transcripts {
  import opened Wrappers
  import opened PaymentDomain
  import opened WorkerProgram
  import opened SagaProtocol
  import opened Handlers

  lemma {:induction false} OneTurn(o: Order, w: Worker, a: Answer, rest: seq<Answer>, next: Worker)
    requires Ready(w) && Advance(w, a) == Some(next)
    ensures Dialogue(o, w, [a] + rest) == [NextWant(o, w)] + Dialogue(o, next, rest)
  {
    assert Head([a] + rest) == a && Tail([a] + rest) == rest;
  }

  lemma {:induction false} LastTurn(o: Order, w: Worker, a: Answer)
    requires Ready(w) && Advance(w, a).None?
    ensures Dialogue(o, w, [a]) == [NextWant(o, w)]
  {
    assert Head([a]) == a;
  }

  lemma {:induction false} TwoTurns(o: Order, w: Worker, a: Answer, mid: Worker, b: Answer, rest: seq<Answer>,
                                    next: Worker)
    requires Ready(w) && Advance(w, a) == Some(mid) && Advance(mid, b) == Some(next)
    ensures Dialogue(o, w, [a] + ([b] + rest)) == [NextWant(o, w), NextWant(o, mid)] + Dialogue(o, next, rest)
  {
    OneTurn(o, w, a, [b] + rest, mid);
    OneTurn(o, mid, b, rest, next);
    Regroup([NextWant(o, w)], [NextWant(o, mid)], Dialogue(o, next, rest));
  }

  lemma {:induction false} Regroup(a: seq<Want>, b: seq<Want>, c: seq<Want>)
    ensures a + (b + c) == (a + b) + c
  {
  }

  /** The payment is read and marked, and the debit asked for. */
  lemma {:induction false} Opening(o: Order, rest: seq<Answer>)
    ensures Dialogue(o, AT_DEBIT, [Row(FRESH, 1)] + ([Saved] + rest))
            == [WantRow, WantSave(STARTED, [])] + Dialogue(o, Worker(SendDebit(FIRST_ATTEMPT), STARTED, 2), rest)
  {
    var marked := Worker(SaveProcessing, STARTED, 1);
    TwoTurns(o, AT_DEBIT, Row(FRESH, 1), marked, Saved, rest, Worker(SendDebit(FIRST_ATTEMPT), STARTED, 2));
  }

  /** The debit is made and recorded, and the credit asked for. */
  lemma {:induction false} Middle(o: Order, debit: string, rest: seq<Answer>)
    ensures Dialogue(o, Worker(SendDebit(FIRST_ATTEMPT), STARTED, 2),
                     [Moved(debit)] + ([Saved] + ([Row(Debited(debit), 3)] + rest)))
            == [WantMovement(DebitLeg), WantSave(Debited(debit), []), WantRow]
               + Dialogue(o, Worker(SendCredit(FIRST_ATTEMPT), Debited(debit), 3), rest)
  {
    var sending := Worker(SendDebit(FIRST_ATTEMPT), STARTED, 2);
    var saving := Worker(SaveDebited, Debited(debit), 2);
    var reading := Worker(ReadForCredit, Debited(debit), 3);
    var crediting := Worker(SendCredit(FIRST_ATTEMPT), Debited(debit), 3);
    TwoTurns(o, sending, Moved(debit), saving, Saved, [Row(Debited(debit), 3)] + rest, reading);
    OneTurn(o, reading, Row(Debited(debit), 3), rest, crediting);
    Regroup([WantMovement(DebitLeg), WantSave(Debited(debit), [])], [WantRow], Dialogue(o, crediting, rest));
  }

  /** A refused debit: one save more, with the refusal's own reason, in the row and in the event. */
  lemma {:induction false} RefusedDebitCourse(o: Order, reason: FailureReason, last: Answer)
    ensures Dialogue(o, AT_DEBIT, [Row(FRESH, 1)] + ([Saved] + ([Refused(reason)] + [last])))
            == [WantRow, WantSave(STARTED, []), WantMovement(DebitLeg),
                WantSave(Closed(reason), [LifecycleMessage(DeclinedEvent(reason))])]
  {
    var declining := Worker(SaveDeclined, Closed(reason), 2);
    Opening(o, [Refused(reason)] + [last]);
    OneTurn(o, Worker(SendDebit(FIRST_ATTEMPT), STARTED, 2), Refused(reason), [last], declining);
    LastTurn(o, declining, last);
  }

  /** Debit and credit made: the approval, both ledger messages and the event are the last save. */
  lemma {:induction false} SettledCourse(o: Order, debit: string, credit: string)
    ensures Dialogue(o, AT_DEBIT, [Row(FRESH, 1)] + ([Saved] + ([Moved(debit)] + ([Saved]
                     + ([Row(Debited(debit), 3)] + ([Moved(credit)] + [Saved]))))))
            == [WantRow, WantSave(STARTED, [])]
               + ([WantMovement(DebitLeg), WantSave(Debited(debit), []), WantRow]
                  + [WantMovement(CreditLeg),
                     WantSave(Settled(debit, credit),
                              [LedgerMessage(DebitLeg, DEBIT, o.source, o.amount, o.currency, o.user),
                               LedgerMessage(CreditLeg, CREDIT, o.destination, o.amount, o.currency, o.user),
                               LifecycleMessage(ApprovedEvent(debit, credit))])])
  {
    Opening(o, [Moved(debit)] + ([Saved] + ([Row(Debited(debit), 3)] + ([Moved(credit)] + [Saved]))));
    Middle(o, debit, [Moved(credit)] + [Saved]);
    Approving(o, debit, credit);
  }

  lemma {:induction false} Approving(o: Order, debit: string, credit: string)
    ensures Dialogue(o, Worker(SendCredit(FIRST_ATTEMPT), Debited(debit), 3), [Moved(credit)] + [Saved])
            == [WantMovement(CreditLeg),
                WantSave(Settled(debit, credit),
                         [LedgerMessage(DebitLeg, DEBIT, o.source, o.amount, o.currency, o.user),
                          LedgerMessage(CreditLeg, CREDIT, o.destination, o.amount, o.currency, o.user),
                          LifecycleMessage(ApprovedEvent(debit, credit))])]
  {
    var approving := Worker(SaveApproved, Settled(debit, credit), 3);
    OneTurn(o, Worker(SendCredit(FIRST_ATTEMPT), Debited(debit), 3), Moved(credit), [Saved], approving);
    LastTurn(o, approving, Saved);
  }

  /** A refused credit: the refund is saved as owed, then read again, asked for and recorded. */
  lemma {:induction false} RefusedCreditCourse(o: Order, debit: string, why: FailureReason, refund: string,
                                               last: Answer)
    ensures Dialogue(o, AT_DEBIT, [Row(FRESH, 1)] + ([Saved] + ([Moved(debit)] + ([Saved]
                     + ([Row(Debited(debit), 3)] + ([Refused(why)] + ([Saved]
                     + ([Row(Owed(debit), 4)] + ([Moved(refund)] + [last])))))))))
            == [WantRow, WantSave(STARTED, [])]
               + ([WantMovement(DebitLeg), WantSave(Debited(debit), []), WantRow]
                  + ([WantMovement(CreditLeg), WantSave(Owed(debit), [])]
                     + [WantRow, WantMovement(RefundLeg),
                        WantSave(Unwound(debit, refund),
                                 [LedgerMessage(RefundLeg, REFUND, o.source, o.amount, o.currency, o.user),
                                  LifecycleMessage(CompensatedEvent(refund))])]))
  {
    var end := [Row(Owed(debit), 4)] + ([Moved(refund)] + [last]);
    Opening(o, [Moved(debit)] + ([Saved] + ([Row(Debited(debit), 3)] + ([Refused(why)] + ([Saved] + end)))));
    Middle(o, debit, [Refused(why)] + ([Saved] + end));
    Owing(o, debit, why, end);
    Refunding(o, debit, refund, last);
  }

  lemma {:induction false} Owing(o: Order, debit: string, why: FailureReason, rest: seq<Answer>)
    ensures Dialogue(o, Worker(SendCredit(FIRST_ATTEMPT), Debited(debit), 3), [Refused(why)] + ([Saved] + rest))
            == [WantMovement(CreditLeg), WantSave(Owed(debit), [])]
               + Dialogue(o, Worker(ReadForRecovery, Owed(debit), 4), rest)
  {
    TwoTurns(o, Worker(SendCredit(FIRST_ATTEMPT), Debited(debit), 3), Refused(why),
             Worker(SaveCreditRefused, Owed(debit), 3), Saved, rest, Worker(ReadForRecovery, Owed(debit), 4));
  }

  lemma {:induction false} Refunding(o: Order, debit: string, refund: string, last: Answer)
    ensures Dialogue(o, Worker(ReadForRecovery, Owed(debit), 4),
                     [Row(Owed(debit), 4)] + ([Moved(refund)] + [last]))
            == [WantRow, WantMovement(RefundLeg),
                WantSave(Unwound(debit, refund),
                         [LedgerMessage(RefundLeg, REFUND, o.source, o.amount, o.currency, o.user),
                          LifecycleMessage(CompensatedEvent(refund))])]
  {
    var compensating := Worker(SaveCompensated, Unwound(debit, refund), 4);
    TwoTurns(o, Worker(ReadForRecovery, Owed(debit), 4), Row(Owed(debit), 4),
             Worker(SendRefund(FIRST_ATTEMPT), Owed(debit), 4), Moved(refund), [last], compensating);
    LastTurn(o, compensating, last);
  }
}
