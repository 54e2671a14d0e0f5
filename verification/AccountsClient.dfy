/**
 * The HTTP adapter in front of accounts: which failures are retried, how long
 * apart, and what a handler may conclude from the answer it finally gets.
 */
module AccountsClient {
  import opened Wrappers
  import opened PaymentDomain
  import opened Powers
  import B = CircuitBreaker

  /** What one HTTP attempt comes back with: an answer, or no answer at all. */
  datatype Response =
    | Answer(status: int, message: string, payload: Option<Payload>)
    | NoAnswer(timedOut: bool, code: string)

  /** The movement reference may be missing or malformed, and then the answer is of no use. */
  datatype Payload = Payload(reference: Option<string>)

  datatype Failure = Failure(status: Option<int>, code: string, timedOut: bool)

  // -------------------------------------------------------------- retry policy

  const RETRYABLE_CODES := {"ECONNREFUSED", "ECONNRESET", "ETIMEDOUT", "EAI_AGAIN", "EPIPE"}

  predicate IsRetryable(f: Failure) {
    f.timedOut || f.code in RETRYABLE_CODES || f.status.None? || f.status.value == 429 || f.status.value >= 500
  }

  /** The delay before which jitter is applied. */
  function Ceiling(attempt: nat, baseMs: nat, maxMs: nat): nat
    requires attempt >= 1
  {
    var exponential := baseMs * Pow2(attempt - 1);
    if maxMs < exponential then maxMs else exponential
  }

  function BackoffDelay(attempt: nat, baseMs: nat, maxMs: nat, random: real): int
    requires attempt >= 1
  {
    (random * Ceiling(attempt, baseMs, maxMs) as real).Floor
  }

  lemma {:induction false} Scale(random: real, c: real)
    requires 0.0 <= random < 1.0 && c >= 0.0
    ensures 0.0 <= random * c <= c
  {
    assert c * (1.0 - random) >= 0.0;
  }

  lemma {:induction false} Product(b: nat, x: nat, y: nat)
    requires x <= y
    ensures b * x <= b * y
  {
    assert b * (y - x) >= 0;
  }

  /** The ceiling doubles from one attempt to the next until it reaches the timeout, and never shrinks. */
  lemma {:induction false} CeilingGrows(attempt: nat, later: nat, baseMs: nat, maxMs: nat)
    requires 1 <= attempt <= later
    ensures Ceiling(attempt, baseMs, maxMs) <= Ceiling(later, baseMs, maxMs) <= maxMs
  {
    Pow2Grows(attempt - 1, later - 1);
    Product(baseMs, Pow2(attempt - 1), Pow2(later - 1));
  }

  lemma {:induction false} CeilingDoubles(attempt: nat, baseMs: nat, maxMs: nat)
    requires attempt >= 1
    ensures Ceiling(1, baseMs, maxMs) == if baseMs < maxMs then baseMs else maxMs
    ensures var doubled := 2 * Ceiling(attempt, baseMs, maxMs);
      Ceiling(attempt + 1, baseMs, maxMs) == if doubled < maxMs then doubled else maxMs
  {
    assert baseMs * Pow2(0) == baseMs;
    assert Pow2(attempt) == 2 * Pow2(attempt - 1);
    assert baseMs * Pow2(attempt) == 2 * (baseMs * Pow2(attempt - 1));
  }

  /** Jitter only ever shortens the wait, to the whole milliseconds of its share of the ceiling. */
  lemma {:induction false} BackoffIsBounded(attempt: nat, baseMs: nat, maxMs: nat, random: real)
    requires 1 <= attempt && 0.0 <= random < 1.0
    ensures var delay, ceiling := BackoffDelay(attempt, baseMs, maxMs, random), Ceiling(attempt, baseMs, maxMs);
      && 0 <= delay <= ceiling
      && delay as real <= random * ceiling as real < delay as real + 1.0
  {
    CeilingGrows(attempt, attempt, baseMs, maxMs);
    WholePart(random, Ceiling(attempt, baseMs, maxMs));
  }

  lemma {:induction false} WholePart(random: real, c: nat)
    requires 0.0 <= random < 1.0
    ensures 0 <= (random * c as real).Floor <= c
  {
    Scale(random, c as real);
    FloorBelow(random * c as real, c);
  }

  lemma {:induction false} FloorBelow(x: real, c: nat)
    requires 0.0 <= x <= c as real
    ensures 0 <= x.Floor <= c
  {
  }

  // ------------------------------------------------------- reading one answer

  datatype Judgement = Good(payload: Payload) | Named(reason: FailureReason) | Bad(failure: Failure)

  /** A 4xx the domain has a word for. */
  function AsDomainError(status: int, message: string): Option<FailureReason> {
    if status < 400 || status >= 500 then None
    else if message == "INSUFFICIENT_BALANCE" then Some(InsufficientBalance)
    else if message == "WALLET_NOT_FOUND" then Some(WalletNotFound)
    else if message == "WALLET_FROZEN" then Some(WalletFrozen)
    else if message == "CURRENCY_MISMATCH" then Some(CurrencyMismatch)
    else None
  }

  /** The word accounts uses for a reason; two of the reasons are the payment service's own. */
  function WireName(reason: FailureReason): Option<string> {
    match reason
    case InsufficientBalance => Some("INSUFFICIENT_BALANCE")
    case WalletNotFound => Some("WALLET_NOT_FOUND")
    case WalletFrozen => Some("WALLET_FROZEN")
    case CurrencyMismatch => Some("CURRENCY_MISMATCH")
    case AccountsUnavailable => None
    case CreditFailed => None
  }

  function Judge(r: Response): Judgement {
    match r
    case NoAnswer(timedOut, code) => Bad(Failure(None, if timedOut then "" else code, timedOut))
    case Answer(status, message, payload) =>
      match AsDomainError(status, message)
      case Some(reason) => Named(reason)
      case None =>
        if status >= 400 || payload.None? then Bad(Failure(Some(status), "", false)) else Good(payload.value)
  }

  predicate WorthRetrying(r: Response) {
    Judge(r).Bad? && IsRetryable(Judge(r).failure)
  }

  /** A 4xx is a refusal exactly when it uses the reason's own word; a payload is good only below 400. */
  lemma {:induction false} RefusalsUseTheirWord(r: Response, reason: FailureReason)
    ensures Judge(r) == Named(reason) <==> r.Answer? && 400 <= r.status < 500 && WireName(reason) == Some(r.message)
    ensures Judge(r).Good? <==> r.Answer? && r.status < 400 && r.payload.Some?
    ensures Judge(r).Good? ==> r.payload == Some(Judge(r).payload)
  {
  }

  /** Retried are anything unanswered, a 5xx, and a 429 that is no refusal; never an answer below 400. */
  lemma {:induction false} RetriedExactly(r: Response)
    ensures WorthRetrying(r) <==>
            || r.NoAnswer?
            || r.status >= 500
            || (r.status == 429
                && r.message !in {"INSUFFICIENT_BALANCE", "WALLET_NOT_FOUND", "WALLET_FROZEN", "CURRENCY_MISMATCH"})
  {
  }

  // ----------------------------------------------------------- the POST loop

  datatype Sent =
    | Delivered(payload: Payload)
    | Refusal(reason: FailureReason)
    | RefusalAfterUncertainty
    | GaveUp

  /** What the attempts left come to, and how many of them are made. */
  function Attempts(responses: seq<Response>, left: nat, uncertain: bool): (Sent, nat)
    requires left <= |responses|
    decreases left
  {
    if left == 0 then (GaveUp, 0)
    else
      match Judge(responses[0])
      case Good(p) => (Delivered(p), 1)
      case Named(reason) => (if uncertain then RefusalAfterUncertainty else Refusal(reason), 1)
      case Bad(failure) =>
        if !IsRetryable(failure) || left == 1 then (GaveUp, 1)
        else
          var (sent, posts) := Attempts(responses[1..], left - 1, true);
          (sent, posts + 1)
  }

  /**
   * `responses[i]` is what attempt `i` would come back with. The loop stops at
   * the first answer not worth retrying, or when attempts run out; the last
   * attempt made decides, and a named refusal is passed on only if it was the first.
   */
  method Send(responses: seq<Response>, maxAttempts: nat) returns (sent: Sent, posts: nat)
    requires maxAttempts <= |responses|
    ensures (sent, posts) == Attempts(responses, maxAttempts, false)
    ensures posts <= maxAttempts && (maxAttempts > 0 ==> posts > 0)
    ensures forall i :: 0 <= i < posts - 1 ==> WorthRetrying(responses[i])
    ensures 0 < posts < maxAttempts ==> !WorthRetrying(responses[posts - 1])
    ensures posts == 0 ==> sent == GaveUp
    ensures posts > 0 ==>
              match Judge(responses[posts - 1])
              case Good(p) => sent == Delivered(p)
              case Named(reason) => sent == if posts == 1 then Refusal(reason) else RefusalAfterUncertainty
              case Bad(_) => sent == GaveUp
  {
    var lastError: Option<Failure> := None;
    posts := 0;
    for attempt := 1 to maxAttempts + 1
      invariant posts == attempt - 1
      invariant forall i :: 0 <= i < posts ==> WorthRetrying(responses[i])
      invariant lastError.Some? <==> posts > 0
      invariant posts > 0 ==> attempt <= maxAttempts
      invariant posts <= maxAttempts
      invariant var (s, n) := Attempts(responses[posts..], maxAttempts - posts, posts > 0);
        Attempts(responses, maxAttempts, false) == (s, posts + n)
    {
      var response := responses[posts];
      assert responses[posts..][0] == response && responses[posts..][1..] == responses[posts + 1..];
      posts := posts + 1;
      match Judge(response) {
        case Good(p) => return Delivered(p), posts;
        case Named(reason) =>
          if lastError.Some? {
            return RefusalAfterUncertainty, posts;
          }
          return Refusal(reason), posts;
        case Bad(failure) =>
          lastError := Some(failure);
          if !IsRetryable(failure) || attempt == maxAttempts {
            break;
          }
      }
    }
    sent := GaveUp;
  }

  // ------------------------------------------------------------ the GET loop

  datatype Seen = Recorded(payload: Payload) | NoMovement | Unreadable

  datatype Reading = Present(payload: Payload) | Missing | Misread(failure: Failure)

  function ReadAnswer(r: Response): (reading: Reading)
    ensures reading.Missing? <==> r.Answer? && r.status == 404
    ensures reading.Present? <==> r.Answer? && r.status < 400 && r.payload.Some?
    ensures reading.Present? ==> r.payload == Some(reading.payload)
  {
    match r
    case NoAnswer(timedOut, code) => Misread(Failure(None, if timedOut then "" else code, timedOut))
    case Answer(status, _, payload) =>
      if status == 404 then Missing
      else if status >= 400 || payload.None? then Misread(Failure(Some(status), "", false))
      else Present(payload.value)
  }

  predicate WorthRereading(r: Response): (again: bool)
    ensures again <==> r.NoAnswer? || r.status >= 500 || r.status == 429
  {
    ReadAnswer(r).Misread? && IsRetryable(ReadAnswer(r).failure)
  }

  /** The same loop on a call that changes nothing: only a 404 means that there is no movement. */
  method Read(responses: seq<Response>, maxAttempts: nat) returns (seen: Seen, gets: nat)
    requires maxAttempts <= |responses|
    ensures gets <= maxAttempts && (maxAttempts > 0 ==> gets > 0)
    ensures forall i :: 0 <= i < gets - 1 ==> WorthRereading(responses[i])
    ensures 0 < gets < maxAttempts ==> !WorthRereading(responses[gets - 1])
    ensures gets == 0 ==> seen == Unreadable
    ensures gets > 0 ==>
              match ReadAnswer(responses[gets - 1])
              case Present(p) => seen == Recorded(p)
              case Missing => seen == NoMovement
              case Misread(_) => seen == Unreadable
  {
    gets := 0;
    for attempt := 1 to maxAttempts + 1
      invariant gets == attempt - 1
      invariant forall i :: 0 <= i < gets ==> WorthRereading(responses[i])
      invariant gets > 0 ==> attempt <= maxAttempts
    {
      var response := responses[gets];
      gets := gets + 1;
      match ReadAnswer(response) {
        case Present(p) => return Recorded(p), gets;
        case Missing => return NoMovement, gets;
        case Misread(failure) =>
          if !IsRetryable(failure) || attempt == maxAttempts {
            break;
          }
      }
    }
    seen := Unreadable;
  }

  // -------------------------------------------------------- the whole adapter

  /** What reaches a handler. */
  datatype Movement =
    | Done(reference: string)
    | RefusedBecause(reason: FailureReason)
    | Unavailable

  /** A payload without a reference is thrown on as if accounts had not answered. */
  function Reported(sent: Sent): Movement {
    match sent
    case Delivered(payload) => if payload.reference.Some? then Done(payload.reference.value) else Unavailable
    case Refusal(reason) => RefusedBecause(reason)
    case _ => Unavailable
  }

  /** What the breaker is told of a call: only one that gave up says anything against accounts. */
  function WorkOf(sent: Sent): B.Work {
    match sent
    case Delivered(_) => B.Answers
    case GaveUp => B.Breaks
    case _ => B.Refuses
  }

  /** What recovery is told of a movement it asks for. */
  datatype Lookup = RecordedAs(reference: string) | NotRecorded | CannotTell

  class Client {
    const breaker: B.Breaker
    const maxAttempts: nat

    constructor (options: B.Options, maxRetries: nat)
      ensures fresh(breaker) && breaker.Recall() == B.INITIAL && breaker.options == options
      ensures maxAttempts == maxRetries + 1
    {
      breaker := new B.Breaker(options);
      maxAttempts := maxRetries + 1;
    }

    /**
     * `debit` and `credit`. A refusal that reaches the caller is the answer to the
     * one and only POST of the call; an open circuit sends nothing.
     */
    method PostMovement(responses: seq<Response>, startedAt: int, endedAt: int) returns (result: Movement, posts: nat)
      requires maxAttempts <= |responses|
      modifies breaker
      ensures result.RefusedBecause? ==> posts == 1 <= maxAttempts && Judge(responses[0]) == Named(result.reason)
      ensures result.Done? ==>
                0 < posts <= maxAttempts && Judge(responses[posts - 1]) == Good(Payload(Some(result.reference)))
      ensures posts == 0 ==> result == Unavailable
      ensures !B.Rejects(breaker.options, old(breaker.Recall()), startedAt) ==>
                var (sent, n) := Attempts(responses, maxAttempts, false); result == Reported(sent) && posts == n
      ensures B.Rejects(breaker.options, old(breaker.Recall()), startedAt) ==>
                posts == 0 && breaker.Recall() == old(breaker.Recall())
      ensures result.RefusedBecause? ==> breaker.state == B.Closed && breaker.failures == 0
      ensures var work := WorkOf(Attempts(responses, maxAttempts, false).0);
        breaker.Recall() == B.After(breaker.options, old(breaker.Recall()), B.Call(work, startedAt, endedAt))
    {
      var admitted := breaker.Begin(startedAt);
      if !admitted {
        return Unavailable, 0;
      }
      var sent;
      sent, posts := Send(responses, maxAttempts);
      match sent {
        case Delivered(payload) =>
          breaker.OnSuccess();
          // A payload without a reference is thrown on after the breaker has counted a success.
          result := if payload.reference.Some? then Done(payload.reference.value) else Unavailable;
        case Refusal(reason) =>
          breaker.OnFailure(endedAt);
          breaker.OnSuccess();
          result := RefusedBecause(reason);
        case RefusalAfterUncertainty =>
          breaker.OnFailure(endedAt);
          breaker.OnSuccess();
          result := Unavailable;
        case GaveUp =>
          breaker.OnFailure(endedAt);
          result := Unavailable;
      }
    }

    /** `findMovement`: an absent movement is a 404 that was heard; a useless answer, or none, proves nothing. */
    method FindMovement(responses: seq<Response>, startedAt: int, endedAt: int) returns (found: Lookup, gets: nat)
      requires maxAttempts <= |responses|
      modifies breaker
      ensures gets <= maxAttempts
      ensures found == NotRecorded <==> gets > 0 && responses[gets - 1].Answer? && responses[gets - 1].status == 404
      ensures found.RecordedAs? ==>
                gets > 0 && ReadAnswer(responses[gets - 1]) == Present(Payload(Some(found.reference)))
      ensures gets > 0 && ReadAnswer(responses[gets - 1]).Present? ==>
                found.RecordedAs? || ReadAnswer(responses[gets - 1]).payload.reference.None?
      ensures forall i :: 0 <= i < gets - 1 ==> WorthRereading(responses[i])
      ensures 0 < gets < maxAttempts ==> !WorthRereading(responses[gets - 1])
      ensures B.Rejects(breaker.options, old(breaker.Recall()), startedAt) ==> gets == 0
      ensures !B.Rejects(breaker.options, old(breaker.Recall()), startedAt) && maxAttempts > 0 ==> gets > 0
      ensures var heard := gets > 0 && !ReadAnswer(responses[gets - 1]).Misread?;
        var work := if heard then B.Answers else B.Breaks;
        breaker.Recall() == B.After(breaker.options, old(breaker.Recall()), B.Call(work, startedAt, endedAt))
    {
      var admitted := breaker.Begin(startedAt);
      if !admitted {
        return CannotTell, 0;
      }
      var seen;
      seen, gets := Read(responses, maxAttempts);
      match seen {
        case Recorded(payload) =>
          breaker.OnSuccess();
          found := if payload.reference.Some? then RecordedAs(payload.reference.value) else CannotTell;
        case NoMovement =>
          breaker.OnSuccess();
          found := NotRecorded;
        case Unreadable =>
          breaker.OnFailure(endedAt);
          found := CannotTell;
      }
    }
  }
}
