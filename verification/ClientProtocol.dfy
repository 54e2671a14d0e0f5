/**
 * The client's loop inside the payment protocol: whatever its attempts come back
 * with, a call is a run of posts, give-ups and at most one received reply, and
 * the handler goes on with the very answer the protocol would give.
 */
module ClientProtocol {
  import opened Wrappers
  import opened PaymentDomain
  import opened WorkerProgram
  import opened SagaProtocol
  import opened SagaGuarantees
  import C = AccountsClient

  function AnswerOf(result: C.Movement): Answer {
    match result
    case Done(reference) => Moved(reference)
    case RefusedBecause(reason) => Refused(reason)
    case Unavailable => Answer.Unavailable
  }

  /** How accounts disposes of the request that is answered, if that can be seen in the answer. */
  function Disposal(p: Posted, leg: Leg, r: C.Response): Option<Outcome> {
    match C.Judge(r)
    case Good(payload) =>
      (match payload.reference
       case Some(reference) => Some(if p.Get(leg).Some? then Replayed(reference) else Applied(reference))
       case None => None)
    case Named(reason) => Some(Rejected(reason))
    case Bad(_) => None
  }

  /** The attempts in the protocol's terms, up to where the last one's fate is known. */
  function Tries(p: Posted, leg: Leg, id: nat, next: nat, responses: seq<C.Response>, left: nat): seq<Action>
    requires 0 < left <= |responses|
    decreases left
  {
    [Post(id)] +
    if C.WorthRetrying(responses[0]) && left > 1
    then [GiveUp(id, true)] + Tries(p, leg, id, next + 1, responses[1..], left - 1)
    else match Disposal(p, leg, responses[0])
         case Some(outcome) => [Deliver(next, outcome)]
         case None => []
  }

  /** The step that hands the last attempt's fate to the handler. */
  function Ending(p: Posted, leg: Leg, id: nat, responses: seq<C.Response>, left: nat): Action
    requires 0 < left <= |responses|
    decreases left
  {
    if C.WorthRetrying(responses[0]) && left > 1 then Ending(p, leg, id, responses[1..], left - 1)
    else if Disposal(p, leg, responses[0]).Some? then Receive(id)
    else GiveUp(id, false)
  }

  /** What is already recorded under the leg is what a granting answer names. */
  predicate Agreeing(p: Posted, leg: Leg, sent: C.Sent) {
    sent.Delivered? && sent.payload.reference.Some? && p.Get(leg).Some? ==> p.Get(leg) == sent.payload.reference
  }

  /** A worker about to make an attempt. */
  predicate AboutToPost(l: Local, id: nat, uncertain: bool) {
    id in l.workers && Sending(l.workers[id].pc) && l.workers[id].pc.call == Call(uncertain, None)
  }

  lemma {:induction false} AdvanceIgnoresCall(w: Worker, c: Call, a: Answer)
    requires Sending(w.pc)
    ensures Advance(WithCall(w, c), a) == Advance(w, a)
  {
  }

  /** A failed attempt with more to come. */
  lemma {:induction false} RetryStep(l: Local, p: Posted, id: nat, uncertain: bool)
    requires AboutToPost(l, id, uncertain)
    ensures Enabled(l, p, Post(id))
    ensures var m := Next(l, p, Post(id));
      && Enabled(m, p, GiveUp(id, true))
      && var n := Next(m, p, GiveUp(id, true));
      && AboutToPost(n, id, true) && n.nextId == l.nextId + 1
      && n.workers == l.workers[id := WithCall(l.workers[id], Call(true, None))]
  {
  }

  /** Where the worker stands once the last attempt's fate is known. */
  ghost predicate Informed(l: Local, p: Posted, id: nat, m: Local, q: Posted, uncertain: bool, posts: nat,
      ending: Action, answer: Answer)
    requires id in l.workers && Sending(l.workers[id].pc)
  {
    && posts > 0
    && m.workers == l.workers[id := WithCall(l.workers[id], Call(uncertain, Some(l.nextId + posts - 1)))]
    && Enabled(m, q, ending)
    && Turn(m, q, ending) == Some((id, answer))
  }

  /** The attempts lead to where the client's result is known. */
  ghost predicate Leads(l: Local, p: Posted, id: nat, uncertain: bool, responses: seq<C.Response>, left: nat)
    requires AboutToPost(l, id, uncertain) && 0 < left <= |responses|
  {
    var leg := LegOf(l.workers[id].pc);
    var tries := Tries(p, leg, id, l.nextId, responses, left);
    && Feasible(l, p, tries)
    && var (m, q) := After(l, p, tries);
    var (sent, posts) := C.Attempts(responses, left, uncertain);
    Informed(l, p, id, m, q, uncertain || posts > 1, posts, Ending(p, leg, id, responses, left),
        AnswerOf(C.Reported(sent)))
  }

  lemma {:induction false} LastAttempt(l: Local, p: Posted, id: nat, uncertain: bool, responses: seq<C.Response>,
                                       left: nat)
    requires AboutToPost(l, id, uncertain) && 0 < left <= |responses|
    requires !(C.WorthRetrying(responses[0]) && left > 1)
    requires Agreeing(p, LegOf(l.workers[id].pc), C.Attempts(responses, left, uncertain).0)
    ensures Leads(l, p, id, uncertain, responses, left)
  {
    var leg := LegOf(l.workers[id].pc);
    var m := Next(l, p, Post(id));
    match Disposal(p, leg, responses[0])
    case Some(outcome) =>
      var d := Deliver(l.nextId, outcome);
      AnsweredAttempt(l, p, id, uncertain, outcome);
      assert After(Next(m, p, d), NextPosted(m, p, d), []) == (Next(m, p, d), NextPosted(m, p, d));
      OneMoreAction(m, p, d, []);
      OneMoreAction(l, p, Post(id), [d] + []);
      assert [d] + [] == [d];
    case None =>
      UnansweredAttempt(l, p, id, uncertain);
      assert After(m, p, []) == (m, p);
      OneMoreAction(l, p, Post(id), []);
      assert [Post(id)] + [] == [Post(id)];
  }

  /** The answer the protocol gives on a reply that is heard. */
  function HeardAnswer(outcome: Outcome, uncertain: bool): Answer
    requires !outcome.Failed?
  {
    match outcome
    case Rejected(reason) => if uncertain then Answer.Unavailable else Refused(reason)
    case Applied(reference) => Moved(reference)
    case Replayed(reference) => Moved(reference)
  }

  lemma {:induction false} AnsweredAttempt(l: Local, p: Posted, id: nat, uncertain: bool, outcome: Outcome)
    requires AboutToPost(l, id, uncertain) && !outcome.Failed?
    requires outcome.Applied? ==> p.Get(LegOf(l.workers[id].pc)).None?
    requires outcome.Replayed? ==> p.Get(LegOf(l.workers[id].pc)) == Some(outcome.reference)
    ensures var m := Next(l, p, Post(id)); var d := Deliver(l.nextId, outcome);
      && Enabled(m, p, d)
      && Informed(l, p, id, Next(m, p, d), NextPosted(m, p, d), uncertain, 1, Receive(id),
          HeardAnswer(outcome, uncertain))
  {
    var m := Next(l, p, Post(id));
    assert m.wire[l.nextId] == LegOf(l.workers[id].pc);
    assert m.workers[id] == WithCall(l.workers[id], Call(uncertain, Some(l.nextId)));
  }

  lemma {:induction false} UnansweredAttempt(l: Local, p: Posted, id: nat, uncertain: bool)
    requires AboutToPost(l, id, uncertain)
    ensures Informed(l, p, id, Next(l, p, Post(id)), p, uncertain, 1, GiveUp(id, false), Answer.Unavailable)
  {
    assert Next(l, p, Post(id)).workers[id] == WithCall(l.workers[id], Call(uncertain, Some(l.nextId)));
  }

  /** What the attempts after a failed one lead to, this one leads to as well. */
  lemma {:induction false} RetryLeads(l: Local, p: Posted, id: nat, uncertain: bool, responses: seq<C.Response>,
                                      left: nat)
    requires AboutToPost(l, id, uncertain) && 1 < left <= |responses| && C.WorthRetrying(responses[0])
    requires var n := Next(Next(l, p, Post(id)), p, GiveUp(id, true));
      AboutToPost(n, id, true) && Leads(n, p, id, true, responses[1..], left - 1)
    ensures Leads(l, p, id, uncertain, responses, left)
  {
    RetryStep(l, p, id, uncertain);
    var m := Next(l, p, Post(id));
    var rest := Tries(p, LegOf(l.workers[id].pc), id, l.nextId + 1, responses[1..], left - 1);
    OneMoreAction(m, p, GiveUp(id, true), rest);
    OneMoreAction(l, p, Post(id), [GiveUp(id, true)] + rest);
  }

  lemma {:induction false} TriesLead(l: Local, p: Posted, id: nat, uncertain: bool, responses: seq<C.Response>,
                                     left: nat)
    requires AboutToPost(l, id, uncertain) && 0 < left <= |responses|
    requires Agreeing(p, LegOf(l.workers[id].pc), C.Attempts(responses, left, uncertain).0)
    ensures Leads(l, p, id, uncertain, responses, left)
    decreases left
  {
    if C.WorthRetrying(responses[0]) && left > 1 {
      RetryStep(l, p, id, uncertain);
      TriesLead(Next(Next(l, p, Post(id)), p, GiveUp(id, true)), p, id, true, responses[1..], left - 1);
      RetryLeads(l, p, id, uncertain, responses, left);
    } else {
      LastAttempt(l, p, id, uncertain, responses, left);
    }
  }

  /**
   * For every sequence of responses a call of the client is a run of the protocol
   * that ends with the same answer: the worker goes on as its program does on that
   * answer, and the attempt answered counts as uncertain exactly when it is not the
   * call's first POST.
   */
  lemma {:induction false} CallIsAProtocolRun(l: Local, p: Posted, id: nat, responses: seq<C.Response>,
                                              maxAttempts: nat)
    returns (tries: seq<Action>, ending: Action)
    requires AboutToPost(l, id, false) && 0 < maxAttempts <= |responses|
    requires Agreeing(p, LegOf(l.workers[id].pc), C.Attempts(responses, maxAttempts, false).0)
    ensures Feasible(l, p, tries) && (forall a :: a in tries ==> a == Post(id) || a == GiveUp(id, true) || a.Deliver?)
    ensures ending == Receive(id) || ending == GiveUp(id, false)
    ensures var (m, q) := After(l, p, tries); var (sent, posts) := C.Attempts(responses, maxAttempts, false);
      && Enabled(m, q, ending)
      && id in m.workers && Sending(m.workers[id].pc) && m.workers[id].pc.call.awaiting == Some(l.nextId + posts - 1)
      && (m.workers[id].pc.call.uncertain <==> posts > 1)
      && var next := Advance(l.workers[id], AnswerOf(C.Reported(sent)));
      && Next(m, q, ending).workers == if next.Some? then l.workers[id := next.value] else l.workers - {id}
  {
    var leg := LegOf(l.workers[id].pc);
    var (sent, posts) := C.Attempts(responses, maxAttempts, false);
    tries, ending := Tries(p, leg, id, l.nextId, responses, maxAttempts), Ending(p, leg, id, responses, maxAttempts);
    TriesLead(l, p, id, false, responses, maxAttempts);
    TriesAreTheCalls(p, leg, id, l.nextId, responses, maxAttempts);
    LeadsInformed(l, p, id, responses, maxAttempts);
    InformedGoesOn(l, p, id, After(l, p, tries).0, After(l, p, tries).1, posts > 1, posts, ending,
                   AnswerOf(C.Reported(sent)));
  }

  lemma {:induction false} LeadsInformed(l: Local, p: Posted, id: nat, responses: seq<C.Response>, left: nat)
    requires AboutToPost(l, id, false) && 0 < left <= |responses| && Leads(l, p, id, false, responses, left)
    ensures var leg := LegOf(l.workers[id].pc); var tries := Tries(p, leg, id, l.nextId, responses, left);
      && Feasible(l, p, tries)
      && var (m, q) := After(l, p, tries); var (sent, posts) := C.Attempts(responses, left, false);
      Informed(l, p, id, m, q, posts > 1, posts, Ending(p, leg, id, responses, left), AnswerOf(C.Reported(sent)))
  {
  }

  lemma {:induction false} InformedGoesOn(l: Local, p: Posted, id: nat, m: Local, q: Posted, uncertain: bool,
                                          posts: nat,
                                          ending: Action, answer: Answer)
    requires id in l.workers && Sending(l.workers[id].pc)
    requires Informed(l, p, id, m, q, uncertain, posts, ending, answer)
    ensures Enabled(m, q, ending) && id in m.workers
    ensures var c := Call(uncertain, Some(l.nextId + posts - 1));
      m.workers[id] == WithCall(l.workers[id], c) && Sending(m.workers[id].pc) && m.workers[id].pc.call == c
    ensures var next := Advance(l.workers[id], answer);
      Next(m, q, ending).workers == if next.Some? then l.workers[id := next.value] else l.workers - {id}
  {
    TurnWorkers(m, q, ending);
    AdvanceIgnoresCall(l.workers[id], Call(uncertain, Some(l.nextId + posts - 1)), answer);
    assert m.workers - {id} == l.workers - {id};
  }

  lemma {:induction false} TriesAreTheCalls(p: Posted, leg: Leg, id: nat, next: nat, responses: seq<C.Response>,
                                            left: nat)
    requires 0 < left <= |responses|
    ensures forall a :: a in Tries(p, leg, id, next, responses, left) ==>
                          a == Post(id) || a == GiveUp(id, true) || a.Deliver?
    ensures var ending := Ending(p, leg, id, responses, left); ending == Receive(id) || ending == GiveUp(id, false)
    decreases left
  {
    if C.WorthRetrying(responses[0]) && left > 1 {
      TriesAreTheCalls(p, leg, id, next + 1, responses[1..], left - 1);
    }
  }
}
