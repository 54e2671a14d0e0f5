/**
 * Creating a payment under an idempotency key: the key is claimed, the payment
 * inserted and the response stored in one database transaction, before the saga
 * starts. Callers run concurrently, statement by statement. An INSERT meeting an
 * uncommitted row of the same key waits for that transaction to end; a caller may
 * die anywhere, which rolls its transaction back; and a commit may succeed without
 * the caller ever hearing of it.
 */
module IdempotentCreation {
  import opened Wrappers
  import opened PaymentDomain
  import R = References
  import W = PaymentWorld
  import C = CanonicalText

  datatype KeyStatus = InProgress | Completed

  datatype KeyRow = KeyRow(request: string, status: KeyStatus, payment: Option<string>, response: Option<string>)

  /** The two tables the transaction writes. */
  datatype Tables = Tables(keys: map<string, KeyRow>, payments: map<string, Order>)

  /** `text` is the canonical text of the command, `draft` the payment it asks for, still without a reference. */
  datatype Request = Request(text: string, draft: Order)
  {
    function Key(): string { draft.transactionId }
  }

  datatype Outcome =
    | Created(reference: string)
    | Replayed(reference: string)
    | Mismatch
    | StillRunning
    | Failed

  // ------------------------------------------------- one request on its own

  function PaymentOf(r: Request, reference: string): Order { r.draft.(reference := reference) }

  /** INSERT ... ON CONFLICT DO NOTHING against both unique indexes of the payments table. */
  predicate Collides(payments: map<string, Order>, o: Order) {
    o.reference in payments || exists q :: q in payments && payments[q].transactionId == o.transactionId
  }

  function ResolveExisting(keys: map<string, KeyRow>, r: Request): Outcome {
    if r.Key() !in keys then StillRunning
    else
      var row := keys[r.Key()];
      if row.request != r.text then Mismatch
      else if row.status.InProgress? then StillRunning
      else match row.response
           case Some(reference) => Replayed(reference)
           case None => Failed
  }

  /** What `execute` does when nobody else is about; `reference` is the one its payment would be given. */
  function Outcomes(t: Tables, r: Request, reference: string): (Tables, Outcome) {
    if r.Key() in t.keys then (t, ResolveExisting(t.keys, r))
    else
      var o := PaymentOf(r, reference);
      if !W.Initiable(o) || Collides(t.payments, o) then (t, Failed)
      else
        (Tables(t.keys[r.Key() := KeyRow(r.text, Completed, Some(reference), Some(reference))],
                t.payments[reference := o]),
         Created(reference))
  }

  // ---------------------------------------------------- statement by statement

  datatype Stage =
    | Arrived
    | Claimed
    | Worked
    | Filled
    | Lost
    | Done(outcome: Outcome)
    | Launched(reference: string)

  /** A caller and what its open transaction has written so far. */
  datatype Caller = Caller(request: Request, stage: Stage, keyRow: Option<KeyRow>, payment: Option<Order>)

  datatype Server = Server(committed: Tables, callers: map<nat, Caller>)

  datatype Event =
    | Call(id: nat, request: Request)
    | Claim(id: nat)
    | Work(id: nat, reference: string)
    | Complete(id: nat)
    | Commit(id: nat, heard: bool)
    | Find(id: nat)
    | Launch(id: nat)
    | Die(id: nat)

  /** Holds the key's uncommitted row. */
  predicate Holds(c: Caller) { c.keyRow.Some? }

  predicate KeyHeld(s: Server, key: string) {
    exists i :: i in s.callers && Holds(s.callers[i]) && s.callers[i].request.Key() == key
  }

  predicate ReferenceHeld(s: Server, reference: string) {
    exists i :: i in s.callers && s.callers[i].payment.Some? && s.callers[i].payment.value.reference == reference
  }

  predicate Enabled(s: Server, e: Event) {
    match e
    case Call(id, r) => id !in s.callers && W.Requested(r.draft)
    case Claim(id) =>
      id in s.callers && s.callers[id].stage.Arrived? && !KeyHeld(s, s.callers[id].request.Key())
    case Work(id, reference) =>
      id in s.callers && s.callers[id].stage.Claimed? && R.Accepts("pay", reference) && !ReferenceHeld(s, reference)
    case Complete(id) => id in s.callers && s.callers[id].stage.Worked?
    case Commit(id, _) => id in s.callers && s.callers[id].stage.Filled?
    case Find(id) => id in s.callers && s.callers[id].stage.Lost?
    case Launch(id) => id in s.callers && s.callers[id].stage.Done? && s.callers[id].stage.outcome.Created?
    case Die(id) => id in s.callers && !s.callers[id].stage.Done? && !s.callers[id].stage.Launched?
  }

  function Set(s: Server, id: nat, c: Caller): Server { s.(callers := s.callers[id := c]) }

  /** A transaction that ends without committing leaves nothing. */
  function RolledBack(c: Caller, outcome: Outcome): Caller { Caller(c.request, Done(outcome), None, None) }

  function Publish(t: Tables, c: Caller): Tables {
    Tables(if c.keyRow.Some? then t.keys[c.request.Key() := c.keyRow.value] else t.keys,
           if c.payment.Some? then t.payments[c.payment.value.reference := c.payment.value] else t.payments)
  }

  function Step(s: Server, e: Event): Server
    requires Enabled(s, e)
  {
    match e
    case Call(id, r) => Set(s, id, Caller(r, Arrived, None, None))
    case Claim(id) =>
      var c := s.callers[id];
      Set(s, id,
          if c.request.Key() in s.committed.keys then c.(stage := Lost)
          else c.(stage := Claimed, keyRow := Some(KeyRow(c.request.text, InProgress, None, None))))
    case Work(id, reference) =>
      var c := s.callers[id];
      var o := PaymentOf(c.request, reference);
      Set(s, id,
          if !W.Initiable(o) || Collides(s.committed.payments, o) then RolledBack(c, Failed)
          else c.(stage := Worked, payment := Some(o)))
    case Complete(id) =>
      var c := s.callers[id];
      Set(s, id, match (c.keyRow, c.payment)
                 case (Some(row), Some(o)) =>
                   c.(stage := Filled,
                      keyRow := Some(row.(status := Completed, payment := Some(o.reference),
                          response := Some(o.reference))))
                 case _ => RolledBack(c, Failed))
    case Commit(id, heard) =>
      var c := s.callers[id];
      Set(s.(committed := Publish(s.committed, c)), id,
          RolledBack(c, if heard && c.payment.Some? then Created(c.payment.value.reference) else Failed))
    case Find(id) =>
      var c := s.callers[id];
      Set(s, id, c.(stage := Done(ResolveExisting(s.committed.keys, c.request))))
    case Launch(id) =>
      var c := s.callers[id];
      Set(s, id, c.(stage := Launched(c.stage.outcome.reference)))
    case Die(id) => Set(s, id, RolledBack(s.callers[id], Failed))
  }

  // --------------------------------------------------------------- invariant

  /** Keys and payments, one to one; and no key is seen unfinished. */
  ghost predicate OneToOne(t: Tables) {
    && (forall k :: k in t.keys ==>
          && t.keys[k].status.Completed? && t.keys[k].payment.Some? && t.keys[k].response == t.keys[k].payment
          && t.keys[k].payment.value in t.payments && t.payments[t.keys[k].payment.value].transactionId == k)
    && (forall p :: p in t.payments ==>
          && t.payments[p].reference == p && W.ValidOrder(t.payments[p])
          && t.payments[p].transactionId in t.keys && t.keys[t.payments[p].transactionId].payment == Some(p))
  }

  /** The key's committed row answers this request with this reference. */
  predicate Answered(t: Tables, r: Request, reference: string) {
    r.Key() in t.keys && t.keys[r.Key()].request == r.text && t.keys[r.Key()].response == Some(reference)
  }

  /** The payment under this reference is the one the request asks for, in every column. */
  predicate MadeAsAsked(t: Tables, r: Request, reference: string) {
    && reference in t.payments
    && t.payments[reference]
       == Order(reference, r.draft.transactionId, r.draft.amount, r.draft.currency, r.draft.source,
                r.draft.destination, r.draft.user)
  }

  predicate Maker(c: Caller) {
    c.stage.Launched? || (c.stage.Done? && c.stage.outcome.Created?)
  }

  predicate CallerOk(t: Tables, c: Caller) {
    && W.Requested(c.request.draft)
    && (Holds(c) <==> c.stage.Claimed? || c.stage.Worked? || c.stage.Filled?)
    && (c.payment.Some? <==> c.stage.Worked? || c.stage.Filled?)
    && (Holds(c) ==> c.request.Key() !in t.keys && c.keyRow.value.request == c.request.text)
    && (c.payment.Some? ==>
          && c.payment.value == PaymentOf(c.request, c.payment.value.reference)
          && W.ValidOrder(c.payment.value) && c.payment.value.reference !in t.payments)
    && match c.stage
       case Arrived | Claimed | Worked => true
       case Filled =>
         var reference := Some(c.payment.value.reference);
         c.keyRow == Some(KeyRow(c.request.text, Completed, reference, reference))
       case Lost => c.request.Key() in t.keys
       case Launched(reference) => Answered(t, c.request, reference) && MadeAsAsked(t, c.request, reference)
       case Done(outcome) =>
         match outcome
         case Created(reference) => Answered(t, c.request, reference) && MadeAsAsked(t, c.request, reference)
         case Replayed(reference) => Answered(t, c.request, reference)
         case Mismatch => c.request.Key() in t.keys && t.keys[c.request.Key()].request != c.request.text
         case StillRunning => false
         case Failed => true
  }

  /** No two callers hold, or have made, the same thing. */
  predicate Apart(c: Caller, d: Caller) {
    && (c.request.Key() == d.request.Key() ==> !(Holds(c) && Holds(d)) && !(Maker(c) && Maker(d)))
    && (c.payment.Some? && d.payment.Some? ==> c.payment.value.reference != d.payment.value.reference)
  }

  ghost predicate ServerOk(s: Server) {
    && OneToOne(s.committed)
    && (forall i :: i in s.callers ==> CallerOk(s.committed, s.callers[i]))
    && (forall i, j :: i in s.callers && j in s.callers && i != j ==> Apart(s.callers[i], s.callers[j]))
  }

  const EMPTY_SERVER := Server(Tables(map[], map[]), map[])

  /** What a step's own caller becomes fits in beside the others. */
  lemma {:induction false} ChangeKeeps(s: Server, id: nat, c: Caller)
    requires ServerOk(s) && CallerOk(s.committed, c)
    requires forall j :: j in s.callers && j != id ==> Apart(c, s.callers[j]) && Apart(s.callers[j], c)
    ensures ServerOk(Set(s, id, c))
  {
  }

  /** A caller that takes up neither a key nor a reference is no one's rival. */
  lemma {:induction false} NoRivals(s: Server, id: nat, c: Caller)
    requires ServerOk(s) && id in s.callers && c.request == s.callers[id].request
    requires Holds(c) ==> Holds(s.callers[id])
    requires Maker(c) ==> Maker(s.callers[id])
    requires c.payment.Some? ==> c.payment == s.callers[id].payment
    ensures forall j :: j in s.callers && j != id ==> Apart(c, s.callers[j]) && Apart(s.callers[j], c)
  {
    forall j | j in s.callers && j != id ensures Apart(c, s.callers[j]) && Apart(s.callers[j], c) {
      assert Apart(s.callers[id], s.callers[j]) && Apart(s.callers[j], s.callers[id]);
    }
  }

  lemma {:induction false} ClaimKeeps(s: Server, id: nat)
    requires ServerOk(s) && Enabled(s, Claim(id))
    ensures ServerOk(Step(s, Claim(id)))
  {
    var c := Step(s, Claim(id)).callers[id];
    if Holds(c) {
      forall j | j in s.callers && j != id ensures Apart(c, s.callers[j]) && Apart(s.callers[j], c) {
        assert !(Holds(s.callers[j]) && s.callers[j].request.Key() == c.request.Key());
        assert CallerOk(s.committed, s.callers[j]);
      }
    } else {
      NoRivals(s, id, c);
    }
    ChangeKeeps(s, id, c);
  }

  lemma {:induction false} WorkKeeps(s: Server, id: nat, reference: string)
    requires ServerOk(s) && Enabled(s, Work(id, reference))
    ensures ServerOk(Step(s, Work(id, reference)))
  {
    var c := Step(s, Work(id, reference)).callers[id];
    if c.stage.Worked? {
      forall j | j in s.callers && j != id ensures Apart(c, s.callers[j]) && Apart(s.callers[j], c) {
        assert Apart(s.callers[id], s.callers[j]) && Apart(s.callers[j], s.callers[id]);
      }
    } else {
      NoRivals(s, id, c);
    }
    ChangeKeeps(s, id, c);
  }

  lemma {:induction false} PublishKeepsOneToOne(t: Tables, c: Caller)
    requires OneToOne(t) && CallerOk(t, c) && c.stage.Filled?
    ensures OneToOne(Publish(t, c))
  {
  }

  function Committed(c: Caller, heard: bool): Caller {
    RolledBack(c, if heard && c.payment.Some? then Created(c.payment.value.reference) else Failed)
  }

  /** Everyone else is as well off after the commit as before, and the new maker is the key's only one. */
  lemma {:induction false} CommitSuitsOthers(t: Tables, c: Caller, heard: bool, d: Caller)
    requires CallerOk(t, c) && c.stage.Filled? && CallerOk(t, d) && Apart(c, d)
    ensures CallerOk(Publish(t, c), d)
    ensures Apart(Committed(c, heard), d) && Apart(d, Committed(c, heard))
  {
  }

  lemma {:induction false} CommitSuitsItself(t: Tables, c: Caller, heard: bool)
    requires CallerOk(t, c) && c.stage.Filled?
    ensures CallerOk(Publish(t, c), Committed(c, heard))
  {
  }

  lemma {:induction false} CommitKeeps(s: Server, id: nat, heard: bool)
    requires ServerOk(s) && Enabled(s, Commit(id, heard))
    ensures ServerOk(Step(s, Commit(id, heard)))
  {
    var c := s.callers[id];
    var t := Publish(s.committed, c);
    PublishKeepsOneToOne(s.committed, c);
    CommitSuitsItself(s.committed, c, heard);
    forall j | j in s.callers && j != id
      ensures CallerOk(t, s.callers[j])
      ensures Apart(Committed(c, heard), s.callers[j]) && Apart(s.callers[j], Committed(c, heard))
    {
      CommitSuitsOthers(s.committed, c, heard, s.callers[j]);
    }
    assert Step(s, Commit(id, heard)) == Set(s.(committed := t), id, Committed(c, heard));
    CommitAssembles(s, id, t, Committed(c, heard));
  }

  lemma {:induction false} CommitAssembles(s: Server, id: nat, t: Tables, c: Caller)
    requires OneToOne(t) && CallerOk(t, c) && id in s.callers
    requires forall j :: j in s.callers && j != id ==>
                           CallerOk(t, s.callers[j]) && Apart(c, s.callers[j]) && Apart(s.callers[j], c)
    requires forall i, j :: i in s.callers && j in s.callers && i != j ==> Apart(s.callers[i], s.callers[j])
    ensures ServerOk(Set(s.(committed := t), id, c))
  {
  }

  lemma {:induction false} StepKeepsServer(s: Server, e: Event)
    requires ServerOk(s) && Enabled(s, e)
    ensures ServerOk(Step(s, e))
  {
    match e
    case Call(id, r) =>
      ChangeKeeps(s, id, Caller(r, Arrived, None, None));
    case Claim(id) => ClaimKeeps(s, id);
    case Work(id, reference) => WorkKeeps(s, id, reference);
    case Commit(id, heard) => CommitKeeps(s, id, heard);
    case Complete(id) =>
      NoRivals(s, id, Step(s, e).callers[id]);
      ChangeKeeps(s, id, Step(s, e).callers[id]);
    case Find(id) =>
      NoRivals(s, id, Step(s, e).callers[id]);
      ChangeKeeps(s, id, Step(s, e).callers[id]);
    case Launch(id) =>
      NoRivals(s, id, Step(s, e).callers[id]);
      ChangeKeeps(s, id, Step(s, e).callers[id]);
    case Die(id) =>
      NoRivals(s, id, Step(s, e).callers[id]);
      ChangeKeeps(s, id, Step(s, e).callers[id]);
  }

  // ------------------------------------------------------------- whole runs

  predicate Feasible(s: Server, run: seq<Event>)
    decreases |run|
  {
    run == [] || (Enabled(s, run[0]) && Feasible(Step(s, run[0]), run[1..]))
  }

  function After(s: Server, run: seq<Event>): Server
    requires Feasible(s, run)
    decreases |run|
  {
    if run == [] then s else After(Step(s, run[0]), run[1..])
  }

  lemma {:induction false} RunKeepsServer(s: Server, run: seq<Event>)
    requires ServerOk(s) && Feasible(s, run)
    ensures ServerOk(After(s, run))
    decreases |run|
  {
    if run != [] {
      StepKeepsServer(s, run[0]);
      RunKeepsServer(Step(s, run[0]), run[1..]);
    }
  }

  /** What is committed stays: no key changes its answer and no payment disappears. */
  ghost predicate Grows(t: Tables, u: Tables) {
    && (forall k :: k in t.keys ==> k in u.keys && u.keys[k] == t.keys[k])
    && (forall p :: p in t.payments ==> p in u.payments && u.payments[p] == t.payments[p])
  }

  lemma {:induction false} CommittedIsForever(s: Server, run: seq<Event>)
    requires ServerOk(s) && Feasible(s, run)
    ensures Grows(s.committed, After(s, run).committed)
    decreases |run|
  {
    if run != [] {
      StepKeepsServer(s, run[0]);
      if run[0].Commit? {
        assert CallerOk(s.committed, s.callers[run[0].id]);
      }
      CommittedIsForever(Step(s, run[0]), run[1..]);
    }
  }

  // ---------------------------------------------------------------- theorems

  /** In every reachable state keys and payments correspond one to one, and no key is seen in progress. */
  lemma {:induction false} KeysAndPaymentsCorrespond(run: seq<Event>)
    requires Feasible(EMPTY_SERVER, run)
    ensures var t := After(EMPTY_SERVER, run).committed;
      && OneToOne(t)
      && (forall k, l :: k in t.keys && l in t.keys && t.keys[k].payment == t.keys[l].payment ==> k == l)
  {
    RunKeepsServer(EMPTY_SERVER, run);
  }

  predicate Reported(c: Caller, reference: string) {
    c.stage == Done(Created(reference)) || c.stage == Done(Replayed(reference)) || c.stage == Launched(reference)
  }

  /** Whoever gets a reference under one key gets the same one, for the same text, and it names that key's payment. */
  lemma {:induction false} OneKeyOneAnswer(run: seq<Event>, i: nat, j: nat, p: string, q: string)
    requires Feasible(EMPTY_SERVER, run)
    requires var cs := After(EMPTY_SERVER, run).callers;
      && i in cs && j in cs && cs[i].request.Key() == cs[j].request.Key()
      && Reported(cs[i], p) && Reported(cs[j], q)
    ensures var s := After(EMPTY_SERVER, run);
      && p == q && s.callers[i].request.text == s.callers[j].request.text
      && p in s.committed.payments && s.committed.payments[p].transactionId == s.callers[i].request.Key()
  {
    RunKeepsServer(EMPTY_SERVER, run);
    var s := After(EMPTY_SERVER, run);
    assert CallerOk(s.committed, s.callers[i]) && CallerOk(s.committed, s.callers[j]);
  }

  /** Of all the callers of one key, at most one starts the saga. */
  lemma {:induction false} SagaStartsAtMostOnce(run: seq<Event>, i: nat, j: nat)
    requires Feasible(EMPTY_SERVER, run)
    requires var cs := After(EMPTY_SERVER, run).callers;
      && i in cs && j in cs && cs[i].request.Key() == cs[j].request.Key()
      && cs[i].stage.Launched? && cs[j].stage.Launched?
    ensures i == j
  {
    RunKeepsServer(EMPTY_SERVER, run);
    var s := After(EMPTY_SERVER, run);
    var apart := Apart(s.callers[i], s.callers[j]);
  }

  /** Whoever is told of a payment created finds it as asked for, whatever else has been committed since. */
  lemma {:induction false} PaymentIsAsAsked(run: seq<Event>, i: nat, reference: string)
    requires Feasible(EMPTY_SERVER, run) && i in After(EMPTY_SERVER, run).callers
    requires var stage := After(EMPTY_SERVER, run).callers[i].stage;
      stage == Done(Created(reference)) || stage == Launched(reference)
    ensures var s := After(EMPTY_SERVER, run);
      var r := s.callers[i].request;
      MadeAsAsked(s.committed, r, reference) && Answered(s.committed, r, reference)
  {
    RunKeepsServer(EMPTY_SERVER, run);
    var s := After(EMPTY_SERVER, run);
    assert CallerOk(s.committed, s.callers[i]);
  }

  lemma {:induction false} OneMoreEvent(s: Server, e: Event, rest: seq<Event>)
    requires Enabled(s, e) && Feasible(Step(s, e), rest)
    ensures Feasible(s, [e] + rest) && After(s, [e] + rest) == After(Step(s, e), rest)
  {
    assert ([e] + rest)[0] == e && ([e] + rest)[1..] == rest;
  }

  /** What the API and the handler let through. */
  predicate Acceptable(o: Order) {
    && 5 <= o.amount <= 1_000_000_000_000 && o.amount % 5 == 0
    && o.source != o.destination && R.Accepts("wlt", o.source) && R.Accepts("wlt", o.destination)
    && R.IsTransactionId(o.transactionId)
  }

  /** The key is neither committed nor claimed, and nobody has the reference. */
  ghost predicate Unclaimed(s: Server, key: string, reference: string) {
    key !in s.committed.keys && !KeyHeld(s, key) && reference !in s.committed.payments && !ReferenceHeld(s, reference)
  }

  lemma {:induction false} ClaimGoesThrough(s: Server, id: nat, r: Request, reference: string)
    requires id in s.callers && s.callers[id] == Caller(r, Arrived, None, None)
    requires Unclaimed(s, r.Key(), reference)
    ensures Enabled(s, Claim(id))
    ensures var t := Step(s, Claim(id));
      && t.committed == s.committed && !ReferenceHeld(t, reference) && id in t.callers
      && t.callers[id] == Caller(r, Claimed, Some(KeyRow(r.text, InProgress, None, None)), None)
  {
    var t := Step(s, Claim(id));
    assert forall i :: i in t.callers ==> i in s.callers && s.callers[i].payment == t.callers[i].payment;
  }

  lemma {:induction false} NewKeyCollidesWithNothing(t: Tables, r: Request, reference: string)
    requires OneToOne(t) && r.Key() !in t.keys && reference !in t.payments
    ensures !Collides(t.payments, PaymentOf(r, reference))
  {
    assert forall q :: q in t.payments ==> t.payments[q].transactionId in t.keys;
  }

  lemma {:induction false} WorkGoesThrough(s: Server, id: nat, r: Request, reference: string)
    requires !Collides(s.committed.payments, PaymentOf(r, reference)) && !ReferenceHeld(s, reference)
    requires id in s.callers
    requires s.callers[id] == Caller(r, Claimed, Some(KeyRow(r.text, InProgress, None, None)), None)
    requires Acceptable(r.draft) && R.Accepts("pay", reference)
    ensures Enabled(s, Work(id, reference))
    ensures var u := Step(s, Work(id, reference));
      && id in u.callers
      && u.callers[id]
         == Caller(r, Worked, Some(KeyRow(r.text, InProgress, None, None)), Some(PaymentOf(r, reference)))
  {
  }

  lemma {:induction false} WorkedIsLaunched(s: Server, id: nat, r: Request, reference: string)
    requires id in s.callers
    requires s.callers[id]
             == Caller(r, Worked, Some(KeyRow(r.text, InProgress, None, None)), Some(PaymentOf(r, reference)))
    ensures var rest := [Complete(id), Commit(id, true), Launch(id)];
      Feasible(s, rest) && Goes(After(s, rest), id, r, reference)
  {
    var filled := Step(s, Complete(id));
    var committed := Step(filled, Commit(id, true));
    var launched := Step(committed, Launch(id));
    assert After(launched, []) == launched;
    OneMoreEvent(committed, Launch(id), []);
    OneMoreEvent(filled, Commit(id, true), [Launch(id)]);
    OneMoreEvent(s, Complete(id), [Commit(id, true), Launch(id)]);
    assert [Commit(id, true)] + [Launch(id)] == [Commit(id, true), Launch(id)];
    assert [Complete(id)] + [Commit(id, true), Launch(id)] == [Complete(id), Commit(id, true), Launch(id)];
  }

  lemma {:induction false} ThreeEvents(s: Server, a: Event, b: Event, c: Event, rest: seq<Event>)
    requires Enabled(s, a) && Enabled(Step(s, a), b) && Enabled(Step(Step(s, a), b), c)
    requires Feasible(Step(Step(Step(s, a), b), c), rest)
    ensures Feasible(s, [a, b, c] + rest)
    ensures After(s, [a, b, c] + rest) == After(Step(Step(Step(s, a), b), c), rest)
  {
    OneMoreEvent(Step(Step(s, a), b), c, rest);
    OneMoreEvent(Step(s, a), b, [c] + rest);
    OneMoreEvent(s, a, [b] + ([c] + rest));
    assert [a] + ([b] + ([c] + rest)) == [a, b, c] + rest;
  }

  /** The request has gone all the way. */
  ghost predicate Goes(s: Server, id: nat, r: Request, reference: string) {
    && id in s.callers && s.callers[id].stage == Launched(reference)
    && MadeAsAsked(s.committed, r, reference) && Answered(s.committed, r, reference)
  }

  /**
   * In every reachable state an acceptable request under a key nobody has claimed
   * can go all the way: its payment is created as asked for and its saga started.
   */
  lemma {:induction false} FirstRequestCreates(run: seq<Event>, id: nat, r: Request, reference: string)
    requires Feasible(EMPTY_SERVER, run)
    requires var s := After(EMPTY_SERVER, run); id !in s.callers && Unclaimed(s, r.Key(), reference)
    requires Acceptable(r.draft) && R.Accepts("pay", reference)
    ensures var s := After(EMPTY_SERVER, run);
      var steps := [Call(id, r), Claim(id), Work(id, reference)] + [Complete(id), Commit(id, true), Launch(id)];
      Feasible(s, steps) && Goes(After(s, steps), id, r, reference)
  {
    RunKeepsServer(EMPTY_SERVER, run);
    FirstRequestGoes(After(EMPTY_SERVER, run), id, r, reference);
  }

  lemma {:induction false} FirstRequestGoes(s: Server, id: nat, r: Request, reference: string)
    requires ServerOk(s) && id !in s.callers && Unclaimed(s, r.Key(), reference)
    requires Acceptable(r.draft) && R.Accepts("pay", reference)
    ensures var steps := [Call(id, r), Claim(id), Work(id, reference)] + [Complete(id), Commit(id, true), Launch(id)];
      Feasible(s, steps) && Goes(After(s, steps), id, r, reference)
  {
    var called := Step(s, Call(id, r));
    assert !KeyHeld(called, r.Key()) && !ReferenceHeld(called, reference);
    StepKeepsServer(s, Call(id, r));
    ClaimGoesThrough(called, id, r, reference);
    var claimed := Step(called, Claim(id));
    NewKeyCollidesWithNothing(s.committed, r, reference);
    WorkGoesThrough(claimed, id, r, reference);
    var worked := Step(claimed, Work(id, reference));
    var rest := [Complete(id), Commit(id, true), Launch(id)];
    WorkedIsLaunched(worked, id, r, reference);
    ThreeEvents(s, Call(id, r), Claim(id), Work(id, reference), rest);
  }

  /** A committed key is answered at once and for good: "request in progress" is never thrown. */
  lemma {:induction false} NobodyIsToldToWait(run: seq<Event>, i: nat)
    requires Feasible(EMPTY_SERVER, run) && i in After(EMPTY_SERVER, run).callers
    ensures After(EMPTY_SERVER, run).callers[i].stage != Done(StillRunning)
  {
    RunKeepsServer(EMPTY_SERVER, run);
    var s := After(EMPTY_SERVER, run);
    assert CallerOk(s.committed, s.callers[i]);
  }

  /**
   * Serialisability: whatever the interleaving, the committed tables change only in commits, and a commit, like
   * a look at an existing key, does and answers what `Outcomes` says of the committed tables at that moment.
   */
  lemma {:induction false} EveryStepIsExecute(s: Server, e: Event)
    requires ServerOk(s) && Enabled(s, e)
    ensures !e.Commit? ==> Step(s, e).committed == s.committed
    ensures e.Commit? ==>
              var c := s.callers[e.id];
              && c.payment.Some?
              && Outcomes(s.committed, c.request, c.payment.value.reference)
                 == (Step(s, e).committed, Created(c.payment.value.reference))
    ensures e.Find? ==>
              forall reference ::
                Outcomes(s.committed, s.callers[e.id].request, reference)
                == (s.committed, Step(s, e).callers[e.id].stage.outcome)
  {
    if e.Commit? {
      assert CallerOk(s.committed, s.callers[e.id]);
    } else if e.Find? {
      assert CallerOk(s.committed, s.callers[e.id]);
    }
  }

  /** A request with the reference its payment is given; for a request that meets an existing key, any will do. */
  datatype Whole = Whole(request: Request, reference: string)

  /** The requests taken one after another, and what each is answered. */
  function InOrder(t: Tables, requests: seq<Whole>): (Tables, seq<Outcome>)
    decreases |requests|
  {
    if requests == [] then (t, [])
    else
      var (u, outcome) := Outcomes(t, requests[0].request, requests[0].reference);
      var (v, outcomes) := InOrder(u, requests[1..]);
      (v, [outcome] + outcomes)
  }

  /** The whole request an event stands for: a commit creates, a look at an existing key is answered. */
  function WholeOf(s: Server, e: Event): seq<Whole>
    requires Enabled(s, e)
  {
    match e
    case Commit(id, _) =>
      var c := s.callers[id];
      [Whole(c.request, if c.payment.Some? then c.payment.value.reference else "")]
    case Find(id) => [Whole(s.callers[id].request, "")]
    case _ => []
  }

  /** What its caller is answered, or would be had it lived to hear. */
  function AnswerOf(s: Server, e: Event): seq<Outcome>
    requires Enabled(s, e)
  {
    match e
    case Commit(id, _) =>
      var c := s.callers[id];
      [if c.payment.Some? then Created(c.payment.value.reference) else Failed]
    case Find(id) => [Step(s, e).callers[id].stage.outcome]
    case _ => []
  }

  function Requests(s: Server, run: seq<Event>): seq<Whole>
    requires Feasible(s, run)
    decreases |run|
  {
    if run == [] then [] else WholeOf(s, run[0]) + Requests(Step(s, run[0]), run[1..])
  }

  function Answers(s: Server, run: seq<Event>): seq<Outcome>
    requires Feasible(s, run)
    decreases |run|
  {
    if run == [] then [] else AnswerOf(s, run[0]) + Answers(Step(s, run[0]), run[1..])
  }

  lemma {:induction false} FirstInOrder(t: Tables, w: Whole, requests: seq<Whole>)
    ensures var (u, outcome) := Outcomes(t, w.request, w.reference);
      var (v, outcomes) := InOrder(u, requests);
      InOrder(t, [w] + requests) == (v, [outcome] + outcomes)
  {
    assert ([w] + requests)[0] == w && ([w] + requests)[1..] == requests;
  }

  /**
   * Any interleaving of callers, deaths and unheard commits leaves the tables, and answers, as whole
   * requests in commit order do.
   */
  lemma {:induction false} CreationIsSerial(s: Server, run: seq<Event>)
    requires ServerOk(s) && Feasible(s, run)
    ensures InOrder(s.committed, Requests(s, run)) == (After(s, run).committed, Answers(s, run))
    decreases |run|
  {
    if run != [] {
      var e := run[0];
      var next := Step(s, e);
      StepKeepsServer(s, e);
      EveryStepIsExecute(s, e);
      CreationIsSerial(next, run[1..]);
      if e.Commit? || e.Find? {
        FirstInOrder(s.committed, WholeOf(s, e)[0], Requests(next, run[1..]));
        assert WholeOf(s, e) == [WholeOf(s, e)[0]];
      } else {
        assert Requests(s, run) == Requests(next, run[1..]) && Answers(s, run) == Answers(next, run[1..]);
      }
    }
  }

  /**
   * After a key is committed, a request under it gets the stored reference when it says the same thing as the
   * first one and is turned away otherwise; either way it changes nothing.
   */
  lemma {:induction false} ReplayIsExact(s: Server, r: Request, reference: string, v: C.Json, w: C.Json,
                                         less: (string, string) -> bool)
    requires ServerOk(s) && r.Key() in s.committed.keys
    requires C.StrictTotalOrder(less) && C.Valid(v) && C.Valid(w)
    requires s.committed.keys[r.Key()].request == C.Canonicalise(v, less) && r.text == C.Canonicalise(w, less)
    ensures var (t, outcome) := Outcomes(s.committed, r, reference);
      && t == s.committed
      && outcome == if C.Same(v, w) then Replayed(s.committed.keys[r.Key()].response.value) else Mismatch
  {
    C.OneTextPerRequest(v, w, less);
  }

  /** A commit of this transaction is the creation step of the payment system. */
  lemma {:induction false} CommitInitiates(s: Server, id: nat, heard: bool, w: W.World)
    requires ServerOk(s) && Enabled(s, Commit(id, heard)) && w.payments.Keys == s.committed.payments.Keys
    ensures s.callers[id].payment.Some?
    ensures var o := s.callers[id].payment.value;
      && W.Legal(w, W.Initiate(o))
      && W.Take(w, W.Initiate(o)).payments.Keys == Step(s, Commit(id, heard)).committed.payments.Keys
  {
    assert CallerOk(s.committed, s.callers[id]);
    assert s.callers[id].payment.value.reference !in s.committed.payments.Keys;
  }

  // ----------------------------------------------------- the service as written

  class IdempotencyService {
    var keys: map<string, KeyRow>
    var payments: map<string, Order>
    var sagas: seq<string>

    constructor ()
      ensures State() == EMPTY_SERVER.committed && sagas == []
    {
      keys, payments, sagas := map[], map[], [];
    }

    function State(): Tables
      reads this
    {
      Tables(keys, payments)
    }

    /** INSERT ... ON CONFLICT (key) DO NOTHING RETURNING key. */
    method ClaimKey(key: string, request: string) returns (claimed: bool)
      modifies this`keys
      ensures claimed <==> key !in old(keys)
      ensures keys == if claimed then old(keys)[key := KeyRow(request, InProgress, None, None)] else old(keys)
    {
      claimed := key !in keys;
      if claimed {
        keys := keys[key := KeyRow(request, InProgress, None, None)];
      }
    }

    method CompleteKey(key: string, reference: string)
      modifies this`keys
      ensures keys == if key in old(keys)
                      then old(keys)[key := KeyRow(old(keys)[key].request, Completed, Some(reference), Some(reference))]
                      else old(keys)
    {
      if key in keys {
        keys := keys[key := keys[key].(status := Completed, payment := Some(reference), response := Some(reference))];
      }
    }

    /** The first save of a payment; false stands for ConcurrentPaymentError. */
    method InsertPayment(o: Order) returns (ok: bool)
      modifies this`payments
      ensures ok <==> !Collides(old(payments), o)
      ensures payments == if ok then old(payments)[o.reference := o] else old(payments)
    {
      ok := !Collides(payments, o);
      if ok {
        payments := payments[o.reference := o];
      }
    }

    /** `execute` around the initiation callback; an error rolls the tables back to where they were. */
    method Execute(r: Request, reference: string) returns (outcome: Outcome)
      modifies this`keys, this`payments
      ensures (State(), outcome) == Outcomes(old(State()), r, reference)
      ensures r.Key() !in old(keys) ==>
                && (outcome == Created(reference) <==>
                      && W.Initiable(r.draft) && reference !in old(payments)
                      && forall q :: q in old(payments) ==> old(payments)[q].transactionId != r.draft.transactionId)
                && (outcome == Created(reference) || outcome == Failed)
      ensures r.Key() in old(keys) ==>
                && outcome == ResolveExisting(old(keys), r)
                && (outcome == Mismatch <==> old(keys)[r.Key()].request != r.text)
      ensures outcome.Created? ==>
                && keys == old(keys)[r.Key() := KeyRow(r.text, Completed, Some(reference), Some(reference))]
                && payments == old(payments)[reference := r.draft.(reference := reference)]
      ensures !outcome.Created? ==> keys == old(keys) && payments == old(payments)
    {
      var before := State();
      var claimed := ClaimKey(r.Key(), r.text);
      if !claimed {
        return ResolveExisting(keys, r);
      }
      var o := PaymentOf(r, reference);
      var saved := false;
      if W.Initiable(o) {
        saved := InsertPayment(o);
      }
      if !saved {
        keys, payments := before.keys, before.payments;
        return Failed;
      }
      CompleteKey(r.Key(), reference);
      assert keys == before.keys[r.Key() := KeyRow(r.text, Completed, Some(reference), Some(reference))];
      outcome := Created(reference);
    }

    /** The command handler: the saga runs after the commit, and only for the request that created the payment. */
    method Initiate(r: Request, reference: string) returns (outcome: Outcome)
      modifies this
      ensures (State(), outcome) == Outcomes(old(State()), r, reference)
      ensures sagas == old(sagas) + if outcome.Created? then [reference] else []
    {
      outcome := Execute(r, reference);
      if outcome.Created? {
        sagas := sagas + [outcome.reference];
      }
    }
  }
}
