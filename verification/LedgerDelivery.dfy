/**
 * From a committed outbox row to a row of the downstream ledger: relays that
 * claim, publish and mark one row at a time, a broker that keeps a message until
 * it is acknowledged, and consumers that append under a unique constraint. Relays
 * and consumers may die between any two statements, the broker may accept a
 * message the relay never hears about, and any consumer may get any message again.
 */
module LedgerDelivery {
  import opened PaymentDomain
  import opened WorkerProgram
  import opened SagaProtocol
  import opened PaymentWorld
  import M = MoneyConservation
  import A = AccountsLedger
  import R = References

  const MAX_ATTEMPTS := 10

  /** The body of payment.transaction.recorded. */
  datatype Payload = Payload(
    transactionId: string,
    payment: string,
    kind: LedgerType,
    wallet: string,
    user: string,
    amount: int,
    currency: string
  )

  /** The delivery columns of an outbox row; a row not in the table still has the defaults. */
  datatype Sending = Sending(published: bool, attempts: nat)

  datatype RowId = RowId(payment: string, index: nat)

  datatype RelayStage = Claimed | Confirmed | Unheard

  datatype Relay = Relay(row: RowId, stage: RelayStage)

  datatype ConsumerStage = Looking | Missing | Clashed | Known | Malformed | Errored

  datatype Consumer = Consumer(tag: nat, payload: Payload, stage: ConsumerStage)

  datatype Delivery = Delivery(
    world: World,
    rows: map<RowId, Sending>,
    relays: map<nat, Relay>,
    queue: map<nat, Payload>,
    nextTag: nat,
    consumers: map<nat, Consumer>,
    ledger: seq<Payload>
  )

  datatype Event =
    | WorldStep(step: Step)
    | ClaimRow(relay: nat, row: RowId)
    | Publish(relay: nat, accepted: bool, confirmed: bool)
    | MarkRow(relay: nat)
    | RelayDies(relay: nat)
    | RetryRow(row: RowId)
    | Hand(consumer: nat, tag: nat)
    | LookUp(consumer: nat)
    | Append(consumer: nat)
    | LookAgain(consumer: nat)
    | DatabaseFails(consumer: nat)
    | Ack(consumer: nat)
    | Nack(consumer: nat)
    | ConsumerDies(consumer: nat)

  const QUIET := Delivery(GENESIS, map[], map[], map[], 0, map[], [])

  function LegFor(kind: LedgerType): Leg {
    match kind
    case DEBIT => DebitLeg
    case CREDIT => CreditLeg
    case REFUND => RefundLeg
  }

  function PayloadOf(p: string, m: Message): Payload
    requires m.LedgerMessage?
  {
    Payload(R.MovementKeyText(p, m.leg), p, m.kind, m.wallet,
            match m.user case Some(u) => u case None => R.UNKNOWN_USER, m.amount, m.currency)
  }

  /** The consumer's own validation of a message. */
  predicate ValidPayload(x: Payload) {
    && R.IsTransactionId(x.transactionId) && R.Accepts("pay", x.payment) && R.Accepts("wlt", x.wallet)
    && R.Accepts("usr", x.user) && A.ValidAmount(x.amount) && x.currency == "XOF"
  }

  /** What is checked of a payment before it is created, its currency included. Its user reference is not looked at. */
  predicate WellFormed(o: Order) { ValidOrder(o) && o.currency == "XOF" }

  predicate RowExists(w: World, row: RowId) {
    row.payment in w.payments && row.index < |w.payments[row.payment].outbox|
  }

  function MessageAt(w: World, row: RowId): Message
    requires RowExists(w, row)
  {
    w.payments[row.payment].outbox[row.index]
  }

  function SendingOf(d: Delivery, row: RowId): Sending {
    if row in d.rows then d.rows[row] else Sending(false, 0)
  }

  predicate RowLocked(d: Delivery, row: RowId) {
    exists k :: k in d.relays && d.relays[k].row == row
  }

  predicate HasId(ledger: seq<Payload>, id: string) {
    exists x :: x in ledger && x.transactionId == id
  }

  predicate Enabled(d: Delivery, e: Event) {
    match e
    case WorldStep(s) => Legal(d.world, s) && (s.Initiate? ==> WellFormed(s.order))
    case ClaimRow(k, row) =>
      && k !in d.relays && RowExists(d.world, row) && !RowLocked(d, row)
      && !SendingOf(d, row).published && SendingOf(d, row).attempts < MAX_ATTEMPTS
    case Publish(k, accepted, confirmed) =>
      k in d.relays && d.relays[k].stage.Claimed? && RowExists(d.world, d.relays[k].row) && (confirmed ==> accepted)
    case MarkRow(k) => k in d.relays && !d.relays[k].stage.Claimed?
    case RelayDies(k) => k in d.relays
    case RetryRow(row) =>
      && RowExists(d.world, row) && !RowLocked(d, row)
      && !SendingOf(d, row).published && SendingOf(d, row).attempts >= MAX_ATTEMPTS
    case Hand(h, tag) => h !in d.consumers && tag in d.queue
    case LookUp(h) => h in d.consumers && d.consumers[h].stage.Looking?
    case Append(h) => h in d.consumers && d.consumers[h].stage.Missing?
    case LookAgain(h) => h in d.consumers && d.consumers[h].stage.Clashed?
    case DatabaseFails(h) =>
      h in d.consumers && (d.consumers[h].stage.Looking? || d.consumers[h].stage.Missing?
          || d.consumers[h].stage.Clashed?)
    case Ack(h) => h in d.consumers && (d.consumers[h].stage.Known? || d.consumers[h].stage.Malformed?)
    case Nack(h) => h in d.consumers && d.consumers[h].stage.Errored?
    case ConsumerDies(h) => h in d.consumers
  }

  function Goto(d: Delivery, h: nat, stage: ConsumerStage): Delivery
    requires h in d.consumers
  {
    d.(consumers := d.consumers[h := d.consumers[h].(stage := stage)])
  }

  /** Only ledger messages go to this queue; lifecycle events have no consumer here. */
  function Enqueue(d: Delivery, row: RowId): Delivery
    requires RowExists(d.world, row)
  {
    var m := MessageAt(d.world, row);
    if m.LedgerMessage? then d.(queue := d.queue[d.nextTag := PayloadOf(row.payment, m)], nextTag := d.nextTag + 1)
        else d
  }

  function Change(d: Delivery, e: Event): Delivery
    requires Enabled(d, e)
  {
    match e
    case WorldStep(s) => d.(world := Take(d.world, s))
    case ClaimRow(k, row) => d.(relays := d.relays[k := Relay(row, Claimed)])
    case Publish(k, accepted, confirmed) =>
      var sent := if accepted then Enqueue(d, d.relays[k].row) else d;
      sent.(relays := d.relays[k := Relay(d.relays[k].row, if confirmed then Confirmed else Unheard)])
    case MarkRow(k) =>
      var r := d.relays[k];
      d.(rows := d.rows[r.row := Sending(r.stage.Confirmed?, SendingOf(d, r.row).attempts + 1)],
          relays := d.relays - {k})
    case RelayDies(k) => d.(relays := d.relays - {k})
    case RetryRow(row) => d.(rows := d.rows[row := Sending(false, 0)])
    case Hand(h, tag) =>
      d.(consumers := d.consumers[h := Consumer(tag, d.queue[tag], if ValidPayload(d.queue[tag]) then Looking
          else Malformed)])
    case LookUp(h) =>
      Goto(d, h, if HasId(d.ledger, d.consumers[h].payload.transactionId) then Known else Missing)
    case Append(h) =>
      var x := d.consumers[h].payload;
      if HasId(d.ledger, x.transactionId) then Goto(d, h, Clashed)
      else Goto(d, h, Known).(ledger := d.ledger + [x])
    case LookAgain(h) =>
      Goto(d, h, if HasId(d.ledger, d.consumers[h].payload.transactionId) then Known else Errored)
    case DatabaseFails(h) => Goto(d, h, Errored)
    case Ack(h) => d.(queue := d.queue - {d.consumers[h].tag}, consumers := d.consumers - {h})
    case Nack(h) => d.(consumers := d.consumers - {h})
    case ConsumerDies(h) => d.(consumers := d.consumers - {h})
  }

  // --------------------------------------------------------------- invariant

  /** The payload of a committed outbox row. */
  predicate Backed(w: World, x: Payload) {
    && x.payment in w.payments
    && var l := w.payments[x.payment];
    && var m := LedgerOf(l.order, LegFor(x.kind));
    && m in l.outbox && x == PayloadOf(x.payment, m)
  }

  predicate Queued(queue: map<nat, Payload>, x: Payload) {
    exists tag :: tag in queue && queue[tag] == x
  }

  /** Whatever has been handed to the broker is not lost, unless the consumer may throw it away as malformed. */
  predicate Carried(queue: map<nat, Payload>, ledger: seq<Payload>, x: Payload) {
    !ValidPayload(x) || x in ledger || Queued(queue, x)
  }

  predicate RowCarried(w: World, queue: map<nat, Payload>, ledger: seq<Payload>, row: RowId) {
    && RowExists(w, row)
    && (MessageAt(w, row).LedgerMessage? ==> Carried(queue, ledger, PayloadOf(row.payment, MessageAt(w, row))))
  }

  predicate StageOk(ledger: seq<Payload>, c: Consumer) {
    match c.stage
    case Looking | Missing | Clashed => ValidPayload(c.payload)
    case Known => c.payload in ledger
    case Malformed => !ValidPayload(c.payload)
    case Errored => true
  }

  predicate ConsumerOk(w: World, queue: map<nat, Payload>, nextTag: nat, ledger: seq<Payload>, c: Consumer) {
    && c.tag < nextTag && Backed(w, c.payload)
    && (c.tag in queue ==> queue[c.tag] == c.payload)
    && StageOk(ledger, c)
  }

  ghost predicate OrdersWellFormed(w: World) {
    forall p :: p in w.payments ==> w.payments[p].order.reference == p && WellFormed(w.payments[p].order)
  }

  ghost predicate RowsOk(w: World, rows: map<RowId, Sending>, relays: map<nat, Relay>,
                         queue: map<nat, Payload>, ledger: seq<Payload>) {
    && (forall row :: row in rows && rows[row].published ==> RowCarried(w, queue, ledger, row))
    && (forall k :: k in relays ==>
          RowExists(w, relays[k].row) && (relays[k].stage.Confirmed? ==> RowCarried(w, queue, ledger, relays[k].row)))
  }

  ghost predicate QueueOk(w: World, queue: map<nat, Payload>, nextTag: nat) {
    forall tag :: tag in queue ==> tag < nextTag && Backed(w, queue[tag])
  }

  ghost predicate ConsumersOk(w: World, queue: map<nat, Payload>, nextTag: nat, ledger: seq<Payload>,
                              consumers: map<nat, Consumer>) {
    forall h :: h in consumers ==> ConsumerOk(w, queue, nextTag, ledger, consumers[h])
  }

  ghost predicate LedgerOk(w: World, ledger: seq<Payload>) {
    && (forall x :: x in ledger ==> Backed(w, x) && ValidPayload(x))
    && (forall i, j :: 0 <= i < j < |ledger| ==> ledger[i].transactionId != ledger[j].transactionId)
  }

  ghost predicate TransportOk(d: Delivery) {
    && RowsOk(d.world, d.rows, d.relays, d.queue, d.ledger)
    && QueueOk(d.world, d.queue, d.nextTag)
    && ConsumersOk(d.world, d.queue, d.nextTag, d.ledger, d.consumers)
    && LedgerOk(d.world, d.ledger)
  }

  ghost predicate DeliveryOk(d: Delivery) {
    WorldOk(d.world) && OrdersWellFormed(d.world) && TransportOk(d)
  }

  /** One transaction_id, one payload. */
  lemma {:induction false} IdFixesPayload(w: World, x: Payload, y: Payload)
    requires OrdersWellFormed(w) && Backed(w, x) && Backed(w, y) && x.transactionId == y.transactionId
    ensures x == y
  {
    R.MovementKeysAreInjective(x.payment, LegFor(x.kind), y.payment, LegFor(y.kind));
  }

  lemma {:induction false} KnownMeansPresent(w: World, ledger: seq<Payload>, x: Payload)
    requires OrdersWellFormed(w) && LedgerOk(w, ledger) && Backed(w, x) && HasId(ledger, x.transactionId)
    ensures x in ledger
  {
    var y :| y in ledger && y.transactionId == x.transactionId;
    IdFixesPayload(w, x, y);
  }

  /** Rows are made of what the payment owes. */
  lemma {:induction false} RowsAreMovements(w: World, row: RowId)
    requires RowExists(w, row) && PaymentOk(w, row.payment) && MessageAt(w, row).LedgerMessage?
    ensures MessageAt(w, row) == LedgerOf(w.payments[row.payment].order, MessageAt(w, row).leg)
  {
    var l := w.payments[row.payment];
    assert l.outbox == Owes(l.order, l.stored);
  }

  lemma {:induction false} RowsAreBacked(w: World, row: RowId)
    requires RowExists(w, row) && PaymentOk(w, row.payment) && MessageAt(w, row).LedgerMessage?
    ensures Backed(w, PayloadOf(row.payment, MessageAt(w, row)))
  {
    RowsAreMovements(w, row);
  }

  // --------------------------------------------------------- steps of payments

  lemma {:induction false} OutboxOnlyGrows(l: Local, p: Posted, a: Action)
    requires SagaProtocol.Enabled(l, p, a)
    ensures l.outbox <= Next(l, p, a).outbox
  {
  }

  /** No outbox row changes or disappears, and no payment changes its order. */
  ghost predicate Outlives(w: World, v: World) {
    forall p :: p in w.payments ==>
                  p in v.payments && v.payments[p].order == w.payments[p].order
                      && w.payments[p].outbox <= v.payments[p].outbox
  }

  lemma {:induction false} WorldStepOutlives(w: World, s: Step)
    requires Legal(w, s)
    ensures Outlives(w, Take(w, s))
  {
    if s.Act? {
      var l := w.payments[s.payment];
      OutboxOnlyGrows(l, View(w.accounts, l.order), s.action);
      OrderStays(l, View(w.accounts, l.order), s.action);
    }
  }

  lemma {:induction false} BackedStays(w: World, v: World, x: Payload)
    requires Outlives(w, v) && Backed(w, x)
    ensures Backed(v, x)
  {
    var m := LedgerOf(w.payments[x.payment].order, LegFor(x.kind));
    var i :| 0 <= i < |w.payments[x.payment].outbox| && w.payments[x.payment].outbox[i] == m;
    assert v.payments[x.payment].outbox[i] == m;
  }

  lemma {:induction false} RowStays(w: World, v: World, row: RowId)
    requires Outlives(w, v) && RowExists(w, row)
    ensures RowExists(v, row) && MessageAt(v, row) == MessageAt(w, row)
  {
  }

  lemma {:induction false} WorldStepKeeps(d: Delivery, s: Step)
    requires DeliveryOk(d) && Enabled(d, WorldStep(s))
    ensures DeliveryOk(Change(d, WorldStep(s)))
  {
    var v := Take(d.world, s);
    TakeKeeps(d.world, s);
    WorldStepOutlives(d.world, s);
    assert OrdersWellFormed(v) by {
      forall p | p in v.payments ensures v.payments[p].order.reference == p && WellFormed(v.payments[p].order) {
        assert s.Act? ==> p in d.world.payments;
      }
    }
    GrowthKeepsRows(d.world, v, d.rows, d.relays, d.queue, d.ledger);
    GrowthKeepsTraffic(d.world, v, d.queue, d.nextTag, d.ledger, d.consumers);
  }

  lemma {:induction false} GrowthKeepsRows(w: World, v: World, rows: map<RowId, Sending>, relays: map<nat, Relay>,
                                           queue: map<nat, Payload>, ledger: seq<Payload>)
    requires RowsOk(w, rows, relays, queue, ledger) && Outlives(w, v)
    ensures RowsOk(v, rows, relays, queue, ledger)
  {
    forall row | row in rows && rows[row].published ensures RowCarried(v, queue, ledger, row) {
      RowStays(w, v, row);
    }
    forall k | k in relays
      ensures RowExists(v, relays[k].row)
                && (relays[k].stage.Confirmed? ==> RowCarried(v, queue, ledger, relays[k].row))
    {
      RowStays(w, v, relays[k].row);
    }
  }

  lemma {:induction false} GrowthKeepsTraffic(w: World, v: World, queue: map<nat, Payload>, nextTag: nat,
                                              ledger: seq<Payload>, consumers: map<nat, Consumer>)
    requires QueueOk(w, queue, nextTag) && ConsumersOk(w, queue, nextTag, ledger, consumers) && LedgerOk(w, ledger)
    requires Outlives(w, v)
    ensures QueueOk(v, queue, nextTag) && ConsumersOk(v, queue, nextTag, ledger, consumers) && LedgerOk(v, ledger)
  {
    forall tag | tag in queue ensures Backed(v, queue[tag]) {
      BackedStays(w, v, queue[tag]);
    }
    forall h | h in consumers ensures ConsumerOk(v, queue, nextTag, ledger, consumers[h]) {
      BackedStays(w, v, consumers[h].payload);
    }
    forall x | x in ledger ensures Backed(v, x) {
      BackedStays(w, v, x);
    }
  }

  // ------------------------------------------------------ steps of the transport

  /** Whatever was carried still is. */
  ghost predicate CarriesOn(queue: map<nat, Payload>, ledger: seq<Payload>, queue': map<nat, Payload>,
      ledger': seq<Payload>) {
    forall x :: Carried(queue, ledger, x) ==> Carried(queue', ledger', x)
  }

  lemma {:induction false} RowsCarryOn(w: World, rows: map<RowId, Sending>, relays: map<nat, Relay>,
                                       queue: map<nat, Payload>, ledger: seq<Payload>,
                                       queue': map<nat, Payload>, ledger': seq<Payload>)
    requires RowsOk(w, rows, relays, queue, ledger) && CarriesOn(queue, ledger, queue', ledger')
    ensures RowsOk(w, rows, relays, queue', ledger')
  {
  }

  lemma {:induction false} EnqueueCarriesOn(queue: map<nat, Payload>, ledger: seq<Payload>, tag: nat, x: Payload)
    requires tag !in queue
    ensures CarriesOn(queue, ledger, queue[tag := x], ledger) && Queued(queue[tag := x], x)
  {
    forall y | Queued(queue, y) ensures Queued(queue[tag := x], y) {
      var t :| t in queue && queue[t] == y;
      assert queue[tag := x][t] == y;
    }
    assert queue[tag := x][tag] == x;
  }

  lemma {:induction false} AppendCarriesOn(queue: map<nat, Payload>, ledger: seq<Payload>, x: Payload)
    ensures CarriesOn(queue, ledger, queue, ledger + [x])
  {
  }

  /** Acknowledging a message is safe once it is in the ledger, or if it can never get there. */
  lemma {:induction false} AckCarriesOn(queue: map<nat, Payload>, ledger: seq<Payload>, tag: nat, x: Payload)
    requires (tag in queue ==> queue[tag] == x) && (x in ledger || !ValidPayload(x))
    ensures CarriesOn(queue, ledger, queue - {tag}, ledger)
  {
    forall y | Queued(queue, y) && y != x ensures Queued(queue - {tag}, y) {
      var t :| t in queue && queue[t] == y;
      assert (queue - {tag})[t] == y;
    }
  }

  lemma {:induction false} PublishKeeps(d: Delivery, k: nat, accepted: bool, confirmed: bool)
    requires DeliveryOk(d) && Enabled(d, Publish(k, accepted, confirmed))
    ensures DeliveryOk(Change(d, Publish(k, accepted, confirmed)))
  {
    var row := d.relays[k].row;
    if accepted && MessageAt(d.world, row).LedgerMessage? {
      var x := PayloadOf(row.payment, MessageAt(d.world, row));
      assert PaymentOk(d.world, row.payment);
      RowsAreBacked(d.world, row);
      EnqueueKeeps(d, x);
      MarkStageKeeps(d.world, d.rows, d.relays, k, confirmed, d.queue[d.nextTag := x], d.ledger);
    } else {
      MarkStageKeeps(d.world, d.rows, d.relays, k, confirmed, d.queue, d.ledger);
    }
  }

  lemma {:induction false} EnqueueKeeps(d: Delivery, x: Payload)
    requires TransportOk(d) && Backed(d.world, x)
    ensures TransportOk(d.(queue := d.queue[d.nextTag := x], nextTag := d.nextTag + 1))
    ensures Queued(d.queue[d.nextTag := x], x)
  {
    EnqueueCarriesOn(d.queue, d.ledger, d.nextTag, x);
    RowsCarryOn(d.world, d.rows, d.relays, d.queue, d.ledger, d.queue[d.nextTag := x], d.ledger);
    forall h | h in d.consumers
      ensures ConsumerOk(d.world, d.queue[d.nextTag := x], d.nextTag + 1, d.ledger, d.consumers[h])
    {
      assert ConsumerOk(d.world, d.queue, d.nextTag, d.ledger, d.consumers[h]);
    }
  }

  lemma {:induction false} MarkStageKeeps(w: World, rows: map<RowId, Sending>, relays: map<nat, Relay>, k: nat,
                                          confirmed: bool, queue: map<nat, Payload>, ledger: seq<Payload>)
    requires RowsOk(w, rows, relays, queue, ledger) && k in relays
    requires confirmed ==> RowCarried(w, queue, ledger, relays[k].row)
    ensures RowsOk(w, rows, relays[k := Relay(relays[k].row, if confirmed then Confirmed else Unheard)], queue, ledger)
  {
  }

  lemma {:induction false} RelayStepKeepsRows(d: Delivery, e: Event)
    requires RowsOk(d.world, d.rows, d.relays, d.queue, d.ledger) && Enabled(d, e)
    requires e.ClaimRow? || e.MarkRow? || e.RelayDies? || e.RetryRow?
    ensures var d' := Change(d, e);
      && RowsOk(d.world, d'.rows, d'.relays, d.queue, d.ledger)
      && d' == d.(rows := d'.rows, relays := d'.relays)
  {
  }

  /** A consumer that keeps its message, and neither appends nor acknowledges. */
  lemma {:induction false} GotoKeeps(d: Delivery, h: nat, c: Consumer)
    requires TransportOk(d) && ConsumerOk(d.world, d.queue, d.nextTag, d.ledger, c)
    ensures TransportOk(d.(consumers := d.consumers[h := c]))
  {
  }

  lemma {:induction false} LeaveKeeps(d: Delivery, h: nat)
    requires TransportOk(d)
    ensures TransportOk(d.(consumers := d.consumers - {h}))
  {
  }

  lemma {:induction false} LookUpKeeps(d: Delivery, h: nat, e: Event)
    requires OrdersWellFormed(d.world) && TransportOk(d) && (e == LookUp(h) || e == LookAgain(h)) && Enabled(d, e)
    ensures TransportOk(Change(d, e))
  {
    var c := d.consumers[h];
    assert ConsumerOk(d.world, d.queue, d.nextTag, d.ledger, c);
    if HasId(d.ledger, c.payload.transactionId) {
      KnownMeansPresent(d.world, d.ledger, c.payload);
    }
    GotoKeeps(d, h, Change(d, e).consumers[h]);
  }

  lemma {:induction false} AppendKeeps(d: Delivery, h: nat)
    requires TransportOk(d) && Enabled(d, Append(h))
    ensures TransportOk(Change(d, Append(h)))
  {
    var c := d.consumers[h];
    assert ConsumerOk(d.world, d.queue, d.nextTag, d.ledger, c);
    if HasId(d.ledger, c.payload.transactionId) {
      GotoKeeps(d, h, c.(stage := Clashed));
    } else {
      var d' := d.(ledger := d.ledger + [c.payload]);
      AppendCarriesOn(d.queue, d.ledger, c.payload);
      RowsCarryOn(d.world, d.rows, d.relays, d.queue, d.ledger, d.queue, d'.ledger);
      AppendKeepsLedger(d.world, d.ledger, c.payload);
      AppendKeepsConsumers(d, c.payload);
      GotoKeeps(d', h, c.(stage := Known));
    }
  }

  lemma {:induction false} AppendKeepsConsumers(d: Delivery, x: Payload)
    requires ConsumersOk(d.world, d.queue, d.nextTag, d.ledger, d.consumers)
    ensures ConsumersOk(d.world, d.queue, d.nextTag, d.ledger + [x], d.consumers)
  {
    forall h | h in d.consumers ensures ConsumerOk(d.world, d.queue, d.nextTag, d.ledger + [x], d.consumers[h]) {
      assert ConsumerOk(d.world, d.queue, d.nextTag, d.ledger, d.consumers[h]);
    }
  }

  lemma {:induction false} AppendKeepsLedger(w: World, ledger: seq<Payload>, x: Payload)
    requires LedgerOk(w, ledger) && Backed(w, x) && ValidPayload(x) && !HasId(ledger, x.transactionId)
    ensures LedgerOk(w, ledger + [x])
  {
    forall i | 0 <= i < |ledger| ensures ledger[i].transactionId != x.transactionId {
      assert ledger[i] in ledger;
    }
  }

  lemma {:induction false} AckKeeps(d: Delivery, h: nat)
    requires TransportOk(d) && Enabled(d, Ack(h))
    ensures TransportOk(Change(d, Ack(h)))
  {
    var c := d.consumers[h];
    var d' := d.(queue := d.queue - {c.tag});
    assert ConsumerOk(d.world, d.queue, d.nextTag, d.ledger, c);
    AckCarriesOn(d.queue, d.ledger, c.tag, c.payload);
    RowsCarryOn(d.world, d.rows, d.relays, d.queue, d.ledger, d'.queue, d.ledger);
    forall i | i in d.consumers ensures ConsumerOk(d.world, d'.queue, d.nextTag, d.ledger, d.consumers[i]) {
      assert ConsumerOk(d.world, d.queue, d.nextTag, d.ledger, d.consumers[i]);
    }
    LeaveKeeps(d', h);
  }

  lemma {:induction false} HandKeeps(d: Delivery, h: nat, tag: nat)
    requires TransportOk(d) && Enabled(d, Hand(h, tag))
    ensures TransportOk(Change(d, Hand(h, tag)))
  {
    GotoKeeps(d, h, Change(d, Hand(h, tag)).consumers[h]);
  }

  lemma {:induction false} FailKeeps(d: Delivery, h: nat)
    requires TransportOk(d) && Enabled(d, DatabaseFails(h))
    ensures TransportOk(Change(d, DatabaseFails(h)))
  {
    assert ConsumerOk(d.world, d.queue, d.nextTag, d.ledger, d.consumers[h]);
    GotoKeeps(d, h, d.consumers[h].(stage := Errored));
  }

  lemma {:induction false} ConsumerStepKeeps(d: Delivery, e: Event)
    requires OrdersWellFormed(d.world) && TransportOk(d) && Enabled(d, e)
    requires e.Hand? || e.LookUp? || e.LookAgain? || e.Append? || e.DatabaseFails? || e.Ack? || e.Nack?
              || e.ConsumerDies?
    ensures TransportOk(Change(d, e))
  {
    match e
    case Hand(h, tag) => HandKeeps(d, h, tag);
    case LookUp(h) => LookUpKeeps(d, h, e);
    case LookAgain(h) => LookUpKeeps(d, h, e);
    case Append(h) => AppendKeeps(d, h);
    case DatabaseFails(h) => FailKeeps(d, h);
    case Ack(h) => AckKeeps(d, h);
    case Nack(h) => LeaveKeeps(d, h);
    case ConsumerDies(h) => LeaveKeeps(d, h);
  }

  lemma {:induction false} OnlyWorldStepsChangeTheWorld(d: Delivery, e: Event)
    requires Enabled(d, e) && !e.WorldStep?
    ensures Change(d, e).world == d.world
  {
  }

  lemma {:induction false} ChangeKeeps(d: Delivery, e: Event)
    requires DeliveryOk(d) && Enabled(d, e)
    ensures DeliveryOk(Change(d, e))
  {
    if e.WorldStep? {
      WorldStepKeeps(d, e.step);
    } else {
      OnlyWorldStepsChangeTheWorld(d, e);
      if e.Publish? {
        PublishKeeps(d, e.relay, e.accepted, e.confirmed);
      } else if e.ClaimRow? || e.MarkRow? || e.RelayDies? || e.RetryRow? {
        RelayStepKeepsRows(d, e);
      } else {
        ConsumerStepKeeps(d, e);
      }
    }
  }

  // ------------------------------------------------------------- whole runs

  predicate Feasible(d: Delivery, run: seq<Event>)
    decreases |run|
  {
    run == [] || (Enabled(d, run[0]) && Feasible(Change(d, run[0]), run[1..]))
  }

  function After(d: Delivery, run: seq<Event>): Delivery
    requires Feasible(d, run)
    decreases |run|
  {
    if run == [] then d else After(Change(d, run[0]), run[1..])
  }

  lemma {:induction false} OneMoreStep(d: Delivery, e: Event, more: seq<Event>)
    requires Enabled(d, e) && Feasible(Change(d, e), more)
    ensures Feasible(d, [e] + more) && After(d, [e] + more) == After(Change(d, e), more)
  {
    var run := [e] + more;
    assert run[0] == e && run[1..] == more;
  }

  lemma {:induction false} RunKeepsDelivery(d: Delivery, run: seq<Event>)
    requires DeliveryOk(d) && Feasible(d, run)
    ensures DeliveryOk(After(d, run))
    decreases |run|
  {
    if run != [] {
      ChangeKeeps(d, run[0]);
      RunKeepsDelivery(Change(d, run[0]), run[1..]);
    }
  }

  // ---------------------------------------------------------------- theorems

  /**
   * A committed ledger message with a valid payload is unpublished, queued or in the ledger, in every
   * reachable state.
   */
  lemma {:induction false} NoMovementIsLost(run: seq<Event>, row: RowId)
    requires Feasible(QUIET, run)
    requires var d := After(QUIET, run); RowExists(d.world, row) && MessageAt(d.world, row).LedgerMessage?
    requires ValidPayload(PayloadOf(row.payment, MessageAt(After(QUIET, run).world, row)))
    ensures var d := After(QUIET, run); var x := PayloadOf(row.payment, MessageAt(d.world, row));
      !SendingOf(d, row).published || Queued(d.queue, x) || x in d.ledger
  {
    RunKeepsDelivery(QUIET, run);
    var d := After(QUIET, run);
    if SendingOf(d, row).published {
      assert RowCarried(d.world, d.queue, d.ledger, row);
    }
  }

  /** The ledger never holds two rows of one transaction_id, however often a message is published or handed out. */
  lemma {:induction false} NoMovementTwice(run: seq<Event>, i: nat, j: nat)
    requires Feasible(QUIET, run)
    requires var ledger := After(QUIET, run).ledger;
      i < |ledger| && j < |ledger| && ledger[i].transactionId == ledger[j].transactionId
    ensures i == j
  {
    RunKeepsDelivery(QUIET, run);
  }

  /**
   * The entry accounts made for this movement, field by field: a debit leaves the
   * source, a credit reaches the destination, a refund comes back to the source.
   */
  ghost predicate TellsOfAnEntry(w: World, x: Payload) {
    && x.payment in w.payments
    && var o := w.payments[x.payment].order;
    var leg := match x.kind case DEBIT => DebitLeg case CREDIT => CreditLeg case REFUND => RefundLeg;
    var key := A.MovementKey(x.payment, leg);
    && x.wallet == (if x.kind.CREDIT? then o.destination else o.source)
    && x.transactionId == R.MovementKeyText(x.payment, leg)
    && x.user == (match o.user case Some(u) => u case None => R.UNKNOWN_USER)
    && (x.wallet, key) in w.accounts.index && x.wallet in w.accounts.wallets
    && var e := w.accounts.index[(x.wallet, key)];
    && e in w.accounts.wallets[x.wallet].log
    && x.amount == e.amount == o.amount && x.currency == e.currency == o.currency
    && e.flow == if x.kind.DEBIT? then A.DebitFlow else A.CreditFlow
  }

  /**
   * Every ledger row comes from a committed outbox row of its payment, and tells of an entry accounts really made:
   * same wallet, direction, amount and currency. A payment with a refund row has no other.
   */
  lemma {:induction false} LedgerTellsTheTruth(run: seq<Event>, x: Payload)
    requires Feasible(QUIET, run) && x in After(QUIET, run).ledger
    ensures var w := After(QUIET, run).world;
      && Backed(w, x)
      && TellsOfAnEntry(w, x)
    ensures var s := After(QUIET, run).world.payments[x.payment].stored;
      s.status == if x.kind.REFUND? then Compensated else Approved
  {
    RunKeepsDelivery(QUIET, run);
    var d := After(QUIET, run);
    BackedIsRecorded(d.world, x);
  }

  lemma {:induction false} BackedIsRecorded(w: World, x: Payload)
    requires WorldOk(w) && Backed(w, x)
    ensures TellsOfAnEntry(w, x)
    ensures w.payments[x.payment].stored.status == if x.kind.REFUND? then Compensated else Approved
  {
    var l := w.payments[x.payment];
    assert PaymentOk(w, x.payment);
    OwedMeansPosted(l, View(w.accounts, l.order), LegFor(x.kind));
    M.RecordedEntry(w, x.payment, LegFor(x.kind));
  }

  lemma {:induction false} OwedMeansPosted(l: Local, p: Posted, leg: Leg)
    requires Inv(l, p) && LedgerOf(l.order, leg) in l.outbox
    ensures p.Get(leg).Some?
    ensures l.stored.status == if leg.RefundLeg? then Compensated else Approved
  {
    assert l.outbox == Owes(l.order, l.stored);
  }

  /** Validation at the far end turns on one thing only: the user reference the caller put in the metadata. */
  lemma {:induction false} OnlyTheUserCanSpoilAMessage(run: seq<Event>, row: RowId)
    requires Feasible(QUIET, run)
    requires var d := After(QUIET, run); RowExists(d.world, row) && MessageAt(d.world, row).LedgerMessage?
    ensures var d := After(QUIET, run); var o := d.world.payments[row.payment].order;
      ValidPayload(PayloadOf(row.payment, MessageAt(d.world, row))) <==> o.user.None? || R.Accepts("usr", o.user.value)
  {
    RunKeepsDelivery(QUIET, run);
    var w := After(QUIET, run).world;
    assert PaymentOk(w, row.payment);
    RowsAreMovements(w, row);
    PayloadIsValidButForTheUser(w.payments[row.payment].order, MessageAt(w, row).leg);
  }

  lemma {:induction false} PayloadIsValidButForTheUser(o: Order, leg: Leg)
    requires WellFormed(o)
    ensures ValidPayload(PayloadOf(o.reference, LedgerOf(o, leg))) <==> o.user.None? || R.Accepts("usr", o.user.value)
  {
    R.UnknownUserIsAccepted();
    R.KeyIsTransactionId(o.reference, leg);
  }

  /** A message with a malformed user is published like any other and then never reaches the ledger. */
  lemma {:induction false} MalformedIsDropped(run: seq<Event>, x: Payload)
    requires Feasible(QUIET, run) && !ValidPayload(x)
    ensures x !in After(QUIET, run).ledger
  {
    RunKeepsDelivery(QUIET, run);
  }

  /** The ledger is append-only. */
  lemma {:induction false} LedgerOnlyGrows(d: Delivery, run: seq<Event>)
    requires Feasible(d, run)
    ensures d.ledger <= After(d, run).ledger
    decreases |run|
  {
    if run != [] {
      LedgerOnlyGrows(Change(d, run[0]), run[1..]);
    }
  }

  // ------------------------------------------------ nothing is ever stuck

  ghost predicate CanArrive(d: Delivery, x: Payload) {
    exists more :: Feasible(d, more) && x in After(d, more).ledger
  }

  lemma {:induction false} StepTowards(d: Delivery, e: Event, x: Payload)
    requires Enabled(d, e) && CanArrive(Change(d, e), x)
    ensures CanArrive(d, x)
  {
    var more :| Feasible(Change(d, e), more) && x in After(Change(d, e), more).ledger;
    OneMoreStep(d, e, more);
  }

  lemma {:induction false} FreshId<T>(m: map<nat, T>) returns (k: nat)
    ensures k !in m
  {
    k := 0;
    var below: set<nat> := {};
    while k in m
      invariant below <= m.Keys
      invariant forall j :: j in below <==> 0 <= j < k
      decreases m.Keys - below
    {
      below := below + {k};
      k := k + 1;
    }
  }

  /** Row locks exclude each other. */
  predicate OneRelayPerRow(d: Delivery) {
    forall k, j :: k in d.relays && j in d.relays && d.relays[k].row == d.relays[j].row ==> k == j
  }

  lemma {:induction false} RunKeepsRowLocks(d: Delivery, run: seq<Event>)
    requires OneRelayPerRow(d) && Feasible(d, run)
    ensures OneRelayPerRow(After(d, run))
    decreases |run|
  {
    if run != [] {
      RunKeepsRowLocks(Change(d, run[0]), run[1..]);
    }
  }

  lemma {:induction false} QueuedCanArrive(d: Delivery, tag: nat)
    requires DeliveryOk(d) && tag in d.queue && ValidPayload(d.queue[tag])
    ensures CanArrive(d, d.queue[tag])
  {
    var x := d.queue[tag];
    if x in d.ledger {
      assert Feasible(d, []) && x in After(d, []).ledger;
    } else {
      if HasId(d.ledger, x.transactionId) {
        KnownMeansPresent(d.world, d.ledger, x);
      }
      var h := FreshId(d.consumers);
      ConsumerCanAppend(d, h, tag);
    }
  }

  lemma {:induction false} ConsumerCanAppend(d: Delivery, h: nat, tag: nat)
    requires tag in d.queue && ValidPayload(d.queue[tag]) && h !in d.consumers
    requires !HasId(d.ledger, d.queue[tag].transactionId)
    ensures CanArrive(d, d.queue[tag])
  {
    var x := d.queue[tag];
    var d1 := Change(d, Hand(h, tag));
    var d2 := Change(d1, LookUp(h));
    var d3 := Change(d2, Append(h));
    assert d3.ledger == d.ledger + [x];
    assert Feasible(d3, []) && x in After(d3, []).ledger;
    StepTowards(d2, Append(h), x);
    StepTowards(d1, LookUp(h), x);
    StepTowards(d, Hand(h, tag), x);
  }

  lemma {:induction false} ClaimableCanArrive(d: Delivery, row: RowId, x: Payload)
    requires DeliveryOk(d) && RowExists(d.world, row) && MessageAt(d.world, row).LedgerMessage?
    requires x == PayloadOf(row.payment, MessageAt(d.world, row)) && ValidPayload(x)
    requires !RowLocked(d, row) && !SendingOf(d, row).published && SendingOf(d, row).attempts < MAX_ATTEMPTS
    ensures CanArrive(d, x)
  {
    var k := FreshId(d.relays);
    var d1 := Change(d, ClaimRow(k, row));
    var d2 := Change(d1, Publish(k, true, true));
    ChangeKeeps(d, ClaimRow(k, row));
    ChangeKeeps(d1, Publish(k, true, true));
    assert d2.queue[d.nextTag] == x;
    QueuedCanArrive(d2, d.nextTag);
    StepTowards(d1, Publish(k, true, true), x);
    StepTowards(d, ClaimRow(k, row), x);
  }

  lemma {:induction false} UnlockedCanArrive(d: Delivery, row: RowId, x: Payload)
    requires DeliveryOk(d) && RowExists(d.world, row) && MessageAt(d.world, row).LedgerMessage?
    requires x == PayloadOf(row.payment, MessageAt(d.world, row)) && ValidPayload(x)
    requires !RowLocked(d, row) && !SendingOf(d, row).published
    ensures CanArrive(d, x)
  {
    if SendingOf(d, row).attempts >= MAX_ATTEMPTS {
      var d1 := Change(d, RetryRow(row));
      ChangeKeeps(d, RetryRow(row));
      assert d1.relays == d.relays;
      assert !RowLocked(d1, row);
      ClaimableCanArrive(d1, row, x);
      StepTowards(d, RetryRow(row), x);
    } else {
      ClaimableCanArrive(d, row, x);
    }
  }

  /**
   * From every reachable state a committed movement with a valid payload can still reach the ledger: lost
   * confirmations, dead relays and ten failed attempts (with the operator's retry) never strand it.
   */
  lemma {:induction false} EveryMovementCanArrive(run: seq<Event>, row: RowId)
    requires Feasible(QUIET, run)
    requires var d := After(QUIET, run); RowExists(d.world, row) && MessageAt(d.world, row).LedgerMessage?
    requires ValidPayload(PayloadOf(row.payment, MessageAt(After(QUIET, run).world, row)))
    ensures var d := After(QUIET, run); CanArrive(d, PayloadOf(row.payment, MessageAt(d.world, row)))
  {
    RunKeepsDelivery(QUIET, run);
    RunKeepsRowLocks(QUIET, run);
    NoMovementIsLost(run, row);
    var d := After(QUIET, run);
    var x := PayloadOf(row.payment, MessageAt(d.world, row));
    if x in d.ledger {
      assert Feasible(d, []) && x in After(d, []).ledger;
    } else if SendingOf(d, row).published {
      var tag :| tag in d.queue && d.queue[tag] == x;
      QueuedCanArrive(d, tag);
    } else if k :| k in d.relays && d.relays[k].row == row {
      LockedCanArrive(d, k, row, x);
    } else {
      UnlockedCanArrive(d, row, x);
    }
  }

  lemma {:induction false} LockedCanArrive(d: Delivery, k: nat, row: RowId, x: Payload)
    requires DeliveryOk(d) && OneRelayPerRow(d) && RowExists(d.world, row) && MessageAt(d.world, row).LedgerMessage?
    requires x == PayloadOf(row.payment, MessageAt(d.world, row)) && ValidPayload(x)
    requires k in d.relays && d.relays[k].row == row && !SendingOf(d, row).published
    ensures CanArrive(d, x)
  {
    var d1 := Change(d, RelayDies(k));
    ChangeKeeps(d, RelayDies(k));
    assert !RowLocked(d1, row);
    UnlockedCanArrive(d1, row, x);
    StepTowards(d, RelayDies(k), x);
  }

  /**
   * The movement of a committed row can still reach the ledger if and only if its payment's user is
   * absent or well formed.
   */
  lemma {:induction false} ArrivalExactly(run: seq<Event>, row: RowId)
    requires Feasible(QUIET, run)
    requires var d := After(QUIET, run); RowExists(d.world, row) && MessageAt(d.world, row).LedgerMessage?
    ensures var d := After(QUIET, run); var o := d.world.payments[row.payment].order;
      CanArrive(d, PayloadOf(row.payment, MessageAt(d.world, row))) <==> o.user.None? || R.Accepts("usr", o.user.value)
  {
    var d := After(QUIET, run);
    var x := PayloadOf(row.payment, MessageAt(d.world, row));
    OnlyTheUserCanSpoilAMessage(run, row);
    if ValidPayload(x) {
      EveryMovementCanArrive(run, row);
    } else {
      RunKeepsDelivery(QUIET, run);
      forall more | Feasible(d, more) ensures x !in After(d, more).ledger {
        RunKeepsDelivery(d, more);
      }
    }
  }
}
