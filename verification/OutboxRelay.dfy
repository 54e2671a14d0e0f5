/** The relay's pass over the outbox as it runs: at most fifty rows, one transaction each. */
module OutboxRelay {
  import opened WorkerProgram
  import opened Powers
  import D = LedgerDelivery

  const BATCH_SIZE := 50

  /** The table in order of creation. */
  datatype OutboxRow = OutboxRow(message: Message, published: bool, attempts: nat, nextAttemptAt: nat)

  /**
   * How an emit ends. The relay hears of an acceptance only in `Accepted`: an
   * emit that fails or times out may have been accepted all the same, and so may
   * one whose transaction then fails on the database.
   */
  datatype Outcome =
    | Accepted
    | BrokerFailed(accepted: bool)
    | DatabaseFailed(accepted: bool)

  /**
   * What one iteration meets: the time its row is selected, the rows other relays
   * hold locked, how the emit ends, and the time a failure is noted.
   */
  datatype Tick = Tick(now: nat, lockedElsewhere: set<nat>, outcome: Outcome, failedAt: nat)

  predicate TakenByBroker(t: Tick) {
    t.outcome.Accepted? || t.outcome.accepted
  }

  predicate Eligible(rows: seq<OutboxRow>, t: Tick, i: nat)
    requires i < |rows|
  {
    !rows[i].published && rows[i].attempts < D.MAX_ATTEMPTS && rows[i].nextAttemptAt <= t.now && i !in t.lockedElsewhere
  }

  /** Milliseconds until a row that failed this often is tried again. */
  function Backoff(attempts: nat): nat {
    1000 * if Pow2(attempts) < 3600 then Pow2(attempts) else 3600
  }

  function Settled(row: OutboxRow, t: Tick): OutboxRow {
    match t.outcome
    case Accepted => row.(published := true, attempts := row.attempts + 1)
    case BrokerFailed(_) => row.(attempts := row.attempts + 1, nextAttemptAt := t.failedAt + Backoff(row.attempts + 1))
    case DatabaseFailed(_) => row
  }

  function FirstFrom(rows: seq<OutboxRow>, t: Tick, i: nat): (k: nat)
    requires i <= |rows|
    ensures i <= k <= |rows|
    ensures k < |rows| ==> Eligible(rows, t, k)
    ensures forall j :: i <= j < k ==> !Eligible(rows, t, j)
    decreases |rows| - i
  {
    if i == |rows| || Eligible(rows, t, i) then i else FirstFrom(rows, t, i + 1)
  }

  /** The rows after a pass, and the rows the broker accepted, heard or unheard, in order. */
  function Pass(rows: seq<OutboxRow>, ticks: seq<Tick>): (seq<OutboxRow>, seq<nat>)
    decreases |ticks|
  {
    if ticks == [] then (rows, [])
    else
      var k := FirstFrom(rows, ticks[0], 0);
      if k == |rows| then (rows, [])
      else
        var (after, later) :=
          if ticks[0].outcome.DatabaseFailed? then (rows, [])
          else Pass(rows[k := Settled(rows[k], ticks[0])], ticks[1..]);
        (after, (if TakenByBroker(ticks[0]) then [k] else []) + later)
  }

  lemma {:induction false} PassUnfolds(rows: seq<OutboxRow>, ticks: seq<Tick>)
    requires ticks != [] && FirstFrom(rows, ticks[0], 0) < |rows|
    ensures var k := FirstFrom(rows, ticks[0], 0);
      var next := rows[k := Settled(rows[k], ticks[0])];
      var taken := if TakenByBroker(ticks[0]) then [k] else [];
      if ticks[0].outcome.DatabaseFailed? then next == rows && Pass(rows, ticks) == (rows, taken)
      else Pass(rows, ticks) == (Pass(next, ticks[1..]).0, taken + Pass(next, ticks[1..]).1)
  {
    var k := FirstFrom(rows, ticks[0], 0);
    var taken := if TakenByBroker(ticks[0]) then [k] else [];
    if ticks[0].outcome.DatabaseFailed? {
      assert rows[k := Settled(rows[k], ticks[0])] == rows;
      assert taken + [] == taken;
      assert Pass(rows, ticks).0 == rows;
      assert Pass(rows, ticks).1 == taken + [];
    }
  }

  // -------------------------------------------------- a pass, visit by visit

  /** The row each iteration of a pass takes up; iteration `j` goes with `ticks[j]`. */
  function Visits(rows: seq<OutboxRow>, ticks: seq<Tick>): (visits: seq<nat>)
    ensures |visits| <= |ticks|
    decreases |ticks|
  {
    if ticks == [] then []
    else
      var k := FirstFrom(rows, ticks[0], 0);
      if k == |rows| then []
      else [k] + if ticks[0].outcome.DatabaseFailed? then []
          else Visits(rows[k := Settled(rows[k], ticks[0])], ticks[1..])
  }

  /** The table as iteration `j` finds it. */
  function RowsAt(rows: seq<OutboxRow>, ticks: seq<Tick>, j: nat): (at: seq<OutboxRow>)
    requires j <= |Visits(rows, ticks)|
    ensures |at| == |rows|
    decreases j
  {
    if j == 0 then rows
    else
      var k := FirstFrom(rows, ticks[0], 0);
      var next := rows[k := Settled(rows[k], ticks[0])];
      if ticks[0].outcome.DatabaseFailed? then next else RowsAt(next, ticks[1..], j - 1)
  }

  /** The row a relay takes up: the oldest that is eligible. */
  predicate Oldest(rows: seq<OutboxRow>, t: Tick, i: nat) {
    i < |rows| && Eligible(rows, t, i) && forall j :: 0 <= j < i ==> !Eligible(rows, t, j)
  }

  /** Iteration `j` takes up the oldest eligible row, settles it and touches no other. */
  lemma {:induction false} VisitTakesTheOldest(rows: seq<OutboxRow>, ticks: seq<Tick>, j: nat)
    requires j < |Visits(rows, ticks)|
    ensures var k, at := Visits(rows, ticks)[j], RowsAt(rows, ticks, j);
      && Oldest(at, ticks[j], k)
      && RowsAt(rows, ticks, j + 1) == at[k := Settled(at[k], ticks[j])]
      && (ticks[j].outcome.DatabaseFailed? ==> |Visits(rows, ticks)| == j + 1)
    decreases j
  {
    var k := FirstFrom(rows, ticks[0], 0);
    if j > 0 {
      VisitTakesTheOldest(rows[k := Settled(rows[k], ticks[0])], ticks[1..], j - 1);
    }
  }

  /** A pass ends early for two reasons only: a database error, or no eligible row. */
  lemma {:induction false} PassStopsOnlyFor(rows: seq<OutboxRow>, ticks: seq<Tick>)
    ensures var n := |Visits(rows, ticks)|;
      n < |ticks| ==>
        || (n > 0 && ticks[n - 1].outcome.DatabaseFailed?)
        || forall i :: 0 <= i < |rows| ==> !Eligible(RowsAt(rows, ticks, n), ticks[n], i)
    decreases |ticks|
  {
    if ticks != [] {
      var k := FirstFrom(rows, ticks[0], 0);
      if k < |rows| && !ticks[0].outcome.DatabaseFailed? {
        var next := rows[k := Settled(rows[k], ticks[0])];
        PassStopsOnlyFor(next, ticks[1..]);
        assert Visits(rows, ticks) == [k] + Visits(next, ticks[1..]);
        assert RowsAt(rows, ticks, |Visits(rows, ticks)|) == RowsAt(next, ticks[1..], |Visits(next, ticks[1..])|);
      }
    }
  }

  /** After the last visit the table is as the pass leaves it. */
  lemma {:induction false} PassEndsAtTheLastVisit(rows: seq<OutboxRow>, ticks: seq<Tick>)
    ensures Pass(rows, ticks).0 == RowsAt(rows, ticks, |Visits(rows, ticks)|)
    decreases |ticks|
  {
    if ticks != [] {
      var k := FirstFrom(rows, ticks[0], 0);
      if k < |rows| && !ticks[0].outcome.DatabaseFailed? {
        PassEndsAtTheLastVisit(rows[k := Settled(rows[k], ticks[0])], ticks[1..]);
      }
    }
  }

  /** The visits in which the broker took the row. */
  function TakenVisits(visits: seq<nat>, ticks: seq<Tick>): seq<nat>
    requires |visits| <= |ticks|
  {
    if visits == [] then []
    else (if TakenByBroker(ticks[0]) then [visits[0]] else []) + TakenVisits(visits[1..], ticks[1..])
  }

  lemma {:induction false} SentAreTakenVisits(rows: seq<OutboxRow>, ticks: seq<Tick>)
    ensures Pass(rows, ticks).1 == TakenVisits(Visits(rows, ticks), ticks)
    decreases |ticks|
  {
    if ticks != [] {
      var k := FirstFrom(rows, ticks[0], 0);
      if k < |rows| {
        var next := rows[k := Settled(rows[k], ticks[0])];
        if ticks[0].outcome.DatabaseFailed? {
          assert Visits(rows, ticks) == [k];
          assert [k][1..] == [];
        } else {
          SentAreTakenVisits(next, ticks[1..]);
          assert Visits(rows, ticks)[1..] == Visits(next, ticks[1..]);
        }
      }
    }
  }

  /** Where in the visits an entry of the sent list comes from. */
  lemma {:induction false} SentVisit(visits: seq<nat>, ticks: seq<Tick>, p: nat) returns (a: nat)
    requires |visits| <= |ticks| && p < |TakenVisits(visits, ticks)|
    ensures p <= a < |visits| && TakenByBroker(ticks[a]) && visits[a] == TakenVisits(visits, ticks)[p]
  {
    if TakenByBroker(ticks[0]) && p == 0 {
      a := 0;
    } else {
      a := SentVisit(visits[1..], ticks[1..], if TakenByBroker(ticks[0]) then p - 1 else p);
      a := a + 1;
    }
  }

  lemma {:induction false} SentVisits(visits: seq<nat>, ticks: seq<Tick>, p: nat, q: nat) returns (a: nat, b: nat)
    requires |visits| <= |ticks| && p < q < |TakenVisits(visits, ticks)|
    ensures a < b < |visits| && TakenByBroker(ticks[a]) && TakenByBroker(ticks[b])
    ensures visits[a] == TakenVisits(visits, ticks)[p] && visits[b] == TakenVisits(visits, ticks)[q]
  {
    if !TakenByBroker(ticks[0]) {
      a, b := SentVisits(visits[1..], ticks[1..], p, q);
      a, b := a + 1, b + 1;
    } else if p > 0 {
      a, b := SentVisits(visits[1..], ticks[1..], p - 1, q - 1);
      a, b := a + 1, b + 1;
    } else {
      b := SentVisit(visits[1..], ticks[1..], q - 1);
      a, b := 0, b + 1;
    }
  }

  lemma {:induction false} VisitSent(visits: seq<nat>, ticks: seq<Tick>, a: nat) returns (p: nat)
    requires |visits| <= |ticks| && a < |visits| && TakenByBroker(ticks[a])
    ensures p < |TakenVisits(visits, ticks)| && TakenVisits(visits, ticks)[p] == visits[a]
  {
    if a == 0 {
      p := 0;
    } else {
      p := VisitSent(visits[1..], ticks[1..], a - 1);
      p := if TakenByBroker(ticks[0]) then p + 1 else p;
    }
  }

  lemma {:induction false} VisitsSent(visits: seq<nat>, ticks: seq<Tick>, a: nat, b: nat) returns (p: nat, q: nat)
    requires |visits| <= |ticks| && a < b < |visits| && TakenByBroker(ticks[a]) && TakenByBroker(ticks[b])
    ensures p < q < |TakenVisits(visits, ticks)|
    ensures TakenVisits(visits, ticks)[p] == visits[a] && TakenVisits(visits, ticks)[q] == visits[b]
  {
    if a == 0 {
      q := VisitSent(visits[1..], ticks[1..], b - 1);
      p, q := 0, q + 1;
    } else {
      p, q := VisitsSent(visits[1..], ticks[1..], a - 1, b - 1);
      if TakenByBroker(ticks[0]) {
        p, q := p + 1, q + 1;
      }
    }
  }

  /** A row keeps its state while it is not taken up. */
  lemma {:induction false} UnvisitedStays(rows: seq<OutboxRow>, ticks: seq<Tick>, a: nat, b: nat, i: nat)
    requires a <= b <= |Visits(rows, ticks)| && i < |rows|
    requires forall j :: a <= j < b ==> Visits(rows, ticks)[j] != i
    ensures RowsAt(rows, ticks, b)[i] == RowsAt(rows, ticks, a)[i]
    decreases b
  {
    if a < b {
      UnvisitedStays(rows, ticks, a, b - 1, i);
      VisitTakesTheOldest(rows, ticks, b - 1);
    }
  }

  lemma {:induction false} MarkStays(rows: seq<OutboxRow>, ticks: seq<Tick>, a: nat, b: nat, i: nat)
    requires a <= b <= |Visits(rows, ticks)| && i < |rows| && RowsAt(rows, ticks, a)[i].published
    ensures RowsAt(rows, ticks, b)[i] == RowsAt(rows, ticks, a)[i]
    ensures forall j :: a <= j < b ==> Visits(rows, ticks)[j] != i
    decreases b
  {
    if a < b {
      MarkStays(rows, ticks, a, b - 1, i);
      VisitTakesTheOldest(rows, ticks, b - 1);
    }
  }

  // ---------------------------------------------------- what a pass guarantees

  /** A pass adds or drops no row, changes no message, and never takes a row past its last attempt. */
  lemma {:induction false} PassKeepsTheTable(rows: seq<OutboxRow>, ticks: seq<Tick>, i: nat, j: nat)
    requires i < |rows| && j <= |Visits(rows, ticks)|
    ensures var now := RowsAt(rows, ticks, j)[i];
      && now.message == rows[i].message
      && (rows[i].published ==> now == rows[i])
      && rows[i].attempts <= now.attempts
      && (rows[i].attempts <= D.MAX_ATTEMPTS ==> now.attempts <= D.MAX_ATTEMPTS)
    decreases j
  {
    if j > 0 {
      PassKeepsTheTable(rows, ticks, i, j - 1);
      VisitTakesTheOldest(rows, ticks, j - 1);
    }
  }

  /** The broker took row `i` in iteration `a`. */
  predicate TakenAt(rows: seq<OutboxRow>, ticks: seq<Tick>, i: nat, a: nat) {
    a < |Visits(rows, ticks)| && Oldest(RowsAt(rows, ticks, a), ticks[a], i) && TakenByBroker(ticks[a])
  }

  lemma {:induction false} OldestIsVisited(rows: seq<OutboxRow>, ticks: seq<Tick>, i: nat, a: nat)
    requires a < |Visits(rows, ticks)|
    ensures Oldest(RowsAt(rows, ticks, a), ticks[a], i) <==> Visits(rows, ticks)[a] == i
  {
    VisitTakesTheOldest(rows, ticks, a);
  }

  /**
   * The rows a pass marks are exactly those it heard the broker accept, and the
   * rows it sends are exactly those the broker took: a row taken and left
   * unmarked was taken unheard or by a transaction that then failed.
   */
  lemma {:induction false} PassMarksExactlyWhatItHeard(rows: seq<OutboxRow>, ticks: seq<Tick>, i: nat)
    requires i < |rows|
    ensures var (after, sent) := Pass(rows, ticks);
      && |after| == |rows|
      && after[i].message == rows[i].message
      && (rows[i].published ==> after[i] == rows[i])
      && rows[i].attempts <= after[i].attempts
      && (rows[i].attempts <= D.MAX_ATTEMPTS ==> after[i].attempts <= D.MAX_ATTEMPTS)
      && (i in sent <==> exists a :: TakenAt(rows, ticks, i, a))
      && (after[i].published <==>
            rows[i].published || exists a: nat :: TakenAt(rows, ticks, i, a) && ticks[a].outcome.Accepted?)
  {
    var n := |Visits(rows, ticks)|;
    PassEndsAtTheLastVisit(rows, ticks);
    PassKeepsTheTable(rows, ticks, i, n);
    SentIsTaken(rows, ticks, i);
    if a: nat :| TakenAt(rows, ticks, i, a) && ticks[a].outcome.Accepted? {
      OldestIsVisited(rows, ticks, i, a);
      VisitTakesTheOldest(rows, ticks, a);
      MarkStays(rows, ticks, a + 1, n, i);
    }
    if !rows[i].published {
      MarkedMeansHeard(rows, ticks, i, n);
    }
  }

  lemma {:induction false} SentIsTaken(rows: seq<OutboxRow>, ticks: seq<Tick>, i: nat)
    ensures i in Pass(rows, ticks).1 <==> exists a :: TakenAt(rows, ticks, i, a)
  {
    var visits := Visits(rows, ticks);
    SentAreTakenVisits(rows, ticks);
    if i in Pass(rows, ticks).1 {
      var p :| 0 <= p < |Pass(rows, ticks).1| && Pass(rows, ticks).1[p] == i;
      var a := SentVisit(visits, ticks, p);
      OldestIsVisited(rows, ticks, i, a);
      assert TakenAt(rows, ticks, i, a);
    }
    if a :| TakenAt(rows, ticks, i, a) {
      OldestIsVisited(rows, ticks, i, a);
      var p := VisitSent(visits, ticks, a);
    }
  }

  lemma {:induction false} MarkedMeansHeard(rows: seq<OutboxRow>, ticks: seq<Tick>, i: nat, j: nat)
    requires i < |rows| && j <= |Visits(rows, ticks)| && !rows[i].published
    ensures RowsAt(rows, ticks, j)[i].published ==>
              exists a: nat :: TakenAt(rows, ticks, i, a) && ticks[a].outcome.Accepted?
    decreases j
  {
    if j > 0 {
      MarkedMeansHeard(rows, ticks, i, j - 1);
      VisitTakesTheOldest(rows, ticks, j - 1);
      if RowsAt(rows, ticks, j)[i].published && !RowsAt(rows, ticks, j - 1)[i].published {
        assert TakenAt(rows, ticks, i, j - 1);
      }
    }
  }

  // ------------------------------------------------- sent twice in one pass

  ghost predicate SentTwice(rows: seq<OutboxRow>, ticks: seq<Tick>, i: nat) {
    exists p, q :: 0 <= p < q < |Pass(rows, ticks).1| && Pass(rows, ticks).1[p] == i && Pass(rows, ticks).1[q] == i
  }

  /** The broker takes row `i` unheard in iteration `a`, and takes it again in a later iteration `b` that reaches it. */
  predicate UnheardThenTaken(rows: seq<OutboxRow>, ticks: seq<Tick>, i: nat, a: nat, b: nat) {
    a < b && TakenAt(rows, ticks, i, a) && ticks[a].outcome == BrokerFailed(true) && TakenAt(rows, ticks, i, b)
  }

  /** A row taken up again was not marked the first time, and the pass went on. */
  lemma {:induction false} RevisitedMeansFailed(rows: seq<OutboxRow>, ticks: seq<Tick>, a: nat, b: nat)
    requires a < b < |Visits(rows, ticks)| && Visits(rows, ticks)[a] == Visits(rows, ticks)[b]
    ensures ticks[a].outcome.BrokerFailed?
  {
    VisitTakesTheOldest(rows, ticks, a);
    if ticks[a].outcome.Accepted? {
      MarkStays(rows, ticks, a + 1, |Visits(rows, ticks)|, Visits(rows, ticks)[a]);
    }
  }

  /**
   * One pass sends a row twice exactly when an acceptance of it went unheard and a later iteration
   * gets it accepted again.
   */
  lemma {:induction false} SentTwiceExactly(rows: seq<OutboxRow>, ticks: seq<Tick>, i: nat)
    ensures SentTwice(rows, ticks, i) <==> exists a, b :: UnheardThenTaken(rows, ticks, i, a, b)
  {
    var visits, sent := Visits(rows, ticks), Pass(rows, ticks).1;
    SentAreTakenVisits(rows, ticks);
    if p, q :| 0 <= p < q < |sent| && sent[p] == i && sent[q] == i {
      var a, b := SentVisits(visits, ticks, p, q);
      OldestIsVisited(rows, ticks, i, a);
      OldestIsVisited(rows, ticks, i, b);
      RevisitedMeansFailed(rows, ticks, a, b);
      assert UnheardThenTaken(rows, ticks, i, a, b);
    }
    if a, b :| UnheardThenTaken(rows, ticks, i, a, b) {
      OldestIsVisited(rows, ticks, i, a);
      OldestIsVisited(rows, ticks, i, b);
      var p, q := VisitsSent(visits, ticks, a, b);
    }
  }

  /**
   * When a failed row is reached again: not taken up in between, it is the row of
   * iteration `b` exactly when its backoff is over, attempts are left, nobody
   * else holds it and no older row is eligible.
   */
  lemma {:induction false} ReachedAgainExactly(rows: seq<OutboxRow>, ticks: seq<Tick>, i: nat, a: nat, b: nat)
    requires a < b < |Visits(rows, ticks)| && Visits(rows, ticks)[a] == i && ticks[a].outcome.BrokerFailed?
    requires forall j :: a < j < b ==> Visits(rows, ticks)[j] != i
    ensures i < |rows|
    ensures Visits(rows, ticks)[b] == i <==>
              var tried := RowsAt(rows, ticks, a)[i].attempts + 1;
              && ticks[a].failedAt + Backoff(tried) <= ticks[b].now && tried < D.MAX_ATTEMPTS
              && i !in ticks[b].lockedElsewhere
              && forall j :: 0 <= j < i ==> !Eligible(RowsAt(rows, ticks, b), ticks[b], j)
  {
    VisitTakesTheOldest(rows, ticks, a);
    UnvisitedStays(rows, ticks, a + 1, b, i);
    OldestIsVisited(rows, ticks, i, b);
  }

  /** One second to begin with, twice as long after every failure, an hour at most. */
  lemma {:induction false} BackoffDoubles(attempts: nat)
    ensures Backoff(0) == 1000
    ensures Backoff(attempts + 1) == if 2 * Backoff(attempts) < 3_600_000 then 2 * Backoff(attempts) else 3_600_000
  {
    assert Pow2(attempts + 1) == 2 * Pow2(attempts);
  }

  lemma {:induction false} BackoffIsTwoSecondsAtLeast(attempts: nat)
    requires attempts > 0
    ensures Backoff(attempts) >= 2000
  {
    Pow2Grows(1, attempts);
    assert Pow2(1) == 2 * Pow2(0) == 2;
  }

  /** The last time before `b` that row `i` is taken up. */
  lemma {:induction false} LastVisitBefore(visits: seq<nat>, i: nat, a: nat, b: nat) returns (c: nat)
    requires a < b < |visits| && visits[a] == i
    ensures a <= c < b && visits[c] == i && forall j :: c < j < b ==> visits[j] != i
  {
    c := b - 1;
    while visits[c] != i
      invariant a <= c < b && forall j :: c < j < b ==> visits[j] != i
      decreases c
    {
      c := c - 1;
    }
  }

  /** A pass sends no row twice if nothing is accepted unheard, or if it is over within two seconds of every failure. */
  lemma {:induction false} QuickOrHeardPassSendsOnce(rows: seq<OutboxRow>, ticks: seq<Tick>, i: nat)
    requires
      || (forall j :: 0 <= j < |ticks| ==> ticks[j].outcome != BrokerFailed(true))
      || (forall a, b :: 0 <= a < b < |ticks| && ticks[a].outcome.BrokerFailed? ==>
            ticks[b].now < ticks[a].failedAt + 2000)
    ensures !SentTwice(rows, ticks, i)
  {
    SentTwiceExactly(rows, ticks, i);
    if a, b :| UnheardThenTaken(rows, ticks, i, a, b) {
      OldestIsVisited(rows, ticks, i, a);
      OldestIsVisited(rows, ticks, i, b);
      var c := LastVisitBefore(Visits(rows, ticks), i, a, b);
      RevisitedMeansFailed(rows, ticks, c, b);
      ReachedAgainExactly(rows, ticks, i, c, b);
      BackoffIsTwoSecondsAtLeast(RowsAt(rows, ticks, c)[i].attempts + 1);
    }
  }

  function FreshRow(m: Message): OutboxRow { OutboxRow(m, false, 0, 0) }

  /**
   * And it does happen: two fresh rows, a broker that accepts the first and stays
   * silent, and a second emit that times out too. The first row's two seconds are
   * over by then, and the pass sends it again: no crash, no database error, one relay.
   */
  lemma {:induction false} SilentBrokerSendsTwice(m: Message, n: Message, now: nat)
    ensures var timeout := 5000;
      var ticks := [Tick(now, {}, BrokerFailed(true), now + timeout),
                    Tick(now + timeout, {}, BrokerFailed(false), now + 2 * timeout),
                    Tick(now + 2 * timeout, {}, Accepted, now + 2 * timeout)];
      Pass([FreshRow(m), FreshRow(n)], ticks).1 == [0, 0] && SentTwice([FreshRow(m), FreshRow(n)], ticks, 0)
  {
    var first := Tick(now, {}, BrokerFailed(true), now + 5000);
    var second := Tick(now + 5000, {}, BrokerFailed(false), now + 10000);
    var third := Tick(now + 10000, {}, Accepted, now + 10000);
    assert Pow2(1) == 2 * Pow2(0) == 2;
    var rows0 := [FreshRow(m), FreshRow(n)];
    var rows1 := rows0[0 := Settled(rows0[0], first)];
    var rows2 := rows1[1 := Settled(rows1[1], second)];
    assert FirstFrom(rows0, first, 0) == 0;
    assert !Eligible(rows1, second, 0);
    assert FirstFrom(rows1, second, 0) == 1;
    assert FirstFrom(rows2, third, 0) == 0;
    assert [first, second, third][1..] == [second, third] && [second, third][1..] == [third] && [third][1..] == [];
    assert Pass(rows2, [third]).1 == [0];
    assert Pass(rows1, [second, third]).1 == [0];
    var sent := Pass(rows0, [first, second, third]).1;
    assert sent == [0, 0] && sent[0] == 0 && sent[1] == 0;
  }

  /** One iteration is a relay of the delivery system claiming the row, publishing it and marking it or dying. */
  lemma {:induction false} IterationIsARelayRun(d: D.Delivery, relay: nat, id: D.RowId, rows: seq<OutboxRow>,
                                                t: Tick, i: nat)
    requires i < |rows| && Eligible(rows, t, i)
    requires D.Enabled(d, D.ClaimRow(relay, id)) && D.SendingOf(d, id) == D.Sending(rows[i].published, rows[i].attempts)
    ensures var end := if t.outcome.DatabaseFailed? then D.RelayDies(relay) else D.MarkRow(relay);
      var run := [D.ClaimRow(relay, id), D.Publish(relay, TakenByBroker(t), t.outcome.Accepted?), end];
      && D.Feasible(d, run)
      && var s := Settled(rows[i], t);
      && D.SendingOf(D.After(d, run), id) == D.Sending(s.published, s.attempts)
      && D.After(d, run).relays == d.relays
  {
    var end := if t.outcome.DatabaseFailed? then D.RelayDies(relay) else D.MarkRow(relay);
    ClaimAndPublish(d, relay, id, TakenByBroker(t), t.outcome.Accepted?);
    ThreeSteps(d, D.ClaimRow(relay, id), D.Publish(relay, TakenByBroker(t), t.outcome.Accepted?), end);
  }

  lemma {:induction false} ClaimAndPublish(d: D.Delivery, relay: nat, id: D.RowId, accepted: bool, confirmed: bool)
    requires D.Enabled(d, D.ClaimRow(relay, id)) && (confirmed ==> accepted)
    ensures var d1 := D.Change(d, D.ClaimRow(relay, id)); var publish := D.Publish(relay, accepted, confirmed);
      && D.Enabled(d1, publish)
      && var d2 := D.Change(d1, publish);
      && d2.rows == d.rows
      && d2.relays == d.relays[relay := D.Relay(id, if confirmed then D.Confirmed else D.Unheard)]
  {
  }

  lemma {:induction false} ThreeSteps(d: D.Delivery, a: D.Event, b: D.Event, c: D.Event)
    requires D.Enabled(d, a) && D.Enabled(D.Change(d, a), b) && D.Enabled(D.Change(D.Change(d, a), b), c)
    ensures D.Feasible(d, [a, b, c]) && D.After(d, [a, b, c]) == D.Change(D.Change(D.Change(d, a), b), c)
  {
    var d1 := D.Change(d, a);
    var d2 := D.Change(d1, b);
    D.OneMoreStep(d2, c, []);
    D.OneMoreStep(d1, b, [c]);
    D.OneMoreStep(d, a, [b, c]);
    assert [c] + [] == [c] && [b] + [c] == [b, c] && [a] + [b, c] == [a, b, c];
  }

  // ---------------------------------------------------------- the relay itself

  class Relay {
    var rows: seq<OutboxRow>
    var sent: seq<nat>
    var draining: bool

    constructor (rows: seq<OutboxRow>)
      ensures this.rows == rows && sent == [] && !draining
    {
      this.rows := rows;
      sent := [];
      draining := false;
    }

    /** SELECT ... ORDER BY created_at LIMIT 1 FOR UPDATE SKIP LOCKED. */
    method NextRow(t: Tick) returns (k: nat)
      ensures k == FirstFrom(rows, t, 0)
    {
      k := 0;
      while k < |rows| && !Eligible(rows, t, k)
        invariant k <= |rows| && FirstFrom(rows, t, k) == FirstFrom(rows, t, 0)
      {
        k := k + 1;
      }
    }

    /** What one iteration does to the row it takes up. */
    method PublishOne(t: Tick, k: nat) returns (ok: bool)
      requires k < |rows|
      modifies this`rows, this`sent
      ensures ok <==> !t.outcome.DatabaseFailed?
      ensures rows == old(rows)[k := Settled(old(rows)[k], t)]
      ensures var row := old(rows)[k];
        match t.outcome
        case Accepted => rows[k] == OutboxRow(row.message, true, row.attempts + 1, row.nextAttemptAt)
        case BrokerFailed(_) =>
          rows[k] == OutboxRow(row.message, row.published, row.attempts + 1, t.failedAt + Backoff(row.attempts + 1))
        case DatabaseFailed(_) => rows == old(rows)
      ensures sent == old(sent) + if TakenByBroker(t) then [k] else []
    {
      // The broker's side of it, whatever the relay gets to hear.
      sent := sent + if TakenByBroker(t) then [k] else [];
      match t.outcome {
        case DatabaseFailed(_) =>
          return false;
        case BrokerFailed(_) =>
          var attempts := rows[k].attempts + 1;
          rows := rows[k := rows[k].(attempts := attempts, nextAttemptAt := t.failedAt + Backoff(attempts))];
        case Accepted =>
          rows := rows[k := rows[k].(published := true, attempts := rows[k].attempts + 1)];
      }
      ok := true;
    }

    /** `ok` is false when a database error left the pass. */
    method PublishBatch(ticks: seq<Tick>) returns (ok: bool)
      requires |ticks| == BATCH_SIZE
      modifies this`rows, this`sent
      ensures rows == Pass(old(rows), ticks).0 && sent == old(sent) + Pass(old(rows), ticks).1
    {
      var index := 0;
      while index < BATCH_SIZE
        invariant index <= BATCH_SIZE
        invariant Pass(old(rows), ticks).0 == Pass(rows, ticks[index..]).0
        invariant old(sent) + Pass(old(rows), ticks).1 == sent + Pass(rows, ticks[index..]).1
        decreases BATCH_SIZE - index
      {
        var t := ticks[index];
        var k := NextRow(t);
        assert ticks[index..][0] == t && ticks[index..][1..] == ticks[index + 1..];
        if k == |rows| {
          return true;
        }
        PassUnfolds(rows, ticks[index..]);
        ok := PublishOne(t, k);
        if !ok {
          return;
        }
        index := index + 1;
      }
      return true;
    }

    /** A pass that overruns the tick is not joined by the next one; an error does not leave the flag set. */
    method Drain(ticks: seq<Tick>)
      requires |ticks| == BATCH_SIZE
      modifies this
      ensures draining == old(draining)
      ensures if old(draining) then rows == old(rows) && sent == old(sent)
              else rows == Pass(old(rows), ticks).0 && sent == old(sent) + Pass(old(rows), ticks).1
    {
      if draining {
        return;
      }
      draining := true;
      var _ := PublishBatch(ticks);
      draining := false;
    }
  }
}
