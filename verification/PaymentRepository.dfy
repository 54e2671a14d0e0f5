/**
 * The payments table behind its repository. Every loaded or saved object
 * remembers the version it stands for, and a save goes through only against
 * that version.
 */
module PaymentRepository {
  import opened Wrappers
  import opened PaymentDomain
  import opened WorkerProgram
  import opened SagaProtocol
  import opened Powers

  datatype PaymentRow = PaymentRow(order: Order, snapshot: Snapshot, version: nat, attempts: nat, nextAttemptAt: nat)

  type Table = map<string, PaymentRow>

  /** One save: an INSERT when the object has no revision yet, otherwise an UPDATE guarded by it. */
  function SaveRow(t: Table, revision: Option<nat>, o: Order, s: Snapshot, now: nat): (Table, bool) {
    match revision
    case None =>
      if o.reference in t || exists q :: q in t && t[q].order.transactionId == o.transactionId then (t, false)
      else (t[o.reference := PaymentRow(o, s, 1, 0, now)], true)
    case Some(v) =>
      if o.reference in t && t[o.reference].version == v
      then (t[o.reference := t[o.reference].(snapshot := s, version := v + 1)], true)
      else (t, false)
  }

  lemma {:induction false} LargePowers(n: nat)
    ensures n >= 6 ==> Pow2(n) >= 64
    ensures Pow2(0) == 1 && Pow2(1) == 2 && Pow2(2) == 4 && Pow2(3) == 8 && Pow2(4) == 16 && Pow2(5) == 32
  {
    assert Pow2(6) == 2 * Pow2(5);
    if n > 6 {
      LargePowers(n - 1);
    }
  }

  /** Minutes double from one to an hour: 60 * 2^attempts seconds, at most 3600, on the count before this attempt. */
  function RecoveryDelay(attempts: nat): (seconds: nat)
    ensures seconds == if 60 * Pow2(attempts) < 3600 then 60 * Pow2(attempts) else 3600
  {
    LargePowers(attempts);
    match attempts
    case 0 => 60
    case 1 => 120
    case 2 => 240
    case 3 => 480
    case 4 => 960
    case 5 => 1920
    case _ => 3600
  }

  class Repository {
    var rows: Table
    var revisions: map<Payment, nat>

    constructor ()
      ensures rows == map[] && revisions == map[]
    {
      rows, revisions := map[], map[];
    }

    function RevisionOf(p: Payment): Option<nat>
      reads this
    {
      if p in revisions then Some(revisions[p]) else None
    }

    /** False stands for ConcurrentPaymentError. */
    method Save(p: Payment, now: nat) returns (ok: bool)
      modifies this
      ensures (rows, ok) == SaveRow(old(rows), old(RevisionOf(p)), p.order, p.ToSnapshot(), now)
      ensures p !in old(revisions) ==>
                (ok <==> p.order.reference !in old(rows)
                         && forall q :: q in old(rows) ==> old(rows)[q].order.transactionId != p.order.transactionId)
      ensures p in old(revisions) ==>
                (ok <==> p.order.reference in old(rows) && old(rows)[p.order.reference].version == old(revisions)[p])
      ensures !ok ==> rows == old(rows)
      ensures ok && p !in old(revisions) ==>
                rows == old(rows)[p.order.reference := PaymentRow(p.order, p.ToSnapshot(), 1, 0, now)]
      ensures ok && p in old(revisions) ==>
                rows == old(rows)[p.order.reference := old(rows)[p.order.reference]
                  .(snapshot := p.ToSnapshot(), version := old(revisions)[p] + 1)]
      ensures revisions == if ok then old(revisions)[p := rows[p.order.reference].version] else old(revisions)
      ensures ok ==> p.order.reference in rows && rows[p.order.reference].snapshot == p.ToSnapshot()
    {
      var reference := p.order.reference;
      if p !in revisions {
        var taken := reference in rows || exists q :: q in rows && rows[q].order.transactionId == p.order.transactionId;
        if taken {
          return false;
        }
        rows := rows[reference := PaymentRow(p.order, p.ToSnapshot(), 1, 0, now)];
        revisions := revisions[p := 1];
        return true;
      }
      var revision := revisions[p];
      if reference !in rows || rows[reference].version != revision {
        return false;
      }
      rows := rows[reference := rows[reference].(snapshot := p.ToSnapshot(), version := revision + 1)];
      revisions := revisions[p := revision + 1];
      ok := true;
    }

    /** Every read yields an object of its own, tied to the version it was read at. */
    method FindByReference(reference: string) returns (p: Payment?)
      modifies this`revisions
      ensures p != null <==> reference in rows
      ensures p != null ==>
                && fresh(p) && p.order == rows[reference].order && p.ToSnapshot() == rows[reference].snapshot
                && revisions == old(revisions)[p := rows[reference].version]
      ensures p == null ==> revisions == old(revisions)
    {
      if reference !in rows {
        return null;
      }
      p := new Payment.Restore(rows[reference].order, rows[reference].snapshot);
      revisions := revisions[p := rows[reference].version];
    }

    /** Bookkeeping of the recovery job: it touches neither the snapshot nor the version. */
    method RecordRecoveryAttempt(reference: string, now: nat) returns (attempts: nat)
      modifies this`rows
      ensures reference !in old(rows) ==> rows == old(rows) && attempts == 0
      ensures reference in old(rows) ==>
                && attempts == old(rows)[reference].attempts + 1
                && rows == old(rows)[reference :=
                     old(rows)[reference].(attempts := attempts, nextAttemptAt := now + RecoveryDelay(attempts - 1))]
    {
      if reference !in rows {
        return 0;
      }
      var row := rows[reference];
      attempts := row.attempts + 1;
      rows := rows[reference := row.(attempts := attempts, nextAttemptAt := now + RecoveryDelay(row.attempts))];
    }
  }

  /** Two objects read from one row: whichever saves first shuts the other out. */
  method LoseTheRace(r: Repository, reference: string, now: nat) returns (first: bool, second: bool)
    requires reference in r.rows && r.rows[reference].order.reference == reference
    modifies r
    ensures first && !second
    ensures r.rows == old(r.rows)[reference := old(r.rows)[reference].(version := old(r.rows)[reference].version + 1)]
  {
    var p := r.FindByReference(reference);
    var q := r.FindByReference(reference);
    first := r.Save(p, now);
    second := r.Save(q, now);
  }

  // ------------------------------------------------- saves of one row in a row

  /** An attempt to save the row `reference`, from whatever revision its object holds. */
  datatype Attempt = Attempt(revision: nat, snapshot: Snapshot)

  function AfterSaves(t: Table, o: Order, attempts: seq<Attempt>): Table
    decreases |attempts|
  {
    if attempts == [] then t
    else AfterSaves(SaveRow(t, Some(attempts[0].revision), o, attempts[0].snapshot, 0).0, o, attempts[1..])
  }

  predicate Wins(t: Table, o: Order, attempts: seq<Attempt>, i: nat)
    requires i < |attempts|
  {
    SaveRow(AfterSaves(t, o, attempts[..i]), Some(attempts[i].revision), o, attempts[i].snapshot, 0).1
  }

  function VersionOf(t: Table, o: Order): nat { if o.reference in t then t[o.reference].version else 0 }

  lemma {:induction false} SavesAppend(t: Table, o: Order, attempts: seq<Attempt>, a: Attempt)
    ensures AfterSaves(t, o, attempts + [a])
              == SaveRow(AfterSaves(t, o, attempts), Some(a.revision), o, a.snapshot, 0).0
    decreases |attempts|
  {
    if attempts == [] {
      assert [a][1..] == [] && ([] + [a])[0] == a;
      assert attempts + [a] == [a];
    } else {
      var next := SaveRow(t, Some(attempts[0].revision), o, attempts[0].snapshot, 0).0;
      SavesAppend(next, o, attempts[1..], a);
      assert (attempts + [a])[1..] == attempts[1..] + [a];
    }
  }

  lemma {:induction false} VersionsOnlyRise(t: Table, o: Order, attempts: seq<Attempt>, i: nat, j: nat)
    requires i <= j <= |attempts|
    ensures VersionOf(AfterSaves(t, o, attempts[..i]), o) <= VersionOf(AfterSaves(t, o, attempts[..j]), o)
    decreases j - i
  {
    if i < j {
      VersionsOnlyRise(t, o, attempts, i, j - 1);
      assert attempts[..j] == attempts[..j - 1] + [attempts[j - 1]];
      SavesAppend(t, o, attempts[..j - 1], attempts[j - 1]);
    }
  }

  /** However saves interleave, no two of them succeed from the same revision: no update is ever lost. */
  lemma {:induction false} EachRevisionIsUsedOnce(t: Table, o: Order, attempts: seq<Attempt>, i: nat, j: nat)
    requires i < j < |attempts| && Wins(t, o, attempts, i) && Wins(t, o, attempts, j)
    ensures attempts[i].revision < attempts[j].revision
  {
    assert attempts[..i + 1] == attempts[..i] + [attempts[i]];
    SavesAppend(t, o, attempts[..i], attempts[i]);
    VersionsOnlyRise(t, o, attempts, i + 1, j);
  }

  /** The protocol's commit is this save, with its messages. */
  lemma {:induction false} CommitIsASave(l: Local, w: Worker, t: Table)
    requires Ready(w) && NextWant(l.order, w).WantSave?
    requires l.order.reference in t
    requires t[l.order.reference].snapshot == l.stored && t[l.order.reference].version == l.version
    ensures var s := NextWant(l.order, w).snapshot;
      var (t', ok) := SaveRow(t, Some(w.revision), l.order, s, 0);
      && ok == (l.version == w.revision)
      && t'[l.order.reference].snapshot == Commit(l, w).stored
      && t'[l.order.reference].version == Commit(l, w).version
      && Commit(l, w).outbox == l.outbox + if ok then NextWant(l.order, w).messages else []
  {
  }
}
