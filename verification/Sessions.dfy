/**
 * Ambient transactions and the per-payment lock, as the runners nest: a
 * transaction inside a transaction joins it, work under a lock already held by
 * the same flow joins that too, and everything else commits or fails by itself.
 */
module Sessions {
  import opened Wrappers

  /** A piece of work, as far as transactions and locks are concerned. */
  datatype Work =
    | Write(key: string, value: string)
    | BadStatement
    | Throw
    | Then(first: Work, second: Work)
    | Catching(body: Work)
    | Transaction(body: Work)
    | Exclusive(reference: string, body: Work)

  type Store = map<string, string>

  /** An open transaction: its own view, and whether a failed statement has aborted it. */
  datatype Tx = Tx(view: Store, aborted: bool)

  /** `pending` is the ambient transaction; `active` the reference this flow already runs under. */
  datatype Session = Session(committed: Store, pending: Option<Tx>, active: Option<string>, locks: set<string>)

  function Eval(s: Session, w: Work): (Session, bool)
    decreases w
  {
    match w
    case Write(k, v) =>
      (match s.pending
       case Some(tx) => if tx.aborted then (s, false) else (s.(pending := Some(tx.(view := tx.view[k := v]))), true)
       case None => (s.(committed := s.committed[k := v]), true))
    case BadStatement =>
      (match s.pending
       case Some(tx) => (s.(pending := Some(tx.(aborted := true))), false)
       case None => (s, false))
    case Throw => (s, false)
    case Then(a, b) => var (t, ok) := Eval(s, a); if ok then Eval(t, b) else (t, false)
    case Catching(body) => (Eval(s, body).0, true)
    case Transaction(body) =>
      if s.pending.Some? then Eval(s, body)
      else
        var (t, ok) := Eval(s.(pending := Some(Tx(s.committed, false))), body);
        // Committing an aborted transaction rolls it back, and says nothing of it.
        var commits := ok && t.pending.Some? && !t.pending.value.aborted;
        (t.(committed := if commits then t.pending.value.view else t.committed, pending := None), ok)
    case Exclusive(r, body) =>
      if s.active == Some(r) then Eval(s, body)
      else if r in s.locks then (s, false)
      else
        var (t, ok) := Eval(s.(active := Some(r), locks := s.locks + {r}), body);
        (t.(active := s.active, locks := t.locks - {r}), ok)
  }

  // --------------------------------------------------------------- guarantees

  /** However it ends, work gives back every lock it took and the ambient state it ran under. */
  lemma {:induction false} NothingLeaks(s: Session, w: Work)
    ensures var t := Eval(s, w).0;
      t.locks == s.locks && t.active == s.active && (t.pending.Some? <==> s.pending.Some?)
    decreases w
  {
    match w
    case Then(a, b) =>
      NothingLeaks(s, a);
      NothingLeaks(Eval(s, a).0, b);
    case Catching(body) => NothingLeaks(s, body);
    case Transaction(body) =>
      NothingLeaks(s, body);
      NothingLeaks(s.(pending := Some(Tx(s.committed, false))), body);
    case Exclusive(r, body) =>
      NothingLeaks(s, body);
      NothingLeaks(s.(active := Some(r), locks := s.locks + {r}), body);
    case _ =>
  }

  /** Inside a transaction nothing is committed, whatever runs and however it is nested. */
  lemma {:induction false} OnlyTheOutermostCommits(s: Session, w: Work)
    requires s.pending.Some?
    ensures Eval(s, w).0.committed == s.committed
    decreases w
  {
    match w
    case Then(a, b) =>
      OnlyTheOutermostCommits(s, a);
      NothingLeaks(s, a);
      OnlyTheOutermostCommits(Eval(s, a).0, b);
    case Catching(body) => OnlyTheOutermostCommits(s, body);
    case Transaction(body) => OnlyTheOutermostCommits(s, body);
    case Exclusive(r, body) =>
      OnlyTheOutermostCommits(s, body);
      OnlyTheOutermostCommits(s.(active := Some(r), locks := s.locks + {r}), body);
    case _ =>
  }

  /**
   * An outermost transaction commits exactly the view its work ends with, or, thrown out of or
   * aborted, nothing at all.
   */
  lemma {:induction false} AllOrNothing(s: Session, body: Work)
    requires s.pending.None?
    ensures var inside := Eval(s.(pending := Some(Tx(s.committed, false))), body);
      var (t, ok) := Eval(s, Transaction(body));
      && inside.0.pending.Some?
      && t == s.(committed := if ok && !inside.0.pending.value.aborted then inside.0.pending.value.view
          else s.committed)
      && ok == inside.1
  {
    var start := s.(pending := Some(Tx(s.committed, false)));
    NothingLeaks(start, body);
    OnlyTheOutermostCommits(start, body);
  }

  /** A lock someone else holds turns the work away before it has done anything. */
  lemma {:induction false} LockedOut(s: Session, r: string, body: Work)
    requires r in s.locks && s.active != Some(r)
    ensures Eval(s, Exclusive(r, body)) == (s, false)
  {
  }

  /** The work with every lock on `r` that it takes of its own accord left out; under another lock it is as it was. */
  function Unlocked(w: Work, r: string): Work {
    match w
    case Then(a, b) => Then(Unlocked(a, r), Unlocked(b, r))
    case Catching(body) => Catching(Unlocked(body, r))
    case Transaction(body) => Transaction(Unlocked(body, r))
    case Exclusive(q, body) => if q == r then Unlocked(body, r) else w
    case _ => w
  }

  /** The work takes no lock at all. */
  predicate Lockless(w: Work) {
    match w
    case Then(a, b) => Lockless(a) && Lockless(b)
    case Catching(body) => Lockless(body)
    case Transaction(body) => Lockless(body)
    case Exclusive(_, _) => false
    case _ => true
  }

  /** Under its own lock a flow may ask for it again, anywhere and any number of times: it makes no difference. */
  lemma {:induction false} OwnLockIsJoined(s: Session, w: Work, r: string)
    requires s.active == Some(r)
    ensures Eval(s, w) == Eval(s, Unlocked(w, r))
    decreases w
  {
    match w
    case Then(a, b) =>
      OwnLockIsJoined(s, a, r);
      NothingLeaks(s, a);
      OwnLockIsJoined(Eval(s, a).0, b, r);
    case Catching(body) => OwnLockIsJoined(s, body, r);
    case Transaction(body) =>
      OwnLockIsJoined(s, body, r);
      OwnLockIsJoined(s.(pending := Some(Tx(s.committed, false))), body, r);
    case Exclusive(q, body) =>
      if q == r {
        OwnLockIsJoined(s, body, r);
      }
    case _ =>
  }

  /** Asking for one's own lock twice is asking for it once: every saga command nests this way. */
  lemma {:induction false} LockingTwiceIsLockingOnce(s: Session, r: string, body: Work)
    ensures Eval(s, Exclusive(r, Exclusive(r, body))) == Eval(s, Exclusive(r, body))
  {
    OwnLockIsJoined(s.(active := Some(r), locks := s.locks + {r}), Exclusive(r, body), r);
    OwnLockIsJoined(s.(active := Some(r), locks := s.locks + {r}), body, r);
    assert Unlocked(Exclusive(r, body), r) == Unlocked(body, r);
  }

  /** Work that takes no lock does not depend on who holds which. */
  lemma {:induction false} LocklessIgnoresLocks(s: Session, w: Work, active: Option<string>, locks: set<string>)
    requires Lockless(w)
    ensures var (t, ok) := Eval(s, w);
      Eval(s.(active := active, locks := locks), w) == (t.(active := active, locks := locks), ok)
    decreases w
  {
    match w
    case Then(a, b) =>
      LocklessIgnoresLocks(s, a, active, locks);
      LocklessIgnoresLocks(Eval(s, a).0, b, active, locks);
    case Catching(body) => LocklessIgnoresLocks(s, body, active, locks);
    case Transaction(body) =>
      LocklessIgnoresLocks(s, body, active, locks);
      LocklessIgnoresLocks(s.(pending := Some(Tx(s.committed, false))), body, active, locks);
    case _ =>
  }

  /**
   * A free lock changes nothing about the work done under it: result, committed
   * writes, open transaction and locks afterwards are those of the same work with
   * neither this lock nor any nested request for it.
   */
  lemma {:induction false} FreeLockAddsNothing(s: Session, r: string, body: Work)
    requires r !in s.locks && Lockless(Unlocked(body, r))
    ensures Eval(s, Exclusive(r, body)) == Eval(s, Unlocked(body, r))
  {
    if s.active == Some(r) {
      OwnLockIsJoined(s, body, r);
    } else {
      var inside := s.(active := Some(r), locks := s.locks + {r});
      OwnLockIsJoined(inside, body, r);
      LocklessIgnoresLocks(s, Unlocked(body, r), Some(r), s.locks + {r});
      NothingLeaks(s, Unlocked(body, r));
      assert s.locks + {r} - {r} == s.locks;
    }
  }

  /**
   * An application error caught inside a joined transaction does not undo what was
   * written before it: there is no savepoint.
   */
  lemma {:induction false} JoiningIsNotNesting(s: Session, k: string, v: string)
    requires s.pending.None? && (k !in s.committed || s.committed[k] != v)
    ensures var inner := Transaction(Then(Write(k, v), Throw));
      && Eval(s, inner).0.committed == s.committed
      && Eval(s, Transaction(Catching(inner))) == (s.(committed := s.committed[k := v]), true)
  {
    var inner := Transaction(Then(Write(k, v), Throw));
    var start := s.(pending := Some(Tx(s.committed, false)));
    var written := start.(pending := Some(Tx(s.committed[k := v], false)));
    assert Eval(start, Then(Write(k, v), Throw)) == (written, false);
    assert Eval(start, inner) == Eval(start, Then(Write(k, v), Throw));
    assert Eval(start, Catching(inner)) == (written, true);
  }

  /**
   * A failed statement is another matter: it aborts the whole transaction, and one
   * that is caught inside lets the outer run report success with nothing written.
   */
  lemma {:induction false} CaughtStatementLosesEverything(s: Session, k: string, v: string)
    requires s.pending.None?
    ensures Eval(s, Transaction(Catching(Transaction(Then(Write(k, v), BadStatement))))) == (s, true)
  {
    var start := s.(pending := Some(Tx(s.committed, false)));
    var aborted := start.(pending := Some(Tx(s.committed[k := v], true)));
    var inner := Transaction(Then(Write(k, v), BadStatement));
    assert Eval(start, Then(Write(k, v), BadStatement)) == (aborted, false);
    assert Eval(start, inner) == Eval(start, Then(Write(k, v), BadStatement));
    assert Eval(start, Catching(inner)) == (aborted, true);
  }

  // ------------------------------------------------------------- as it is run

  class Runner {
    var committed: Store
    var pending: Option<Tx>
    var active: Option<string>
    var locks: set<string>

    constructor ()
      ensures State() == Session(map[], None, None, {})
    {
      committed, pending, active, locks := map[], None, None, {};
    }

    function State(): Session
      reads this
    {
      Session(committed, pending, active, locks)
    }

    method Run(w: Work) returns (ok: bool)
      modifies this
      ensures (State(), ok) == Eval(old(State()), w)
      decreases w, 0
    {
      match w
      case Write(k, v) =>
        if pending.None? {
          committed := committed[k := v];
          return true;
        }
        if pending.value.aborted {
          return false;
        }
        pending := Some(pending.value.(view := pending.value.view[k := v]));
        return true;
      case BadStatement =>
        if pending.Some? {
          pending := Some(pending.value.(aborted := true));
        }
        return false;
      case Throw =>
        return false;
      case Then(a, b) =>
        ok := Run(a);
        if ok {
          ok := Run(b);
        }
      case Catching(body) =>
        var _ := Run(body);
        return true;
      case Transaction(body) =>
        ok := RunTransaction(body);
      case Exclusive(r, body) =>
        ok := RunExclusive(r, body);
    }

    /** TransactionContext.run. */
    method RunTransaction(body: Work) returns (ok: bool)
      modifies this
      ensures (State(), ok) == Eval(old(State()), Transaction(body))
      decreases body, 1
    {
      if pending.Some? {
        ok := Run(body);
        return;
      }
      pending := Some(Tx(committed, false));
      ok := Run(body);
      if ok && pending.Some? && !pending.value.aborted {
        committed := pending.value.view;
      }
      pending := None;
    }

    /** PostgresPaymentExecution.run: try the lock, and release it whatever happens. */
    method RunExclusive(reference: string, body: Work) returns (ok: bool)
      modifies this
      ensures (State(), ok) == Eval(old(State()), Exclusive(reference, body))
      decreases body, 1
    {
      if active == Some(reference) {
        ok := Run(body);
        return;
      }
      if reference in locks {
        return false;
      }
      var outer := active;
      active, locks := Some(reference), locks + {reference};
      ok := Run(body);
      active, locks := outer, locks - {reference};
    }
  }
}
