/**
 The database as readers and the single writer see it: a committed table, at most one
 open write transaction with its private copy, and the history of what was ever
 committed. Assumed of SQLite: writers are serialized, a reader sees one committed
 table, and the AUTOINCREMENT counter rolls back with its transaction.
 */
module Transactions {
  import opened Wrappers
  import opened Notes
  import opened Store

  datatype Event = Stored(row: Row) | Removed(row: Row)

  datatype Txn = Txn(work: Store, effects: seq<Event>)

  datatype Db = Db(committed: Store, txn: Option<Txn>, log: seq<Event>)

  datatype DbAction =
    | Begin
    | InsertNote(note: NewNote)
    | DeleteOlder(cutoff: I64)
    | Commit
    | Rollback

  const EMPTY_DB: Db := Db(EMPTY, None, [])

  function Removals(rows: seq<Row>): seq<Event> {
    seq(|rows|, i requires 0 <= i < |rows| => Removed(rows[i]))
  }

  /** One step of the database; an action that is not enabled leaves it as it is. */
  function DbStep(d: Db, a: DbAction): Db {
    match a
    case Begin => if d.txn.None? then d.(txn := Some(Txn(d.committed, []))) else d
    case InsertNote(n) =>
      if d.txn.None? then d
      else (
        match Insert(d.txn.value.work, n)
        case Err(_) => d.(txn := None)
        case Ok(s) => d.(txn := Some(Txn(s, d.txn.value.effects + [Stored(ToRow(n, s.counter))]))))
    case DeleteOlder(cutoff) =>
      if d.txn.None? then d
      else
        var t := d.txn.value;
        d.(txn := Some(Txn(Cleanup(t.work, cutoff), t.effects + Removals(Expired(t.work, cutoff)))))
    case Commit =>
      if d.txn.None? then d else Db(d.txn.value.work, None, d.log + d.txn.value.effects)
    case Rollback => d.(txn := None)
  }

  function DbRun(d: Db, actions: seq<DbAction>): Db {
    if actions == [] then d
    else DbStep(DbRun(d, actions[..|actions| - 1]), actions[|actions| - 1])
  }

  // ------------------------------------------------------------------ the history

  /** Keys in the history ascend in commit order and stay within the counter. */
  ghost predicate InOrder(log: seq<Event>, counter: nat) {
    && (forall i | 0 <= i < |log| && log[i].Stored? :: 1 <= log[i].row.seqno <= counter)
    && (forall i, j | 0 <= i < j < |log| && log[i].Stored? && log[j].Stored? ::
          log[i].row.seqno < log[j].row.seqno)
  }

  /** The live rows are those stored and not removed, and each removal follows its store. */
  ghost predicate LiveRows(log: seq<Event>, rows: seq<Row>) {
    && (forall r :: r in rows <==> Stored(r) in log && Removed(r) !in log)
    && (forall j | 0 <= j < |log| && log[j].Removed? :: Stored(log[j].row) in log[..j])
  }

  /** Two stores of one id have a removal of the first in between. */
  ghost predicate RemovedBetween(log: seq<Event>, r: Row, i: nat, j: nat) {
    exists k :: i < k < j <= |log| && log[k] == Removed(r)
  }

  ghost predicate IdsReusedAfterRemoval(log: seq<Event>) {
    forall i, j | 0 <= i < j < |log| && log[i].Stored? && log[j].Stored? && log[i].row.id == log[j].row.id ::
      RemovedBetween(log, log[i].row, i, j)
  }

  /** Stores less removals in a history. */
  function Balance(log: seq<Event>): int {
    if log == [] then 0
    else Balance(log[..|log| - 1]) + if log[|log| - 1].Stored? then 1 else -1
  }

  ghost predicate History(log: seq<Event>, s: Store) {
    && InOrder(log, s.counter)
    && LiveRows(log, s.rows)
    && IdsReusedAfterRemoval(log)
    && Balance(log) == |s.rows|
  }

  ghost predicate StoredAbove(events: seq<Event>, counter: nat) {
    forall e | e in events && e.Stored? :: e.row.seqno > counter
  }

  /** An open transaction: the history its commit would make, and only keys above the committed counter. */
  ghost predicate TxnInv(log: seq<Event>, counter: nat, t: Txn) {
    && Valid(t.work)
    && History(log + t.effects, t.work)
    && counter <= t.work.counter
    && StoredAbove(t.effects, counter)
  }

  ghost predicate DbInv(d: Db) {
    && Valid(d.committed)
    && History(d.log, d.committed)
    && (d.txn.Some? ==> TxnInv(d.log, d.committed.counter, d.txn.value))
  }

  lemma {:induction false} BalanceOfRemovals(log: seq<Event>, gone: seq<Row>)
    ensures Balance(log + Removals(gone)) == Balance(log) - |gone|
  {
    if gone == [] {
      assert log + Removals(gone) == log;
    } else {
      var front := gone[..|gone| - 1];
      BalanceOfRemovals(log, front);
      assert (log + Removals(gone))[..|log| + |gone| - 1] == log + Removals(front);
    }
  }

  lemma FreshKey(log: seq<Event>, s: Store, r: Row)
    requires InOrder(log, s.counter) && LiveRows(log, s.rows) && r.seqno > s.counter
    ensures Stored(r) !in log && Removed(r) !in log
  {
  }

  lemma InsertKeepsLive(log: seq<Event>, s: Store, r: Row)
    requires InOrder(log, s.counter) && LiveRows(log, s.rows) && r.seqno > s.counter
    ensures LiveRows(log + [Stored(r)], s.rows + [r])
  {
    var log' := log + [Stored(r)];
    FreshKey(log, s, r);
    forall j | 0 <= j < |log'| && log'[j].Removed? ensures Stored(log'[j].row) in log'[..j] {
      assert log'[..j] == log[..j];
    }
  }

  /** An id that is not live but was stored has been removed since. */
  lemma RemovedSince(log: seq<Event>, s: Store, i: nat)
    requires InOrder(log, s.counter) && LiveRows(log, s.rows)
    requires i < |log| && log[i].Stored? && log[i].row !in s.rows
    ensures RemovedBetween(log, log[i].row, i, |log|)
  {
  }

  lemma RemovedBetweenGrows(log: seq<Event>, more: seq<Event>, r: Row, i: nat, j: nat)
    requires RemovedBetween(log, r, i, j)
    ensures RemovedBetween(log + more, r, i, j)
  {
    var k :| i < k < j <= |log| && log[k] == Removed(r);
    assert (log + more)[k] == Removed(r);
  }

  lemma InsertKeepsReuse(log: seq<Event>, s: Store, r: Row)
    requires InOrder(log, s.counter) && LiveRows(log, s.rows) && IdsReusedAfterRemoval(log)
    requires !HasId(s.rows, r.id)
    ensures IdsReusedAfterRemoval(log + [Stored(r)])
  {
    var log' := log + [Stored(r)];
    forall i, j | 0 <= i < j < |log'| && log'[i].Stored? && log'[j].Stored? && log'[i].row.id == log'[j].row.id
      ensures RemovedBetween(log', log'[i].row, i, j)
    {
      if j == |log| {
        RemovedSince(log, s, i);
      }
      RemovedBetweenGrows(log, [Stored(r)], log[i].row, i, j);
    }
  }

  lemma InsertKeepsOrder(log: seq<Event>, counter: nat, r: Row)
    requires InOrder(log, counter) && r.seqno == counter + 1
    ensures InOrder(log + [Stored(r)], counter + 1)
  {
  }

  lemma InsertKeepsHistory(log: seq<Event>, s: Store, n: NewNote)
    requires Valid(s) && History(log, s) && Insert(s, n).Ok?
    ensures History(log + [Stored(ToRow(n, s.counter + 1))], Insert(s, n).value)
  {
    hide InOrder, LiveRows, IdsReusedAfterRemoval, HasId, Valid, Insert;
    InsertedRow(s, n);
    var r := ToRow(n, s.counter + 1);
    InsertKeepsLive(log, s, r);
    InsertKeepsReuse(log, s, r);
    InsertKeepsOrder(log, s.counter, r);
    assert (log + [Stored(r)])[..|log|] == log;
  }

  lemma InsertedRow(s: Store, n: NewNote)
    requires Insert(s, n).Ok?
    ensures s.counter < I64_MAX && !HasId(s.rows, n.id)
    ensures Insert(s, n).value == Store(s.rows + [ToRow(n, s.counter + 1)], s.counter + 1)
  {
  }

  lemma RemovalsOf(rows: seq<Row>)
    ensures forall e :: e in Removals(rows) <==> e.Removed? && e.row in rows
  {
    forall r | r in rows ensures Removed(r) in Removals(rows) {
      var i :| 0 <= i < |rows| && rows[i] == r;
      assert Removals(rows)[i] == Removed(r);
    }
  }

  lemma RemovalKeepsLive(log: seq<Event>, rows: seq<Row>, gone: seq<Row>, left: seq<Row>)
    requires LiveRows(log, rows)
    requires forall r | r in gone :: r in rows
    requires forall r :: r in left <==> r in rows && r !in gone
    ensures LiveRows(log + Removals(gone), left)
  {
    var log' := log + Removals(gone);
    RemovalsOf(gone);
    forall j | 0 <= j < |log'| && log'[j].Removed? ensures Stored(log'[j].row) in log'[..j] {
      if j < |log| {
        assert log'[..j] == log[..j];
      } else {
        assert log'[j] in Removals(gone);
        assert Stored(log'[j].row) in log;
        assert log'[..j] == log + Removals(gone)[..j - |log|];
      }
    }
  }

  lemma RemovalKeepsReuse(log: seq<Event>, gone: seq<Row>)
    requires IdsReusedAfterRemoval(log)
    ensures IdsReusedAfterRemoval(log + Removals(gone))
  {
    var log' := log + Removals(gone);
    forall i, j | 0 <= i < j < |log'| && log'[i].Stored? && log'[j].Stored? && log'[i].row.id == log'[j].row.id
      ensures RemovedBetween(log', log'[i].row, i, j)
    {
      RemovedBetweenGrows(log, Removals(gone), log[i].row, i, j);
    }
  }

  lemma CleanupKeepsHistory(log: seq<Event>, s: Store, cutoff: int)
    requires Valid(s) && History(log, s)
    ensures History(log + Removals(Expired(s, cutoff)), Cleanup(s, cutoff))
  {
    var gone := Expired(s, cutoff);
    CleanupKeepsValid(s, cutoff);
    RemovalKeepsLive(log, s.rows, gone, Cleanup(s, cutoff).rows);
    RemovalKeepsReuse(log, gone);
    RemovalKeepsOrder(log, s.counter, gone);
    BalanceOfRemovals(log, gone);
  }

  lemma RemovalKeepsOrder(log: seq<Event>, counter: nat, gone: seq<Row>)
    requires InOrder(log, counter)
    ensures InOrder(log + Removals(gone), counter)
  {
  }

  /** A later database: it extends the history and has stored only above the earlier counter. */
  ghost predicate Later(d: Db, d': Db) {
    && d.committed.counter <= d'.committed.counter
    && d.log <= d'.log
    && StoredAbove(d'.log[|d.log|..], d.committed.counter)
  }

  lemma InsertStep(log: seq<Event>, counter: nat, t: Txn, n: NewNote)
    requires TxnInv(log, counter, t) && Insert(t.work, n).Ok?
    ensures TxnInv(log, counter, Txn(Insert(t.work, n).value, t.effects + [Stored(ToRow(n, t.work.counter + 1))]))
  {
    hide History;
    var e := Stored(ToRow(n, t.work.counter + 1));
    InsertKeepsHistory(log + t.effects, t.work, n);
    assert log + (t.effects + [e]) == (log + t.effects) + [e];
  }

  lemma CleanupStep(log: seq<Event>, counter: nat, t: Txn, cutoff: int)
    requires TxnInv(log, counter, t)
    ensures TxnInv(log, counter, Txn(Cleanup(t.work, cutoff), t.effects + Removals(Expired(t.work, cutoff))))
  {
    hide Valid, History, Removals, Expired, StoredAbove, Cleanup;
    var es := Removals(Expired(t.work, cutoff));
    CleanupKeepsValid(t.work, cutoff);
    CleanupKeepsHistory(log + t.effects, t.work, cutoff);
    assert log + (t.effects + es) == (log + t.effects) + es;
    RemovalsStoreNothing(t.effects, Expired(t.work, cutoff), counter);
  }

  lemma RemovalsStoreNothing(effects: seq<Event>, gone: seq<Row>, counter: nat)
    requires StoredAbove(effects, counter)
    ensures StoredAbove(effects + Removals(gone), counter)
  {
  }

  lemma CommitStep(d: Db)
    requires DbInv(d) && d.txn.Some?
    ensures DbInv(DbStep(d, Commit))
    ensures Later(d, DbStep(d, Commit))
  {
    var t := d.txn.value;
    var d' := Db(t.work, None, d.log + t.effects);
    assert DbStep(d, Commit) == d';
    assert d'.log[|d.log|..] == t.effects;
  }

  lemma BeginStep(d: Db)
    requires DbInv(d) && d.txn.None?
    ensures DbInv(DbStep(d, Begin))
  {
    assert d.log + [] == d.log;
    assert TxnInv(d.log, d.committed.counter, Txn(d.committed, []));
  }

  /** Inside a transaction nothing of the committed table or its history changes. */
  lemma OnlyCommitPublishes(d: Db, a: DbAction)
    requires !a.Commit?
    ensures DbStep(d, a).committed == d.committed && DbStep(d, a).log == d.log
  {
  }

  lemma StatementStep(d: Db, a: DbAction)
    requires DbInv(d) && d.txn.Some? && (a.InsertNote? || a.DeleteOlder?)
    ensures DbInv(DbStep(d, a))
  {
    var t := d.txn.value;
    if a.DeleteOlder? {
      CleanupStep(d.log, d.committed.counter, t, a.cutoff);
    } else if Insert(t.work, a.note).Ok? {
      InsertStep(d.log, d.committed.counter, t, a.note);
    }
  }

  lemma LaterRefl(d: Db, d': Db)
    requires d'.committed == d.committed && d'.log == d.log
    ensures Later(d, d')
  {
  }

  /** Each step keeps the invariant and leads to a later database. */
  lemma DbStepKeepsInv(d: Db, a: DbAction)
    requires DbInv(d)
    ensures DbInv(DbStep(d, a))
    ensures Later(d, DbStep(d, a))
  {
    if a.Commit? && d.txn.Some? {
      CommitStep(d);
    } else {
      if a.Begin? && d.txn.None? {
        BeginStep(d);
      } else if (a.InsertNote? || a.DeleteOlder?) && d.txn.Some? {
        StatementStep(d, a);
      }
      LaterRefl(d, DbStep(d, a));
    }
  }

  predicate IsStatement(a: DbAction) {
    a.InsertNote? || a.DeleteOlder?
  }

  /** The statements of a transaction one after the other, or nothing if one is refused. */
  function ApplyAll(s: Store, statements: seq<DbAction>): Option<Store> {
    if statements == [] then Some(s)
    else
      match ApplyAll(s, statements[..|statements| - 1])
      case None => None
      case Some(t) =>
        match statements[|statements| - 1]
        case InsertNote(n) => (match Insert(t, n) case Err(_) => None case Ok(t') => Some(t'))
        case DeleteOlder(cutoff) => Some(Cleanup(t, cutoff))
        case _ => Some(t)
  }

  lemma {:induction false} InsideTransaction(d: Db, statements: seq<DbAction>)
    requires d.txn.None? && forall a | a in statements :: IsStatement(a)
    ensures var mid, all := DbRun(DbStep(d, Begin), statements), ApplyAll(d.committed, statements);
            && mid.committed == d.committed && mid.log == d.log
            && (mid.txn.Some? <==> all.Some?)
            && (mid.txn.Some? ==> mid.txn.value.work == all.value)
  {
    if statements != [] {
      var front, last := statements[..|statements| - 1], statements[|statements| - 1];
      assert last in statements;
      forall a | a in front ensures IsStatement(a) {
        assert a in statements;
      }
      InsideTransaction(d, front);
    }
  }

  /** A transaction is all or nothing: its statements in order, or no change at all if one of them is refused. */
  lemma {:induction false} AllOrNothing(d: Db, statements: seq<DbAction>)
    requires d.txn.None? && forall a | a in statements :: IsStatement(a)
    ensures var d' := DbStep(DbRun(DbStep(d, Begin), statements), Commit);
            && d'.txn.None?
            && match ApplyAll(d.committed, statements)
               case Some(s) => d'.committed == s
               case None => d'.committed == d.committed && d'.log == d.log
    ensures DbStep(DbRun(DbStep(d, Begin), statements), Rollback) == d
  {
    InsideTransaction(d, statements);
  }

  lemma LaterTrans(a: Db, b: Db, c: Db)
    requires Later(a, b) && Later(b, c)
    ensures Later(a, c)
  {
  }

  lemma {:induction false} RunKeepsInv(d: Db, actions: seq<DbAction>)
    requires DbInv(d)
    ensures DbInv(DbRun(d, actions))
    ensures Later(d, DbRun(d, actions))
  {
    if actions != [] {
      var mid := DbRun(d, actions[..|actions| - 1]);
      RunKeepsInv(d, actions[..|actions| - 1]);
      DbStepKeepsInv(mid, actions[|actions| - 1]);
      LaterTrans(d, mid, DbRun(d, actions));
    }
  }

  /**
   Seq order is commit order, over every run: whatever becomes visible after a point
   in time has a key above every key committed by then, also when cleanup deleted the
   top rows or a rolled-back key is issued again.
   */
  lemma {:induction false} CommitOrder(d: Db, actions: seq<DbAction>, r: Row)
    requires DbInv(d)
    requires r in DbRun(d, actions).committed.rows && r !in d.committed.rows
    ensures r.seqno > d.committed.counter
    ensures forall q :: Stored(q) in d.log ==> q.seqno < r.seqno
  {
    RunKeepsInv(d, actions);
    NewRowIsStoredLater(d, DbRun(d, actions), r);
  }

  lemma NewRowIsStoredLater(d: Db, d': Db, r: Row)
    requires LiveRows(d.log, d.committed.rows) && LiveRows(d'.log, d'.committed.rows)
    requires Later(d, d') && InOrder(d.log, d.committed.counter)
    requires r in d'.committed.rows && r !in d.committed.rows
    ensures r.seqno > d.committed.counter
    ensures forall q :: Stored(q) in d.log ==> q.seqno < r.seqno
  {
  }

  /** Nothing that was removed ever comes back, and the rows conserved are counted by the history. */
  lemma {:induction false} ReachableHistory(actions: seq<DbAction>)
    ensures var d := DbRun(EMPTY_DB, actions);
            && Valid(d.committed)
            && History(d.log, d.committed)
  {
    RunKeepsInv(EMPTY_DB, actions);
  }
}
