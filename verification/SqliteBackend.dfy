/**
 The database backend: an object whose committed table changes only when its open
 transaction commits. Each statement is proved to be one step of `Transactions`.
 */
module SqliteBackend {
  import opened Wrappers
  import Filters
  import opened Notes
  import opened Store
  import opened Transactions
  import opened Paging

  const NANOS_PER_DAY: int := 86_400_000_000_000

  class SqliteDatabase {
    const codec: Codec
    var committed: Store
    var txn: Option<Txn>
    ghost var log: seq<Event>

    ghost function View(): Db reads this {
      Db(committed, txn, log)
    }

    ghost predicate Valid() reads this {
      DbInv(View())
    }

    constructor (codec: Codec)
      ensures Valid() && View() == EMPTY_DB && this.codec == codec
    {
      this.codec := codec;
      committed, txn, log := EMPTY, None, [];
    }

    method BeginTransaction()
      requires Valid() && txn.None?
      modifies this
      ensures Valid() && View() == DbStep(old(View()), Begin)
    {
      DbStepKeepsInv(View(), Begin);
      txn := Some(Txn(committed, []));
    }

    method CommitTransaction()
      requires Valid() && txn.Some?
      modifies this
      ensures Valid() && View() == DbStep(old(View()), Commit)
    {
      DbStepKeepsInv(View(), Commit);
      committed, log, txn := txn.value.work, log + txn.value.effects, None;
    }

    method RollbackTransaction()
      requires Valid()
      modifies this
      ensures Valid() && View() == DbStep(old(View()), Rollback)
    {
      DbStepKeepsInv(View(), Rollback);
      txn := None;
    }

    /** The statement of `store_note`; a refused insert leaves the transaction for its caller to roll back. */
    method ExecuteInsert(n: NewNote) returns (res: Result<(), DbError>)
      requires Valid() && txn.Some?
      modifies this`txn
      ensures Valid()
      ensures res.Ok? ==> Insert(old(txn).value.work, n).Ok? && View() == DbStep(old(View()), InsertNote(n))
      ensures res.Err? ==> Insert(old(txn).value.work, n) == Err(res.error) && View() == old(View())
    {
      DbStepKeepsInv(View(), InsertNote(n));
      var t := txn.value;
      match Insert(t.work, n) {
        case Err(e) => res := Err(e);
        case Ok(s) =>
          txn := Some(Txn(s, t.effects + [Stored(ToRow(n, s.counter))]));
          res := Ok(());
      }
    }

    /** The statement of `cleanup_old_notes`, returning the number of deleted rows. */
    method ExecuteDelete(cutoff: I64) returns (count: nat)
      requires Valid() && txn.Some?
      modifies this`txn
      ensures Valid() && View() == DbStep(old(View()), DeleteOlder(cutoff))
      ensures count == |Expired(old(txn).value.work, cutoff)|
    {
      DbStepKeepsInv(View(), DeleteOlder(cutoff));
      var t := txn.value;
      var gone := Expired(t.work, cutoff);
      txn := Some(Txn(Cleanup(t.work, cutoff), t.effects + Removals(gone)));
      count := |gone|;
    }

    /** Any action on the database; an insert that is refused rolls its transaction back. */
    method Perform(act: DbAction)
      requires Valid()
      modifies this
      ensures Valid() && View() == DbStep(old(View()), act)
    {
      hide DbInv;
      match act {
        case Begin => if txn.None? { BeginTransaction(); }
        case InsertNote(n) =>
          if txn.Some? {
            var res := ExecuteInsert(n);
            if res.Err? { RollbackTransaction(); }
          }
        case DeleteOlder(cutoff) =>
          if txn.Some? { var count := ExecuteDelete(cutoff); }
        case Commit => if txn.Some? { CommitTransaction(); }
        case Rollback => RollbackTransaction();
      }
    }

    /** Storing is all or nothing: the note's row under the next key, or an error and no change at all. */
    method StoreNote(note: StoredNote) returns (res: Result<(), DbError>)
      requires Valid() && txn.None?
      modifies this
      ensures Valid() && txn.None?
      ensures var attempt := Insert(old(committed), ToNewNote(codec, note));
              match res
              case Err(e) => attempt == Err(e) && View() == old(View())
              case Ok(_) =>
                attempt.Ok? && View() == Db(attempt.value, None,
                  old(log) + [Stored(ToRow(ToNewNote(codec, note), old(committed).counter + 1))])
    {
      var newNote := ToNewNote(codec, note);
      StoreTransaction(View(), newNote);
      BeginTransaction();
      res := ExecuteInsert(newNote);
      if res.Ok? {
        CommitTransaction();
      } else {
        RollbackTransaction();
      }
    }

    /** Deletes exactly the rows created before `now` less the retention period, and says how many. */
    method CleanupOldNotes(now: Timestamp, retentionDays: U32) returns (deleted: U64)
      requires Valid() && txn.None?
      requires MIN_SECONDS * 1_000_000_000 <= now - retentionDays * NANOS_PER_DAY
      modifies this
      ensures Valid() && txn.None?
      ensures var cutoff := Micros(now - retentionDays * NANOS_PER_DAY);
              && View() == Db(Cleanup(old(committed), cutoff), None,
                              old(log) + Removals(Expired(old(committed), cutoff)))
              && (forall r :: r in committed.rows <==> r in old(committed).rows && r.createdAt >= cutoff)
              && (forall r | r in old(committed).rows ::
                    r in committed.rows <==> (r.createdAt + 1) * 1000 > now - retentionDays * 24 * 3600 * 1_000_000_000)
              && deleted == |old(committed).rows| - |committed.rows|
    {
      var cutoff := Micros(now - retentionDays * NANOS_PER_DAY);
      CleanupTransaction(View(), cutoff);
      BeginTransaction();
      var count := ExecuteDelete(cutoff);
      CommitTransaction();
      deleted := count;
    }

    /**
     One snapshot query and a decoding loop. The checked conversion of the effective
     cursor is left out here: `Store.CursorConversionsNeverFail` shows that it cannot fail.
     */
    method FetchNotesByTags(tags: seq<Tag>, cursor: U64) returns (res: Result<seq<StoredNote>, DbError>)
      requires Valid()
      ensures match DecodeAll(codec, Page(committed, TagSet(tags), cursor))
              case Err(e) => res == Err(Deserialization(e))
              case Ok(notes) => res == Ok(notes)
    {
      hide Decode, DbInv, Select, TagSet;
      var effective := if cursor > LEGACY_CURSOR_THRESHOLD then 0 else cursor;
      if tags == [] {
        NoTagsNoRows(committed, cursor);
        return Ok([]);
      }
      var rows := FirstRows(Select(committed.rows, TagSet(tags), effective), FETCH_NOTES_BATCH_SIZE);
      var stored: seq<StoredNote> := [];
      var i := 0;
      while i < |rows|
        invariant i <= |rows|
        invariant DecodeAll(codec, rows[..i]) == Ok(stored)
      {
        assert rows[..i + 1][..i] == rows[..i];
        match Decode(codec, rows[i]) {
          case Err(e) =>
            FirstErrorWins(codec, rows, i + 1);
            return Err(Deserialization(e));
          case Ok(n) =>
            stored := stored + [n];
        }
        i := i + 1;
      }
      assert rows[..i] == rows;
      res := Ok(stored);
    }
  }

  lemma StoreTransaction(d: Db, n: NewNote)
    requires d.txn.None?
    ensures DbStep(DbStep(d, Begin), Rollback) == d
    ensures Insert(d.committed, n).Ok? ==>
              DbStep(DbStep(DbStep(d, Begin), InsertNote(n)), Commit)
              == Db(Insert(d.committed, n).value, None, d.log + [Stored(ToRow(n, d.committed.counter + 1))])
  {
  }

  lemma CleanupTransaction(d: Db, cutoff: I64)
    requires DbInv(d) && d.txn.None?
    ensures DbStep(DbStep(DbStep(d, Begin), DeleteOlder(cutoff)), Commit)
         == Db(Cleanup(d.committed, cutoff), None, d.log + Removals(Expired(d.committed, cutoff)))
    ensures |Cleanup(d.committed, cutoff).rows| + |Expired(d.committed, cutoff)| == |d.committed.rows|
    ensures |Expired(d.committed, cutoff)| <= I64_MAX
  {
    CleanupKeepsValid(d.committed, cutoff);
    RowsWithinCounter(d.committed);
    assert [] + Removals(Expired(d.committed, cutoff)) == Removals(Expired(d.committed, cutoff));
  }

  lemma NoTagsNoRows(s: Store, cursor: nat)
    ensures Page(s, TagSet([]), cursor) == []
  {
    Filters.FilterNone((r: Row) => Wanted(r, TagSet([]), EffectiveCursor(cursor)), s.rows);
  }

  lemma {:induction false} FirstErrorWins(c: Codec, rows: seq<Row>, i: nat)
    requires i <= |rows| && DecodeAll(c, rows[..i]).Err?
    ensures DecodeAll(c, rows) == DecodeAll(c, rows[..i])
    decreases |rows|
  {
    if i == |rows| {
      assert rows[..i] == rows;
    } else {
      assert rows[..|rows| - 1][..i] == rows[..i];
      FirstErrorWins(c, rows[..|rows| - 1], i);
    }
  }
}
