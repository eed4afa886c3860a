/**
 The table rewrites of the schema migrations. The old table is keyed by note id; the
 new one by the `seq` key. A rewrite goes row by row into a new table, which then
 takes the name of the old one.
 */
module Migrations {
  import opened Wrappers
  import opened Filters
  import opened Notes
  import opened Store
  import opened Paging

  datatype Body = Body(tag: I64, header: Bytes, details: Bytes, createdAt: I64)

  type OldTable = map<Bytes, Body>

  // ------------------------------------------------------------ adding the seq key

  ghost predicate Chronological(rows: seq<Row>) {
    forall i, j | 0 <= i < j < |rows| :: rows[i].createdAt <= rows[j].createdAt
  }

  function IdsOf(rows: seq<Row>): set<Bytes> {
    set r | r in rows :: r.id
  }

  /** Each row is a row of the old table, column by column. */
  ghost predicate RowsFrom(oldTable: OldTable, rows: seq<Row>) {
    forall r | r in rows ::
      && r.id in oldTable
      && r.tag == oldTable[r.id].tag && r.header == oldTable[r.id].header
      && r.details == oldTable[r.id].details && r.createdAt == oldTable[r.id].createdAt
  }

  /** The rows are the given ids of the old table, one to one, under the keys 1, 2, ... in time order. */
  ghost predicate Renumbered(oldTable: OldTable, ids: set<Bytes>, rows: seq<Row>) {
    && (forall i | 0 <= i < |rows| :: rows[i].seqno == i + 1)
    && RowsFrom(oldTable, rows)
    && IdsOf(rows) == ids
    && UniqueIds(rows)
    && Chronological(rows)
    && (forall r | r in rows :: r.afterBlock.None?)
  }

  ghost predicate SeqRewrite(oldTable: OldTable, s: Store) {
    && Renumbered(oldTable, oldTable.Keys, s.rows)
    && s.counter == |s.rows| == |oldTable|
  }

  predicate Oldest(oldTable: OldTable, ids: set<Bytes>, id: Bytes) {
    id in ids && id in oldTable
    && forall x | x in ids && x in oldTable :: oldTable[id].createdAt <= oldTable[x].createdAt
  }

  lemma {:induction false} OldestExists(oldTable: OldTable, ids: set<Bytes>)
    requires ids != {} && ids <= oldTable.Keys
    ensures exists id :: Oldest(oldTable, ids, id)
  {
    var x :| x in ids;
    if ids == {x} {
      assert Oldest(oldTable, ids, x);
    } else {
      OldestExists(oldTable, ids - {x});
      var y :| Oldest(oldTable, ids - {x}, y);
      var z := if oldTable[x].createdAt <= oldTable[y].createdAt then x else y;
      assert Oldest(oldTable, ids, z);
    }
  }

  ghost predicate NoneYounger(oldTable: OldTable, rows: seq<Row>, left: set<Bytes>) {
    forall r, id | r in rows && id in left && id in oldTable :: r.createdAt <= oldTable[id].createdAt
  }

  /** INSERT ... SELECT ... ORDER BY created_at: rows of equal time come in any order. */
  method AddSeqCursor(oldTable: OldTable) returns (s: Store)
    requires |oldTable| <= I64_MAX
    ensures SeqRewrite(oldTable, s)
    ensures forall r | r in s.rows ::
              && r.id in oldTable
              && r.tag == oldTable[r.id].tag && r.header == oldTable[r.id].header
              && r.details == oldTable[r.id].details && r.createdAt == oldTable[r.id].createdAt
  {
    hide Renumbered, NoneYounger, Oldest;
    var rows: seq<Row> := [];
    var left := oldTable.Keys;
    NothingNumbered(oldTable, left);
    while left != {}
      invariant left <= oldTable.Keys && |rows| + |left| == |oldTable|
      invariant Renumbered(oldTable, oldTable.Keys - left, rows)
      invariant NoneYounger(oldTable, rows, left)
    {
      OldestExists(oldTable, left);
      var id :| Oldest(oldTable, left, id);
      OneFewer(oldTable, left, id);
      var b := oldTable[id];
      var r := Row(|rows| + 1, id, b.tag, b.header, b.details, b.createdAt, None);
      RenumberedOneMore(oldTable, left, rows, r);
      rows := rows + [r];
      left := left - {id};
    }
    s := Store(rows, |rows|);
    AllNumbered(oldTable, left, s);
  }

  lemma NothingNumbered(oldTable: OldTable, left: set<Bytes>)
    requires left == oldTable.Keys
    ensures Renumbered(oldTable, oldTable.Keys - left, []) && NoneYounger(oldTable, [], left)
  {
  }

  lemma AllNumbered(oldTable: OldTable, left: set<Bytes>, s: Store)
    requires left == {} && Renumbered(oldTable, oldTable.Keys - left, s.rows) && s.counter == |s.rows| == |oldTable|
    ensures SeqRewrite(oldTable, s) && RowsFrom(oldTable, s.rows)
  {
    assert oldTable.Keys - left == oldTable.Keys;
  }

  lemma OneFewer(oldTable: OldTable, left: set<Bytes>, id: Bytes)
    requires Oldest(oldTable, left, id)
    ensures id in oldTable && |left - {id}| == |left| - 1
  {
  }

  lemma IdsOfOneMore(rows: seq<Row>, r: Row)
    ensures IdsOf(rows + [r]) == IdsOf(rows) + {r.id}
  {
  }

  lemma RenumberedOneMore(oldTable: OldTable, left: set<Bytes>, rows: seq<Row>, r: Row)
    requires Renumbered(oldTable, oldTable.Keys - left, rows) && NoneYounger(oldTable, rows, left)
    requires Oldest(oldTable, left, r.id) && left <= oldTable.Keys
    requires r.seqno == |rows| + 1 && r.id in oldTable && r.afterBlock.None?
    requires r.tag == oldTable[r.id].tag && r.header == oldTable[r.id].header
    requires r.details == oldTable[r.id].details && r.createdAt == oldTable[r.id].createdAt
    ensures Renumbered(oldTable, oldTable.Keys - (left - {r.id}), rows + [r])
    ensures NoneYounger(oldTable, rows + [r], left - {r.id})
  {
    IdsOfOneMore(rows, r);
    assert forall q | q in rows :: q.id in IdsOf(rows);
    assert oldTable.Keys - (left - {r.id}) == (oldTable.Keys - left) + {r.id};
    assert forall q | q in rows :: q.createdAt <= r.createdAt;
  }

  /** The new table is a valid one, so every law of paging holds on it. */
  lemma RewriteIsValid(oldTable: OldTable, s: Store)
    requires SeqRewrite(oldTable, s) && |oldTable| <= I64_MAX
    ensures Valid(s)
  {
  }

  lemma {:induction false} FilterKeepsChronological(p: Row -> bool, rows: seq<Row>)
    requires Chronological(rows)
    ensures Chronological(Filter(p, rows))
  {
    if rows != [] {
      assert Chronological(rows[1..]);
      FilterKeepsChronological(p, rows[1..]);
      forall r | r in Filter(p, rows[1..]) ensures rows[0].createdAt <= r.createdAt {
        assert r in rows[1..];
      }
    }
  }

  /**
   Draining the new table from 0 yields each old row of the wanted tags once, with its
   columns, in time order, and nothing else.
   */
  lemma RewriteDrainsInTimeOrder(oldTable: OldTable, s: Store, tags: set<Tag>)
    requires SeqRewrite(oldTable, s)
    ensures var all := Select(s.rows, tags, 0);
            && Chronological(all) && UniqueIds(all) && RowsFrom(oldTable, all)
            && IdsOf(all) == set id | id in oldTable && oldTable[id].tag in tags
  {
    var all := Select(s.rows, tags, 0);
    FilterKeepsChronological((r: Row) => Wanted(r, tags, 0), s.rows);
    FilterKeepsUniqueIds((r: Row) => Wanted(r, tags, 0), s.rows);
    RewriteDrainsIds(oldTable, s, tags);
  }

  lemma RewriteDrainsIds(oldTable: OldTable, s: Store, tags: set<Tag>)
    requires RowsFrom(oldTable, s.rows) && IdsOf(s.rows) == oldTable.Keys
    requires forall i | 0 <= i < |s.rows| :: s.rows[i].seqno == i + 1
    ensures IdsOf(Select(s.rows, tags, 0)) == set id | id in oldTable && oldTable[id].tag in tags
  {
  }

  /** The inverse rewrite: copy every row without its key. */
  method RemoveSeqCursor(s: Store) returns (oldTable: OldTable)
    requires Valid(s)
    ensures oldTable.Keys == IdsOf(s.rows) && RowsFrom(oldTable, s.rows)
    ensures forall r | r in s.rows ::
              && r.id in oldTable
              && oldTable[r.id].tag == r.tag && oldTable[r.id].header == r.header
              && oldTable[r.id].details == r.details && oldTable[r.id].createdAt == r.createdAt
  {
    oldTable := map[];
    var i := 0;
    while i < |s.rows|
      invariant i <= |s.rows|
      invariant oldTable.Keys == IdsOf(s.rows[..i]) && RowsFrom(oldTable, s.rows[..i])
    {
      var r := s.rows[i];
      assert s.rows[..i + 1] == s.rows[..i] + [r];
      IdsOfOneMore(s.rows[..i], r);
      oldTable := oldTable[r.id := Body(r.tag, r.header, r.details, r.createdAt)];
      i := i + 1;
    }
    assert s.rows[..i] == s.rows;
  }

  /** Adding the key and taking it away again gives back the same id-keyed table. */
  lemma UpThenDown(oldTable: OldTable, s: Store, back: OldTable)
    requires SeqRewrite(oldTable, s)
    requires back.Keys == IdsOf(s.rows) && RowsFrom(back, s.rows)
    ensures back == oldTable
  {
  }

  // ------------------------------------------------- dropping the block context

  function Strip(r: Row): Row {
    r.(afterBlock := None)
  }

  function StripAll(rows: seq<Row>): seq<Row> {
    if rows == [] then [] else StripAll(rows[..|rows| - 1]) + [Strip(rows[|rows| - 1])]
  }

  lemma {:induction false} StripAllAt(rows: seq<Row>)
    ensures |StripAll(rows)| == |rows|
    ensures forall i | 0 <= i < |rows| ::
              && StripAll(rows)[i] == Strip(rows[i])
              && StripAll(rows)[i].seqno == rows[i].seqno && StripAll(rows)[i].id == rows[i].id
              && StripAll(rows)[i].tag == rows[i].tag && StripAll(rows)[i].header == rows[i].header
              && StripAll(rows)[i].details == rows[i].details && StripAll(rows)[i].createdAt == rows[i].createdAt
              && StripAll(rows)[i].afterBlock == None
  {
    if rows != [] {
      StripAllAt(rows[..|rows| - 1]);
    }
  }

  /**
   Copy the rows with their keys. The rebuilt table's counter is the largest key
   copied, so it forgets any larger key whose row was cleaned up.
   */
  method DropBlockContext(s: Store) returns (s': Store)
    ensures s' == Store(StripAll(s.rows), Advance(0, s.rows))
    ensures |s'.rows| == |s.rows|
    ensures forall i | 0 <= i < |s.rows| ::
              && s'.rows[i].seqno == s.rows[i].seqno && s'.rows[i].id == s.rows[i].id
              && s'.rows[i].tag == s.rows[i].tag && s'.rows[i].header == s.rows[i].header
              && s'.rows[i].details == s.rows[i].details && s'.rows[i].createdAt == s.rows[i].createdAt
              && s'.rows[i].afterBlock == None
  {
    var rows: seq<Row>, counter: nat := [], 0;
    var i := 0;
    while i < |s.rows|
      invariant i <= |s.rows|
      invariant rows == StripAll(s.rows[..i]) && counter == Advance(0, s.rows[..i])
    {
      assert s.rows[..i + 1][..i] == s.rows[..i];
      rows := rows + [Strip(s.rows[i])];
      counter := Max(counter, s.rows[i].seqno);
      i := i + 1;
    }
    assert s.rows[..i] == s.rows;
    StripAllAt(s.rows);
    s' := Store(rows, counter);
  }

  lemma {:induction false} StripAdvance(cursor: nat, rows: seq<Row>)
    ensures Advance(cursor, StripAll(rows)) == Advance(cursor, rows)
  {
    if rows != [] {
      StripAdvance(cursor, rows[..|rows| - 1]);
    }
  }

  lemma {:induction false} StripSelect(rows: seq<Row>, tags: set<Tag>, cursor: nat)
    ensures Select(StripAll(rows), tags, cursor) == StripAll(Select(rows, tags, cursor))
  {
    if rows != [] {
      var front, last := rows[..|rows| - 1], rows[|rows| - 1];
      StripSelect(front, tags, cursor);
      assert rows == front + [last];
      SelectOneMore(front, last, tags, cursor);
      SelectOneMore(StripAll(front), Strip(last), tags, cursor);
      StripOneMore(Select(front, tags, cursor), last);
    }
  }

  lemma StripOneMore(rows: seq<Row>, r: Row)
    ensures StripAll(rows + [r]) == StripAll(rows) + [Strip(r)]
  {
  }

  lemma StripFirst(rows: seq<Row>, n: nat)
    ensures FirstRows(StripAll(rows), n) == StripAll(FirstRows(rows, n))
  {
    StripAllAt(rows);
    StripAllAt(FirstRows(rows, n));
  }

  /** Every page of every client survives the rollback: same rows but for the dropped column, same response cursor. */
  lemma RollbackKeepsPages(s: Store, tags: set<Tag>, cursor: nat)
    ensures var s' := Store(StripAll(s.rows), Advance(0, s.rows));
            var page, page' := Page(s, tags, cursor), Page(s', tags, cursor);
            && |page'| == |page|
            && (forall i | 0 <= i < |page| ::
                  && page'[i].seqno == page[i].seqno && page'[i].id == page[i].id && page'[i].tag == page[i].tag
                  && page'[i].header == page[i].header && page'[i].details == page[i].details
                  && page'[i].createdAt == page[i].createdAt && page'[i].afterBlock == None)
            && Advance(cursor, page') == Advance(cursor, page)
  {
    var c := EffectiveCursor(cursor);
    StripSelect(s.rows, tags, c);
    StripFirst(Select(s.rows, tags, c), FETCH_NOTES_BATCH_SIZE);
    StripAdvance(cursor, Page(s, tags, cursor));
    StripAllAt(Page(s, tags, cursor));
  }

  lemma RollbackKeepsValid(s: Store)
    requires Valid(s)
    ensures Valid(Store(StripAll(s.rows), Advance(0, s.rows))) && Advance(0, s.rows) <= s.counter
  {
    StripAllAt(s.rows);
    AdvanceIsMaximum(0, s.rows);
    forall r | r in StripAll(s.rows) ensures 1 <= r.seqno <= Advance(0, s.rows) {
      var i :| 0 <= i < |s.rows| && StripAll(s.rows)[i] == r;
      assert s.rows[i] in s.rows;
    }
  }

  /**
   After the rollback the next stored note lies above every cursor handed out before
   exactly when the row with the highest key ever issued is still live.
   */
  lemma RollbackKeepsCursorsSafeIff(s: Store, n: NewNote, tags: set<Tag>)
    requires Valid(s) && n.tag in tags && Advance(0, s.rows) < I64_MAX
    requires !HasId(s.rows, n.id)
    ensures var s' := Store(StripAll(s.rows), Advance(0, s.rows));
            && Insert(s', n).Ok?
            && ((forall c: nat | c <= s.counter ::
                   ToRow(n, s'.counter + 1) in Select(Insert(s', n).value.rows, tags, c))
                <==> s.counter == 0 || exists r | r in s.rows :: r.seqno == s.counter)
  {
    var s' := Store(StripAll(s.rows), Advance(0, s.rows));
    var row := ToRow(n, s'.counter + 1);
    StripKeepsIds(s.rows, n.id);
    TopRowLiveIff(s);
    assert Insert(s', n) == Ok(Store(s'.rows + [row], s'.counter + 1));
    forall c: nat ensures row in Select(s'.rows + [row], tags, c) <==> s'.counter + 1 > c {
      LastRowSelected(s'.rows, row, tags, c);
    }
    if s'.counter < s.counter {
      assert row !in Select(s'.rows + [row], tags, s.counter);
    }
  }

  lemma LastRowSelected(rows: seq<Row>, row: Row, tags: set<Tag>, c: nat)
    requires row.tag in tags
    ensures row in Select(rows + [row], tags, c) <==> row.seqno > c
  {
  }

  /** The largest live key is the counter exactly when the row with the highest key ever issued is live. */
  lemma TopRowLiveIff(s: Store)
    requires Valid(s)
    ensures Advance(0, s.rows) <= s.counter
    ensures Advance(0, s.rows) == s.counter <==> s.counter == 0 || exists r | r in s.rows :: r.seqno == s.counter
  {
    AdvanceIsMaximum(0, s.rows);
  }

  lemma StripKeepsIds(rows: seq<Row>, id: Bytes)
    ensures HasId(StripAll(rows), id) ==> HasId(rows, id)
  {
    StripAllAt(rows);
    forall r | r in StripAll(rows) && r.id == id ensures HasId(rows, id) {
      var i :| 0 <= i < |rows| && StripAll(rows)[i] == r;
      assert rows[i] in rows;
    }
  }
}
