/**
 The notes table as a value: its rows in primary-key (`seq`) order and the
 AUTOINCREMENT counter, with the three statements the service runs on it
 (insert one note, delete the old ones, read one page).
 */
module Store {
  import opened Wrappers
  import opened Filters
  import opened Notes

  const FETCH_NOTES_BATCH_SIZE: nat := 500
  const LEGACY_CURSOR_THRESHOLD: nat := 1_000_000_000_000

  datatype Store = Store(rows: seq<Row>, counter: nat)

  datatype DbError =
    | UniqueViolation
    | TableFull
    | Deserialization(cause: DecodeError)
    | Unavailable

  const EMPTY: Store := Store([], 0)

  ghost predicate Ascending(rows: seq<Row>) {
    forall i, j | 0 <= i < j < |rows| :: rows[i].seqno < rows[j].seqno
  }

  ghost predicate UniqueIds(rows: seq<Row>) {
    forall i, j | 0 <= i < j < |rows| :: rows[i].id != rows[j].id
  }

  /** The table invariant: keys ascend within 1..counter, ids are unique. */
  ghost predicate Valid(s: Store) {
    && Ascending(s.rows)
    && UniqueIds(s.rows)
    && (forall r | r in s.rows :: 1 <= r.seqno <= s.counter)
    && s.counter <= I64_MAX
  }

  // ---------------------------------------------------------------- statements

  predicate HasId(rows: seq<Row>, id: Bytes) {
    exists r | r in rows :: r.id == id
  }

  /** INSERT: AUTOINCREMENT refuses once its counter is used up, UNIQUE(id) refuses a known id. */
  function Insert(s: Store, n: NewNote): (res: Result<Store, DbError>)
    ensures Valid(s) && res.Ok? ==> Valid(res.value) && res.value.counter > s.counter
  {
    if s.counter >= I64_MAX then Err(TableFull)
    else if HasId(s.rows, n.id) then Err(UniqueViolation)
    else Ok(Store(s.rows + [ToRow(n, s.counter + 1)], s.counter + 1))
  }

  /** DELETE ... WHERE created_at < cutoff. */
  function Cleanup(s: Store, cutoff: int): Store {
    Store(Filter((r: Row) => r.createdAt >= cutoff, s.rows), s.counter)
  }

  function Expired(s: Store, cutoff: int): seq<Row> {
    Filter((r: Row) => r.createdAt < cutoff, s.rows)
  }

  predicate Wanted(r: Row, tags: set<Tag>, cursor: nat) {
    r.tag in tags && r.seqno > cursor
  }

  /** The matching rows above a cursor, in seq order, without a limit. */
  function Select(rows: seq<Row>, tags: set<Tag>, cursor: nat): seq<Row> {
    Filter((r: Row) => Wanted(r, tags, cursor), rows)
  }

  function FirstRows(rows: seq<Row>, limit: nat): seq<Row> {
    if |rows| <= limit then rows else rows[..limit]
  }

  /** A cursor above the threshold is a timestamp of the old schema and reads as 0. */
  function EffectiveCursor(cursor: nat): nat {
    if cursor > LEGACY_CURSOR_THRESHOLD then 0 else cursor
  }

  function Page(s: Store, tags: set<Tag>, cursor: nat): seq<Row> {
    FirstRows(Select(s.rows, tags, EffectiveCursor(cursor)), FETCH_NOTES_BATCH_SIZE)
  }

  function Max(a: int, b: int): int { if a < b then b else a }

  /** The cursor after a batch: the running maximum over its keys, started at the given cursor. */
  function Advance(cursor: nat, rows: seq<Row>): (r: nat)
    ensures r >= cursor
  {
    if rows == [] then cursor else Max(Advance(cursor, rows[..|rows| - 1]), rows[|rows| - 1].seqno)
  }

  /** Decoding a page stops at the first row that does not decode. */
  function DecodeAll(c: Codec, rows: seq<Row>): Result<seq<StoredNote>, DecodeError> {
    if rows == [] then Ok([])
    else
      match DecodeAll(c, rows[..|rows| - 1])
      case Err(e) => Err(e)
      case Ok(notes) =>
        match Decode(c, rows[|rows| - 1])
        case Err(e) => Err(e)
        case Ok(n) => Ok(notes + [n])
  }

  // ------------------------------------------------------- the table invariant

  lemma {:induction false} FilterKeepsAscending(p: Row -> bool, rows: seq<Row>)
    requires Ascending(rows)
    ensures Ascending(Filter(p, rows))
  {
    if rows != [] {
      assert Ascending(rows[1..]);
      FilterKeepsAscending(p, rows[1..]);
      forall r | r in Filter(p, rows[1..]) ensures rows[0].seqno < r.seqno {
        assert r in rows[1..];
      }
    }
  }

  lemma {:induction false} FilterKeepsUniqueIds(p: Row -> bool, rows: seq<Row>)
    requires UniqueIds(rows)
    ensures UniqueIds(Filter(p, rows))
  {
    if rows != [] {
      assert UniqueIds(rows[1..]);
      FilterKeepsUniqueIds(p, rows[1..]);
      forall r | r in Filter(p, rows[1..]) ensures rows[0].id != r.id {
        assert r in rows[1..];
      }
    }
  }

  /** Cleanup splits the rows: what stays and what goes are told apart by age alone. */
  lemma CleanupKeepsValid(s: Store, cutoff: int)
    requires Valid(s)
    ensures Valid(Cleanup(s, cutoff))
    ensures Cleanup(s, cutoff).counter == s.counter
    ensures forall r :: r in Cleanup(s, cutoff).rows <==> r in s.rows && r !in Expired(s, cutoff)
    ensures |Cleanup(s, cutoff).rows| + |Expired(s, cutoff)| == |s.rows|
  {
    FilterKeepsAscending((r: Row) => r.createdAt >= cutoff, s.rows);
    FilterKeepsUniqueIds((r: Row) => r.createdAt >= cutoff, s.rows);
    FilterPartition((r: Row) => r.createdAt >= cutoff, (r: Row) => r.createdAt < cutoff, s.rows);
  }

  lemma {:induction false} FilterPartition(p: Row -> bool, q: Row -> bool, rows: seq<Row>)
    requires forall r | r in rows :: p(r) == !q(r)
    ensures |Filter(p, rows)| + |Filter(q, rows)| == |rows|
  {
    if rows != [] {
      FilterPartition(p, q, rows[1..]);
    }
  }

  /** Keys being distinct and within 1..counter, the row count fits the counter, so the deleted count fits an i64. */
  lemma RowsWithinCounter(s: Store)
    requires Valid(s)
    ensures |s.rows| <= s.counter <= 9_223_372_036_854_775_807
  {
    if |s.rows| > 0 {
      KeyAboveIndex(s.rows, |s.rows| - 1);
    }
  }

  lemma {:induction false} KeyAboveIndex(rows: seq<Row>, i: nat)
    requires Ascending(rows) && i < |rows|
    requires forall r | r in rows :: 1 <= r.seqno
    ensures i < rows[i].seqno
  {
    if i > 0 {
      KeyAboveIndex(rows, i - 1);
    }
  }

  // -------------------------------------------------------------- what a page is

  /**
   Reference definition of a page: the smallest keys among the live rows of the tags
   above the cursor, in order, and not all of them only when the batch is full.
   */
  ghost predicate IsPage(s: Store, tags: set<Tag>, cursor: nat, page: seq<Row>) {
    var above := if cursor > 1_000_000_000_000 then 0 else cursor;
    && Ascending(page)
    && |page| <= 500
    && (forall r | r in page :: r in s.rows && r.tag in tags && r.seqno > above)
    && (forall r | r in s.rows && r.tag in tags && r.seqno > above && r !in page ::
          |page| == 500 && forall p | p in page :: p.seqno < r.seqno)
  }

  lemma SelectAscending(s: Store, tags: set<Tag>, cursor: nat)
    requires Ascending(s.rows)
    ensures Ascending(Select(s.rows, tags, cursor))
  {
    FilterKeepsAscending((r: Row) => Wanted(r, tags, cursor), s.rows);
  }

  lemma {:induction false} DistinctSize(rows: seq<Row>)
    requires Ascending(rows)
    ensures |set r | r in rows| == |rows|
  {
    if rows != [] {
      var front, last := rows[..|rows| - 1], rows[|rows| - 1];
      DistinctSize(front);
      assert rows == front + [last];
      assert (set r | r in rows) == (set r | r in front) + {last};
      assert last !in front;
    }
  }

  /** Two ascending sequences over the same rows are the same sequence. */
  lemma {:induction false} AscendingDetermined(a: seq<Row>, b: seq<Row>)
    requires Ascending(a) && Ascending(b)
    requires forall r :: r in a <==> r in b
    ensures a == b
  {
    if a == [] {
      DistinctSize(b);
      assert (set r | r in b) == {};
    } else {
      assert a[0] in b;
      assert b[0] in a;
      var i :| 0 <= i < |b| && b[i] == a[0];
      var j :| 0 <= j < |a| && a[j] == b[0];
      assert a[0] == b[0];
      forall r ensures r in a[1..] <==> r in b[1..] {
        if r in a[1..] { assert r in b; assert r != a[0]; }
        if r in b[1..] { assert r in a; assert r != b[0]; }
      }
      AscendingDetermined(a[1..], b[1..]);
    }
  }

  lemma FirstAreSmallest(all: seq<Row>, n: nat)
    requires Ascending(all)
    ensures Ascending(FirstRows(all, n)) && |FirstRows(all, n)| <= n
    ensures forall r | r in FirstRows(all, n) :: r in all
    ensures forall r | r in all && r !in FirstRows(all, n) ::
              |FirstRows(all, n)| == n && forall p | p in FirstRows(all, n) :: p.seqno < r.seqno
  {
    var page := FirstRows(all, n);
    forall r | r in all && r !in page ensures |page| == n && forall p | p in page :: p.seqno < r.seqno {
      var k :| 0 <= k < |all| && all[k] == r;
      assert forall i | 0 <= i < |page| :: page[i] == all[i];
      forall p | p in page ensures p.seqno < r.seqno {
        var i :| 0 <= i < |page| && page[i] == p;
        assert all[i] == p;
      }
    }
  }

  lemma PageIsPage(s: Store, tags: set<Tag>, cursor: nat)
    requires Ascending(s.rows)
    ensures IsPage(s, tags, cursor, Page(s, tags, cursor))
  {
    var all := Select(s.rows, tags, EffectiveCursor(cursor));
    SelectAscending(s, tags, EffectiveCursor(cursor));
    assert forall r :: r in all <==> r in s.rows && r.tag in tags && r.seqno > EffectiveCursor(cursor);
    hide Ascending, Select, Wanted, FirstRows;
    FirstAreSmallest(all, 500);
  }

  /** The page is the only sequence that meets the reference definition. */
  lemma PageCharacterised(s: Store, tags: set<Tag>, cursor: nat, page: seq<Row>)
    requires Ascending(s.rows)
    ensures IsPage(s, tags, cursor, page) <==> page == Page(s, tags, cursor)
  {
    PageIsPage(s, tags, cursor);
    if IsPage(s, tags, cursor, page) {
      var p := Page(s, tags, cursor);
      PageWithin(s, tags, cursor, page, p);
      PageWithin(s, tags, cursor, p, page);
      AscendingDetermined(page, p);
    }
  }

  lemma PageWithin(s: Store, tags: set<Tag>, cursor: nat, a: seq<Row>, b: seq<Row>)
    requires IsPage(s, tags, cursor, a) && IsPage(s, tags, cursor, b)
    ensures forall r | r in a :: r in b
  {
    forall r | r in a ensures r in b {
      if r !in b {
        // b is full and lies below r, so all of b is in a, together with r: a is too long
        forall q | q in b ensures q in a {
          assert q.seqno < r.seqno;
        }
        var sa, sb := set x | x in a, set x | x in b;
        DistinctSize(a);
        DistinctSize(b);
        assert sb + {r} <= sa;
        SubsetSize(sb + {r}, sa);
        assert false;
      }
    }
  }

  lemma {:induction false} SubsetSize<T>(a: set<T>, b: set<T>)
    requires a <= b
    ensures |a| <= |b|
  {
    if a != {} {
      var x :| x in a;
      SubsetSize(a - {x}, b - {x});
    }
  }

  // ------------------------------------------------------------ response cursor

  /** The loop's running maximum, described: an upper bound that is attained. */
  lemma {:induction false} AdvanceIsMaximum(cursor: nat, rows: seq<Row>)
    ensures var a := Advance(cursor, rows);
            && (forall r | r in rows :: r.seqno <= a)
            && (a == cursor || exists r | r in rows :: r.seqno == a)
  {
    if rows != [] {
      var front, last := rows[..|rows| - 1], rows[|rows| - 1];
      AdvanceIsMaximum(cursor, front);
      assert rows == front + [last];
      forall r | r in rows ensures r.seqno <= Advance(cursor, rows) {
        assert r in front || r == last;
      }
      if Advance(cursor, rows) != cursor && Advance(cursor, rows) != last.seqno {
        var r :| r in front && r.seqno == Advance(cursor, front);
        assert r in rows;
      }
      if Advance(cursor, rows) == last.seqno { assert last in rows; }
    }
  }

  /**
   The watermark law: for every cursor, legacy or not, each live wanted row between
   the request cursor and the response cursor is in the batch.
   */
  lemma PageCovers(s: Store, tags: set<Tag>, cursor: nat, r: Row)
    requires Valid(s)
    requires r in s.rows && r.tag in tags
    requires cursor < r.seqno <= Advance(cursor, Page(s, tags, cursor))
    ensures r in Page(s, tags, cursor)
  {
    PageIsPage(s, tags, cursor);
    AdvanceIsMaximum(cursor, Page(s, tags, cursor));
  }

  /** A response never points above the counter when the request did not. */
  lemma AdvanceWithinCounter(s: Store, tags: set<Tag>, cursor: nat)
    requires Valid(s) && cursor <= s.counter
    ensures Advance(cursor, Page(s, tags, cursor)) <= s.counter
  {
    PageIsPage(s, tags, cursor);
    AdvanceIsMaximum(cursor, Page(s, tags, cursor));
  }

  /** `seq` keys are positive and fit the unsigned cursor, so neither conversion of a fetch can fail. */
  lemma CursorConversionsNeverFail(s: Store, tags: set<Tag>, cursor: U64)
    requires Valid(s)
    ensures EffectiveCursor(cursor) <= 9_223_372_036_854_775_807
    ensures forall r | r in Page(s, tags, cursor) :: 0 <= r.seqno <= 18_446_744_073_709_551_615
    ensures Advance(cursor, Page(s, tags, cursor)) <= 18_446_744_073_709_551_615
  {
    PageIsPage(s, tags, cursor);
    AdvanceIsMaximum(cursor, Page(s, tags, cursor));
  }

  /**
   A batch brings only rows above the request cursor exactly when the cursor is
   not legacy or nothing live and matching lies at or below it.
   */
  lemma FreshIff(s: Store, tags: set<Tag>, cursor: nat)
    requires Valid(s)
    ensures (forall r | r in Page(s, tags, cursor) :: r.seqno > cursor)
       <==> (cursor <= LEGACY_CURSOR_THRESHOLD || forall r | r in s.rows && r.tag in tags :: r.seqno > cursor)
  {
    var page := Page(s, tags, cursor);
    PageIsPage(s, tags, cursor);
    if cursor > LEGACY_CURSOR_THRESHOLD {
      forall r | r in s.rows && r.tag in tags && r.seqno <= cursor
        ensures exists p | p in page :: p.seqno <= cursor
      {
        if r !in page {
          assert page[0] in page;
        }
      }
    }
  }

  /**
   Which cursors are legacy: above 10^12 a cursor reads as 0; at or below it gets only
   rows above it, and each wanted one up to the response cursor.
   */
  lemma LegacyReset(s: Store, tags: set<Tag>, cursor: nat)
    requires Valid(s)
    ensures cursor > 1_000_000_000_000 ==> Page(s, tags, cursor) == Page(s, tags, 0)
    ensures cursor <= 1_000_000_000_000 ==>
              var page := Page(s, tags, cursor);
              && (forall r | r in page :: r in s.rows && r.tag in tags && r.seqno > cursor)
              && (forall r | r in s.rows && r.tag in tags && cursor < r.seqno <= Advance(cursor, page) :: r in page)
  {
    PageIsPage(s, tags, cursor);
    AdvanceIsMaximum(cursor, Page(s, tags, cursor));
  }

  /**
   Decoding a page succeeds exactly when every row of it decodes, and then row by row;
   else its error is that of the first row that does not.
   */
  lemma {:induction false} DecodeAllIff(c: Codec, rows: seq<Row>)
    ensures DecodeAll(c, rows).Ok? <==> forall r | r in rows :: Decode(c, r).Ok?
    ensures DecodeAll(c, rows).Ok? ==>
              && |DecodeAll(c, rows).value| == |rows|
              && forall i | 0 <= i < |rows| :: Decode(c, rows[i]) == Ok(DecodeAll(c, rows).value[i])
    ensures DecodeAll(c, rows).Err? ==>
              exists i :: 0 <= i < |rows| && Decode(c, rows[i]) == Err(DecodeAll(c, rows).error)
                          && forall j | 0 <= j < i :: Decode(c, rows[j]).Ok?
  {
    if rows != [] {
      var front, last := rows[..|rows| - 1], rows[|rows| - 1];
      DecodeAllIff(c, front);
      assert rows == front + [last];
      assert forall r :: r in rows <==> r in front || r == last;
    }
  }
}
