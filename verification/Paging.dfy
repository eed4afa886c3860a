/**
 Laws of paging on one unchanging table: draining it page by page, fetching several
 tags at once, and what a cursor left over from the old schema sees.
 */
module Paging {
  import opened Wrappers
  import opened Filters
  import opened Notes
  import opened Store

  // -------------------------------------------------------------------- draining

  /** Selecting above a later cursor is selecting among the rows selected above the earlier one. */
  lemma SelectNarrow(rows: seq<Row>, tags: set<Tag>, cursor: nat, next: nat)
    requires cursor <= next
    ensures Select(rows, tags, next) == Select(Select(rows, tags, cursor), tags, next)
  {
    FilterFilter((r: Row) => Wanted(r, tags, cursor), (r: Row) => Wanted(r, tags, next),
                 (r: Row) => Wanted(r, tags, next), rows);
  }

  lemma SelectSplit(a: seq<Row>, b: seq<Row>, tags: set<Tag>, next: nat)
    requires forall r | r in a :: !Wanted(r, tags, next)
    requires forall r | r in b :: Wanted(r, tags, next)
    ensures Select(a + b, tags, next) == b
  {
    FilterConcat((r: Row) => Wanted(r, tags, next), a, b);
    FilterNone((r: Row) => Wanted(r, tags, next), a);
    FilterAll((r: Row) => Wanted(r, tags, next), b);
  }

  lemma SelectOneMore(rows: seq<Row>, r: Row, tags: set<Tag>, cursor: nat)
    ensures Select(rows + [r], tags, cursor)
         == if Wanted(r, tags, cursor) then Select(rows, tags, cursor) + [r] else Select(rows, tags, cursor)
  {
    FilterConcat((q: Row) => Wanted(q, tags, cursor), rows, [r]);
  }

  lemma Selected(rows: seq<Row>, tags: set<Tag>, cursor: nat)
    ensures forall r :: r in Select(rows, tags, cursor) <==> r in rows && Wanted(r, tags, cursor)
  {
  }

  /** What lies above the k-th selected row is the rest of the selection. */
  lemma SelectAbove(s: Store, tags: set<Tag>, cursor: nat, k: nat)
    requires Ascending(s.rows)
    requires 0 < k <= |Select(s.rows, tags, cursor)|
    ensures Select(s.rows, tags, cursor)[k - 1].seqno > cursor
    ensures Select(s.rows, tags, Select(s.rows, tags, cursor)[k - 1].seqno) == Select(s.rows, tags, cursor)[k..]
  {
    hide Select;
    var all := Select(s.rows, tags, cursor);
    Selected(s.rows, tags, cursor);
    assert all[k - 1] in all;
    var next := all[k - 1].seqno;
    SelectAscending(s, tags, cursor);
    SelectNarrow(s.rows, tags, cursor, next);
    assert all == all[..k] + all[k..];
    forall r | r in all[k..] ensures Wanted(r, tags, next) {
      assert r in all;
    }
    SelectSplit(all[..k], all[k..], tags, next);
  }

  lemma AdvanceAscending(cursor: nat, rows: seq<Row>)
    requires Ascending(rows) && rows != [] && rows[|rows| - 1].seqno >= cursor
    ensures Advance(cursor, rows) == rows[|rows| - 1].seqno
  {
    AdvanceIsMaximum(cursor, rows);
    assert rows[|rows| - 1] in rows;
  }

  /**
   The response cursor of a batch is its last and highest key exactly when the request
   cursor is not legacy or does not lie above that key.
   */
  lemma CursorIsLastKeyIff(s: Store, tags: set<Tag>, cursor: nat)
    requires Valid(s) && Page(s, tags, cursor) != []
    ensures var page := Page(s, tags, cursor);
            var last := page[|page| - 1].seqno;
            && (forall r | r in page :: r.seqno <= last)
            && Advance(cursor, page) == Max(cursor, last)
            && (Advance(cursor, page) == last <==> cursor <= 1_000_000_000_000 || last >= cursor)
  {
    var page := Page(s, tags, cursor);
    PageIsPage(s, tags, cursor);
    AdvanceIsMaximum(cursor, page);
    assert page[|page| - 1] in page;
    if page[|page| - 1].seqno >= cursor {
      AdvanceAscending(cursor, page);
    }
  }

  /**
   The documented client loop: fetch with the returned cursor until a batch is
   smaller than the limit. It returns every wanted row once, in order, after
   exactly floor(n / 500) + 1 calls.
   */
  method Drain(s: Store, tags: set<Tag>, cursor: nat) returns (got: seq<Row>, calls: nat, last: nat)
    requires Valid(s)
    requires cursor <= 1_000_000_000_000
    requires forall r | r in Select(s.rows, tags, cursor) :: r.seqno <= 1_000_000_000_000
    ensures got == Select(s.rows, tags, cursor)
    ensures calls == |got| / 500 + 1
    ensures Select(s.rows, tags, last) == []
  {
    hide Select, Page, Advance, Valid;
    ghost var all := Select(s.rows, tags, cursor);
    got, calls, last := [], 0, cursor;
    var more := true;
    while more
      invariant last <= LEGACY_CURSOR_THRESHOLD
      invariant |got| <= |all| && got == all[..|got|]
      invariant Select(s.rows, tags, last) == all[|got|..]
      invariant more ==> |got| == calls * 500
      invariant !more ==> |got| == |all| && |got| < calls * 500 <= |got| + 500
      decreases more, |all| - |got|
    {
      var page := Page(s, tags, last);
      NextPage(s, tags, cursor, last, |got|);
      got := got + page;
      calls := calls + 1;
      last := Advance(last, page);
      more := |page| >= FETCH_NOTES_BATCH_SIZE;
    }
  }

  /** One turn of the drain: the page is the next stretch of the selection and the new cursor selects what follows. */
  lemma NextPage(s: Store, tags: set<Tag>, cursor: nat, last: nat, k: nat)
    requires Valid(s)
    requires last <= LEGACY_CURSOR_THRESHOLD
    requires forall r | r in Select(s.rows, tags, cursor) :: r.seqno <= LEGACY_CURSOR_THRESHOLD
    requires k <= |Select(s.rows, tags, cursor)|
    requires Select(s.rows, tags, last) == Select(s.rows, tags, cursor)[k..]
    ensures var all, page := Select(s.rows, tags, cursor), Page(s, tags, last);
            && k + |page| <= |all| && page == all[k..k + |page|]
            && |page| == (if |all| - k < 500 then |all| - k else 500)
            && Advance(last, page) <= LEGACY_CURSOR_THRESHOLD
            && Select(s.rows, tags, Advance(last, page)) == all[k + |page|..]
  {
    var all, page := Select(s.rows, tags, cursor), Page(s, tags, last);
    hide Select;
    PageIsPage(s, tags, last);
    if page != [] {
      assert page[|page| - 1] in page;
      assert all[k + |page| - 1] == page[|page| - 1];
      assert all[k + |page| - 1] in all;
      AdvanceAscending(last, page);
      SelectAbove(s, tags, cursor, k + |page|);
    }
  }

  // ------------------------------------------------------------------ legacy cursors

  /**
   A legacy cursor at or above every live key is a fixed point: however often a client
   calls again with the returned cursor, each call returns the batch of cursor 0 and
   echoes the cursor. It sees every matching row exactly when they fit one batch.
   */
  lemma {:induction false} LegacyCursorIsStuck(s: Store, tags: set<Tag>, cursor: nat, cursors: seq<nat>, k: nat)
    requires Valid(s)
    requires cursor > 1_000_000_000_000
    requires forall r | r in s.rows :: r.seqno <= cursor
    requires k < |cursors| && cursors[0] == cursor
    requires forall i | 0 < i < |cursors| :: cursors[i] == Advance(cursors[i - 1], Page(s, tags, cursors[i - 1]))
    ensures cursors[k] == cursor
    ensures Page(s, tags, cursors[k]) == Page(s, tags, 0)
    ensures (forall r | r in s.rows && r.tag in tags :: r in Page(s, tags, cursors[k]))
       <==> |Select(s.rows, tags, 0)| <= 500
  {
    hide Page, Advance, Select;
    LegacyEcho(s, tags, cursor);
    AllInOnePageIff(s, tags);
    if k > 0 {
      LegacyCursorIsStuck(s, tags, cursor, cursors, k - 1);
    }
  }

  lemma LegacyEcho(s: Store, tags: set<Tag>, cursor: nat)
    requires Valid(s) && cursor > LEGACY_CURSOR_THRESHOLD
    requires forall r | r in s.rows :: r.seqno <= cursor
    ensures Page(s, tags, cursor) == Page(s, tags, 0)
    ensures Advance(cursor, Page(s, tags, cursor)) == cursor
  {
    PageIsPage(s, tags, 0);
    AdvanceIsMaximum(cursor, Page(s, tags, 0));
  }

  lemma AllInOnePageIff(s: Store, tags: set<Tag>)
    requires Valid(s)
    ensures (forall r | r in s.rows && r.tag in tags :: r in Page(s, tags, 0))
       <==> |Select(s.rows, tags, 0)| <= FETCH_NOTES_BATCH_SIZE
  {
    var all := Select(s.rows, tags, 0);
    SelectAscending(s, tags, 0);
    if |all| > FETCH_NOTES_BATCH_SIZE {
      var r := all[FETCH_NOTES_BATCH_SIZE];
      assert r in all;
      assert forall p | p in Page(s, tags, 0) :: p.seqno < r.seqno;
    }
  }

  // ------------------------------------------------------------------ several tags

  /** The seq-ordered merge of two pages. */
  function Merge(a: seq<Row>, b: seq<Row>): seq<Row> {
    if a == [] then b
    else if b == [] then a
    else if a[0].seqno <= b[0].seqno then [a[0]] + Merge(a[1..], b)
    else [b[0]] + Merge(a, b[1..])
  }

  lemma {:induction false} SelectUnion(rows: seq<Row>, t1: set<Tag>, t2: set<Tag>, cursor: nat)
    requires Ascending(rows) && t1 !! t2
    ensures Select(rows, t1 + t2, cursor) == Merge(Select(rows, t1, cursor), Select(rows, t2, cursor))
  {
    hide Select;
    if rows != [] {
      assert Ascending(rows[1..]);
      SelectUnion(rows[1..], t1, t2, cursor);
      var a, b := Select(rows[1..], t1, cursor), Select(rows[1..], t2, cursor);
      SelectStep(rows, t1, cursor);
      SelectStep(rows, t2, cursor);
      SelectStep(rows, t1 + t2, cursor);
      Selected(rows[1..], t1, cursor);
      Selected(rows[1..], t2, cursor);
      assert forall r | r in a || r in b :: rows[0].seqno < r.seqno;
      if Wanted(rows[0], t1, cursor) {
        assert ([rows[0]] + a)[1..] == a;
        assert b != [] ==> b[0] in b;
      } else if Wanted(rows[0], t2, cursor) {
        assert ([rows[0]] + b)[1..] == b;
        assert a != [] ==> a[0] in a;
      }
    } else {
      SelectNothing(t1, cursor);
      SelectNothing(t2, cursor);
      SelectNothing(t1 + t2, cursor);
    }
  }

  lemma SelectNothing(tags: set<Tag>, cursor: nat)
    ensures Select([], tags, cursor) == []
  {
  }

  lemma SelectStep(rows: seq<Row>, tags: set<Tag>, cursor: nat)
    requires rows != []
    ensures Select(rows, tags, cursor)
         == if Wanted(rows[0], tags, cursor) then [rows[0]] + Select(rows[1..], tags, cursor)
            else Select(rows[1..], tags, cursor)
  {
  }

  lemma FirstOfCons(x: Row, xs: seq<Row>, n: nat)
    requires n > 0
    ensures FirstRows([x] + xs, n) == [x] + FirstRows(xs, n - 1)
  {
  }

  lemma FirstTail(xs: seq<Row>, n: nat)
    requires xs != [] && n > 0
    ensures FirstRows(xs, n) != [] && FirstRows(xs, n)[0] == xs[0]
    ensures FirstRows(xs, n)[1..] == FirstRows(xs[1..], n - 1)
  {
  }

  /** Cutting the operands at or above the limit does not change the first rows of a merge. */
  lemma {:induction false} FirstOfMerge(a: seq<Row>, b: seq<Row>, n: nat, la: nat, lb: nat)
    requires n <= la && n <= lb
    ensures FirstRows(Merge(a, b), n) == FirstRows(Merge(FirstRows(a, la), FirstRows(b, lb)), n)
    decreases n
  {
    var fa, fb := FirstRows(a, la), FirstRows(b, lb);
    if n > 0 && a != [] && b != [] {
      FirstTail(a, la);
      FirstTail(b, lb);
      if a[0].seqno <= b[0].seqno {
        FirstOfMerge(a[1..], b, n - 1, la - 1, lb);
        FirstOfCons(a[0], Merge(a[1..], b), n);
        FirstOfCons(a[0], Merge(fa[1..], fb), n);
      } else {
        FirstOfMerge(a, b[1..], n - 1, la, lb - 1);
        FirstOfCons(b[0], Merge(a, b[1..]), n);
        FirstOfCons(b[0], Merge(fa, fb[1..]), n);
      }
    }
  }

  predicate Distinct<T(==)>(xs: seq<T>) {
    forall i, j | 0 <= i < j < |xs| :: xs[i] != xs[j]
  }

  function TagSet(tags: seq<Tag>): set<Tag> {
    set t | t in tags
  }

  /** The merge of the single-tag fetches of a tag list on one snapshot. */
  function MergedPages(s: Store, tags: seq<Tag>, cursor: nat): seq<Row> {
    if tags == [] then []
    else Merge(MergedPages(s, tags[..|tags| - 1], cursor), Page(s, {tags[|tags| - 1]}, cursor))
  }

  /** The multi-tag page is the start of the merge of the single-tag pages: 500 per tag suffice. */
  lemma {:induction false} MultiTagIsMerge(s: Store, tags: seq<Tag>, cursor: nat)
    requires Ascending(s.rows) && Distinct(tags)
    ensures Page(s, TagSet(tags), cursor) == FirstRows(MergedPages(s, tags, cursor), FETCH_NOTES_BATCH_SIZE)
  {
    var n := FETCH_NOTES_BATCH_SIZE;
    var c := EffectiveCursor(cursor);
    if tags == [] {
      FilterNone((r: Row) => Wanted(r, TagSet(tags), c), s.rows);
    } else {
      var front, last := tags[..|tags| - 1], tags[|tags| - 1];
      MultiTagIsMerge(s, front, cursor);
      assert tags == front + [last];
      assert TagSet(tags) == TagSet(front) + {last};
      SelectUnion(s.rows, TagSet(front), {last}, c);
      FirstOfMerge(Select(s.rows, TagSet(front), c), Select(s.rows, {last}, c), n, n, n);
      FirstOfMerge(MergedPages(s, front, cursor), Page(s, {last}, cursor), n, n, n);
    }
  }

  // --------------------------------------------------- why one snapshot is needed

  /** The loop the handler replaced: one query per tag, each on its own snapshot, one cursor for both. */
  function PerTagCursor(s1: Store, s2: Store, t1: Tag, t2: Tag, cursor: nat): nat {
    Advance(Advance(cursor, Page(s1, {t1}, cursor)), Page(s2, {t2}, cursor))
  }

  /** A row the per-tag loop leaps over: live, wanted, not above the new cursor, in neither batch. */
  predicate Leapt(s1: Store, s2: Store, t1: Tag, t2: Tag, cursor: nat, r: Row) {
    && r in s2.rows && r.tag in {t1, t2}
    && cursor < r.seqno <= PerTagCursor(s1, s2, t1, t2, cursor)
    && r !in Page(s1, {t1}, cursor) && r !in Page(s2, {t2}, cursor)
  }

  /**
   Every caught-up client of the per-tag loop loses a note when one note of each tag
   arrives between its two queries; the single query on the later snapshot returns both.
   */
  lemma PerTagLoopLosesANote(s1: Store, t1: Tag, t2: Tag, n1: NewNote, n2: NewNote)
    requires Valid(s1) && s1.counter + 2 <= LEGACY_CURSOR_THRESHOLD
    requires t1 != t2 && n1.tag == t1 && n2.tag == t2
    requires !HasId(s1.rows, n1.id) && !HasId(s1.rows, n2.id) && n1.id != n2.id
    ensures var r1, r2 := ToRow(n1, s1.counter + 1), ToRow(n2, s1.counter + 2);
            var s2 := Store(s1.rows + [r1, r2], s1.counter + 2);
            && Insert(s1, n1).Ok? && Insert(Insert(s1, n1).value, n2).Ok?
            && Insert(Insert(s1, n1).value, n2).value == s2
            && Leapt(s1, s2, t1, t2, s1.counter, r1)
            && Page(s2, {t1, t2}, s1.counter) == [r1, r2]
  {
    hide Page, Leapt;
    var r1, r2 := ToRow(n1, s1.counter + 1), ToRow(n2, s1.counter + 2);
    TwoInserts(s1, n1, n2);
    TwoAdded(s1, t1, t2, r1, r2);
  }

  lemma TwoInserts(s: Store, n1: NewNote, n2: NewNote)
    requires Valid(s) && s.counter + 2 <= I64_MAX
    requires !HasId(s.rows, n1.id) && !HasId(s.rows, n2.id) && n1.id != n2.id
    ensures Insert(s, n1).Ok?
    ensures Insert(Insert(s, n1).value, n2)
         == Ok(Store(s.rows + [ToRow(n1, s.counter + 1), ToRow(n2, s.counter + 2)], s.counter + 2))
  {
    var r1, r2 := ToRow(n1, s.counter + 1), ToRow(n2, s.counter + 2);
    assert s.rows + [r1] + [r2] == s.rows + [r1, r2];
    assert HasId(s.rows + [r1], n2.id) ==> HasId(s.rows, n2.id);
  }

  lemma TwoAdded(s1: Store, t1: Tag, t2: Tag, r1: Row, r2: Row)
    requires Valid(s1) && s1.counter + 2 <= LEGACY_CURSOR_THRESHOLD
    requires t1 != t2 && r1.tag == t1 && r2.tag == t2
    requires r1.seqno == s1.counter + 1 && r2.seqno == s1.counter + 2
    ensures var s2 := Store(s1.rows + [r1, r2], s1.counter + 2);
            && Leapt(s1, s2, t1, t2, s1.counter, r1)
            && Page(s2, {t1, t2}, s1.counter) == [r1, r2]
  {
    CaughtUp(s1, {t1});
    AddedAbove(s1, [r1, r2], {t1, t2});
    AddedAbove(s1, [r1, r2], {t2});
    assert Advance(s1.counter, [r2]) == r2.seqno by { assert [r2][..0] == []; }
    assert r1 in [r1, r2];
  }

  lemma CaughtUp(s: Store, tags: set<Tag>)
    requires Valid(s)
    ensures Select(s.rows, tags, s.counter) == []
  {
    FilterNone((r: Row) => Wanted(r, tags, s.counter), s.rows);
  }

  /** Above the old counter a grown table shows just the wanted ones of its two new rows. */
  lemma AddedAbove(s: Store, added: seq<Row>, tags: set<Tag>)
    requires Valid(s) && |added| == 2
    requires added[0].seqno > s.counter && added[1].seqno > s.counter
    ensures Select(s.rows + added, tags, s.counter)
         == (if added[0].tag in tags then [added[0]] else []) + (if added[1].tag in tags then [added[1]] else [])
  {
    hide Select, Valid;
    CaughtUp(s, tags);
    assert s.rows + added == (s.rows + [added[0]]) + [added[1]];
    SelectOneMore(s.rows, added[0], tags, s.counter);
    SelectOneMore(s.rows + [added[0]], added[1], tags, s.counter);
  }
}
