/** Retention over runs of stores and cleanups: what is kept, in which order, and how it is counted. */
module Retention {
  import opened Filters
  import opened Notes
  import opened Store

  datatype Op = Put(note: NewNote) | Clean(cutoff: I64)

  /** A table with the number of successful stores and the sum of what the cleanups returned. */
  datatype Tally = Tally(store: Store, stored: nat, cleaned: nat)

  /** The value `cleanup_old_notes` returns: the deleted count through an i64, 0 if it does not fit. */
  function CleanupResult(s: Store, cutoff: I64): U64 {
    if |Expired(s, cutoff)| > I64_MAX then 0 else |Expired(s, cutoff)|
  }

  function Apply(t: Tally, op: Op): Tally {
    match op
    case Put(n) =>
      (match Insert(t.store, n)
       case Err(_) => t
       case Ok(s) => Tally(s, t.stored + 1, t.cleaned))
    case Clean(cutoff) =>
      Tally(Cleanup(t.store, cutoff), t.stored, t.cleaned + CleanupResult(t.store, cutoff))
  }

  function Run(t: Tally, ops: seq<Op>): Tally {
    if ops == [] then t
    else Apply(Run(t, ops[..|ops| - 1]), ops[|ops| - 1])
  }

  /** The largest cutoff of a run; nothing is older than the smallest i64. */
  function LargestCutoff(ops: seq<Op>): I64 {
    if ops == [] then I64_MIN
    else
      var c := LargestCutoff(ops[..|ops| - 1]);
      match ops[|ops| - 1]
      case Put(_) => c
      case Clean(cutoff) => if c < cutoff then cutoff else c
  }

  function OldPart(rows: seq<Row>, counter: nat): seq<Row> {
    Filter((r: Row) => r.seqno <= counter, rows)
  }

  function NotOlder(rows: seq<Row>, cutoff: I64): seq<Row> {
    Filter((r: Row) => r.createdAt >= cutoff, rows)
  }

  lemma {:induction false} RunKeepsValid(t: Tally, ops: seq<Op>)
    requires Valid(t.store)
    ensures Valid(Run(t, ops).store)
    ensures t.store.counter <= Run(t, ops).store.counter
  {
    if ops != [] {
      var mid := Run(t, ops[..|ops| - 1]);
      RunKeepsValid(t, ops[..|ops| - 1]);
      if ops[|ops| - 1].Clean? {
        CleanupKeepsValid(mid.store, ops[|ops| - 1].cutoff);
      }
    }
  }

  /** Conservation: successful stores are the live rows and what the cleanups reported. */
  lemma {:induction false} StoresAreLiveOrCleaned(t: Tally, ops: seq<Op>)
    requires Valid(t.store) && t.stored == |t.store.rows| + t.cleaned
    ensures Run(t, ops).stored == |Run(t, ops).store.rows| + Run(t, ops).cleaned
  {
    if ops != [] {
      var mid := Run(t, ops[..|ops| - 1]);
      StoresAreLiveOrCleaned(t, ops[..|ops| - 1]);
      RunKeepsValid(t, ops[..|ops| - 1]);
      if ops[|ops| - 1].Clean? {
        CleanupKeepsValid(mid.store, ops[|ops| - 1].cutoff);
        RowsWithinCounter(mid.store);
      }
    }
  }

  lemma InsertLeavesOldPart(s: Store, n: NewNote, counter: nat)
    requires counter <= s.counter && Insert(s, n).Ok?
    ensures OldPart(Insert(s, n).value.rows, counter) == OldPart(s.rows, counter)
  {
    FilterConcat((r: Row) => r.seqno <= counter, s.rows, [ToRow(n, s.counter + 1)]);
  }

  lemma CleanupFiltersOldPart(s: Store, cutoff: I64, counter: nat)
    ensures OldPart(Cleanup(s, cutoff).rows, counter) == NotOlder(OldPart(s.rows, counter), cutoff)
  {
    var both := (r: Row) => r.seqno <= counter && r.createdAt >= cutoff;
    FilterFilter((r: Row) => r.createdAt >= cutoff, (r: Row) => r.seqno <= counter, both, s.rows);
    FilterFilter((r: Row) => r.seqno <= counter, (r: Row) => r.createdAt >= cutoff, both, s.rows);
  }

  lemma NotOlderTwice(rows: seq<Row>, c1: I64, c2: I64)
    ensures NotOlder(NotOlder(rows, c1), c2) == NotOlder(rows, if c1 < c2 then c2 else c1)
  {
    var c: I64 := if c1 < c2 then c2 else c1;
    FilterFilter((r: Row) => r.createdAt >= c1, (r: Row) => r.createdAt >= c2, (r: Row) => r.createdAt >= c, rows);
  }

  /**
   Cleanups of a run compose to one cleanup at the largest cutoff, for the rows that
   were there at its start; the survivors keep their keys and their order.
   */
  lemma {:induction false} SurvivorsOfARun(t: Tally, ops: seq<Op>)
    requires Valid(t.store)
    ensures OldPart(Run(t, ops).store.rows, t.store.counter) == NotOlder(t.store.rows, LargestCutoff(ops))
  {
    var counter := t.store.counter;
    if ops == [] {
      FilterAll((r: Row) => r.seqno <= counter, t.store.rows);
      FilterAll((r: Row) => r.createdAt >= I64_MIN, t.store.rows);
      FilterExt((r: Row) => r.createdAt >= I64_MIN, (r: Row) => r.createdAt >= LargestCutoff(ops), t.store.rows);
    } else {
      var front, op := ops[..|ops| - 1], ops[|ops| - 1];
      var mid := Run(t, front);
      SurvivorsOfARun(t, front);
      RunKeepsValid(t, front);
      match op
      case Put(n) =>
        if Insert(mid.store, n).Ok? {
          InsertLeavesOldPart(mid.store, n, counter);
        }
      case Clean(cutoff) =>
        CleanupFiltersOldPart(mid.store, cutoff, counter);
        NotOlderTwice(t.store.rows, LargestCutoff(front), cutoff);
    }
  }

  /** What an unlimited fetch sees of the old rows after a run is the old fetch, filtered by age. */
  lemma LaterFetchIsOldFetchByAge(t: Tally, ops: seq<Op>, tags: set<Tag>, cursor: nat)
    requires Valid(t.store)
    ensures OldPart(Select(Run(t, ops).store.rows, tags, cursor), t.store.counter)
         == NotOlder(Select(t.store.rows, tags, cursor), LargestCutoff(ops))
  {
    var rows, counter, c := Run(t, ops).store.rows, t.store.counter, LargestCutoff(ops);
    SurvivorsOfARun(t, ops);
    var wanted := (r: Row) => Wanted(r, tags, cursor);
    var wantedOld := (r: Row) => Wanted(r, tags, cursor) && r.seqno <= counter;
    FilterFilter(wanted, (r: Row) => r.seqno <= counter, wantedOld, rows);
    FilterFilter((r: Row) => r.seqno <= counter, wanted, wantedOld, rows);
    var wantedYoung := (r: Row) => Wanted(r, tags, cursor) && r.createdAt >= c;
    FilterFilter(wanted, (r: Row) => r.createdAt >= c, wantedYoung, t.store.rows);
    FilterFilter((r: Row) => r.createdAt >= c, wanted, wantedYoung, t.store.rows);
  }
}
