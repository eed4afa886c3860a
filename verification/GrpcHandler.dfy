/** The request handlers: sending one note, and fetching by tags with the response-cursor loop. */
module GrpcHandler {
  import opened Wrappers
  import opened Notes
  import opened Store
  import opened Paging
  import opened Transactions
  import opened SqliteBackend

  const MAX_TAGS_PER_FETCH_REQUEST: nat := 128

  datatype Status = InvalidArgument | ResourceExhausted | Internal

  datatype FetchRequest = FetchRequest(tags: seq<Tag>, cursor: U64)

  datatype FetchResponse = FetchResponse(notes: seq<TransportNote>, cursor: nat)

  function ToTransportAll(c: Codec, notes: seq<StoredNote>): seq<TransportNote> {
    seq(|notes|, i requires 0 <= i < |notes| => ToTransport(c, notes[i]))
  }

  /** What a fetch answers on a committed table. */
  function HandleFetch(c: Codec, s: Store, req: FetchRequest): Result<FetchResponse, Status> {
    if |req.tags| > MAX_TAGS_PER_FETCH_REQUEST then Err(InvalidArgument)
    else
      var page := Page(s, TagSet(req.tags), req.cursor);
      match DecodeAll(c, page)
      case Err(_) => Err(Internal)
      case Ok(notes) => Ok(FetchResponse(ToTransportAll(c, notes), Advance(req.cursor, page)))
  }

  /** What a send does to the committed table. */
  function HandleSend(c: Codec, s: Store, maxSize: nat, note: Option<TransportNote>, now: Timestamp)
    : (Store, Result<(), Status>)
  {
    match note
    case None => (s, Err(InvalidArgument))
    case Some(n) =>
      if |n.header| + |n.details| > maxSize then (s, Err(ResourceExhausted))
      else
        match c.decode(n.header)
        case None => (s, Err(InvalidArgument))
        case Some(h) =>
          match Insert(s, ToNewNote(c, StoredNote(h, n.details, now, 0, n.afterBlock)))
          case Err(_) => (s, Err(Internal))
          case Ok(s') => (s', Ok(()))
  }

  class GrpcServer {
    const database: SqliteDatabase
    const maxNoteSize: nat

    constructor (database: SqliteDatabase, maxNoteSize: nat)
      ensures this.database == database && this.maxNoteSize == maxNoteSize
    {
      this.database := database;
      this.maxNoteSize := maxNoteSize;
    }

    /** A rejected note, for whatever reason, leaves the database and its history as they were. */
    method SendNote(note: Option<TransportNote>, now: Timestamp) returns (res: Result<(), Status>)
      requires database.Valid() && database.txn.None?
      modifies database
      ensures database.Valid() && database.txn.None?
      ensures (database.committed, res) == HandleSend(database.codec, old(database.committed), maxNoteSize, note, now)
      ensures res.Err? ==> database.View() == old(database.View())
      ensures res.Ok? ==>
                var rows := database.committed.rows;
                rows != [] && database.log == old(database.log) + [Stored(rows[|rows| - 1])]
    {
      if note.None? { return Err(InvalidArgument); }
      var n := note.value;
      if |n.header| + |n.details| > maxNoteSize { return Err(ResourceExhausted); }
      match database.codec.decode(n.header) {
        case None => return Err(InvalidArgument);
        case Some(h) =>
          var stored := database.StoreNote(StoredNote(h, n.details, now, 0, n.afterBlock));
          res := if stored.Ok? then Ok(()) else Err(Internal);
      }
    }

    /** The tag list of the query: the request's tags as a BTreeSet yields them. */
    method DedupTags(raw: seq<Tag>) returns (tags: seq<Tag>)
      ensures forall i, j | 0 <= i < j < |tags| :: tags[i] < tags[j]
      ensures TagSet(tags) == TagSet(raw)
    {
      tags := [];
      var k := 0;
      while k < |raw|
        invariant k <= |raw|
        invariant forall i, j | 0 <= i < j < |tags| :: tags[i] < tags[j]
        invariant TagSet(tags) == TagSet(raw[..k])
      {
        var t := raw[k];
        var p := 0;
        while p < |tags| && tags[p] < t
          invariant p <= |tags|
          invariant forall i | 0 <= i < p :: tags[i] < t
        {
          p := p + 1;
        }
        assert TagSet(raw[..k + 1]) == TagSet(raw[..k]) + {t};
        if p == |tags| || tags[p] != t {
          ghost var before := tags;
          tags := tags[..p] + [t] + tags[p..];
          assert before == before[..p] + before[p..];
          assert TagSet(tags) == TagSet(before) + {t};
        }
        k := k + 1;
      }
      assert raw[..k] == raw;
    }

    /** Deduplicate, query one snapshot, advance the cursor over the batch, convert. */
    method FetchNotes(req: FetchRequest) returns (res: Result<FetchResponse, Status>)
      requires database.Valid()
      ensures res == HandleFetch(database.codec, database.committed, req)
    {
      if |req.tags| > MAX_TAGS_PER_FETCH_REQUEST {
        return Err(InvalidArgument);
      }
      var tags := DedupTags(req.tags);
      var fetched := database.FetchNotesByTags(tags, req.cursor);
      if fetched.Err? { return Err(Internal); }
      ghost var page := Page(database.committed, TagSet(req.tags), req.cursor);
      DecodeAllIff(database.codec, page);
      DecodeKeepsKeys(database.codec, database.committed, TagSet(req.tags), req.cursor);
      var rcursor := ResponseCursor(req.cursor, fetched.value, page);
      res := Ok(FetchResponse(ToTransportAll(database.codec, fetched.value), rcursor));
    }

    /** The running maximum over the fetched notes, which carry the keys of the page they were decoded from. */
    method ResponseCursor(cursor: U64, stored: seq<StoredNote>, ghost page: seq<Row>) returns (rcursor: nat)
      requires |stored| == |page|
      requires forall i | 0 <= i < |page| :: stored[i].seqno == page[i].seqno
      ensures rcursor == Advance(cursor, page)
    {
      rcursor := cursor;
      var i := 0;
      while i < |stored|
        invariant i <= |stored|
        invariant rcursor == Advance(cursor, page[..i])
      {
        assert page[..i + 1][..i] == page[..i];
        rcursor := Max(rcursor, stored[i].seqno);
        i := i + 1;
      }
      assert page[..i] == page;
    }
  }

  lemma DecodeKeepsKeys(c: Codec, s: Store, tags: set<Tag>, cursor: nat)
    requires Valid(s)
    ensures var page := Page(s, tags, cursor);
            && (forall r | r in page :: r.seqno >= 1)
            && (DecodeAll(c, page).Ok? ==>
                  && |DecodeAll(c, page).value| == |page|
                  && forall i | 0 <= i < |page| :: DecodeAll(c, page).value[i].seqno == page[i].seqno)
  {
    var page := Page(s, tags, cursor);
    PageIsPage(s, tags, cursor);
    DecodeAllIff(c, page);
    forall r | r in page ensures Decode(c, r).Ok? ==> Decode(c, r).value.seqno == r.seqno {
      DecodesIff(c, r);
    }
  }

  // -------------------------------------------------------------- end-to-end laws

  ghost predicate RowsWellFormed(c: Codec, s: Store) {
    forall r | r in s.rows :: WellFormed(c, r)
  }

  /** Whatever is sent or cleaned up, every row stays one that `store_note` wrote. */
  lemma SendAndCleanupKeepWellFormed(
    c: Codec, s: Store, maxSize: nat, note: Option<TransportNote>, now: Timestamp, cutoff: I64)
    requires RowsWellFormed(c, s)
    ensures RowsWellFormed(c, HandleSend(c, s, maxSize, note, now).0)
    ensures RowsWellFormed(c, Cleanup(s, cutoff))
  {
  }

  /**
   With which status a fetch fails, on any table: InvalidArgument exactly for more than
   128 raw tags, else Internal exactly if some row of the page does not decode.
   */
  lemma FetchStatusIff(c: Codec, s: Store, req: FetchRequest)
    ensures HandleFetch(c, s, req) == Err(InvalidArgument) <==> |req.tags| > 128
    ensures HandleFetch(c, s, req) == Err(Internal)
       <==> |req.tags| <= 128 && exists r | r in Page(s, TagSet(req.tags), req.cursor) :: Decode(c, r).Err?
    ensures HandleFetch(c, s, req) != Err(ResourceExhausted)
  {
    hide Page, Decode, Advance;
    DecodeAllIff(c, Page(s, TagSet(req.tags), req.cursor));
  }

  /** A fetch on such a table fails for too many tags only. */
  lemma FetchFailsOnlyOnTooManyTags(c: Codec, s: Store, req: FetchRequest)
    requires RoundTrips(c) && Valid(s) && RowsWellFormed(c, s)
    ensures HandleFetch(c, s, req).Err? <==> |req.tags| > 128
  {
    var page := Page(s, TagSet(req.tags), req.cursor);
    PageIsPage(s, TagSet(req.tags), req.cursor);
    DecodeAllIff(c, page);
    forall r | r in page ensures Decode(c, r).Ok? {
      WellFormedDecodes(c, r);
    }
  }

  /**
   Two requests that differ in order and repetition of their tags get the same
   response exactly when the raw lists are on the same side of the cap.
   */
  lemma TagOrderAndRepetitionIff(c: Codec, s: Store, a: FetchRequest, b: FetchRequest)
    requires RoundTrips(c) && Valid(s) && RowsWellFormed(c, s)
    requires TagSet(a.tags) == TagSet(b.tags) && a.cursor == b.cursor
    ensures HandleFetch(c, s, a) == HandleFetch(c, s, b)
       <==> (|a.tags| <= 128 <==> |b.tags| <= 128)
  {
  }

  /** The wire form of a row: what any fetch returns for it. */
  function Wire(c: Codec, r: Row): TransportNote
    requires Decode(c, r).Ok?
  {
    ToTransport(c, Decode(c, r).value)
  }

  /**
   A response carries the wire form of each row of the page, in page order. Its cursor is
   the request cursor if the page is empty, else the larger of that and the page's last
   key, which is the documented highest key exactly when the request cursor is not legacy
   or does not lie above it.
   */
  lemma ResponseIsThePage(c: Codec, s: Store, req: FetchRequest)
    requires RoundTrips(c) && Valid(s) && RowsWellFormed(c, s) && |req.tags| <= 128
    ensures var page, res := Page(s, TagSet(req.tags), req.cursor), HandleFetch(c, s, req);
            && res.Ok? && |res.value.notes| == |page|
            && (forall i | 0 <= i < |page| :: Decode(c, page[i]).Ok? && res.value.notes[i] == Wire(c, page[i]))
            && (page == [] ==> res.value.cursor == req.cursor)
            && (page != [] ==>
                  var last := page[|page| - 1].seqno;
                  && res.value.cursor == Max(req.cursor, last)
                  && (forall r | r in page :: r.seqno <= last)
                  && (res.value.cursor == last <==> req.cursor <= 1_000_000_000_000 || last >= req.cursor))
  {
    hide Page, Decode, DecodeAll, Valid, RowsWellFormed;
    FetchFailsOnlyOnTooManyTags(c, s, req);
    var page := Page(s, TagSet(req.tags), req.cursor);
    DecodeAllIff(c, page);
    if page != [] {
      hide Advance;
      CursorIsLastKeyIff(s, TagSet(req.tags), req.cursor);
    }
  }

  /**
   End to end: an accepted note reaches every caught-up client that asks for its tag,
   as the next and only note, equal to what was sent up to canonical header bytes.
   */
  lemma SentNoteIsFetched(
    c: Codec, s: Store, maxSize: nat, note: TransportNote, now: Timestamp, req: FetchRequest)
    requires RoundTrips(c) && Valid(s) && RowsWellFormed(c, s)
    requires HandleSend(c, s, maxSize, Some(note), now).1.Ok?
    requires |req.tags| <= 128 && c.decode(note.header).value.tag in req.tags
    requires req.cursor == s.counter <= 1_000_000_000_000
    ensures HandleFetch(c, HandleSend(c, s, maxSize, Some(note), now).0, req)
         == Ok(FetchResponse([note.(header := c.encode(c.decode(note.header).value))], s.counter + 1))
  {
    hide Page, Advance, DecodeAll, Decode, Valid;
    var h := c.decode(note.header).value;
    var row := ToRow(ToNewNote(c, StoredNote(h, note.details, now, 0, note.afterBlock)), s.counter + 1);
    assert HandleSend(c, s, maxSize, Some(note), now).0 == Store(s.rows + [row], s.counter + 1);
    NewRowIsNextPage(s, row, TagSet(req.tags));
    WireRoundTrip(c, note, now, s.counter + 1);
    DecodeOne(c, row);
    assert ToTransportAll(c, [Decode(c, row).value]) == [ToTransport(c, Decode(c, row).value)];
  }

  lemma NewRowIsNextPage(s: Store, row: Row, tags: set<Tag>)
    requires Valid(s) && s.counter <= LEGACY_CURSOR_THRESHOLD
    requires row.seqno == s.counter + 1 && row.tag in tags
    ensures Page(Store(s.rows + [row], s.counter + 1), tags, s.counter) == [row]
    ensures Advance(s.counter, [row]) == s.counter + 1
  {
    hide Select, Valid;
    CaughtUp(s, tags);
    SelectOneMore(s.rows, row, tags, s.counter);
    assert [row][..0] == [];
  }

  lemma DecodeOne(c: Codec, row: Row)
    requires Decode(c, row).Ok?
    ensures DecodeAll(c, [row]) == Ok([Decode(c, row).value])
  {
    var none: seq<StoredNote> := [];
    assert [row][..0] == [];
    assert none + [Decode(c, row).value] == [Decode(c, row).value];
  }

  /**
   Exactly which notes are accepted, with which status the others are refused, and that a
   refusal leaves the table alone. An accepted note becomes the last row, under the next
   key: id and tag of its header, the header written anew, details and block as sent, and
   the time of the call.
   */
  lemma SendAcceptsIff(c: Codec, s: Store, maxSize: nat, note: Option<TransportNote>, now: Timestamp)
    ensures var (s', res) := HandleSend(c, s, maxSize, note, now);
            var fits := note.Some? && |note.value.header| + |note.value.details| <= maxSize;
            var decodes := note.Some? && c.decode(note.value.header).Some?;
            var free := s.counter < 9_223_372_036_854_775_807
                        && (decodes ==> forall r | r in s.rows :: r.id != c.decode(note.value.header).value.id);
            && (res.Ok? <==> fits && decodes && free)
            && (res == Err(ResourceExhausted) <==> note.Some? && !fits)
            && (res == Err(InvalidArgument) <==> note.None? || (fits && !decodes))
            && (res == Err(Internal) <==> fits && decodes && !free)
            && (res.Err? ==> s' == s)
            && (res.Ok? ==>
                  && s'.counter == s.counter + 1 && |s'.rows| == |s.rows| + 1 && s'.rows[..|s.rows|] == s.rows
                  && var r, h, n := s'.rows[|s.rows|], c.decode(note.value.header).value, note.value;
                     && r.seqno == s.counter + 1 && r.id == h.id && r.tag == h.tag
                     && r.header == c.encode(h) && r.details == n.details && r.createdAt == Micros(now)
                     && (r.afterBlock.Some? <==> n.afterBlock.Some?)
                     && (r.afterBlock.Some? ==> r.afterBlock.value == n.afterBlock.value))
  {
  }

  /**
   How long an accepted note is kept: a cleanup keeps its row exactly if the cutoff is not
   after the note's time; in particular while it is not older than the retention period.
   */
  lemma SentNoteIsKeptIff(
    c: Codec, s: Store, maxSize: nat, note: Option<TransportNote>, now: Timestamp, later: Timestamp, days: U32)
    requires Valid(s) && HandleSend(c, s, maxSize, note, now).1.Ok?
    requires MIN_SECONDS * 1_000_000_000 <= later - days * 86_400_000_000_000
    ensures var s' := HandleSend(c, s, maxSize, note, now).0;
            && s'.rows != []
            && var row := s'.rows[|s'.rows| - 1];
               && (forall cutoff: int :: row in Cleanup(s', cutoff).rows <==> cutoff <= Micros(now))
               && (later - now <= days * 86_400_000_000_000 ==>
                     row in Cleanup(s', Micros(later - days * 86_400_000_000_000)).rows)
  {
    var s' := HandleSend(c, s, maxSize, note, now).0;
    SendAcceptsIff(c, s, maxSize, note, now);
    hide HandleSend;
    assert s'.rows[|s.rows|] in s'.rows;
  }

  /** Sending a note whose id is live is refused, and the first copy stays as it is. */
  lemma DuplicateIsRefused(c: Codec, s: Store, maxSize: nat, note: TransportNote, now: Timestamp, later: Timestamp)
    requires RoundTrips(c) && Valid(s)
    requires HandleSend(c, s, maxSize, Some(note), now).1.Ok?
    ensures var s' := HandleSend(c, s, maxSize, Some(note), now).0;
            HandleSend(c, s', maxSize, Some(note), later) == (s', Err(Internal))
  {
  }
}
