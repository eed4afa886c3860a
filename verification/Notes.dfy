/**
 The note in its four shapes, and the conversions between them:
 wire form (`TransportNote`), domain form (`StoredNote`), the columns of an
 INSERT (`NewNote`) and a table row (`Row`).
 */
module Notes {
  import opened Wrappers

  const U32_LIMIT: int := 0x1_0000_0000
  const U64_LIMIT: int := 0x1_0000_0000_0000_0000
  const I64_MAX: int := 0x7FFF_FFFF_FFFF_FFFF
  const I64_MIN: int := -0x8000_0000_0000_0000

  type Byte = b: int | 0 <= b < 256
  type Bytes = seq<Byte>
  type U32 = n: int | 0 <= n < U32_LIMIT
  type U64 = n: int | 0 <= n < U64_LIMIT
  type I64 = n: int | I64_MIN <= n <= I64_MAX
  type Tag = U32

  // The range of a UTC date-time of the chrono library, in whole seconds.
  const MIN_SECONDS: int := -8_334_601_228_800
  const MAX_SECONDS: int := 8_210_266_876_799

  /** Nanoseconds since the epoch, within the date-time range. */
  type Timestamp = ns: int | MIN_SECONDS * 1_000_000_000 <= ns < (MAX_SECONDS + 1) * 1_000_000_000
    witness 0

  /** A note header: all that the service reads from it is its id and its tag. */
  datatype NoteHeader = NoteHeader(id: Bytes, tag: Tag, rest: Bytes)

  /** The header serialization is external: any pair of functions. */
  datatype Codec = Codec(encode: NoteHeader -> Bytes, decode: Bytes -> Option<NoteHeader>)

  /** What is assumed of the serialization: reading back what was written. */
  ghost predicate RoundTrips(c: Codec) {
    forall h: NoteHeader :: c.decode(c.encode(h)) == Some(h)
  }

  datatype TransportNote = TransportNote(header: Bytes, details: Bytes, afterBlock: Option<U32>)

  datatype StoredNote = StoredNote(
    header: NoteHeader, details: Bytes, createdAt: Timestamp, seqno: I64, afterBlock: Option<U32>)

  datatype NewNote = NewNote(
    id: Bytes, tag: I64, header: Bytes, details: Bytes, createdAt: I64, afterBlock: Option<I64>)

  datatype Row = Row(
    seqno: I64, id: Bytes, tag: I64, header: Bytes, details: Bytes, createdAt: I64, afterBlock: Option<I64>)

  datatype DecodeError = InvalidTimestamp(micros: I64) | InvalidHeader | InvalidAfterBlock(n: I64)

  /** `timestamp_micros`: the sub-microsecond part is cut off towards the past. */
  function Micros(t: Timestamp): (m: I64)
    ensures m * 1000 <= t < (m + 1) * 1000
    ensures MIN_SECONDS * 1_000_000 <= m < (MAX_SECONDS + 1) * 1_000_000
  {
    t / 1000
  }

  function ToNewNote(c: Codec, n: StoredNote): NewNote {
    NewNote(n.header.id, n.header.tag, c.encode(n.header), n.details, Micros(n.createdAt),
            match n.afterBlock case None => None case Some(b) => Some(b))
  }

  /** The row an INSERT makes of the given columns under the assigned key. */
  function ToRow(n: NewNote, key: I64): Row {
    Row(key, n.id, n.tag, n.header, n.details, n.createdAt, n.afterBlock)
  }

  function Decode(c: Codec, r: Row): Result<StoredNote, DecodeError> {
    if !(MIN_SECONDS * 1_000_000 <= r.createdAt < (MAX_SECONDS + 1) * 1_000_000) then
      Err(InvalidTimestamp(r.createdAt))
    else
      match c.decode(r.header)
      case None => Err(InvalidHeader)
      case Some(h) =>
        match r.afterBlock
        case None => Ok(StoredNote(h, r.details, r.createdAt * 1000, r.seqno, None))
        case Some(b) =>
          if 0 <= b < U32_LIMIT then Ok(StoredNote(h, r.details, r.createdAt * 1000, r.seqno, Some(b)))
          else Err(InvalidAfterBlock(b))
  }

  function ToTransport(c: Codec, n: StoredNote): TransportNote {
    TransportNote(c.encode(n.header), n.details, n.afterBlock)
  }

  /** A row as `store_note` writes them: the columns of some domain note. */
  ghost predicate WellFormed(c: Codec, r: Row) {
    exists n: StoredNote :: r == ToRow(ToNewNote(c, n), r.seqno)
  }

  /**
   A row written for a note decodes to that note: only the key is new, and the
   time is floored to microseconds.
   */
  lemma RowRoundTrip(c: Codec, n: StoredNote, key: I64)
    requires RoundTrips(c)
    ensures var m := Micros(n.createdAt);
            Decode(c, ToRow(ToNewNote(c, n), key)) == Ok(n.(createdAt := m * 1000, seqno := key))
  {
  }

  /**
   A row decodes exactly when its three checked columns are in range, which the error
   tells apart, and a decoded note has the row's columns and its key.
   */
  lemma DecodesIff(c: Codec, r: Row)
    ensures var inTime := -8_334_601_228_800_000_000 <= r.createdAt < 8_210_266_876_800_000_000;
            var inBlocks := r.afterBlock.Some? ==> 0 <= r.afterBlock.value <= 4_294_967_295;
            && (Decode(c, r).Ok? <==> inTime && c.decode(r.header).Some? && inBlocks)
            && (Decode(c, r) == Err(InvalidTimestamp(r.createdAt)) <==> !inTime)
            && (Decode(c, r) == Err(InvalidHeader) <==> inTime && c.decode(r.header).None?)
    ensures Decode(c, r).Ok? ==>
              var n := Decode(c, r).value;
              && n.seqno == r.seqno && Some(n.header) == c.decode(r.header) && n.details == r.details
              && n.createdAt == r.createdAt * 1000
              && (n.afterBlock.Some? <==> r.afterBlock.Some?)
              && (n.afterBlock.Some? ==> n.afterBlock.value == r.afterBlock.value)
  {
  }

  /**
   Every row that `store_note` writes decodes, and storing the decoded note again
   would write the same columns: nothing drifts over repeated round trips.
   */
  lemma WellFormedDecodes(c: Codec, r: Row)
    requires RoundTrips(c) && WellFormed(c, r)
    ensures Decode(c, r).Ok?
    ensures ToRow(ToNewNote(c, Decode(c, r).value), r.seqno) == r
    ensures r.header == ToTransport(c, Decode(c, r).value).header
  {
  }

  /** What a client gets back for the wire note it sent: the same note iff its header bytes are canonical. */
  lemma WireRoundTrip(c: Codec, sent: TransportNote, now: Timestamp, key: I64)
    requires RoundTrips(c) && c.decode(sent.header).Some?
    ensures var h := c.decode(sent.header).value;
            var row := ToRow(ToNewNote(c, StoredNote(h, sent.details, now, 0, sent.afterBlock)), key);
            && Decode(c, row).Ok?
            && var back := ToTransport(c, Decode(c, row).value);
               && back == sent.(header := c.encode(h))
               && (back == sent <==> c.encode(h) == sent.header)
  {
  }
}
