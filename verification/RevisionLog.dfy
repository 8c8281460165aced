/**
 * The log by revision as rows: one head row per record and its value in chunks behind it. Readers see only
 * rows in order, so a reader that starts or stops in the wrong place would take a chunk for a record.
 */
module RevisionLog {
  import opened Types
  import opened Chunks
  import opened Store

  /** The packed keys (rev) and (rev, offset); both sort below the resume key (rev, MaxInt64). */
  datatype LogKey = HeadAt(rev: Rev) | ChunkAt(rev: Rev, offset: nat)

  datatype LogRow = HeadRow(key: Key, meta: Meta) | ChunkRow(bytes: Bytes)

  datatype Kv = Kv(at: LogKey, row: LogRow)

  type LogRows = map<LogKey, LogRow>

  /** The rows of one revision are those of the record. */
  ghost predicate Stored(rows: LogRows, rev: Rev, e: Entry) {
    && e.meta.valueSize == |e.value|
    && HeadAt(rev) in rows && rows[HeadAt(rev)] == HeadRow(e.key, e.meta)
    && forall o: nat ::
      && (ChunkAt(rev, o) in rows <==> ChunkStart(|e.value|, o))
      && (ChunkAt(rev, o) in rows ==> rows[ChunkAt(rev, o)] == ChunkRow(Piece(e.value, o)))
  }

  /** The rows are those of the log's records and nothing else. */
  ghost predicate Rep(rows: LogRows, log: map<Rev, Entry>) {
    (forall k :: k in rows ==> k.rev in log) && (forall r: Rev :: r in log ==> Stored(rows, r, log[r]))
  }

  // ---------------------------------------------------------------- what a range read returns

  function OffsetsOf(rows: LogRows, rev: Rev): set<nat> {
    set k | k in rows && k.ChunkAt? && k.rev == rev :: k.offset
  }

  function ChunksAt(rows: LogRows, rev: Rev, offsets: seq<nat>): (kvs: seq<Kv>)
    requires forall o :: o in offsets ==> ChunkAt(rev, o) in rows
    ensures |kvs| == |offsets|
    ensures forall i :: 0 <= i < |kvs| ==> kvs[i] == Kv(ChunkAt(rev, offsets[i]), rows[ChunkAt(rev, offsets[i])])
  {
    if offsets == [] then [] else
      [Kv(ChunkAt(rev, offsets[0]), rows[ChunkAt(rev, offsets[0])])] + ChunksAt(rows, rev, offsets[1..])
  }

  function RowsAt(rows: LogRows, rev: Rev): seq<Kv> {
    (if HeadAt(rev) in rows then [Kv(HeadAt(rev), rows[HeadAt(rev)])] else [])
    + ChunksAt(rows, rev, Asc(OffsetsOf(rows, rev)))
  }

  function RowsOfAll(rows: LogRows, revs: seq<Rev>): seq<Kv> {
    if revs == [] then [] else RowsAt(rows, revs[0]) + RowsOfAll(rows, revs[1..])
  }

  function RevsAfter(rows: LogRows, after: Rev): set<Rev> {
    set k | k in rows && k.rev > after :: k.rev
  }

  /** The range read that begins after (after, MaxInt64): by revision, the head first, then by offset. */
  function RangeRead(rows: LogRows, after: Rev): seq<Kv> {
    RowsOfAll(rows, Asc(RevsAfter(rows, after)))
  }

  // ---------------------------------------------------------------- what a record is written as

  function OffsetSeq(n: nat): (offsets: seq<nat>)
    ensures |offsets| == n && forall i :: 0 <= i < n ==> offsets[i] == i * CHUNK_SIZE
  {
    seq(n, i => i * CHUNK_SIZE)
  }

  lemma OffsetSeqHas(size: nat, o: nat)
    ensures o in OffsetSeq(NumChunks(size)) <==> ChunkStart(size, o)
  {
    if o % CHUNK_SIZE == 0 {
      var c := o / CHUNK_SIZE;
      NumChunksBound(size, o);
      if c < NumChunks(size) { assert OffsetSeq(NumChunks(size))[c] == o; }
    }
  }

  function ChunkKvs(rev: Rev, value: Bytes): (kvs: seq<Kv>)
    ensures |kvs| == NumChunks(|value|)
    ensures forall i :: 0 <= i < |kvs| ==>
      var o := OffsetSeq(NumChunks(|value|))[i];
      o < |value| && kvs[i] == Kv(ChunkAt(rev, o), ChunkRow(Piece(value, o)))
  {
    var offsets := OffsetSeq(NumChunks(|value|));
    assert forall i :: 0 <= i < |offsets| ==> offsets[i] < |value| by {
      forall i | 0 <= i < |offsets| ensures offsets[i] < |value| { OffsetSeqHas(|value|, offsets[i]); }
    }
    seq(|offsets|, i requires 0 <= i < |offsets| => Kv(ChunkAt(rev, offsets[i]), ChunkRow(Piece(value, offsets[i]))))
  }

  function Encode(rev: Rev, e: Entry): seq<Kv> {
    [Kv(HeadAt(rev), HeadRow(e.key, e.meta))] + ChunkKvs(rev, e.value)
  }

  function EncodeAll(log: map<Rev, Entry>, revs: seq<Rev>): seq<Kv>
    requires forall r :: r in revs ==> r in log
  {
    if revs == [] then [] else Encode(revs[0], log[revs[0]]) + EncodeAll(log, revs[1..])
  }

  function Later(log: map<Rev, Entry>, after: Rev): set<Rev> {
    set r | r in log && r > after
  }

  // ---------------------------------------------------------------- reading gives back what was written

  lemma OffsetsInOrder(rows: LogRows, rev: Rev, e: Entry)
    requires Stored(rows, rev, e)
    ensures Asc(OffsetsOf(rows, rev)) == OffsetSeq(NumChunks(|e.value|))
  {
    var offsets := OffsetSeq(NumChunks(|e.value|));
    forall o: nat ensures o in Asc(OffsetsOf(rows, rev)) <==> o in offsets {
      assert o in OffsetsOf(rows, rev) <==> ChunkAt(rev, o) in rows;
      OffsetSeqHas(|e.value|, o);
    }
    IncreasingUnique(Asc(OffsetsOf(rows, rev)), offsets);
  }

  lemma OneRecord(rows: LogRows, rev: Rev, e: Entry)
    requires Stored(rows, rev, e)
    ensures RowsAt(rows, rev) == Encode(rev, e)
  {
    hide NumChunks, OffsetSeq, Asc, Piece, ChunkStart;
    OffsetsInOrder(rows, rev, e);
    var offsets := Asc(OffsetsOf(rows, rev));
    var a, b := ChunksAt(rows, rev, offsets), ChunkKvs(rev, e.value);
    forall i | 0 <= i < |offsets| ensures a[i] == b[i] { assert offsets[i] in offsets; }
  }

  lemma {:induction false} ManyRecords(rows: LogRows, log: map<Rev, Entry>, revs: seq<Rev>)
    requires Rep(rows, log) && forall r :: r in revs ==> r in log
    ensures RowsOfAll(rows, revs) == EncodeAll(log, revs)
    decreases |revs|
  {
    hide Stored, RowsAt, Encode;
    if revs != [] {
      OneRecord(rows, revs[0], log[revs[0]]);
      ManyRecords(rows, log, revs[1..]);
    }
  }

  /** A read resumed after (after, MaxInt64) starts on a head and returns the later records whole. */
  lemma ReadIsEncoding(rows: LogRows, log: map<Rev, Entry>, after: Rev)
    requires Rep(rows, log)
    ensures RangeRead(rows, after) == EncodeAll(log, Asc(Later(log, after)))
  {
    forall r: Rev ensures r in RevsAfter(rows, after) <==> r in Later(log, after) {
      assert r in log ==> HeadAt(r) in rows;
    }
    assert RevsAfter(rows, after) == Later(log, after);
    ManyRecords(rows, log, Asc(Later(log, after)));
  }

  // ---------------------------------------------------------------- the subspace, updated in place

  predicate IsChunk(k: LogKey, rev: Rev, size: nat) {
    k.ChunkAt? && k.rev == rev && k.offset < size && ChunkStart(size, k.offset)
  }

  lemma ChunkIs(rev: Rev, o: nat, size: nat)
    ensures IsChunk(ChunkAt(rev, o), rev, size) <==> ChunkStart(size, o)
  {
  }

  lemma PieceIs(value: Bytes, offset: nat)
    requires offset <= |value|
    ensures Piece(value, offset)
         == value[offset..if offset + CHUNK_SIZE > |value| then |value| else offset + CHUNK_SIZE]
  {
  }

  /** Between one chunk's start and the next there is none. */
  lemma NextChunk(size: nat, offset: nat)
    requires offset % CHUNK_SIZE == 0 && offset < size
    ensures ChunkStart(size, offset) && (offset + CHUNK_SIZE) % CHUNK_SIZE == 0
    ensures forall o: nat :: ChunkStart(size, o) && o < offset + CHUNK_SIZE ==> o <= offset
  {
  }

  class ByRevisionSubspace {
    var rows: LogRows
    ghost var log: map<Rev, Entry>

    ghost predicate Valid()
      reads this
    {
      Rep(rows, log)
    }

    constructor ()
      ensures Valid() && log == map[]
    {
      rows, log := map[], map[];
    }

    /** The chunks of a value of a new revision. */
    method WriteBlob(rev: Rev, value: Bytes)
      modifies this`rows
      ensures forall k :: k in rows <==> k in old(rows) || IsChunk(k, rev, |value|)
      ensures forall k :: k in old(rows) && !IsChunk(k, rev, |value|) ==> rows[k] == old(rows)[k]
      ensures forall k :: IsChunk(k, rev, |value|) ==> k in rows && rows[k] == ChunkRow(Piece(value, k.offset))
    {
      hide ChunkStart, Piece;
      var offset := 0;
      while offset < |value|
        invariant offset % CHUNK_SIZE == 0
        invariant forall k :: k in rows <==> k in old(rows) || (IsChunk(k, rev, |value|) && k.offset < offset)
        invariant forall k :: k in old(rows) && !IsChunk(k, rev, |value|) ==> rows[k] == old(rows)[k]
        invariant forall k :: IsChunk(k, rev, |value|) && k.offset < offset ==>
          k in rows && rows[k] == ChunkRow(Piece(value, k.offset))
      {
        var end := if offset + CHUNK_SIZE > |value| then |value| else offset + CHUNK_SIZE;
        assert value[offset..end] == Piece(value, offset) by { PieceIs(value, offset); }
        rows := rows[ChunkAt(rev, offset) := ChunkRow(value[offset..end])];
        NextChunk(|value|, offset);
        offset := offset + CHUNK_SIZE;
      }
    }

    method Write(rev: Rev, e: Entry)
      requires Valid() && rev !in log && e.meta.valueSize == |e.value|
      modifies this
      ensures Valid() && log == old(log)[rev := e]
    {
      hide Piece, ChunkStart;
      WriteBlob(rev, e.value);
      rows := rows[HeadAt(rev) := HeadRow(e.key, e.meta)];
      log := log[rev := e];
      forall o: nat ensures ChunkAt(rev, o) in rows <==> ChunkStart(|e.value|, o) { ChunkIs(rev, o, |e.value|); }
      forall r: Rev | r in old(log) ensures Stored(rows, r, log[r]) { assert Stored(old(rows), r, old(log)[r]); }
    }

    /** Clears every row whose packed key starts with the packed (rev). */
    method Delete(rev: Rev)
      requires Valid()
      modifies this
      ensures Valid() && log == old(log) - {rev}
    {
      rows := map k | k in rows && k.rev != rev :: rows[k];
      log := log - {rev};
      forall r: Rev | r in log ensures Stored(rows, r, log[r]) { assert Stored(old(rows), r, old(log)[r]); }
    }
  }

  // ---------------------------------------------------------------- the decoder

  class RangeIterator {
    var rest: seq<Kv>
    var current: Option<Kv>

    constructor (kvs: seq<Kv>)
      ensures rest == kvs && current == None
    {
      rest, current := kvs, None;
    }

    method Advance() returns (ok: bool)
      modifies this
      ensures ok <==> old(rest) != []
      ensures ok ==> rest == old(rest)[1..] && current == Some(old(rest)[0])
      ensures !ok ==> rest == old(rest)
    {
      ok := rest != [];
      if ok { current, rest := Some(rest[0]), rest[1..]; }
    }
  }

  /** Only a head row can be parsed: on a chunk the decoder panics, and this precondition says it never gets one. */
  method ParseKV(kv: Kv) returns (rev: Rev, key: Key, meta: Meta)
    requires kv.row.HeadRow?
    ensures rev == kv.at.rev && HeadRow(key, meta) == kv.row
  {
    rev, key, meta := kv.at.rev, kv.row.key, kv.row.meta;
  }

  method CopyAt(buf: array<Byte>, offset: nat, chunk: Bytes)
    requires offset + |chunk| <= buf.Length
    modifies buf
    ensures buf[..offset + |chunk|] == old(buf[..offset]) + chunk
  {
    forall i | 0 <= i < |chunk| { buf[offset + i] := chunk[i]; }
  }

  /** Fills the buffer from the chunks that follow; stops early only if the read ends. */
  method GetBlob(it: RangeIterator, buf: array<Byte>, ghost rev: Rev, ghost value: Bytes, ghost m: nat,
                 ghost tail: seq<Kv>)
    requires buf.Length == |value| && m <= NumChunks(|value|) && (m < NumChunks(|value|) ==> tail == [])
    requires it.rest == ChunkKvs(rev, value)[..m] + tail
    modifies it, buf
    ensures it.rest == tail
    ensures m == NumChunks(|value|) ==> buf[..] == value
  {
    hide ChunkKvs, OffsetSeq;
    var offset := 0;
    ghost var k := 0;
    ghost var chunks := ChunkKvs(rev, value);
    while offset != buf.Length
      invariant k <= m && offset == Min(k * CHUNK_SIZE, |value|) && buf[..offset] == value[..offset]
      invariant it.rest == chunks[k..m] + tail
      decreases m - k
    {
      ChunkCount(|value|, k);
      var ok := it.Advance();
      if !ok { return; }
      assert it.current == Some(chunks[k]);
      assert OffsetSeq(NumChunks(|value|))[k] == k * CHUNK_SIZE;
      var chunk := it.current.value.row.bytes;
      assert chunk == value[offset..offset + |chunk|];
      CopyAt(buf, offset, chunk);
      offset := offset + |chunk|;
      k := k + 1;
    }
    ChunkCount(|value|, k);
  }

  lemma ChunkCount(size: nat, k: nat)
    requires k <= NumChunks(size)
    ensures k < NumChunks(size) <==> k * CHUNK_SIZE < size
  {
  }

  /** A record as decoded. */
  datatype RevEntry = RevEntry(rev: Rev, entry: Entry)

  /**
   * Decodes the next record. If the read was cut off inside it, as a read that ends at its head is, the key and
   * metadata are still right.
   */
  method GetFromIterator(it: RangeIterator, ghost rev: Rev, ghost e: Entry, ghost m: nat, ghost tail: seq<Kv>)
    returns (r: Option<RevEntry>)
    requires it.rest != [] ==>
      && e.meta.valueSize == |e.value| && 1 <= m <= |Encode(rev, e)| && (m < |Encode(rev, e)| ==> tail == [])
      && it.rest == Encode(rev, e)[..m] + tail
    modifies it
    ensures r.None? <==> old(it.rest) == []
    ensures r.Some? ==> it.rest == tail && r.value.rev == rev
    ensures r.Some? ==> r.value.entry.key == e.key && r.value.entry.meta == e.meta
    ensures r.Some? && m == |Encode(rev, e)| ==> r.value.entry == e
  {
    hide ChunkKvs, NumChunks;
    var ok := it.Advance();
    if !ok { return None; }
    var rev', key, meta := ParseKV(it.current.value);
    assert Encode(rev, e)[..m][1..] == ChunkKvs(rev, e.value)[..m - 1];
    var buf := new Byte[meta.valueSize](_ => 0);
    GetBlob(it, buf, rev, e.value, m - 1, tail);
    r := Some(RevEntry(rev', Entry(key, meta, buf[..])));
  }

  predicate AllIn(log: map<Rev, Entry>, revs: seq<Rev>) {
    forall r :: r in revs ==> r in log
  }

  ghost function RecordsOf(log: map<Rev, Entry>, revs: seq<Rev>): (es: seq<RevEntry>)
    requires AllIn(log, revs)
    ensures |es| == |revs| && forall i :: 0 <= i < |es| ==> es[i] == RevEntry(revs[i], log[revs[i]])
  {
    seq(|revs|, i requires 0 <= i < |revs| => assert revs[i] in revs; RevEntry(revs[i], log[revs[i]]))
  }

  method DecodeUpTo(it: RangeIterator, max: nat, ghost log: map<Rev, Entry>, ghost revs: seq<Rev>)
    returns (es: seq<RevEntry>)
    requires forall r :: r in revs ==> r in log && log[r].meta.valueSize == |log[r].value|
    requires it.rest == EncodeAll(log, revs)
    modifies it
    ensures |es| == Min(max, |revs|)
    ensures forall i :: 0 <= i < |es| ==> es[i] == RevEntry(revs[i], log[revs[i]])
  {
    hide Encode;
    es := [];
    while |es| < max
      invariant |es| <= max && |es| <= |revs|
      invariant forall i :: 0 <= i < |es| ==> es[i] == RevEntry(revs[i], log[revs[i]])
      invariant it.rest == EncodeAll(log, revs[|es|..])
    {
      ghost var left := revs[|es|..];
      EncodedFirst(log, left);
      ghost var rev := if left == [] then 0 else left[0];
      ghost var e := if left == [] then Entry([], Meta(false, false, 0, 0, 0, 0), []) else log[left[0]];
      var r := GetFromIterator(it, rev, e, |Encode(rev, e)|, EncodeAll(log, if left == [] then [] else left[1..]));
      if r.None? { break; }
      assert left[1..] == revs[|es| + 1..];
      es := es + [r.value];
    }
  }

  lemma EncodedFirst(log: map<Rev, Entry>, left: seq<Rev>)
    requires forall r :: r in left ==> r in log
    ensures left == [] <==> EncodeAll(log, left) == []
    ensures left != [] ==>
      var first := Encode(left[0], log[left[0]]);
      |first| >= 1 && EncodeAll(log, left) == first[..|first|] + EncodeAll(log, left[1..])
  {
  }

  lemma SizesRight(rows: LogRows, log: map<Rev, Entry>)
    requires Rep(rows, log)
    ensures forall r: Rev :: r in log ==> log[r].meta.valueSize == |log[r].value|
  {
    forall r: Rev | r in log ensures log[r].meta.valueSize == |log[r].value| { assert Stored(rows, r, log[r]); }
  }

  /**
   * Round trip: reading up to `max` records after (after, MaxInt64) gives exactly the first so many later records
   * of the log, each with its full value.
   */
  method ReadAfter(sub: ByRevisionSubspace, after: Rev, max: nat) returns (es: seq<RevEntry>)
    requires sub.Valid()
    ensures var all := RecordsOf(sub.log, Asc(Later(sub.log, after)));
      es == all[..Min(max, |all|)]
  {
    hide Encode, EncodeAll, RangeRead, Asc, Rep;
    ghost var revs := Asc(Later(sub.log, after));
    ReadIsEncoding(sub.rows, sub.log, after);
    SizesRight(sub.rows, sub.log);
    var it := new RangeIterator(RangeRead(sub.rows, after));
    es := DecodeUpTo(it, max, sub.log, revs);
  }

  // ---------------------------------------------------------------- the read of a compaction

  function Between(log: map<Rev, Entry>, after: Rev, end: Rev): set<Rev> {
    set r | r in log && after < r < end
  }

  /** The range read of compaction: it ends just after the head of `end`, before that record's chunks. */
  function RangeReadTo(rows: LogRows, after: Rev, end: Rev): seq<Kv> {
    RowsOfAll(rows, Asc(set k | k in rows && after < k.rev < end :: k.rev))
    + if after < end && HeadAt(end) in rows then [Kv(HeadAt(end), rows[HeadAt(end)])] else []
  }

  /** Every record it covers starts with a head and only the last can be cut short, so all metadata decodes. */
  lemma CompactRead(rows: LogRows, log: map<Rev, Entry>, after: Rev, end: Rev)
    requires Rep(rows, log)
    ensures RangeReadTo(rows, after, end)
         == EncodeAll(log, Asc(Between(log, after, end)))
            + if after < end && end in log then Encode(end, log[end])[..1] else []
  {
    var revs := set k | k in rows && after < k.rev < end :: k.rev;
    forall r: Rev ensures r in revs <==> r in Between(log, after, end) { assert r in log ==> HeadAt(r) in rows; }
    assert revs == Between(log, after, end);
    ManyRecords(rows, log, Asc(Between(log, after, end)));
  }
}
