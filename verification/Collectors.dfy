/**
 * The collectors of List and Count, updated in place row by row and batch by batch, and the loop that drives
 * them over a range in as many transactions as it takes.
 */
module Collectors {
  import opened Types
  import opened Chunks
  import opened Store
  import opened World
  import opened TupleRange
  import opened Reads
  import Writes

  // ---------------------------------------------------------------- the merge-join over the current-value rows

  datatype Chunk = Chunk(key: Key, value: Bytes)

  /** A collected record: the candidate and the value attached to it. */
  datatype RevRecord = RevRecord(cand: Cand, value: Bytes)

  ghost predicate KeysIncreasing(recs: seq<RevRecord>) {
    forall i, j :: 0 <= i < j < |recs| ==> Less(recs[i].cand.pos.key, recs[j].cand.pos.key)
  }

  ghost predicate KeysOrdered(chunks: seq<Chunk>) {
    forall i, j :: 0 <= i < j < |chunks| ==> !Less(chunks[j].key, chunks[i].key)
  }

  /** What a range read from the first to the last key returns. */
  function ChunksOf(rows: Chunks.Rows, poss: seq<Pos>): (chunks: seq<Chunk>)
    requires forall p :: p in poss ==> p in rows
    ensures |chunks| == |poss| && forall i :: 0 <= i < |poss| ==> chunks[i] == Chunk(poss[i].key, rows[poss[i]])
  {
    if poss == [] then [] else [Chunk(poss[0].key, rows[poss[0]])] + ChunksOf(rows, poss[1..])
  }

  function Spanned(rows: Chunks.Rows, firstKey: Key, lastKey: Key): set<Pos> {
    set p | p in rows && !Less(p.key, firstKey) && !Less(lastKey, p.key)
  }

  /** The bytes of one key among the chunks read, in the order read. */
  ghost function Gather(chunks: seq<Chunk>, key: Key): Bytes {
    if chunks == [] then [] else
      var last := chunks[|chunks| - 1];
      Gather(chunks[..|chunks| - 1], key) + (if last.key == key then last.value else [])
  }

  lemma GatherStep(chunks: seq<Chunk>, k: nat, key: Key)
    requires k < |chunks|
    ensures Gather(chunks[..k + 1], key)
         == Gather(chunks[..k], key) + (if chunks[k].key == key then chunks[k].value else [])
  {
    assert chunks[..k + 1][..k] == chunks[..k];
  }

  /** Chunks of other keys add nothing. */
  lemma {:induction false} GatherNoMore(chunks: seq<Chunk>, k: nat, key: Key)
    requires k <= |chunks| && forall i :: k <= i < |chunks| ==> chunks[i].key != key
    ensures Gather(chunks, key) == Gather(chunks[..k], key)
    decreases |chunks|
  {
    if k == |chunks| {
      assert chunks[..k] == chunks;
    } else {
      var n := |chunks| - 1;
      GatherNoMore(chunks[..n], k, key);
      assert chunks[..n][..k] == chunks[..k];
    }
  }

  /** The offsets of one key among the positions read. */
  ghost function OffsetsAt(poss: seq<Pos>, key: Key): seq<nat> {
    if poss == [] then [] else
      var last := poss[|poss| - 1];
      OffsetsAt(poss[..|poss| - 1], key) + (if last.key == key then [last.n] else [])
  }

  lemma {:induction false} OffsetsHas(poss: seq<Pos>, key: Key)
    ensures forall o: nat :: o in OffsetsAt(poss, key) <==> Pos(key, o) in poss
    decreases |poss|
  {
    if poss != [] {
      var n := |poss| - 1;
      OffsetsHas(poss[..n], key);
      assert poss == poss[..n] + [poss[n]];
      if poss[n].key == key { assert poss[n] == Pos(key, poss[n].n); }
    }
  }

  lemma {:induction false} OffsetsInOrder(poss: seq<Pos>, key: Key)
    requires Sorted(poss)
    ensures Increasing(OffsetsAt(poss, key)) && forall o: nat :: o in OffsetsAt(poss, key) <==> Pos(key, o) in poss
    decreases |poss|
  {
    OffsetsHas(poss, key);
    if poss != [] {
      hide Less;
      var n := |poss| - 1;
      var init := poss[..n];
      OffsetsInOrder(init, key);
      LessIrreflexive(key);
      var before, all := OffsetsAt(init, key), OffsetsAt(poss, key);
      forall i, j | 0 <= i < j < |all| ensures all[i] < all[j] {
        assert all[i] == before[i] && before[i] in before && Pos(key, before[i]) in init;
        var k :| 0 <= k < n && init[k] == Pos(key, before[i]);
        assert Before(poss[k], poss[n]);
      }
    }
  }

  lemma {:induction false} GatherIsJoin(rows: Chunks.Rows, poss: seq<Pos>, key: Key)
    requires (forall p :: p in poss ==> p in rows) && (forall o :: o in OffsetsAt(poss, key) ==> Pos(key, o) in rows)
    ensures Gather(ChunksOf(rows, poss), key) == Join(rows, key, OffsetsAt(poss, key))
    decreases |poss|
  {
    if poss != [] {
      var n := |poss| - 1;
      var init := poss[..n];
      GatherIsJoin(rows, init, key);
      assert ChunksOf(rows, poss)[..n] == ChunksOf(rows, init);
      var chunks := ChunksOf(rows, poss);
      assert chunks[n] == Chunk(poss[n].key, rows[poss[n]]);
      JoinMore(rows, key, OffsetsAt(init, key), poss[n]);
    }
  }

  lemma JoinMore(rows: Chunks.Rows, key: Key, offsets: seq<nat>, p: Pos)
    requires (forall o :: o in offsets ==> Pos(key, o) in rows) && p in rows
    ensures forall o :: o in offsets + (if p.key == key then [p.n] else []) ==> Pos(key, o) in rows
    ensures Join(rows, key, offsets + (if p.key == key then [p.n] else []))
         == Join(rows, key, offsets) + (if p.key == key then rows[p] else [])
  {
    if p.key == key {
      assert p == Pos(key, p.n);
      assert (offsets + [p.n])[..|offsets|] == offsets;
    } else {
      assert offsets + [] == offsets;
    }
  }

  /** A range read that spans the key gathers exactly the key's rows. */
  lemma GatherIsAssembled(rows: Chunks.Rows, firstKey: Key, lastKey: Key, key: Key)
    requires !Less(key, firstKey) && !Less(lastKey, key)
    ensures Gather(ChunksOf(rows, SortPos(Spanned(rows, firstKey, lastKey))), key) == Assembled(rows, key)
  {
    var poss := SortPos(Spanned(rows, firstKey, lastKey));
    OffsetsInOrder(poss, key);
    GatherIsJoin(rows, poss, key);
    forall o: nat ensures Pos(key, o) in poss <==> o in Offsets(rows, key) {
      assert Pos(key, o) in rows <==> Pos(key, o) in Spanned(rows, firstKey, lastKey);
    }
    IncreasingUnique(OffsetsAt(poss, key), Asc(Offsets(rows, key)));
  }

  function KeyAt(recs: seq<RevRecord>, i: nat): Key
    requires i < |recs|
  {
    recs[i].cand.pos.key
  }

  /** The first `idx` records have keys below every chunk from `k` on. */
  ghost predicate Behind(recs: seq<RevRecord>, idx: nat, chunks: seq<Chunk>, k: nat) {
    forall i: nat, j: nat :: i < idx && i < |recs| && k <= j < |chunks| ==> Less(KeyAt(recs, i), chunks[j].key)
  }

  lemma BehindMore(recs: seq<RevRecord>, idx: nat, chunks: seq<Chunk>, k: nat)
    requires KeysOrdered(chunks) && Behind(recs, idx, chunks, k) && idx < |recs| && k < |chunks|
    requires Less(KeyAt(recs, idx), chunks[k].key)
    ensures Behind(recs, idx + 1, chunks, k)
  {
    hide Less;
    forall j: nat | k <= j < |chunks| ensures Less(KeyAt(recs, idx), chunks[j].key) {
      LessTotal(chunks[k].key, chunks[j].key);
      if Less(chunks[k].key, chunks[j].key) { LessTransitive(KeyAt(recs, idx), chunks[k].key, chunks[j].key); }
    }
  }

  /** Only the record the join points at can own the chunk. */
  lemma OthersDiffer(recs: seq<RevRecord>, idx: nat, chunks: seq<Chunk>, k: nat, i: nat)
    requires KeysIncreasing(recs) && Behind(recs, idx, chunks, k) && idx < |recs| && k < |chunks| && i < |recs|
    requires i != idx
    requires !Less(KeyAt(recs, idx), chunks[k].key)
    ensures chunks[k].key != KeyAt(recs, i)
  {
    hide Less;
    LessIrreflexive(KeyAt(recs, i));
    assert idx < i ==> Less(KeyAt(recs, idx), KeyAt(recs, i));
  }

  ghost predicate JoinedUpTo(recs: seq<RevRecord>, chunks: seq<Chunk>, bufs: seq<Bytes>) {
    && |bufs| == |recs|
    && forall i: nat :: i < |recs| ==> bufs[i] == if recs[i].cand.latest then Gather(chunks, KeyAt(recs, i)) else []
  }

  lemma JoinStep(recs: seq<RevRecord>, chunks: seq<Chunk>, k: nat, idx: nat, bufs: seq<Bytes>, bufs': seq<Bytes>)
    requires KeysIncreasing(recs) && Behind(recs, idx, chunks, k) && idx < |recs| && k < |chunks|
    requires !Less(KeyAt(recs, idx), chunks[k].key)
    requires JoinedUpTo(recs, chunks[..k], bufs)
    requires bufs' ==
      if KeyAt(recs, idx) == chunks[k].key && recs[idx].cand.latest then bufs[idx := bufs[idx] + chunks[k].value]
      else bufs
    ensures JoinedUpTo(recs, chunks[..k + 1], bufs')
  {
    hide Less, Gather, Behind, KeysIncreasing;
    forall i: nat | i < |recs|
      ensures bufs'[i] == if recs[i].cand.latest then Gather(chunks[..k + 1], KeyAt(recs, i)) else []
    {
      GatherStep(chunks, k, KeyAt(recs, i));
      if i != idx { OthersDiffer(recs, idx, chunks, k, i); }
    }
  }

  /** Once the records are used up or the chunks are, nothing more is gathered. */
  lemma JoinEnds(recs: seq<RevRecord>, chunks: seq<Chunk>, k: nat, idx: nat, bufs: seq<Bytes>)
    requires k <= |chunks| && JoinedUpTo(recs, chunks[..k], bufs)
    requires (k == |chunks| || (idx == |recs| && Behind(recs, idx, chunks, k)))
    ensures JoinedUpTo(recs, chunks, bufs)
  {
    hide Less, Gather;
    forall i: nat | i < |recs| ensures Gather(chunks, KeyAt(recs, i)) == Gather(chunks[..k], KeyAt(recs, i)) {
      LessIrreflexive(KeyAt(recs, i));
      GatherNoMore(chunks, k, KeyAt(recs, i));
    }
  }

  /** Both sides are in key order, so one pass gives every latest record the bytes of its key. */
  method MergeJoin(recs: seq<RevRecord>, chunks: seq<Chunk>) returns (bufs: seq<Bytes>)
    requires KeysIncreasing(recs) && KeysOrdered(chunks)
    ensures |bufs| == |recs|
    ensures forall i :: 0 <= i < |recs| ==>
      bufs[i] == if recs[i].cand.latest then Gather(chunks, recs[i].cand.pos.key) else []
  {
    hide Less, Gather, KeysIncreasing, KeysOrdered, Behind, JoinedUpTo;
    bufs := seq(|recs|, _ => []);
    var idx, k := 0, 0;
    JoinBegins(recs, chunks, bufs);
    while k < |chunks|
      invariant k <= |chunks| && idx <= |recs| && |bufs| == |recs|
      invariant Behind(recs, idx, chunks, k) && JoinedUpTo(recs, chunks[..k], bufs)
    {
      var chunk := chunks[k];
      while idx < |recs| && Less(recs[idx].cand.pos.key, chunk.key)
        invariant idx <= |recs| && Behind(recs, idx, chunks, k)
      {
        BehindMore(recs, idx, chunks, k);
        idx := idx + 1;
      }
      if idx == |recs| { break; }
      ghost var before := bufs;
      if recs[idx].cand.pos.key == chunk.key && recs[idx].cand.latest {
        bufs := bufs[idx := bufs[idx] + chunk.value];
      }
      JoinStep(recs, chunks, k, idx, before, bufs);
      BehindNext(recs, idx, chunks, k);
      k := k + 1;
    }
    JoinEnds(recs, chunks, k, idx, bufs);
    JoinedIs(recs, chunks, bufs);
  }

  lemma JoinBegins(recs: seq<RevRecord>, chunks: seq<Chunk>, bufs: seq<Bytes>)
    requires |bufs| == |recs| && forall i :: 0 <= i < |bufs| ==> bufs[i] == []
    ensures Behind(recs, 0, chunks, 0) && JoinedUpTo(recs, chunks[..0], bufs)
  {
  }

  lemma BehindNext(recs: seq<RevRecord>, idx: nat, chunks: seq<Chunk>, k: nat)
    requires Behind(recs, idx, chunks, k)
    ensures Behind(recs, idx, chunks, k + 1)
  {
  }

  lemma JoinedIs(recs: seq<RevRecord>, chunks: seq<Chunk>, bufs: seq<Bytes>)
    requires JoinedUpTo(recs, chunks, bufs)
    ensures |bufs| == |recs|
    ensures forall i :: 0 <= i < |recs| ==>
      bufs[i] == if recs[i].cand.latest then Gather(chunks, recs[i].cand.pos.key) else []
  {
    hide Gather;
  }

  // ---------------------------------------------------------------- the list collector

  /** How many reads of the log are kept in flight. */
  const PIPELINE := 256

  /** A record as the log holds it. */
  function FromLog(db: Db, rev: Rev): RevRecord
    requires rev in db.log
  {
    RevRecord(Cand(Pos(db.log[rev].key, rev), db.log[rev].meta, false), db.log[rev].value)
  }

  function AsItem(r: RevRecord): Item {
    Item(r.cand.pos, r.cand.meta, r.value)
  }

  /** The current-value rows do not serve for this candidate. */
  ghost predicate Slow(db: Db, c: Cand) {
    c.meta.valueSize != 0 && !(c.latest && |Assembled(db.current, c.pos.key)| == c.meta.valueSize)
  }

  /** Records of a batch just as the scan emitted them. */
  ghost predicate Holding(recs: seq<RevRecord>, cands: seq<Cand>) {
    |recs| == |cands| && forall i :: 0 <= i < |cands| ==> recs[i] == RevRecord(cands[i], [])
  }

  /** The index and the log agree on the candidate, if the log has it. */
  ghost predicate Known(db: Db, c: Cand) {
    c.pos.n in db.log ==> db.log[c.pos.n].key == c.pos.key && db.log[c.pos.n].meta == c.meta
  }

  /** The records at the first `done` of `indices` have been replaced by the log's, and no others. */
  ghost predicate Resolved(db: Db, before: seq<RevRecord>, now: seq<RevRecord>, indices: seq<nat>, done: nat) {
    && |now| == |before| && done <= |indices|
    && (forall k :: 0 <= k < done ==>
          && indices[k] < |now| && before[indices[k]].cand.pos.n in db.log
          && now[indices[k]] == FromLog(db, before[indices[k]].cand.pos.n))
    && (forall i :: 0 <= i < |now| && i !in indices[..done] ==> now[i] == before[i])
  }

  class ListCollector {
    const limit: nat
    const keysOnly: bool
    var records: seq<RevRecord>
    var batchRecords: seq<RevRecord>

    constructor (limit: nat, keysOnly: bool)
      ensures this.limit == limit && this.keysOnly == keysOnly && records == [] && batchRecords == []
    {
      this.limit, this.keysOnly, records, batchRecords := limit, keysOnly, [], [];
    }

    method StartBatch()
      modifies this
      ensures batchRecords == [] && records == old(records)
    {
      batchRecords := [];
    }

    method Next(c: Cand) returns (more: bool)
      modifies this
      ensures batchRecords == old(batchRecords) + [RevRecord(c, [])] && records == old(records)
      ensures more == NeedMore(limit, |records| + |batchRecords|)
    {
      batchRecords := batchRecords + [RevRecord(c, [])];
      more := limit == 0 || |batchRecords| + |records| < limit;
    }

    /** Point reads of the log for the given records, `PIPELINE` at a time. */
    method FetchLegacy(db: Db, indices: seq<nat>) returns (ok: bool)
      requires Increasing(indices) && forall k :: 0 <= k < |indices| ==> indices[k] < |batchRecords|
      modifies this
      ensures records == old(records)
      ensures ok <==> forall k :: 0 <= k < |indices| ==> old(batchRecords)[indices[k]].cand.pos.n in db.log
      ensures ok ==> Resolved(db, old(batchRecords), batchRecords, indices, |indices|)
    {
      ghost var before := batchRecords;
      var start := 0;
      while start < |indices|
        invariant records == old(records)
        invariant Resolved(db, before, batchRecords, indices, if start < |indices| then start else |indices|)
      {
        var end := if start + PIPELINE < |indices| then start + PIPELINE else |indices|;
        var iterators: seq<Rev> := [];
        for k := start to end
          invariant |iterators| == k - start
          invariant forall j :: 0 <= j < |iterators| ==> iterators[j] == before[indices[start + j]].cand.pos.n
        {
          assert indices[k] !in indices[..start];
          iterators := iterators + [batchRecords[indices[k]].cand.pos.n];
        }
        for j := 0 to |iterators|
          invariant records == old(records)
          invariant Resolved(db, before, batchRecords, indices, start + j)
        {
          var i := indices[start + j];
          assert i !in indices[..start + j];
          if iterators[j] !in db.log { return false; }
          batchRecords := batchRecords[i := FromLog(db, iterators[j])];
        }
        start := start + PIPELINE;
      }
      ok := true;
    }

    /** Attaches every record's value: from the current-value rows where they serve, otherwise from the log. */
    method EndBatch(db: Db, ghost cands: seq<Cand>) returns (ok: bool)
      requires Holding(batchRecords, cands) && KeysIncreasing(batchRecords)
      requires forall c :: c in cands ==> Known(db, c)
      modifies this
      ensures ok <==> keysOnly || forall i :: 0 <= i < |cands| ==> FetchValue(db, cands[i]).Some?
      ensures records == old(records)
      ensures ok ==> |batchRecords| == |cands|
      ensures ok ==> forall i :: 0 <= i < |cands| ==> AsItem(batchRecords[i]) == ItemOf(db, keysOnly, cands[i])
    {
      hide Less, Gather, Assembled, SortPos;
      if keysOnly || |batchRecords| == 0 { return true; }
      var firstKey := batchRecords[0].cand.pos.key;
      var lastKey := batchRecords[|batchRecords| - 1].cand.pos.key;
      var chunks := ChunksOf(db.current, SortPos(Spanned(db.current, firstKey, lastKey)));
      ChunksOrdered(db.current, firstKey, lastKey);
      var bufs := MergeJoin(batchRecords, chunks);
      forall i | 0 <= i < |batchRecords|
        ensures Gather(chunks, cands[i].pos.key) == Assembled(db.current, cands[i].pos.key)
      {
        Spans(batchRecords, i);
        GatherIsAssembled(db.current, firstKey, lastKey, cands[i].pos.key);
      }
      var legacy := Attach(db, cands, bufs);
      forall i | 0 <= i < |cands|
        ensures FetchValue(db, cands[i]).None? <==> i in legacy && cands[i].pos.n !in db.log
      {
      }
      forall k | 0 <= k < |legacy| ensures legacy[k] in legacy && batchRecords[legacy[k]].cand == cands[legacy[k]] {}
      ok := FetchLegacy(db, legacy);
      if !ok { return; }
      forall i | 0 <= i < |cands| ensures AsItem(batchRecords[i]) == ItemOf(db, false, cands[i]) {
        assert cands[i] in cands;
        if i in legacy {
          var k :| 0 <= k < |legacy| && legacy[k] == i;
        } else {
          assert i !in legacy[..|legacy|];
        }
      }
    }

    /** Keeps each joined value that has the right length; returns the records that have to be read from the log. */
    method Attach(db: Db, ghost cands: seq<Cand>, bufs: seq<Bytes>) returns (legacy: seq<nat>)
      requires Holding(batchRecords, cands) && |bufs| == |cands|
      requires forall i :: 0 <= i < |cands| ==>
        bufs[i] == if cands[i].latest then Assembled(db.current, cands[i].pos.key) else []
      modifies this
      ensures records == old(records) && |batchRecords| == |cands|
      ensures Increasing(legacy) && forall k :: 0 <= k < |legacy| ==> legacy[k] < |cands|
      ensures forall i :: 0 <= i < |cands| ==> batchRecords[i].cand == cands[i]
      ensures forall i :: 0 <= i < |cands| && i !in legacy ==> AsItem(batchRecords[i]) == ItemOf(db, false, cands[i])
      ensures forall i :: 0 <= i < |cands| ==> (i in legacy <==> Slow(db, cands[i]))
    {
      hide Assembled;
      legacy := [];
      for i := 0 to |batchRecords|
        invariant records == old(records) && |batchRecords| == |cands|
        invariant Increasing(legacy) && forall k :: 0 <= k < |legacy| ==> legacy[k] < i
        invariant forall k :: i <= k < |cands| ==> batchRecords[k] == RevRecord(cands[k], [])
        invariant forall k :: 0 <= k < i ==> batchRecords[k].cand == cands[k]
        invariant forall k :: 0 <= k < i && k !in legacy ==> AsItem(batchRecords[k]) == ItemOf(db, false, cands[k])
        invariant forall k :: 0 <= k < i ==> (k in legacy <==> Slow(db, cands[k]))
      {
        var size := batchRecords[i].cand.meta.valueSize;
        if size == 0 {
          batchRecords := batchRecords[i := batchRecords[i].(value := [])];
        } else if |bufs[i]| == size {
          batchRecords := batchRecords[i := batchRecords[i].(value := bufs[i])];
        } else {
          legacy := legacy + [i];
        }
      }
    }

    method PostBatch()
      modifies this
      ensures records == old(records) + batchRecords && batchRecords == old(batchRecords)
    {
      records := records + batchRecords;
    }
  }

  lemma ChunksOrdered(rows: Chunks.Rows, firstKey: Key, lastKey: Key)
    ensures KeysOrdered(ChunksOf(rows, SortPos(Spanned(rows, firstKey, lastKey))))
  {
    var poss := SortPos(Spanned(rows, firstKey, lastKey));
    forall i, j | 0 <= i < j < |poss| ensures !Less(poss[j].key, poss[i].key) {
      assert Before(poss[i], poss[j]);
      LessIrreflexive(poss[i].key);
      if Less(poss[j].key, poss[i].key) && Less(poss[i].key, poss[j].key) {
        LessTransitive(poss[i].key, poss[j].key, poss[i].key);
      }
    }
  }

  /** Every record's key lies between the first and the last. */
  lemma Spans(recs: seq<RevRecord>, i: nat)
    requires KeysIncreasing(recs) && i < |recs|
    ensures !Less(recs[i].cand.pos.key, recs[0].cand.pos.key)
    ensures !Less(recs[|recs| - 1].cand.pos.key, recs[i].cand.pos.key)
  {
    hide Less;
    LessOrder();
  }

  class CountCollector {
    var totalCount: nat
    var batchCount: nat

    constructor ()
      ensures totalCount == 0 && batchCount == 0
    {
      totalCount, batchCount := 0, 0;
    }

    method StartBatch()
      modifies this
      ensures batchCount == 0 && totalCount == old(totalCount)
    {
      batchCount := 0;
    }

    method Next()
      modifies this
      ensures batchCount == old(batchCount) + 1 && totalCount == old(totalCount)
    {
      batchCount := batchCount + 1;
    }

    method PostBatch()
      modifies this
      ensures totalCount == old(totalCount) + batchCount && batchCount == old(batchCount)
    {
      totalCount := totalCount + batchCount;
    }
  }

  // ---------------------------------------------------------------- the record collector

  /** The collector a record collector feeds. */
  datatype Inner = Listing(list: ListCollector) | Counting(count: CountCollector)

  datatype ReadError = ErrCompacted | ErrNoRecord

  ghost predicate CandsIncreasing(cands: seq<Cand>) {
    forall i, j :: 0 <= i < j < |cands| ==> Less(cands[i].pos.key, cands[j].pos.key)
  }

  /** How the end of a batch fails: a value that cannot be found, or a requested revision below the watermark. */
  ghost function Failure(db: Db, maxRev: Rev, keysOnly: bool, fin: seq<Cand>): Option<ReadError> {
    if !Readable(db, keysOnly, fin) then Some(ErrNoRecord)
    else if 0 < maxRev < db.watermark then Some(ErrCompacted)
    else None
  }

  lemma ReadableIs(db: Db, keysOnly: bool, cs: seq<Cand>)
    ensures Readable(db, keysOnly, cs) <==>
      keysOnly || forall i :: 0 <= i < |cs| ==> FetchValue(db, cs[i]).Some?
  {
    hide FetchValue;
    forall i | 0 <= i < |cs| ensures cs[i] in cs {}
  }

  function Closing(cur: Option<Cand>, isLast: bool): seq<Cand> {
    if isLast && cur.Some? && !cur.value.meta.isDelete then [cur.value] else []
  }

  /** The row is a newer record of the candidate's key that the read must not see. */
  predicate Hides(cur: Option<Cand>, row: Row, win: Window) {
    cur.Some? && cur.value.pos.key == row.pos.key && !Visible(win, row.pos.n)
  }

  class RecordCollector {
    const maxRevision: Rev
    const inner: Inner
    var currentRecord: Option<Cand>
    var batchCurrentRecord: Option<Cand>
    var shared: bool      // both names refer to the one record object, so a cleared flag shows through both
    var firstRev: Rev
    var rev: Rev
    var batchRev: Rev

    constructor (maxRevision: Rev, inner: Inner)
      ensures this.maxRevision == maxRevision && this.inner == inner
      ensures currentRecord == None && batchCurrentRecord == None && firstRev == 0 && rev == 0 && batchRev == 0
    {
      this.maxRevision, this.inner := maxRevision, inner;
      currentRecord, batchCurrentRecord, shared, firstRev, rev, batchRev := None, None, true, 0, 0, 0;
    }

    ghost function Parts(): set<object> {
      {this} + match inner case Listing(l) => {l} case Counting(c) => {c}
    }

    ghost function Limit(): nat {
      match inner case Listing(l) => l.limit case Counting(_) => 0
    }

    ghost function KeysOnly(): bool {
      match inner case Listing(l) => l.keysOnly case Counting(_) => true
    }

    /** How many records the committed batches have delivered. */
    ghost function Collected(): nat
      reads Parts()
    {
      match inner case Listing(l) => |l.records| case Counting(c) => c.totalCount
    }

    /** What the current batch has delivered. */
    ghost predicate InBatch(out: seq<Cand>)
      reads Parts()
    {
      match inner case Listing(l) => Holding(l.batchRecords, out) case Counting(c) => c.batchCount == |out|
    }

    /** The state between batches, up to the `latest` flag of the candidate carried over. */
    ghost predicate Carries(pr: Progress, demoted: bool)
      reads Parts()
    {
      && currentRecord == Demote(pr.cur, demoted) && pr.win == Window(maxRevision, firstRev)
      && Collected() == |pr.items|
      && (inner.Listing? ==> forall i :: 0 <= i < |pr.items| ==> AsItem(inner.list.records[i]) == pr.items[i])
    }

    method StartBatch(ghost pr: Progress, ghost demoted: bool)
      requires Carries(pr, demoted)
      modifies Parts()
      ensures Carries(pr, demoted) && InBatch([])
      ensures batchCurrentRecord == currentRecord && shared
    {
      match inner {
        case Listing(l) => l.StartBatch();
        case Counting(c) => c.StartBatch();
      }
      batchCurrentRecord, shared := currentRecord, true;
      batchRev := 0;
    }

    method InnerNext(c: Cand, ghost out: seq<Cand>, ghost pr: Progress, ghost demoted: bool) returns (more: bool)
      requires InBatch(out) && Carries(pr, demoted)
      modifies Parts() - {this}
      ensures InBatch(out + [c]) && Carries(pr, demoted)
      ensures more == NeedMore(Limit(), |pr.items| + |out| + 1)
    {
      match inner {
        case Listing(l) => more := l.Next(c);
        case Counting(k) => k.Next(); more := true;
      }
    }

    method Next(row: Row, ghost out: seq<Cand>, ghost pr: Progress, ghost demoted: bool)
      returns (more: bool, ghost out': seq<Cand>, ghost demoted': bool)
      requires InBatch(out) && Carries(pr, demoted) && (shared ==> batchCurrentRecord == currentRecord)
      modifies Parts()
      ensures batchCurrentRecord == NextCand(old(batchCurrentRecord), row, pr.win)
      ensures out' == if Emits(old(batchCurrentRecord), row) then out + [old(batchCurrentRecord).value] else out
      ensures InBatch(out') && Carries(pr, demoted') && (shared ==> batchCurrentRecord == currentRecord)
      ensures more == (Emits(old(batchCurrentRecord), row) ==> NeedMore(Limit(), |pr.items| + |out'|))
      ensures shared == (old(shared) && !Closes(old(batchCurrentRecord), row) && !Visible(pr.win, row.pos.n))
      ensures demoted' == (demoted || (old(shared) && Hides(old(batchCurrentRecord), row, pr.win)))
    {
      more, out', demoted' := true, out, demoted;
      if batchCurrentRecord.Some? && batchCurrentRecord.value.pos.key != row.pos.key {
        if !batchCurrentRecord.value.meta.isDelete {
          out' := out + [batchCurrentRecord.value];
          more := InnerNext(batchCurrentRecord.value, out, pr, demoted);
        }
        batchCurrentRecord, shared := None, false;
      }
      if (maxRevision == 0 || row.pos.n <= maxRevision) && (firstRev == 0 || row.pos.n <= firstRev) {
        batchCurrentRecord, shared := Some(Cand(row.pos, row.meta, true)), false;
      } else if batchCurrentRecord.Some? && batchCurrentRecord.value.pos.key == row.pos.key {
        batchCurrentRecord := Some(batchCurrentRecord.value.(latest := false));
        if shared {
          currentRecord := batchCurrentRecord;
          demoted' := true;
        }
      }
    }

    /** The batch's values are attached and its read version noted. */
    ghost predicate Fetched(db: Db, cands: seq<Cand>)
      reads Parts()
    {
      match inner
      case Listing(l) =>
        && |l.batchRecords| == |cands|
        && forall i :: 0 <= i < |cands| ==> AsItem(l.batchRecords[i]) == ItemOf(db, l.keysOnly, cands[i])
      case Counting(c) => c.batchCount == |cands|
    }

    method EndBatch(db: Db, isLast: bool, ghost out: seq<Cand>, ghost pr: Progress, ghost demoted: bool)
      returns (err: Option<ReadError>)
      requires InBatch(out) && Carries(pr, demoted)
      requires var fin := out + Closing(batchCurrentRecord, isLast);
        CandsIncreasing(fin) && forall c :: c in fin ==> Known(db, c)
      modifies Parts()
      ensures err == Failure(db, maxRevision, KeysOnly(), out + Closing(batchCurrentRecord, isLast))
      ensures batchCurrentRecord == old(batchCurrentRecord) && Carries(pr, demoted)
      ensures err.None? ==> Fetched(db, out + Closing(batchCurrentRecord, isLast)) && batchRev == db.latest
    {
      hide FetchValue, Less;
      ghost var fin := out + Closing(batchCurrentRecord, isLast);
      if isLast && batchCurrentRecord.Some? && !batchCurrentRecord.value.meta.isDelete {
        var _ := InnerNext(batchCurrentRecord.value, out, pr, demoted);
      } else {
        assert fin == out;
      }
      if inner.Listing? {
        var ok := inner.list.EndBatch(db, fin);
        ReadableIs(db, inner.list.keysOnly, fin);
        if !ok { return Some(ErrNoRecord); }
      }
      batchRev := db.latest;
      if maxRevision > 0 && maxRevision < db.watermark { return Some(ErrCompacted); }
      return None;
    }

    method PostBatch(db: Db, ghost cands: seq<Cand>, ghost pr: Progress, ghost demoted: bool)
      requires Carries(pr, demoted) && Fetched(db, cands) && batchRev == db.latest
      modifies Parts()
      ensures Carries(pr.(cur := old(batchCurrentRecord), items := pr.items + ItemsOf(db, KeysOnly(), cands),
                          win := pr.win.(firstRev :=
                            if pr.win.firstRev == 0 then db.latest else pr.win.firstRev)), false)
    {
      hide ItemOf, ItemsOf, FetchValue;
      ghost var all := pr.items + ItemsOf(db, KeysOnly(), cands);
      match inner {
        case Listing(l) =>
          l.PostBatch();
          forall i | 0 <= i < |all| ensures AsItem(l.records[i]) == all[i] {
            if i >= |pr.items| { assert all[i] == ItemsOf(db, KeysOnly(), cands)[i - |pr.items|]; }
          }
        case Counting(c) => c.PostBatch();
      }
      if firstRev == 0 { firstRev := batchRev; }
      rev := batchRev;
      currentRecord, shared := batchCurrentRecord, true;
    }
  }

  // ---------------------------------------------------------------- driving a scan over a range

  /** How an attempt at a batch ends: broken off by an error, complete but with its commit in doubt, or complete. */
  datatype Ending = Broken | Doubtful | Complete

  /** One attempt: what others commit before it, how many rows beyond the first it reads before its time is up. */
  datatype Turn = Turn(others: seq<Action>, extra: nat, ending: Ending)

  /** The state the first completed batch runs in; with no turns left, an undisturbed batch follows at once. */
  function FirstState(w: World, plan: seq<Turn>): World
    decreases |plan|
  {
    if plan == [] then w else
      var w' := Play(w, plan[0].others);
      if plan[0].ending.Complete? then w' else FirstState(w', plan[1..])
  }

  ghost predicate NoCompaction(plan: seq<Turn>) {
    forall i, a :: 0 <= i < |plan| && a in plan[i].others ==> Gentle(a)
  }

  lemma {:induction false} ScanEnds(cur: Option<Cand>, out: seq<Cand>, last: Option<Pos>, rows: seq<Row>, extra: nat,
                                    win: Window, limit: nat, earlier: nat)
    requires extra >= |rows|
    ensures !ScanRows(cur, out, last, rows, extra, win, limit, earlier).more
    decreases |rows|
  {
    if rows != [] {
      var row := rows[0];
      var out' := if Emits(cur, row) then out + [cur.value] else out;
      ScanEnds(NextCand(cur, row, win), out', Some(row.pos), rows[1..], extra - 1, win, limit, earlier);
    }
  }

  /** What a batch hands to the list collector is in key order and known to the log. */
  lemma FinishFits(base: Db, w: World, sel: Selection, maxRev: Rev, prior: seq<Pos>, limit: nat, s: Scan)
    requires StoreOk(w) && Recorded(base, w) && Upheld(base, w.db, sel, maxRev, prior, limit, s)
    ensures CandsIncreasing(Finish(s))
    ensures forall c :: c in Finish(s) ==>
      Known(w.db, c) && c.pos in base.index && base.index[c.pos].meta == c.meta && In(sel, c.pos.key)
  {
    hide Less, Chained, Retained, UniqueUuids, CurrentOk;
    FinishOrdered(base, w.db, sel, maxRev, prior, limit, s);
    forall c | c in Finish(s)
      ensures c.pos in base.index && base.index[c.pos].meta == c.meta && In(sel, c.pos.key)
    {
      if c in s.out {
        var i :| 0 <= i < |s.out| && s.out[i] == c;
        assert (prior + Positions(s.out))[|prior| + i] == c.pos && c.pos in prior + Positions(s.out);
      } else {
        assert c == s.cur.value;
      }
    }
  }

  lemma FinishOrdered(base: Db, db: Db, sel: Selection, maxRev: Rev, prior: seq<Pos>, limit: nat, s: Scan)
    requires Upheld(base, db, sel, maxRev, prior, limit, s)
    ensures CandsIncreasing(Finish(s))
  {
    hide Less, Settled, FirstOfKey;
    var all, fin := prior + Positions(s.out), Finish(s);
    forall i, j | 0 <= i < j < |fin| ensures Less(fin[i].pos.key, fin[j].pos.key) {
      assert all[|prior| + i] == fin[i].pos && all[|prior| + i] in all;
      if j < |s.out| {
        assert all[|prior| + j] == fin[j].pos && all[|prior| + j] in all;
        assert Before(all[|prior| + i], all[|prior| + j]);
        assert Winner(base, sel, maxRev, fin[i].pos) && Winner(base, sel, maxRev, fin[j].pos);
      }
    }
  }

  /** Does the first row read clear the flag of the candidate carried over, for every later attempt? */
  predicate FirstHides(cur: Option<Cand>, rows: seq<Row>, win: Window) {
    rows != [] && Hides(cur, rows[0], win)
  }

  lemma ScanRowsStep(cur: Option<Cand>, out: seq<Cand>, last: Option<Pos>, rows: seq<Row>, extra: nat, win: Window,
                     limit: nat, earlier: nat)
    ensures var s := ScanRows(cur, out, last, rows, extra, win, limit, earlier);
      if rows == [] then s == Scan(cur, out, last, false) else
        var cur', row := NextCand(cur, rows[0], win), rows[0];
        var out' := if Emits(cur, row) then out + [cur.value] else out;
        if Emits(cur, row) && !NeedMore(limit, earlier + |out'|) then s == Scan(cur', out', Some(row.pos), false)
        else if extra == 0 then s == Scan(cur', out', Some(row.pos), true)
        else s == ScanRows(cur', out', Some(row.pos), rows[1..], extra - 1, win, limit, earlier)
  {
  }

  lemma StillShared(first: Option<Cand>, demoted: bool, cur: Option<Cand>, row: Row, win: Window)
    ensures !Closes(cur, row) && !Visible(win, row.pos.n) && NextCand(cur, row, win).Some? ==> Hides(cur, row, win)
    ensures Hides(Demote(first, demoted), row, win) <==> Hides(first, row, win)
    ensures Hides(cur, row, win) ==> cur.Some?
  {
  }

  /** The rows of one transaction, fed to the collector until it has enough, the range is done or time is up. */
  method ScanBatch(rc: RecordCollector, rows: seq<Row>, after: Option<Pos>, extra: nat, ghost pr: Progress,
                   ghost demoted: bool)
    returns (last: Option<Pos>, more: bool, ghost out: seq<Cand>, ghost demoted': bool)
    requires rc.Carries(pr, demoted)
    modifies rc.Parts()
    ensures rc.InBatch(out) && rc.Carries(pr, demoted') && demoted' == (demoted || FirstHides(pr.cur, rows, pr.win))
    ensures Scan(rc.batchCurrentRecord, out, last, more)
         == ScanRows(Demote(pr.cur, demoted), [], after, rows, extra, pr.win, rc.Limit(), |pr.items|)
  {
    hide NextCand, Emits, Closes, Visible, Hides, ScanRows, Demote;
    rc.StartBatch(pr, demoted);
    last, more, out, demoted' := after, true, [], demoted;
    var i := 0;
    ghost var goal := ScanRows(rc.currentRecord, [], after, rows, extra, pr.win, rc.Limit(), |pr.items|);
    while more
      invariant i <= |rows| && rc.InBatch(out) && rc.Carries(pr, demoted')
      invariant rc.shared ==> rc.batchCurrentRecord == rc.currentRecord
      invariant i == 0 ==> rc.shared && demoted' == demoted && (!more ==> rows == [])
      invariant i > 0 ==> demoted' == (demoted || FirstHides(pr.cur, rows, pr.win))
      invariant i > 0 && rc.shared && rc.batchCurrentRecord.Some? ==> FirstHides(pr.cur, rows, pr.win)
      invariant more ==> i <= extra
      invariant more ==>
        goal == ScanRows(rc.batchCurrentRecord, out, last, rows[i..], extra - i, pr.win, rc.Limit(), |pr.items|)
      invariant !more ==> goal == Scan(rc.batchCurrentRecord, out, last, false)
      decreases |rows| - i, more
    {
      if i == |rows| {
        ScanRowsStep(rc.batchCurrentRecord, out, last, rows[i..], extra - i, pr.win, rc.Limit(), |pr.items|);
        more := false;
      } else {
        assert rows[i..][1..] == rows[i + 1..];
        ScanRowsStep(rc.batchCurrentRecord, out, last, rows[i..], extra - i, pr.win, rc.Limit(), |pr.items|);
        last := Some(rows[i].pos);
        StillShared(pr.cur, demoted, rc.batchCurrentRecord, rows[i], pr.win);
        more, out, demoted' := rc.Next(rows[i], out, pr, demoted');
        i := i + 1;
        if i > extra { break; }
      }
    }
  }

  // ---------------------------------------------------------------- what a scan does, whatever interferes

  /**
   * A scan between attempts. `base` is the state of its first completed batch, or of the attempt before that, and
   * `lost` the rows of it that others have removed before the scan got there.
   */
  datatype ReadState = ReadState(
    w: World, base: Db, lost: set<Pos>, pr: Progress, demoted: bool, err: Option<ReadError>)

  /** What the scan can still see of the state it began in. */
  function Left(s: ReadState): Db {
    Without(s.base, s.lost)
  }

  function Begun(w: World, maxRev: Rev): ReadState {
    ReadState(w, w.db, {}, Fresh(maxRev), false, None)
  }

  predicate Ended(s: ReadState) {
    !s.pr.more || s.err.Some?
  }

  /** Others act before the next attempt. */
  function Interfered(s: ReadState, acts: seq<Action>): ReadState {
    var w := Play(s.w, acts);
    if s.pr == Fresh(s.pr.win.maxRev) then s.(w := w, base := w.db, lost := {})
    else s.(w := w, lost := s.lost + RowsRemoved(s.w, acts, s.pr.after))
  }

  /** One attempt. */
  ghost function Tried(s: ReadState, sel: Selection, limit: nat, keysOnly: bool, extra: nat,
                       ending: Ending): ReadState {
    var scan := BatchScan(s.pr, sel, limit, s.w.db, extra, s.demoted);
    var failure := Failure(s.w.db, s.pr.win.maxRev, keysOnly, Finish(scan));
    if !ending.Broken? && failure.Some? then s.(err := failure)
    else if ending.Complete? then
      s.(pr := DoBatch(s.pr, sel, limit, keysOnly, s.w.db, extra, s.demoted), demoted := false)
    else s.(demoted := s.demoted || FirstHides(s.pr.cur, Reads.Rows(s.w.db, sel, s.pr.after), s.pr.win))
  }

  ghost function ReadTurned(s: ReadState, sel: Selection, limit: nat, keysOnly: bool, turn: Turn): ReadState {
    if Ended(s) then s else Tried(Interfered(s, turn.others), sel, limit, keysOnly, turn.extra, turn.ending)
  }

  ghost function ReadRun(s: ReadState, sel: Selection, limit: nat, keysOnly: bool, plan: seq<Turn>): ReadState
    decreases |plan|
  {
    if plan == [] then s
    else ReadTurned(ReadRun(s, sel, limit, keysOnly, plan[..|plan| - 1]), sel, limit, keysOnly, plan[|plan| - 1])
  }

  /** With no turns left, an undisturbed attempt with time for every row. */
  ghost function LastTurn(s: ReadState, sel: Selection): Turn {
    Turn([], |Reads.Rows(s.w.db, sel, s.pr.after)|, Complete)
  }

  ghost function ReadAll(start: World, sel: Selection, maxRev: Rev, limit: nat, keysOnly: bool,
                         plan: seq<Turn>): ReadState {
    var s := ReadRun(Begun(start, maxRev), sel, limit, keysOnly, plan);
    ReadTurned(s, sel, limit, keysOnly, LastTurn(s, sel))
  }

  lemma ReadRunStep(s: ReadState, sel: Selection, limit: nat, keysOnly: bool, plan: seq<Turn>, i: nat)
    requires i < |plan|
    ensures ReadRun(s, sel, limit, keysOnly, plan[..i + 1])
         == ReadTurned(ReadRun(s, sel, limit, keysOnly, plan[..i]), sel, limit, keysOnly, plan[i])
  {
    assert plan[..i + 1][..i] == plan[..i];
  }

  /** Compactions begin at safe ends. */
  ghost predicate TamePlan(w: World, plan: seq<Turn>)
    decreases |plan|
  {
    plan != [] ==> TameRun(w, plan[0].others) && TamePlan(Play(w, plan[0].others), plan[1..])
  }

  /** What an attempt needs. */
  ghost predicate Prepared(s: ReadState, sel: Selection, limit: nat, keysOnly: bool) {
    && Inv(s.w) && s.err.None? && s.pr.more && s.base.latest > 0
    && Recorded(Left(s), s.w) && Facing(Left(s), s.w.db, s.pr.after)
    && Resumes(Left(s), s.w.db, sel, limit, keysOnly, s.pr)
  }

  /** Where a scan stands between turns: nothing committed yet, underway, answered from what is left, or failed. */
  ghost predicate Sensible(s: ReadState, sel: Selection, limit: nat, keysOnly: bool) {
    && Inv(s.w)
    && (s.err.None? && s.pr.more && s.pr != Fresh(s.pr.win.maxRev) ==> Prepared(s, sel, limit, keysOnly))
    && (s.err.None? && !s.pr.more ==>
          && s.pr.win.firstRev == s.base.latest && Recorded(Left(s), s.w)
          && Answered(Left(s), s.w.db, sel, s.pr.win.maxRev, limit, keysOnly, s.pr.items))
  }

  lemma WithoutMore(base: Db, a: set<Pos>, b: set<Pos>)
    ensures Without(Without(base, a), b) == Without(base, a + b)
  {
    assert base.index - a - b == base.index - (a + b);
  }

  lemma WithoutNone(base: Db)
    ensures Without(base, {}) == base
  {
    assert base.index - {} == base.index;
  }

  /** Whatever others do, the scan can go on. */
  lemma InterferedPrepared(s: ReadState, sel: Selection, limit: nat, keysOnly: bool, acts: seq<Action>)
    requires Sensible(s, sel, limit, keysOnly) && !Ended(s) && TameRun(s.w, acts)
    ensures Prepared(Interfered(s, acts), sel, limit, keysOnly)
    ensures Interfered(s, acts).w == Play(s.w, acts) && Interfered(s, acts).pr == s.pr
  {
    hide StoreOk, RunOk, Recorded, Facing, Underway, Answered, Play, TameRun, RowsRemoved, Without, Grows, Bounded;
    var w := Play(s.w, acts);
    TameRunGrows(s.w, acts);
    StoreBounded(s.w);
    StoreBounded(w);
    if s.pr == Fresh(s.pr.win.maxRev) {
      WithoutNone(w.db);
      RecordedItself(w);
    } else {
      var rows := RowsRemoved(s.w, acts, s.pr.after);
      FacingRun(Left(s), s.w, acts, s.pr.after);
      UnderwayRun(Left(s), s.w, acts, sel, limit, keysOnly, s.pr);
      RecordedRun(Left(s), s.w, w, rows);
      WithoutMore(s.base, s.lost, rows);
    }
  }

  lemma RecordedItself(w: World)
    requires StoreOk(w)
    ensures Recorded(w.db, w) && Facing(w.db, w.db, None)
  {
    hide Retained, Chained, UniqueUuids, CurrentOk;
  }

  lemma TriedSensible(s: ReadState, sel: Selection, limit: nat, keysOnly: bool, extra: nat, ending: Ending)
    requires Prepared(s, sel, limit, keysOnly)
    ensures Sensible(Tried(s, sel, limit, keysOnly, extra, ending), sel, limit, keysOnly)
  {
    hide StoreOk, RunOk, Recorded, Facing, Underway, Answered, Readable, DoBatch, BatchScan, Without, FirstHides;
    var scan := BatchScan(s.pr, sel, limit, s.w.db, extra, s.demoted);
    var failure := Failure(s.w.db, s.pr.win.maxRev, keysOnly, Finish(scan));
    if failure.None? && ending.Complete? {
      assert Left(s).latest == s.base.latest by { LeftLatest(s); }
      BatchKeeps(Left(s), s.w, sel, limit, keysOnly, s.pr, extra, s.demoted);
    }
  }

  lemma LeftLatest(s: ReadState)
    ensures Left(s).latest == s.base.latest
  {
  }

  lemma TurnSensible(s: ReadState, sel: Selection, limit: nat, keysOnly: bool, turn: Turn)
    requires Sensible(s, sel, limit, keysOnly) && TameRun(s.w, turn.others)
    ensures Sensible(ReadTurned(s, sel, limit, keysOnly, turn), sel, limit, keysOnly)
  {
    hide Prepared, Sensible, TameRun, Interfered, Tried;
    if !Ended(s) {
      InterferedPrepared(s, sel, limit, keysOnly, turn.others);
      TriedSensible(Interfered(s, turn.others), sel, limit, keysOnly, turn.extra, turn.ending);
    }
  }

  /** The states a scan goes through are those the plan leads through, until it ends. */
  lemma {:induction false} RunSensible(start: World, sel: Selection, maxRev: Rev, limit: nat, keysOnly: bool,
                                       plan: seq<Turn>, i: nat)
    requires Inv(start) && TamePlan(start, plan) && i <= |plan|
    ensures var s := ReadRun(Begun(start, maxRev), sel, limit, keysOnly, plan[..i]);
      && Sensible(s, sel, limit, keysOnly) && s.pr.win.maxRev == maxRev && Grows(start, s.w)
      && (!Ended(s) ==> TamePlan(s.w, plan[i..]))
    decreases i
  {
    hide Prepared, TameRun, Interfered, Tried, Inv, Grows, ReadTurned, Answered;
    if i == 0 {
      GrowsReflexive(start);
      assert plan[..0] == [] && plan[0..] == plan;
    } else {
      RunSensible(start, sel, maxRev, limit, keysOnly, plan, i - 1);
      var s := ReadRun(Begun(start, maxRev), sel, limit, keysOnly, plan[..i - 1]);
      ReadRunStep(Begun(start, maxRev), sel, limit, keysOnly, plan, i - 1);
      assert plan[i - 1..][1..] == plan[i..] && plan[i - 1..][0] == plan[i - 1];
      TurnWorld(s, sel, limit, keysOnly, plan[i - 1]);
      if !Ended(s) {
        SensibleInv(s, sel, limit, keysOnly);
        TurnSensible(s, sel, limit, keysOnly, plan[i - 1]);
        TameRunGrows(s.w, plan[i - 1].others);
        GrowsTransitive(start, s.w, Play(s.w, plan[i - 1].others));
      }
    }
  }

  lemma SensibleInv(s: ReadState, sel: Selection, limit: nat, keysOnly: bool)
    requires Sensible(s, sel, limit, keysOnly)
    ensures Inv(s.w)
  {
  }

  lemma TurnWorld(s: ReadState, sel: Selection, limit: nat, keysOnly: bool, turn: Turn)
    ensures var s' := ReadTurned(s, sel, limit, keysOnly, turn);
      && s'.pr.win.maxRev == s.pr.win.maxRev && (Ended(s) ==> s' == s) && (!Ended(s) ==> s'.w == Play(s.w, turn.others))
  {
    hide Play, Failure, BatchScan, FirstHides, RowsRemoved;
  }

  /**
   * A scan that ends without an error has answered from the state of its first completed batch, less exactly the rows
   * that were removed before it got there.
   */
  lemma ReadIsAnswered(start: World, sel: Selection, maxRev: Rev, limit: nat, keysOnly: bool, plan: seq<Turn>)
    requires Inv(start) && TamePlan(start, plan)
    ensures var s := ReadAll(start, sel, maxRev, limit, keysOnly, plan);
      && Inv(s.w) && Grows(start, s.w) && Ended(s)
      && (s.err.None? ==>
            && s.pr.win == Window(maxRev, s.base.latest) && Recorded(Left(s), s.w)
            && Answered(Left(s), s.w.db, sel, maxRev, limit, keysOnly, s.pr.items))
  {
    hide Prepared, TameRun, Interfered, Tried, Inv, Grows, Answered, TamePlan;
    RunSensible(start, sel, maxRev, limit, keysOnly, plan, |plan|);
    assert plan[..|plan|] == plan;
    var s := ReadRun(Begun(start, maxRev), sel, limit, keysOnly, plan);
    NoActs(s.w);
    TurnSensible(s, sel, limit, keysOnly, LastTurn(s, sel));
    TurnWorld(s, sel, limit, keysOnly, LastTurn(s, sel));
    LastTurnEnds(s, sel, limit, keysOnly);
  }

  lemma NoActs(w: World)
    ensures Play(w, []) == w && TameRun(w, [])
  {
  }

  lemma LastTurnEnds(s: ReadState, sel: Selection, limit: nat, keysOnly: bool)
    ensures Ended(ReadTurned(s, sel, limit, keysOnly, LastTurn(s, sel)))
  {
    hide ScanRows, Failure, FirstHides, Play, Reads.Rows;
    if !Ended(s) {
      NoActs(s.w);
      var t := Interfered(s, []);
      WholeBatchEnds(t.pr, sel, limit, keysOnly, t.w.db, t.demoted);
    }
  }

  /** A batch with time for every row is the last. */
  lemma WholeBatchEnds(pr: Progress, sel: Selection, limit: nat, keysOnly: bool, db: Db, demoted: bool)
    ensures !DoBatch(pr, sel, limit, keysOnly, db, |Reads.Rows(db, sel, pr.after)|, demoted).more
  {
    var rows := Reads.Rows(db, sel, pr.after);
    ScanEnds(Demote(pr.cur, demoted), [], pr.after, rows, |rows|, pr.win, limit, |pr.items|);
  }

  /** A list fails for want of a record only if a row it has read or is reading has been removed from the log. */
  lemma FailsIfRemoved(s: ReadState, sel: Selection, limit: nat, keysOnly: bool, extra: nat, ending: Ending)
    requires Prepared(s, sel, limit, keysOnly)
    ensures Tried(s, sel, limit, keysOnly, extra, ending).err == Some(ErrNoRecord) ==>
      !keysOnly && exists p: Pos ::
        && p in Left(s).index && In(sel, p.key) && Left(s).index[p].meta.valueSize != 0
        && p.n in s.w.hist && p.n !in s.w.db.log
  {
    hide StoreOk, RunOk, Underway, Facing, BatchScan, DoBatch, Upheld, FirstHides, Without;
    var scan := BatchScan(s.pr, sel, limit, s.w.db, extra, s.demoted);
    BatchFits(s, sel, limit, keysOnly, extra);
    if !Readable(s.w.db, keysOnly, Finish(scan)) {
      var c :| c in Finish(scan) && FetchValue(s.w.db, c).None?;
      assert c.pos in Left(s).index && In(sel, c.pos.key);
    }
  }

  lemma BatchFits(s: ReadState, sel: Selection, limit: nat, keysOnly: bool, extra: nat)
    requires Prepared(s, sel, limit, keysOnly)
    ensures var scan := BatchScan(s.pr, sel, limit, s.w.db, extra, s.demoted);
      && CandsIncreasing(Finish(scan))
      && forall c :: c in Finish(scan) ==>
           Known(s.w.db, c) && c.pos in Left(s).index && Left(s).index[c.pos].meta == c.meta && In(sel, c.pos.key)
  {
    hide StoreOk, RunOk, Recorded, Facing, Resumes, Upheld, BatchScan, CandsIncreasing, Known, Without;
    StoreBounded(s.w);
    LeftLatest(s);
    BatchScanUpheld(Left(s), s.w.db, sel, limit, keysOnly, s.pr, extra, s.demoted);
    FinishFits(Left(s), s.w, sel, s.pr.win.maxRev, Places(s.pr.items), limit,
               BatchScan(s.pr, sel, limit, s.w.db, extra, s.demoted));
  }

  // ---------------------------------------------------------------- without compaction

  /** What holds of a scan among writers only, with turns `plan` to come. */
  ghost predicate Undisturbed(start: World, first: World, maxRev: Rev, s: ReadState, plan: seq<Turn>) {
    && Extends(start.db, s.w.db) && s.w.db.watermark == start.db.watermark && s.lost == {}
    && (s.err.Some? ==> s.err == Some(ErrCompacted) && 0 < maxRev < start.db.watermark)
    && (s.err.None? && s.pr == Fresh(maxRev) ==> FirstState(s.w, plan) == first)
    && (s.err.None? && s.pr != Fresh(maxRev) ==>
          && s.base == first.db && Extends(start.db, s.base) && Extends(s.base, s.w.db)
          && !(0 < maxRev < start.db.watermark))
  }

  lemma UndisturbedTurn(start: World, first: World, maxRev: Rev, s: ReadState, sel: Selection, limit: nat,
    keysOnly: bool,
                        plan: seq<Turn>)
    requires Sensible(s, sel, limit, keysOnly) && s.pr.win.maxRev == maxRev && !Ended(s)
    requires Undisturbed(start, first, maxRev, s, plan) && NoCompaction(plan) && plan != []
    ensures Undisturbed(start, first, maxRev, ReadTurned(s, sel, limit, keysOnly, plan[0]), plan[1..])
  {
    hide StoreOk, RunOk, Extends, Facing, Recorded, Underway, Answered, Play, TameRun, RowsRemoved, BatchScan, DoBatch,
      FirstHides, Without, Readable;
    var acts := plan[0].others;
    forall a | a in acts ensures Gentle(a) {}
    GentleRun(s.w, acts);
    GentleTame(s.w, acts);
    InterferedPrepared(s, sel, limit, keysOnly, acts);
    var t := Interfered(s, acts);
    ExtendsTransitive(start.db, s.w.db, t.w.db);
    ExtendsReflexive(t.w.db);
    GentleRows(s.w, acts, s.pr.after);
    if s.pr != Fresh(maxRev) { ExtendsTransitive(s.base, s.w.db, t.w.db); }
    NothingMissing(t, sel, limit, keysOnly, plan[0].extra);
    BatchIsNotFresh(t, sel, limit, keysOnly, plan[0].extra);
  }

  lemma GentleTame(w: World, acts: seq<Action>)
    requires forall a :: a in acts ==> Gentle(a)
    ensures TameRun(w, acts)
    decreases |acts|
  {
    if acts != [] {
      assert acts[0] in acts;
      GentleTame(Apply(w, acts[0]), acts[1..]);
    }
  }

  lemma {:induction false} GentleRows(w: World, acts: seq<Action>, after: Option<Pos>)
    requires Inv(w) && forall a :: a in acts ==> Gentle(a)
    ensures RowsRemoved(w, acts, after) == {}
    decreases |acts|
  {
    hide Inv, Beyond, Apply;
    if acts != [] {
      assert acts[0] in acts;
      GentleStep(w, acts[0]);
      GentleRows(Apply(w, acts[0]), acts[1..], after);
      assert RowsRemovedBy(w, acts[0], after) == {};
    }
  }

  lemma NothingMissing(s: ReadState, sel: Selection, limit: nat, keysOnly: bool, extra: nat)
    requires Prepared(s, sel, limit, keysOnly) && Extends(s.base, s.w.db)
    ensures Readable(s.w.db, keysOnly, Finish(BatchScan(s.pr, sel, limit, s.w.db, extra, s.demoted)))
  {
    hide StoreOk, RunOk, Underway, Facing, BatchScan, DoBatch, Upheld, Known;
    BatchFits(s, sel, limit, keysOnly, extra);
  }

  lemma BatchIsNotFresh(s: ReadState, sel: Selection, limit: nat, keysOnly: bool, extra: nat)
    requires Prepared(s, sel, limit, keysOnly)
    ensures var pr := DoBatch(s.pr, sel, limit, keysOnly, s.w.db, extra, s.demoted);
      pr != Fresh(pr.win.maxRev) && pr.win.maxRev == s.pr.win.maxRev
  {
    hide StoreOk, RunOk, Recorded, ScanInv, Facing, BatchScan;
    LeftLatest(s);
    FirstRevKept(Left(s), s.w.db, sel, limit, keysOnly, s.pr);
  }

  lemma {:induction false} UndisturbedRun(start: World, sel: Selection, maxRev: Rev, limit: nat, keysOnly: bool,
                                          plan: seq<Turn>, i: nat)
    requires Inv(start) && NoCompaction(plan) && i <= |plan|
    ensures TamePlan(start, plan)
    ensures var s := ReadRun(Begun(start, maxRev), sel, limit, keysOnly, plan[..i]);
      Undisturbed(start, FirstState(start, plan), maxRev, s, plan[i..])
    decreases i
  {
    hide Inv, Extends, Sensible, ReadTurned, FirstState, TamePlan, Undisturbed;
    GentlePlan(start, plan);
    if i == 0 {
      assert plan[..0] == [] && plan[0..] == plan;
      UndisturbedBegin(start, plan, maxRev);
    } else {
      UndisturbedRun(start, sel, maxRev, limit, keysOnly, plan, i - 1);
      RunSensible(start, sel, maxRev, limit, keysOnly, plan, i - 1);
      var s := ReadRun(Begun(start, maxRev), sel, limit, keysOnly, plan[..i - 1]);
      ReadRunStep(Begun(start, maxRev), sel, limit, keysOnly, plan, i - 1);
      assert plan[i - 1..][1..] == plan[i..] && plan[i - 1..][0] == plan[i - 1];
      TurnWorld(s, sel, limit, keysOnly, plan[i - 1]);
      if Ended(s) {
        EndedStays(start, FirstState(start, plan), maxRev, s, plan[i - 1..]);
      } else {
        UndisturbedTurn(start, FirstState(start, plan), maxRev, s, sel, limit, keysOnly, plan[i - 1..]);
      }
    }
  }

  lemma UndisturbedBegin(start: World, plan: seq<Turn>, maxRev: Rev)
    ensures Undisturbed(start, FirstState(start, plan), maxRev, Begun(start, maxRev), plan)
  {
    hide Extends;
    ExtendsReflexive(start.db);
  }

  lemma EndedStays(start: World, first: World, maxRev: Rev, s: ReadState, plan: seq<Turn>)
    requires Undisturbed(start, first, maxRev, s, plan) && Ended(s) && plan != []
    ensures Undisturbed(start, first, maxRev, s, plan[1..])
  {
  }

  lemma {:induction false} GentlePlan(w: World, plan: seq<Turn>)
    requires NoCompaction(plan)
    ensures TamePlan(w, plan)
    decreases |plan|
  {
    hide TameRun, Play;
    if plan != [] {
      forall a | a in plan[0].others ensures Gentle(a) {}
      GentleTame(w, plan[0].others);
      GentlePlan(Play(w, plan[0].others), plan[1..]);
    }
  }

  /**
   * Without compaction nothing is lost: the answer is the snapshot at the first completed batch, and the scan is
   * refused exactly below the watermark.
   */
  lemma UndisturbedRead(start: World, sel: Selection, maxRev: Rev, limit: nat, keysOnly: bool, plan: seq<Turn>)
    requires Inv(start) && NoCompaction(plan)
    ensures TamePlan(start, plan)
    ensures var s := ReadAll(start, sel, maxRev, limit, keysOnly, plan);
      && Extends(start.db, s.w.db) && s.lost == {} && Left(s) == s.base
      && s.err == (if 0 < maxRev < start.db.watermark then Some(ErrCompacted) else None)
      && (s.err.None? ==>
            s.base == FirstState(start, plan).db && Extends(start.db, s.base) && Extends(s.base, s.w.db))
  {
    hide Inv, Extends, Sensible, FirstState, TamePlan, ReadTurned, Ended;
    UndisturbedRun(start, sel, maxRev, limit, keysOnly, plan, |plan|);
    RunSensible(start, sel, maxRev, limit, keysOnly, plan, |plan|);
    assert plan[..|plan|] == plan && plan[|plan|..] == [];
    var s := ReadRun(Begun(start, maxRev), sel, limit, keysOnly, plan);
    var last := LastTurn(s, sel);
    var first := FirstState(start, plan);
    TurnWorld(s, sel, limit, keysOnly, last);
    LastTurnEnds(s, sel, limit, keysOnly);
    if Ended(s) {
      EndedIs(start, first, maxRev, s, []);
    } else {
      AtOnce(start, first, maxRev, s, sel);
      UndisturbedTurn(start, first, maxRev, s, sel, limit, keysOnly, [last]);
      EndedIs(start, first, maxRev, ReadTurned(s, sel, limit, keysOnly, last), []);
    }
  }

  /** With no turns left the undisturbed attempt is the first completed one, if none was before. */
  lemma AtOnce(start: World, first: World, maxRev: Rev, s: ReadState, sel: Selection)
    requires Undisturbed(start, first, maxRev, s, [])
    ensures Undisturbed(start, first, maxRev, s, [LastTurn(s, sel)]) && NoCompaction([LastTurn(s, sel)])
    ensures [LastTurn(s, sel)][1..] == []
  {
    NoActs(s.w);
  }

  lemma EndedIs(start: World, first: World, maxRev: Rev, s: ReadState, plan: seq<Turn>)
    requires Undisturbed(start, first, maxRev, s, plan) && Ended(s)
    ensures Extends(start.db, s.w.db) && s.lost == {} && Left(s) == s.base
    ensures s.err == if 0 < maxRev < start.db.watermark then Some(ErrCompacted) else None
    ensures s.err.None? ==> s.base == first.db && Extends(start.db, s.base) && Extends(s.base, s.w.db)
  {
    hide Extends;
    WithoutNone(s.base);
  }

  // ---------------------------------------------------------------- the loop itself

  /** One attempt at a batch; `Complete` also does what follows the commit. */
  method ProcessBatch(rc: RecordCollector, w: World, sel: Selection, after: Option<Pos>, extra: nat, ending: Ending,
                      ghost s: ReadState)
    returns (err: Option<ReadError>, last: Option<Pos>, more: bool)
    requires rc.Carries(s.pr, s.demoted) && s.pr.after == after && s.w == w
    requires Prepared(s, sel, rc.Limit(), rc.KeysOnly())
    modifies rc.Parts()
    ensures var s' := Tried(s, sel, rc.Limit(), rc.KeysOnly(), extra, ending);
      && err == s'.err && (err.None? ==> rc.Carries(s'.pr, s'.demoted))
      && (err.None? && ending.Complete? ==> last == s'.pr.after && more == s'.pr.more)
      && (err.None? && !ending.Complete? ==> s'.pr == s.pr)
  {
    hide Inv, Recorded, Facing, Resumes, ScanRows, Reads.Rows, Upheld, CandsIncreasing, Known, Without, FirstHides;
    var rows := Reads.Rows(w.db, sel, after);
    ghost var out, demoted;
    last, more, out, demoted := ScanBatch(rc, rows, after, extra, s.pr, s.demoted);
    err := None;
    if ending.Broken? { return; }
    ghost var scan := BatchScan(s.pr, sel, rc.Limit(), w.db, extra, s.demoted);
    BatchFits(s, sel, rc.Limit(), rc.KeysOnly(), extra);
    assert out + Closing(rc.batchCurrentRecord, !more) == Finish(scan);
    err := rc.EndBatch(w.db, !more, out, s.pr, demoted);
    if err.Some? || ending.Doubtful? { return; }
    rc.PostBatch(w.db, Finish(scan), s.pr, demoted);
  }

  /** One turn: what others do, and an attempt. */
  method TakeTurn(rc: RecordCollector, w0: World, sel: Selection, after0: Option<Pos>, turn: Turn, ghost s: ReadState)
    returns (w: World, err: Option<ReadError>, after: Option<Pos>, more: bool)
    requires rc.Carries(s.pr, s.demoted) && s.pr.after == after0 && s.w == w0 && !Ended(s)
    requires Sensible(s, sel, rc.Limit(), rc.KeysOnly()) && TameRun(w0, turn.others)
    modifies rc.Parts()
    ensures var s' := ReadTurned(s, sel, rc.Limit(), rc.KeysOnly(), turn);
      && w == s'.w && err == s'.err
      && (err.None? ==> rc.Carries(s'.pr, s'.demoted) && after == s'.pr.after && more == s'.pr.more)
  {
    hide TameRun, Prepared, Sensible, Tried, Play, Interfered;
    InterferedPrepared(s, sel, rc.Limit(), rc.KeysOnly(), turn.others);
    TurnWorld(s, sel, rc.Limit(), rc.KeysOnly(), turn);
    SameFlag(s, turn.others);
    w, after, more := Play(w0, turn.others), after0, true;
    var last, m;
    err, last, m := ProcessBatch(rc, w, sel, after0, turn.extra, turn.ending, Interfered(s, turn.others));
    if err.None? && turn.ending.Complete? { after, more := last, m; }
  }

  lemma SameFlag(s: ReadState, acts: seq<Action>)
    ensures Interfered(s, acts).demoted == s.demoted
  {
  }

  /** The whole scan, in as many attempts as the plan has and one more if that is not enough. */
  method ProcessRange(rc: RecordCollector, start: World, sel: Selection, plan: seq<Turn>)
    returns (w: World, err: Option<ReadError>)
    requires Inv(start) && TamePlan(start, plan) && rc.Carries(Fresh(rc.maxRevision), false)
    modifies rc.Parts()
    ensures var s := ReadAll(start, sel, rc.maxRevision, rc.Limit(), rc.KeysOnly(), plan);
      && w == s.w && err == s.err
      && (err.None? ==>
            && rc.firstRev == s.base.latest && rc.Collected() == |s.pr.items|
            && (rc.inner.Listing? ==>
                  forall i :: 0 <= i < |s.pr.items| ==> AsItem(rc.inner.list.records[i]) == s.pr.items[i]))
  {
    hide Inv, TameRun, TamePlan, Sensible, Answered, Recorded, Grows, ReadTurned, Left;
    w, err := start, None;
    var after: Option<Pos>, more, i := None, true, 0;
    ghost var first, s := Begun(start, rc.maxRevision), Begun(start, rc.maxRevision);
    ghost var limit, keysOnly := rc.Limit(), rc.KeysOnly();
    ReadIsAnswered(start, sel, rc.maxRevision, limit, keysOnly, plan);
    assert plan[..0] == [] && plan[..|plan|] == plan;
    while more && err.None?
      invariant i <= |plan| + 1 && (i > |plan| ==> Ended(s))
      invariant s.w == w && s.err == err
      invariant err.None? ==> s.pr.after == after && s.pr.more == more && rc.Carries(s.pr, s.demoted)
      invariant i <= |plan| ==> s == ReadRun(first, sel, limit, keysOnly, plan[..i])
      invariant i > |plan| ==> s == ReadAll(start, sel, rc.maxRevision, limit, keysOnly, plan)
      decreases |plan| + 1 - i
    {
      RunSensible(start, sel, rc.maxRevision, limit, keysOnly, plan, i);
      TurnTame(w, plan, i);
      var turn := if i < |plan| then plan[i] else Turn([], |Reads.Rows(w.db, sel, after)|, Complete);
      if i < |plan| { ReadRunStep(first, sel, limit, keysOnly, plan, i); }
      else { LastTurnEnds(s, sel, limit, keysOnly); }
      w, err, after, more := TakeTurn(rc, w, sel, after, turn, s);
      s := ReadTurned(s, sel, limit, keysOnly, turn);
      i := i + 1;
    }
    EndedSoon(start, sel, rc.maxRevision, limit, keysOnly, plan, i, s);
  }

  lemma TurnTame(w: World, plan: seq<Turn>, i: nat)
    requires i <= |plan| && TamePlan(w, plan[i..])
    ensures TameRun(w, if i < |plan| then plan[i].others else [])
  {
    NoActs(w);
  }

  /** Once a scan has ended, the rest of the plan changes nothing. */
  lemma {:induction false} EndedSoon(start: World, sel: Selection, maxRev: Rev, limit: nat, keysOnly: bool,
                                     plan: seq<Turn>, i: nat, s: ReadState)
    requires Ended(s)
    requires i <= |plan| ==> s == ReadRun(Begun(start, maxRev), sel, limit, keysOnly, plan[..i])
    requires i > |plan| ==> s == ReadAll(start, sel, maxRev, limit, keysOnly, plan)
    ensures s == ReadAll(start, sel, maxRev, limit, keysOnly, plan)
    decreases |plan| - i
  {
    hide ReadTurned, Ended;
    if i == |plan| {
      assert plan[..|plan|] == plan;
      TurnWorld(s, sel, limit, keysOnly, LastTurn(s, sel));
    } else if i < |plan| {
      ReadRunStep(Begun(start, maxRev), sel, limit, keysOnly, plan, i);
      TurnWorld(s, sel, limit, keysOnly, plan[i]);
      EndedSoon(start, sel, maxRev, limit, keysOnly, plan, i + 1, s);
    }
  }

  // ---------------------------------------------------------------- List, Count and Get

  datatype Refusal = BadRange | Compacted | NoRecord | FutureRev(rev: Rev)

  datatype Reply = Listed(rev: Rev, kvs: seq<Writes.KeyValue>) | Counted(rev: Rev, count: nat) | Refused(why: Refusal)

  /**
   * Which requests are turned down, by how their scan ended: a start key without a prefix search, a compacted revision,
   * a record removed under way, or a future revision.
   */
  predicate Refuses(s: ReadState, prefix: Key, startKey: Key, revision: Rev, why: Refusal) {
    var bad := !EndsInSlash(prefix) && startKey != prefix;
    match why
    case BadRange => bad
    case Compacted => !bad && s.err == Some(ErrCompacted)
    case NoRecord => !bad && s.err == Some(ErrNoRecord)
    case FutureRev(rev) => !bad && s.err.None? && revision > s.base.latest && rev == s.base.latest
  }

  function KvOfItem(item: Item): Writes.KeyValue {
    Writes.KvOf(item.pos.n, Entry(item.pos.key, item.meta, item.value))
  }

  /**
   * The key-value is of the record at this place: its key, revisions and lease are those committed there, its create
   * revision that of the create it descends from.
   */
  ghost predicate Tells(h: map<Rev, Entry>, keysOnly: bool, p: Pos, kv: Writes.KeyValue) {
    && kv.key == p.key && kv.modRevision == p.n && Writes.Outlines(h, kv) && Writes.Born(h, kv)
    && (keysOnly ==> kv.value == [])
  }

  lemma ItemTells(w: World, base: Db, keysOnly: bool, item: Item)
    requires Inv(w) && Recorded(base, w) && item.pos in base.index && item.meta == base.index[item.pos].meta
    requires keysOnly ==> item.value == []
    ensures Tells(w.hist, keysOnly, item.pos, KvOfItem(item)) && KvOfItem(item).value == item.value
  {
    hide Inv, Writes.Born;
    Writes.InvIsChained(w);
    Writes.OutlinedIsBorn(w.hist, KvOfItem(item));
  }

  /** Every item of an answer is a row of the snapshot, with its metadata. */
  lemma ItemsKnown(base: Db, w: World, sel: Selection, maxRev: Rev, limit: nat, keysOnly: bool, items: seq<Item>,
                   i: nat)
    requires Answered(base, w.db, sel, maxRev, limit, keysOnly, items) && Recorded(base, w) && i < |items|
    ensures items[i].pos in base.index && items[i].meta == base.index[items[i].pos].meta
    ensures keysOnly ==> items[i].value == []
    ensures limit == 0 || i < limit ==>
      items[i].pos.n in w.hist && items[i].value == if keysOnly then [] else w.hist[items[i].pos.n].value
  {
    hide FetchValue, Winner, SortPos;
  }

  /** The range selection and the scan shared by List and Count. */
  method ListWithCollector(rc: RecordCollector, start: World, prefix: Key, startKey: Key, plan: seq<Turn>)
    returns (w: World, why: Option<Refusal>)
    requires Inv(start) && TamePlan(start, plan) && rc.Carries(Fresh(rc.maxRevision), false)
    modifies rc.Parts()
    ensures var s := ReadAll(start, Selection(prefix, startKey), rc.maxRevision, rc.Limit(), rc.KeysOnly(), plan);
      && Inv(w) && Grows(start, w) && (why != Some(BadRange) ==> w == s.w)
      && (why == Some(BadRange) <==> !EndsInSlash(prefix) && startKey != prefix)
      && (why.None? ==> rc.maxRevision <= rc.firstRev)
      && (forall r :: why == Some(r) <==> Refuses(s, prefix, startKey, rc.maxRevision, r))
      && (why.None? ==>
            && rc.firstRev == s.base.latest && rc.Collected() == |s.pr.items| && Recorded(Left(s), w)
            && Answered(Left(s), w.db, Selection(prefix, startKey), rc.maxRevision, rc.Limit(), rc.KeysOnly(),
                        s.pr.items)
            && (rc.inner.Listing? ==>
                  forall i :: 0 <= i < |s.pr.items| ==> AsItem(rc.inner.list.records[i]) == s.pr.items[i]))
  {
    hide Inv, Grows, Answered, Recorded, ReadAll, TamePlan, Left;
    w := start;
    GrowsReflexive(start);
    if !EndsInSlash(prefix) && startKey != prefix { return w, Some(BadRange); }
    var err;
    ReadIsAnswered(start, Selection(prefix, startKey), rc.maxRevision, rc.Limit(), rc.KeysOnly(), plan);
    w, err := ProcessRange(rc, start, Selection(prefix, startKey), plan);
    if err.Some? { return w, Some(if err.value.ErrCompacted? then Compacted else NoRecord); }
    why := if rc.maxRevision > rc.firstRev then Some(FutureRev(rc.firstRev)) else None;
  }

  /**
   * List: the newest live record of every selected key at the pinned revision, in key order, with the values those
   * revisions stored, of what is left of the state of its first completed batch; with a limit, the first `limit` of
   * them and at most one further record.
   */
  method List(start: World, prefix: Key, startKey: Key, limit: nat, revision: Rev, keysOnly: bool, plan: seq<Turn>)
    returns (w: World, reply: Reply)
    requires Inv(start) && TamePlan(start, plan)
    ensures var sel := Selection(prefix, startKey);
      var s := ReadAll(start, sel, revision, limit, keysOnly, plan);
      && Inv(w) && Grows(start, w) && !reply.Counted?
      && (forall why :: reply == Refused(why) <==> Refuses(s, prefix, startKey, revision, why))
      && (!EndsInSlash(prefix) && startKey != prefix <==> reply == Refused(BadRange))
      && (reply.Listed? ==> revision <= reply.rev)
      && (reply.Listed? ==>
            && w == s.w && reply.rev == s.base.latest && Recorded(Left(s), w)
            && Answered(Left(s), w.db, sel, revision, limit, keysOnly, s.pr.items)
            && |reply.kvs| == |s.pr.items|
            && (forall i :: 0 <= i < |reply.kvs| ==> Tells(w.hist, keysOnly, s.pr.items[i].pos, reply.kvs[i]))
            && (forall i :: 0 <= i < |reply.kvs| && (limit == 0 || i < limit) ==>
                  reply.kvs[i].value == if keysOnly then [] else w.hist[s.pr.items[i].pos.n].value)
            && (limit == 0 ==> Places(s.pr.items) == Snapshot(Left(s), sel, revision))
            && (limit > 0 ==> |s.pr.items| <= limit + 1))
  {
    hide Inv, Grows, ReadAll, TamePlan, Left, Snapshot, Right, Extended, Recorded, Refuses;
    var collector := new ListCollector(limit, keysOnly);
    var rc := new RecordCollector(revision, Listing(collector));
    var why;
    w, why := ListWithCollector(rc, start, prefix, startKey, plan);
    if why.Some? { return w, Refused(why.value); }
    var kvs := [];
    for i := 0 to |collector.records|
      invariant |kvs| == i && forall k :: 0 <= k < i ==> kvs[k] == KvOfItem(AsItem(collector.records[k]))
    {
      kvs := kvs + [KvOfItem(AsItem(collector.records[i]))];
    }
    reply := Listed(rc.firstRev, kvs);
    ghost var sel := Selection(prefix, startKey);
    ghost var s := ReadAll(start, sel, revision, limit, keysOnly, plan);
    forall i | 0 <= i < |kvs|
      ensures Tells(w.hist, keysOnly, s.pr.items[i].pos, kvs[i]) && kvs[i].value == s.pr.items[i].value
    {
      ItemsKnown(Left(s), w, sel, revision, limit, keysOnly, s.pr.items, i);
      ItemTells(w, Left(s), keysOnly, s.pr.items[i]);
    }
    forall i | 0 <= i < |kvs| && (limit == 0 || i < limit)
      ensures s.pr.items[i].value == if keysOnly then [] else w.hist[s.pr.items[i].pos.n].value
    {
      ItemsKnown(Left(s), w, sel, revision, limit, keysOnly, s.pr.items, i);
    }
  }

  /** Count by scanning: the number of keys the same List would return. */
  method ScanCount(start: World, prefix: Key, startKey: Key, revision: Rev, plan: seq<Turn>)
    returns (w: World, reply: Reply)
    requires Inv(start) && TamePlan(start, plan)
    ensures var sel := Selection(prefix, startKey);
      var s := ReadAll(start, sel, revision, 0, true, plan);
      && Inv(w) && Grows(start, w) && !reply.Listed?
      && (forall why :: reply == Refused(why) <==> Refuses(s, prefix, startKey, revision, why))
      && (!EndsInSlash(prefix) && startKey != prefix <==> reply == Refused(BadRange))
      && (reply.Counted? ==> revision <= reply.rev)
      && (reply.Counted? ==>
            w == s.w && reply.rev == s.base.latest && reply.count == |Snapshot(Left(s), sel, revision)|)
  {
    hide Inv, Grows, ReadAll, TamePlan, Left, Snapshot, Right, Extended, Recorded, Refuses;
    var collector := new CountCollector();
    var rc := new RecordCollector(revision, Counting(collector));
    var why;
    w, why := ListWithCollector(rc, start, prefix, startKey, plan);
    if why.Some? { return w, Refused(why.value); }
    reply := Counted(rc.firstRev, collector.totalCount);
  }

  /** A count never fails for want of a record: it attaches no values. */
  lemma CountFindsAll(start: World, sel: Selection, maxRev: Rev, plan: seq<Turn>)
    ensures ReadAll(start, sel, maxRev, 0, true, plan).err != Some(ErrNoRecord)
  {
    hide ReadTurned;
    var s := ReadRun(Begun(start, maxRev), sel, 0, true, plan);
    CountRunFinds(Begun(start, maxRev), sel, plan);
    CountTurnFinds(s, sel, LastTurn(s, sel));
  }

  lemma {:induction false} CountRunFinds(s: ReadState, sel: Selection, plan: seq<Turn>)
    requires s.err != Some(ErrNoRecord)
    ensures ReadRun(s, sel, 0, true, plan).err != Some(ErrNoRecord)
    decreases |plan|
  {
    hide ReadTurned;
    if plan != [] {
      CountRunFinds(s, sel, plan[..|plan| - 1]);
      CountTurnFinds(ReadRun(s, sel, 0, true, plan[..|plan| - 1]), sel, plan[|plan| - 1]);
    }
  }

  lemma CountTurnFinds(s: ReadState, sel: Selection, turn: Turn)
    requires s.err != Some(ErrNoRecord)
    ensures ReadTurned(s, sel, 0, true, turn).err != Some(ErrNoRecord)
  {
    hide Play, RowsRemoved, BatchScan, DoBatch, FirstHides;
  }

  /** Get of a key that is not a prefix search: the key's own newest record at the pinned revision, if live. */
  method Get(start: World, key: Key, revision: Rev, keysOnly: bool, plan: seq<Turn>)
    returns (w: World, rev: Rev, kv: Option<Writes.KeyValue>, why: Option<Refusal>)
    requires Inv(start) && TamePlan(start, plan)
    ensures var sel := Selection(key, key);
      var s := ReadAll(start, sel, revision, 1, keysOnly, plan);
      && Inv(w) && Grows(start, w)
      && (forall r :: why == Some(r) <==> Refuses(s, key, key, revision, r))
      && (why.None? ==>
            && rev == s.base.latest && revision <= rev
            && (kv.None? <==> Snapshot(Left(s), sel, revision) == [])
            && (kv.Some? ==>
                  && Tells(w.hist, keysOnly, Snapshot(Left(s), sel, revision)[0], kv.value)
                  && kv.value.value == (if keysOnly then [] else w.hist[kv.value.modRevision].value)
                  && (!EndsInSlash(key) ==> kv.value.key == key)))
  {
    hide Inv, Grows, Answered, Recorded, ReadAll, TamePlan, Snapshot, Refuses;
    var reply;
    w, reply := List(start, key, key, 1, revision, keysOnly, plan);
    ghost var s := ReadAll(start, Selection(key, key), revision, 1, keysOnly, plan);
    if reply.Refused? { return w, 0, None, Some(reply.why); }
    rev, why := reply.rev, None;
    kv := if |reply.kvs| == 0 then None else Some(reply.kvs[0]);
    FirstOfSnapshot(Left(s), w.db, key, revision, keysOnly, s.pr.items);
  }

  lemma FirstOfSnapshot(base: Db, db: Db, key: Key, revision: Rev, keysOnly: bool, items: seq<Item>)
    requires Answered(base, db, Selection(key, key), revision, 1, keysOnly, items)
    ensures var snap := Snapshot(base, Selection(key, key), revision);
      && (items == [] <==> snap == [])
      && (items != [] ==> snap[0] == items[0].pos && (!EndsInSlash(key) ==> items[0].pos.key == key))
  {
    var snap := Snapshot(base, Selection(key, key), revision);
    if snap != [] { assert Places(items)[..1][0] == snap[..1][0]; }
  }
}
