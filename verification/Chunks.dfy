/** The current-value subspace: each live key's value, cut into chunks stored under (key, offset). */
module Chunks {
  import opened Types

  const CHUNK_SIZE := 10000

  type Rows = map<Pos, Bytes>

  function NumChunks(size: nat): nat {
    (size + CHUNK_SIZE - 1) / CHUNK_SIZE
  }

  /** The chunk of `value` starting at `offset`. */
  function Piece(value: Bytes, offset: nat): Bytes
    requires offset <= |value|
  {
    value[offset..Min(offset + CHUNK_SIZE, |value|)]
  }

  predicate ChunkStart(size: nat, offset: nat) {
    offset % CHUNK_SIZE == 0 && offset < size
  }

  /** The rows of `key` are exactly the chunks of `value`. */
  ghost predicate Holds(rows: Rows, key: Key, value: Bytes) {
    forall o: nat ::
      && (Pos(key, o) in rows <==> ChunkStart(|value|, o))
      && (Pos(key, o) in rows ==> rows[Pos(key, o)] == Piece(value, o))
  }

  ghost predicate SameElsewhere(a: Rows, b: Rows, key: Key) {
    forall p: Pos :: p.key != key ==> (p in a <==> p in b) && (p in a ==> a[p] == b[p])
  }

  // ---------------------------------------------------------------- specification of the two writes

  /** Clear(key): every row whose packed key starts with the packed (key). */
  function Cleared(rows: Rows, key: Key): Rows {
    map p | p in rows && p.key != key :: rows[p]
  }

  /** The range clear of the stale tail, taken only when the value shrank by at least one chunk. */
  function Trimmed(rows: Rows, key: Key, size: nat, prevSize: int): Rows {
    if prevSize < 0 then
      Cleared(rows, key)
    else if NumChunks(prevSize) > NumChunks(size) then
      map p | p in rows && !(p.key == key && p.n >= NumChunks(size) * CHUNK_SIZE) :: rows[p]
    else
      rows
  }

  /** The rows after the first `n` chunks of `value` have been set. */
  function WithPieces(rows: Rows, key: Key, value: Bytes, n: nat): Rows
    requires n <= NumChunks(|value|)
  {
    if n == 0 then rows
    else WithPieces(rows, key, value, n - 1)[Pos(key, (n - 1) * CHUNK_SIZE) := Piece(value, (n - 1) * CHUNK_SIZE)]
  }

  function Replaced(rows: Rows, key: Key, value: Bytes, prevSize: int): Rows {
    WithPieces(Trimmed(rows, key, |value|, prevSize), key, value, NumChunks(|value|))
  }

  // ---------------------------------------------------------------- what the writes achieve

  lemma NumChunksBound(size: nat, o: nat)
    requires o % CHUNK_SIZE == 0
    ensures o < size <==> o < NumChunks(size) * CHUNK_SIZE
  {
    var c := o / CHUNK_SIZE;
    assert o == c * CHUNK_SIZE;
  }

  lemma {:induction false} PiecesWritten(rows: Rows, key: Key, value: Bytes, n: nat, p: Pos)
    requires n <= NumChunks(|value|)
    ensures p in WithPieces(rows, key, value, n) <==> p in rows || Written(key, n, p)
    ensures Written(key, n, p) ==> p.n < |value| && WithPieces(rows, key, value, n)[p] == Piece(value, p.n)
    ensures p in rows && !Written(key, n, p) ==> WithPieces(rows, key, value, n)[p] == rows[p]
  {
    if n > 0 {
      PiecesWritten(rows, key, value, n - 1, p);
      NumChunksBound(|value|, (n - 1) * CHUNK_SIZE);
      if Written(key, n, p) && !Written(key, n - 1, p) {
        assert p == Pos(key, (n - 1) * CHUNK_SIZE);
      }
    }
  }

  predicate Written(key: Key, n: nat, p: Pos) {
    p.key == key && p.n % CHUNK_SIZE == 0 && p.n < n * CHUNK_SIZE
  }

  /**
   * Replacement in place is exact: if the key's rows were the chunks of some value of size `prevSize`, or
   * there were none at all, or `prevSize` is negative (unknown), they are afterwards the chunks of the new
   * value with no stale tail, and no other key's rows moved.
   */
  lemma ReplaceIsExact(rows: Rows, key: Key, before: Bytes, value: Bytes, prevSize: int)
    requires prevSize >= 0 ==> Holds(rows, key, before) && (|before| == prevSize || before == [])
    ensures Holds(Replaced(rows, key, value, prevSize), key, value)
    ensures SameElsewhere(rows, Replaced(rows, key, value, prevSize), key)
  {
    var trimmed := Trimmed(rows, key, |value|, prevSize);
    var after := Replaced(rows, key, value, prevSize);
    forall o: nat
      ensures Pos(key, o) in after <==> ChunkStart(|value|, o)
      ensures Pos(key, o) in after ==> after[Pos(key, o)] == Piece(value, o)
    {
      PiecesWritten(trimmed, key, value, NumChunks(|value|), Pos(key, o));
      if o % CHUNK_SIZE == 0 {
        NumChunksBound(|value|, o);
        NumChunksBound(|before|, o);
      }
    }
    forall p: Pos | p.key != key ensures (p in rows <==> p in after) && (p in rows ==> rows[p] == after[p]) {
      PiecesWritten(trimmed, key, value, NumChunks(|value|), p);
    }
  }

  /**
   * The hypothesis on `prevSize` is what makes it exact: when the key really holds a longer value than
   * `prevSize` admits and no trim happens, a stale chunk survives.
   */
  lemma UnderstatedSizeLeavesTail(rows: Rows, key: Key, before: Bytes, value: Bytes, prevSize: nat)
    requires Holds(rows, key, before)
    requires NumChunks(prevSize) <= NumChunks(|value|)
    ensures Holds(Replaced(rows, key, value, prevSize), key, value) <==> NumChunks(|before|) <= NumChunks(|value|)
  {
    var after := Replaced(rows, key, value, prevSize);
    if NumChunks(|before|) > NumChunks(|value|) {
      var o := NumChunks(|value|) * CHUNK_SIZE;
      NumChunksBound(|value|, o);
      NumChunksBound(|before|, o);
      PiecesWritten(rows, key, value, NumChunks(|value|), Pos(key, o));
      assert Pos(key, o) in after && !ChunkStart(|value|, o);
    } else {
      forall o: nat
        ensures Pos(key, o) in after <==> ChunkStart(|value|, o)
        ensures Pos(key, o) in after ==> after[Pos(key, o)] == Piece(value, o)
      {
        PiecesWritten(rows, key, value, NumChunks(|value|), Pos(key, o));
        if o % CHUNK_SIZE == 0 {
          NumChunksBound(|value|, o);
          NumChunksBound(|before|, o);
        }
      }
    }
  }

  // ---------------------------------------------------------------- reading back

  ghost function Offsets(rows: Rows, key: Key): set<nat> {
    set p | p in rows && p.key == key :: p.n
  }

  ghost function Join(rows: Rows, key: Key, offsets: seq<nat>): Bytes
    requires forall o :: o in offsets ==> Pos(key, o) in rows
  {
    if offsets == [] then [] else Join(rows, key, offsets[..|offsets| - 1]) + rows[Pos(key, offsets[|offsets| - 1])]
  }

  /** Reading a key's first `n` chunks in order gives the value cut after `n` chunks. */
  lemma {:induction false} JoinIsPrefix(rows: Rows, key: Key, value: Bytes, offsets: seq<nat>, n: nat)
    requires Holds(rows, key, value)
    requires Increasing(offsets) && forall o :: o in offsets <==> Pos(key, o) in rows
    requires n <= |offsets|
    ensures forall i :: 0 <= i < n ==> offsets[i] == i * CHUNK_SIZE
    ensures forall o :: o in offsets[..n] ==> Pos(key, o) in rows
    ensures Join(rows, key, offsets[..n]) == value[..Min(n * CHUNK_SIZE, |value|)]
  {
    if n > 0 {
      JoinIsPrefix(rows, key, value, offsets, n - 1);
      var o := offsets[n - 1];
      assert o in offsets && ChunkStart(|value|, o);
      if n >= 2 { assert offsets[n - 2] < o; }
      var expected := (n - 1) * CHUNK_SIZE;
      assert ChunkStart(|value|, expected);
      assert Pos(key, expected) in rows && expected in offsets;
      var j :| 0 <= j < |offsets| && offsets[j] == expected;
      assert j >= n - 1;
      assert offsets[..n][..n - 1] == offsets[..n - 1];
    }
  }

  /** Chunking then joining in offset order gives the value back. */
  lemma {:induction false} JoinRoundTrip(rows: Rows, key: Key, value: Bytes, offsets: seq<nat>)
    requires Holds(rows, key, value)
    requires Increasing(offsets) && forall o :: o in offsets <==> Pos(key, o) in rows
    ensures Join(rows, key, offsets) == value
  {
    var n := |offsets|;
    JoinIsPrefix(rows, key, value, offsets, n);
    assert offsets[..n] == offsets;
    assert n * CHUNK_SIZE !in offsets;
    assert Pos(key, n * CHUNK_SIZE) !in rows;
  }

  /** No row of the key and every other row as it was: there is only one such subspace. */
  lemma ClearedIs(rows: Rows, rows': Rows, key: Key)
    requires Holds(rows', key, []) && SameElsewhere(rows, rows', key)
    ensures rows' == Cleared(rows, key)
  {
    forall p: Pos ensures p in rows' <==> p in Cleared(rows, key) {
      assert p.key == key ==> p == Pos(key, p.n);
    }
  }

  /** The subspace itself, updated in place inside a transaction. */
  class CurrentSubspace {
    var rows: Rows

    constructor (rows: Rows)
      ensures this.rows == rows
    {
      this.rows := rows;
    }

    method Clear(key: Key)
      modifies this
      ensures Holds(rows, key, []) && SameElsewhere(old(rows), rows, key)
    {
      rows := Cleared(rows, key);
    }

    method Replace(key: Key, value: Bytes, prevSize: int)
      modifies this
      ensures rows == Replaced(old(rows), key, value, prevSize)
    {
      if prevSize < 0 {
        Clear(key);
        ClearedIs(old(rows), rows, key);
      } else if NumChunks(prevSize) > NumChunks(|value|) {
        var begin := NumChunks(|value|) * CHUNK_SIZE;
        rows := map p | p in rows && !(p.key == key && p.n >= begin) :: rows[p];
      }
      ghost var trimmed := rows;
      var offset := 0;
      while offset < |value|
        invariant offset % CHUNK_SIZE == 0 && offset / CHUNK_SIZE <= NumChunks(|value|)
        invariant offset >= |value| ==> offset / CHUNK_SIZE == NumChunks(|value|)
        invariant rows == WithPieces(trimmed, key, value, offset / CHUNK_SIZE)
      {
        rows := rows[Pos(key, offset) := value[offset..Min(offset + CHUNK_SIZE, |value|)]];
        offset := offset + CHUNK_SIZE;
      }
    }
  }
}
