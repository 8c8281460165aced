/** The byte ranges the driver builds from a prefix and a start key, under the tuple layer's string encoding. */
module TupleRange {
  import opened Types

  const STRING_CODE: Byte := 2
  const VERSIONSTAMP_CODE: Byte := 0x33
  const SLASH: Byte := 0x2f

  predicate ZeroFree(k: Bytes) {
    forall i :: 0 <= i < |k| ==> k[i] != 0
  }

  predicate HasPrefix(k: Bytes, prefix: Bytes) {
    prefix <= k
  }

  predicate EndsInSlash(k: Bytes) {
    k != [] && k[|k| - 1] == SLASH
  }

  /** The predicate watchers and the count tracker use. */
  predicate Matches(key: Key, prefix: Key) {
    (EndsInSlash(prefix) && HasPrefix(key, prefix)) || key == prefix
  }

  // ---------------------------------------------------------------- encoding

  /** A zero byte inside a string is followed by 0xFF; the string ends with a bare zero. */
  function Escaped(s: Bytes): Bytes {
    if s == [] then [] else (if s[0] == 0 then [0, 0xFF] else [s[0]]) + Escaped(s[1..])
  }

  function Packed(sub: Bytes, key: Key): Bytes {
    sub + [STRING_CODE] + Escaped(key) + [0]
  }

  /** The row of (key, revision): the packed key followed by the packed versionstamp. */
  function RowKey(sub: Bytes, key: Key, stamp: Bytes): Bytes {
    Packed(sub, key) + [VERSIONSTAMP_CODE] + stamp
  }

  /** The first byte string that is not prefixed by `b`: trailing 0xFF bytes dropped, the last one raised. */
  function Strinc(b: Bytes): Option<Bytes> {
    if b == [] then None
    else if b[|b| - 1] == 0xFF then Strinc(b[..|b| - 1])
    else Some(b[..|b| - 1] + [b[|b| - 1] + 1])
  }

  datatype Range = Range(begin: Bytes, end: Bytes)

  predicate Within(r: Range, row: Bytes) {
    !Less(row, r.begin) && Less(row, r.end)
  }

  /** The range listWithCollector scans; None is its error for a start key without a slash-terminated prefix. */
  function Selected(sub: Bytes, prefix: Key, startKey: Key): Option<Range> {
    if EndsInSlash(prefix) then
      var packedStart := Packed(sub, startKey);
      var begin := if prefix != startKey then Strinc(packedStart) else Some(packedStart);
      var packedPrefix := Packed(sub, prefix);
      var end := Strinc(packedPrefix[..|packedPrefix| - 1]);
      if begin.Some? && end.Some? then Some(Range(begin.value, end.value)) else None
    else if startKey != prefix then
      None
    else
      Some(Range(Packed(sub, prefix) + [0], Packed(sub, prefix) + [0xFF]))
  }

  // ---------------------------------------------------------------- order

  lemma {:induction false} LessSamePrefix(p: Bytes, a: Bytes, b: Bytes)
    ensures Less(p + a, p + b) <==> Less(a, b)
  {
    if p == [] {
      assert p + a == a && p + b == b;
    } else {
      assert (p + a)[1..] == p[1..] + a && (p + b)[1..] == p[1..] + b;
      LessSamePrefix(p[1..], a, b);
    }
  }

  lemma {:induction false} EscapedZeroFree(k: Bytes)
    requires ZeroFree(k)
    ensures Escaped(k) == k
  {
    if k != [] {
      EscapedZeroFree(k[1..]);
      assert k == [k[0]] + k[1..];
    }
  }

  /** Zero-terminated strings compare as the strings do; equal ones compare by what follows. */
  lemma {:induction false} TerminatedOrder(a: Bytes, b: Bytes, s: Bytes, t: Bytes)
    requires ZeroFree(a) && ZeroFree(b)
    ensures Less(a + [0] + s, b + [0] + t) <==> Less(a, b) || (a == b && Less(s, t))
  {
    if a != [] && b != [] && a[0] == b[0] {
      assert (a + [0] + s)[1..] == a[1..] + [0] + s && (b + [0] + t)[1..] == b[1..] + [0] + t;
      TerminatedOrder(a[1..], b[1..], s, t);
      assert a == [a[0]] + a[1..] && b == [b[0]] + b[1..];
      LessIrreflexive(a);
    } else if a == [] && b == [] {
      assert (a + [0] + s)[1..] == s && (b + [0] + t)[1..] == t;
    } else {
      assert a == [] || b == [] || a[0] != b[0];
    }
  }

  /** Rows of the index sort by key, then by versionstamp: the scan order of positions. */
  lemma RowOrder(sub: Bytes, a: Key, b: Key, s: Bytes, t: Bytes)
    requires ZeroFree(a) && ZeroFree(b)
    ensures Less(RowKey(sub, a, s), RowKey(sub, b, t)) <==> Less(a, b) || (a == b && Less(s, t))
  {
    var head := sub + [STRING_CODE];
    var s', t' := [VERSIONSTAMP_CODE] + s, [VERSIONSTAMP_CODE] + t;
    EscapedZeroFree(a);
    EscapedZeroFree(b);
    assert RowKey(sub, a, s) == head + (a + [0] + s') && RowKey(sub, b, t) == head + (b + [0] + t');
    LessSamePrefix(head, a + [0] + s', b + [0] + t');
    TerminatedOrder(a, b, s', t');
    LessSamePrefix([VERSIONSTAMP_CODE], s, t);
  }

  /** Comparing a terminated key with a bound whose last byte is not zero. */
  lemma {:induction false} BoundOrder(k: Bytes, t: Bytes, bound: Bytes)
    requires ZeroFree(k) && ZeroFree(bound)
    ensures Less(k + [0] + t, bound) <==> Less(k, bound)
  {
    if k != [] && bound != [] && k[0] == bound[0] {
      assert (k + [0] + t)[1..] == k[1..] + [0] + t;
      BoundOrder(k[1..], t, bound[1..]);
    } else if k == [] {
      assert (k + [0] + t)[0] == 0;
    } else {
      assert (k + [0] + t)[0] == k[0];
    }
  }

  /** The keys from `s` + [1] on are the zero-free keys above `s`. */
  lemma {:induction false} NextAfter(k: Bytes, s: Bytes)
    requires ZeroFree(k)
    ensures !Less(k, s + [1]) <==> Less(s, k)
  {
    if s != [] && k != [] && s[0] == k[0] {
      assert (s + [1])[1..] == s[1..] + [1];
      NextAfter(k[1..], s[1..]);
    } else if s == [] {
      if k != [] && k[0] == 1 { assert (s + [1])[1..] == []; }
    } else {
      assert (s + [1])[0] == s[0];
    }
  }

  /** The keys between `p` + [b] and `p` + [b + 1] are those with prefix `p` + [b]. */
  lemma {:induction false} PrefixInterval(k: Bytes, p: Bytes, b: Byte)
    requires b < 255
    ensures !Less(k, p + [b]) && Less(k, p + [b + 1]) <==> p + [b] <= k
  {
    if p == [] {
      if k != [] {
        assert (p + [b])[1..] == [] && (p + [b + 1])[1..] == [];
        assert !Less(k[1..], []);
        assert p + [b] <= k <==> k[0] == b;
      }
    } else if k != [] {
      assert (p + [b])[1..] == p[1..] + [b] && (p + [b + 1])[1..] == p[1..] + [b + 1];
      PrefixInterval(k[1..], p[1..], b);
      assert k == [k[0]] + k[1..] && p + [b] == [p[0]] + (p[1..] + [b]);
      assert p + [b] <= k <==> k[0] == p[0] && p[1..] + [b] <= k[1..];
    }
  }

  // ---------------------------------------------------------------- what the range covers

  /** The first byte string above every key with this slash-terminated prefix. */
  function PrefixEnd(prefix: Key): Bytes
    requires EndsInSlash(prefix)
  {
    prefix[..|prefix| - 1] + [SLASH + 1]
  }

  /** Which keys a selection covers, said about keys instead of packed rows. */
  predicate Covers(prefix: Key, startKey: Key, key: Key) {
    if EndsInSlash(prefix) then
      (if prefix == startKey then !Less(key, prefix) else Less(startKey, key)) && Less(key, PrefixEnd(prefix))
    else
      key == prefix
  }

  lemma EndOfPrefix(sub: Bytes, prefix: Key)
    requires EndsInSlash(prefix) && ZeroFree(prefix)
    ensures var packed := Packed(sub, prefix);
      Strinc(packed[..|packed| - 1]) == Some(sub + [STRING_CODE] + PrefixEnd(prefix))
  {
    EscapedZeroFree(prefix);
    var packed := Packed(sub, prefix);
    assert packed[..|packed| - 1] == sub + [STRING_CODE] + prefix;
    var b := packed[..|packed| - 1];
    assert b[|b| - 1] == SLASH && b[..|b| - 1] == sub + [STRING_CODE] + prefix[..|prefix| - 1];
    assert b[..|b| - 1] + [SLASH + 1] == sub + [STRING_CODE] + PrefixEnd(prefix);
  }

  lemma RowParts(sub: Bytes, key: Key, stamp: Bytes)
    requires ZeroFree(key)
    ensures Packed(sub, key) == sub + [STRING_CODE] + (key + [0])
    ensures RowKey(sub, key, stamp) == sub + [STRING_CODE] + (key + [0] + ([VERSIONSTAMP_CODE] + stamp))
  {
    EscapedZeroFree(key);
  }

  lemma BeginOfStart(sub: Bytes, startKey: Key, key: Key, stamp: Bytes)
    requires ZeroFree(startKey) && ZeroFree(key)
    ensures !Less(RowKey(sub, key, stamp), Packed(sub, startKey)) <==> !Less(key, startKey)
    ensures Strinc(Packed(sub, startKey)).Some?
    ensures !Less(RowKey(sub, key, stamp), Strinc(Packed(sub, startKey)).value) <==> Less(startKey, key)
  {
    hide RowKey, Packed;
    var head, tail := sub + [STRING_CODE], [VERSIONSTAMP_CODE] + stamp;
    RowParts(sub, key, stamp);
    RowParts(sub, startKey, stamp);
    assert startKey + [0] == startKey + [0] + [];
    LessSamePrefix(head, key + [0] + tail, startKey + [0]);
    TerminatedOrder(key, startKey, tail, []);
    var packed := Packed(sub, startKey);
    assert packed[|packed| - 1] == 0 && packed[..|packed| - 1] == head + startKey;
    assert head + startKey + [1] == head + (startKey + [1]);
    LessSamePrefix(head, key + [0] + tail, startKey + [1]);
    BoundOrder(key, tail, startKey + [1]);
    NextAfter(key, startKey);
  }

  lemma BelowEnd(sub: Bytes, prefix: Key, key: Key, stamp: Bytes)
    requires EndsInSlash(prefix) && ZeroFree(prefix) && ZeroFree(key)
    ensures var packed := Packed(sub, prefix);
      var end := Strinc(packed[..|packed| - 1]);
      end.Some? && (Less(RowKey(sub, key, stamp), end.value) <==> Less(key, PrefixEnd(prefix)))
  {
    var head, tail := sub + [STRING_CODE], [VERSIONSTAMP_CODE] + stamp;
    EndOfPrefix(sub, prefix);
    RowParts(sub, key, stamp);
    LessSamePrefix(head, key + [0] + tail, PrefixEnd(prefix));
    BoundOrder(key, tail, PrefixEnd(prefix));
  }

  lemma SingleKeyRange(sub: Bytes, prefix: Key, key: Key, stamp: Bytes)
    requires ZeroFree(prefix) && ZeroFree(key)
    ensures key == prefix <==>
      Within(Range(Packed(sub, prefix) + [0], Packed(sub, prefix) + [0xFF]), RowKey(sub, key, stamp))
  {
    hide RowKey, Packed;
    var head, tail := sub + [STRING_CODE], [VERSIONSTAMP_CODE] + stamp;
    RowParts(sub, key, stamp);
    RowParts(sub, prefix, stamp);
    assert Packed(sub, prefix) + [0] == head + (prefix + [0] + [0]);
    assert Packed(sub, prefix) + [0xFF] == head + (prefix + [0] + [0xFF]);
    LessSamePrefix(head, key + [0] + tail, prefix + [0] + [0]);
    LessSamePrefix(head, key + [0] + tail, prefix + [0] + [0xFF]);
    TerminatedOrder(key, prefix, tail, [0]);
    TerminatedOrder(key, prefix, tail, [0xFF]);
    LessOrder();
  }

  /** The byte range and the predicate on keys agree on every row of every zero-free key. */
  lemma SelectedCovers(sub: Bytes, prefix: Key, startKey: Key, key: Key, stamp: Bytes)
    requires ZeroFree(prefix) && ZeroFree(startKey) && ZeroFree(key)
    ensures Selected(sub, prefix, startKey).None? <==> !EndsInSlash(prefix) && startKey != prefix
    ensures Selected(sub, prefix, startKey).Some? ==>
      (Within(Selected(sub, prefix, startKey).value, RowKey(sub, key, stamp)) <==> Covers(prefix, startKey, key))
  {
    hide RowKey, Packed, Strinc, Less;
    BeginOfStart(sub, startKey, key, stamp);
    if EndsInSlash(prefix) { BelowEnd(sub, prefix, key, stamp); }
    SingleKeyRange(sub, prefix, key, stamp);
  }

  lemma InPrefix(prefix: Key, key: Key)
    requires EndsInSlash(prefix)
    ensures !Less(key, prefix) && Less(key, PrefixEnd(prefix)) <==> HasPrefix(key, prefix)
  {
    assert prefix == prefix[..|prefix| - 1] + [SLASH];
    PrefixInterval(key, prefix[..|prefix| - 1], SLASH);
  }

  /** With the start key equal to the prefix, a list or count covers exactly the keys a watch would deliver. */
  lemma CoversWhatMatches(prefix: Key, key: Key)
    ensures Covers(prefix, prefix, key) <==> Matches(key, prefix)
  {
    if EndsInSlash(prefix) { InPrefix(prefix, key); }
  }

  /**
   * With another start key the range is "keys with the prefix, after the start key" if and only if the start
   * key does not sort before the prefix. Otherwise it also takes in keys that do not have the prefix.
   */
  lemma CoversPrefixIff(prefix: Key, startKey: Key)
    requires EndsInSlash(prefix) && ZeroFree(prefix) && ZeroFree(startKey) && startKey != prefix
    ensures (forall key: Key :: ZeroFree(key) ==> (Covers(prefix, startKey, key) <==>
      HasPrefix(key, prefix) && Less(startKey, key)))
            <==> !Less(startKey, prefix)
  {
    if Less(startKey, prefix) {
      var stray := startKey + [1];
      assert ZeroFree(stray);
      StrayKey(prefix, startKey);
      InPrefix(prefix, stray);
      LessOrder();
      InPrefix(prefix, prefix);
      assert Covers(prefix, startKey, stray) && !HasPrefix(stray, prefix);
    } else {
      LessOrder();
      forall key: Key | ZeroFree(key)
        ensures Covers(prefix, startKey, key) <==> HasPrefix(key, prefix) && Less(startKey, key)
      {
        InPrefix(prefix, key);
      }
    }
  }

  /** Right after any start key below a slash-terminated prefix there is a zero-free key still below it. */
  lemma {:induction false} StrayKey(prefix: Key, startKey: Key)
    requires EndsInSlash(prefix) && Less(startKey, prefix) && ZeroFree(prefix)
    ensures Less(startKey, startKey + [1]) && Less(startKey + [1], prefix)
  {
    if startKey == [] {
      if prefix[0] == 1 { assert prefix[1..] != []; }
      assert (startKey + [1])[1..] == [];
    } else {
      assert (startKey + [1])[1..] == startKey[1..] + [1];
      if startKey[0] == prefix[0] {
        StrayKey(prefix[1..], startKey[1..]);
      } else {
        LessSamePrefix(startKey, [], [1]);
        assert startKey + [] == startKey;
      }
    }
  }

  /**
   * Why keys must be free of zero bytes. Clearing the rows that start with the packed `key` clears exactly the
   * rows of `key` and of every other key that continues it with a zero byte.
   */
  lemma PrefixClearIff(sub: Bytes, key: Key, other: Key)
    requires ZeroFree(key)
    ensures Packed(sub, key) <= Packed(sub, other) <==> other == key || key + [0] <= other
  {
    EscapedZeroFree(key);
    var head := sub + [STRING_CODE];
    assert Packed(sub, key) == head + (key + [0]) && Packed(sub, other) == head + (Escaped(other) + [0]);
    ContinuedByZero(key, other);
    SamePrefix(head, key + [0], Escaped(other) + [0]);
  }

  lemma SamePrefix(p: Bytes, a: Bytes, b: Bytes)
    ensures p + a <= p + b <==> a <= b
  {
    if p + a <= p + b {
      forall i | 0 <= i < |a| ensures i < |b| && a[i] == b[i] {
        assert (p + a)[|p| + i] == (p + b)[|p| + i];
      }
    }
  }

  lemma {:induction false} ContinuedByZero(key: Key, other: Key)
    requires ZeroFree(key)
    ensures key + [0] <= Escaped(other) + [0] <==> other == key || key + [0] <= other
  {
    if key != [] && other != [] && key[0] == other[0] {
      ContinuedByZero(key[1..], other[1..]);
      assert Escaped(other) == [other[0]] + Escaped(other[1..]);
      SamePrefix([key[0]], key[1..] + [0], Escaped(other[1..]) + [0]);
      assert key + [0] == [key[0]] + (key[1..] + [0]);
      assert Escaped(other) + [0] == [key[0]] + (Escaped(other[1..]) + [0]);
      SamePrefix([key[0]], key[1..] + [0], other[1..]);
      assert other == [key[0]] + other[1..] && key == [key[0]] + key[1..];
    } else if other == [] {
      assert Escaped(other) + [0] == [0];
      assert key + [0] <= [0] <==> key == [];
    } else if key == [] {
      assert key + [0] == [0];
      assert (Escaped(other) + [0])[0] == other[0];
    } else {
      assert (key + [0])[0] == key[0];
      assert (Escaped(other) + [0])[0] == other[0];
    }
  }
}
