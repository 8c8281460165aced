/** Bytes, keys, revisions, and the orders FoundationDB scans them in. */
module Types {

  type Byte = x: int | 0 <= x < 256
  type Bytes = seq<Byte>
  type Key = Bytes

  /** A revision as the int64 view of a versionstamp; 0 is what the dummy versionstamp reads as. */
  type Rev = nat

  datatype Option<+T> = None | Some(value: T)

  function Min(a: nat, b: nat): nat {
    if a < b then a else b
  }

  function Max(a: nat, b: nat): nat {
    if a < b then b else a
  }

  /** A position in a subspace keyed by a key and a number: (key, revision) or (key, offset). */
  datatype Pos = Pos(key: Key, n: nat)

  /** Lexicographic byte order: the order of Go strings. */
  predicate Less(a: Bytes, b: Bytes) {
    b != [] && (a == [] || a[0] < b[0] || (a[0] == b[0] && Less(a[1..], b[1..])))
  }

  predicate Before(a: Pos, b: Pos) {
    Less(a.key, b.key) || (a.key == b.key && a.n < b.n)
  }

  lemma {:induction false} LessIrreflexive(a: Bytes)
    ensures !Less(a, a)
  {
    if a != [] { LessIrreflexive(a[1..]); }
  }

  lemma {:induction false} LessTransitive(a: Bytes, b: Bytes, c: Bytes)
    requires Less(a, b) && Less(b, c)
    ensures Less(a, c)
  {
    if a != [] && a[0] == b[0] == c[0] { LessTransitive(a[1..], b[1..], c[1..]); }
  }

  lemma {:induction false} LessTotal(a: Bytes, b: Bytes)
    ensures a == b || Less(a, b) || Less(b, a)
  {
    if a != [] && b != [] && a[0] == b[0] {
      LessTotal(a[1..], b[1..]);
      assert a == [a[0]] + a[1..] && b == [b[0]] + b[1..];
    }
  }

  /** Byte order is a strict total order. */
  lemma LessOrder()
    ensures forall a: Bytes :: !Less(a, a)
    ensures forall a: Bytes, b: Bytes, c: Bytes :: Less(a, b) && Less(b, c) ==> Less(a, c)
    ensures forall a: Bytes, b: Bytes :: a == b || Less(a, b) || Less(b, a)
  {
    forall a: Bytes ensures !Less(a, a) { LessIrreflexive(a); }
    forall a: Bytes, b: Bytes, c: Bytes | Less(a, b) && Less(b, c) ensures Less(a, c) { LessTransitive(a, b, c); }
    forall a: Bytes, b: Bytes ensures a == b || Less(a, b) || Less(b, a) { LessTotal(a, b); }
  }

  /** The order of positions is a strict total order. */
  lemma BeforeOrder()
    ensures forall a: Pos :: !Before(a, a)
    ensures forall a: Pos, b: Pos, c: Pos :: Before(a, b) && Before(b, c) ==> Before(a, c)
    ensures forall a: Pos, b: Pos :: a == b || Before(a, b) || Before(b, a)
  {
    LessOrder();
    forall a: Pos, b: Pos ensures a == b || Before(a, b) || Before(b, a) {
      assert a == Pos(a.key, a.n) && b == Pos(b.key, b.n);
      assert a.key == b.key || Less(a.key, b.key) || Less(b.key, a.key);
    }
    forall a: Pos, b: Pos, c: Pos | Before(a, b) && Before(b, c) ensures Before(a, c) {
      if Less(a.key, b.key) && Less(b.key, c.key) { LessTransitive(a.key, b.key, c.key); }
    }
  }

  // ---------------------------------------------------------------- sorted enumerations

  ghost predicate Sorted(q: seq<Pos>) {
    forall i, j :: 0 <= i < j < |q| ==> Before(q[i], q[j])
  }

  ghost predicate Increasing(q: seq<nat>) {
    forall i, j :: 0 <= i < j < |q| ==> q[i] < q[j]
  }

  lemma BeforeTransitive(a: Pos, b: Pos, c: Pos)
    requires Before(a, b) && Before(b, c)
    ensures Before(a, c)
  {
    BeforeOrder();
  }

  lemma BeforeTotal(a: Pos, b: Pos)
    ensures a == b || Before(a, b) || Before(b, a)
  {
    BeforeOrder();
  }

  lemma {:induction false} FirstExists(s: set<Pos>)
    requires s != {}
    ensures exists m :: m in s && forall x :: x in s ==> x == m || Before(m, x)
  {
    var x :| x in s;
    var rest := s - {x};
    if rest == {} {
      assert forall y :: y in s ==> y == x || y in rest;
    } else {
      FirstExists(rest);
      var m :| m in rest && forall y :: y in rest ==> y == m || Before(m, y);
      BeforeTotal(x, m);
      forall y | y in s ensures if Before(x, m) then y == x || Before(x, y) else y == m || Before(m, y) {
        if y != x {
          assert y in rest;
          if Before(x, m) && y != m { BeforeTransitive(x, m, y); }
        }
      }
    }
  }

  predicate FirstOf(s: set<Pos>, m: Pos) {
    m in s && forall x :: x in s ==> x == m || Before(m, x)
  }

  lemma OnlyFirst(s: set<Pos>)
    requires s != {}
    ensures exists m :: m in s && FirstOf(s, m)
    ensures forall m, n :: FirstOf(s, m) && FirstOf(s, n) ==> m == n
  {
    FirstExists(s);
    BeforeOrder();
  }

  /** The elements of a set of positions in subspace order: what a range read returns. */
  function SortPos(s: set<Pos>): (q: seq<Pos>)
    ensures Sorted(q)
    ensures forall p :: p in q <==> p in s
    ensures |q| == |s|
  {
    if s == {} then [] else
      OnlyFirst(s);
      var m :| m in s && FirstOf(s, m);
      assert s == {m} + (s - {m});
      [m] + SortPos(s - {m})
  }

  lemma {:induction false} LeastExists(s: set<nat>, x: nat)
    requires x in s
    ensures exists m :: m in s && forall y :: y in s ==> m <= y
    decreases x
  {
    if y :| y in s && y < x { LeastExists(s, y); }
  }

  function MinOf(s: set<nat>): (m: nat)
    requires s != {}
    ensures m in s && forall x :: x in s ==> m <= x
  {
    LeastExists(s, var x :| x in s; x);
    var m :| m in s && forall x :: x in s ==> m <= x;
    m
  }

  /** The elements of a set of numbers in ascending order. */
  function Asc(s: set<nat>): (q: seq<nat>)
    ensures Increasing(q)
    ensures forall x :: x in q <==> x in s
    ensures |q| == |s|
  {
    if s == {} then [] else
      var m := MinOf(s);
      var rest := Asc(s - {m});
      assert forall i :: 0 <= i < |rest| ==> rest[i] in s - {m};
      [m] + rest
  }

  lemma AscHead(s: set<nat>)
    requires s != {}
    ensures Asc(s) == [MinOf(s)] + Asc(s - {MinOf(s)})
  {
  }

  lemma AscOne(x: nat)
    ensures Asc({x}) == [x] && Asc({}) == []
  {
    var q := Asc({x});
    assert q[0] in {x} && |q| == |{x}|;
  }

  lemma {:induction false} GreatestExists(s: set<nat>)
    requires s != {}
    ensures exists m :: m in s && forall x :: x in s ==> x <= m
  {
    var x :| x in s;
    if s != {x} {
      GreatestExists(s - {x});
      var m :| m in s - {x} && forall y :: y in s - {x} ==> y <= m;
      var m' := if m < x then x else m;
      forall y | y in s ensures y <= m' { assert y == x || y in s - {x}; }
      assert m' in s;
    }
  }

  function MaxOf(s: set<nat>): (m: nat)
    requires s != {}
    ensures m in s && forall x :: x in s ==> x <= m
  {
    GreatestExists(s);
    var m :| m in s && forall x :: x in s ==> x <= m;
    m
  }

  /** A strictly increasing sequence is determined by its elements. */
  lemma {:induction false} IncreasingUnique(p: seq<nat>, q: seq<nat>)
    requires Increasing(p) && Increasing(q)
    requires forall x :: x in p <==> x in q
    ensures p == q
  {
    assert (p != [] ==> p[0] in q) && (q != [] ==> q[0] in p);
    if p != [] && q != [] {
      assert p[0] == q[0];
      forall x ensures x in p[1..] <==> x in q[1..] {
        if x in p[1..] { assert x in p && x > p[0]; }
        if x in q[1..] { assert x in q && x > q[0]; }
      }
      IncreasingUnique(p[1..], q[1..]);
      assert p == [p[0]] + p[1..] && q == [q[0]] + q[1..];
    }
  }

  lemma {:induction false} SortedUnique(p: seq<Pos>, q: seq<Pos>)
    requires Sorted(p) && Sorted(q)
    requires forall x :: x in p <==> x in q
    ensures p == q
  {
    BeforeOrder();
    assert (p != [] ==> p[0] in q) && (q != [] ==> q[0] in p);
    if p != [] && q != [] {
      assert p[0] == q[0];
      forall x ensures x in p[1..] <==> x in q[1..] {
        if x in p[1..] { assert x in p && Before(p[0], x); }
        if x in q[1..] { assert x in q && Before(q[0], x); }
      }
      SortedUnique(p[1..], q[1..]);
      assert p == [p[0]] + p[1..] && q == [q[0]] + q[1..];
    }
  }

  /** Ascending enumeration splits where every element of one set is below every element of the other. */
  lemma AscSplit(a: set<nat>, b: set<nat>)
    requires forall x, y :: x in a && y in b ==> x < y
    ensures Asc(a + b) == Asc(a) + Asc(b)
  {
    var q := Asc(a) + Asc(b);
    forall i, j | 0 <= i < j < |q| ensures q[i] < q[j] {
      if i < |Asc(a)| <= j { assert q[i] in Asc(a) && q[j] in Asc(b); }
    }
    IncreasingUnique(Asc(a + b), q);
  }

  /** Sorting splits in the same way for positions. */
  lemma SortSplit(a: set<Pos>, b: set<Pos>)
    requires forall x, y :: x in a && y in b ==> Before(x, y)
    ensures SortPos(a + b) == SortPos(a) + SortPos(b)
  {
    var q := SortPos(a) + SortPos(b);
    forall i, j | 0 <= i < j < |q| ensures Before(q[i], q[j]) {
      if i < |SortPos(a)| <= j { assert q[i] in SortPos(a) && q[j] in SortPos(b); }
    }
    SortedUnique(SortPos(a + b), q);
  }

  /** The first element of a sorted set, and what is left after it. */
  lemma SortHead(s: set<Pos>)
    requires s != {}
    ensures var q := SortPos(s);
      q != [] && q[0] in s && (forall x :: x in s && x != q[0] ==> Before(q[0], x)) && q[1..] == SortPos(s - {q[0]})
  {
    var q := SortPos(s);
    BeforeOrder();
    assert forall x :: x in s ==> x in q;
    assert forall x :: x in q[1..] <==> x in s - {q[0]};
    SortedUnique(q[1..], SortPos(s - {q[0]}));
  }
}
