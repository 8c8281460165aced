/**
 * List and Count: a scan of the index that may be split into any number of transactions, with writes in
 * between, and must still answer from one snapshot.
 */
module Reads {
  import opened Types
  import opened Chunks
  import opened Store
  import opened World
  import opened TupleRange

  datatype Selection = Selection(prefix: Key, startKey: Key)

  predicate In(sel: Selection, key: Key) {
    Covers(sel.prefix, sel.startKey, key)
  }

  datatype Row = Row(pos: Pos, meta: Meta)

  /**
   * A record the scan may emit. `latest`: no newer record of its key has been seen, so the current-value rows hold its
   * value.
   */
  datatype Cand = Cand(pos: Pos, meta: Meta, latest: bool)

  /** Revision limits of a scan: the requested revision and the first batch's read version; 0 is no limit. */
  datatype Window = Window(maxRev: Rev, firstRev: Rev)

  predicate Visible(win: Window, n: Rev) {
    (win.maxRev == 0 || n <= win.maxRev) && (win.firstRev == 0 || n <= win.firstRev)
  }

  /** What a range read from just after `after` returns. */
  function Ahead(db: Db, sel: Selection, after: Option<Pos>): set<Pos> {
    set p | p in db.index && In(sel, p.key) && Beyond(after, p)
  }

  function RowsOf(db: Db, poss: seq<Pos>): (rows: seq<Row>)
    requires forall p :: p in poss ==> p in db.index
    ensures |rows| == |poss|
    ensures forall i :: 0 <= i < |rows| ==> rows[i] == Row(poss[i], db.index[poss[i]].meta)
  {
    if poss == [] then [] else [Row(poss[0], db.index[poss[0]].meta)] + RowsOf(db, poss[1..])
  }

  // ---------------------------------------------------------------- one record of the scan

  /** Is a row of another key the end of the current candidate's key? */
  predicate Closes(cur: Option<Cand>, row: Row) {
    cur.Some? && cur.value.pos.key != row.pos.key
  }

  /** Does reading the row emit the current candidate? */
  predicate Emits(cur: Option<Cand>, row: Row) {
    Closes(cur, row) && !cur.value.meta.isDelete
  }

  /** The candidate after the row. */
  function NextCand(cur: Option<Cand>, row: Row, win: Window): Option<Cand> {
    var open := if Closes(cur, row) then None else cur;
    if Visible(win, row.pos.n) then Some(Cand(row.pos, row.meta, true))
    else if open.Some? then Some(open.value.(latest := false))
    else None
  }

  predicate NeedMore(limit: nat, emitted: nat) {
    limit == 0 || emitted < limit
  }

  // ---------------------------------------------------------------- one batch

  /** Where the scan of a batch ends: the candidate, what it emitted, the last row read, whether it needs more. */
  datatype Scan = Scan(cur: Option<Cand>, out: seq<Cand>, last: Option<Pos>, more: bool)

  function ScanRows(cur: Option<Cand>, out: seq<Cand>, last: Option<Pos>, rows: seq<Row>, extra: nat,
                    win: Window, limit: nat, earlier: nat): Scan
    decreases |rows|
  {
    if rows == [] then Scan(cur, out, last, false) else
      var row := rows[0];
      var cur' := NextCand(cur, row, win);
      var out' := if Emits(cur, row) then out + [cur.value] else out;
      if Emits(cur, row) && !NeedMore(limit, earlier + |out'|) then Scan(cur', out', Some(row.pos), false)
      else if extra == 0 then Scan(cur', out', Some(row.pos), true)
      else ScanRows(cur', out', Some(row.pos), rows[1..], extra - 1, win, limit, earlier)
  }

  /** The last batch also emits the candidate it is left with. */
  function Finish(s: Scan): seq<Cand> {
    if !s.more && s.cur.Some? && !s.cur.value.meta.isDelete then s.out + [s.cur.value] else s.out
  }

  // ---------------------------------------------------------------- the snapshot a read must return

  ghost predicate Seen(base: Db, maxRev: Rev, n: Rev) {
    (maxRev == 0 || n <= maxRev) && n <= base.latest
  }

  /** The newest record of its key at the pinned revision, and live. */
  ghost predicate Winner(base: Db, sel: Selection, maxRev: Rev, p: Pos) {
    && p in base.index && In(sel, p.key) && Seen(base, maxRev, p.n) && !base.index[p].meta.isDelete
    && forall q: Pos :: q in base.index && q.key == p.key && Seen(base, maxRev, q.n) ==> q.n <= p.n
  }

  ghost function Snapshot(base: Db, sel: Selection, maxRev: Rev): seq<Pos> {
    SortPos(set p | p in base.index && Winner(base, sel, maxRev, p))
  }

  /** A later state of the same store with nothing removed: new records lie above the earlier read version. */
  ghost predicate Extends(a: Db, b: Db) {
    && a.latest <= b.latest
    && (forall p: Pos :: p in a.index ==> p in b.index && b.index[p] == a.index[p])
    && (forall p: Pos :: p in b.index ==> p in a.index || p.n > a.latest)
    && (forall r: Rev :: r in a.log ==> r in b.log && b.log[r] == a.log[r])
  }

  ghost predicate Bounded(db: Db) {
    forall p: Pos :: p in db.index ==> p.n <= db.latest
  }

  predicate Beyond(after: Option<Pos>, p: Pos) {
    after.None? || Before(after.value, p)
  }

  /** A state without some of its index rows. */
  function Without(base: Db, rows: set<Pos>): Db {
    base.(index := base.index - rows)
  }

  /** Beyond where the scan stands, the index holds what the snapshot does, and what was committed since. */
  ghost predicate Facing(base: Db, db: Db, after: Option<Pos>) {
    && base.latest <= db.latest
    && forall p: Pos :: Beyond(after, p) ==>
         && (p in base.index <==> p in db.index && p.n <= base.latest)
         && (p in base.index ==> db.index[p] == base.index[p])
  }

  /** The snapshot's index speaks of records its log has, and they are records that were committed. */
  ghost predicate Recorded(base: Db, w: World) {
    && base.latest <= w.db.latest
    && (forall p: Pos :: p in base.index ==>
          p.n in base.log && base.log[p.n].key == p.key && base.log[p.n].meta == base.index[p].meta)
    && forall r: Rev :: r in base.log ==> r in w.hist && w.hist[r] == base.log[r]
  }

  // ---------------------------------------------------------------- the scan invariant

  ghost function Positions(cs: seq<Cand>): (ps: seq<Pos>)
    ensures |ps| == |cs| && forall i :: 0 <= i < |cs| ==> ps[i] == cs[i].pos
  {
    seq(|cs|, i requires 0 <= i < |cs| => cs[i].pos)
  }

  /** Where a scan stands in the key it is reading. */
  ghost predicate OpenKey(base: Db, db: Db, maxRev: Rev, after: Pos, cur: Option<Cand>) {
    && after.n <= db.latest
    && (cur.Some? ==>
          && cur.value.pos.key == after.key && cur.value.pos in base.index && cur.value.pos.n <= after.n
          && base.index[cur.value.pos].meta == cur.value.meta && Seen(base, maxRev, cur.value.pos.n))
    && (forall q: Pos :: q in base.index && q.key == after.key && q.n <= after.n && Seen(base, maxRev, q.n) ==>
          cur.Some? && q.n <= cur.value.pos.n)
    && (cur.Some? && cur.value.latest ==>
          forall q: Pos :: q in db.index && q.key == after.key && q.n <= after.n ==> q.n <= cur.value.pos.n)
  }

  /** What has been emitted is exactly the winners of the keys already passed. */
  ghost predicate Emitted(base: Db, sel: Selection, maxRev: Rev, before: Key, out: seq<Pos>) {
    Sorted(out) && forall p: Pos :: p in out <==> Winner(base, sel, maxRev, p) && Less(p.key, before)
  }

  ghost predicate ScanInv(base: Db, db: Db, sel: Selection, maxRev: Rev, after: Option<Pos>, cur: Option<Cand>,
                          out: seq<Pos>) {
    match after
    case None => cur == None && out == []
    case Some(a) => In(sel, a.key) && OpenKey(base, db, maxRev, a, cur) && Emitted(base, sel, maxRev, a.key, out)
  }

  /** `q` is the first row after `after`. */
  ghost predicate First(db: Db, sel: Selection, after: Option<Pos>, q: Pos) {
    q in Ahead(db, sel, after) && forall x :: x in Ahead(db, sel, after) ==> x == q || Before(q, x)
  }

  ghost predicate SameWindow(base: Db, db: Db, win: Window, maxRev: Rev) {
    win.maxRev == maxRev && ((win.firstRev == 0 && db == base) || win.firstRev == base.latest)
  }

  ghost predicate Ready(base: Db, db: Db, win: Window, after: Option<Pos>) {
    SameWindow(base, db, win, win.maxRev) && Bounded(db) && Facing(base, db, after) && base.latest > 0
  }

  lemma VisibleIsSeen(base: Db, db: Db, win: Window, after: Option<Pos>, p: Pos)
    requires Ready(base, db, win, after) && p in db.index && Beyond(after, p)
    ensures Visible(win, p.n) <==> Seen(base, win.maxRev, p.n)
    ensures Visible(win, p.n) ==> p in base.index && base.index[p] == db.index[p]
  {
  }

  /** Nothing of the snapshot lies between the last row read and the next one. */
  lemma NothingBetween(base: Db, db: Db, sel: Selection, after: Option<Pos>, q: Pos, p: Pos)
    requires Facing(base, db, after) && First(db, sel, after, q)
    requires p in base.index && In(sel, p.key) && Beyond(after, p)
    ensures p == q || Before(q, p)
  {
    assert p in Ahead(db, sel, after);
  }

  /** The scan moves on. */
  lemma FacingOn(base: Db, db: Db, sel: Selection, after: Option<Pos>, q: Pos)
    requires Facing(base, db, after) && First(db, sel, after, q)
    ensures Facing(base, db, Some(q))
  {
    forall p: Pos | Before(q, p) ensures Beyond(after, p) {
      if after.Some? { BeforeTransitive(after.value, q, p); }
    }
  }

  /** Reading a further record of the same key. */
  lemma SameKeyStep(base: Db, db: Db, sel: Selection, win: Window, a: Pos, q: Pos, cur: Option<Cand>)
    requires Ready(base, db, win, Some(a))
    requires OpenKey(base, db, win.maxRev, a, cur) && First(db, sel, Some(a), q) && q.key == a.key
    ensures OpenKey(base, db, win.maxRev, q, NextCand(cur, Row(q, db.index[q].meta), win))
  {
    var row := Row(q, db.index[q].meta);
    var cur' := NextCand(cur, row, win);
    VisibleIsSeen(base, db, win, Some(a), q);
    LessOrder();
    assert a.n < q.n;
    forall x: Pos | x in base.index && x.key == q.key && x.n <= q.n && Seen(base, win.maxRev, x.n)
      ensures cur'.Some? && x.n <= cur'.value.pos.n
    {
      if x.n > a.n { NothingBetween(base, db, sel, Some(a), q, x); }
    }
  }

  /** A candidate the snapshot knows, with a truthful `latest` flag. */
  ghost predicate Settled(base: Db, db: Db, c: Cand) {
    && c.pos in base.index && base.index[c.pos].meta == c.meta
    && (c.latest ==> forall q: Pos :: q in db.index && q.key == c.pos.key ==> q.n <= c.pos.n)
  }

  /** Once no record of a key is left to read, its winner is the candidate, if that is live. */
  lemma KeyDone(base: Db, db: Db, sel: Selection, maxRev: Rev, a: Pos, cur: Option<Cand>, p: Pos)
    requires Facing(base, db, Some(a)) && OpenKey(base, db, maxRev, a, cur) && In(sel, a.key) && p.key == a.key
    requires forall x :: x in Ahead(db, sel, Some(a)) ==> x.key != a.key
    ensures Winner(base, sel, maxRev, p) <==> cur.Some? && !cur.value.meta.isDelete && p == cur.value.pos
    ensures cur.Some? ==> Settled(base, db, cur.value)
  {
    forall x: Pos | x in db.index && x.key == a.key ensures x.n <= a.n {
      assert Before(a, x) ==> x in Ahead(db, sel, Some(a));
    }
    if cur.Some? && p.n == cur.value.pos.n { assert p == cur.value.pos; }
  }

  ghost function EmittedBy(cur: Option<Cand>, out: seq<Pos>): seq<Pos> {
    if cur.Some? && !cur.value.meta.isDelete then out + [cur.value.pos] else out
  }

  /** Passing from one key to the next emits the winner of the key left behind, if it has one. */
  lemma EmitStep(base: Db, db: Db, sel: Selection, maxRev: Rev, a: Pos, q: Pos, cur: Option<Cand>, out: seq<Pos>)
    requires Facing(base, db, Some(a)) && ScanInv(base, db, sel, maxRev, Some(a), cur, out)
    requires First(db, sel, Some(a), q) && q.key != a.key
    ensures Emitted(base, sel, maxRev, q.key, EmittedBy(cur, out))
    ensures cur.Some? ==> Settled(base, db, cur.value)
  {
    hide Winner, Facing, OpenKey, Settled;
    LessOrder();
    BeforeOrder();
    var out' := EmittedBy(cur, out);
    assert Less(a.key, q.key);
    forall x | x in Ahead(db, sel, Some(a)) ensures x.key != a.key { assert x == q || Before(q, x); }
    KeyDone(base, db, sel, maxRev, a, cur, a);
    if cur.Some? {
      OpenKeyHas(base, db, maxRev, a, cur);
      KeyDone(base, db, sel, maxRev, a, cur, cur.value.pos);
    }
    forall p: Pos ensures p in out' <==> Winner(base, sel, maxRev, p) && Less(p.key, q.key) {
      if p.key == a.key { KeyDone(base, db, sel, maxRev, a, cur, p); }
      if Winner(base, sel, maxRev, p) && Less(a.key, p.key) {
        WinnerIn(base, sel, maxRev, p);
        NothingBetween(base, db, sel, Some(a), q, p);
      }
    }
  }

  lemma OpenKeyHas(base: Db, db: Db, maxRev: Rev, a: Pos, cur: Option<Cand>)
    requires OpenKey(base, db, maxRev, a, cur) && cur.Some?
    ensures cur.value.pos.key == a.key
  {
  }

  lemma WinnerIn(base: Db, sel: Selection, maxRev: Rev, p: Pos)
    requires Winner(base, sel, maxRev, p)
    ensures p in base.index && In(sel, p.key)
  {
  }

  /** The first record of a new key. */
  lemma NewKeyStep(base: Db, db: Db, sel: Selection, win: Window, after: Option<Pos>, q: Pos, cur: Option<Cand>)
    requires Ready(base, db, win, after)
    requires First(db, sel, after, q) && (after.Some? ==> after.value.key != q.key)
    requires cur.Some? ==> after.Some? && cur.value.pos.key == after.value.key
    ensures OpenKey(base, db, win.maxRev, q, NextCand(cur, Row(q, db.index[q].meta), win))
  {
    VisibleIsSeen(base, db, win, after, q);
    LessOrder();
    forall x: Pos | x in base.index && x.key == q.key && x.n <= q.n ensures x == q {
      NothingBetween(base, db, sel, after, q, x);
    }
    forall x: Pos | x in db.index && x.key == q.key && x.n <= q.n ensures x == q {
      assert x in Ahead(db, sel, after);
    }
  }

  /** One `next` of the record collector keeps the scan invariant. */
  lemma StepKeeps(base: Db, db: Db, sel: Selection, win: Window, after: Option<Pos>, q: Pos, cur: Option<Cand>,
                  out: seq<Pos>)
    requires Ready(base, db, win, after)
    requires ScanInv(base, db, sel, win.maxRev, after, cur, out) && First(db, sel, after, q)
    ensures var row := Row(q, db.index[q].meta);
      ScanInv(base, db, sel, win.maxRev, Some(q), NextCand(cur, row, win),
              if Closes(cur, row) then EmittedBy(cur, out) else out)
    ensures Closes(cur, Row(q, db.index[q].meta)) ==> Settled(base, db, cur.value)
  {
    hide Winner, Facing, Settled, Bounded, SameWindow, NextCand, Visible;
    match after
    case None =>
      NewKeyStep(base, db, sel, win, after, q, cur);
      forall p: Pos | Winner(base, sel, win.maxRev, p) && Less(p.key, q.key) ensures false {
        WinnerIn(base, sel, win.maxRev, p);
        NothingBetween(base, db, sel, after, q, p);
        BeforeOrder();
        LessOrder();
      }
    case Some(a) =>
      if q.key == a.key {
        SameKeyStep(base, db, sel, win, a, q, cur);
      } else {
        NewKeyStep(base, db, sel, win, after, q, cur);
        EmitStep(base, db, sel, win.maxRev, a, q, cur, out);
      }
  }

  // ---------------------------------------------------------------- a whole batch

  /** The rows a transaction will read: everything in range after `after`, in order. */
  function Rows(db: Db, sel: Selection, after: Option<Pos>): seq<Row> {
    RowsOf(db, SortPos(Ahead(db, sel, after)))
  }

  /** Reading one row and asking for the rest is asking for the rows after it. */
  lemma RowsStep(db: Db, sel: Selection, after: Option<Pos>)
    requires Ahead(db, sel, after) != {}
    ensures var rows := Rows(db, sel, after);
      && rows != [] && First(db, sel, after, rows[0].pos) && rows[0] == Row(rows[0].pos, db.index[rows[0].pos].meta)
      && rows[1..] == Rows(db, sel, Some(rows[0].pos))
  {
    var s := Ahead(db, sel, after);
    var q := SortPos(s)[0];
    SortHead(s);
    BeforeOrder();
    assert Ahead(db, sel, Some(q)) == s - {q} by {
      forall x ensures x in Ahead(db, sel, Some(q)) <==> x in s - {q} {
        if after.Some? && Before(q, x) { BeforeTransitive(after.value, q, x); }
      }
    }
    assert Rows(db, sel, after)[1..] == RowsOf(db, SortPos(s)[1..]);
  }

  /** What holds after a scan of a batch, however it ended. */
  ghost predicate Upheld(base: Db, db: Db, sel: Selection, maxRev: Rev, prior: seq<Pos>, limit: nat, s: Scan) {
    && ScanInv(base, db, sel, maxRev, s.last, s.cur, prior + Positions(s.out))
    && (forall c :: c in s.out ==> Settled(base, db, c))
    && (s.more ==> NeedMore(limit, |prior| + |s.out|))
    && (!s.more ==> Ahead(db, sel, s.last) == {} || !NeedMore(limit, |prior| + |s.out|))
    && (!NeedMore(limit, |prior| + |s.out|) ==>
          && |prior| + |s.out| == limit
          && FirstOfKey(base, db, sel, maxRev, (prior + Positions(s.out))[limit - 1].key, s.last, s.cur))
  }

  /** One step of the batch: whatever it does next, what it has so far is upheld. */
  lemma ScanRowKeeps(base: Db, db: Db, sel: Selection, win: Window, after: Option<Pos>, q: Pos, cur: Option<Cand>,
                     prior: seq<Pos>, out: seq<Cand>, limit: nat, more: bool)
    requires Ready(base, db, win, after)
    requires Upheld(base, db, sel, win.maxRev, prior, limit, Scan(cur, out, after, true))
    requires First(db, sel, after, q)
    ensures var row := Row(q, db.index[q].meta);
      var out' := if Emits(cur, row) then out + [cur.value] else out;
      more == NeedMore(limit, |prior| + |out'|) ==>
        Upheld(base, db, sel, win.maxRev, prior, limit, Scan(NextCand(cur, row, win), out', Some(q), more))
  {
    hide Ready, ScanInv, Settled, NextCand, FirstOfKey;
    var row := Row(q, db.index[q].meta);
    StepKeeps(base, db, sel, win, after, q, cur, prior + Positions(out));
    var out' := if Emits(cur, row) then out + [cur.value] else out;
    assert prior + Positions(out') ==
      if Emits(cur, row) then prior + Positions(out) + [cur.value.pos] else prior + Positions(out);
    if Emits(cur, row) { EmitIsFirst(base, db, sel, win, after, q, cur, prior + Positions(out)); }
  }

  lemma {:induction false} ScanRowsKeeps(base: Db, db: Db, sel: Selection, win: Window, after: Option<Pos>,
                                         cur: Option<Cand>, prior: seq<Pos>, out: seq<Cand>, extra: nat, limit: nat)
    requires Ready(base, db, win, after)
    requires Upheld(base, db, sel, win.maxRev, prior, limit, Scan(cur, out, after, true))
    ensures Upheld(base, db, sel, win.maxRev, prior, limit,
                   ScanRows(cur, out, after, Rows(db, sel, after), extra, win, limit, |prior|))
    decreases |Rows(db, sel, after)|
  {
    hide Ready, Rows, NextCand, First, Ahead, Upheld;
    var rows := Rows(db, sel, after);
    if Ahead(db, sel, after) == {} {
      assert rows == [] by { NoRows(db, sel, after); }
      Exhausted(base, db, sel, win.maxRev, prior, limit, Scan(cur, out, after, true));
    } else {
      RowsStep(db, sel, after);
      var q := rows[0].pos;
      var out' := if Emits(cur, rows[0]) then out + [cur.value] else out;
      var more := NeedMore(limit, |prior| + |out'|);
      ScanRowKeeps(base, db, sel, win, after, q, cur, prior, out, limit, more);
      NeededMore(base, db, sel, win.maxRev, prior, limit, Scan(cur, out, after, true));
      if more && extra > 0 {
        ReadyOn(base, db, sel, win, after, q);
        ScanRowsKeeps(base, db, sel, win, Some(q), NextCand(cur, rows[0], win), prior, out', extra - 1, limit);
      }
    }
  }

  lemma ReadyOn(base: Db, db: Db, sel: Selection, win: Window, after: Option<Pos>, q: Pos)
    requires Ready(base, db, win, after) && First(db, sel, after, q)
    ensures Ready(base, db, win, Some(q))
  {
    hide Facing, Bounded, SameWindow;
    FacingOn(base, db, sel, after, q);
  }

  lemma NoRows(db: Db, sel: Selection, after: Option<Pos>)
    requires Ahead(db, sel, after) == {}
    ensures Rows(db, sel, after) == []
  {
  }

  lemma NeededMore(base: Db, db: Db, sel: Selection, maxRev: Rev, prior: seq<Pos>, limit: nat, s: Scan)
    requires s.more && Upheld(base, db, sel, maxRev, prior, limit, s)
    ensures NeedMore(limit, |prior| + |s.out|)
  {
  }

  lemma Exhausted(base: Db, db: Db, sel: Selection, maxRev: Rev, prior: seq<Pos>, limit: nat, s: Scan)
    requires Ahead(db, sel, s.last) == {} && Upheld(base, db, sel, maxRev, prior, limit, s)
    ensures Upheld(base, db, sel, maxRev, prior, limit, s.(more := false))
  {
    hide ScanInv, Settled, FirstOfKey;
  }

  /** `q` is the first selected row of any key behind `key`. */
  ghost predicate NextRow(db: Db, sel: Selection, key: Key, q: Pos) {
    && q in db.index && In(sel, q.key) && Less(key, q.key)
    && forall x: Pos :: x in db.index && In(sel, x.key) && Less(key, x.key) ==> x == q || Before(q, x)
  }

  /** The row that closes `key` is the first one behind it, and is the candidate if it is visible. */
  ghost predicate FirstOfKey(base: Db, db: Db, sel: Selection, maxRev: Rev, key: Key, last: Option<Pos>,
                             cur: Option<Cand>) {
    && last.Some? && NextRow(db, sel, key, last.value) && Behind(base, db, key)
    && cur == if Seen(base, maxRev, last.value.n) then Some(Cand(last.value, db.index[last.value].meta, true)) else None
  }

  lemma EmitIsFirst(base: Db, db: Db, sel: Selection, win: Window, after: Option<Pos>, q: Pos, cur: Option<Cand>,
                    out: seq<Pos>)
    requires Ready(base, db, win, after) && ScanInv(base, db, sel, win.maxRev, after, cur, out)
    requires First(db, sel, after, q)
    requires Closes(cur, Row(q, db.index[q].meta))
    ensures FirstOfKey(base, db, sel, win.maxRev, cur.value.pos.key, Some(q),
                       NextCand(cur, Row(q, db.index[q].meta), win))
  {
    hide Emitted;
    LessOrder();
    VisibleIsSeen(base, db, win, after, q);
    forall x: Pos | x in db.index && In(sel, x.key) && Less(cur.value.pos.key, x.key) ensures x == q || Before(q, x) {
      assert Before(after.value, x);
      assert x in Ahead(db, sel, after);
    }
  }

  // ---------------------------------------------------------------- values: the fast path and the slow one

  /** The bytes of a key's current-value rows, in offset order. */
  ghost function Assembled(rows: Chunks.Rows, key: Key): Bytes {
    Join(rows, key, Asc(Offsets(rows, key)))
  }

  /**
   * The value a list attaches to a record: the joined current-value rows if the record is marked latest and
   * their length is right, otherwise the log's record at that revision. None is a failed lookup.
   */
  ghost function FetchValue(db: Db, c: Cand): Option<Bytes> {
    if c.meta.valueSize == 0 then Some([])
    else if c.latest && |Assembled(db.current, c.pos.key)| == c.meta.valueSize then
      Some(Assembled(db.current, c.pos.key))
    else if c.pos.n in db.log then Some(db.log[c.pos.n].value)
    else None
  }

  lemma AssembledIs(rows: Chunks.Rows, key: Key, value: Bytes)
    requires Holds(rows, key, value)
    ensures Assembled(rows, key) == value
  {
    var offsets := Asc(Offsets(rows, key));
    assert forall o: nat :: Pos(key, o) in rows ==> o in Offsets(rows, key);
    JoinRoundTrip(rows, key, value, offsets);
  }

  /**
   * The fast path refines the slow one: for a record with a truthful `latest` flag the value is the one stored
   * in the log at its revision, whether the key has current-value rows, has none, or has moved on.
   */
  lemma FastEqualsSlow(w: World, c: Cand)
    requires StoreOk(w) && Settled(w.db, w.db, c)
    ensures c.pos.n in w.db.log && w.db.log[c.pos.n].key == c.pos.key
    ensures FetchValue(w.db, c) == Some(w.db.log[c.pos.n].value)
  {
    hide Retained, UniqueUuids, Assembled;
    var key, r := c.pos.key, c.pos.n;
    assert Linked(w.hist, r);
    if c.latest {
      assert c.pos == Pos(key, r);
      GetLastIs(w.db, key, r);
      assert CurrentOk(w.db, key, key in w.legacy);
      AssembledIs(w.db.current, key, CurrentValue(w.db, key, key in w.legacy));
    }
  }

  // ---------------------------------------------------------------- the whole read

  datatype Item = Item(pos: Pos, meta: Meta, value: Bytes)

  ghost function ItemOf(db: Db, keysOnly: bool, c: Cand): Item {
    Item(c.pos, c.meta, if keysOnly || FetchValue(db, c).None? then [] else FetchValue(db, c).value)
  }

  ghost function ItemsOf(db: Db, keysOnly: bool, cs: seq<Cand>): (items: seq<Item>)
    ensures |items| == |cs| && forall i :: 0 <= i < |cs| ==> items[i] == ItemOf(db, keysOnly, cs[i])
  {
    seq(|cs|, i requires 0 <= i < |cs| => ItemOf(db, keysOnly, cs[i]))
  }

  /** The collector between batches. */
  datatype Progress = Progress(cur: Option<Cand>, items: seq<Item>, win: Window, after: Option<Pos>, more: bool)

  function Fresh(maxRev: Rev): Progress {
    Progress(None, [], Window(maxRev, 0), None, true)
  }

  /**
   * A candidate carried over into a batch some attempts of which had to be repeated: its flag may have been cleared.
   */
  function Demote(cur: Option<Cand>, demoted: bool): Option<Cand> {
    if demoted && cur.Some? then Some(cur.value.(latest := false)) else cur
  }

  function BatchScan(pr: Progress, sel: Selection, limit: nat, db: Db, extra: nat, demoted: bool): Scan {
    ScanRows(Demote(pr.cur, demoted), [], pr.after, Rows(db, sel, pr.after), extra, pr.win, limit, |pr.items|)
  }

  ghost function DoBatch(pr: Progress, sel: Selection, limit: nat, keysOnly: bool, db: Db, extra: nat,
                         demoted: bool): Progress {
    var s := BatchScan(pr, sel, limit, db, extra, demoted);
    Progress(s.cur, pr.items + ItemsOf(db, keysOnly, Finish(s)),
             pr.win.(firstRev := if pr.win.firstRev == 0 then db.latest else pr.win.firstRev), s.last, s.more)
  }

  ghost function Places(items: seq<Item>): (ps: seq<Pos>)
    ensures |ps| == |items| && forall i :: 0 <= i < |items| ==> ps[i] == items[i].pos
  {
    seq(|items|, i requires 0 <= i < |items| => items[i].pos)
  }

  /** An item with the metadata and, unless only keys were asked for, the value the snapshot has at its revision. */
  ghost predicate Right(base: Db, keysOnly: bool, item: Item) {
    && item.pos in base.index && item.pos.n in base.log && item.meta == base.index[item.pos].meta
    && item.value == if keysOnly then [] else base.log[item.pos.n].value
  }

  /** A read in progress, last seen in state `db`. */
  ghost predicate Underway(base: Db, db: Db, sel: Selection, limit: nat, keysOnly: bool, pr: Progress) {
    && pr.more && pr.win.firstRev == base.latest && NeedMore(limit, |pr.items|)
    && ScanInv(base, db, sel, pr.win.maxRev, pr.after, pr.cur, Places(pr.items))
    && forall i :: 0 <= i < |pr.items| ==> Right(base, keysOnly, pr.items[i])
  }

  /** What a finished read returns. */
  ghost predicate Answered(base: Db, db: Db, sel: Selection, maxRev: Rev, limit: nat, keysOnly: bool,
                           items: seq<Item>) {
    var snap := Snapshot(base, sel, maxRev);
    var good := if limit == 0 || |snap| < limit then |snap| else limit;
    && good <= |items| <= good + 1
    && Places(items)[..good] == snap[..good]
    && (forall i :: 0 <= i < good ==> Right(base, keysOnly, items[i]))
    && (|items| > good ==> limit > 0 && good == limit)
    && (limit > 0 && |snap| >= limit ==> Extended(base, db, sel, maxRev, keysOnly, snap[limit - 1].key, limit, items))
  }

  /** The one record a limited list may add: the first row behind `key`, if that is visible and no tombstone. */
  ghost predicate Extra(base: Db, db: Db, sel: Selection, maxRev: Rev, key: Key, q: Pos) {
    NextRow(db, sel, key, q) && Seen(base, maxRev, q.n) && !db.index[q].meta.isDelete
  }

  /** Behind `key`, the index holds what the snapshot does, and what was committed since. */
  ghost predicate Behind(base: Db, db: Db, key: Key) {
    forall p: Pos :: Less(key, p.key) ==>
      (p in base.index <==> p in db.index && p.n <= base.latest) && (p in base.index ==> db.index[p] == base.index[p])
  }

  /** The list has an extra record exactly if there is one to add, and that is the one it has. */
  ghost predicate Extended(base: Db, db: Db, sel: Selection, maxRev: Rev, keysOnly: bool, key: Key, limit: nat,
                           items: seq<Item>)
  {
    && Behind(base, db, key)
    && (|items| > limit <==> exists q: Pos :: Extra(base, db, sel, maxRev, key, q))
    && (|items| > limit ==>
          && Extra(base, db, sel, maxRev, key, items[limit].pos)
          && items[limit] == ItemOf(db, keysOnly, Cand(items[limit].pos, db.index[items[limit].pos].meta, true)))
  }

  ghost function Winners(base: Db, sel: Selection, maxRev: Rev): set<Pos> {
    set p | p in base.index && Winner(base, sel, maxRev, p)
  }

  ghost function KeysBefore(s: set<Pos>, key: Key): set<Pos> {
    set p | p in s && Less(p.key, key)
  }

  lemma BeforeSplits(s: set<Pos>, key: Key)
    ensures forall x, y :: x in KeysBefore(s, key) && y in s - KeysBefore(s, key) ==> Before(x, y)
  {
    LessOrder();
    forall x, y | x in KeysBefore(s, key) && y in s - KeysBefore(s, key) ensures Before(x, y) {
      assert Less(x.key, y.key);
    }
  }

  /** The winners of the keys already passed are the first part of the snapshot. */
  lemma EmittedIsPrefix(base: Db, sel: Selection, maxRev: Rev, before: Key, out: seq<Pos>)
    requires Emitted(base, sel, maxRev, before, out)
    ensures out <= Snapshot(base, sel, maxRev)
  {
    hide Winner, Before, SortPos;
    var all := Winners(base, sel, maxRev);
    var a := KeysBefore(all, before);
    var b := all - a;
    BeforeSplits(all, before);
    SortSplit(a, b);
    assert a + b == all;
    forall p: Pos ensures p in out <==> p in SortPos(a) {
      if Winner(base, sel, maxRev, p) { WinnerIn(base, sel, maxRev, p); }
    }
    SortedUnique(out, SortPos(a));
  }

  /** When no row is left, what has been emitted together with a live candidate is the whole snapshot. */
  lemma ExhaustedIsAll(base: Db, db: Db, sel: Selection, maxRev: Rev, after: Option<Pos>, cur: Option<Cand>,
                       out: seq<Pos>)
    requires Facing(base, db, after) && ScanInv(base, db, sel, maxRev, after, cur, out) && Ahead(db, sel, after) == {}
    ensures EmittedBy(cur, out) == Snapshot(base, sel, maxRev)
    ensures cur.Some? ==> Settled(base, db, cur.value)
  {
    hide Winner, OpenKey, Settled, Facing;
    var all := Winners(base, sel, maxRev);
    var out' := EmittedBy(cur, out);
    LessOrder();
    if after.Some? {
      KeyDone(base, db, sel, maxRev, after.value, cur, after.value);
      if cur.Some? {
        OpenKeyHas(base, db, maxRev, after.value, cur);
        KeyDone(base, db, sel, maxRev, after.value, cur, cur.value.pos);
      }
    }
    forall p: Pos ensures p in out' <==> p in all {
      if Winner(base, sel, maxRev, p) {
        WinnerIn(base, sel, maxRev, p);
        NotAhead(base, db, sel, after, p);
        if after.Some? && p.key == after.value.key { KeyDone(base, db, sel, maxRev, after.value, cur, p); }
      }
    }
    SortedUnique(out', SortPos(all));
  }

  lemma NotAhead(base: Db, db: Db, sel: Selection, after: Option<Pos>, p: Pos)
    requires Facing(base, db, after) && Ahead(db, sel, after) == {} && p in base.index && In(sel, p.key)
    ensures after.Some? && !Before(after.value, p)
  {
    assert Beyond(after, p) ==> p in Ahead(db, sel, after);
  }

  /** The flag of the candidate carried over may be cleared. */
  lemma ScanInvDemoted(base: Db, db: Db, sel: Selection, maxRev: Rev, after: Option<Pos>, cur: Option<Cand>,
                       out: seq<Pos>, demoted: bool)
    requires ScanInv(base, db, sel, maxRev, after, cur, out)
    ensures ScanInv(base, db, sel, maxRev, after, Demote(cur, demoted), out)
  {
  }

  /** Every candidate's value can be found. */
  ghost predicate Readable(db: Db, keysOnly: bool, cs: seq<Cand>) {
    keysOnly || forall c :: c in cs ==> FetchValue(db, c).Some?
  }

  /**
   * A value that is found is the right one, even for a record that has been removed since it was read: then the key has
   * no record left that the current-value rows could belong to.
   */
  lemma SettledRight(base: Db, w: World, keysOnly: bool, c: Cand)
    requires StoreOk(w) && Recorded(base, w) && Settled(base, w.db, c) && (keysOnly || FetchValue(w.db, c).Some?)
    ensures Right(base, keysOnly, ItemOf(w.db, keysOnly, c))
  {
    hide Retained, Chained, UniqueUuids, CurrentOk, FetchValue;
    if c.pos.n in w.db.log {
      assert Pos(c.pos.key, c.pos.n) in w.db.index;
      FastEqualsSlow(w, c);
    } else if !keysOnly {
      GoneIsEmpty(w, c);
    }
  }

  lemma GoneIsEmpty(w: World, c: Cand)
    requires StoreOk(w) && c.pos.n !in w.db.log && c.pos.n in w.hist
    requires w.hist[c.pos.n].key == c.pos.key && w.hist[c.pos.n].meta == c.meta
    requires c.latest ==> forall q: Pos :: q in w.db.index && q.key == c.pos.key ==> q.n <= c.pos.n
    requires FetchValue(w.db, c).Some?
    ensures FetchValue(w.db, c) == Some([]) && w.hist[c.pos.n].value == []
  {
    hide UniqueUuids, Assembled;
    var key := c.pos.key;
    assert Linked(w.hist, c.pos.n);
    if c.latest {
      forall q: Pos | q in w.db.index ensures q.key != key {}
      assert GetLast(w.db, key).None?;
      assert CurrentOk(w.db, key, key in w.legacy);
      AssembledIs(w.db.current, key, []);
    }
  }

  /** The read begins in this state, or is underway in it. */
  ghost predicate Resumes(base: Db, db: Db, sel: Selection, limit: nat, keysOnly: bool, pr: Progress) {
    (pr == Fresh(pr.win.maxRev) && db == base) || Underway(base, db, sel, limit, keysOnly, pr)
  }

  lemma BatchScanUpheld(base: Db, db: Db, sel: Selection, limit: nat, keysOnly: bool, pr: Progress, extra: nat,
                        demoted: bool)
    requires Bounded(db) && Facing(base, db, pr.after) && base.latest > 0
    requires Resumes(base, db, sel, limit, keysOnly, pr)
    ensures var s := BatchScan(pr, sel, limit, db, extra, demoted);
      Upheld(base, db, sel, pr.win.maxRev, Places(pr.items), limit, s) && Facing(base, db, s.last)
    ensures forall i :: 0 <= i < |pr.items| ==> Right(base, keysOnly, pr.items[i])
  {
    hide ScanRows, Winner, Right, OpenKey, Emitted, Facing;
    var maxRev, prior := pr.win.maxRev, Places(pr.items);
    var cur := Demote(pr.cur, demoted);
    if pr != Fresh(maxRev) {
      ScanInvDemoted(base, db, sel, maxRev, pr.after, pr.cur, prior, demoted);
    }
    assert prior + Positions([]) == prior;
    assert Upheld(base, db, sel, maxRev, prior, limit, Scan(cur, [], pr.after, true));
    ScanRowsKeeps(base, db, sel, pr.win, pr.after, cur, prior, [], extra, limit);
    ScanFaces(base, db, sel, pr.after, cur, [], extra, pr.win, limit, |pr.items|);
  }

  lemma {:induction false} ScanFaces(base: Db, db: Db, sel: Selection, after: Option<Pos>, cur: Option<Cand>,
                                     out: seq<Cand>, extra: nat, win: Window, limit: nat, earlier: nat)
    requires Facing(base, db, after)
    ensures Facing(base, db, ScanRows(cur, out, after, Rows(db, sel, after), extra, win, limit, earlier).last)
    decreases |Rows(db, sel, after)|
  {
    hide Facing, Rows, NextCand, First, Ahead;
    var rows := Rows(db, sel, after);
    if Ahead(db, sel, after) == {} {
      assert rows == [] by { NoRows(db, sel, after); }
    } else {
      RowsStep(db, sel, after);
      var q := rows[0].pos;
      FacingOn(base, db, sel, after, q);
      var out' := if Emits(cur, rows[0]) then out + [cur.value] else out;
      if extra > 0 {
        ScanFaces(base, db, sel, Some(q), NextCand(cur, rows[0], win), out', extra - 1, win, limit, earlier);
      }
    }
  }

  lemma StoreBounded(w: World)
    requires StoreOk(w)
    ensures Bounded(w.db) && Mirrored(w.db) && w.db.latest > 0
    ensures forall r: Rev :: r in w.db.log ==> r <= w.db.latest
  {
  }

  /** A batch takes a read from one good state to the next, or to its answer. */
  lemma BatchKeeps(base: Db, w: World, sel: Selection, limit: nat, keysOnly: bool, pr: Progress, extra: nat,
                   demoted: bool)
    requires StoreOk(w) && Recorded(base, w) && Facing(base, w.db, pr.after) && base.latest > 0
    requires Resumes(base, w.db, sel, limit, keysOnly, pr)
    requires Readable(w.db, keysOnly, Finish(BatchScan(pr, sel, limit, w.db, extra, demoted)))
    ensures var pr' := DoBatch(pr, sel, limit, keysOnly, w.db, extra, demoted);
      && (pr'.more ==> Underway(base, w.db, sel, limit, keysOnly, pr') && Facing(base, w.db, pr'.after))
      && (!pr'.more ==> Answered(base, w.db, sel, pr.win.maxRev, limit, keysOnly, pr'.items))
      && pr'.win == Window(pr.win.maxRev, base.latest)
  {
    hide StoreOk, Recorded, ScanRows, BatchScan, Upheld, Right, Facing, ItemsOf, Answered, Underway, Resumes, Bounded,
      Readable;
    StoreBounded(w);
    BatchScanUpheld(base, w.db, sel, limit, keysOnly, pr, extra, demoted);
    FirstRevKept(base, w.db, sel, limit, keysOnly, pr);
    var s := BatchScan(pr, sel, limit, w.db, extra, demoted);
    if s.more {
      MoreToCome(base, w, sel, limit, keysOnly, pr, s);
    } else if NeedMore(limit, |pr.items| + |s.out|) {
      ExhaustedAnswer(base, w, sel, pr.win.maxRev, limit, keysOnly, pr.items, s);
    } else {
      LimitedAnswer(base, w, sel, pr.win.maxRev, limit, keysOnly, pr.items, s);
    }
  }

  lemma FirstRevKept(base: Db, db: Db, sel: Selection, limit: nat, keysOnly: bool, pr: Progress)
    requires Resumes(base, db, sel, limit, keysOnly, pr) && base.latest > 0
    ensures (if pr.win.firstRev == 0 then db.latest else pr.win.firstRev) == base.latest
  {
    hide ScanInv, Right;
  }

  lemma MoreToCome(base: Db, w: World, sel: Selection, limit: nat, keysOnly: bool, pr: Progress, s: Scan)
    requires StoreOk(w) && Recorded(base, w) && Readable(w.db, keysOnly, Finish(s))
    requires forall i :: 0 <= i < |pr.items| ==> Right(base, keysOnly, pr.items[i])
    requires Upheld(base, w.db, sel, pr.win.maxRev, Places(pr.items), limit, s) && s.more
    ensures Underway(base, w.db, sel, limit, keysOnly,
                     Progress(s.cur, pr.items + ItemsOf(w.db, keysOnly, Finish(s)),
                              Window(pr.win.maxRev, base.latest), s.last, true))
  {
    hide StoreOk, Recorded, Right, ScanInv, Settled, FirstOfKey, FetchValue;
    BatchItems(base, w, keysOnly, pr.items, s.out);
  }

  lemma ExhaustedAnswer(base: Db, w: World, sel: Selection, maxRev: Rev, limit: nat, keysOnly: bool, items: seq<Item>,
                        s: Scan)
    requires StoreOk(w) && Recorded(base, w) && Facing(base, w.db, s.last) && Readable(w.db, keysOnly, Finish(s))
    requires forall i :: 0 <= i < |items| ==> Right(base, keysOnly, items[i])
    requires Upheld(base, w.db, sel, maxRev, Places(items), limit, s) && !s.more
    requires NeedMore(limit, |items| + |s.out|)
    ensures Answered(base, w.db, sel, maxRev, limit, keysOnly, items + ItemsOf(w.db, keysOnly, Finish(s)))
  {
    hide StoreOk, Recorded, Facing, Right, ScanInv, Settled, FirstOfKey, Snapshot, Extra, Ahead, Behind, FetchValue;
    NothingExtra(base, w.db, sel, maxRev, s.last, s.cur, Places(items) + Positions(s.out));
    ExhaustedIsAll(base, w.db, sel, maxRev, s.last, s.cur, Places(items) + Positions(s.out));
    BatchItems(base, w, keysOnly, items, Finish(s));
    assert Places(items) + Positions(Finish(s)) == EmittedBy(s.cur, Places(items) + Positions(s.out));
  }

  /** When no row is left, there is none behind the candidate's key. */
  lemma NothingExtra(base: Db, db: Db, sel: Selection, maxRev: Rev, last: Option<Pos>, cur: Option<Cand>, out: seq<Pos>)
    requires ScanInv(base, db, sel, maxRev, last, cur, out) && Ahead(db, sel, last) == {} && Facing(base, db, last)
    ensures cur.Some? ==> forall q: Pos :: !Extra(base, db, sel, maxRev, cur.value.pos.key, q)
    ensures cur.Some? ==> Behind(base, db, cur.value.pos.key)
  {
    hide Emitted;
    LessOrder();
    var ahead := Ahead(db, sel, last);
    assert cur.Some? ==>
      forall q: Pos :: q in db.index && In(sel, q.key) && Less(cur.value.pos.key, q.key) ==> q in ahead;
    assert cur.Some? ==> forall q: Pos :: Less(cur.value.pos.key, q.key) ==> Beyond(last, q);
  }

  lemma BatchItems(base: Db, w: World, keysOnly: bool, items: seq<Item>, cs: seq<Cand>)
    requires StoreOk(w) && Recorded(base, w)
    requires forall i :: 0 <= i < |items| ==> Right(base, keysOnly, items[i])
    requires forall c :: c in cs ==> Settled(base, w.db, c) && (keysOnly || FetchValue(w.db, c).Some?)
    ensures var all := items + ItemsOf(w.db, keysOnly, cs);
      && Places(all) == Places(items) + Positions(cs)
      && forall i :: 0 <= i < |all| ==> Right(base, keysOnly, all[i])
  {
    hide StoreOk, Recorded, Settled, Right, FetchValue;
    forall i | 0 <= i < |cs| ensures Right(base, keysOnly, ItemsOf(w.db, keysOnly, cs)[i]) {
      assert cs[i] in cs;
      SettledRight(base, w, keysOnly, cs[i]);
    }
  }

  lemma LimitedAnswer(base: Db, w: World, sel: Selection, maxRev: Rev, limit: nat, keysOnly: bool, items: seq<Item>,
                      s: Scan)
    requires StoreOk(w) && Recorded(base, w) && Facing(base, w.db, s.last) && Readable(w.db, keysOnly, Finish(s))
    requires forall i :: 0 <= i < |items| ==> Right(base, keysOnly, items[i])
    requires Upheld(base, w.db, sel, maxRev, Places(items), limit, s) && !s.more
    requires !NeedMore(limit, |items| + |s.out|)
    ensures Answered(base, w.db, sel, maxRev, limit, keysOnly, items + ItemsOf(w.db, keysOnly, Finish(s)))
  {
    hide StoreOk, Recorded, Settled, Right, Winner, Emitted, Facing, ItemOf, OpenKey, FirstOfKey, Snapshot, FetchValue,
      Extended;
    var good := items + ItemsOf(w.db, keysOnly, s.out);
    var all := items + ItemsOf(w.db, keysOnly, Finish(s));
    BatchItems(base, w, keysOnly, items, s.out);
    var key := LimitReached(base, w.db, sel, maxRev, limit, Places(items), s);
    EmittedIsPrefix(base, sel, maxRev, s.last.value.key, Places(items) + Positions(s.out));
    assert all[..|good|] == good;
    assert Places(all)[..|good|] == Places(good);
    LimitedExtended(base, w.db, sel, maxRev, limit, keysOnly, key, items, s);
  }

  lemma LimitedExtended(base: Db, db: Db, sel: Selection, maxRev: Rev, limit: nat, keysOnly: bool, key: Key,
                        items: seq<Item>, s: Scan)
    requires FirstOfKey(base, db, sel, maxRev, key, s.last, s.cur) && !s.more && |items| + |s.out| == limit
    ensures Extended(base, db, sel, maxRev, keysOnly, key, limit, items + ItemsOf(db, keysOnly, Finish(s)))
  {
    hide FirstOfKey, Extra, Behind, ItemOf;
    var all := items + ItemsOf(db, keysOnly, Finish(s));
    assert |all| > limit ==> all[limit] == ItemOf(db, keysOnly, s.cur.value);
    IsExtra(base, db, sel, maxRev, keysOnly, key, s.last, s.cur);
    BehindLast(base, db, sel, maxRev, key, s.last, s.cur);
  }

  lemma BehindLast(base: Db, db: Db, sel: Selection, maxRev: Rev, key: Key, last: Option<Pos>, cur: Option<Cand>)
    requires FirstOfKey(base, db, sel, maxRev, key, last, cur)
    ensures Behind(base, db, key)
  {
  }

  lemma LimitReached(base: Db, db: Db, sel: Selection, maxRev: Rev, limit: nat, prior: seq<Pos>, s: Scan)
    returns (key: Key)
    requires Upheld(base, db, sel, maxRev, prior, limit, s) && !NeedMore(limit, |prior| + |s.out|)
    ensures limit > 0 && |prior| + |s.out| == limit && s.last.Some?
    ensures key == (prior + Positions(s.out))[limit - 1].key && FirstOfKey(base, db, sel, maxRev, key, s.last, s.cur)
    ensures Emitted(base, sel, maxRev, s.last.value.key, prior + Positions(s.out))
  {
    hide OpenKey, Settled, Emitted, NextRow;
    key := (prior + Positions(s.out))[limit - 1].key;
  }

  lemma IsExtra(base: Db, db: Db, sel: Selection, maxRev: Rev, keysOnly: bool, key: Key, last: Option<Pos>,
                cur: Option<Cand>)
    requires FirstOfKey(base, db, sel, maxRev, key, last, cur)
    ensures cur.Some? && !cur.value.meta.isDelete <==> exists q: Pos :: Extra(base, db, sel, maxRev, key, q)
    ensures cur.Some? && !cur.value.meta.isDelete ==>
      && Extra(base, db, sel, maxRev, key, cur.value.pos) && cur.value.pos in db.index
      && cur.value == Cand(cur.value.pos, db.index[cur.value.pos].meta, true)
      && ItemOf(db, keysOnly, cur.value).pos == cur.value.pos
  {
    BeforeOrder();
    if q: Pos :| Extra(base, db, sel, maxRev, key, q) {
      assert q == last.value;
    }
    assert cur.Some? && !cur.value.meta.isDelete ==> Extra(base, db, sel, maxRev, key, last.value);
    if cur.Some? { ItemFields(db, keysOnly, cur.value); }
  }

  lemma ItemFields(db: Db, keysOnly: bool, c: Cand)
    ensures ItemOf(db, keysOnly, c).pos == c.pos && ItemOf(db, keysOnly, c).meta == c.meta
  {
  }

  // ---------------------------------------------------------------- what may happen between batches

  /** The rows the step removes beyond where the scan stands. */
  function RowsRemovedBy(w: World, act: Action, after: Option<Pos>): set<Pos> {
    set p | p in w.db.index && Beyond(after, p) && p !in Apply(w, act).db.index
  }

  /** What other actors remove before the scan gets there. */
  function RowsRemoved(w: World, acts: seq<Action>, after: Option<Pos>): set<Pos>
    decreases |acts|
  {
    if acts == [] then {} else RowsRemovedBy(w, acts[0], after) + RowsRemoved(Apply(w, acts[0]), acts[1..], after)
  }

  lemma {:induction false} ScanOnlyRemoves(db: Db, cursor: Rev, end: Rev, budget: nat)
    ensures var s := CompactScan(db, cursor, end, budget);
      s.db.latest == db.latest && forall p: Pos :: p in s.db.index ==> p in db.index && s.db.index[p] == db.index[p]
    decreases budget
  {
    var pending := Pending(db, cursor, end);
    if budget > 0 && pending != {} { ScanOnlyRemoves(CompactOne(db, MinOf(pending)), MinOf(pending), end, budget - 1); }
  }

  /** Rows that a step adds are above the read version; the others are as they were. */
  lemma IndexStep(w: World, act: Action)
    requires Bounded(w.db)
    ensures var w' := Apply(w, act);
      && w.db.latest <= w'.db.latest && Bounded(w'.db)
      && forall p: Pos :: p in w'.db.index ==>
           p.n > w.db.latest || (p in w.db.index && w'.db.index[p] == w.db.index[p])
  {
    hide CompactScan, Decide, CurrentAfter;
    if act.Batch? && act.run < |w.runs| {
      ScanOnlyRemoves(w.db, w.runs[act.run].cursor, w.runs[act.run].end, act.budget);
    }
  }

  lemma {:induction false} IndexRun(w: World, acts: seq<Action>, after: Option<Pos>)
    requires Bounded(w.db)
    ensures var w' := Play(w, acts);
      && w.db.latest <= w'.db.latest && Bounded(w'.db)
      && forall p: Pos :: p in w'.db.index ==>
           p.n > w.db.latest || (p in w.db.index && w'.db.index[p] == w.db.index[p])
    ensures forall p: Pos :: p in RowsRemoved(w, acts, after) ==> Beyond(after, p) && p !in Play(w, acts).db.index
    ensures forall p: Pos :: p in w.db.index && Beyond(after, p) ==>
      p in RowsRemoved(w, acts, after) || p in Play(w, acts).db.index
    decreases |acts|
  {
    hide Apply, Beyond;
    if acts != [] {
      IndexStep(w, acts[0]);
      IndexRun(Apply(w, acts[0]), acts[1..], after);
    }
  }

  /** Whatever others do, the index beyond the scan is the snapshot less what they have removed there. */
  lemma FacingRun(base: Db, w: World, acts: seq<Action>, after: Option<Pos>)
    requires Bounded(w.db) && Facing(base, w.db, after)
    ensures Facing(Without(base, RowsRemoved(w, acts, after)), Play(w, acts).db, after)
  {
    hide Play, RowsRemoved, Beyond;
    IndexRun(w, acts, after);
  }

  /** What a scan has done so far does not depend on rows it has not read. */
  lemma UnderwayRun(base: Db, w: World, acts: seq<Action>, sel: Selection, limit: nat, keysOnly: bool, pr: Progress)
    requires Bounded(w.db) && Underway(base, w.db, sel, limit, keysOnly, pr)
    ensures Underway(Without(base, RowsRemoved(w, acts, pr.after)), Play(w, acts).db, sel, limit, keysOnly, pr)
  {
    hide Play, RowsRemoved, Winner;
    IndexRun(w, acts, pr.after);
    var rows := RowsRemoved(w, acts, pr.after);
    var base' := Without(base, rows);
    if pr.after.Some? {
      var a := pr.after.value;
      LessOrder();
      forall p: Pos | Less(p.key, a.key)
        ensures Winner(base', sel, pr.win.maxRev, p) <==> Winner(base, sel, pr.win.maxRev, p)
      {
        SameWinner(base, rows, sel, pr.win.maxRev, p);
      }
      forall i | 0 <= i < |pr.items| ensures Right(base', keysOnly, pr.items[i]) {
        assert Places(pr.items)[i] in Places(pr.items);
        assert !Beyond(pr.after, pr.items[i].pos);
      }
    }
  }

  lemma SameWinner(base: Db, rows: set<Pos>, sel: Selection, maxRev: Rev, p: Pos)
    requires forall q :: q in rows ==> q.key != p.key
    ensures Winner(Without(base, rows), sel, maxRev, p) <==> Winner(base, sel, maxRev, p)
  {
  }

  lemma RecordedRun(base: Db, w: World, w': World, rows: set<Pos>)
    requires Recorded(base, w) && Grows(w, w')
    ensures Recorded(Without(base, rows), w')
  {
  }

  /** Anything but compaction. */
  predicate Gentle(act: Action) {
    act.Write? || act.Tick? || act.Wipe?
  }

  lemma GentleStep(w: World, act: Action)
    requires Inv(w) && Gentle(act)
    ensures Inv(Apply(w, act)) && Extends(w.db, Apply(w, act).db) && Apply(w, act).db.watermark == w.db.watermark
  {
    hide StoreOk, RunOk, CurrentAfter, Decide, Mirrored;
    StepKeepsInv(w, act);
    StoreBounded(w);
  }

  lemma ExtendsTransitive(a: Db, b: Db, c: Db)
    requires Extends(a, b) && Extends(b, c)
    ensures Extends(a, c)
  {
  }

  lemma {:induction false} GentleRun(w: World, acts: seq<Action>)
    requires Inv(w) && forall a :: a in acts ==> Gentle(a)
    ensures var w' := Play(w, acts); Inv(w') && Extends(w.db, w'.db) && w'.db.watermark == w.db.watermark
    decreases |acts|
  {
    hide Inv, Extends, Apply;
    if acts == [] {
      ExtendsReflexive(w.db);
    } else {
      GentleStep(w, acts[0]);
      GentleRun(Apply(w, acts[0]), acts[1..]);
      ExtendsTransitive(w.db, Apply(w, acts[0]).db, Play(w, acts).db);
    }
  }

  lemma ExtendsReflexive(db: Db)
    ensures Extends(db, db)
  {
  }

  // ---------------------------------------------------------------- the extra record of a limited list

  /** The extra record is the next of the snapshot exactly if it is the only visible one of its key. */
  lemma ExtraIsWinnerIff(base: Db, db: Db, sel: Selection, maxRev: Rev, key: Key, q: Pos)
    requires Behind(base, db, key) && Extra(base, db, sel, maxRev, key, q)
    ensures q in Snapshot(base, sel, maxRev) <==>
      forall x: Pos :: x in base.index && x.key == q.key && Seen(base, maxRev, x.n) ==> x == q
  {
    LessOrder();
    forall x: Pos | x in base.index && x.key == q.key ensures q.n <= x.n && x == Pos(q.key, x.n) {
      assert x in db.index;
    }
    assert q in Winners(base, sel, maxRev) <==> q in Snapshot(base, sel, maxRev);
  }

  /**
   * The extra record carries the value stored at its revision, except exactly if its key has a later live record whose
   * value has the same, nonzero length and different bytes (and rows that hold it): then it carries that one.
   */
  lemma ExtraValueIff(w: World, q: Pos)
    requires StoreOk(w) && q in w.db.index && !w.db.index[q].meta.isDelete
    ensures q.n in w.db.log && GetLast(w.db, q.key).Some? && GetLast(w.db, q.key).value.rev in w.db.log
    ensures var own, newest := w.db.log[q.n], w.db.log[GetLast(w.db, q.key).value.rev];
      var value := ItemOf(w.db, false, Cand(q, w.db.index[q].meta, true)).value;
      var mixed := q.key !in w.legacy && Live(newest) && |newest.value| == |own.value| > 0 && newest.value != own.value;
      (value != own.value <==> mixed) && (mixed ==> value == newest.value)
  {
    hide Retained, UniqueUuids, Assembled;
    var key := q.key;
    assert Linked(w.hist, q.n);
    LastIsNewest(w, key);
    assert CurrentOk(w.db, key, key in w.legacy);
    AssembledIs(w.db.current, key, CurrentValue(w.db, key, key in w.legacy));
  }

  /** /a, and /b at revision 3 followed by one more write of /b. */
  function TwiceWritten(op: Op): World {
    Play(Init(1), [Write(CreateOp([47, 97], [0], 0)), Write(CreateOp([47, 98], [1], 0)), Write(op)])
  }

  lemma TwiceWrittenIs(op: Op)
    requires op == UpdateOp([47, 98], [2], 3, 0) || op == DeleteOp([47, 98], 3)
    ensures var w := TwiceWritten(op);
      var top := Meta(false, op.DeleteOp?, 0, 3, 3, 1);
      && Inv(w) && w.db.latest == 4 && w.legacy == {}
      && w.db.index == map[
        Pos([47, 97], 2) := IndexEntry(Meta(true, false, 0, 0, 0, 1), 0),
        Pos([47, 98], 3) := IndexEntry(Meta(true, false, 0, 0, 0, 1), 1),
        Pos([47, 98], 4) := IndexEntry(top, 2)]
      && w.db.log == map[
        2 := Entry([47, 97], Meta(true, false, 0, 0, 0, 1), [0]),
        3 := Entry([47, 98], Meta(true, false, 0, 0, 0, 1), [1]),
        4 := Entry([47, 98], top, if op.DeleteOp? then [1] else [2])]
  {
    hide Inv, CurrentAfter, Extends;
    var a1, a2, a3 := Write(CreateOp([47, 97], [0], 0)), Write(CreateOp([47, 98], [1], 0)), Write(op);
    var w0 := Init(1);
    var w1 := Apply(w0, a1);
    assert w1.db.index.Keys == {Pos([47, 97], 2)};
    var w2 := Apply(w1, a2);
    assert GetLast(w1.db, [47, 98]).None?;
    GetLastIs(w2.db, [47, 98], 3);
    var acts := [a1, a2, a3];
    assert acts[1..] == [a2, a3] && acts[1..][1..] == [a3] && acts[1..][1..][1..] == [];
    InitInv(1);
    GentleRun(w0, acts);
  }

  /** One row closes the first key and fills the limit; the row itself becomes the candidate. */
  lemma LimitedScan(a: Row, b: Row, c: Row)
    requires a.pos.key != b.pos.key && !a.meta.isDelete
    ensures ScanRows(None, [], None, [a, b, c], 3, Window(0, 0), 1, 0)
         == Scan(Some(Cand(b.pos, b.meta, true)), [Cand(a.pos, a.meta, true)], Some(b.pos), false)
  {
    var rows := [a, b, c];
    assert rows[1..] == [b, c] && rows[1..][1..] == [c];
    var cur := Some(Cand(a.pos, a.meta, true));
    assert NextCand(None, a, Window(0, 0)) == cur;
    assert ScanRows(None, [], None, rows, 3, Window(0, 0), 1, 0)
      == ScanRows(cur, [], Some(a.pos), [b, c], 2, Window(0, 0), 1, 0);
  }

  /** Two keys, the second with two records, listed with limit 1: the older of the two is the extra record. */
  lemma LimitedToOne(db: Db, sel: Selection, a: Pos, b: Pos, c: Pos)
    requires SortPos(Ahead(db, sel, None)) == [a, b, c] && {a, b, c} <= db.index.Keys
    requires a.key != b.key && b.key == c.key && b.n < c.n <= db.latest
    requires !db.index[a].meta.isDelete && !db.index[b].meta.isDelete
    ensures var pr := DoBatch(Fresh(0), sel, 1, false, db, 3, false);
      && !pr.more && Places(pr.items) == [a, b] && !Winner(db, sel, 0, b)
      && pr.items[1] == ItemOf(db, false, Cand(b, db.index[b].meta, true))
  {
    hide FetchValue, ScanRows, Ahead, SortPos;
    var rows := [Row(a, db.index[a].meta), Row(b, db.index[b].meta), Row(c, db.index[c].meta)];
    assert Rows(db, sel, None) == rows;
    LimitedScan(rows[0], rows[1], rows[2]);
    var s := BatchScan(Fresh(0), sel, 1, db, 3, false);
    assert Finish(s) == [Cand(a, rows[0].meta, true), Cand(b, rows[1].meta, true)];
  }

  /**
   * A list of "/" limited to one key returns a second record: the first revision of /b. If /b was updated since, it
   * carries the value of the later revision; if /b was deleted since, the list still has it, with the value it had.
   */
  lemma ExtraCanBeStale(op: Op)
    requires op == UpdateOp([47, 98], [2], 3, 0) || op == DeleteOp([47, 98], 3)
    ensures var db := TwiceWritten(op).db;
      var pr := DoBatch(Fresh(0), Selection([47], [47]), 1, false, db, 3, false);
      && !pr.more && Places(pr.items) == [Pos([47, 97], 2), Pos([47, 98], 3)]
      && !Winner(db, Selection([47], [47]), 0, pr.items[1].pos)
      && 3 in db.log && db.log[3].value == [1] && pr.items[1].value == (if op.DeleteOp? then [1] else [2])
      && (op.DeleteOp? ==> GetLast(db, [47, 98]).Some? && GetLast(db, [47, 98]).value.entry.meta.isDelete)
  {
    hide StoreOk, RunOk, TwiceWritten, DoBatch, Winner, SortPos, Ahead, Less, ItemOf;
    var w, sel := TwiceWritten(op), Selection([47], [47]);
    var a, b, c := Pos([47, 97], 2), Pos([47, 98], 3), Pos([47, 98], 4);
    TwiceWrittenIs(op);
    assert w.db.index.Keys == {a, b, c};
    TwoInOrder(w.db, sel);
    LimitedToOne(w.db, sel, a, b, c);
    ExtraValueIff(w, b);
    GetLastIs(w.db, [47, 98], 4);
  }

  lemma UnderSlash(b: Byte)
    ensures In(Selection([47], [47]), [47, b])
    ensures Less([47, 97], [47, 98])
  {
    CoversWhatMatches([47], [47, b]);
    assert Less([97], [98]);
    assert [47, 97][1..] == [97] && [47, 98][1..] == [98];
  }

  lemma TwoInOrder(db: Db, sel: Selection)
    requires sel == Selection([47], [47])
    requires db.index.Keys == {Pos([47, 97], 2), Pos([47, 98], 3), Pos([47, 98], 4)}
    ensures SortPos(Ahead(db, sel, None)) == [Pos([47, 97], 2), Pos([47, 98], 3), Pos([47, 98], 4)]
  {
    hide Less, In, SortPos;
    var q := [Pos([47, 97], 2), Pos([47, 98], 3), Pos([47, 98], 4)];
    UnderSlash(97);
    UnderSlash(98);
    assert Ahead(db, sel, None) == db.index.Keys;
    SortedUnique(SortPos(Ahead(db, sel, None)), q);
  }
}
