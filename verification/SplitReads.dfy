/** What a compaction between the batches of a scan costs. */
module SplitReads {
  import opened Types
  import opened Store
  import opened World
  import opened Reads
  import opened Collectors
  import Compaction
  import Interference

  /** The newest record of its key that a read of `base` sees. */
  ghost predicate Top(base: Db, maxRev: Rev, p: Pos) {
    && p in base.index && Seen(base, maxRev, p.n)
    && forall q: Pos :: q in base.index && q.key == p.key && Seen(base, maxRev, q.n) ==> q.n <= p.n
  }

  /** No row of the key is both seen and the newest of what is left, and live. */
  ghost predicate Dead(base: Db, maxRev: Rev, key: Key) {
    forall q: Pos :: Top(base, maxRev, q) && q.key == key ==> base.index[q].meta.isDelete
  }

  lemma {:induction false} TopExists(base: Db, maxRev: Rev, p: Pos, n: nat) returns (t: Pos)
    requires p in base.index && Seen(base, maxRev, p.n) && n + p.n >= base.latest
    ensures Top(base, maxRev, t) && t.key == p.key && t.n >= p.n
    decreases n
  {
    if q: Pos :| q in base.index && q.key == p.key && Seen(base, maxRev, q.n) && q.n > p.n {
      t := TopExists(base, maxRev, q, n - 1);
    } else {
      t := p;
    }
  }

  /**
   * Exactly when losing rows does not change the answer: of every selected key whose newest visible record is lost,
   * that record is a tombstone and nothing live is left in its place.
   */
  lemma HarmlessIff(base: Db, lost: set<Pos>, sel: Selection, maxRev: Rev)
    ensures Snapshot(Without(base, lost), sel, maxRev) == Snapshot(base, sel, maxRev) <==>
      forall p: Pos :: Top(base, maxRev, p) && In(sel, p.key) && p in lost ==>
        base.index[p].meta.isDelete && Dead(Without(base, lost), maxRev, p.key)
  {
    hide Dead, SortPos;
    var left := Without(base, lost);
    var all, kept := Winners(base, sel, maxRev), Winners(left, sel, maxRev);
    if forall p: Pos :: Top(base, maxRev, p) && In(sel, p.key) && p in lost ==>
         base.index[p].meta.isDelete && Dead(left, maxRev, p.key)
    {
      forall p: Pos ensures p in all <==> p in kept { SameVerdict(base, lost, sel, maxRev, p); }
      assert all == kept;
    }
    if SortPos(kept) == SortPos(all) {
      forall p: Pos ensures Winner(base, sel, maxRev, p) <==> Winner(left, sel, maxRev, p) {
        assert p in SortPos(all) <==> p in SortPos(kept);
        assert p in all <==> p in kept;
      }
      forall p: Pos | Top(base, maxRev, p) && In(sel, p.key) && p in lost
        ensures base.index[p].meta.isDelete && Dead(left, maxRev, p.key)
      {
        LostVerdict(base, lost, sel, maxRev, p);
      }
    }
  }

  /**
   * An unlimited list that is not refused is the snapshot of its first completed batch exactly if its losses are
   * harmless.
   */
  lemma ListIsSnapshotIff(start: World, sel: Selection, maxRev: Rev, keysOnly: bool, plan: seq<Turn>)
    requires Inv(start) && TamePlan(start, plan) && ReadAll(start, sel, maxRev, 0, keysOnly, plan).err.None?
    ensures var s := ReadAll(start, sel, maxRev, 0, keysOnly, plan);
      Places(s.pr.items) == Snapshot(s.base, sel, maxRev) <==>
      forall p: Pos :: Top(s.base, maxRev, p) && In(sel, p.key) && p in s.lost ==>
        s.base.index[p].meta.isDelete && Dead(Left(s), maxRev, p.key)
  {
    hide Inv, TamePlan, ReadAll, Snapshot, Top, Dead, Right, Recorded, Grows;
    ReadIsAnswered(start, sel, maxRev, 0, keysOnly, plan);
    var s := ReadAll(start, sel, maxRev, 0, keysOnly, plan);
    HarmlessIff(s.base, s.lost, sel, maxRev);
  }

  /** A winner is a live newest record. */
  lemma WinnerIsTop(base: Db, sel: Selection, maxRev: Rev, p: Pos)
    ensures Winner(base, sel, maxRev, p) <==> Top(base, maxRev, p) && In(sel, p.key) && !base.index[p].meta.isDelete
  {
  }

  lemma OnlyTop(base: Db, maxRev: Rev, p: Pos, q: Pos)
    requires Top(base, maxRev, p) && Top(base, maxRev, q) && p.key == q.key
    ensures p == q
  {
  }

  /** Rows that stay keep their place; what rises to the top does so because the top was lost. */
  lemma TopLeft(base: Db, lost: set<Pos>, maxRev: Rev, p: Pos)
    ensures Top(base, maxRev, p) && p !in lost ==> Top(Without(base, lost), maxRev, p)
    ensures Top(Without(base, lost), maxRev, p) ==> p !in lost && p in base.index && Seen(base, maxRev, p.n)
  {
  }

  lemma SameVerdict(base: Db, lost: set<Pos>, sel: Selection, maxRev: Rev, p: Pos)
    requires forall t: Pos :: Top(base, maxRev, t) && In(sel, t.key) && t in lost ==>
      base.index[t].meta.isDelete && Dead(Without(base, lost), maxRev, t.key)
    ensures Winner(base, sel, maxRev, p) <==> Winner(Without(base, lost), sel, maxRev, p)
  {
    hide Winner, Top;
    var left := Without(base, lost);
    WinnerIsTop(base, sel, maxRev, p);
    WinnerIsTop(left, sel, maxRev, p);
    TopLeft(base, lost, maxRev, p);
    if Winner(left, sel, maxRev, p) {
      var t := TopExists(base, maxRev, p, base.latest);
      TopLeft(base, lost, maxRev, t);
      if t !in lost { OnlyTop(left, maxRev, p, t); }
    }
  }

  lemma LostVerdict(base: Db, lost: set<Pos>, sel: Selection, maxRev: Rev, p: Pos)
    requires Top(base, maxRev, p) && In(sel, p.key) && p in lost
    requires forall q: Pos :: Winner(base, sel, maxRev, q) <==> Winner(Without(base, lost), sel, maxRev, q)
    ensures base.index[p].meta.isDelete && Dead(Without(base, lost), maxRev, p.key)
  {
    hide Winner;
    var left := Without(base, lost);
    WinnerIsTop(base, sel, maxRev, p);
    WinnerIsTop(left, sel, maxRev, p);
    TopLeft(base, lost, maxRev, p);
    forall q: Pos | Top(left, maxRev, q) && q.key == p.key ensures left.index[q].meta.isDelete {
      WinnerIsTop(base, sel, maxRev, q);
      WinnerIsTop(left, sel, maxRev, q);
      TopLeft(base, lost, maxRev, q);
      if Winner(base, sel, maxRev, q) { OnlyTop(base, maxRev, p, q); }
    }
  }

  // ---------------------------------------------------------------- keys that go missing

  /** An update of the key and a compaction that runs through. */
  function Meanwhile(w: World, p: Pos, value: Bytes): seq<Action> {
    [Write(UpdateOp(p.key, value, p.n, 0)), Compact(w.db.latest + 1), Batch(|w.runs|, |w.db.log| + 1, true)]
  }

  /** One batch with budget for every record finishes a compaction. */
  lemma OneBatchFinishes(w: World, end: Rev)
    ensures Compaction.Finishes(w, end, [Batch(|w.runs|, |w.db.log|, true)])
  {
    hide CompactScan;
    var w1, b := Apply(w, Compact(end)), Batch(|w.runs|, |w.db.log|, true);
    PlayOne(w1, b);
    Compaction.PendingSize(w.db, 0, end);
    Compaction.ScanExhausts(w.db, 0, end, |w.db.log|);
  }

  /** After an update the old record is no longer the newest, and a compaction up to the update removes it. */
  lemma OldRecordGoes(w: World, p: Pos, value: Bytes)
    requires Inv(w) && p in w.db.index && LiveTop(w.hist, p.key, p.n)
    ensures var w', n := Play(w, Meanwhile(w, p, value)), w.db.latest + 1;
      && TameRun(w, Meanwhile(w, p, value)) && Inv(w') && p !in w'.db.index
      && LiveTop(w'.hist, p.key, n) && Pos(p.key, n) in w'.db.index
  {
    hide StoreOk, RunOk, Apply, Play, TameRun, Compaction.Finishes, Compaction.Compacted;
    var op, n, acts := UpdateOp(p.key, value, p.n, 0), w.db.latest + 1, Meanwhile(w, p, value);
    var w1 := Apply(w, acts[0]);
    Updated(w, p, value);
    var rest := [Batch(|w1.runs|, |w1.db.log|, true)];
    OneBatchFinishes(w1, n);
    Compaction.CompactedLog(w1, n, rest);
    ThenCompact(w, acts[0], n, rest[0]);
    assert acts == [acts[0], Compact(n), rest[0]];
    var w' := Play(w, acts);
    RunsKeepInv(w, acts);
    SameHist(w1, n, rest);
    IndexIsLog(w');
  }

  lemma ThenCompact(w: World, a: Action, end: Rev, b: Action)
    requires !a.Compact? && !b.Compact? && end <= Apply(w, a).db.latest
    ensures Play(w, [a, Compact(end), b]) == Compaction.Compacted(Apply(w, a), end, [b])
    ensures TameRun(w, [a, Compact(end), b])
  {
    hide Apply;
    var acts := [a, Compact(end), b];
    assert acts[1..] == [Compact(end), b] && acts[1..][1..] == [b];
    PlayOne(Apply(Apply(w, a), Compact(end)), b);
    assert TameRun(Apply(w, a), acts[1..]);
  }

  lemma Updated(w: World, p: Pos, value: Bytes)
    requires Inv(w) && p in w.db.index && LiveTop(w.hist, p.key, p.n)
    ensures var w1, n := Apply(w, Write(UpdateOp(p.key, value, p.n, 0))), w.db.latest + 1;
      && StoreOk(w1) && w1.db.latest == n && w1.runs == w.runs && |w1.db.log| == |w.db.log| + 1
      && n in w1.db.log && LiveTop(w1.hist, p.key, n) && !Newest(w1.hist, p.n) && p.n < n
  {
    hide StoreOk, RunOk, Decide, Append;
    var op := UpdateOp(p.key, value, p.n, 0);
    Interference.LastOfLive(w, p.key, p.n);
    Interference.UpdatePuts(w, p.key, value, p.n, 0, 0);
    Interference.WriteStoreOk(w, op);
    Interference.FaithfulOf(w);
    Compaction.Committed(w, Decide(w.db, op).value);
    NotNewest(w, op, p.n);
  }

  lemma NotNewest(w: World, op: Op, r: Rev)
    requires Faithful(w) && Decide(w.db, op).Some? && r in w.hist && w.hist[r].key == Decide(w.db, op).value.entry.key
    ensures var w', n := Commit(w, Decide(w.db, op).value), w.db.latest + 1;
      && !Newest(w'.hist, r) && r < n && |w'.db.log| == |w.db.log| + 1
  {
    hide Decide, CurrentAfter;
    var w', n := Commit(w, Decide(w.db, op).value), w.db.latest + 1;
    assert n in w'.hist && w'.hist[n].key == w'.hist[r].key && n > r;
    assert n !in w.db.log;
  }

  lemma SameHist(w: World, end: Rev, acts: seq<Action>)
    requires acts == [Batch(|w.runs|, |w.db.log|, true)]
    ensures Compaction.Compacted(w, end, acts).hist == w.hist
  {
    hide CompactScan;
    PlayOne(Apply(w, Compact(end)), acts[0]);
  }

  lemma IndexIsLog(w: World)
    requires Inv(w)
    ensures forall p: Pos :: p in w.db.index <==> p.n in w.db.log && w.db.log[p.n].key == p.key
    ensures forall r: Rev :: r in w.db.log ==> w.db.log[r] == w.hist[r]
  {
    hide RunOk, Retained, Chained, UniqueUuids, CurrentOk;
    forall p: Pos | p.n in w.db.log && w.db.log[p.n].key == p.key ensures p in w.db.index {
      assert p == Pos(w.db.log[p.n].key, p.n);
    }
  }

  /**
   * Every key the scan has not reached can go missing, in every state: another client updates it, a compaction runs
   * through, and the old record is lost before the scan gets there. The key is live all the time.
   */
  lemma AnyKeyCanGoMissing(w: World, after: Option<Pos>, p: Pos, value: Bytes)
    requires Inv(w) && p in w.db.index && Beyond(after, p)
    requires LiveTop(w.hist, p.key, p.n)
    ensures var acts := Meanwhile(w, p, value);
      var w', n := Play(w, acts), w.db.latest + 1;
      && TameRun(w, acts) && p in RowsRemoved(w, acts, after) && LiveTop(w'.hist, p.key, n)
  {
    hide StoreOk, RunOk, Play, TameRun, RowsRemoved, Beyond, LiveTop;
    OldRecordGoes(w, p, value);
    StoreBounded(w);
    IndexRun(w, Meanwhile(w, p, value), after);
  }
}
