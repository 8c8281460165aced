/** What compaction removes, what readers can still see, and where the watermark ends up. */
module Compaction {
  import opened Types
  import opened Store
  import opened World

  // ---------------------------------------------------------------- views

  ghost function Upto(log: map<Rev, Entry>, key: Key, at: Rev): set<Rev> {
    set r | r in log && log[r].key == key && r <= at
  }

  /** The revision a read of `key` pinned at `at` answers from: the newest at or below it, unless a tombstone. */
  ghost function View(log: map<Rev, Entry>, key: Key, at: Rev): Option<Rev> {
    var revs := Upto(log, key, at);
    if revs == {} || log[MaxOf(revs)].meta.isDelete then None else Some(MaxOf(revs))
  }

  lemma ViewIs(log: map<Rev, Entry>, key: Key, at: Rev, r: Rev)
    requires r in Upto(log, key, at) && forall s :: s in Upto(log, key, at) ==> s <= r
    ensures View(log, key, at) == if log[r].meta.isDelete then None else Some(r)
  {
  }

  // ---------------------------------------------------------------- the exact effect of a scan

  /** Scanning the oldest record of a key does not change the verdict on any other record. */
  lemma VerdictStable(db: Db, r: Rev, s: Rev)
    requires Mirrored(db) && Oldest(db, r) && s in db.log && s != r
    ensures s in CompactOne(db, r).log && CompactOne(db, r).log[s] == db.log[s]
    ensures Removes(CompactOne(db, r), s) <==> Removes(db, s)
  {
    var db' := CompactOne(db, r);
    var k := db.log[s].key;
    assert Pos(k, s) in db.index && Pos(k, s) in db'.index;
    var last := GetLast(db, k);
    assert s <= last.value.rev && (db.log[r].key == k ==> r < s);
    GetLastIs(db', k, last.value.rev);
  }

  /** Of the records a scan passes over, exactly those with a bad verdict at its start are gone. */
  lemma {:induction false} ScanEffect(w: World, run: Run, budget: nat, x: Rev)
    requires StoreOk(w) && RunOk(w, run) && x in w.db.log
    ensures var s := CompactScan(w.db, run.cursor, run.end, budget);
      x in s.db.log <==> x <= run.cursor || x > s.cursor || !Removes(w.db, x)
    decreases budget
  {
    hide RunOk, Chained, UniqueUuids, CurrentOk, Retained, Faithful, Removes, Mirrored;
    var pending := Pending(w.db, run.cursor, run.end);
    if budget > 0 && pending != {} {
      var r := MinOf(pending);
      var w1 := w.(db := CompactOne(w.db, r));
      NextIsOldest(w, run);
      ScanOne(w, run);
      ScanKeeps(w1, Run(run.end, r), budget - 1);
      if x == r {
        if x in w1.db.log { ScanEffect(w1, Run(run.end, r), budget - 1, x); }
      } else {
        VerdictStable(w.db, r, x);
        ScanEffect(w1, Run(run.end, r), budget - 1, x);
        assert run.cursor < x <= run.end ==> x in pending;
      }
    }
  }

  /** A scan stays within its range, and one with budget for every pending record leaves none pending. */
  lemma {:induction false} ScanExhausts(db: Db, cursor: Rev, end: Rev, budget: nat)
    ensures var s := CompactScan(db, cursor, end, budget);
      && (s.cursor == cursor || cursor < s.cursor <= end)
      && (s.cursor == cursor ==> s.db == db && (budget == 0 || Pending(db, cursor, end) == {}))
      && (s.cursor != cursor ==> s.cursor in db.log)
      && (budget >= |Pending(db, cursor, end)| ==> Pending(s.db, s.cursor, end) == {})
      && (budget >= |Pending(db, cursor, end)| ==> forall r :: r in Pending(db, cursor, end) ==> r <= s.cursor)
    decreases budget
  {
    var pending := Pending(db, cursor, end);
    if budget > 0 && pending != {} {
      var r := MinOf(pending);
      var rest := Pending(CompactOne(db, r), r, end);
      assert rest == pending - {r};
      ScanExhausts(CompactOne(db, r), r, end, budget - 1);
      assert forall x :: x in pending ==> x == r || x in rest;
    }
  }

  lemma PendingSize(db: Db, cursor: Rev, end: Rev)
    ensures |Pending(db, cursor, end)| <= |db.log|
  {
    SubsetSize(Pending(db, cursor, end), db.log.Keys);
  }

  lemma {:induction false} SubsetSize(a: set<nat>, b: set<nat>)
    requires a <= b
    ensures |a| <= |b|
  {
    if a != {} {
      var x :| x in a;
      SubsetSize(a - {x}, b - {x});
    }
  }

  /** A scan to an end above the read version meets the same records as a scan to the read version. */
  lemma {:induction false} ScanToLatest(db: Db, cursor: Rev, end: Rev, budget: nat)
    requires db.latest <= end && forall r: Rev :: r in db.log ==> r <= db.latest
    ensures CompactScan(db, cursor, end, budget) == CompactScan(db, cursor, db.latest, budget)
    decreases budget
  {
    assert Pending(db, cursor, end) == Pending(db, cursor, db.latest);
    if budget > 0 && Pending(db, cursor, end) != {} {
      ScanToLatest(CompactOne(db, MinOf(Pending(db, cursor, end))), MinOf(Pending(db, cursor, end)), end, budget - 1);
    }
  }

  /** The run as far as it can find anything: no record lies above the read version. */
  ghost function Clipped(w: World, run: Run): Run {
    Run(Min(run.end, w.db.latest), run.cursor)
  }

  lemma ScanClipped(w: World, run: Run, budget: nat)
    requires StoreOk(w)
    ensures CompactScan(w.db, run.cursor, run.end, budget)
         == CompactScan(w.db, run.cursor, Clipped(w, run).end, budget)
  {
    hide CompactScan, Chained, UniqueUuids, CurrentOk, Mirrored, Retained;
    if run.end > w.db.latest { ScanToLatest(w.db, run.cursor, run.end, budget); }
  }

  /** Every step is a batch of run `i`, of any size, committed and then carried on or repeated. */
  predicate Batches(acts: seq<Action>, i: nat) {
    forall j :: 0 <= j < |acts| ==> acts[j].Batch? && acts[j].run == i
  }

  /** Compact(end) with nothing but its own batches in between. */
  ghost function Compacted(w: World, end: Rev, acts: seq<Action>): World {
    Play(Apply(w, Compact(end)), acts)
  }

  /** Its batches have left nothing pending. */
  ghost predicate Finishes(w: World, end: Rev, acts: seq<Action>) {
    var w' := Compacted(w, end, acts);
    Batches(acts, |w.runs|) && |w.runs| < |w'.runs| && Pending(w'.db, w'.runs[|w.runs|].cursor, end) == {}
  }

  ghost predicate Survives(h: map<Rev, Entry>, end: Rev, r: Rev) {
    r > end || (Newest(h, r) && Live(h[r]))
  }

  /** Run `i` so far: what it has passed over survives, what survives is still there, and its marks are within `end`. */
  ghost predicate Judged(w: World, w': World, i: nat, end: Rev) {
    && i < |w'.runs| && w'.runs[i].end == end
    && w'.hist == w.hist && w'.db.current == w.db.current && w'.db.latest == w.db.latest
    && (forall r: Rev :: r in w'.db.log ==> r in w.db.log && w'.db.log[r] == w.db.log[r])
    && (forall r: Rev :: r in w.db.log && Survives(w.hist, end, r) ==> r in w'.db.log)
    && (forall r: Rev :: r in w'.db.log && r <= w'.runs[i].cursor ==> Survives(w.hist, end, r))
    && ((w'.db == w.db && w'.runs[i].cursor == 0) || w'.db.watermark <= end)
  }

  lemma BatchKeepsRun(w: World, i: nat, budget: nat, advance: bool)
    requires StoreOk(w) && i < |w.runs| && RunOk(w, Clipped(w, w.runs[i]))
    ensures var w' := Apply(w, Batch(i, budget, advance));
      StoreOk(w') && |w'.runs| == |w.runs| && RunOk(w', Clipped(w', w'.runs[i]))
  {
    hide StoreOk, RunOk, CompactScan;
    var run, w' := w.runs[i], Apply(w, Batch(i, budget, advance));
    var s := CompactScan(w.db, run.cursor, run.end, budget);
    var w1 := w.(db := s.db);
    ScanClipped(w, run, budget);
    ScanKeeps(w, Clipped(w, run), budget);
    ShrinkRunOk(w, s.db, Clipped(w, run));
    NewWatermark(w1, s.cursor);
    OnlyRuns(w.(db := w'.db), w');
  }

  /** One batch judges what it scans. */
  lemma BatchJudges(w: World, w1: World, i: nat, end: Rev, budget: nat, advance: bool)
    requires StoreOk(w1) && Judged(w, w1, i, end) && RunOk(w1, Clipped(w1, w1.runs[i]))
    ensures Judged(w, Apply(w1, Batch(i, budget, advance)), i, end)
  {
    hide StoreOk, RunOk, CompactScan, Removes;
    var run, w2 := w1.runs[i], Apply(w1, Batch(i, budget, advance));
    ScanClipped(w1, run, budget);
    ScanKeeps(w1, Clipped(w1, run), budget);
    ScanExhausts(w1.db, run.cursor, end, budget);
    forall r: Rev | r in w1.db.log
      ensures r in w2.db.log <==>
              r <= run.cursor || r > CompactScan(w1.db, run.cursor, end, budget).cursor
              || (Newest(w.hist, r) && Live(w.hist[r]))
    {
      ScanEffect(w1, Clipped(w1, run), budget, r);
      Verdict(w1, r);
    }
  }

  lemma {:induction false} BatchesJudge(w: World, w1: World, i: nat, end: Rev, acts: seq<Action>)
    requires StoreOk(w1) && Judged(w, w1, i, end) && RunOk(w1, Clipped(w1, w1.runs[i])) && Batches(acts, i)
    ensures Judged(w, Play(w1, acts), i, end)
    decreases |acts|
  {
    hide StoreOk, RunOk, Judged, Apply, Clipped;
    if acts != [] {
      assert i < |w1.runs| by { JudgedRun(w, w1, i, end); }
      BatchKeepsRun(w1, i, acts[0].budget, acts[0].advance);
      BatchJudges(w, w1, i, end, acts[0].budget, acts[0].advance);
      BatchesJudge(w, Apply(w1, acts[0]), i, end, acts[1..]);
    }
  }

  lemma JudgedRun(w: World, w': World, i: nat, end: Rev)
    requires Judged(w, w', i, end)
    ensures i < |w'.runs| && w'.runs[i].end == end
  {
  }

  /**
   * Compaction to any end, in whatever batches and repetitions, keeps exactly the records above `end` and the newest
   * live record of each key, once nothing is pending.
   */
  lemma CompactedLog(w: World, end: Rev, acts: seq<Action>)
    requires StoreOk(w) && Finishes(w, end, acts)
    ensures var db' := Compacted(w, end, acts).db;
      && (forall r: Rev :: r in db'.log <==> r in w.db.log && (r > end || (Newest(w.hist, r) && Live(w.hist[r]))))
      && (forall r: Rev :: r in db'.log ==> db'.log[r] == w.db.log[r])
      && db'.current == w.db.current && db'.latest == w.db.latest
      && (Pending(w.db, 0, end) != {} ==> db'.watermark <= end)
  {
    hide StoreOk, RunOk, Newest;
    var w1, i := Apply(w, Compact(end)), |w.runs|;
    OnlyRuns(w, w1);
    BeginsJudged(w, end);
    BatchesJudge(w, w1, i, end, acts);
    var w' := Compacted(w, end, acts);
    var cursor := w'.runs[i].cursor;
    var pending := Pending(w'.db, cursor, end);
    forall r: Rev | r in w'.db.log ensures Survives(w.hist, end, r) {
      assert cursor < r <= end ==> r in pending;
    }
  }

  lemma BeginsJudged(w: World, end: Rev)
    requires StoreOk(w)
    ensures Judged(w, Apply(w, Compact(end)), |w.runs|, end) && RunOk(w, Clipped(w, Run(end, 0)))
  {
    forall r: Rev | r in w.db.log ensures r > 0 { Verdict(w, r); }
  }

  lemma Verdict(w: World, r: Rev)
    requires StoreOk(w) && r in w.db.log
    ensures Removes(w.db, r) <==> !(Newest(w.hist, r) && Live(w.hist[r]))
    ensures 1 <= r <= w.db.latest
  {
    LastIsNewest(w, w.db.log[r].key);
    LastNeverMissing(w.db, r);
  }

  /** What is left of a key once its newest record at or below `at` has been removed: nothing at or below `at`. */
  lemma AllOrNothing(w: World, end: Rev, log': map<Rev, Entry>, key: Key, at: Rev, top: Rev)
    requires forall r: Rev :: r in log' <==> r in w.db.log && (r > end || (Newest(w.hist, r) && Live(w.hist[r])))
    requires forall r: Rev :: r in log' ==> log'[r] == w.db.log[r]
    requires forall r: Rev :: r in w.db.log ==> r in w.hist && w.hist[r] == w.db.log[r]
    requires top in Upto(w.db.log, key, at) && forall r :: r in Upto(w.db.log, key, at) ==> r <= top
    ensures top in log' ==> View(log', key, at) == View(w.db.log, key, at)
    ensures top !in log' ==> top <= end && View(log', key, at) == None
  {
    ViewIs(w.db.log, key, at, top);
    assert forall r :: r in Upto(log', key, at) ==> r in Upto(w.db.log, key, at);
    if top <= end {
      forall r: Rev | r in Upto(log', key, at) ensures r == top {
        assert r in log' && Newest(w.hist, r) && w.hist[r].key == key && w.hist[top].key == key;
      }
    }
    if top in log' {
      ViewIs(log', key, at, top);
    } else {
      assert Upto(log', key, at) == {};
    }
  }

  /**
   * The exact effect on readers. A read of `key` pinned at `at` is unchanged when the key's newest record is
   * at or below `at`, or when the record it answers from is above `end`; otherwise the key is gone from it.
   */
  lemma CompactionView(w: World, end: Rev, acts: seq<Action>, key: Key, at: Rev)
    requires StoreOk(w) && Finishes(w, end, acts)
    ensures View(Compacted(w, end, acts).db.log, key, at) ==
      if (exists r: Rev :: Newest(w.hist, r) && w.hist[r].key == key && r <= at)
         || (exists r: Rev :: r in Upto(w.db.log, key, at) && r > end)
      then View(w.db.log, key, at) else None
  {
    hide Chained, UniqueUuids, CurrentOk, Mirrored, Finishes, Compacted, View;
    var log, log' := w.db.log, Compacted(w, end, acts).db.log;
    CompactedLog(w, end, acts);
    var revs := Upto(log, key, at);
    if revs == {} {
      NoView(log, log', key, at);
    } else {
      var top := MaxOf(revs);
      AllOrNothing(w, end, log', key, at, top);
      if top !in log' {
        if r: Rev :| Newest(w.hist, r) && w.hist[r].key == key && r <= at {
          TopIsNewest(w, key, at, top, r);
          assert View(log, key, at) == None by { ViewIs(log, key, at, top); }
        }
      } else if top <= end {
        assert Newest(w.hist, top);
      }
    }
  }

  lemma NoView(log: map<Rev, Entry>, log': map<Rev, Entry>, key: Key, at: Rev)
    requires forall r: Rev :: r in log' ==> r in log && log'[r] == log[r]
    requires Upto(log, key, at) == {}
    ensures View(log, key, at) == None && View(log', key, at) == None
  {
    assert forall r :: r in Upto(log', key, at) ==> r in Upto(log, key, at);
  }

  lemma TopIsNewest(w: World, key: Key, at: Rev, top: Rev, r: Rev)
    requires Faithful(w) && Retained(w)
    requires top in Upto(w.db.log, key, at) && forall s :: s in Upto(w.db.log, key, at) ==> s <= top
    requires Newest(w.hist, r) && w.hist[r].key == key && r <= at
    ensures r == top
  {
    assert top in w.hist && top <= r;
    assert top < r ==> r in w.db.log;
    assert r in w.db.log ==> r in Upto(w.db.log, key, at);
  }

  /**
   * A finished run, whatever interleaved with it, leaves at most one record per key up to its end, and no tombstone.
   */
  lemma FinishedRun(w: World, i: nat, r: Rev)
    requires Inv(w) && i < |w.runs| && Pending(w.db, w.runs[i].cursor, w.runs[i].end) == {}
    requires r in w.db.log && r <= w.runs[i].end
    ensures Live(w.db.log[r])
    ensures forall s: Rev :: s in w.db.log && s <= w.runs[i].end && w.db.log[s].key == w.db.log[r].key ==> s == r
  {
    hide StoreOk;
    var run := w.runs[i];
    assert RunOk(w, run);
    assert forall s: Rev :: s in w.db.log && run.cursor < s <= run.end ==> s in Pending(w.db, run.cursor, run.end);
  }

  // ---------------------------------------------------------------- reads at the latest revision

  /** In every reachable state, a read at the latest revision sees exactly what a full history would show. */
  lemma LatestViewIsFull(w: World, key: Key, at: Rev)
    requires StoreOk(w) && at >= w.db.latest
    ensures View(w.db.log, key, at) == View(w.hist, key, at)
  {
    hide Chained, UniqueUuids, CurrentOk, Mirrored;
    var revs, all := Upto(w.db.log, key, at), Upto(w.hist, key, at);
    assert forall r :: r in revs ==> r in all;
    if all != {} {
      var top := MaxOf(all);
      assert forall s: Rev :: s in w.hist && w.hist[s].key == key ==> s in all;
      assert Newest(w.hist, top);
      if top in w.db.log {
        assert top in revs;
        ViewIs(w.db.log, key, at, top);
        ViewIs(w.hist, key, at, top);
      } else {
        forall r | r in revs ensures r == top { assert r <= top; }
        assert revs == {};
      }
    }
  }

  /** No compaction batch, of any run, ever changes a latest read, the current-value rows or the read version. */
  lemma BatchKeepsLatest(w: World, i: nat, budget: nat, advance: bool, key: Key, at: Rev)
    requires Inv(w) && at >= w.db.latest
    ensures var w' := Apply(w, Batch(i, budget, advance));
      && View(w'.db.log, key, at) == View(w.db.log, key, at)
      && w'.db.current == w.db.current && w'.db.latest == w.db.latest
  {
    hide StoreOk, RunOk, View, CompactScan;
    var w' := Apply(w, Batch(i, budget, advance));
    BatchKeepsInv(w, i, budget, advance);
    if i < |w.runs| {
      assert RunOk(w, w.runs[i]);
      ScanKeeps(w, w.runs[i], budget);
    }
    LatestViewIsFull(w, key, at);
    LatestViewIsFull(w', key, at);
  }

  // ---------------------------------------------------------------- the watermark

  /** A scan leaves alone what lies outside the range it has passed over. */
  lemma {:induction false} ScanWithin(db: Db, cursor: Rev, end: Rev, budget: nat, x: Rev)
    requires x in db.log
    ensures var s := CompactScan(db, cursor, end, budget); x in s.db.log || cursor < x <= s.cursor
    decreases budget
  {
    var pending := Pending(db, cursor, end);
    if budget > 0 && pending != {} {
      var r := MinOf(pending);
      var db1 := CompactOne(db, r);
      ScanExhausts(db1, r, end, budget - 1);
      if x in db1.log { ScanWithin(db1, r, end, budget - 1, x); }
    }
  }

  /**
   * In any state, a batch that scans anything writes a watermark above its run's cursor and removes nothing above it.
   */
  lemma BatchWatermark(w: World, i: nat, budget: nat, advance: bool)
    requires i < |w.runs|
    ensures var w' := Apply(w, Batch(i, budget, advance));
      var c := w.runs[i].cursor;
      || (w'.db == w.db && w'.runs == w.runs)
      || (&& c < w'.db.watermark <= w.runs[i].end
          && (advance ==> w'.runs[i].cursor == w'.db.watermark)
          && forall r: Rev :: r in w.db.log && r !in w'.db.log ==> c < r <= w'.db.watermark)
  {
    hide CompactScan;
    var run := w.runs[i];
    ScanExhausts(w.db, run.cursor, run.end, budget);
    forall r: Rev | r in w.db.log ensures r in CompactScan(w.db, run.cursor, run.end, budget).db.log
                                       || run.cursor < r <= CompactScan(w.db, run.cursor, run.end, budget).cursor
    {
      ScanWithin(w.db, run.cursor, run.end, budget, r);
    }
    assert w.runs[i := run.(cursor := run.cursor)] == w.runs;
  }

  /** Only run `i` commits batches, and never commits one it then repeats. */
  predicate Solo(acts: seq<Action>, i: nat) {
    forall j :: 0 <= j < |acts| && acts[j].Batch? ==> acts[j].run == i && acts[j].advance
  }

  lemma OthersKeepLog(w: World, act: Action)
    requires !act.Batch?
    ensures var w' := Apply(w, act);
      && w'.db.watermark == w.db.watermark && w.runs <= w'.runs
      && forall r: Rev :: r in w.db.log ==> r in w'.db.log
  {
  }

  /**
   * Over a whole run, whatever else interleaves: the watermark only moves with the run's cursor, so the
   * marks it writes strictly increase, and everything the run has removed lies at or below the last mark.
   */
  lemma {:induction false} WatermarkCoversRun(w: World, acts: seq<Action>, i: nat)
    requires i < |w.runs| && Solo(acts, i)
    ensures var w' := Play(w, acts);
      && i < |w'.runs| && w.runs[i].cursor <= w'.runs[i].cursor
      && (w'.runs[i].cursor == w.runs[i].cursor ==> w'.db.watermark == w.db.watermark)
      && (w'.runs[i].cursor > w.runs[i].cursor ==> w'.db.watermark == w'.runs[i].cursor)
      && forall r: Rev :: r in w.db.log && r !in w'.db.log ==> w.runs[i].cursor < r <= w'.runs[i].cursor
    decreases |acts|
  {
    hide Apply;
    if acts != [] {
      var w1 := Apply(w, acts[0]);
      if acts[0].Batch? { BatchWatermark(w, i, acts[0].budget, true); AdvancedRuns(w, i, acts[0].budget); }
      else { OthersKeepLog(w, acts[0]); }
      assert Solo(acts[1..], i);
      WatermarkCoversRun(w1, acts[1..], i);
    }
  }

  lemma AdvancedRuns(w: World, i: nat, budget: nat)
    requires i < |w.runs|
    ensures |Apply(w, Batch(i, budget, true)).runs| == |w.runs|
  {
  }

  ghost function Below(revs: set<Rev>, bound: Rev): set<Rev> {
    set r | r in revs && r < bound
  }

  /** How far a scan with this budget reaches: over the lowest of the pending records. */
  lemma {:induction false} ScanReaches(db: Db, cursor: Rev, end: Rev, budget: nat)
    requires budget > 0 && Pending(db, cursor, end) != {}
    ensures var pending, last := Pending(db, cursor, end), CompactScan(db, cursor, end, budget).cursor;
      last in pending && |Below(pending, last + 1)| == Min(budget, |pending|)
    decreases budget
  {
    var pending := Pending(db, cursor, end);
    var r := MinOf(pending);
    var rest := Pending(CompactOne(db, r), r, end);
    assert rest == pending - {r} && |rest| == |pending| - 1;
    var last := CompactScan(db, cursor, end, budget).cursor;
    if budget == 1 || rest == {} {
      assert CompactScan(CompactOne(db, r), r, end, budget - 1).cursor == r == last;
      assert Below(pending, last + 1) == {r};
    } else {
      ScanReaches(CompactOne(db, r), r, end, budget - 1);
      assert Below(pending, last + 1) == {r} + Below(rest, last + 1);
    }
  }

  /**
   * Exactly when a batch, first or repeated, lowers the watermark: all it scans lies below it, and it scans something.
   */
  lemma WatermarkFallsIff(w: World, i: nat, budget: nat, advance: bool)
    requires i < |w.runs|
    ensures var pending := Pending(w.db, w.runs[i].cursor, w.runs[i].end);
      Apply(w, Batch(i, budget, advance)).db.watermark < w.db.watermark <==>
      0 < Min(budget, |pending|) <= |Below(pending, w.db.watermark)|
  {
    var run, mark := w.runs[i], w.db.watermark;
    var pending, s := Pending(w.db, run.cursor, run.end), CompactScan(w.db, run.cursor, run.end, budget);
    var below := Below(pending, mark);
    SameMark(w.db, run.cursor, run.end, budget);
    ScanExhausts(w.db, run.cursor, run.end, budget);
    if budget > 0 && pending != {} {
      ScanReaches(w.db, run.cursor, run.end, budget);
      var scanned := Below(pending, s.cursor + 1);
      assert |scanned| == Min(budget, |pending|) && s.cursor in scanned && |pending - {s.cursor}| == |pending| - 1;
      if s.cursor < mark { SubsetSize(scanned, below); }
      else { SubsetSize(below, scanned - {s.cursor}); }
    }
  }

  lemma {:induction false} SameMark(db: Db, cursor: Rev, end: Rev, budget: nat)
    ensures CompactScan(db, cursor, end, budget).db.watermark == db.watermark
    decreases budget
  {
    if budget > 0 && Pending(db, cursor, end) != {} {
      SameMark(CompactOne(db, MinOf(Pending(db, cursor, end))), MinOf(Pending(db, cursor, end)), end, budget - 1);
    }
  }

  // ---------------------------------------------------------------- when a run may begin

  /** A key whose history ends in a tombstone but which readers and writers find live. */
  ghost predicate Resurrected(w: World, key: Key) {
    && GetLast(w.db, key).Some? && !GetLast(w.db, key).value.entry.meta.isDelete
    && exists r: Rev :: Newest(w.hist, r) && w.hist[r].key == key && w.hist[r].meta.isDelete
  }

  lemma ResurrectedIsBroken(w: World, key: Key)
    requires Resurrected(w, key)
    ensures !StoreOk(w)
  {
    if StoreOk(w) { LastIsNewest(w, key); }
  }

  /** A full scan to an end above the read version keeps the live record and passes everything. */
  lemma FirstScan(w: World, end: Rev, r0: Rev)
    requires StoreOk(w) && end > w.db.latest && Newest(w.hist, r0) && Live(w.hist[r0])
    ensures var s := CompactScan(w.db, 0, end, |w.db.log|);
      && StoreOk(w.(db := s.db)) && s.db.latest == w.db.latest && s.cursor <= w.db.latest
      && r0 in s.db.log && forall r: Rev :: r in s.db.log ==> r <= s.cursor
  {
    hide Chained, UniqueUuids, CurrentOk, Mirrored, Removes, CompactScan, NothingLive;
    var safe, budget := Run(w.db.latest, 0), |w.db.log|;
    ScanToLatest(w.db, 0, end, budget);
    assert RunOk(w, safe);
    ScanKeeps(w, safe, budget);
    PendingSize(w.db, 0, end);
    ScanExhausts(w.db, 0, end, budget);
    ScanExhausts(w.db, 0, w.db.latest, budget);
    ScanEffect(w, safe, budget, r0);
    Verdict(w, r0);
    var s := CompactScan(w.db, 0, end, budget);
    forall r: Rev | r in s.db.log ensures r <= s.cursor {
      assert r in w.db.log && r in Pending(w.db, 0, end);
    }
  }

  lemma FirstBatch(w: World, i: nat, r0: Rev)
    requires StoreOk(w) && i < |w.runs| && w.runs[i].cursor == 0 && w.runs[i].end > w.db.latest
    requires Newest(w.hist, r0) && Live(w.hist[r0])
    ensures var w1 := Apply(w, Batch(i, |w.db.log|, true));
      && StoreOk(w1) && w1.hist == w.hist && w1.db.latest == w.db.latest && |w1.runs| == |w.runs|
      && w1.runs[i].end == w.runs[i].end && w1.runs[i].cursor <= w.db.latest
      && r0 in w1.db.log && forall r: Rev :: r in w1.db.log ==> r <= w1.runs[i].cursor
  {
    hide StoreOk, CompactScan, RunOk;
    var s := CompactScan(w.db, 0, w.runs[i].end, |w.db.log|);
    FirstScan(w, w.runs[i].end, r0);
    NewWatermark(w.(db := s.db), s.cursor);
    var w1 := Apply(w, Batch(i, |w.db.log|, true));
    OnlyRuns(w.(db := w1.db), w1);
  }

  /** The old record is the newest the index has again; nothing else about it has changed. */
  ghost predicate Back(w: World, w': World, k: Key, r0: Rev) {
    && w'.hist == w.hist && w'.db.latest == w.db.latest && w'.nextUuid == w.nextUuid
    && r0 in w.db.log && r0 in w'.db.log && w'.db.log[r0] == w.db.log[r0]
    && GetLast(w'.db, k).Some? && GetLast(w'.db, k).value.rev == r0
    && GetLast(w'.db, k).value.entry.meta == w.db.log[r0].meta
  }

  /** The batch that follows a delete: it removes the tombstone and nothing else. */
  lemma SecondBatch(w: World, i: nat, k: Key, r0: Rev, n: Rev)
    requires StoreOk(w) && i < |w.runs| && w.runs[i].cursor < n <= w.runs[i].end
    requires Newest(w.hist, n) && w.hist[n].key == k && w.hist[n].meta.isDelete && n in w.db.log
    requires r0 in w.db.log && w.db.log[r0].key == k && Live(w.db.log[r0]) && r0 != n
    requires forall r: Rev :: r in w.db.log && r != n ==> r <= w.runs[i].cursor
    requires w.hist[n].meta.prevRev == r0
    ensures Resurrected(Apply(w, Batch(i, 1, true)), k)
    ensures Back(w, Apply(w, Batch(i, 1, true)), k, r0)
  {
    hide Retained, UniqueUuids, CurrentOk;
    var run := w.runs[i];
    assert Pending(w.db, run.cursor, run.end) == {n};
    var db' := CompactOne(w.db, n);
    assert CompactScan(w.db, run.cursor, run.end, 1) == CompactScan(db', n, run.end, 0);
    var w' := Apply(w, Batch(i, 1, true));
    assert w'.db == db'.(watermark := n);
    assert Pos(k, r0) in db'.index && w.db.index[Pos(k, r0)].meta == w.db.log[r0].meta;
    assert Linked(w.hist, n);
    forall m: nat | Pos(k, m) in w'.db.index ensures m <= r0 {
      assert Pos(k, m) in w.db.index && m in w.hist && w.hist[m].key == k;
    }
    GetLastIs(w'.db, k, r0);
    assert Newest(w'.hist, n);
  }

  /** A run whose end lies above the read version, a live key, and one delete at the wrong moment. */
  lemma Resurrect(w: World, i: nat, r0: Rev)
    requires StoreOk(w) && i < |w.runs| && w.runs[i].cursor == 0 && w.runs[i].end > w.db.latest
    requires Newest(w.hist, r0) && Live(w.hist[r0])
    ensures var acts := [Batch(i, |w.db.log|, true), Write(DeleteOp(w.hist[r0].key, 0)), Batch(i, 1, true)];
      Resurrected(Play(w, acts), w.hist[r0].key) && TameRun(w, acts)
  {
    hide Mirrored, Retained, Chained, UniqueUuids, CurrentOk, Commit, Apply, Resurrected, Play, TameRun;
    var k := w.hist[r0].key;
    var op := DeleteOp(k, 0);
    var a1, a2, a3 := Batch(i, |w.db.log|, true), Write(op), Batch(i, 1, true);
    var w1 := Apply(w, a1);
    FirstBatch(w, i, r0);
    var a := DeleteLive(w1, k, r0);
    Committed(w1, a);
    SecondBatch(Commit(w1, a), i, k, r0, w1.db.latest + 1);
    PlayThree(w, a1, a2, a3);
  }

  lemma PlayThree(w: World, a: Action, b: Action, c: Action)
    ensures Play(w, [a, b, c]) == Apply(Apply(Apply(w, a), b), c)
    ensures !a.Compact? && !b.Compact? && !c.Compact? ==> TameRun(w, [a, b, c])
  {
    hide Apply;
    assert [a, b, c][1..] == [b, c] && [b, c][1..] == [c] && [c][1..] == [];
    var w1, w2, w3 := Apply(w, a), Apply(Apply(w, a), b), Apply(Apply(Apply(w, a), b), c);
    assert Play(w2, [c]) == Play(w3, []) == w3;
    assert Play(w1, [b, c]) == Play(w2, [c]);
    assert Play(w, [a, b, c]) == Play(w1, [b, c]);
    assert TameRun(Apply(Apply(Apply(w, a), b), c), []);
    assert !c.Compact? ==> TameRun(Apply(Apply(w, a), b), [c]);
    assert !b.Compact? && !c.Compact? ==> TameRun(Apply(w, a), [b, c]);
  }

  /** The record just committed is the newest of its key; the rest of the log is as before. */
  lemma Committed(w: World, a: Appending)
    requires Faithful(w)
    ensures var w' := Commit(w, a);
      var n := w.db.latest + 1;
      && w'.runs == w.runs && w'.db.latest == n
      && n in w'.hist && w'.hist[n] == a.entry && Newest(w'.hist, n) && n in w'.db.log && w'.db.log[n] == a.entry
      && (forall r: Rev :: r in w'.db.log && r != n ==> r in w.db.log)
      && (forall r: Rev :: r in w.db.log ==> r in w'.db.log && w'.db.log[r] == w.db.log[r] && r < n)
  {
    hide CurrentAfter;
  }

  lemma DeleteLive(w: World, k: Key, r0: Rev) returns (a: Appending)
    requires StoreOk(w) && Newest(w.hist, r0) && w.hist[r0].key == k && Live(w.hist[r0])
    ensures Apply(w, Write(DeleteOp(k, 0))) == Commit(w, a) && StoreOk(Commit(w, a))
    ensures a.entry.key == k && a.entry.meta.isDelete && a.entry.meta.prevRev == r0 && r0 in w.db.log
  {
    hide Chained, UniqueUuids, CurrentOk, Commit;
    LastIsNewest(w, k);
    var op := DeleteOp(k, 0);
    a := Decide(w.db, op).value;
    DecideFits(w, op);
    CommitStoreOk(w, a);
  }

  lemma CreateDead(w: World, k: Key) returns (a: Appending)
    requires StoreOk(w) && NothingLive(w)
    ensures Apply(w, Write(CreateOp(k, [], 0))) == Commit(w, a) && StoreOk(Commit(w, a)) && Live(a.entry)
  {
    hide Chained, UniqueUuids, CurrentOk, Commit;
    LastIsNewest(w, k);
    var op := CreateOp(k, [], 0);
    a := Decide(w.db, op).value;
    DecideFits(w, op);
    CommitStoreOk(w, a);
  }

  /**
   * When Compact(end) may begin. It keeps the store invariant under every interleaving of writers, other safe
   * compactions and repeated batches if and only if `end` does not pass the read version (or passes it by one
   * while nothing is live). Otherwise some interleaving brings a deleted key back.
   */
  lemma CompactionSafeIff(w: World, end: Rev)
    requires Inv(w)
    ensures SafeEnd(w, end) <==>
      forall acts :: TameRun(Apply(w, Compact(end)), acts) ==> StoreOk(Play(Apply(w, Compact(end)), acts))
  {
    hide StoreOk, RunOk, NothingLive, Tame, Play, TameRun;
    var w' := Apply(w, Compact(end));
    if SafeEnd(w, end) {
      CompactKeepsInv(w, end);
      forall acts | TameRun(w', acts) ensures StoreOk(Play(w', acts)) {
        RunsKeepInv(w', acts);
      }
    } else {
      var acts := UnsafeRun(w, end);
    }
  }

  lemma UnsafeRun(w: World, end: Rev) returns (acts: seq<Action>)
    requires Inv(w) && !SafeEnd(w, end)
    ensures TameRun(Apply(w, Compact(end)), acts) && !StoreOk(Play(Apply(w, Compact(end)), acts))
    ensures exists key :: Resurrected(Play(Apply(w, Compact(end)), acts), key)
  {
    hide StoreOk, RunOk, Resurrected, TameRun, Play;
    var w', i := Apply(w, Compact(end)), |w.runs|;
    OnlyRuns(w, w');
    if r0: Rev :| Newest(w.hist, r0) && Live(w.hist[r0]) {
      acts := [Batch(i, |w'.db.log|, true), Write(DeleteOp(w'.hist[r0].key, 0)), Batch(i, 1, true)];
      Resurrect(w', i, r0);
      ResurrectedIsBroken(Play(w', acts), w'.hist[r0].key);
    } else {
      SameHistory(w, w');
      acts := UnsafeFromNothing(w', i);
    }
  }

  /** With nothing live yet, a key is created first. */
  lemma UnsafeFromNothing(w: World, i: nat) returns (acts: seq<Action>)
    requires StoreOk(w) && NothingLive(w) && i < |w.runs| && w.runs[i].cursor == 0 && w.runs[i].end > w.db.latest + 1
    ensures TameRun(w, acts) && !StoreOk(Play(w, acts)) && exists key :: Resurrected(Play(w, acts), key)
  {
    hide Mirrored, Retained, Chained, UniqueUuids, CurrentOk, RunOk, CompactScan, Resurrected, Decide, Commit;
    var a := CreateDead(w, []);
    Committed(w, a);
    var create := Write(CreateOp([], [], 0));
    var w1, n := Apply(w, create), w.db.latest + 1;
    var rest := [Batch(i, |w1.db.log|, true), Write(DeleteOp(w1.hist[n].key, 0)), Batch(i, 1, true)];
    Resurrect(w1, i, n);
    acts := [create] + rest;
    assert acts[1..] == rest;
    ResurrectedIsBroken(Play(w, acts), w1.hist[n].key);
  }

  // ---------------------------------------------------------------- what compaction does not promise

  /** Two keys, the second of them deleted: revisions 2, 3 and 4. */
  function TwoKeys(): World {
    Play(Init(1), [Write(CreateOp([97], [], 0)), Write(CreateOp([98], [], 0)), Write(DeleteOp([98], 0))])
  }

  lemma TwoKeysLog()
    ensures Inv(TwoKeys())
    ensures TwoKeys().db.latest == 4 && TwoKeys().db.watermark == 0
    ensures TwoKeys().db.log == map[
      2 := Entry([97], Meta(true, false, 0, 0, 0, 0), []),
      3 := Entry([98], Meta(true, false, 0, 0, 0, 0), []),
      4 := Entry([98], Meta(false, true, 0, 3, 3, 0), [])]
    ensures TwoKeys().hist == TwoKeys().db.log && TwoKeys().runs == []
  {
    hide Inv, Tame, CurrentAfter;
    var a1, a2, a3 := Write(CreateOp([97], [], 0)), Write(CreateOp([98], [], 0)), Write(DeleteOp([98], 0));
    var w0 := Init(1);
    PlayThree(w0, a1, a2, a3);
    InitInv(1);
    RunsKeepInv(w0, [a1, a2, a3]);
    var w1 := Apply(w0, a1);
    assert w1.db.index.Keys == {Pos([97], 2)};
    var w2 := Apply(w1, a2);
    assert GetLast(w1.db, [98]).None?;
    GetLastIs(w2.db, [98], 3);
  }

  /** What a scan of three makes of them: one record is left. */
  lemma TwoKeysLeft()
    ensures var s := CompactScan(TwoKeys().db, 0, 4, 3);
      s.db.log == map[2 := Entry([97], Meta(true, false, 0, 0, 0, 0), [])] && s.cursor == 4
  {
    hide RunOk, StoreOk, TwoKeys, CompactScan, Removes;
    var w, run := TwoKeys(), Run(4, 0);
    var s := CompactScan(w.db, 0, 4, 3);
    TwoKeysLog();
    assert Pending(w.db, 0, 4) == {2, 3, 4};
    ScanExhausts(w.db, 0, 4, 3);
    assert RunOk(w, run) by { BeginsJudged(w, 4); }
    ScanKeeps(w, run, 3);
    assert Newest(w.hist, 2) && !Newest(w.hist, 3) by { assert w.hist[4].key == w.hist[3].key; }
    forall r: Rev | r in w.db.log ensures r in s.db.log <==> r == 2 {
      ScanEffect(w, run, 3, r);
      Verdict(w, r);
    }
  }

  /** A batch of three, from the beginning and to the end: the mark is 4. */
  lemma TwoKeysScanned(advance: bool)
    ensures var w := Play(TwoKeys(), [Compact(4), Batch(0, 3, advance)]);
      && w.db.log == map[2 := Entry([97], Meta(true, false, 0, 0, 0, 0), [])] && w.db.watermark == 4
      && w.runs == [Run(4, if advance then 4 else 0)]
  {
    hide RunOk, StoreOk, TwoKeys, CompactScan;
    TwoKeysLog();
    TwoKeysLeft();
    PlayTwo(TwoKeys(), Compact(4), Batch(0, 3, advance));
  }

  /**
   * The watermark does not stay up. A batch whose reply is lost is repeated, and lowers it from 4 to 2; so does a
   * second Compact(4). A read of the deleted key pinned at 3, which the watermark then admits, finds nothing where
   * there was a value.
   */
  lemma RepetitionLowersMark()
    ensures var w, b := TwoKeys(), Batch(0, 3, true);
      var once, lost := Play(w, [Compact(4), b]), Play(w, [Compact(4), Batch(0, 3, false)]);
      var repeated, again := Play(lost, [b]), Play(once, [Compact(4), Batch(1, 3, true)]);
      && once.db.watermark == 4 && lost.db.watermark == 4 && repeated.db.watermark == 2 && again.db.watermark == 2
      && View(w.db.log, [98], 3) == Some(3)
      && View(repeated.db.log, [98], 3) == None && View(again.db.log, [98], 3) == None
  {
    hide TwoKeys, CompactScan, View, Play, Inv;
    var w, b := TwoKeys(), Batch(0, 3, true);
    var once, lost := Play(w, [Compact(4), b]), Play(w, [Compact(4), Batch(0, 3, false)]);
    TwoKeysLog();
    ViewIs(w.db.log, [98], 3, 3);
    TwoKeysScanned(true);
    TwoKeysScanned(false);
    MarkedTwo(lost, 0);
    PlayOne(lost, b);
    MarkedTwo(Apply(once, Compact(4)), 1);
    PlayTwo(once, Compact(4), Batch(1, 3, true));
  }

  lemma MarkedTwo(w: World, i: nat)
    requires i < |w.runs| && w.runs[i] == Run(4, 0) && w.db.log.Keys == {2} && w.db.log[2].key == [97]
    ensures var w' := Apply(w, Batch(i, 3, true));
      w'.db.watermark == 2 && View(w'.db.log, [98], 3) == None
  {
    hide CompactScan;
    assert Pending(w.db, 0, 4) == {2};
    ScanExhausts(w.db, 0, 4, 3);
    OnlyLess(w.db, 0, 4, 3);
    assert Upto(Apply(w, Batch(i, 3, true)).db.log, [98], 3) == {};
  }

  lemma {:induction false} OnlyLess(db: Db, cursor: Rev, end: Rev, budget: nat)
    ensures forall r: Rev :: r in CompactScan(db, cursor, end, budget).db.log ==>
              r in db.log && CompactScan(db, cursor, end, budget).db.log[r] == db.log[r]
    decreases budget
  {
    if budget > 0 && Pending(db, cursor, end) != {} {
      OnlyLess(CompactOne(db, MinOf(Pending(db, cursor, end))), MinOf(Pending(db, cursor, end)), end, budget - 1);
    }
  }

  lemma PlayTwo(w: World, a: Action, b: Action)
    ensures Play(w, [a, b]) == Apply(Apply(w, a), b)
    ensures !a.Compact? && !b.Compact? ==> TameRun(w, [a, b])
  {
    hide Apply;
    assert [a, b][1..] == [b];
    PlayOne(Apply(w, a), b);
    assert Play(w, [a, b]) == Play(Apply(w, a), [b]);
    assert TameRun(Apply(w, a), [b]) && Tame(w, a) ==> TameRun(w, [a, b]);
  }

  /**
   * A single compaction, in any batches, already loses pinned reads at its own watermark: the newest record at or below
   * it goes.
   */
  lemma PinnedReadLost(w: World, acts: seq<Action>, key: Key, at: Rev)
    requires StoreOk(w) && View(w.db.log, key, at).Some? && Finishes(w, at, acts)
    requires forall r: Rev {:trigger Newest(w.hist, r)} :: Newest(w.hist, r) && w.hist[r].key == key ==> r > at
    ensures View(Compacted(w, at, acts).db.log, key, at) == None && Compacted(w, at, acts).db.watermark <= at
  {
    hide StoreOk, View, Compacted, Finishes;
    CompactionView(w, at, acts, key, at);
    CompactedLog(w, at, acts);
    assert View(w.db.log, key, at).Some? ==> Pending(w.db, 0, at) != {} by { SomePending(w, key, at); }
  }

  lemma SomePending(w: World, key: Key, at: Rev)
    requires StoreOk(w) && View(w.db.log, key, at).Some?
    ensures Pending(w.db, 0, at) != {}
  {
    var r := View(w.db.log, key, at).value;
    assert r in Upto(w.db.log, key, at) && r in w.hist;
    assert r in Pending(w.db, 0, at);
  }

  // ---------------------------------------------------------------- the compactor itself

  /** What happens around one batch: other actors first, then at least one `next`, then perhaps a lost reply. */
  datatype Turn = Turn(others: seq<Action>, extra: nat, lost: bool)

  predicate Alone(plan: seq<Turn>) {
    forall t :: 0 <= t < |plan| ==> plan[t].others == []
  }

  class CompactProcessor {
    var db: Db                 // the contents as the open transaction sees them, its own writes included
    var batchCompacted: Rev    // 0 is the dummy versionstamp

    constructor (db: Db)
      ensures this.db == db && batchCompacted == 0
    {
      this.db := db;
      batchCompacted := 0;
    }

    method StartBatch(db: Db)
      modifies this
      ensures this.db == db && batchCompacted == 0
    {
      this.db := db;
      batchCompacted := 0;
    }

    /** One record of the scan: looked up, removed or kept. None when the range is exhausted. */
    method Next(cursor: Rev, end: Rev) returns (read: Option<Rev>)
      modifies this
      ensures read.None? <==> Pending(old(db), cursor, end) == {}
      ensures read.None? ==> db == old(db) && batchCompacted == old(batchCompacted)
      ensures read.Some? ==> read.value == MinOf(Pending(old(db), cursor, end))
      ensures read.Some? ==> db == CompactOne(old(db), read.value) && batchCompacted == read.value
    {
      var pending := Pending(db, cursor, end);
      if pending == {} {
        return None;
      }
      var rev := MinOf(pending);
      var record := db.log[rev];
      var last := GetLast(db, record.key);
      if last.None? || last.value.rev != rev || record.meta.isDelete {
        db := db.(index := db.index - {Pos(record.key, rev)});
        db := db.(log := db.log - {rev});
      }
      batchCompacted := rev;
      return Some(rev);
    }

    method EndBatch()
      modifies this
      ensures batchCompacted == 0 ==> db == old(db)
      ensures batchCompacted != 0 ==> db == old(db).(watermark := batchCompacted)
      ensures batchCompacted == old(batchCompacted)
    {
      if batchCompacted != 0 {
        db := db.(watermark := batchCompacted);
      }
    }

    /** One attempt of processBatch, cut off by time after `extra` further records. */
    method ProcessBatch(start: Db, cursor: Rev, end: Rev, extra: nat) returns (lastRead: Rev, more: bool)
      modifies this
      ensures Scanned(db, lastRead) == CompactBatch(start, cursor, end, extra + 1)
      ensures !more ==> Pending(db, lastRead, end) == {}
      ensures more ==> cursor < lastRead
      ensures extra >= |Pending(start, cursor, end)| ==> !more
    {
      StartBatch(start);
      lastRead := cursor;
      more := true;
      var i := 0;
      while more && i <= extra
        invariant 0 <= i <= extra + 1
        invariant CompactScan(start, cursor, end, extra + 1) ==
          if more then CompactScan(db, lastRead, end, extra + 1 - i) else Scanned(db, lastRead)
        invariant batchCompacted == if lastRead == cursor then 0 else lastRead
        invariant cursor <= lastRead
        invariant !more ==> Pending(db, lastRead, end) == {}
        invariant more && i > 0 ==> cursor < lastRead
        invariant more ==> |Pending(db, lastRead, end)| == |Pending(start, cursor, end)| - i
        decreases more, extra + 1 - i
      {
        ghost var pending := Pending(db, lastRead, end);
        var read := Next(lastRead, end);
        assert read.Some? ==> Pending(db, read.value, end) == pending - {read.value};
        if read.Some? {
          lastRead := read.value;
        } else {
          more := false;
        }
        i := i + 1;
      }
      EndBatch();
    }
  }

  /**
   * Compact(end) among other actors: batches until the range is exhausted, the last one unsplit. The result is
   * a run of the machine in which this compaction is run number |w0.runs|, and it ends with nothing pending.
   */
  method RunCompact(w0: World, end: Rev, sequential: bool, plan: seq<Turn>) returns (w: World, ghost acts: seq<Action>)
    requires forall t, j :: 0 <= t < |plan| && 0 <= j < |plan[t].others| && plan[t].others[j].Batch? ==>
      plan[t].others[j].run != |w0.runs|
    ensures w == Play(w0, acts)
    ensures sequential ==> w == w0
    ensures !sequential ==> acts != [] && acts[0] == Compact(end)
    ensures !sequential ==>
      |w.runs| > |w0.runs| && w.runs[|w0.runs|].end == end && Pending(w.db, w.runs[|w0.runs|].cursor, end) == {}
    ensures !sequential && StoreOk(w0) && Alone(plan) ==>
      forall r: Rev :: r in w.db.log <==> r in w0.db.log && (r > end || (Newest(w0.hist, r) && Live(w0.hist[r])))
  {
    hide StoreOk, Newest;
    if sequential {
      return w0, [];
    }
    var i := |w0.runs|;
    w := Apply(w0, Compact(end));
    acts := [Compact(end)];
    PlayOne(w0, Compact(end));
    var p := new CompactProcessor(w.db);
    var cursor, more, t := 0, true, 0;
    while more
      invariant 0 <= t <= |plan| + 1
      invariant acts != [] && acts[0] == Compact(end) && w == Play(w0, acts)
      invariant Alone(plan) ==> Batches(acts[1..], i)
      invariant |w.runs| > i && w.runs[i] == Run(end, cursor)
      invariant !more ==> Pending(w.db, cursor, end) == {}
      invariant t == |plan| + 1 ==> !more
      decreases |plan| + 1 - t
    {
      var turn := if t < |plan| then plan[t] else Turn([], |w.db.log|, false);
      PlayConcat(w0, acts, turn.others);
      OthersKeepRun(w, turn.others, i);
      PendingSize(w.db, cursor, end);
      w := Play(w, turn.others);
      acts := acts + turn.others;
      var lastRead, needsMore := p.ProcessBatch(w.db, cursor, end, turn.extra);
      ghost var act := Batch(i, turn.extra + 1, !turn.lost);
      PlayConcat(w0, acts, [act]);
      PlayOne(w, act);
      acts := acts + [act];
      w := w.(db := p.db, runs := if turn.lost then w.runs else w.runs[i := Run(end, lastRead)]);
      if !turn.lost {
        cursor := lastRead;
        more := needsMore;
      }
      t := t + 1;
    }
    if StoreOk(w0) && Alone(plan) {
      assert w == Compacted(w0, end, acts[1..]) && Finishes(w0, end, acts[1..]);
      CompactedLog(w0, end, acts[1..]);
    }
  }

  lemma {:induction false} OthersKeepRun(w: World, acts: seq<Action>, i: nat)
    requires i < |w.runs| && forall j :: 0 <= j < |acts| && acts[j].Batch? ==> acts[j].run != i
    ensures i < |Play(w, acts).runs| && Play(w, acts).runs[i] == w.runs[i]
    decreases |acts|
  {
    if acts != [] { OthersKeepRun(Apply(w, acts[0]), acts[1..], i); }
  }
}
