/**
 * The store together with everything ever committed to it, as a machine whose steps are committed
 * transactions. Every run of the driver, however its callers, retries and background loops interleave, is
 * a run of this machine.
 */
module World {
  import opened Types
  import opened Chunks
  import opened Store

  /** A compaction run in progress: it will scan up to `end` and has scanned up to `cursor`. */
  datatype Run = Run(end: Rev, cursor: Rev)

  /**
   * `hist` and `uuids` record every append ever committed; compaction never touches them. `legacy` are the
   * keys not written since the current-value rows came into use.
   */
  datatype World = World(
    db: Db, hist: map<Rev, Entry>, uuids: map<Rev, nat>, nextUuid: nat, legacy: set<Key>, runs: seq<Run>)

  datatype Action =
    | Write(op: Op)                                             // one committed attempt of Create, Update or Delete
    | Tick(gap: nat)                                            // the read version moves without a driver write
    | Wipe(keys: set<Key>)                                      // keys whose values predate the current-value rows
    | Compact(end: Rev)                                         // a compaction run begins
    | Batch(run: nat, budget: nat, advance: bool)               // a batch of it commits; `advance` is false when the
                                                                // client does not learn of the commit and repeats it

  function Init(latest: Rev): World {
    World(Db(map[], map[], map[], latest, 0), map[], map[], 0, {}, [])
  }

  function Commit(w: World, a: Appending): World {
    var rev := w.db.latest + 1;
    World(Append(w.db, a, w.nextUuid), w.hist[rev := a.entry], w.uuids[rev := w.nextUuid], w.nextUuid + 1,
          w.legacy - {a.entry.key}, w.runs)
  }

  function Apply(w: World, act: Action): World {
    match act
    case Write(op) =>
      var a := Decide(w.db, op);
      if a.Some? then Commit(w, a.value) else w
    case Tick(gap) =>
      w.(db := w.db.(latest := w.db.latest + gap))
    case Wipe(keys) =>
      w.(db := w.db.(current := map p | p in w.db.current && p.key !in keys :: w.db.current[p]),
         legacy := w.legacy + keys)
    case Compact(end) =>
      w.(runs := w.runs + [Run(end, 0)])
    case Batch(run, budget, advance) =>
      if run >= |w.runs| then w else
        var s := CompactBatch(w.db, w.runs[run].cursor, w.runs[run].end, budget);
        w.(db := s.db, runs := if advance then w.runs[run := w.runs[run].(cursor := s.cursor)] else w.runs)
  }

  function Play(w: World, acts: seq<Action>): World
    decreases |acts|
  {
    if acts == [] then w else Play(Apply(w, acts[0]), acts[1..])
  }

  lemma {:induction false} PlayConcat(w: World, a: seq<Action>, b: seq<Action>)
    ensures Play(w, a + b) == Play(Play(w, a), b)
    decreases |a|
  {
    if a == [] {
      assert a + b == b;
    } else {
      assert (a + b)[0] == a[0] && (a + b)[1..] == a[1..] + b;
      PlayConcat(Apply(w, a[0]), a[1..], b);
    }
  }

  lemma PlayOne(w: World, act: Action)
    ensures Play(w, [act]) == Apply(w, act) && Play(w, []) == w
    ensures !act.Compact? ==> TameRun(w, [act]) && TameRun(w, [])
  {
    assert [act][1..] == [];
    assert Play(w, [act]) == Play(Apply(w, act), []);
    assert TameRun(Apply(w, act), []);
  }

  // ---------------------------------------------------------------- the invariant

  /** `r` is the newest record of its key. */
  ghost predicate Newest(h: map<Rev, Entry>, r: Rev) {
    r in h && forall s: Rev :: s in h && h[s].key == h[r].key ==> s <= r
  }

  /** Revision `n` is the newest of its key, and live. */
  ghost predicate LiveTop(h: map<Rev, Entry>, key: Key, n: Rev) {
    Newest(h, n) && Live(h[n]) && h[n].key == key
  }

  /** `p` is the record of the same key just before `r`. */
  ghost predicate Precedes(h: map<Rev, Entry>, p: Rev, r: Rev) {
    && p in h && r in h && p < r && h[p].key == h[r].key
    && forall q: Rev :: q in h && h[q].key == h[r].key && q < r ==> q <= p
  }

  /** The log and the index hold the same records with the same metadata. */
  ghost predicate Mirrored(db: Db) {
    && (forall r: Rev :: r in db.log ==>
          Pos(db.log[r].key, r) in db.index && db.index[Pos(db.log[r].key, r)].meta == db.log[r].meta)
    && (forall p: Pos :: p in db.index ==> p.n in db.log && db.log[p.n].key == p.key)
  }

  /** What is retained is what was committed, and revisions never pass the read version. */
  ghost predicate Faithful(w: World) {
    && w.db.latest >= 1
    && (forall r: Rev :: r in w.hist ==> 1 <= r <= w.db.latest)
    && (forall r: Rev :: r in w.db.log ==> r in w.hist && w.hist[r] == w.db.log[r])
    && (forall p: Pos :: p in w.db.index ==> p.n in w.uuids && w.db.index[p].uuid == w.uuids[p.n])
  }

  /** Each key's retained records are a suffix of its history that includes its newest record if that is live. */
  ghost predicate Retained(w: World) {
    && (forall r: Rev, s: Rev :: r in w.db.log && s in w.hist && r < s && w.hist[s].key == w.db.log[r].key ==>
          s in w.db.log)
    && (forall r: Rev {:trigger Newest(w.hist, r)} :: Newest(w.hist, r) && Live(w.hist[r]) ==> r in w.db.log)
  }

  /** How a committed record continues the history of its key. */
  ghost predicate Linked(h: map<Rev, Entry>, r: Rev)
    requires r in h
  {
    var m := h[r].meta;
    && m.valueSize == |h[r].value|
    && (if m.isCreate then
          && !m.isDelete && m.createRev == 0
          && (forall p: Rev {:trigger Precedes(h, p, r)} :: Precedes(h, p, r) ==> h[p].meta.isDelete)
          && (m.prevRev == 0 || Precedes(h, m.prevRev, r))
        else
          && Precedes(h, m.prevRev, r) && Live(h[m.prevRev])
          && m.createRev == CreateRevision(m.prevRev, h[m.prevRev].meta)
          && (m.isDelete ==> h[r].value == h[m.prevRev].value && m.lease == h[m.prevRev].meta.lease))
  }

  ghost predicate Chained(h: map<Rev, Entry>) {
    forall r: Rev {:trigger Linked(h, r)} :: r in h ==> Linked(h, r)
  }

  ghost predicate UniqueUuids(w: World) {
    && w.uuids.Keys == w.hist.Keys
    && (forall r: Rev :: r in w.uuids ==> w.uuids[r] < w.nextUuid)
    && (forall r: Rev, s: Rev :: r in w.uuids && s in w.uuids && w.uuids[r] == w.uuids[s] ==> r == s)
  }

  /** The value a key's rows must hold: that of its newest record if live, nothing if not or for a legacy key. */
  ghost function CurrentValue(db: Db, key: Key, legacy: bool): Bytes {
    var last := GetLast(db, key);
    if !legacy && last.Some? && last.value.rev in db.log && Live(db.log[last.value.rev]) then
      db.log[last.value.rev].value
    else
      []
  }

  ghost predicate CurrentOk(db: Db, key: Key, legacy: bool) {
    Holds(db.current, key, CurrentValue(db, key, legacy))
  }

  ghost predicate StoreOk(w: World) {
    && Mirrored(w.db) && Faithful(w) && Retained(w) && Chained(w.hist) && UniqueUuids(w)
    && forall k: Key :: CurrentOk(w.db, k, k in w.legacy)
  }

  ghost predicate NothingLive(w: World) {
    forall r: Rev {:trigger Newest(w.hist, r)} :: Newest(w.hist, r) ==> w.hist[r].meta.isDelete
  }

  /** A run has left at most one record per key in what it has scanned, a live one, and cannot meet a later one. */
  ghost predicate RunOk(w: World, run: Run) {
    && run.cursor <= w.db.latest
    && (forall r: Rev :: r in w.db.log && r <= run.cursor ==> Live(w.db.log[r]))
    && (forall r: Rev, s: Rev :: r in w.db.log && s in w.db.log && r <= run.cursor && r < s <= run.end ==>
          w.db.log[r].key != w.db.log[s].key)
    && (run.end <= w.db.latest
        || (run.end == w.db.latest + 1 && NothingLive(w) && forall r: Rev :: r in w.db.log ==> r > run.cursor))
  }

  ghost predicate Inv(w: World) {
    StoreOk(w) && forall i :: 0 <= i < |w.runs| ==> RunOk(w, w.runs[i])
  }

  /** The end revisions at which a compaction run may safely begin. */
  ghost predicate SafeEnd(w: World, end: Rev) {
    end <= w.db.latest || (end == w.db.latest + 1 && NothingLive(w))
  }

  ghost predicate Tame(w: World, act: Action) {
    act.Compact? ==> SafeEnd(w, act.end)
  }

  ghost predicate TameRun(w: World, acts: seq<Action>)
    decreases |acts|
  {
    acts != [] ==> Tame(w, acts[0]) && TameRun(Apply(w, acts[0]), acts[1..])
  }

  // ---------------------------------------------------------------- writes keep it

  /** The index's newest entry is the newest record ever committed; if there is none, the key is not live. */
  lemma LastIsNewest(w: World, key: Key)
    requires Mirrored(w.db) && Faithful(w) && Retained(w)
    ensures var last := GetLast(w.db, key);
      && (last.Some? ==>
          && last.value.rev in w.db.log && Newest(w.hist, last.value.rev) && w.hist[last.value.rev].key == key
          && last.value.entry.meta == w.hist[last.value.rev].meta && w.db.log[last.value.rev] == w.hist[last.value.rev]
          && last.value.rev in w.uuids && last.value.entry.uuid == w.uuids[last.value.rev])
      && (last.None? ==> forall r: Rev {:trigger Newest(w.hist, r)} :: Newest(w.hist, r) && w.hist[r].key == key ==>
            w.hist[r].meta.isDelete)
  {
    var last := GetLast(w.db, key);
    assert forall r: Rev :: r in w.db.log ==> Pos(w.db.log[r].key, r) in w.db.index;
  }

  /** What a record must satisfy for its append to keep the invariant, in terms of the key's newest record. */
  ghost predicate Fits(db: Db, a: Appending) {
    var m := a.entry.meta;
    var last := GetLast(db, a.entry.key);
    && m.valueSize == |a.entry.value|
    && (if m.isCreate then
          && !m.isDelete && m.createRev == 0 && a.prevSize == 0
          && (last.None? ==> m.prevRev == 0)
          && (last.Some? ==> last.value.entry.meta.isDelete && m.prevRev == last.value.rev)
        else
          && last.Some? && last.value.rev in db.log && !last.value.entry.meta.isDelete
          && m.prevRev == last.value.rev && m.createRev == CreateRevision(last.value.rev, last.value.entry.meta)
          && (m.isDelete ==>
                && a.entry.value == db.log[last.value.rev].value
                && m.lease == db.log[last.value.rev].meta.lease)
          && (!m.isDelete ==> a.prevSize == last.value.entry.meta.valueSize))
  }

  lemma DecideFits(w: World, op: Op)
    requires Mirrored(w.db) && Faithful(w) && Chained(w.hist) && Decide(w.db, op).Some?
    ensures Fits(w.db, Decide(w.db, op).value) && Decide(w.db, op).value.entry.key == op.key
  {
    var last := GetLast(w.db, op.key);
    if op.DeleteOp? { assert Linked(w.hist, last.value.rev); }
  }

  /** A record that fits continues the chain of its key. */
  lemma LinksNew(h: map<Rev, Entry>, n: Rev, e: Entry, last: Option<Rev>)
    requires forall r: Rev :: r in h ==> r < n
    requires e.meta.valueSize == |e.value|
    requires last.Some? ==> Newest(h, last.value) && h[last.value].key == e.key
    requires last.None? ==> forall r: Rev {:trigger Newest(h, r)} :: Newest(h, r) && h[r].key == e.key ==>
      h[r].meta.isDelete
    requires e.meta.isCreate ==> !e.meta.isDelete && e.meta.createRev == 0
    requires e.meta.isCreate && last.Some? ==> h[last.value].meta.isDelete
    requires e.meta.isCreate ==> e.meta.prevRev == if last.Some? then last.value else 0
    requires !e.meta.isCreate ==>
      && last.Some? && Live(h[last.value]) && e.meta.prevRev == last.value
      && e.meta.createRev == CreateRevision(last.value, h[last.value].meta)
      && (e.meta.isDelete ==> e.value == h[last.value].value && e.meta.lease == h[last.value].meta.lease)
    ensures Linked(h[n := e], n)
  {
    var h' := h[n := e];
    if last.Some? {
      assert Precedes(h', last.value, n);
      forall p: Rev | Precedes(h', p, n) ensures p == last.value {}
    } else {
      forall p: Rev | Precedes(h', p, n) ensures h'[p].meta.isDelete {
        forall s: Rev | s in h && h[s].key == e.key ensures s <= p {
          assert s in h' && h'[s] == h[s];
        }
        assert Newest(h, p);
      }
    }
  }

  lemma ExtendChained(h: map<Rev, Entry>, n: Rev, e: Entry)
    requires Chained(h) && (forall r: Rev :: r in h ==> r < n) && Linked(h[n := e], n)
    ensures Chained(h[n := e])
  {
    var h' := h[n := e];
    forall r: Rev | r in h' ensures Linked(h', r) {
      if r != n {
        assert Linked(h, r);
        forall p: Rev ensures Precedes(h', p, r) <==> Precedes(h, p, r) {
          assert forall q: Rev :: q in h ==> q in h' && h'[q] == h[q];
        }
      }
    }
  }

  lemma CommitRetained(w: World, a: Appending)
    requires Faithful(w) && Retained(w)
    ensures Retained(Commit(w, a))
  {
    hide CurrentAfter, Newest;
    var n := w.db.latest + 1;
    assert n !in w.hist;
    ExtendSuffix(w.db.log, w.hist, n, a.entry);
    ExtendKept(w.db.log, w.hist, n, a.entry);
  }

  lemma ExtendKept(log: map<Rev, Entry>, h: map<Rev, Entry>, n: Rev, e: Entry)
    requires n !in h
    requires forall r: Rev {:trigger Newest(h, r)} :: Newest(h, r) && Live(h[r]) ==> r in log
    ensures var h' := h[n := e];
      forall r: Rev {:trigger Newest(h', r)} :: Newest(h', r) && Live(h'[r]) ==> r in log[n := e]
  {
    var h' := h[n := e];
    forall r: Rev | Newest(h', r) && Live(h'[r]) ensures r in log[n := e] {
      if r != n { StillNewest(h, n, e, r); }
    }
  }

  lemma ExtendSuffix(log: map<Rev, Entry>, h: map<Rev, Entry>, n: Rev, e: Entry)
    requires n !in h && forall r: Rev :: r in h ==> r < n
    requires forall r: Rev, s: Rev :: r in log && s in h && r < s && h[s].key == log[r].key ==> s in log
    ensures var log', h' := log[n := e], h[n := e];
      forall r: Rev, s: Rev :: r in log' && s in h' && r < s && h'[s].key == log'[r].key ==> s in log'
  {
    var log', h' := log[n := e], h[n := e];
    forall r: Rev, s: Rev | r in log' && s in h' && r < s && h'[s].key == log'[r].key ensures s in log' {
      if s != n { assert s in h && r in log && h[s].key == log[r].key; }
    }
  }

  lemma StillNewest(h: map<Rev, Entry>, n: Rev, e: Entry, r: Rev)
    requires n !in h && r != n && Newest(h[n := e], r)
    ensures Newest(h, r)
  {
    assert forall s: Rev :: s in h ==> s in h[n := e] && h[n := e][s] == h[s];
  }

  /** The rows a key holds before it is written: the chunks of a value of the size the writer passes on, or none. */
  lemma WriteReplaces(w: World, a: Appending)
    requires Mirrored(w.db) && Faithful(w) && Retained(w) && Chained(w.hist)
    requires CurrentOk(w.db, a.entry.key, a.entry.key in w.legacy)
    requires Fits(w.db, a) && !a.entry.meta.isDelete
    ensures var rows := Replaced(w.db.current, a.entry.key, a.entry.value, a.prevSize);
      Holds(rows, a.entry.key, a.entry.value) && SameElsewhere(w.db.current, rows, a.entry.key)
  {
    var key := a.entry.key;
    LastIsNewest(w, key);
    var last := GetLast(w.db, key);
    var before := CurrentValue(w.db, key, key in w.legacy);
    if before != [] { assert Linked(w.hist, last.value.rev); }
    ReplaceIsExact(w.db.current, key, before, a.entry.value, a.prevSize);
  }

  lemma CommitCurrentSame(w: World, a: Appending)
    requires Mirrored(w.db) && Faithful(w) && Retained(w) && Chained(w.hist)
    requires CurrentOk(w.db, a.entry.key, a.entry.key in w.legacy) && Fits(w.db, a)
    ensures CurrentOk(Commit(w, a).db, a.entry.key, false)
  {
    hide Mirrored, Faithful, Retained, Chained, Fits, Replaced;
    IndexTop(w, a);
    if !a.entry.meta.isDelete {
      WriteReplaces(w, a);
      assert Holds(CurrentAfter(w.db.current, a), a.entry.key, a.entry.value);
    }
  }

  /** The appended record is the newest of its key. */
  lemma IndexTop(w: World, a: Appending)
    requires Mirrored(w.db) && Faithful(w)
    ensures GetLast(Commit(w, a).db, a.entry.key) == Some(Last(w.db.latest + 1, IndexEntry(a.entry.meta, w.nextUuid)))
  {
    GetLastIs(Commit(w, a).db, a.entry.key, w.db.latest + 1);
  }

  /** A step that leaves a key's index entries, rows and newest record alone keeps its rows right. */
  lemma CurrentFrame(db: Db, db': Db, k: Key, legacy: bool)
    requires CurrentOk(db, k, legacy)
    requires forall m: nat :: Pos(k, m) in db'.index <==> Pos(k, m) in db.index
    requires forall m: nat :: Pos(k, m) in db.index ==> db'.index[Pos(k, m)] == db.index[Pos(k, m)]
    requires forall m: nat :: Pos(k, m) in db.index ==> (m in db.log <==> m in db'.log)
    requires forall m: nat :: Pos(k, m) in db.index && m in db.log ==> db'.log[m] == db.log[m]
    requires forall o: nat :: Pos(k, o) in db'.current <==> Pos(k, o) in db.current
    requires forall o: nat :: Pos(k, o) in db.current ==> db'.current[Pos(k, o)] == db.current[Pos(k, o)]
    ensures CurrentOk(db', k, legacy)
    ensures GetLast(db', k) == GetLast(db, k)
  {
    assert GetLast(db', k) == GetLast(db, k);
    assert forall v: Bytes :: Holds(db.current, k, v) ==> Holds(db'.current, k, v);
  }

  lemma CommitElsewhere(w: World, a: Appending)
    requires Mirrored(w.db) && Faithful(w) && Retained(w) && Chained(w.hist)
    requires CurrentOk(w.db, a.entry.key, a.entry.key in w.legacy) && Fits(w.db, a)
    ensures SameElsewhere(w.db.current, Commit(w, a).db.current, a.entry.key)
    ensures w.db.latest + 1 !in w.db.log && forall p: Pos :: p in w.db.index ==> p.n != w.db.latest + 1
  {
    hide Retained, Chained, Fits, CurrentOk;
    if !a.entry.meta.isDelete { WriteReplaces(w, a); }
  }

  lemma CommitCurrentOther(w: World, a: Appending, k: Key)
    requires Mirrored(w.db) && Faithful(w) && Retained(w) && Chained(w.hist)
    requires CurrentOk(w.db, a.entry.key, a.entry.key in w.legacy) && CurrentOk(w.db, k, k in w.legacy) && Fits(w.db, a)
    requires k != a.entry.key
    ensures CurrentOk(Commit(w, a).db, k, k in w.legacy)
  {
    hide Mirrored, Faithful, Retained, Chained, Fits, CurrentOk, CurrentAfter;
    CommitElsewhere(w, a);
    CurrentFrame(w.db, Commit(w, a).db, k, k in w.legacy);
  }

  lemma CommitStoreOk(w: World, a: Appending)
    requires StoreOk(w) && Fits(w.db, a)
    ensures StoreOk(Commit(w, a))
  {
    hide Mirrored, Faithful, Retained, Chained, Fits, UniqueUuids, CurrentOk, Commit;
    var w' := Commit(w, a);
    assert Chained(w'.hist) by { CommitChained(w, a); }
    CommitRetained(w, a);
    CommitFields(w, a);
    forall k: Key ensures CurrentOk(w'.db, k, k in w'.legacy) {
      if k == a.entry.key { CommitCurrentSame(w, a); } else { CommitCurrentOther(w, a, k); }
    }
    CommitMirrored(w, a);
    CommitFaithful(w, a);
    CommitUnique(w, a);
  }

  lemma CommitChained(w: World, a: Appending)
    requires Mirrored(w.db) && Faithful(w) && Retained(w) && Chained(w.hist) && Fits(w.db, a)
    ensures Chained(Commit(w, a).hist)
  {
    LastIsNewest(w, a.entry.key);
    var last := GetLast(w.db, a.entry.key);
    LinksNew(w.hist, w.db.latest + 1, a.entry, if last.Some? then Some(last.value.rev) else None);
    ExtendChained(w.hist, w.db.latest + 1, a.entry);
  }

  lemma CommitMirrored(w: World, a: Appending)
    requires Mirrored(w.db) && Faithful(w)
    ensures Mirrored(Commit(w, a).db)
  {
  }

  lemma CommitFaithful(w: World, a: Appending)
    requires Mirrored(w.db) && Faithful(w) && UniqueUuids(w)
    ensures Faithful(Commit(w, a))
  {
    hide CurrentAfter, Mirrored;
  }

  lemma CommitUnique(w: World, a: Appending)
    requires Faithful(w) && UniqueUuids(w)
    ensures UniqueUuids(Commit(w, a))
  {
    hide CurrentAfter;
  }

  /** A committed write keeps every run in progress on safe ground. */
  lemma CommitRunOk(w: World, a: Appending, run: Run)
    requires Faithful(w) && RunOk(w, run)
    ensures RunOk(Commit(w, a), run)
  {
    hide CurrentAfter;
    var w' := Commit(w, a);
    forall r: Rev, s: Rev | r in w'.db.log && s in w'.db.log && r <= run.cursor && r < s <= run.end
      ensures w'.db.log[r].key != w'.db.log[s].key
    {
      assert r in w.db.log;
    }
  }

  lemma WriteKeepsInv(w: World, op: Op)
    requires Inv(w)
    ensures Inv(Apply(w, Write(op)))
  {
    hide Decide, Commit, Fits, RunOk, Mirrored, Faithful, Retained, Chained, UniqueUuids, CurrentOk;
    var a := Decide(w.db, op);
    if a.Some? {
      DecideFits(w, op);
      CommitStoreOk(w, a.value);
      forall i | 0 <= i < |w.runs| ensures RunOk(Commit(w, a.value), w.runs[i]) {
        CommitRunOk(w, a.value, w.runs[i]);
      }
      CommitFields(w, a.value);
    }
  }

  lemma CommitFields(w: World, a: Appending)
    ensures Commit(w, a).runs == w.runs && Commit(w, a).legacy == w.legacy - {a.entry.key}
  {
  }

  // ---------------------------------------------------------------- compaction keeps it

  /** Nothing of the same key older than `r` is retained. */
  ghost predicate Oldest(db: Db, r: Rev) {
    r in db.log && forall s: Rev :: s in db.log && db.log[s].key == db.log[r].key ==> r <= s
  }

  /** In a store that mirrors, compaction always finds the index entry it looks up. */
  lemma LastNeverMissing(db: Db, r: Rev)
    requires Mirrored(db) && r in db.log
    ensures GetLast(db, db.log[r].key).Some?
  {
    assert Pos(db.log[r].key, r) in db.index;
  }

  lemma RemoveMirrored(w: World, r: Rev)
    requires Mirrored(w.db) && Faithful(w) && r in w.db.log
    ensures Mirrored(CompactOne(w.db, r)) && Faithful(w.(db := CompactOne(w.db, r)))
  {
    hide Removes;
    var db' := CompactOne(w.db, r);
    forall p: Pos | p in db'.index ensures p.n in db'.log && db'.log[p.n].key == p.key {
      assert p in w.db.index && p == Pos(p.key, p.n);
    }
  }

  /** Removing the oldest retained record of a key, if it is not the newest live one, leaves a suffix. */
  lemma RemoveRetained(w: World, r: Rev)
    requires Mirrored(w.db) && Faithful(w) && Retained(w) && Oldest(w.db, r)
    ensures Retained(w.(db := CompactOne(w.db, r)))
  {
    var w' := w.(db := CompactOne(w.db, r));
    if Removes(w.db, r) {
      LastIsNewest(w, w.hist[r].key);
      LastNeverMissing(w.db, r);
      assert Newest(w.hist, r) ==> GetLast(w.db, w.hist[r].key).value.rev == r;
    }
  }

  lemma RemoveCurrent(w: World, r: Rev, k: Key)
    requires Mirrored(w.db) && Faithful(w) && Oldest(w.db, r) && CurrentOk(w.db, k, k in w.legacy)
    ensures CurrentOk(CompactOne(w.db, r), k, k in w.legacy)
    ensures GetLast(w.db, k).Some? && !GetLast(w.db, k).value.entry.meta.isDelete ==>
      GetLast(CompactOne(w.db, r), k) == GetLast(w.db, k)
  {
    var db' := CompactOne(w.db, r);
    if Removes(w.db, r) {
      LastNeverMissing(w.db, r);
      var last := GetLast(w.db, k);
      if w.db.log[r].key == k && last.value.rev == r {
        assert !Live(w.db.log[r]);
      } else if last.Some? {
        assert Pos(k, last.value.rev) in db'.index;
        GetLastIs(db', k, last.value.rev);
      }
    }
  }

  lemma CompactOneStoreOk(w: World, r: Rev)
    requires StoreOk(w) && Oldest(w.db, r)
    ensures StoreOk(w.(db := CompactOne(w.db, r)))
  {
    var w' := w.(db := CompactOne(w.db, r));
    hide Mirrored, Faithful, Retained, Chained, UniqueUuids, CurrentOk, CompactOne;
    RemoveMirrored(w, r);
    RemoveRetained(w, r);
    forall k: Key ensures CurrentOk(w'.db, k, k in w'.legacy) { RemoveCurrent(w, r, k); }
    SameUuids(w, w');
  }

  lemma SameUuids(w: World, w': World)
    requires UniqueUuids(w) && w'.hist == w.hist && w'.uuids == w.uuids && w'.nextUuid == w.nextUuid
    ensures UniqueUuids(w')
  {
  }

  /** The first record a safe run has not scanned is the oldest retained one of its key. */
  lemma NextIsOldest(w: World, run: Run)
    requires RunOk(w, run) && Pending(w.db, run.cursor, run.end) != {}
    ensures Oldest(w.db, MinOf(Pending(w.db, run.cursor, run.end)))
  {
    var r := MinOf(Pending(w.db, run.cursor, run.end));
    forall s: Rev | s in w.db.log && w.db.log[s].key == w.db.log[r].key ensures r <= s {
      if run.cursor < s <= run.end { assert s in Pending(w.db, run.cursor, run.end); }
    }
  }

  /** Shrinking the log keeps any run safe. */
  lemma ShrinkRunOk(w: World, db': Db, run: Run)
    requires RunOk(w, run) && db'.latest == w.db.latest
    requires forall r: Rev :: r in db'.log ==> r in w.db.log && db'.log[r] == w.db.log[r]
    ensures RunOk(w.(db := db'), run)
  {
  }

  /** A record the scan keeps is the last of its key. */
  lemma KeptIsLast(db: Db, r: Rev, s: Rev)
    requires Mirrored(db) && r in db.log && !Removes(db, r) && s in db.log && db.log[s].key == db.log[r].key
    ensures s <= r && Live(db.log[r])
  {
    assert Pos(db.log[s].key, s) in db.index;
  }

  /** Scanning one record keeps the scanning run safe at its new cursor. */
  lemma AdvanceRunOk(w: World, run: Run)
    requires Mirrored(w.db) && Faithful(w) && Retained(w) && RunOk(w, run) && Pending(w.db, run.cursor, run.end) != {}
    ensures var r := MinOf(Pending(w.db, run.cursor, run.end));
      RunOk(w.(db := CompactOne(w.db, r)), Run(run.end, r))
  {
    hide Mirrored, Faithful, Retained, NothingLive, Removes;
    var r := MinOf(Pending(w.db, run.cursor, run.end));
    assert r in Pending(w.db, run.cursor, run.end);
    DeadIsRemoved(w, r);
    var db' := CompactOne(w.db, r);
    forall x: Rev | x in w.db.log && x <= r ensures x <= run.cursor || x == r {
      if x > run.cursor { assert x in Pending(w.db, run.cursor, run.end); }
    }
    if !Removes(w.db, r) { KeptIsLast(w.db, r, r); }
    forall x: Rev, s: Rev | x in db'.log && s in db'.log && x <= r && x < s <= run.end
      ensures db'.log[x].key != db'.log[s].key
    {
      if x == r && db'.log[x].key == db'.log[s].key { KeptIsLast(w.db, r, s); }
    }
    SameHistory(w, w.(db := db'));
  }

  lemma DeadIsRemoved(w: World, r: Rev)
    requires Mirrored(w.db) && Faithful(w) && Retained(w) && r in w.db.log
    ensures NothingLive(w) ==> Removes(w.db, r)
    ensures r <= w.db.latest
  {
    LastIsNewest(w, w.db.log[r].key);
  }

  lemma SameHistory(w: World, w': World)
    requires w'.hist == w.hist
    ensures NothingLive(w') <==> NothingLive(w)
  {
  }

  ghost predicate Shrinks(db: Db, db': Db) {
    && db'.latest == db.latest && db'.current == db.current
    && forall r: Rev :: r in db'.log ==> r in db.log && db'.log[r] == db.log[r]
  }

  lemma ShrinksTransitive(a: Db, b: Db, c: Db)
    ensures Shrinks(a, a)
    ensures Shrinks(a, b) && Shrinks(b, c) ==> Shrinks(a, c)
  {
  }

  lemma ScanOne(w: World, run: Run)
    requires StoreOk(w) && RunOk(w, run) && Pending(w.db, run.cursor, run.end) != {}
    ensures var r := MinOf(Pending(w.db, run.cursor, run.end));
      var w' := w.(db := CompactOne(w.db, r));
      StoreOk(w') && RunOk(w', Run(run.end, r)) && Shrinks(w.db, w'.db) && run.cursor < r
  {
    hide RunOk, Removes, Oldest, Mirrored, Faithful, Retained, Chained, UniqueUuids, CurrentOk;
    var r := MinOf(Pending(w.db, run.cursor, run.end));
    NextIsOldest(w, run);
    AdvanceRunOk(w, run);
    CompactOneStoreOk(w, r);
  }

  /** A scan of any length keeps the store and its own run safe. */
  lemma {:induction false} ScanKeeps(w: World, run: Run, budget: nat)
    requires StoreOk(w) && RunOk(w, run)
    ensures var s := CompactScan(w.db, run.cursor, run.end, budget);
      && StoreOk(w.(db := s.db)) && RunOk(w.(db := s.db), Run(run.end, s.cursor))
      && Shrinks(w.db, s.db) && run.cursor <= s.cursor
    decreases budget
  {
    hide RunOk, StoreOk, Shrinks, CompactOne;
    var pending := Pending(w.db, run.cursor, run.end);
    if budget > 0 && pending != {} {
      var r := MinOf(pending);
      var w1 := w.(db := CompactOne(w.db, r));
      ScanOne(w, run);
      ScanKeeps(w1, Run(run.end, r), budget - 1);
      ShrinksTransitive(w.db, w1.db, CompactScan(w1.db, r, run.end, budget - 1).db);
    } else {
      assert w.(db := w.db) == w && Run(run.end, run.cursor) == run;
      ShrinksTransitive(w.db, w.db, w.db);
    }
  }

  lemma NewWatermark(w: World, mark: Rev)
    requires StoreOk(w)
    ensures StoreOk(w.(db := w.db.(watermark := mark)))
    ensures forall run :: RunOk(w, run) ==> RunOk(w.(db := w.db.(watermark := mark)), run)
  {
    var w' := w.(db := w.db.(watermark := mark));
    forall k: Key ensures CurrentOk(w'.db, k, k in w'.legacy) { CurrentFrame(w.db, w'.db, k, k in w.legacy); }
  }

  lemma BatchKeepsInv(w: World, i: nat, budget: nat, advance: bool)
    requires Inv(w)
    ensures Inv(Apply(w, Batch(i, budget, advance)))
  {
    hide StoreOk, RunOk, CompactScan;
    if i < |w.runs| {
      var run := w.runs[i];
      var s := CompactScan(w.db, run.cursor, run.end, budget);
      var b := CompactBatch(w.db, run.cursor, run.end, budget);
      var w1 := w.(db := s.db);
      assert RunOk(w, run);
      ScanKeeps(w, run, budget);
      forall j | 0 <= j < |w.runs| ensures RunOk(w1, w.runs[j]) {
        assert RunOk(w, w.runs[j]);
        ShrinkRunOk(w, s.db, w.runs[j]);
      }
      NewWatermark(w1, s.cursor);
      var w2 := w.(db := b.db);
      assert w2 == w1 || w2 == w1.(db := w1.db.(watermark := s.cursor));
      var w' := Apply(w, Batch(i, budget, advance));
      assert StoreOk(w2);
      OnlyRuns(w2, w');
      forall j | 0 <= j < |w'.runs| ensures RunOk(w', w'.runs[j]) {
        assert RunOk(w2, w'.runs[j]);
      }
    }
  }

  lemma OnlyRuns(w: World, w': World)
    requires w' == w.(runs := w'.runs)
    ensures StoreOk(w) ==> StoreOk(w')
    ensures forall run :: RunOk(w, run) ==> RunOk(w', run)
  {
    if StoreOk(w) { SameUuids(w, w'); }
  }

  lemma TickKeepsInv(w: World, gap: nat)
    requires Inv(w)
    ensures Inv(Apply(w, Tick(gap)))
  {
    var w' := Apply(w, Tick(gap));
    forall k: Key ensures CurrentOk(w'.db, k, k in w'.legacy) { CurrentFrame(w.db, w'.db, k, k in w.legacy); }
    forall i | 0 <= i < |w'.runs| ensures RunOk(w', w'.runs[i]) { assert RunOk(w, w.runs[i]); }
  }

  lemma WipeKeepsInv(w: World, keys: set<Key>)
    requires Inv(w)
    ensures Inv(Apply(w, Wipe(keys)))
  {
    var w' := Apply(w, Wipe(keys));
    forall k: Key ensures CurrentOk(w'.db, k, k in w'.legacy) {
      if k !in keys { CurrentFrame(w.db, w'.db, k, k in w.legacy); }
    }
    forall i | 0 <= i < |w'.runs| ensures RunOk(w', w'.runs[i]) { assert RunOk(w, w.runs[i]); }
  }

  lemma CompactKeepsInv(w: World, end: Rev)
    requires Inv(w) && SafeEnd(w, end)
    ensures Inv(Apply(w, Compact(end)))
  {
    var w' := Apply(w, Compact(end));
    OnlyRuns(w, w');
    assert RunOk(w, Run(end, 0));
    hide StoreOk, RunOk;
    forall i | 0 <= i < |w'.runs| ensures RunOk(w', w'.runs[i]) {
      assert i < |w.runs| ==> RunOk(w, w.runs[i]);
    }
  }

  lemma StepKeepsInv(w: World, act: Action)
    requires Inv(w) && Tame(w, act)
    ensures Inv(Apply(w, act))
  {
    hide Inv;
    match act
    case Write(op) => WriteKeepsInv(w, op);
    case Tick(gap) => TickKeepsInv(w, gap);
    case Wipe(keys) => WipeKeepsInv(w, keys);
    case Compact(end) => CompactKeepsInv(w, end);
    case Batch(i, budget, advance) => BatchKeepsInv(w, i, budget, advance);
  }

  lemma InitInv(latest: Rev)
    requires latest >= 1
    ensures Inv(Init(latest))
  {
  }

  /** The store invariant holds after every run of writes, version gaps, and safely begun compactions. */
  lemma {:induction false} RunsKeepInv(w: World, acts: seq<Action>)
    requires Inv(w) && TameRun(w, acts)
    ensures Inv(Play(w, acts))
    decreases |acts|
  {
    if acts != [] {
      StepKeepsInv(w, acts[0]);
      RunsKeepInv(Apply(w, acts[0]), acts[1..]);
    }
  }

  // ---------------------------------------------------------------- what holds after every run at all

  /** Histories only grow: old records stay, new ones get higher revisions and fresh UUIDs. */
  ghost predicate Grows(w: World, w': World) {
    && w.db.latest <= w'.db.latest && w.nextUuid <= w'.nextUuid
    && (forall r: Rev :: r in w.hist ==> r in w'.hist && w'.hist[r] == w.hist[r])
    && (forall r: Rev :: r in w.uuids ==> r in w'.uuids && w'.uuids[r] == w.uuids[r])
    && (forall r: Rev :: r in w'.hist && r !in w.hist ==> r > w.db.latest)
    && (forall r: Rev :: r in w'.uuids && r !in w.uuids ==> w'.uuids[r] >= w.nextUuid)
  }

  lemma CommitGrows(w: World, a: Appending)
    requires Faithful(w) && UniqueUuids(w)
    ensures Grows(w, Commit(w, a))
  {
    hide CurrentAfter;
  }

  lemma GrowsTransitive(a: World, b: World, c: World)
    requires Grows(a, b) && Grows(b, c)
    ensures Grows(a, c)
  {
  }

  lemma {:induction false} ScanLatest(db: Db, cursor: Rev, end: Rev, budget: nat)
    ensures CompactScan(db, cursor, end, budget).db.latest == db.latest
    decreases budget
  {
    var pending := Pending(db, cursor, end);
    if budget > 0 && pending != {} { ScanLatest(CompactOne(db, MinOf(pending)), MinOf(pending), end, budget - 1); }
  }

  lemma StepGrows(w: World, act: Action)
    requires Faithful(w) && UniqueUuids(w)
    ensures Grows(w, Apply(w, act))
  {
    hide CurrentAfter, CompactScan, Commit, Decide;
    match act
    case Write(op) => if Decide(w.db, op).Some? { CommitGrows(w, Decide(w.db, op).value); }
    case Tick(gap) =>
    case Wipe(keys) =>
    case Compact(end) =>
    case Batch(i, budget, advance) => if i < |w.runs| { ScanLatest(w.db, w.runs[i].cursor, w.runs[i].end, budget); }
  }

  ghost predicate Formed(h: map<Rev, Entry>) {
    forall r: Rev :: r in h ==> h[r].meta.valueSize == |h[r].value| && !(h[r].meta.isCreate && h[r].meta.isDelete)
  }

  /** The part of the invariant that no compaction can break, safely begun or not. */
  ghost predicate Sound(w: World) {
    Mirrored(w.db) && Faithful(w) && UniqueUuids(w) && Formed(w.hist)
  }

  lemma StoreIsSound(w: World)
    requires StoreOk(w)
    ensures Sound(w)
  {
    hide Mirrored, Faithful, Retained, UniqueUuids, CurrentOk, Precedes;
    forall r: Rev | r in w.hist
      ensures w.hist[r].meta.valueSize == |w.hist[r].value| && !(w.hist[r].meta.isCreate && w.hist[r].meta.isDelete)
    {
      assert Linked(w.hist, r);
    }
  }

  lemma DecideFormed(w: World, op: Op)
    requires Sound(w) && Decide(w.db, op).Some?
    ensures var e := Decide(w.db, op).value.entry;
      e.key == op.key && e.meta.valueSize == |e.value| && !(e.meta.isCreate && e.meta.isDelete)
  {
    hide UniqueUuids;
  }

  lemma CommitSound(w: World, op: Op)
    requires Sound(w) && Decide(w.db, op).Some?
    ensures Sound(Commit(w, Decide(w.db, op).value))
  {
    hide Mirrored, Faithful, UniqueUuids, Decide, Append;
    var a := Decide(w.db, op).value;
    DecideFormed(w, op);
    CommitMirrored(w, a);
    CommitFaithful(w, a);
    CommitUnique(w, a);
  }

  lemma {:induction false} ScanSound(w: World, cursor: Rev, end: Rev, budget: nat)
    requires Sound(w)
    ensures Sound(w.(db := CompactScan(w.db, cursor, end, budget).db))
    decreases budget
  {
    hide Mirrored, Faithful, UniqueUuids, Formed, CompactOne;
    var pending := Pending(w.db, cursor, end);
    if budget > 0 && pending != {} {
      var w1 := w.(db := CompactOne(w.db, MinOf(pending)));
      RemoveMirrored(w, MinOf(pending));
      SameUuids(w, w1);
      ScanSound(w1, MinOf(pending), end, budget - 1);
    } else {
      assert w.(db := w.db) == w;
    }
  }

  lemma StepKeepsSound(w: World, act: Action)
    requires Sound(w)
    ensures Sound(Apply(w, act)) && Grows(w, Apply(w, act))
  {
    hide Commit, Decide, CompactScan, Grows, Mirrored, Faithful, UniqueUuids, Formed;
    StepGrows(w, act);
    var w' := Apply(w, act);
    match act
    case Write(op) => if Decide(w.db, op).Some? { CommitSound(w, op); }
    case Tick(gap) => SoundFrame(w, w');
    case Wipe(keys) => SoundFrame(w, w');
    case Compact(end) => SoundFrame(w, w');
    case Batch(i, budget, advance) =>
      if i < |w.runs| {
        var s := CompactScan(w.db, w.runs[i].cursor, w.runs[i].end, budget);
        ScanSound(w, w.runs[i].cursor, w.runs[i].end, budget);
        SoundFrame(w.(db := s.db), w');
      }
  }

  lemma SoundFrame(w: World, w': World)
    requires Sound(w) && w'.hist == w.hist && w'.uuids == w.uuids && w'.nextUuid >= w.nextUuid
    requires w'.db.log == w.db.log && w'.db.index == w.db.index && w'.db.latest >= w.db.latest
    ensures Sound(w')
  {
  }

  /**
   * With no condition on compaction: log and index agree, what is retained is what was committed, revisions and UUIDs
   * are unique and grow.
   */
  lemma {:induction false} RunsKeepSound(w: World, acts: seq<Action>)
    requires Sound(w)
    ensures Sound(Play(w, acts)) && Grows(w, Play(w, acts))
    decreases |acts|
  {
    hide Sound, Apply, Grows;
    if acts == [] {
      GrowsReflexive(w);
    } else {
      StepKeepsSound(w, acts[0]);
      RunsKeepSound(Apply(w, acts[0]), acts[1..]);
      GrowsTransitive(w, Apply(w, acts[0]), Play(w, acts));
    }
  }

  lemma TameRunGrows(w: World, acts: seq<Action>)
    requires Inv(w) && TameRun(w, acts)
    ensures Inv(Play(w, acts)) && Grows(w, Play(w, acts))
  {
    hide StoreOk, RunOk, Grows, Sound, Play, TameRun;
    StoreIsSound(w);
    RunsKeepInv(w, acts);
    RunsKeepSound(w, acts);
  }

  lemma GrowsReflexive(w: World)
    ensures Grows(w, w)
  {
  }

  /** Within one incarnation of a key every record names the same create revision, and that record is the create. */
  lemma {:induction false} IncarnationIsConstant(h: map<Rev, Entry>, r: Rev)
    requires Chained(h) && r in h && !h[r].meta.isCreate
    ensures var c := h[r].meta.createRev;
      && c in h && c < r && h[c].meta.isCreate && h[c].key == h[r].key
      && forall q: Rev :: q in h && h[q].key == h[r].key && c < q < r ==>
           !h[q].meta.isCreate && Live(h[q]) && h[q].meta.createRev == c
    decreases r
  {
    assert Linked(h, r);
    var p := h[r].meta.prevRev;
    assert Linked(h, p);
    if !h[p].meta.isCreate { IncarnationIsConstant(h, p); }
  }
}
