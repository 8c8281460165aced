/** Readers of the log that follow it in revision order, and the poll loop that broadcasts it to the watches. */
module Polling {
  import opened Types
  import opened Store
  import opened World
  import opened TupleRange
  import opened RevisionLog
  import Compaction
  import Writes
  import Reads

  // ---------------------------------------------------------------- events

  datatype Event = Event(create: bool, delete: bool, kv: Writes.KeyValue, prevKV: Option<Writes.KeyValue>)

  /** The event of a record, with the previous record if that is still in the log. */
  function EventOf(log: map<Rev, Entry>, r: Rev): Event
    requires r in log
  {
    var m := log[r].meta;
    Event(m.isCreate, m.isDelete, Writes.KvOf(r, log[r]),
          if m.prevRev != 0 && m.prevRev in log then Some(Writes.KvOf(m.prevRev, log[m.prevRev])) else None)
  }

  /** The event tells what was committed, and what the record says it replaced. */
  ghost predicate Truthful(h: map<Rev, Entry>, ev: Event) {
    var r := ev.kv.modRevision;
    && Writes.Depicts(h, ev.kv) && ev.create == h[r].meta.isCreate && ev.delete == h[r].meta.isDelete
    && (ev.prevKV.Some? ==>
          && h[r].meta.prevRev != 0 && ev.prevKV.value.modRevision == h[r].meta.prevRev
          && Writes.Depicts(h, ev.prevKV.value))
  }

  /**
   * The previous key-value of the event is the record just before in the key's history, and the create revisions are
   * those of the creates the two descend from.
   */
  ghost predicate Consecutive(h: map<Rev, Entry>, ev: Event) {
    && Writes.Born(h, ev.kv)
    && (ev.prevKV.Some? ==>
          Precedes(h, ev.prevKV.value.modRevision, ev.kv.modRevision) && Writes.Born(h, ev.prevKV.value))
  }

  /** It comes with what it replaced exactly if the record names that and the log read still has it. */
  ghost predicate Sourced(log: map<Rev, Entry>, h: map<Rev, Entry>, ev: Event) {
    var r := ev.kv.modRevision;
    r in h && (ev.prevKV.Some? <==> h[r].meta.prevRev != 0 && h[r].meta.prevRev in log)
  }

  /** The event as the collector makes it of the record at `r`, field by field. */
  ghost predicate Renders(log: map<Rev, Entry>, r: Rev, ev: Event) {
    && ev.kv.modRevision == r && Truthful(log, ev) && Sourced(log, log, ev)
  }

  /** An event without a previous key-value: the record names none, or it is gone from the log. */
  ghost predicate Attributed(w: World, ev: Event) {
    var r := ev.kv.modRevision;
    r in w.hist && (ev.prevKV.None? ==> w.hist[r].meta.prevRev == 0 || w.hist[r].meta.prevRev !in w.db.log)
  }

  /** The event has a previous key-value exactly if its key has an earlier record, and it is the one just before. */
  ghost predicate PrevTold(h: map<Rev, Entry>, ev: Event) {
    && (ev.prevKV.Some? <==> exists q: Rev :: q in h && h[q].key == ev.kv.key && q < ev.kv.modRevision)
    && (ev.prevKV.Some? ==> Precedes(h, ev.prevKV.value.modRevision, ev.kv.modRevision))
  }

  function Revs(events: seq<Event>): (revs: seq<Rev>)
    ensures |revs| == |events| && forall i :: 0 <= i < |events| ==> revs[i] == events[i].kv.modRevision
  {
    seq(|events|, i requires 0 <= i < |events| => events[i].kv.modRevision)
  }

  function EventsOf(log: map<Rev, Entry>, revs: seq<Rev>): (events: seq<Event>)
    requires AllIn(log, revs)
    ensures |events| == |revs| && forall i :: 0 <= i < |revs| ==> events[i] == EventOf(log, revs[i])
    ensures Revs(events) == revs
  {
    if revs == [] then [] else [EventOf(log, revs[0])] + EventsOf(log, revs[1..])
  }

  /** None takes every key, as the poll loop does. */
  predicate Takes(filter: Option<Key>, key: Key) {
    filter.None? || Matches(key, filter.value)
  }

  // ---------------------------------------------------------------- what is due

  /** The log as a reader found it: what it held then, and everything committed since, except what it has lost. */
  datatype Since = Since(log: map<Rev, Entry>, latest: Rev, lost: set<Rev>)

  predicate Due(since: Since, r: Rev) {
    (r > since.latest || r in since.log) && r !in since.lost
  }

  function Losing(since: Since, more: set<Rev>): Since {
    since.(lost := since.lost + more)
  }

  /** The committed records above `lo` and up to `hi` that a reader beginning at `since` must see. */
  ghost function DueIn(h: map<Rev, Entry>, since: Since, filter: Option<Key>, lo: Rev, hi: Rev): set<Rev> {
    set r | r in h && lo < r <= hi && Due(since, r) && Takes(filter, h[r].key)
  }

  /** Above `pos` the log holds exactly what is due. */
  ghost predicate Intact(w: World, since: Since, pos: Rev) {
    && since.latest <= w.db.latest && (forall r :: r in since.lost ==> r <= w.db.latest)
    && forall r: Rev :: r > pos ==> (r in w.db.log <==> r in w.hist && Due(since, r))
  }

  lemma DueSplit(h: map<Rev, Entry>, since: Since, filter: Option<Key>, lo: Rev, mid: Rev, hi: Rev)
    requires lo <= mid <= hi
    ensures Asc(DueIn(h, since, filter, lo, hi))
         == Asc(DueIn(h, since, filter, lo, mid)) + Asc(DueIn(h, since, filter, mid, hi))
  {
    hide Takes, Due, Asc;
    var a, b := DueIn(h, since, filter, lo, mid), DueIn(h, since, filter, mid, hi);
    AscSplit(a, b);
    assert a + b == DueIn(h, since, filter, lo, hi);
  }

  /** Later commits add nothing at or below the read version. */
  lemma DueStable(w: World, w': World, since: Since, filter: Option<Key>, lo: Rev, hi: Rev)
    requires Grows(w, w') && hi <= w.db.latest
    ensures DueIn(w'.hist, since, filter, lo, hi) == DueIn(w.hist, since, filter, lo, hi)
  {
  }

  /** Losing records above an interval changes nothing in it. */
  lemma DueBelow(h: map<Rev, Entry>, since: Since, more: set<Rev>, filter: Option<Key>, lo: Rev, hi: Rev)
    requires forall r :: r in more ==> r > hi
    ensures DueIn(h, Losing(since, more), filter, lo, hi) == DueIn(h, since, filter, lo, hi)
  {
  }

  // ---------------------------------------------------------------- other actors

  /** What the step removes from the log above `pos`. */
  function RemovedBy(w: World, act: Action, pos: Rev): set<Rev> {
    set r | r in w.db.log && r > pos && r !in Apply(w, act).db.log
  }

  /** What other actors remove, while a reader stands at `pos`, before it gets there. */
  function Removed(w: World, acts: seq<Action>, pos: Rev): set<Rev>
    decreases |acts|
  {
    if acts == [] then {} else RemovedBy(w, acts[0], pos) + Removed(Apply(w, acts[0]), acts[1..], pos)
  }

  lemma {:induction false} RemovedAbove(w: World, acts: seq<Action>, pos: Rev)
    ensures forall r :: r in Removed(w, acts, pos) ==> r > pos
    decreases |acts|
  {
    if acts != [] { RemovedAbove(Apply(w, acts[0]), acts[1..], pos); }
  }

  /** Of what nobody writes again, what has been removed is what is gone in the end. */
  lemma {:induction false} RemovedIsGone(w: World, acts: seq<Action>, pos: Rev)
    requires forall j :: 0 <= j < |acts| ==> acts[j].Compact? || acts[j].Batch?
    ensures forall r: Rev :: r in Play(w, acts).db.log ==> r in w.db.log
    ensures forall r: Rev :: r in Removed(w, acts, pos) <==> r in w.db.log && r > pos && r !in Play(w, acts).db.log
    decreases |acts|
  {
    hide Apply;
    if acts != [] {
      OnlyShrinks(w, acts[0]);
      RemovedIsGone(Apply(w, acts[0]), acts[1..], pos);
    }
  }

  lemma OnlyShrinks(w: World, act: Action)
    requires act.Compact? || act.Batch?
    ensures forall r: Rev :: r in Apply(w, act).db.log ==> r in w.db.log
  {
    hide CompactScan;
    if act.Batch? && act.run < |w.runs| {
      var run := w.runs[act.run];
      forall r: Rev | r in Apply(w, act).db.log ensures r in w.db.log {
        ScanShrinks(w.db, run.cursor, run.end, act.budget, r);
      }
    }
  }

  /**
   * What a compaction costs a reader that stands at `pos`: exactly the superseded records and the tombstones above
   * `pos` and up to the end of the compaction, in whatever batches it ran.
   */
  lemma CompactionLoses(w: World, end: Rev, acts: seq<Action>, pos: Rev)
    requires StoreOk(w) && Compaction.Finishes(w, end, acts)
    ensures forall r: Rev :: r in Removed(w, [Compact(end)] + acts, pos) <==>
      r in w.db.log && pos < r <= end && !(Newest(w.hist, r) && Live(w.hist[r]))
  {
    hide StoreOk, Apply, Newest;
    Compaction.CompactedLog(w, end, acts);
    var all := [Compact(end)] + acts;
    assert all[1..] == acts;
    RemovedIsGone(w, all, pos);
  }

  lemma {:induction false} ScanShrinks(db: Db, cursor: Rev, end: Rev, budget: nat, r: Rev)
    requires r in CompactScan(db, cursor, end, budget).db.log
    ensures r in db.log
    decreases budget
  {
    var pending := Pending(db, cursor, end);
    if budget > 0 && pending != {} { ScanShrinks(CompactOne(db, MinOf(pending)), MinOf(pending), end, budget - 1, r); }
  }

  /** The log never regains a record it has lost. */
  ghost predicate Sheds(w: World, w': World) {
    forall r: Rev :: r in w'.db.log && r <= w.db.latest ==> r in w.db.log
  }

  lemma StepSheds(w: World, act: Action)
    ensures Sheds(w, Apply(w, act))
  {
    hide Decide, CompactBatch, CurrentAfter;
    if act.Batch? { OnlyShrinks(w, act); }
  }

  lemma {:induction false} RunSheds(w: World, acts: seq<Action>)
    requires Sound(w)
    ensures Sheds(w, Play(w, acts))
    decreases |acts|
  {
    hide Sound, Apply;
    if acts != [] {
      StepSheds(w, acts[0]);
      StepKeepsSound(w, acts[0]);
      RunSheds(Apply(w, acts[0]), acts[1..]);
    }
  }

  /** The log is the whole history in the end exactly if it was at first and nothing has been removed. */
  lemma {:induction false} WholeIff(w: World, acts: seq<Action>)
    requires Sound(w)
    ensures var w' := Play(w, acts); w'.db.log == w'.hist <==> w.db.log == w.hist && Removed(w, acts, 0) == {}
    decreases |acts|
  {
    hide Sound, Apply, RemovedBy;
    if acts != [] {
      WholeStep(w, acts[0]);
      StepKeepsSound(w, acts[0]);
      WholeIff(Apply(w, acts[0]), acts[1..]);
    }
  }

  lemma WholeStep(w: World, act: Action)
    requires Sound(w)
    ensures var w' := Apply(w, act); w'.db.log == w'.hist <==> w.db.log == w.hist && RemovedBy(w, act, 0) == {}
  {
    hide Mirrored, UniqueUuids, Formed, Apply, Grows;
    StepKeepsSound(w, act);
    StepSheds(w, act);
    var w' := Apply(w, act);
    StepHist(w, act);
    if w'.db.log == w'.hist {
      forall r: Rev | r in w.hist ensures r in w.db.log { assert r in w'.hist; }
      assert w.db.log == w.hist;
    }
    if w.db.log == w.hist && RemovedBy(w, act, 0) == {} {
      forall r: Rev | r in w'.hist ensures r in w'.db.log {
        if r in w.hist { assert r !in RemovedBy(w, act, 0); }
      }
      assert w'.db.log == w'.hist;
    }
  }

  /** What a step commits is in the log. */
  lemma StepHist(w: World, act: Action)
    requires Faithful(w)
    ensures forall r: Rev :: r in w.hist ==> r in Apply(w, act).hist
    ensures forall r: Rev :: r in Apply(w, act).hist && r !in w.hist ==> r in Apply(w, act).db.log
  {
    hide Decide, CompactBatch, CurrentAfter;
  }

  /** A record names as its predecessor an earlier record of its key, and none that is retained lies between. */
  ghost predicate RootedAt(w: World, r: Rev)
    requires r in w.hist
  {
    var p := w.hist[r].meta.prevRev;
    && (p != 0 ==> p in w.hist && p < r && w.hist[p].key == w.hist[r].key)
    && forall q: Rev :: q in w.db.log && q < r && w.db.log[q].key == w.hist[r].key ==> q <= p
  }

  ghost predicate Rooted(w: World) {
    forall r: Rev {:trigger RootedAt(w, r)} :: r in w.hist ==> RootedAt(w, r)
  }

  lemma CommitRooted(w: World, op: Op)
    requires Sound(w) && Rooted(w) && Decide(w.db, op).Some?
    ensures Rooted(Commit(w, Decide(w.db, op).value))
  {
    hide CurrentAfter, Formed, UniqueUuids, Rooted;
    var a := Decide(w.db, op).value;
    var w', n := Commit(w, a), w.db.latest + 1;
    forall r: Rev | r in w'.hist ensures RootedAt(w', r) {
      if r == n {
        NamesLast(w, op);
      } else {
        assert RootedAt(w, r) by { RootedHere(w, r); }
      }
    }
    IsRooted(w');
  }

  lemma RootedHere(w: World, r: Rev)
    requires Rooted(w) && r in w.hist
    ensures RootedAt(w, r)
  {
  }

  lemma IsRooted(w: World)
    requires forall r: Rev {:trigger RootedAt(w, r)} :: r in w.hist ==> RootedAt(w, r)
    ensures Rooted(w)
  {
  }

  /** A record about to be written names the newest retained one of its key. */
  lemma NamesLast(w: World, op: Op)
    requires Sound(w) && Decide(w.db, op).Some?
    ensures var e := Decide(w.db, op).value.entry;
      && e.key == op.key
      && (e.meta.prevRev != 0 ==> e.meta.prevRev in w.db.log && w.db.log[e.meta.prevRev].key == op.key)
      && forall q: Rev :: q in w.db.log && w.db.log[q].key == op.key ==> q <= e.meta.prevRev
  {
    hide Formed, UniqueUuids;
    var last := GetLast(w.db, op.key);
    forall q: Rev | q in w.db.log && w.db.log[q].key == op.key
      ensures q <= Decide(w.db, op).value.entry.meta.prevRev
    {
      assert Pos(op.key, q) in w.db.index;
    }
  }

  lemma RootedFrame(w: World, w': World)
    requires Rooted(w) && w'.hist == w.hist && Faithful(w) && Faithful(w')
    requires forall r: Rev :: r in w'.db.log ==> r in w.db.log
    ensures Rooted(w')
  {
    forall r: Rev | r in w'.hist ensures RootedAt(w', r) { assert RootedAt(w, r); }
  }

  lemma StepKeepsRooted(w: World, act: Action)
    requires Sound(w) && Rooted(w)
    ensures Rooted(Apply(w, act))
  {
    hide Decide, CompactBatch, Commit, Mirrored, Formed, UniqueUuids, Rooted;
    StepKeepsSound(w, act);
    match act
    case Write(op) => if Decide(w.db, op).Some? { CommitRooted(w, op); }
    case Tick(gap) => RootedFrame(w, Apply(w, act));
    case Wipe(keys) => RootedFrame(w, Apply(w, act));
    case Compact(end) => RootedFrame(w, Apply(w, act));
    case Batch(run, budget, advance) =>
      OnlyShrinks(w, act);
      RootedFrame(w, Apply(w, act));
  }

  lemma {:induction false} RunsKeepRooted(w: World, acts: seq<Action>)
    requires Sound(w) && Rooted(w)
    ensures Rooted(Play(w, acts))
    decreases |acts|
  {
    hide Sound, Apply, Rooted;
    if acts != [] {
      StepKeepsRooted(w, acts[0]);
      StepKeepsSound(w, acts[0]);
      RunsKeepRooted(Apply(w, acts[0]), acts[1..]);
    }
  }

  /** It holds in every state the empty store can reach. */
  lemma ReachedIsRooted(latest: Rev, acts: seq<Action>)
    requires latest >= 1
    ensures Rooted(Play(Init(latest), acts))
  {
    hide StoreOk, RunOk, Sound, Play;
    InitInv(latest);
    StoreIsSound(Init(latest));
    RunsKeepRooted(Init(latest), acts);
  }

  lemma SourcedIsAttributed(w: World, ev: Event)
    requires Sourced(w.db.log, w.hist, ev)
    ensures Attributed(w, ev)
  {
  }

  /** What an event could not tell when it was made, the log cannot tell later either. */
  lemma AttributedGrows(w: World, w': World, ev: Event)
    requires Rooted(w) && Faithful(w) && Grows(w, w') && Sheds(w, w') && Attributed(w, ev)
    ensures Attributed(w', ev)
  {
    hide Rooted;
    RootedHere(w, ev.kv.modRevision);
  }

  /** As long as the log is the whole history. */
  lemma PrevIff(w: World, ev: Event)
    requires Rooted(w) && Faithful(w) && w.db.log == w.hist && Truthful(w.hist, ev) && Attributed(w, ev)
    ensures PrevTold(w.hist, ev)
  {
    hide Rooted;
    RootedHere(w, ev.kv.modRevision);
    if ev.prevKV.Some? { assert w.hist[ev.prevKV.value.modRevision].key == ev.kv.key; }
  }

  lemma IntactCommit(w: World, a: Appending, since: Since, p: Rev)
    requires Faithful(w) && Intact(w, since, p)
    ensures Intact(Commit(w, a), since, p)
  {
    hide CurrentAfter;
  }

  lemma IntactBatch(w: World, act: Action, since: Since, pos: Rev)
    requires act.Batch? && act.run < |w.runs| && Faithful(w) && Intact(w, since, pos)
    ensures Intact(Apply(w, act), Losing(since, RemovedBy(w, act, pos)), pos)
  {
    hide CompactScan;
    var run := w.runs[act.run];
    var w' := Apply(w, act);
    ScanLatest(w.db, run.cursor, run.end, act.budget);
    forall r: Rev | r in w'.db.log ensures r in w.db.log {
      ScanShrinks(w.db, run.cursor, run.end, act.budget, r);
    }
  }

  /** Whatever a step does, the log above `pos` is what was due less what the step has removed there. */
  lemma IntactStep(w: World, act: Action, since: Since, pos: Rev)
    requires Faithful(w) && Intact(w, since, pos)
    ensures Intact(Apply(w, act), Losing(since, RemovedBy(w, act, pos)), pos)
  {
    hide Faithful, Decide, CompactBatch, Commit;
    match act
    case Write(op) =>
      if Decide(w.db, op).Some? {
        IntactCommit(w, Decide(w.db, op).value, since, pos);
        NoneRemoved(w, Decide(w.db, op).value);
      }
      assert Losing(since, RemovedBy(w, act, pos)) == since;
    case Tick(gap) =>
    case Wipe(keys) =>
    case Compact(end) =>
    case Batch(run, budget, advance) => if run < |w.runs| { IntactBatch(w, act, since, pos); }
  }

  lemma NoneRemoved(w: World, a: Appending)
    ensures forall r: Rev :: r in w.db.log ==> r in Commit(w, a).db.log
  {
    hide CurrentAfter;
  }

  lemma {:induction false} IntactRun(w: World, acts: seq<Action>, since: Since, pos: Rev)
    requires Sound(w) && Intact(w, since, pos)
    ensures Intact(Play(w, acts), Losing(since, Removed(w, acts, pos)), pos)
    decreases |acts|
  {
    hide Mirrored, UniqueUuids, Formed, Faithful, Intact, Apply, RemovedBy;
    if acts == [] {
      assert Losing(since, {}) == since;
    } else {
      IntactStep(w, acts[0], since, pos);
      StepKeepsSound(w, acts[0]);
      var more := RemovedBy(w, acts[0], pos);
      IntactRun(Apply(w, acts[0]), acts[1..], Losing(since, more), pos);
      assert Losing(Losing(since, more), Removed(Apply(w, acts[0]), acts[1..], pos))
          == Losing(since, Removed(w, acts, pos));
    }
  }

  // ---------------------------------------------------------------- one batch of a log reader

  /** Where a batch ends: the records taken, the last one read, whether the reader needs more. */
  datatype AfterScan = AfterScan(taken: seq<Rev>, last: Rev, more: bool)

  /** `bound` is the reader's latestRev, 0 for none: a record above it ends the read. */
  function ScanAfter(log: map<Rev, Entry>, taken: seq<Rev>, last: Rev, revs: seq<Rev>, extra: nat, bound: Rev,
                     limit: nat, filter: Option<Key>, earlier: nat): AfterScan
    requires AllIn(log, revs)
    decreases |revs|
  {
    if revs == [] || (bound != 0 && revs[0] > bound) then AfterScan(taken, last, false) else
      var r := revs[0];
      var taken' := Took(log, filter, taken, r);
      if !Reads.NeedMore(limit, earlier + |taken'|) then AfterScan(taken', r, false)
      else if extra == 0 then AfterScan(taken', r, true)
      else ScanAfter(log, taken', r, revs[1..], extra - 1, bound, limit, filter, earlier)
  }

  ghost function TakenIn(log: map<Rev, Entry>, filter: Option<Key>, lo: Rev, hi: Rev): set<Rev> {
    set r | r in log && lo < r <= hi && Takes(filter, log[r].key)
  }

  /** Why a batch may stop for good. */
  ghost predicate Over(log: map<Rev, Entry>, bound: Rev, limit: nat, n: nat, last: Rev) {
    || Later(log, last) == {}
    || (bound != 0 && forall r: Rev :: r in log && r > last ==> r > bound)
    || !Reads.NeedMore(limit, n)
  }

  ghost predicate Exact(log: map<Rev, Entry>, taken: seq<Rev>, after: Rev, bound: Rev, limit: nat, filter: Option<Key>,
                        earlier: nat, s: AfterScan) {
    && s.last >= after && (s.last == after || (s.last in log && (bound != 0 ==> s.last <= bound)))
    && s.taken == taken + Asc(TakenIn(log, filter, after, s.last))
    && (if s.more then Reads.NeedMore(limit, earlier + |s.taken|)
          else Over(log, bound, limit, earlier + |s.taken|, s.last))
    && (limit != 0 ==> earlier + |s.taken| <= limit)
  }

  lemma LaterStep(log: map<Rev, Entry>, after: Rev)
    requires Later(log, after) != {}
    ensures var revs := Asc(Later(log, after));
      && revs != [] && revs[0] in log && revs[0] > after && revs[1..] == Asc(Later(log, revs[0]))
      && (forall r: Rev :: r in log && r > after ==> r >= revs[0])
      && AllIn(log, revs)
  {
    hide Asc;
    var s := Later(log, after);
    var revs := Asc(s);
    AscHead(s);
    assert revs[0] == MinOf(s) && revs[1..] == Asc(s - {revs[0]});
    assert Later(log, revs[0]) == s - {revs[0]};
    forall r: Rev | r in log && r > after ensures r >= revs[0] { assert r in s; }
  }

  function Took(log: map<Rev, Entry>, filter: Option<Key>, taken: seq<Rev>, r: Rev): seq<Rev>
    requires r in log
  {
    if Takes(filter, log[r].key) then taken + [r] else taken
  }

  lemma ExactStop(log: map<Rev, Entry>, taken: seq<Rev>, after: Rev, bound: Rev, limit: nat, filter: Option<Key>,
                  earlier: nat, more: bool)
    requires (more ==> Reads.NeedMore(limit, earlier + |taken|)) && (limit != 0 ==> earlier + |taken| <= limit)
    requires !more ==> Over(log, bound, limit, earlier + |taken|, after)
    ensures Exact(log, taken, after, bound, limit, filter, earlier, AfterScan(taken, after, more))
  {
    NothingTaken(log, filter, after, after);
    assert taken + [] == taken;
  }

  lemma ExactStep(log: map<Rev, Entry>, taken: seq<Rev>, after: Rev, r: Rev, bound: Rev, limit: nat,
                  filter: Option<Key>, earlier: nat, s: AfterScan)
    requires r in log && after < r && (forall q: Rev :: q in log && q > after ==> q >= r) && (bound != 0 ==> r <= bound)
    requires Exact(log, Took(log, filter, taken, r), r, bound, limit, filter, earlier, s)
    ensures Exact(log, taken, after, bound, limit, filter, earlier, s)
  {
    hide Takes, Asc, TakenIn, Over, Reads.NeedMore;
    TakenStep(log, filter, after, r, s.last);
  }

  /** A batch takes exactly the matching records between where it begins and the last record it reads. */
  lemma {:induction false} ScanAfterExact(log: map<Rev, Entry>, taken: seq<Rev>, after: Rev, extra: nat, bound: Rev,
                                          limit: nat, filter: Option<Key>, earlier: nat)
    requires Reads.NeedMore(limit, earlier + |taken|)
    ensures Exact(log, taken, after, bound, limit, filter, earlier,
                  ScanAfter(log, taken, after, Asc(Later(log, after)), extra, bound, limit, filter, earlier))
    decreases |Asc(Later(log, after))|
  {
    hide Takes, Reads.NeedMore, Asc, Later, Exact;
    var revs := Asc(Later(log, after));
    if Later(log, after) == {} {
      assert revs == [] by { NoneLater(log, after); }
      OneMore(limit, earlier + |taken|);
      ExactStop(log, taken, after, bound, limit, filter, earlier, false);
    } else {
      LaterStep(log, after);
      var r := revs[0];
      if bound != 0 && r > bound {
        OneMore(limit, earlier + |taken|);
        ExactStop(log, taken, after, bound, limit, filter, earlier, false);
      } else {
        var taken' := Took(log, filter, taken, r);
        var more := Reads.NeedMore(limit, earlier + |taken'|);
        assert limit != 0 ==> earlier + |taken'| <= limit by { OneMore(limit, earlier + |taken|); }
        if more && extra > 0 {
          ScanAfterExact(log, taken', r, extra - 1, bound, limit, filter, earlier);
        } else {
          ExactStop(log, taken', r, bound, limit, filter, earlier, more);
        }
        ExactStep(log, taken, after, r, bound, limit, filter, earlier,
                  ScanAfter(log, taken, after, revs, extra, bound, limit, filter, earlier));
      }
    }
  }

  lemma OneMore(limit: nat, n: nat)
    requires Reads.NeedMore(limit, n)
    ensures limit != 0 ==> n + 1 <= limit
  {
  }

  lemma NoneLater(log: map<Rev, Entry>, after: Rev)
    requires Later(log, after) == {}
    ensures Asc(Later(log, after)) == []
  {
  }

  lemma NothingTaken(log: map<Rev, Entry>, filter: Option<Key>, lo: Rev, hi: Rev)
    requires hi <= lo
    ensures Asc(TakenIn(log, filter, lo, hi)) == []
  {
    assert TakenIn(log, filter, lo, hi) == {};
  }

  /** `r` is the first record after `after`. */
  lemma TakenStep(log: map<Rev, Entry>, filter: Option<Key>, after: Rev, r: Rev, hi: Rev)
    requires r in log && after < r <= hi && forall q: Rev :: q in log && q > after ==> q >= r
    ensures Asc(TakenIn(log, filter, after, hi))
         == (if Takes(filter, log[r].key) then [r] else []) + Asc(TakenIn(log, filter, r, hi))
  {
    hide Takes, Asc;
    var all, rest := TakenIn(log, filter, after, hi), TakenIn(log, filter, r, hi);
    if Takes(filter, log[r].key) {
      forall x ensures x in {r} + rest <==> x in all { }
      assert {r} + rest == all;
      AscOne(r);
      AscSplit({r}, rest);
    } else {
      assert rest == all;
      assert [] + Asc(rest) == Asc(rest);
    }
  }

  // ---------------------------------------------------------------- the collector, updated in place

  const MAX_BATCH_SIZE := 1000

  class AfterCollector {
    const limit: nat
    const checkCompacted: bool
    const minRevision: Rev
    const filter: Option<Key>
    var batchEvents: seq<Event>
    var events: seq<Event>
    var compactRevision: Rev
    var batchCompactRev: Rev
    var latestRev: Rev
    var batchLatestRev: Rev

    constructor (minRevision: Rev, checkCompacted: bool, limit: nat, filter: Option<Key>)
      ensures this.limit == limit && this.checkCompacted == checkCompacted
      ensures this.minRevision == minRevision && this.filter == filter
      ensures events == [] && batchEvents == [] && latestRev == 0 && compactRevision == 0
    {
      this.minRevision, this.checkCompacted, this.limit, this.filter := minRevision, checkCompacted, limit, filter;
      batchEvents, events := [], [];
      compactRevision, batchCompactRev, latestRev, batchLatestRev := 0, 0, 0, 0;
    }

    method StartBatch()
      modifies this
      ensures batchEvents == [] && batchLatestRev == 0 && batchCompactRev == 0
      ensures events == old(events) && latestRev == old(latestRev) && compactRevision == old(compactRevision)
    {
      batchEvents := [];
      batchLatestRev, batchCompactRev := 0, 0;
    }

    /** `go` is false at a record beyond the bound, which is then not taken. */
    method Next(log: map<Rev, Entry>, r: Rev) returns (go: bool, more: bool)
      requires r in log
      modifies this`batchEvents
      ensures go == !(latestRev != 0 && r > latestRev)
      ensures batchEvents ==
        if go && Takes(filter, log[r].key) then old(batchEvents) + [EventOf(log, r)] else old(batchEvents)
      ensures go && Takes(filter, log[r].key) ==> Renders(log, r, batchEvents[|batchEvents| - 1])
      ensures go ==> more == Reads.NeedMore(limit, |events| + |batchEvents|)
    {
      if latestRev != 0 && r > latestRev { return false, false; }
      if Takes(filter, log[r].key) {
        var meta := log[r].meta;
        var event := Event(meta.isCreate, meta.isDelete, Writes.KvOf(r, log[r]), None);
        if meta.prevRev != 0 && meta.prevRev in log {
          event := event.(prevKV := Some(Writes.KvOf(meta.prevRev, log[meta.prevRev])));
        }
        batchEvents := batchEvents + [event];
      }
      go, more := true, limit == 0 || |batchEvents| + |events| < limit;
    }

    method EndBatch(db: Db) returns (compacted: bool)
      modifies this`batchLatestRev, this`batchCompactRev
      ensures compacted == (checkCompacted && 0 < minRevision < db.watermark)
      ensures batchLatestRev == if latestRev == 0 then db.latest else old(batchLatestRev)
      ensures compacted ==> batchCompactRev == db.watermark
    {
      if latestRev == 0 { batchLatestRev := db.latest; }
      if checkCompacted && minRevision > 0 && minRevision < db.watermark {
        batchCompactRev := db.watermark;
        return true;
      }
      return false;
    }

    method PostBatch()
      modifies this
      ensures events == old(events) + old(batchEvents) && latestRev == old(batchLatestRev)
      ensures compactRevision == old(batchCompactRev)
    {
      events := events + batchEvents;
      latestRev := batchLatestRev;
      compactRevision := batchCompactRev;
    }
  }

  /** One record of the scan, and the rest. */
  lemma ScanAfterStep(log: map<Rev, Entry>, taken: seq<Rev>, last: Rev, revs: seq<Rev>, extra: nat, bound: Rev,
                      limit: nat, filter: Option<Key>, earlier: nat)
    requires AllIn(log, revs)
    ensures var s := ScanAfter(log, taken, last, revs, extra, bound, limit, filter, earlier);
      if revs == [] then s == AfterScan(taken, last, false)
      else
        && revs[0] in log && AllIn(log, revs[1..])
        && if bound != 0 && revs[0] > bound then s == AfterScan(taken, last, false) else
          var taken' := Took(log, filter, taken, revs[0]);
          if !Reads.NeedMore(limit, earlier + |taken'|) then s == AfterScan(taken', revs[0], false)
          else if extra == 0 then s == AfterScan(taken', revs[0], true)
          else s == ScanAfter(log, taken', revs[0], revs[1..], extra - 1, bound, limit, filter, earlier)
  {
    assert revs != [] ==> revs[0] in revs;
  }

  /** Feeds the collector from the records after `after` until it has enough, they end, or time is up. */
  method ScanBatch(c: AfterCollector, db: Db, after: Rev, extra: nat)
    returns (last: Rev, more: bool, ghost taken: seq<Rev>)
    modifies c
    ensures AllIn(db.log, Asc(Later(db.log, after))) && AllIn(db.log, taken)
    ensures AfterScan(taken, last, more)
         == ScanAfter(db.log, [], after, Asc(Later(db.log, after)), extra, c.latestRev, c.limit, c.filter, |c.events|)
    ensures c.batchEvents == EventsOf(db.log, taken)
    ensures c.events == old(c.events) && c.latestRev == old(c.latestRev) && c.compactRevision == old(c.compactRevision)
    ensures c.batchLatestRev == 0 && c.batchCompactRev == 0
  {
    hide Takes, Reads.NeedMore, Asc, Later, EventsOf, EventOf, AllIn, ScanAfter;
    c.StartBatch();
    var revs := Asc(Later(db.log, after));
    LaterIn(db.log, after);
    last, more, taken := after, true, [];
    var left := revs;
    var i := 0;
    EventsNone(db.log);
    ghost var goal := ScanAfter(db.log, [], after, revs, extra, c.latestRev, c.limit, c.filter, |c.events|);
    while more
      invariant AllIn(db.log, left) && AllIn(db.log, taken) && c.batchEvents == EventsOf(db.log, taken)
      invariant c.events == old(c.events) && c.latestRev == old(c.latestRev)
      invariant c.compactRevision == old(c.compactRevision)
      invariant c.batchLatestRev == 0 && c.batchCompactRev == 0
      invariant more ==> i <= extra
      invariant more ==>
        goal == ScanAfter(db.log, taken, last, left, extra - i, c.latestRev, c.limit, c.filter, |c.events|)
      invariant !more ==> goal == AfterScan(taken, last, false)
      decreases |left|, more
    {
      ScanAfterStep(db.log, taken, last, left, extra - i, c.latestRev, c.limit, c.filter, |c.events|);
      if left == [] {
        more := false;
      } else {
        var r := left[0];
        var go, m := c.Next(db.log, r);
        if !go {
          more := false;
        } else {
          EventsMore(db.log, taken, r);
          taken := Took(db.log, c.filter, taken, r);
          last, more, left, i := r, m, left[1..], i + 1;
          if i > extra { break; }
        }
      }
    }
  }

  lemma LaterIn(log: map<Rev, Entry>, after: Rev)
    ensures AllIn(log, Asc(Later(log, after)))
  {
  }

  lemma EventsNone(log: map<Rev, Entry>)
    ensures AllIn(log, []) && EventsOf(log, []) == []
  {
  }

  lemma EventsMore(log: map<Rev, Entry>, revs: seq<Rev>, r: Rev)
    requires r in log && AllIn(log, revs)
    ensures AllIn(log, revs + [r]) && EventsOf(log, revs + [r]) == EventsOf(log, revs) + [EventOf(log, r)]
  {
  }

  // ---------------------------------------------------------------- the poll loop

  /** The events tell exactly the due records in an interval, in order and truthfully. */
  ghost predicate Told(h: map<Rev, Entry>, since: Since, filter: Option<Key>, lo: Rev, hi: Rev, events: seq<Event>) {
    Revs(events) == Asc(DueIn(h, since, filter, lo, hi)) && forall i :: 0 <= i < |events| ==> Truthful(h, events[i])
  }

  lemma EventTruthful(w: World, r: Rev)
    requires Faithful(w) && r in w.db.log
    ensures Truthful(w.hist, EventOf(w.db.log, r)) && Sourced(w.db.log, w.hist, EventOf(w.db.log, r))
  {
  }

  /** While compactions begin safely, a truthful event tells what was there just before. */
  lemma TruthfulIsConsecutive(w: World, ev: Event)
    requires Inv(w) && Truthful(w.hist, ev)
    ensures Consecutive(w.hist, ev)
  {
    hide RunOk, Retained, UniqueUuids, CurrentOk, Mirrored, Writes.Born;
    assert Linked(w.hist, ev.kv.modRevision);
    Writes.OutlinedIsBorn(w.hist, ev.kv);
    if ev.prevKV.Some? { Writes.OutlinedIsBorn(w.hist, ev.prevKV.value); }
  }

  /** What a batch took is what was due in the interval it read. */
  lemma BatchTold(w: World, since: Since, after: Rev, last: Rev, filter: Option<Key>, taken: seq<Rev>)
    requires Faithful(w) && Intact(w, since, after) && AllIn(w.db.log, taken)
    requires taken == Asc(TakenIn(w.db.log, filter, after, last))
    ensures Told(w.hist, since, filter, after, last, EventsOf(w.db.log, taken))
    ensures AllSourced(w, EventsOf(w.db.log, taken))
  {
    hide Asc, Takes, Due, Truthful, Sourced;
    assert TakenIn(w.db.log, filter, after, last) == DueIn(w.hist, since, filter, after, last);
    forall i | 0 <= i < |taken|
      ensures Truthful(w.hist, EventOf(w.db.log, taken[i])) && Sourced(w.db.log, w.hist, EventOf(w.db.log, taken[i]))
    {
      assert taken[i] in taken;
      EventTruthful(w, taken[i]);
    }
  }

  /** Every event of the batch comes with what it replaced exactly if the log the batch read has that. */
  ghost predicate AllSourced(w: World, events: seq<Event>) {
    forall i :: 0 <= i < |events| ==> Sourced(w.db.log, w.hist, events[i])
  }

  ghost predicate AllAttributed(w: World, events: seq<Event>) {
    forall i :: 0 <= i < |events| ==> Attributed(w, events[i])
  }

  lemma AttributedMore(w: World, a: seq<Event>, b: seq<Event>)
    requires AllAttributed(w, a) && AllSourced(w, b)
    ensures AllAttributed(w, a + b)
  {
    hide Attributed, Sourced;
    forall i | 0 <= i < |b| ensures Attributed(w, b[i]) { SourcedIsAttributed(w, b[i]); }
  }

  lemma AttributedStays(w: World, acts: seq<Action>, events: seq<Event>)
    requires Sound(w) && Rooted(w) && AllAttributed(w, events)
    ensures Rooted(Play(w, acts)) && AllAttributed(Play(w, acts), events)
  {
    hide Sound, Rooted, Play, Attributed, Grows, Sheds;
    RunsKeepSound(w, acts);
    RunSheds(w, acts);
    RunsKeepRooted(w, acts);
    SoundIsFaithful(w);
    forall i | 0 <= i < |events| ensures Attributed(Play(w, acts), events[i]) {
      AttributedGrows(w, Play(w, acts), events[i]);
    }
  }

  lemma AllPrevTold(w: World, events: seq<Event>)
    requires Rooted(w) && Faithful(w) && w.db.log == w.hist && AllAttributed(w, events)
    requires forall i :: 0 <= i < |events| ==> Truthful(w.hist, events[i])
    ensures forall i :: 0 <= i < |events| ==> PrevTold(w.hist, events[i])
  {
    hide Rooted, Attributed, Truthful, PrevTold, Faithful;
    forall i | 0 <= i < |events| ensures PrevTold(w.hist, events[i]) { PrevIff(w, events[i]); }
  }

  /** If there is a record to read, a reader of everything reads one. */
  lemma ReadsSomething(log: map<Rev, Entry>, after: Rev, extra: nat, limit: nat)
    requires Later(log, after) != {} && Reads.NeedMore(limit, 0)
    ensures ScanAfter(log, [], after, Asc(Later(log, after)), extra, 0, limit, None, 0).last > after
  {
    hide Asc, Later, ScanAfter;
    LaterStep(log, after);
    var revs := Asc(Later(log, after));
    ScanAfterStep(log, [], after, revs, extra, 0, limit, None, 0);
    if Reads.NeedMore(limit, 1) && extra > 0 { ScanAfterExact(log, [revs[0]], revs[0], extra - 1, 0, limit, None, 0); }
    assert [] + [revs[0]] == [revs[0]];
  }

  lemma LastIsMax(log: map<Rev, Entry>, after: Rev, last: Rev)
    requires after < last && last in log
    ensures var q := Asc(TakenIn(log, None, after, last)); q != [] && q[|q| - 1] == last
  {
    var q := Asc(TakenIn(log, None, after, last));
    assert last in TakenIn(log, None, after, last);
    assert last in q;
    assert q[|q| - 1] in q;
  }

  /** Where the poll's batch after `cursor` ends. */
  function PollScan(db: Db, cursor: Rev, extra: nat): AfterScan {
    LaterIn(db.log, cursor);
    ScanAfter(db.log, [], cursor, Asc(Later(db.log, cursor)), extra, 0, MAX_BATCH_SIZE, None, 0)
  }

  lemma PollScanIn(db: Db, cursor: Rev, extra: nat)
    ensures AllIn(db.log, PollScan(db, cursor, extra).taken)
  {
    hide Asc, Later, ScanAfter;
    ScanAfterExact(db.log, [], cursor, extra, 0, MAX_BATCH_SIZE, None, 0);
    assert forall r :: r in Asc(TakenIn(db.log, None, cursor, PollScan(db, cursor, extra).last)) ==> r in db.log;
  }

  /** The events a poll iteration broadcasts, and the cursor it then stores. */
  function Broadcast(db: Db, cursor: Rev, extra: nat): seq<Event> {
    PollScanIn(db, cursor, extra);
    EventsOf(db.log, PollScan(db, cursor, extra).taken)
  }

  function CursorAfter(db: Db, cursor: Rev, extra: nat): Rev {
    var events := Broadcast(db, cursor, extra);
    if |events| > 0 then events[|events| - 1].kv.modRevision else db.latest
  }

  /** A single batch of at most `MAX_BATCH_SIZE` events after `minRevision`, and the read version it was read at. */
  method AfterBatch(db: Db, minRevision: Rev, extra: nat) returns (latestRev: Rev, events: seq<Event>)
    ensures latestRev == db.latest && events == Broadcast(db, minRevision, extra)
  {
    hide Asc, Later, ScanAfter, EventsOf, AllIn;
    var c := new AfterCollector(minRevision, false, MAX_BATCH_SIZE, None);
    var last, more;
    ghost var taken;
    last, more, taken := ScanBatch(c, db, minRevision, extra);
    var compacted := c.EndBatch(db);
    c.PostBatch();
    latestRev, events := c.latestRev, c.events;
  }

  /** One iteration: the events to broadcast and the cursor to store. A failed read changes neither. */
  method PollOnce(w: World, cursor: Rev, extra: nat, failed: bool, ghost since: Since)
    returns (events: seq<Event>, cursor': Rev)
    requires Faithful(w) && Intact(w, since, cursor) && cursor <= w.db.latest
    ensures events == if failed then [] else Broadcast(w.db, cursor, extra)
    ensures cursor' == if failed then cursor else CursorAfter(w.db, cursor, extra)
    ensures |events| <= MAX_BATCH_SIZE && cursor <= cursor' <= w.db.latest
    ensures !failed && Later(w.db.log, cursor) != {} ==> cursor' > cursor
    ensures !failed && Later(w.db.log, cursor) == {} ==> cursor' == w.db.latest
    ensures |events| == if failed then 0 else Least(|Later(w.db.log, cursor)|, Least(extra + 1, MAX_BATCH_SIZE))
    ensures Told(w.hist, since, None, cursor, cursor', events) && AllSourced(w, events)
  {
    hide Faithful, Later, Intact, Told, Broadcast, Sourced;
    if failed {
      NothingTold(w.hist, since, None, cursor);
      return [], cursor;
    }
    var latestRev;
    latestRev, events := AfterBatch(w.db, cursor, extra);
    PollBatch(w, since, cursor, extra);
    cursor' := if |events| > 0 then events[|events| - 1].kv.modRevision else latestRev;
  }

  lemma NothingTold(h: map<Rev, Entry>, since: Since, filter: Option<Key>, at: Rev)
    ensures Told(h, since, filter, at, at, [])
  {
    assert DueIn(h, since, filter, at, at) == {};
  }

  function Least(a: nat, b: nat): nat {
    if a < b then a else b
  }

  /** How many records a reader of everything takes: all there are, or as many as the time or the batch size allow. */
  lemma {:induction false} TakesAll(log: map<Rev, Entry>, taken: seq<Rev>, after: Rev, extra: nat, limit: nat)
    requires |taken| < limit
    ensures |ScanAfter(log, taken, after, Asc(Later(log, after)), extra, 0, limit, None, 0).taken|
         == |taken| + Least(|Later(log, after)|, Least(extra + 1, limit - |taken|))
    decreases |Later(log, after)|
  {
    hide Asc, Later, ScanAfter;
    var revs := Asc(Later(log, after));
    LaterIn(log, after);
    ScanAfterStep(log, taken, after, revs, extra, 0, limit, None, 0);
    if Later(log, after) == {} {
      NoneLater(log, after);
    } else {
      LaterStep(log, after);
      LaterFewer(log, after, revs[0]);
      if |taken| + 1 < limit && extra > 0 { TakesAll(log, taken + [revs[0]], revs[0], extra - 1, limit); }
    }
  }

  lemma LaterFewer(log: map<Rev, Entry>, after: Rev, r: Rev)
    requires r in log && r > after && forall q: Rev :: q in log && q > after ==> q >= r
    ensures |Later(log, r)| == |Later(log, after)| - 1
  {
    assert Later(log, after) == Later(log, r) + {r} && r !in Later(log, r);
  }

  /** What a poll iteration broadcasts, over the log it reads and everything committed. */
  lemma PollBatch(w: World, since: Since, cursor: Rev, extra: nat)
    requires Faithful(w) && Intact(w, since, cursor) && cursor <= w.db.latest
    ensures var events, next := Broadcast(w.db, cursor, extra), CursorAfter(w.db, cursor, extra);
      && |events| == Least(|Later(w.db.log, cursor)|, Least(extra + 1, MAX_BATCH_SIZE))
      && cursor <= next <= w.db.latest && Told(w.hist, since, None, cursor, next, events) && AllSourced(w, events)
      && (if Later(w.db.log, cursor) == {} then next == w.db.latest else cursor < next && next in w.db.log)
  {
    hide Intact, Asc, ScanAfter, Told, EventsOf, Later, TakenIn, Truthful, Sourced;
    TakesAll(w.db.log, [], cursor, extra, MAX_BATCH_SIZE);
    PollScanIn(w.db, cursor, extra);
    var s := PollScan(w.db, cursor, extra);
    var log, taken, last := w.db.log, s.taken, s.last;
    ScanAfterExact(log, [], cursor, extra, 0, MAX_BATCH_SIZE, None, 0);
    assert [] + Asc(TakenIn(log, None, cursor, last)) == taken;
    if last > cursor {
      LastIsMax(log, cursor, last);
      BatchTold(w, since, cursor, last, None, taken);
    } else {
      NothingTaken(log, None, cursor, last);
      if Later(log, cursor) != {} { ReadsSomething(log, cursor, extra, MAX_BATCH_SIZE); }
      AllCaughtUp(w, since, None, cursor);
    }
  }

  /** With nothing left to read, nothing is due up to the read version. */
  lemma AllCaughtUp(w: World, since: Since, filter: Option<Key>, pos: Rev)
    requires Intact(w, since, pos) && Later(w.db.log, pos) == {}
    ensures Told(w.hist, since, filter, pos, w.db.latest, [])
  {
    forall r: Rev ensures r !in DueIn(w.hist, since, filter, pos, w.db.latest) {
      assert r in DueIn(w.hist, since, filter, pos, w.db.latest) ==> r in Later(w.db.log, pos);
    }
    assert DueIn(w.hist, since, filter, pos, w.db.latest) == {};
  }

  function SinceOf(w: World): Since {
    Since(w.db.log, w.db.latest, {})
  }

  lemma IntactAtFirst(w: World, pos: Rev)
    requires Faithful(w)
    ensures Intact(w, SinceOf(w), pos)
  {
  }

  lemma ToldMore(h: map<Rev, Entry>, since: Since, filter: Option<Key>, lo: Rev, mid: Rev, hi: Rev, a: seq<Event>,
                 b: seq<Event>)
    requires lo <= mid <= hi && Told(h, since, filter, lo, mid, a) && Told(h, since, filter, mid, hi, b)
    ensures Told(h, since, filter, lo, hi, a + b)
  {
    hide Truthful, Asc, DueIn;
    DueSplit(h, since, filter, lo, mid, hi);
    assert Revs(a + b) == Revs(a) + Revs(b);
  }

  lemma TruthfulGrows(w: World, w': World, ev: Event)
    requires Grows(w, w') && Truthful(w.hist, ev)
    ensures Truthful(w'.hist, ev)
  {
  }

  /** What has been told stays told: later commits change nothing at or below the read version. */
  lemma ToldGrows(w: World, w': World, since: Since, filter: Option<Key>, lo: Rev, hi: Rev, events: seq<Event>)
    requires Grows(w, w') && hi <= w.db.latest && Told(w.hist, since, filter, lo, hi, events)
    ensures Told(w'.hist, since, filter, lo, hi, events)
  {
    hide Truthful, Asc, Grows, Due, Takes;
    DueStable(w, w', since, filter, lo, hi);
    forall i | 0 <= i < |events| ensures Truthful(w'.hist, events[i]) {
      TruthfulGrows(w, w', events[i]);
    }
  }

  /** What a reader loses later, above where it has told everything, does not change what it has told. */
  lemma ToldStill(h: map<Rev, Entry>, since: Since, more: set<Rev>, filter: Option<Key>, lo: Rev, hi: Rev,
                  events: seq<Event>)
    requires Told(h, since, filter, lo, hi, events) && forall r :: r in more ==> r > hi
    ensures Told(h, Losing(since, more), filter, lo, hi, events)
  {
    hide Truthful, Asc, DueIn;
    DueBelow(h, since, more, filter, lo, hi);
  }

  function Flatten(batches: seq<seq<Event>>): seq<Event> {
    if batches == [] then [] else Flatten(batches[..|batches| - 1]) + batches[|batches| - 1]
  }

  lemma FlattenMore(batches: seq<seq<Event>>, b: seq<Event>)
    ensures Flatten(batches + [b]) == Flatten(batches) + b
  {
    assert (batches + [b])[..|batches|] == batches;
  }

  /** One turn of the poll loop: what others do meanwhile, when its read is split, whether it fails. */
  datatype PollTurn = PollTurn(others: seq<Action>, extra: nat, failed: bool)

  /** `lost` is what others have removed before the loop got there. */
  datatype PollState = PollState(w: World, cursor: Rev, batches: seq<seq<Event>>, lost: set<Rev>)

  /** One turn: others first, then an iteration of the loop. */
  function PollTurned(s: PollState, turn: PollTurn): PollState {
    var w := Play(s.w, turn.others);
    var lost := s.lost + Removed(s.w, turn.others, s.cursor);
    if turn.failed then s.(w := w, lost := lost) else
      var events := Broadcast(w.db, s.cursor, turn.extra);
      PollState(w, CursorAfter(w.db, s.cursor, turn.extra), if |events| > 0 then s.batches + [events] else s.batches,
                lost)
  }

  function PollRun(s: PollState, plan: seq<PollTurn>): PollState
    decreases |plan|
  {
    if plan == [] then s else PollTurned(PollRun(s, plan[..|plan| - 1]), plan[|plan| - 1])
  }

  lemma PollRunStep(s: PollState, plan: seq<PollTurn>, i: nat)
    requires i < |plan|
    ensures PollRun(s, plan[..i + 1]) == PollTurned(PollRun(s, plan[..i]), plan[i])
  {
    assert plan[..i + 1][..i] == plan[..i];
  }

  ghost predicate TameTurns(s: PollState, plan: seq<PollTurn>)
    decreases |plan|
  {
    plan == [] ||
    (TameTurns(s, plan[..|plan| - 1]) && TameRun(PollRun(s, plan[..|plan| - 1]).w, plan[|plan| - 1].others))
  }

  /** Compactions that begin safely keep the store invariant, and then every event tells what was there just before. */
  lemma {:induction false} TameTurnsKeepInv(s: PollState, plan: seq<PollTurn>)
    requires Inv(s.w) && TameTurns(s, plan)
    ensures Inv(PollRun(s, plan).w)
    decreases |plan|
  {
    hide Inv, Play, TameRun, Broadcast, CursorAfter, Removed;
    if plan != [] {
      TameTurnsKeepInv(s, plan[..|plan| - 1]);
      TameRunGrows(PollRun(s, plan[..|plan| - 1]).w, plan[|plan| - 1].others);
    }
  }

  // ---------------------------------------------------------------- the loop catches up

  /** Turns in which nobody writes and no read fails. */
  predicate Quiet(plan: seq<PollTurn>) {
    forall i :: 0 <= i < |plan| ==> plan[i].others == [] && !plan[i].failed
  }

  lemma {:induction false} PollRunConcat(s: PollState, a: seq<PollTurn>, b: seq<PollTurn>)
    ensures PollRun(s, a + b) == PollRun(PollRun(s, a), b)
    decreases |b|
  {
    hide PollTurned;
    if b == [] {
      assert a + b == a;
    } else {
      var n := |b| - 1;
      PollRunConcat(s, a, b[..n]);
      assert (a + b)[..|a + b| - 1] == a + b[..n];
    }
  }

  lemma QuietTurn(s: PollState, turn: PollTurn)
    requires Faithful(s.w) && s.cursor <= s.w.db.latest && turn.others == [] && !turn.failed
    ensures var s' := PollTurned(s, turn);
      && s'.w == s.w && s.cursor <= s'.cursor <= s.w.db.latest
      && (if Later(s.w.db.log, s.cursor) == {} then s'.cursor == s.w.db.latest
          else |Later(s.w.db.log, s'.cursor)| < |Later(s.w.db.log, s.cursor)|)
  {
    hide Faithful, Intact, Told, Broadcast, CursorAfter, AllSourced, Later;
    IntactAtFirst(s.w, s.cursor);
    PollBatch(s.w, SinceOf(s.w), s.cursor, turn.extra);
    var next := CursorAfter(s.w.db, s.cursor, turn.extra);
    if Later(s.w.db.log, s.cursor) != {} { LaterLess(s.w.db.log, s.cursor, next); }
  }

  lemma LaterLess(log: map<Rev, Entry>, after: Rev, next: Rev)
    requires after < next && next in log
    ensures |Later(log, next)| < |Later(log, after)|
  {
    SmallerSet(Later(log, next), Later(log, after), next);
  }

  lemma SmallerSet(a: set<Rev>, b: set<Rev>, x: Rev)
    requires a <= b && x in b && x !in a
    ensures |a| < |b|
  {
    SetSize(a, b - {x});
  }

  lemma {:induction false} SetSize(a: set<Rev>, b: set<Rev>)
    requires a <= b
    ensures |a| <= |b|
    decreases |a|
  {
    if x :| x in a { SetSize(a - {x}, b - {x}); }
  }

  /** Left alone for more turns than there are records to read, the loop reaches the read version. */
  lemma {:induction false} PollCatchesUp(s: PollState, plan: seq<PollTurn>)
    requires Faithful(s.w) && s.cursor <= s.w.db.latest && Quiet(plan)
    ensures var s' := PollRun(s, plan);
      && s'.w == s.w && s.cursor <= s'.cursor <= s.w.db.latest
      && (if |plan| > |Later(s.w.db.log, s.cursor)| then s'.cursor == s.w.db.latest
          else |Later(s.w.db.log, s'.cursor)| <= |Later(s.w.db.log, s.cursor)| - |plan|)
    decreases |plan|
  {
    hide Faithful, PollTurned, Later;
    if plan != [] {
      var n := |plan| - 1;
      var mid := PollRun(s, plan[..n]);
      PollCatchesUp(s, plan[..n]);
      QuietTurn(mid, plan[n]);
      NoneAbove(s.w);
      if n == |Later(s.w.db.log, s.cursor)| { assert Later(s.w.db.log, mid.cursor) == {}; }
    }
  }

  lemma NoneAbove(w: World)
    requires Faithful(w)
    ensures Later(w.db.log, w.db.latest) == {}
  {
  }

  lemma EndsCaughtUp(s: PollState, plan: seq<PollTurn>, k: nat)
    requires Sound(s.w) && s.cursor <= s.w.db.latest && k <= |plan| && Quiet(plan[k..])
    requires |plan| - k > |PollRun(s, plan).w.db.log|
    ensures var s' := PollRun(s, plan); s'.cursor == s'.w.db.latest
  {
    hide Sound, Quiet, Later;
    assert plan == plan[..k] + plan[k..];
    PollRunConcat(s, plan[..k], plan[k..]);
    var mid := PollRun(s, plan[..k]);
    RunStaysSound(s, plan[..k]);
    SoundIsFaithful(mid.w);
    PollCatchesUp(mid, plan[k..]);
    LaterFits(mid.w.db.log, mid.cursor);
  }

  lemma LaterFits(log: map<Rev, Entry>, after: Rev)
    ensures |Later(log, after)| <= |log|
  {
    SetSize(Later(log, after), log.Keys);
    assert |log.Keys| == |log|;
  }

  lemma {:induction false} RunStaysSound(s: PollState, plan: seq<PollTurn>)
    requires Sound(s.w) && s.cursor <= s.w.db.latest
    ensures var s' := PollRun(s, plan); Sound(s'.w) && s'.cursor <= s'.w.db.latest
    decreases |plan|
  {
    hide Sound, Play, Removed, Broadcast, CursorAfter, Intact, Told, Grows, Later, AllSourced;
    if plan != [] {
      var n := |plan| - 1;
      var mid, turn := PollRun(s, plan[..n]), plan[n];
      RunStaysSound(s, plan[..n]);
      var w := Play(mid.w, turn.others);
      RunsKeepSound(mid.w, turn.others);
      GrowsLatest(mid.w, w);
      SoundIsFaithful(w);
      IntactAtFirst(w, mid.cursor);
      PollBatch(w, SinceOf(w), mid.cursor, turn.extra);
    }
  }

  /** One turn of the loop, on what the turns before it have told. */
  lemma TurnTold(s: PollState, since: Since, pollStart: Rev, turn: PollTurn)
    requires Sound(s.w) && pollStart <= s.cursor <= s.w.db.latest
    requires Intact(s.w, since, s.cursor) && Told(s.w.hist, since, None, pollStart, s.cursor, Flatten(s.batches))
    ensures var w := Play(s.w, turn.others);
      var since' := Losing(since, Removed(s.w, turn.others, s.cursor));
      && Sound(w) && Grows(s.w, w) && s.cursor <= w.db.latest && Intact(w, since', s.cursor)
      && Told(w.hist, since', None, pollStart, s.cursor, Flatten(s.batches))
  {
    hide Sound, Intact, Told, Grows, Removed, Play;
    var w, more := Play(s.w, turn.others), Removed(s.w, turn.others, s.cursor);
    RunsKeepSound(s.w, turn.others);
    GrowsLatest(s.w, w);
    IntactRun(s.w, turn.others, since, s.cursor);
    RemovedAbove(s.w, turn.others, s.cursor);
    ToldGrows(s.w, w, since, None, pollStart, s.cursor, Flatten(s.batches));
    ToldStill(w.hist, since, more, None, pollStart, s.cursor, Flatten(s.batches));
  }

  /**
   * The poll loop, whatever its turns and whatever compaction does. What it has broadcast is exactly the log between
   * where it began and its cursor, every record once and in revision order, less exactly what was removed before the
   * loop got there; its cursor never falls.
   */
  method Poll(start: World, pollStart: Rev, plan: seq<PollTurn>)
    returns (w: World, cursor: Rev, batches: seq<seq<Event>>)
    requires Sound(start) && pollStart <= start.db.latest
    ensures var s := PollRun(PollState(start, pollStart, [], {}), plan);
      && w == s.w && cursor == s.cursor && batches == s.batches
      && Told(w.hist, Losing(SinceOf(start), s.lost), None, pollStart, cursor, Flatten(batches))
    ensures Sound(w) && Grows(start, w) && pollStart <= cursor <= w.db.latest
    ensures Inv(start) && TameTurns(PollState(start, pollStart, [], {}), plan) ==>
      Inv(w) && forall i :: 0 <= i < |Flatten(batches)| ==> Consecutive(w.hist, Flatten(batches)[i])
    ensures Rooted(start) && w.db.log == w.hist ==>
      forall i :: 0 <= i < |Flatten(batches)| ==> PrevTold(w.hist, Flatten(batches)[i])
    ensures forall k :: 0 <= k <= |plan| - |w.db.log| - 1 && Quiet(plan[k..]) ==> cursor == w.db.latest
  {
    hide Inv, Sound, Intact, Told, Grows, Play, Removed, Broadcast, CursorAfter, SinceOf, TameTurns, Consecutive;
    hide Rooted, AllAttributed, AllSourced, PrevTold, Quiet;
    ghost var first, since := PollState(start, pollStart, [], {}), SinceOf(start);
    ghost var lost: set<Rev> := {};
    w, cursor, batches := start, pollStart, [];
    Begins(start, pollStart);
    for i := 0 to |plan|
      invariant PollState(w, cursor, batches, lost) == PollRun(first, plan[..i])
      invariant since == Losing(SinceOf(start), lost)
      invariant Sound(w) && Grows(start, w) && pollStart <= cursor <= w.db.latest
      invariant Intact(w, since, cursor) && Told(w.hist, since, None, pollStart, cursor, Flatten(batches))
      invariant Rooted(start) ==> Rooted(w) && AllAttributed(w, Flatten(batches))
    {
      PollRunStep(first, plan, i);
      ghost var before := w;
      TurnTold(PollState(w, cursor, batches, lost), since, pollStart, plan[i]);
      ghost var more := Removed(w, plan[i].others, cursor);
      if Rooted(start) { AttributedStays(w, plan[i].others, Flatten(batches)); }
      w := Play(w, plan[i].others);
      since, lost := Losing(since, more), lost + more;
      assert since == Losing(SinceOf(start), lost);
      GrowsTransitive(start, before, w);
      SoundIsFaithful(w);
      var events, next := PollOnce(w, cursor, plan[i].extra, plan[i].failed, since);
      ToldMore(w.hist, since, None, pollStart, cursor, next, Flatten(batches), events);
      IntactHigher(w, since, cursor, next);
      FlattenMore(batches, events);
      if Rooted(start) { AttributedMore(w, Flatten(batches), events); }
      if |events| > 0 {
        batches := batches + [events];
      } else {
        assert Flatten(batches) + events == Flatten(batches);
      }
      cursor := next;
    }
    assert plan[..|plan|] == plan;
    if Inv(start) && TameTurns(first, plan) {
      TameTurnsKeepInv(first, plan);
      AllConsecutive(w, since, None, pollStart, cursor, Flatten(batches));
    }
    if Rooted(start) && w.db.log == w.hist {
      SoundIsFaithful(w);
      ToldTruthful(w.hist, since, None, pollStart, cursor, Flatten(batches));
      AllPrevTold(w, Flatten(batches));
    }
    forall k | 0 <= k <= |plan| - |w.db.log| - 1 && Quiet(plan[k..]) ensures cursor == w.db.latest {
      EndsCaughtUp(first, plan, k);
    }
  }

  lemma ToldTruthful(h: map<Rev, Entry>, since: Since, filter: Option<Key>, lo: Rev, hi: Rev, events: seq<Event>)
    requires Told(h, since, filter, lo, hi, events)
    ensures forall i :: 0 <= i < |events| ==> Truthful(h, events[i])
  {
  }

  lemma Begins(w: World, at: Rev)
    requires Sound(w)
    ensures Faithful(w) && Grows(w, w) && Intact(w, SinceOf(w), at) && SinceOf(w) == Losing(SinceOf(w), {})
    ensures forall filter :: Told(w.hist, SinceOf(w), filter, at, at, [])
    ensures AllAttributed(w, [])
  {
    hide Sound, Faithful, Intact, Grows, Told, SinceOf;
    SoundIsFaithful(w);
    GrowsReflexive(w);
    IntactAtFirst(w, at);
    assert SinceOf(w) == Losing(SinceOf(w), {}) by { assert SinceOf(w).lost + {} == SinceOf(w).lost; }
    forall filter ensures Told(w.hist, SinceOf(w), filter, at, at, []) { NothingTold(w.hist, SinceOf(w), filter, at); }
  }

  lemma SoundIsFaithful(w: World)
    requires Sound(w)
    ensures Faithful(w)
  {
  }

  lemma AllConsecutive(w: World, since: Since, filter: Option<Key>, lo: Rev, hi: Rev, events: seq<Event>)
    requires Inv(w) && Told(w.hist, since, filter, lo, hi, events)
    ensures forall i :: 0 <= i < |events| ==> Consecutive(w.hist, events[i])
  {
    hide Inv, Truthful, Consecutive;
    forall i | 0 <= i < |events| ensures Consecutive(w.hist, events[i]) { TruthfulIsConsecutive(w, events[i]); }
  }

  lemma GrowsLatest(w: World, w': World)
    requires Grows(w, w')
    ensures w.db.latest <= w'.db.latest
  {
  }

  lemma IntactHigher(w: World, since: Since, pos: Rev, pos': Rev)
    requires Intact(w, since, pos) && pos <= pos'
    ensures Intact(w, since, pos')
  {
  }
}
