/**
 * The count tracker: seeded by one scan, then moved along by the events the poll loop broadcasts, so that a Count
 * need not scan again.
 */
module Counts {
  import opened Types
  import opened Store
  import opened World
  import opened TupleRange
  import opened RevisionLog
  import opened Polling
  import Reads
  import Collectors

  // ---------------------------------------------------------------- what is counted

  ghost predicate NewestAt(h: map<Rev, Entry>, r: Rev, at: Rev) {
    r in h && r <= at && forall s: Rev :: s in h && s <= at && h[s].key == h[r].key ==> s <= r
  }

  /** The live keys matching the prefix at a revision, each by its newest record. */
  ghost function LiveAt(h: map<Rev, Entry>, prefix: Key, at: Rev): set<Rev> {
    set r | r in h && NewestAt(h, r, at) && Live(h[r]) && Matches(h[r].key, prefix)
  }

  ghost function LiveCount(h: map<Rev, Entry>, prefix: Key, at: Rev): nat {
    |LiveAt(h, prefix, at)|
  }

  ghost function Delta(e: Entry, prefix: Key): int {
    if !Matches(e.key, prefix) then 0 else if e.meta.isCreate then 1 else if e.meta.isDelete then -1 else 0
  }

  /** A revision at which nothing was committed changes no count. */
  lemma CountSame(h: map<Rev, Entry>, prefix: Key, r: Rev)
    requires r > 0 && r !in h
    ensures LiveAt(h, prefix, r) == LiveAt(h, prefix, r - 1)
  {
    hide Matches;
    forall q: Rev ensures NewestAt(h, q, r) <==> NewestAt(h, q, r - 1) {}
  }

  lemma NewestStep(h: map<Rev, Entry>, r: Rev, q: Rev)
    requires r in h && r > 0 && q in h
    ensures NewestAt(h, r, r)
    ensures q != r ==> (NewestAt(h, q, r) <==> NewestAt(h, q, r - 1) && h[q].key != h[r].key)
  {
  }

  /** The only record a new one supersedes is the one just before it in its key. */
  lemma PrevWasNewest(h: map<Rev, Entry>, r: Rev, q: Rev)
    requires r in h && r > 0 && NewestAt(h, q, r - 1) && h[q].key == h[r].key
    ensures Precedes(h, q, r)
  {
  }

  lemma PrecedesUnique(h: map<Rev, Entry>, p: Rev, q: Rev, r: Rev)
    requires Precedes(h, p, r) && Precedes(h, q, r)
    ensures p == q
  {
  }

  lemma PrevIsNewest(h: map<Rev, Entry>, r: Rev, p: Rev)
    requires r in h && r > 0 && Precedes(h, p, r)
    ensures NewestAt(h, p, r - 1)
  {
  }

  /** How one record changes which keys are live: it comes in if it is live, what it supersedes goes out. */
  lemma LiveStep(h: map<Rev, Entry>, prefix: Key, r: Rev, q: Rev)
    requires Chained(h) && r in h && r > 0
    ensures q in LiveAt(h, prefix, r) <==>
      if q == r then Live(h[r]) && Matches(h[r].key, prefix)
      else q in LiveAt(h, prefix, r - 1) && (h[r].meta.isCreate || q != h[r].meta.prevRev)
  {
    hide Matches, NewestAt, Precedes;
    assert Linked(h, r);
    NewestStep(h, r, r);
    if q in h && q != r {
      NewestStep(h, r, q);
      if !h[r].meta.isCreate { PrecedesKey(h, h[r].meta.prevRev, r); }
      if NewestAt(h, q, r - 1) && h[q].key == h[r].key {
        PrevWasNewest(h, r, q);
        if !h[r].meta.isCreate { PrecedesUnique(h, h[r].meta.prevRev, q, r); }
      }
    }
  }

  lemma SupersededWasLive(h: map<Rev, Entry>, prefix: Key, r: Rev)
    requires Chained(h) && r in h && r > 0 && !h[r].meta.isCreate
    ensures h[r].meta.prevRev in LiveAt(h, prefix, r - 1) <==> Matches(h[r].key, prefix)
  {
    hide Matches, NewestAt, Precedes;
    assert Linked(h, r);
    PrevIsNewest(h, r, h[r].meta.prevRev);
    PrecedesKey(h, h[r].meta.prevRev, r);
  }

  /** A create adds one live key, a delete takes one away, an update replaces a record by another. */
  lemma CountStep(h: map<Rev, Entry>, prefix: Key, r: Rev)
    requires Chained(h) && r in h && r > 0
    ensures LiveCount(h, prefix, r) == LiveCount(h, prefix, r - 1) + Delta(h[r], prefix)
  {
    hide Matches, LiveAt, Chained;
    var before, after := LiveAt(h, prefix, r - 1), LiveAt(h, prefix, r);
    forall q: Rev ensures q in after <==>
      if q == r then Live(h[r]) && Matches(h[r].key, prefix)
      else q in before && (h[r].meta.isCreate || q != h[r].meta.prevRev)
    {
      LiveStep(h, prefix, r, q);
    }
    assert r !in before by { LiveBelow(h, prefix, r - 1, r); }
    CreateIsLive(h, r);
    var gone := if h[r].meta.isCreate then before else before - {h[r].meta.prevRev};
    if !h[r].meta.isCreate { SupersededWasLive(h, prefix, r); }
    if Live(h[r]) && Matches(h[r].key, prefix) { assert after == gone + {r}; } else { assert after == gone; }
  }

  lemma CreateIsLive(h: map<Rev, Entry>, r: Rev)
    requires Chained(h) && r in h
    ensures h[r].meta.isCreate ==> Live(h[r])
  {
    assert Linked(h, r);
  }

  lemma LiveBelow(h: map<Rev, Entry>, prefix: Key, at: Rev, r: Rev)
    requires r > at
    ensures r !in LiveAt(h, prefix, at)
  {
  }

  lemma PrecedesKey(h: map<Rev, Entry>, p: Rev, r: Rev)
    requires Precedes(h, p, r)
    ensures p in h && h[p].key == h[r].key && p < r
  {
  }

  // ---------------------------------------------------------------- what events add up to

  function EventDelta(ev: Event, prefix: Key): int {
    if !Matches(ev.kv.key, prefix) then 0 else if ev.create then 1 else if ev.delete then -1 else 0
  }

  /** What the events after `seedRev` add to the count of a prefix. */
  function Net(events: seq<Event>, prefix: Key, seedRev: Rev): int {
    if events == [] then 0 else
      var last := events[|events| - 1];
      Net(events[..|events| - 1], prefix, seedRev)
      + if last.kv.modRevision > seedRev then EventDelta(last, prefix) else 0
  }

  /** The last revision of an interval either has the last event or none. */
  lemma ToldDrop(h: map<Rev, Entry>, since: Since, lo: Rev, hi: Rev, events: seq<Event>)
    requires Told(h, since, None, lo, hi, events) && lo < hi
    ensures hi in h && Due(since, hi) ==>
      && events != [] && events[|events| - 1].kv.modRevision == hi && Truthful(h, events[|events| - 1])
      && Told(h, since, None, lo, hi - 1, events[..|events| - 1])
    ensures !(hi in h && Due(since, hi)) ==> Told(h, since, None, lo, hi - 1, events)
  {
    hide Truthful, Asc, Due, DueIn;
    DueSplit(h, since, None, lo, hi - 1, hi);
    TopDue(h, since, hi);
    if hi in h && Due(since, hi) {
      var n := |events| - 1;
      assert Revs(events)[n] == hi;
      assert Revs(events[..n]) == Revs(events)[..n];
    } else {
      assert Asc(DueIn(h, since, None, lo, hi - 1)) + [] == Asc(DueIn(h, since, None, lo, hi - 1));
    }
  }

  lemma TopDue(h: map<Rev, Entry>, since: Since, hi: Rev)
    requires hi > 0
    ensures Asc(DueIn(h, since, None, hi - 1, hi)) == if hi in h && Due(since, hi) then [hi] else []
  {
    hide Asc, Due;
    AscOne(hi);
    assert DueIn(h, since, None, hi - 1, hi) == if hi in h && Due(since, hi) then {hi} else {};
  }

  /** What the records committed in an interval that are not due add to the count of a prefix. */
  ghost function Missed(h: map<Rev, Entry>, since: Since, prefix: Key, lo: Rev, hi: Rev): int
    decreases hi
  {
    if hi <= lo then 0 else
      Missed(h, since, prefix, lo, hi - 1) + if hi in h && !Due(since, hi) then Delta(h[hi], prefix) else 0
  }

  /** Commits above an interval, and losses above it, change nothing in it. */
  lemma {:induction false} MissedStable(w: World, w': World, since: Since, more: set<Rev>, prefix: Key, lo: Rev,
                                        hi: Rev)
    requires Grows(w, w') && (hi <= lo || hi <= w.db.latest) && forall r :: r in more ==> r > hi
    ensures Missed(w'.hist, Losing(since, more), prefix, lo, hi) == Missed(w.hist, since, prefix, lo, hi)
    decreases hi
  {
    hide Matches;
    if hi > lo { MissedStable(w, w', since, more, prefix, lo, hi - 1); }
  }

  /** With everything due nothing is missed. */
  lemma {:induction false} NoneMissed(h: map<Rev, Entry>, since: Since, prefix: Key, lo: Rev, hi: Rev)
    requires forall r: Rev :: r in h && lo < r <= hi && !Due(since, r) ==> Delta(h[r], prefix) == 0
    ensures Missed(h, since, prefix, lo, hi) == 0
    decreases hi
  {
    hide Delta, Due;
    if hi > lo { NoneMissed(h, since, prefix, lo, hi - 1); }
  }

  /**
   * The events of an interval and what is missing from them add up to the change of the count over it, as far as it
   * lies after the seed.
   */
  lemma {:induction false} NetIsChange(h: map<Rev, Entry>, since: Since, prefix: Key, seedRev: Rev, lo: Rev, hi: Rev,
                                       events: seq<Event>)
    requires Chained(h) && lo <= hi && Told(h, since, None, lo, hi, events)
    ensures LiveCount(h, prefix, Max(seedRev, hi))
         == LiveCount(h, prefix, Max(seedRev, lo)) + Net(events, prefix, seedRev)
            + Missed(h, since, prefix, Max(seedRev, lo), Max(seedRev, hi))
    decreases hi
  {
    hide Chained, LiveCount, Due, DueIn, Asc, EventDelta, Delta;
    if lo == hi {
      assert events == [] by { NothingIn(h, since, lo, events); }
    } else {
      ToldDrop(h, since, lo, hi, events);
      if hi in h {
        CountStep(h, prefix, hi);
        if Due(since, hi) {
          TellsDelta(h, events[|events| - 1], prefix);
          NetIsChange(h, since, prefix, seedRev, lo, hi - 1, events[..|events| - 1]);
        } else {
          NetIsChange(h, since, prefix, seedRev, lo, hi - 1, events);
        }
      } else {
        NetIsChange(h, since, prefix, seedRev, lo, hi - 1, events);
        CountUnchanged(h, prefix, hi);
      }
    }
  }

  lemma TellsDelta(h: map<Rev, Entry>, ev: Event, prefix: Key)
    requires Truthful(h, ev)
    ensures EventDelta(ev, prefix) == Delta(h[ev.kv.modRevision], prefix)
  {
    hide Matches;
  }

  lemma NothingIn(h: map<Rev, Entry>, since: Since, at: Rev, events: seq<Event>)
    requires Told(h, since, None, at, at, events)
    ensures events == []
  {
    assert DueIn(h, since, None, at, at) == {};
  }

  lemma CountUnchanged(h: map<Rev, Entry>, prefix: Key, r: Rev)
    requires r > 0 && r !in h
    ensures LiveCount(h, prefix, r) == LiveCount(h, prefix, r - 1)
  {
    CountSame(h, prefix, r);
  }

  // ---------------------------------------------------------------- the tracker, updated in place

  datatype CountEntry = CountEntry(count: int, seedRev: Rev)

  class CountTracker {
    var entries: map<Key, CountEntry>

    constructor ()
      ensures entries == map[]
    {
      entries := map[];
    }

    method Reset()
      modifies this
      ensures entries == map[]
    {
      entries := map[];
    }

    method Get(prefix: Key) returns (e: Option<CountEntry>)
      ensures e.Some? <==> prefix in entries
      ensures e.Some? ==> e.value == entries[prefix]
    {
      e := if prefix in entries then Some(entries[prefix]) else None;
    }

    /** An entry that is there already is kept. */
    method Seed(prefix: Key, count: int, seedRev: Rev)
      modifies this
      ensures entries ==
        if prefix in old(entries) then old(entries) else old(entries)[prefix := CountEntry(count, seedRev)]
    {
      if prefix !in entries { entries := entries[prefix := CountEntry(count, seedRev)]; }
    }

    /** One event, for every tracked prefix. */
    method ApplyOne(event: Event)
      modifies this
      ensures entries.Keys == old(entries).Keys
      ensures forall p :: p in entries ==>
        var e := old(entries)[p];
        entries[p] == e.(count := e.count + if event.kv.modRevision > e.seedRev then EventDelta(event, p) else 0)
    {
      hide Matches;
      if !event.create && !event.delete { return; }
      var todo := entries.Keys;
      while todo != {}
        invariant todo <= entries.Keys == old(entries).Keys
        invariant forall p :: p in todo ==> entries[p] == old(entries)[p]
        invariant forall p :: p in entries && p !in todo ==>
          var e := old(entries)[p];
          entries[p] == e.(count := e.count + if event.kv.modRevision > e.seedRev then EventDelta(event, p) else 0)
        decreases todo
      {
        var p :| p in todo;
        var e := entries[p];
        if event.kv.modRevision > e.seedRev && Matches(event.kv.key, p) {
          entries := entries[p := e.(count := if event.create then e.count + 1 else e.count - 1)];
        }
        todo := todo - {p};
      }
    }

    method ApplyAll(events: seq<Event>)
      modifies this
      ensures entries.Keys == old(entries).Keys
      ensures forall p :: p in entries ==>
        entries[p] == old(entries)[p].(count := old(entries)[p].count + Net(events, p, old(entries)[p].seedRev))
    {
      hide EventDelta;
      assert events[..|events|] == events;
      if |entries| == 0 { return; }
      for i := 0 to |events|
        invariant entries.Keys == old(entries).Keys
        invariant forall p :: p in entries ==>
          entries[p] == old(entries)[p].(count := old(entries)[p].count + Net(events[..i], p, old(entries)[p].seedRev))
      {
        assert events[..i + 1][..i] == events[..i];
        ApplyOne(events[i]);
      }
    }
  }

  // ---------------------------------------------------------------- what the scan counts

  lemma {:induction false} SameSize(ps: set<Pos>, ns: set<nat>)
    requires forall p, q :: p in ps && q in ps && p.n == q.n ==> p == q
    requires forall p :: p in ps ==> p.n in ns
    requires forall n :: n in ns ==> exists p :: p in ps && p.n == n
    ensures |ps| == |ns|
    decreases |ps|
  {
    if ps == {} {
      assert ns == {};
    } else {
      var p :| p in ps;
      forall n | n in ns - {p.n} ensures exists q :: q in ps - {p} && q.n == n {
        var q :| q in ps && q.n == n;
        assert q in ps - {p};
      }
      SameSize(ps - {p}, ns - {p.n});
    }
  }

  lemma WinnerIsLive(w: World, prefix: Key, p: Pos)
    requires StoreOk(w) && Reads.Winner(w.db, Reads.Selection(prefix, prefix), 0, p)
    ensures p.n in LiveAt(w.hist, prefix, w.db.latest)
  {
    hide Chained, UniqueUuids, CurrentOk, Matches, Covers;
    CoversWhatMatches(prefix, p.key);
    forall s: Rev | s in w.hist && w.hist[s].key == p.key ensures s <= p.n {
      assert s > p.n ==> Pos(p.key, s) in w.db.index;
    }
  }

  lemma LiveIsWinner(w: World, prefix: Key, r: Rev)
    requires StoreOk(w) && r in LiveAt(w.hist, prefix, w.db.latest)
    ensures r in w.hist && Reads.Winner(w.db, Reads.Selection(prefix, prefix), 0, Pos(w.hist[r].key, r))
  {
    hide Chained, UniqueUuids, CurrentOk, Matches, Covers;
    CoversWhatMatches(prefix, w.hist[r].key);
    assert Newest(w.hist, r);
  }

  /** A Count that scans returns the number of live keys at the revision it reports. */
  lemma ScanCountIsLive(w: World, prefix: Key)
    requires StoreOk(w)
    ensures |Reads.Snapshot(w.db, Reads.Selection(prefix, prefix), 0)| == LiveCount(w.hist, prefix, w.db.latest)
  {
    hide StoreOk, Reads.Winner, LiveAt;
    var sel := Reads.Selection(prefix, prefix);
    var ps := set p | p in w.db.index && Reads.Winner(w.db, sel, 0, p);
    var ns := LiveAt(w.hist, prefix, w.db.latest);
    Reads.StoreBounded(w);
    forall p | p in ps ensures p.n in ns { WinnerIsLive(w, prefix, p); }
    forall r | r in ns ensures exists p :: p in ps && p.n == r {
      LiveIsWinner(w, prefix, r);
      Reads.WinnerIn(w.db, sel, 0, Pos(w.hist[r].key, r));
      assert Pos(w.hist[r].key, r) in ps;
    }
    SameSize(ps, ns);
  }

  lemma LiveStable(w: World, w': World, prefix: Key, at: Rev)
    requires Grows(w, w') && at <= w.db.latest
    ensures LiveCount(w'.hist, prefix, at) == LiveCount(w.hist, prefix, at)
  {
    hide Matches;
    forall r: Rev ensures NewestAt(w'.hist, r, at) <==> NewestAt(w.hist, r, at) {}
    assert LiveAt(w'.hist, prefix, at) == LiveAt(w.hist, prefix, at);
  }

  // ---------------------------------------------------------------- the tracker beside the poll loop

  /** A Count whose scan is finished and whose answer is not yet in the tracker. */
  datatype CountScan = CountScan(prefix: Key, count: nat, rev: Rev)

  /**
   * What an entry holds, in terms of the poll's progress when it was installed and now, and of what the poll missed.
   */
  ghost predicate Tracks(h: map<Rev, Entry>, since: Since, prefix: Key, e: CountEntry, passed: Rev, now: Rev) {
    e.count == LiveCount(h, prefix, e.seedRev)
             + LiveCount(h, prefix, Max(e.seedRev, now)) - LiveCount(h, prefix, Max(e.seedRev, passed))
             - Missed(h, since, prefix, Max(e.seedRev, passed), Max(e.seedRev, now))
  }

  /**
   * The count is right exactly if what was lost at installation and what the poll has missed since make up for each
   * other; in particular if the scan's count still stood at the revision the poll had then applied and nothing was
   * missed.
   */
  lemma TrackedIsRightIff(h: map<Rev, Entry>, since: Since, prefix: Key, e: CountEntry, passed: Rev, now: Rev)
    requires Tracks(h, since, prefix, e, passed, now)
    ensures e.count == LiveCount(h, prefix, Max(e.seedRev, now))
       <==> LiveCount(h, prefix, Max(e.seedRev, passed))
            + Missed(h, since, prefix, Max(e.seedRev, passed), Max(e.seedRev, now)) == LiveCount(h, prefix, e.seedRev)
    ensures passed <= e.seedRev && Missed(h, since, prefix, e.seedRev, Max(e.seedRev, now)) == 0 ==>
      e.count == LiveCount(h, prefix, Max(e.seedRev, now)) >= 0
  {
  }

  lemma SeedTracks(h: map<Rev, Entry>, since: Since, prefix: Key, count: nat, rev: Rev, at: Rev)
    requires count == LiveCount(h, prefix, rev)
    ensures Tracks(h, since, prefix, CountEntry(count, rev), at, at)
  {
  }

  lemma TracksGrows(w: World, w': World, since: Since, more: set<Rev>, prefix: Key, e: CountEntry, passed: Rev,
                    now: Rev)
    requires Grows(w, w') && e.seedRev <= w.db.latest && passed <= now <= w.db.latest
    requires Tracks(w.hist, since, prefix, e, passed, now) && forall r :: r in more ==> r > now
    ensures Tracks(w'.hist, Losing(since, more), prefix, e, passed, now)
  {
    hide Grows, LiveCount;
    LiveStable(w, w', prefix, e.seedRev);
    LiveStable(w, w', prefix, Max(e.seedRev, now));
    LiveStable(w, w', prefix, Max(e.seedRev, passed));
    if e.seedRev < now {
      MissedStable(w, w', since, more, prefix, Max(e.seedRev, passed), now);
    }
  }

  /** The steps around the tracker, in any order. A scan's answer is that of its first batch; the rest is delay. */
  datatype CountMove =
    | OthersMove(acts: seq<Action>)
    | ApplyMove(extra: nat, failed: bool)
    | StoreMove
    | ScanMove(prefix: Key)
    | SeedMove(i: nat)
    | RestartMove

  /**
   * `passedAt` records how far the poll had applied events when each entry was installed, `since` what was due to the
   * poll since it last started, less what others have removed before it got there.
   */
  datatype CountState = CountState(
    w: World, lastWatchRev: Rev, unstored: Option<Rev>, scans: seq<CountScan>, entries: map<Key, CountEntry>,
    passedAt: map<Key, Rev>, since: Since)

  function AppliedTo(s: CountState): Rev {
    if s.unstored.Some? then s.unstored.value else s.lastWatchRev
  }

  function AllApplied(entries: map<Key, CountEntry>, events: seq<Event>): map<Key, CountEntry> {
    map p | p in entries :: entries[p].(count := entries[p].count + Net(events, p, entries[p].seedRev))
  }

  /** One step of the system around the tracker. */
  ghost function CountMoved(s: CountState, move: CountMove): CountState {
    match move
    case OthersMove(acts) =>
      s.(w := Play(s.w, acts), since := Losing(s.since, Removed(s.w, acts, AppliedTo(s))))
    case ApplyMove(extra, failed) =>
      if s.unstored.Some? then s
      else if failed then s.(unstored := Some(s.lastWatchRev))
      else s.(unstored := Some(CursorAfter(s.w.db, s.lastWatchRev, extra)),
              entries := AllApplied(s.entries, Broadcast(s.w.db, s.lastWatchRev, extra)))
    case StoreMove => s.(lastWatchRev := AppliedTo(s), unstored := None)
    case ScanMove(p) =>
      s.(scans := s.scans + [CountScan(p, |Reads.Snapshot(s.w.db, Reads.Selection(p, p), 0)|, s.w.db.latest)])
    case SeedMove(i) =>
      if i >= |s.scans| then s else
        var c, rest := s.scans[i], s.scans[..i] + s.scans[i + 1..];
        if c.prefix in s.entries then s.(scans := rest) else
          s.(scans := rest, entries := s.entries[c.prefix := CountEntry(c.count, c.rev)],
             passedAt := s.passedAt[c.prefix := AppliedTo(s)])
    case RestartMove =>
      s.(lastWatchRev := if s.lastWatchRev != 0 then s.lastWatchRev else s.w.db.latest,
         unstored := None, entries := map[], passedAt := map[], since := SinceOf(s.w))
  }

  ghost function CountRun(s: CountState, plan: seq<CountMove>): CountState
    decreases |plan|
  {
    if plan == [] then s else CountMoved(CountRun(s, plan[..|plan| - 1]), plan[|plan| - 1])
  }

  lemma CountRunStep(s: CountState, plan: seq<CountMove>, i: nat)
    requires i < |plan|
    ensures CountRun(s, plan[..i + 1]) == CountMoved(CountRun(s, plan[..i]), plan[i])
  {
    assert plan[..i + 1][..i] == plan[..i];
  }

  class CountingBackend {
    const tracker: CountTracker
    var w: World
    var lastWatchRev: Rev           // the stored cursor
    var unstored: Option<Rev>       // events up to here are applied but the cursor is not stored yet
    var scans: seq<CountScan>
    ghost var since: Since             // what is due to the poll since it last started
    ghost var passedAt: map<Key, Rev>  // how far the poll had applied events when each entry was installed

    ghost function State(): CountState
      reads this, tracker
    {
      CountState(w, lastWatchRev, unstored, scans, tracker.entries, passedAt, since)
    }

    ghost function Applied(): Rev
      reads this
    {
      if unstored.Some? then unstored.value else lastWatchRev
    }

    ghost predicate Polling()
      reads this
    {
      Inv(w) && lastWatchRev <= Applied() <= w.db.latest && Intact(w, since, Applied())
    }

    ghost predicate Tracking()
      reads this, tracker
    {
      && tracker.entries.Keys == passedAt.Keys
      && (forall p :: p in tracker.entries ==>
            && tracker.entries[p].seedRev <= w.db.latest && passedAt[p] <= Applied()
            && Tracks(w.hist, since, p, tracker.entries[p], passedAt[p], Applied()))
      && (forall i :: 0 <= i < |scans| ==>
            scans[i].rev <= w.db.latest && scans[i].count == LiveCount(w.hist, scans[i].prefix, scans[i].rev))
    }

    ghost predicate Valid()
      reads this, tracker
    {
      Polling() && Tracking()
    }

    /** The poll loop starts: cursor stored, tracker reset. */
    constructor (w: World, pollStart: Rev)
      requires Inv(w) && pollStart <= w.db.latest
      ensures Valid() && State() == StartsAt(w, pollStart) && fresh(tracker)
    {
      this.w, lastWatchRev, unstored, scans := w, pollStart, None, [];
      since, passedAt := SinceOf(w), map[];
      tracker := new CountTracker();
      new;
      PollBegins(w, pollStart);
    }

    /** The poll loop starts again from the stored cursor, or from the read version if there is none. */
    method Restart()
      requires Valid()
      modifies this, tracker
      ensures Valid() && State() == CountMoved(old(State()), RestartMove)
      ensures tracker.entries == map[] && unstored.None? && scans == old(scans) && w == old(w)
      ensures lastWatchRev == if old(lastWatchRev) != 0 then old(lastWatchRev) else w.db.latest
    {
      hide Inv, Intact, LiveCount, Tracks, SinceOf;
      if lastWatchRev == 0 { lastWatchRev := w.db.latest; }
      unstored := None;
      tracker.Reset();
      since, passedAt := SinceOf(w), map[];
      PollBegins(w, lastWatchRev);
    }

    method OthersStep(acts: seq<Action>)
      requires Valid() && TameRun(w, acts)
      modifies this`w, this`since
      ensures Valid() && State() == CountMoved(old(State()), OthersMove(acts))
    {
      hide Inv, Intact, Grows, Play, TameRun, Removed, SinceOf, Tracks, LiveCount;
      ghost var before, was, more := w, since, Removed(w, acts, Applied());
      TameRunGrows(w, acts);
      InvIsSound(w);
      IntactRun(w, acts, since, Applied());
      RemovedAbove(w, acts, Applied());
      w := Play(w, acts);
      since := Losing(since, more);
      GrowsLatest(before, w);
      forall p | p in tracker.entries ensures Tracks(w.hist, since, p, tracker.entries[p], passedAt[p], Applied()) {
        TracksGrows(before, w, was, more, p, tracker.entries[p], passedAt[p], Applied());
      }
      forall i | 0 <= i < |scans| ensures scans[i].count == LiveCount(w.hist, scans[i].prefix, scans[i].rev) {
        LiveStable(before, w, scans[i].prefix, scans[i].rev);
      }
    }

    /** The first half of a poll iteration: the events are read and applied to the tracker. */
    method PollApply(extra: nat, failed: bool)
      requires Valid()
      modifies this`unstored, tracker
      ensures Valid() && State() == CountMoved(old(State()), ApplyMove(extra, failed))
    {
      hide Inv, Intact, Faithful, SinceOf, LiveCount, Told, Net, Broadcast, CursorAfter, Play, Removed, Tracks,
        Reads.Snapshot, AllSourced, Later, Least;
      if unstored.Some? { return; }
      InvIsSound(w);
      var events, next := PollOnce(w, lastWatchRev, extra, failed, since);
      ghost var before, now := tracker.entries, lastWatchRev;
      tracker.ApplyAll(events);
      forall p | p in tracker.entries ensures Tracks(w.hist, since, p, tracker.entries[p], passedAt[p], next) {
        Advance(w, since, p, before[p], passedAt[p], now, next, events);
      }
      AppliedNone(before);
      IntactHigher(w, since, lastWatchRev, next);
      unstored := Some(next);
    }

    /** The second half: the cursor is stored. */
    method PollStore()
      requires Valid()
      modifies this`lastWatchRev, this`unstored
      ensures Valid() && State() == CountMoved(old(State()), StoreMove) && Applied() == old(Applied())
    {
      hide Inv, Intact, SinceOf, LiveCount, Tracks;
      if unstored.Some? {
        lastWatchRev, unstored := unstored.value, None;
      }
    }

    /** A scanning Count gets its answer. */
    method ScanStep(prefix: Key)
      requires Valid()
      modifies this`scans
      ensures Valid() && State() == CountMoved(old(State()), ScanMove(prefix))
    {
      hide Inv, Intact, SinceOf, LiveCount, Tracks, Reads.Snapshot, Play, Removed;
      var count, rev := ScanNow(w, prefix);
      scans := scans + [CountScan(prefix, count, rev)];
    }

    /** ... and installs it, however far the poll has moved on since and whatever other scans have finished. */
    method SeedOne(i: nat)
      requires Valid()
      modifies this`scans, this`passedAt, tracker
      ensures Valid() && State() == CountMoved(old(State()), SeedMove(i))
    {
      hide Inv, Intact, SinceOf, LiveCount, Play, Removed, Tracks, Reads.Snapshot;
      if i >= |scans| { return; }
      var s := scans[i];
      SeedTracks(w.hist, since, s.prefix, s.count, s.rev, Applied());
      tracker.Seed(s.prefix, s.count, s.rev);
      if s.prefix !in passedAt { passedAt := passedAt[s.prefix := Applied()]; }
      scans := scans[..i] + scans[i + 1..];
    }

    /**
     * A Count answered from the tracker. Between iterations of the poll it is the live count at the revision it
     * reports exactly if what was lost when the entry was installed and what the poll has missed since make up for each
     * other, in particular if the poll had then not yet passed the scan and has missed nothing since.
     */
    method CachedCount(prefix: Key) returns (hit: bool, rev: Rev, count: int)
      requires Valid()
      ensures hit <==> prefix in tracker.entries && lastWatchRev >= tracker.entries[prefix].seedRev
      ensures hit ==> rev == lastWatchRev && count == tracker.entries[prefix].count
      ensures hit ==> (count == LiveCount(w.hist, prefix, Applied()) <==> Balances(State(), prefix))
      ensures hit && passedAt[prefix] <= tracker.entries[prefix].seedRev ==>
        Missed(w.hist, since, prefix, tracker.entries[prefix].seedRev, Applied()) == 0 ==>
        count == LiveCount(w.hist, prefix, Applied()) >= 0
    {
      hide Inv, Intact, SinceOf, LiveCount, Missed;
      var e := tracker.Get(prefix);
      if e.None? || lastWatchRev < e.value.seedRev { return false, 0, 0; }
      TrackedIsRightIff(w.hist, since, prefix, e.value, passedAt[prefix], Applied());
      return true, lastWatchRev, e.value.count;
    }
  }

  /** The poll loop has just started, with its cursor at `pollStart`. */
  function StartsAt(w: World, pollStart: Rev): CountState {
    CountState(w, pollStart, None, [], map[], map[], SinceOf(w))
  }

  /**
   * What the scan had counted is what was there when it was installed, as far as the poll had then come, together with
   * what the poll has missed since.
   */
  ghost predicate Balances(s: CountState, prefix: Key)
    requires prefix in s.entries && prefix in s.passedAt
  {
    var e := s.entries[prefix];
    LiveCount(s.w.hist, prefix, Max(e.seedRev, s.passedAt[prefix]))
    + Missed(s.w.hist, s.since, prefix, Max(e.seedRev, s.passedAt[prefix]), Max(e.seedRev, AppliedTo(s)))
    == LiveCount(s.w.hist, prefix, e.seedRev)
  }

  /** Compactions begin at safe ends. */
  ghost predicate TameCounts(s: CountState, plan: seq<CountMove>)
    decreases |plan|
  {
    plan == [] ||
    (var n := |plan| - 1;
     && TameCounts(s, plan[..n])
     && (plan[n].OthersMove? ==> TameRun(CountRun(s, plan[..n]).w, plan[n].acts)))
  }

  lemma {:induction false} TameCountsPrefix(s: CountState, plan: seq<CountMove>, i: nat)
    requires TameCounts(s, plan) && i < |plan|
    ensures plan[i].OthersMove? ==> TameRun(CountRun(s, plan[..i]).w, plan[i].acts)
    decreases |plan|
  {
    hide TameRun, CountRun;
    var n := |plan| - 1;
    if i < n {
      TameCountsPrefix(s, plan[..n], i);
      assert plan[..n][..i] == plan[..i];
    }
  }

  // ---------------------------------------------------------------- the tracker comes to serve a count

  lemma {:induction false} CountRunConcat(s: CountState, a: seq<CountMove>, b: seq<CountMove>)
    ensures CountRun(s, a + b) == CountRun(CountRun(s, a), b)
    decreases |b|
  {
    hide CountMoved;
    if b == [] {
      assert a + b == a;
    } else {
      var n := |b| - 1;
      CountRunConcat(s, a, b[..n]);
      assert (a + b)[..|a + b| - 1] == a + b[..n];
    }
  }

  /** The stored cursor never passes what has been applied, nor that the read version. */
  ghost predicate Sane(s: CountState) {
    Inv(s.w) && s.lastWatchRev <= AppliedTo(s) <= s.w.db.latest
  }

  lemma {:induction false} RunsKeepSane(s: CountState, plan: seq<CountMove>)
    requires Sane(s) && TameCounts(s, plan)
    ensures Sane(CountRun(s, plan))
    decreases |plan|
  {
    hide Inv, Play, TameRun, Removed, Broadcast, CursorAfter, Reads.Snapshot, Told, Intact, Later, AllSourced, Grows,
      Faithful, Chained;
    if plan != [] {
      var n := |plan| - 1;
      RunsKeepSane(s, plan[..n]);
      var mid := CountRun(s, plan[..n]);
      match plan[n] {
        case OthersMove(acts) =>
          TameRunGrows(mid.w, acts);
          GrowsLatest(mid.w, Play(mid.w, acts));
        case ApplyMove(extra, failed) =>
          InvIsSound(mid.w);
          PollBegins(mid.w, mid.lastWatchRev);
          PollBatch(mid.w, SinceOf(mid.w), mid.lastWatchRev, extra);
        case StoreMove =>
        case ScanMove(_) =>
        case SeedMove(_) =>
        case RestartMove =>
      }
    }
  }

  /** Whole iterations of the poll loop that do not fail. */
  predicate Polled(tail: seq<CountMove>) {
    && |tail| % 2 == 0
    && forall i :: 0 <= i < |tail| ==> if i % 2 == 0 then tail[i].ApplyMove? && !tail[i].failed else tail[i].StoreMove?
  }

  /** The entry of the prefix is still the one that was installed from the same scan. */
  ghost predicate SameSeed(s: CountState, s': CountState, prefix: Key) {
    && s'.w == s.w && (prefix in s'.entries <==> prefix in s.entries)
    && (prefix in s.entries ==> s'.entries[prefix].seedRev == s.entries[prefix].seedRev)
    && (prefix in s'.passedAt <==> prefix in s.passedAt)
    && (prefix in s.passedAt ==> s'.passedAt[prefix] == s.passedAt[prefix])
  }

  lemma OnePoll(s: CountState, apply: CountMove, prefix: Key)
    requires Sane(s) && apply.ApplyMove? && !apply.failed
    ensures var s' := CountMoved(CountMoved(s, apply), StoreMove);
      && Sane(s') && s'.unstored.None? && SameSeed(s, s', prefix)
      && (s.unstored.None? ==>
            if Later(s.w.db.log, s.lastWatchRev) == {} then s'.lastWatchRev == s.w.db.latest
            else |Later(s.w.db.log, s'.lastWatchRev)| < |Later(s.w.db.log, s.lastWatchRev)|)
  {
    hide Inv, Broadcast, CursorAfter, Later, Faithful, Chained, Net, Play, Removed, Reads.Snapshot;
    InvIsSound(s.w);
    QuietTurn(PollState(s.w, s.lastWatchRev, [], {}), PollTurn([], apply.extra, false));
    assert Play(s.w, []) == s.w by { PlayNone(s.w); }
  }

  lemma PlayNone(w: World)
    ensures Play(w, []) == w
  {
  }

  lemma {:induction false} PolledCatchesUp(s: CountState, tail: seq<CountMove>, prefix: Key)
    requires Sane(s) && s.unstored.None? && Polled(tail)
    ensures var s' := CountRun(s, tail);
      && Sane(s') && s'.unstored.None? && SameSeed(s, s', prefix)
      && (if |tail| / 2 > |Later(s.w.db.log, s.lastWatchRev)| then s'.lastWatchRev == s.w.db.latest
          else |Later(s.w.db.log, s'.lastWatchRev)| <= |Later(s.w.db.log, s.lastWatchRev)| - |tail| / 2)
    decreases |tail|
  {
    hide Inv, CountMoved, Later, Faithful, Chained;
    if tail != [] {
      var n := |tail| - 2;
      PolledCatchesUp(s, tail[..n], prefix);
      var mid := CountRun(s, tail[..n]);
      OnePoll(mid, tail[n], prefix);
      CountRunStep(s, tail, n);
      CountRunStep(s, tail, n + 1);
      assert tail[..n + 2] == tail;
      InvIsSound(s.w);
      NoneAbove(s.w);
      if |tail| / 2 - 1 == |Later(s.w.db.log, s.lastWatchRev)| { assert Later(s.w.db.log, mid.lastWatchRev) == {}; }
    }
  }

  /**
   * The plan ends with a scan of the prefix, whose answer is installed at once, and then with whole iterations of the
   * poll loop, more than the log has records and one.
   */
  ghost predicate EndsSeeded(s: CountState, plan: seq<CountMove>, k: nat, prefix: Key, records: nat) {
    && k + 2 <= |plan| && plan[k] == ScanMove(prefix) && plan[k + 1] == SeedMove(|CountRun(s, plan[..k]).scans|)
    && prefix !in CountRun(s, plan[..k]).entries
    && Polled(plan[k + 2..]) && (|plan| - k - 2) / 2 > records + 1
  }

  lemma SeedsNow(s: CountState, prefix: Key)
    requires Sane(s) && prefix !in s.entries
    ensures var s' := CountMoved(CountMoved(s, ScanMove(prefix)), SeedMove(|s.scans|));
      && Sane(s') && s'.w == s.w && prefix in s'.entries && prefix in s'.passedAt
      && s'.entries[prefix].seedRev == s.w.db.latest && s'.passedAt[prefix] <= s.w.db.latest
  {
    hide Inv, Reads.Snapshot;
  }

  /** However the last iteration stands, the iterations of the tail bring the stored cursor to the read version. */
  lemma TailCatchesUp(s: CountState, tail: seq<CountMove>, prefix: Key)
    requires Sane(s) && Polled(tail) && |tail| / 2 > |s.w.db.log| + 1
    ensures var s' := CountRun(s, tail);
      s'.unstored.None? && SameSeed(s, s', prefix) && s'.lastWatchRev == s.w.db.latest
  {
    hide Inv, CountMoved, Later;
    TailSplits(tail);
    assert tail[..0] == [];
    OnePoll(s, tail[0], prefix);
    CountRunStep(s, tail, 0);
    CountRunStep(s, tail, 1);
    hide Polled;
    var s2 := CountRun(s, tail[..2]);
    CountRunConcat(s, tail[..2], tail[2..]);
    PolledCatchesUp(s2, tail[2..], prefix);
    LaterFits(s2.w.db.log, s2.lastWatchRev);
  }

  lemma TailSplits(tail: seq<CountMove>)
    requires Polled(tail) && |tail| >= 2
    ensures tail == tail[..2] + tail[2..] && Polled(tail[2..])
    ensures tail[0].ApplyMove? && !tail[0].failed && tail[1].StoreMove?
  {
  }

  lemma SeededServes(s: CountState, plan: seq<CountMove>, k: nat, prefix: Key)
    requires Sane(s) && TameCounts(s, plan) && EndsSeeded(s, plan, k, prefix, |CountRun(s, plan).w.db.log|)
    ensures var s' := CountRun(s, plan);
      && prefix in s'.entries && prefix in s'.passedAt && s'.unstored.None?
      && s'.lastWatchRev == s'.entries[prefix].seedRev == s'.w.db.latest && s'.passedAt[prefix] <= s'.w.db.latest
  {
    hide Inv, CountMoved, TameCounts, Polled;
    TameCountsTo(s, plan, k);
    RunsKeepSane(s, plan[..k]);
    CountRunStep(s, plan, k);
    CountRunStep(s, plan, k + 1);
    SeedsNow(CountRun(s, plan[..k]), prefix);
    var s1, tail := CountRun(s, plan[..k + 2]), plan[k + 2..];
    assert plan == plan[..k + 2] + tail;
    CountRunConcat(s, plan[..k + 2], tail);
    TailWorld(s1, tail);
    TailCatchesUp(s1, tail, prefix);
  }

  lemma {:induction false} TailWorld(s: CountState, tail: seq<CountMove>)
    requires Polled(tail)
    ensures CountRun(s, tail).w == s.w
    decreases |tail|
  {
    hide Broadcast, CursorAfter, Net, AllApplied;
    if tail != [] {
      var n := |tail| - 2;
      TailWorld(s, tail[..n]);
      CountRunStep(s, tail, n);
      CountRunStep(s, tail, n + 1);
      assert tail[..n + 2] == tail;
    }
  }

  lemma {:induction false} TameCountsTo(s: CountState, plan: seq<CountMove>, i: nat)
    requires TameCounts(s, plan) && i <= |plan|
    ensures TameCounts(s, plan[..i])
    decreases |plan|
  {
    hide TameRun, CountRun;
    if i < |plan| {
      TameCountsTo(s, plan[..|plan| - 1], i);
      assert plan[..|plan| - 1][..i] == plan[..i];
    } else {
      assert plan[..i] == plan;
    }
  }

  /**
   * A Count answered from the tracker after any run of the steps, in the state `CountRun` describes, whatever the
   * compactions have removed before the poll got there.
   */
  method CountAfter(start: World, pollStart: Rev, plan: seq<CountMove>, prefix: Key)
    returns (hit: bool, rev: Rev, count: int)
    requires Inv(start) && pollStart <= start.db.latest && TameCounts(StartsAt(start, pollStart), plan)
    ensures var s := CountRun(StartsAt(start, pollStart), plan);
      && Inv(s.w) && s.entries.Keys == s.passedAt.Keys
      && (hit <==> prefix in s.entries && s.lastWatchRev >= s.entries[prefix].seedRev)
      && (hit ==> rev == s.lastWatchRev && count == s.entries[prefix].count)
      && (hit ==> (count == LiveCount(s.w.hist, prefix, AppliedTo(s)) <==> Balances(s, prefix)))
      && (hit && s.passedAt[prefix] <= s.entries[prefix].seedRev ==>
            Missed(s.w.hist, s.since, prefix, s.entries[prefix].seedRev, AppliedTo(s)) == 0 ==>
            count == LiveCount(s.w.hist, prefix, AppliedTo(s)) >= 0)
      && (forall k :: EndsSeeded(StartsAt(start, pollStart), plan, k, prefix, |s.w.db.log|) ==>
            hit && rev == s.w.db.latest && count == LiveCount(s.w.hist, prefix, rev))
  {
    hide Inv, Intact, SinceOf, LiveCount, Tracks, CountMoved, TameRun, Missed, Balances, EndsSeeded;
    var b := new CountingBackend(start, pollStart);
    ghost var first := StartsAt(start, pollStart);
    for i := 0 to |plan|
      invariant b.Valid() && fresh(b) && fresh(b.tracker)
      invariant b.State() == CountRun(first, plan[..i])
    {
      CountRunStep(first, plan, i);
      TameCountsPrefix(first, plan, i);
      match plan[i] {
        case OthersMove(acts) => b.OthersStep(acts);
        case ApplyMove(extra, failed) => b.PollApply(extra, failed);
        case StoreMove => b.PollStore();
        case ScanMove(p) => b.ScanStep(p);
        case SeedMove(k) => b.SeedOne(k);
        case RestartMove => b.Restart();
      }
    }
    assert plan[..|plan|] == plan;
    hit, rev, count := b.CachedCount(prefix);
    forall k | EndsSeeded(first, plan, k, prefix, |b.w.db.log|)
      ensures hit && rev == b.w.db.latest && count == LiveCount(b.w.hist, prefix, rev)
    {
      SeededServes(first, plan, k, prefix);
      NothingMissed(b.w.hist, b.since, prefix, b.w.db.latest);
    }
  }

  lemma NothingMissed(h: map<Rev, Entry>, since: Since, prefix: Key, at: Rev)
    ensures Missed(h, since, prefix, at, at) == 0
  {
  }

  /** The scan of a Count that begins in this state. */
  method ScanNow(w: World, prefix: Key) returns (count: nat, rev: Rev)
    requires Inv(w)
    ensures count == |Reads.Snapshot(w.db, Reads.Selection(prefix, prefix), 0)|
    ensures rev == w.db.latest && count == LiveCount(w.hist, prefix, rev)
  {
    hide RunOk, StoreOk, LiveCount, Reads.Snapshot, Reads.Extends, Collectors.ReadAll, Collectors.Left;
    Collectors.UndisturbedRead(w, Reads.Selection(prefix, prefix), 0, 0, true, []);
    var _, reply := Collectors.ScanCount(w, prefix, prefix, 0, []);
    assert forall why :: reply != Collectors.Refused(why);
    ScanCountIsLive(w, prefix);
    count, rev := reply.count, reply.rev;
  }

  lemma InvIsSound(w: World)
    requires Inv(w)
    ensures Sound(w) && Faithful(w) && Chained(w.hist)
  {
    hide RunOk, Sound, Mirrored, Retained, UniqueUuids, CurrentOk, Chained, Faithful;
    StoreIsSound(w);
  }

  lemma PollBegins(w: World, at: Rev)
    requires Inv(w)
    ensures Intact(w, SinceOf(w), at)
  {
    hide Inv, Intact, Faithful, Chained;
    InvIsSound(w);
    IntactAtFirst(w, at);
  }

  lemma AppliedNone(entries: map<Key, CountEntry>)
    ensures AllApplied(entries, []) == entries
  {
  }

  lemma Advance(w: World, since: Since, prefix: Key, e: CountEntry, passed: Rev, now: Rev, next: Rev,
                events: seq<Event>)
    requires Inv(w) && passed <= now <= next
    requires Told(w.hist, since, None, now, next, events) && Tracks(w.hist, since, prefix, e, passed, now)
    ensures Tracks(w.hist, since, prefix, e.(count := e.count + Net(events, prefix, e.seedRev)), passed, next)
  {
    hide Inv, Faithful, Chained, LiveCount, Net, Told, Due;
    InvIsSound(w);
    NetIsChange(w.hist, since, prefix, e.seedRev, now, next, events);
    MissedSplit(w.hist, since, prefix, Max(e.seedRev, passed), Max(e.seedRev, now), Max(e.seedRev, next));
  }

  lemma {:induction false} MissedSplit(h: map<Rev, Entry>, since: Since, prefix: Key, lo: Rev, mid: Rev, hi: Rev)
    requires lo <= mid <= hi
    ensures Missed(h, since, prefix, lo, hi) == Missed(h, since, prefix, lo, mid) + Missed(h, since, prefix, mid, hi)
    decreases hi
  {
    hide Delta, Due;
    if mid < hi { MissedSplit(h, since, prefix, lo, mid, hi - 1); }
  }

  // ---------------------------------------------------------------- a late seed

  /**
   * A Count of "/" scans, another client creates /a, the poll broadcasts it, and then the scan's answer is installed.
   */
  function LateSeed(): seq<CountMove> {
    [ScanMove([47]), OthersMove([Write(CreateOp([47, 97], [], 0))]), ApplyMove(0, false), StoreMove, SeedMove(0)]
  }

  function OneKey(): World {
    Apply(Init(1), Write(CreateOp([47, 97], [], 0)))
  }

  lemma OneKeyIs()
    ensures var h := map[2 := Entry([47, 97], Meta(true, false, 0, 0, 0, 0), [])];
      OneKey().hist == h && OneKey().db.log == h && OneKey().db.latest == 2
    ensures Play(Init(1), [Write(CreateOp([47, 97], [], 0))]) == OneKey()
    ensures LiveCount(OneKey().hist, [47], 2) == 1
  {
    hide CurrentAfter;
    var act := Write(CreateOp([47, 97], [], 0));
    PlayOne(Init(1), act);
    assert GetLast(Init(1).db, [47, 97]).None?;
    assert LiveAt(OneKey().hist, [47], 2) == {2};
  }

  lemma OnePolled()
    ensures CursorAfter(OneKey().db, 1, 0) == 2
  {
    hide OneKey;
    OneKeyIs();
    PollScanIn(OneKey().db, 1, 0);
  }

  /** The entry is a hit at revision 2 and counts no key, where there is one; it stays one key short. */
  lemma LateSeedLosesEvents()
    ensures var s := CountRun(StartsAt(Init(1), 1), LateSeed());
      && s.unstored.None? && s.lastWatchRev == 2
      && s.entries == map[[47] := CountEntry(0, 1)] && s.passedAt == map[[47] := 2]
      && s.lastWatchRev >= s.entries[[47]].seedRev && LiveCount(s.w.hist, [47], s.lastWatchRev) == 1
  {
    hide Play, Removed, CursorAfter, LiveCount, OneKey, Apply, Reads.Winner, Broadcast;
    var s0, plan := StartsAt(Init(1), 1), LateSeed();
    OneKeyIs();
    OnePolled();
    CountRunStep(s0, plan, 0);
    CountRunStep(s0, plan, 1);
    CountRunStep(s0, plan, 2);
    CountRunStep(s0, plan, 3);
    CountRunStep(s0, plan, 4);
    assert plan[..0] == [] && plan[..5] == plan;
    assert Reads.Snapshot(Init(1).db, Reads.Selection([47], [47]), 0) == [];
    assert AllApplied(map[], Broadcast(OneKey().db, 1, 0)) == map[];
  }
}
