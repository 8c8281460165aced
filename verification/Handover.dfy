/**
 * A watch: it subscribes to the poll loop's broadcasts, reads the log from its start revision, and then passes
 * the broadcasts on, leaving out what its own read has delivered already.
 */
module Handover {
  import opened Types
  import opened Store
  import opened World
  import opened TupleRange
  import opened RevisionLog
  import opened Polling
  import Reads

  // ---------------------------------------------------------------- what the watch does to a broadcast

  /** The subscription's filter by prefix. */
  method FilterEvents(events: seq<Event>, prefix: Key) returns (out: seq<Event>)
    ensures out == Filtered(events, prefix)
  {
    out := [];
    for i := 0 to |events|
      invariant out == Filtered(events[..i], prefix)
    {
      FilterStep(events, prefix, i);
      if Matches(events[i].kv.key, prefix) { out := out + [events[i]]; }
    }
    assert events[..|events|] == events;
  }

  function Filtered(events: seq<Event>, prefix: Key): seq<Event> {
    if events == [] then [] else
      var last := events[|events| - 1];
      Filtered(events[..|events| - 1], prefix) + if Matches(last.kv.key, prefix) then [last] else []
  }

  lemma FilterStep(events: seq<Event>, prefix: Key, i: nat)
    requires i < |events|
    ensures Filtered(events[..i + 1], prefix)
         == Filtered(events[..i], prefix) + if Matches(events[i].kv.key, prefix) then [events[i]] else []
  {
    assert events[..i + 1][..i] == events[..i];
  }

  function Unsent(events: seq<Event>, lastRevision: Rev): seq<Event> {
    if |events| > 0 && events[0].kv.modRevision <= lastRevision then Unsent(events[1..], lastRevision) else events
  }

  /** Skips the leading events that the initial read has delivered. */
  method SkipSent(events: seq<Event>, lastRevision: Rev) returns (out: seq<Event>)
    requires Increasing(Revs(events))
    ensures out == Unsent(events, lastRevision) && Increasing(Revs(out))
    ensures forall ev :: ev in out <==> ev in events && ev.kv.modRevision > lastRevision
  {
    out := events;
    while |out| > 0 && out[0].kv.modRevision <= lastRevision
      invariant Unsent(events, lastRevision) == Unsent(out, lastRevision) && Increasing(Revs(out))
      invariant forall ev :: ev in out ==> ev in events
      invariant forall ev :: ev in events && ev.kv.modRevision > lastRevision ==> ev in out
      decreases |out|
    {
      assert Revs(out[1..]) == Revs(out)[1..];
      out := out[1..];
    }
    if |out| > 0 {
      forall ev | ev in out ensures ev.kv.modRevision > lastRevision {
        var i :| 0 <= i < |out| && out[i] == ev;
        assert Revs(out)[0] <= Revs(out)[i];
      }
    }
  }

  lemma {:induction false} FilteredHas(events: seq<Event>, prefix: Key)
    ensures forall ev :: ev in Filtered(events, prefix) <==> ev in events && Matches(ev.kv.key, prefix)
    decreases |events|
  {
    if events != [] {
      hide Matches;
      var n := |events| - 1;
      FilteredHas(events[..n], prefix);
      assert events == events[..n] + [events[n]];
    }
  }

  lemma {:induction false} FilteredIs(events: seq<Event>, prefix: Key)
    requires Increasing(Revs(events))
    ensures Increasing(Revs(Filtered(events, prefix)))
    ensures forall ev :: ev in Filtered(events, prefix) <==> ev in events && Matches(ev.kv.key, prefix)
    decreases |events|
  {
    FilteredHas(events, prefix);
    if events != [] {
      hide Matches, Revs;
      var n := |events| - 1;
      var init := events[..n];
      assert Revs(init) == Revs(events)[..n];
      FilteredIs(init, prefix);
      var a, b := Filtered(init, prefix), Filtered(events, prefix);
      forall i, j | 0 <= i < j < |b| ensures Revs(b)[i] < Revs(b)[j] {
        assert b[i] == a[i];
        if j < |a| {
          assert Revs(a)[i] < Revs(a)[j];
        } else {
          assert a[i] in a;
          var k :| 0 <= k < n && init[k] == a[i];
          assert Revs(events)[k] < Revs(events)[n];
        }
      }
    }
  }

  // ---------------------------------------------------------------- no gap and no duplicate

  /**
   * What is passed on of a broadcast that covers (f, f'] is exactly what is due there above the last revision of the
   * initial read.
   */
  lemma PassedOn(h: map<Rev, Entry>, since: Since, prefix: Key, last: Rev, f: Rev, f': Rev, batch: seq<Event>,
                 out: seq<Event>)
    requires Told(h, since, None, f, f', batch) && Increasing(Revs(out))
    requires forall ev :: ev in out <==> ev in batch && Matches(ev.kv.key, prefix) && ev.kv.modRevision > last
    ensures Told(h, since, Some(prefix), Max(f, last), f', out)
  {
    hide Matches, Asc, Due;
    var due := DueIn(h, since, Some(prefix), Max(f, last), f');
    forall r ensures r in Revs(out) <==> r in due {
      if r in Revs(out) {
        var i :| 0 <= i < |out| && Revs(out)[i] == r;
        InBroadcast(h, since, f, f', batch, out[i]);
      }
      if r in due {
        assert r in DueIn(h, since, None, f, f') && r in Revs(batch);
        var i :| 0 <= i < |batch| && Revs(batch)[i] == r;
        InBroadcast(h, since, f, f', batch, batch[i]);
        assert batch[i] in out;
      }
    }
    IncreasingUnique(Revs(out), Asc(due));
    forall i | 0 <= i < |out| ensures Truthful(h, out[i]) {
      assert out[i] in out;
      InBroadcast(h, since, f, f', batch, out[i]);
    }
  }

  lemma InBroadcast(h: map<Rev, Entry>, since: Since, f: Rev, f': Rev, batch: seq<Event>, ev: Event)
    requires Told(h, since, None, f, f', batch) && ev in batch
    ensures Truthful(h, ev) && ev.kv.modRevision in DueIn(h, since, None, f, f')
    ensures h[ev.kv.modRevision].key == ev.kv.key
  {
    var i :| 0 <= i < |batch| && batch[i] == ev;
    assert Revs(batch)[i] in Revs(batch);
  }

  /** Joining the two leaves no gap and repeats nothing. */
  lemma Joined(h: map<Rev, Entry>, since: Since, prefix: Key, m: Rev, last: Rev, f: Rev, f': Rev, sent: seq<Event>,
               out: seq<Event>)
    requires f <= f' && m <= last && Told(h, since, Some(prefix), m, Max(f, last), sent)
    requires Told(h, since, Some(prefix), Max(f, last), f', out)
    ensures Told(h, since, Some(prefix), m, Max(f', last), sent + out)
  {
    hide Truthful, DueIn, Asc;
    DueJoined(h, since, prefix, m, last, f, f');
    assert Revs(sent + out) == Revs(sent) + Revs(out);
  }

  lemma DueJoined(h: map<Rev, Entry>, since: Since, prefix: Key, m: Rev, last: Rev, f: Rev, f': Rev)
    requires f <= f' && m <= last
    ensures Asc(DueIn(h, since, Some(prefix), m, Max(f', last)))
         == Asc(DueIn(h, since, Some(prefix), m, Max(f, last))) + Asc(DueIn(h, since, Some(prefix), Max(f, last), f'))
  {
    hide Takes, Due, Asc;
    var a := DueIn(h, since, Some(prefix), m, Max(f, last));
    var b := DueIn(h, since, Some(prefix), Max(f, last), f');
    var all := DueIn(h, since, Some(prefix), m, Max(f', last));
    forall r ensures r in a + b <==> r in all {}
    assert a + b == all;
    AscSplit(a, b);
  }

  /** Up to `bound` two readers have lost different records; this is what a reader has that is the one up to there. */
  function Spliced(since: Since, bound: Rev, below: set<Rev>, above: set<Rev>): Since {
    Losing(since, (set r | r in below && r <= bound) + (set r | r in above && r > bound))
  }

  lemma SplicedBelow(h: map<Rev, Entry>, since: Since, bound: Rev, below: set<Rev>, above: set<Rev>,
                     filter: Option<Key>, lo: Rev, hi: Rev)
    requires hi <= bound
    ensures DueIn(h, Spliced(since, bound, below, above), filter, lo, hi)
         == DueIn(h, Losing(since, below), filter, lo, hi)
  {
  }

  lemma SplicedAbove(h: map<Rev, Entry>, since: Since, bound: Rev, below: set<Rev>, above: set<Rev>,
                     filter: Option<Key>, lo: Rev, hi: Rev)
    requires bound <= lo
    ensures DueIn(h, Spliced(since, bound, below, above), filter, lo, hi)
         == DueIn(h, Losing(since, above), filter, lo, hi)
  {
  }

  /** A record lost above both the bound and an interval does not matter in it. */
  lemma SplicedMore(h: map<Rev, Entry>, since: Since, bound: Rev, below: set<Rev>, above: set<Rev>, more: set<Rev>,
                    filter: Option<Key>, lo: Rev, hi: Rev)
    requires forall r :: r in more ==> r <= bound || r > hi
    ensures DueIn(h, Spliced(since, bound, below, above + more), filter, lo, hi)
         == DueIn(h, Spliced(since, bound, below, above), filter, lo, hi)
  {
  }

  // ---------------------------------------------------------------- broadcasts not yet consumed

  /** The queued broadcasts cover what is due after `from` up to the poll cursor; `marks` are where each ends. */
  ghost predicate Queue(h: map<Rev, Entry>, since: Since, from: Rev, chan: seq<seq<Event>>, marks: seq<Rev>,
                        cursor: Rev)
    decreases |chan|
  {
    && |marks| == |chan| && from <= cursor
    && if chan == [] then Told(h, since, None, from, cursor, []) else
         && from <= marks[0] && Told(h, since, None, from, marks[0], chan[0])
         && Queue(h, since, marks[0], chan[1..], marks[1..], cursor)
  }

  /** A further iteration of the poll loop. */
  lemma {:induction false} QueueMore(h: map<Rev, Entry>, since: Since, from: Rev, chan: seq<seq<Event>>,
                                     marks: seq<Rev>, cursor: Rev, next: Rev, events: seq<Event>)
    requires Queue(h, since, from, chan, marks, cursor) && cursor <= next && Told(h, since, None, cursor, next, events)
    ensures events == [] ==> Queue(h, since, from, chan, marks, next)
    ensures Queue(h, since, from, chan + [events], marks + [next], next)
    decreases |chan|
  {
    hide Told;
    if chan == [] {
      ToldMore(h, since, None, from, cursor, next, [], events);
      assert [] + events == events;
      NothingTold(h, since, None, next);
      assert ([] + [events])[1..] == [] && ([] + [next])[1..] == [];
    } else {
      QueueMore(h, since, marks[0], chan[1..], marks[1..], cursor, next, events);
      assert (chan + [events])[1..] == chan[1..] + [events] && (marks + [next])[1..] == marks[1..] + [next];
    }
  }

  lemma {:induction false} QueueGrows(w: World, w': World, since: Since, from: Rev, chan: seq<seq<Event>>,
                                      marks: seq<Rev>, cursor: Rev)
    requires Grows(w, w') && cursor <= w.db.latest && Queue(w.hist, since, from, chan, marks, cursor)
    ensures Queue(w'.hist, since, from, chan, marks, cursor)
    decreases |chan|
  {
    hide Told, Grows;
    if chan == [] {
      ToldGrows(w, w', since, None, from, cursor, []);
    } else {
      QueueMark(w.hist, since, marks[0], chan[1..], marks[1..], cursor);
      ToldGrows(w, w', since, None, from, marks[0], chan[0]);
      QueueGrows(w, w', since, marks[0], chan[1..], marks[1..], cursor);
    }
  }

  lemma {:induction false} QueueStill(h: map<Rev, Entry>, since: Since, more: set<Rev>, from: Rev,
                                      chan: seq<seq<Event>>, marks: seq<Rev>, cursor: Rev)
    requires Queue(h, since, from, chan, marks, cursor) && forall r :: r in more ==> r > cursor
    ensures Queue(h, Losing(since, more), from, chan, marks, cursor)
    decreases |chan|
  {
    hide Told, Losing;
    if chan == [] {
      ToldStill(h, since, more, None, from, cursor, []);
    } else {
      QueueMark(h, since, marks[0], chan[1..], marks[1..], cursor);
      ToldStill(h, since, more, None, from, marks[0], chan[0]);
      QueueStill(h, since, more, marks[0], chan[1..], marks[1..], cursor);
    }
  }

  lemma QueueHead(h: map<Rev, Entry>, since: Since, from: Rev, chan: seq<seq<Event>>, marks: seq<Rev>, cursor: Rev)
    requires Queue(h, since, from, chan, marks, cursor) && chan != []
    ensures marks != [] && from <= marks[0] && Told(h, since, None, from, marks[0], chan[0])
    ensures Queue(h, since, marks[0], chan[1..], marks[1..], cursor)
  {
  }

  lemma QueueMark(h: map<Rev, Entry>, since: Since, from: Rev, chan: seq<seq<Event>>, marks: seq<Rev>, cursor: Rev)
    requires Queue(h, since, from, chan, marks, cursor)
    ensures from <= cursor
  {
  }

  // ---------------------------------------------------------------- the watch itself

  datatype Phase = Reading | Passing | Refused

  /** One step of the system while the watch is open, in any order. */
  datatype Move =
    | Others(acts: seq<Action>)                  // writers, ticks, compaction
    | PollMove(extra: nat, failed: bool)         // an iteration of the poll loop
    | ReadMove(extra: nat, completed: bool)      // an attempt at a batch of the initial read
    | ForwardMove                                // the watch takes a broadcast from its channel

  /**
   * Everything a watch and the poll loop beside it keep; `bound` and `read` are the initial read's. `lostRead` and
   * `lostPoll` are what others have removed before the initial read and the poll got there.
   */
  datatype WatchState = WatchState(
    w: World, cursor: Rev, chan: seq<seq<Event>>, pos: Rev, bound: Rev, read: seq<Event>, phase: Phase,
    lastRevision: Rev, delivered: seq<Event>, lostRead: set<Rev>, lostPoll: set<Rev>)

  function ReadScan(log: map<Rev, Entry>, pos: Rev, extra: nat, bound: Rev, prefix: Key, earlier: nat): AfterScan {
    LaterIn(log, pos);
    ScanAfter(log, [], pos, Asc(Later(log, pos)), extra, bound, 0, Some(prefix), earlier)
  }

  lemma ReadScanIn(log: map<Rev, Entry>, pos: Rev, extra: nat, bound: Rev, prefix: Key, earlier: nat)
    ensures AllIn(log, ReadScan(log, pos, extra, bound, prefix, earlier).taken)
  {
    hide Asc, Later, ScanAfter;
    ScanAfterExact(log, [], pos, extra, bound, 0, Some(prefix), earlier);
    var last := ReadScan(log, pos, extra, bound, prefix, earlier).last;
    assert forall r :: r in Asc(TakenIn(log, Some(prefix), pos, last)) ==> r in log;
  }

  /** A completed batch of the initial read. */
  function BatchDone(s: WatchState, prefix: Key, m: Rev, extra: nat): WatchState {
    var db := s.w.db;
    var scan := ReadScan(db.log, s.pos, extra, s.bound, prefix, |s.read|);
    ReadScanIn(db.log, s.pos, extra, s.bound, prefix, |s.read|);
    var read := s.read + EventsOf(db.log, scan.taken);
    var next := s.(read := read, bound := if s.bound == 0 then db.latest else 0);
    if 0 < m < db.watermark then next.(phase := Refused)
    else if scan.more then next.(pos := scan.last)
    else next.(pos := scan.last, phase := Passing, delivered := read,
               lastRevision := if |read| > 0 then read[|read| - 1].kv.modRevision else m)
  }

  lemma BatchDoneIs(s: WatchState, prefix: Key, m: Rev, extra: nat, taken: seq<Rev>, last: Rev, more: bool)
    requires AllIn(s.w.db.log, Asc(Later(s.w.db.log, s.pos))) && AllIn(s.w.db.log, taken)
    requires AfterScan(taken, last, more)
          == ScanAfter(s.w.db.log, [], s.pos, Asc(Later(s.w.db.log, s.pos)), extra, s.bound, 0, Some(prefix), |s.read|)
    ensures var read := s.read + EventsOf(s.w.db.log, taken);
      var bound := if s.bound == 0 then s.w.db.latest else 0;
      BatchDone(s, prefix, m, extra) ==
        if 0 < m < s.w.db.watermark then s.(read := read, bound := bound, phase := Refused)
        else if more then s.(read := read, bound := bound, pos := last)
        else s.(read := read, bound := bound, pos := last, phase := Passing, delivered := read,
                lastRevision := if |read| > 0 then read[|read| - 1].kv.modRevision else m)
  {
    hide ScanAfter, EventsOf, Asc, Later;
  }

  /** One step of the system around a watch of `prefix` that delivers what is above `m`. */
  function Moved(s: WatchState, prefix: Key, m: Rev, move: Move): WatchState {
    match move
    case Others(acts) =>
      s.(w := Play(s.w, acts), lostPoll := s.lostPoll + Removed(s.w, acts, s.cursor),
         lostRead := if s.phase.Reading? then s.lostRead + Removed(s.w, acts, s.pos) else s.lostRead)
    case PollMove(extra, failed) =>
      if failed then s else
        var events := Broadcast(s.w.db, s.cursor, extra);
        s.(cursor := CursorAfter(s.w.db, s.cursor, extra), chan := if |events| > 0 then s.chan + [events] else s.chan)
    case ReadMove(extra, completed) => if !s.phase.Reading? || !completed then s else BatchDone(s, prefix, m, extra)
    case ForwardMove =>
      if !s.phase.Passing? || s.chan == [] then s else
        s.(chan := s.chan[1..], delivered := s.delivered + Unsent(Filtered(s.chan[0], prefix), s.lastRevision))
  }

  function WatchRun(s: WatchState, prefix: Key, m: Rev, plan: seq<Move>): WatchState
    decreases |plan|
  {
    if plan == [] then s else Moved(WatchRun(s, prefix, m, plan[..|plan| - 1]), prefix, m, plan[|plan| - 1])
  }

  lemma WatchRunStep(s: WatchState, prefix: Key, m: Rev, plan: seq<Move>, i: nat)
    requires i < |plan|
    ensures WatchRun(s, prefix, m, plan[..i + 1]) == Moved(WatchRun(s, prefix, m, plan[..i]), prefix, m, plan[i])
  {
    assert plan[..i + 1][..i] == plan[..i];
  }

  /** Subscribed while the poll stands at `cursor`, with nothing read yet. */
  function Subscribed(w: World, m: Rev, cursor: Rev): WatchState {
    WatchState(w, cursor, [], m, 0, [], Reading, 0, [], {}, {})
  }

  class Watcher {
    const prefix: Key
    const minRevision: Rev
    const collector: AfterCollector
    var w: World
    var cursor: Rev                  // the poll loop's
    var chan: seq<seq<Event>>
    var pos: Rev
    var phase: Phase
    var lastRevision: Rev
    var delivered: seq<Event>
    ghost const start: World
    ghost const subscribed: Rev
    ghost var consumed: Rev          // the broadcasts taken from the channel end here
    ghost var marks: seq<Rev>
    ghost var lostRead: set<Rev>
    ghost var lostPoll: set<Rev>

    ghost function State(): WatchState
      reads this, collector
    {
      WatchState(w, cursor, chan, pos, collector.latestRev, collector.events, phase, lastRevision, delivered, lostRead,
                 lostPoll)
    }

    ghost function Read(): Since
      reads this
    {
      Losing(SinceOf(start), lostRead)
    }

    ghost function Polled(): Since
      reads this
    {
      Losing(SinceOf(start), lostPoll)
    }

    /** What the watch as a whole is due: up to its hand-over what the initial read was, from there what the poll is. */
    ghost function Whole(): Since
      reads this
    {
      Spliced(SinceOf(start), Max(subscribed, lastRevision), lostRead, lostPoll)
    }

    ghost predicate Common()
      reads this, collector
    {
      && Sound(w) && Grows(start, w) && start.db.latest <= w.db.latest
      && subscribed <= start.db.latest && subscribed <= consumed && cursor <= w.db.latest
      && Intact(w, Polled(), cursor) && Queue(w.hist, Polled(), consumed, chan, marks, cursor)
      && collector.filter == Some(prefix) && collector.limit == 0 && collector.checkCompacted
      && collector.minRevision == minRevision
    }

    ghost predicate ReadOk()
      reads this, collector
    {
      && delivered == [] && consumed == subscribed && (minRevision == pos || minRevision < pos <= w.db.latest)
      && Intact(w, Read(), pos)
      && Told(w.hist, Read(), Some(prefix), minRevision, pos, collector.events)
      && (collector.latestRev == 0 ||
          (start.db.latest <= collector.latestRev <= w.db.latest && (pos == minRevision || pos <= collector.latestRev)))
    }

    /** What has been delivered: all that is due up to what the read or the consumed broadcasts cover, and no more. */
    ghost predicate PassOk()
      reads this
    {
      && minRevision <= lastRevision && (lastRevision == minRevision || lastRevision <= w.db.latest)
      && Told(w.hist, Whole(), Some(prefix), minRevision, Max(consumed, lastRevision), delivered)
    }

    ghost predicate Valid()
      reads this, collector
    {
      Common() && match phase case Reading => ReadOk() case Passing => PassOk() case Refused => delivered == []
    }

    /** Subscribed; the poll loop has broadcast up to `cursor`, and nothing has been read yet. */
    constructor (w: World, prefix: Key, minRevision: Rev, cursor: Rev)
      requires Sound(w) && cursor <= w.db.latest
      ensures Valid() && start == w && subscribed == cursor && State() == Subscribed(w, this.minRevision, cursor)
      ensures this.prefix == (if prefix == [0] then [47] else prefix)
      ensures this.minRevision == if minRevision > 0 then minRevision - 1 else 0
      ensures fresh(collector)
    {
      var p: Key := if prefix == [0] then [47] else prefix;
      var m: Rev := if minRevision > 0 then minRevision - 1 else 0;
      this.prefix, this.minRevision := p, m;
      collector := new AfterCollector(m, true, 0, Some(p));
      this.w, this.cursor, chan, pos, phase, lastRevision, delivered := w, cursor, [], m, Reading, 0, [];
      start, subscribed, consumed, marks, lostRead, lostPoll := w, cursor, cursor, [], {}, {};
      new;
      Begins(w, cursor);
      Begins(w, m);
    }

    method OthersStep(acts: seq<Action>)
      requires Valid()
      modifies this`w, this`lostRead, this`lostPoll
      ensures Valid() && State() == Moved(old(State()), prefix, minRevision, Others(acts))
    {
      hide Sound, Intact, Told, Grows, Play, Removed, Queue, SinceOf, Spliced;
      ghost var before, toPoll, toRead := w, Removed(w, acts, cursor), Removed(w, acts, pos);
      RunsKeepSound(w, acts);
      RemovedAbove(w, acts, cursor);
      RemovedAbove(w, acts, pos);
      IntactRun(w, acts, Polled(), cursor);
      LosingTwice(SinceOf(start), lostPoll, toPoll);
      w := Play(w, acts);
      GrowsTransitive(start, before, w);
      GrowsLatest(before, w);
      QueueGrows(before, w, Polled(), consumed, chan, marks, cursor);
      QueueStill(w.hist, Polled(), toPoll, consumed, chan, marks, cursor);
      if phase.Reading? {
        IntactRun(before, acts, Read(), pos);
        LosingTwice(SinceOf(start), lostRead, toRead);
        ToldOn(before, w, Read(), prefix, minRevision, pos, collector.events);
        ToldStill(w.hist, Read(), toRead, Some(prefix), minRevision, pos, collector.events);
        lostRead := lostRead + toRead;
      } else if phase.Passing? {
        QueueMark(before.hist, Polled(), consumed, chan, marks, cursor);
        ToldOn(before, w, Whole(), prefix, minRevision, Max(consumed, lastRevision), delivered);
        WholeStill(w.hist, SinceOf(start), Max(subscribed, lastRevision), lostRead, lostPoll, toPoll, prefix,
                   minRevision, Max(consumed, lastRevision), delivered);
      }
      lostPoll := lostPoll + toPoll;
    }

    method PollStep(extra: nat, failed: bool)
      requires Valid()
      modifies this`cursor, this`chan, this`marks
      ensures Valid() && cursor >= old(cursor)
      ensures State() == Moved(old(State()), prefix, minRevision, PollMove(extra, failed))
      ensures failed ==> cursor == old(cursor) && chan == old(chan)
      ensures !failed && Later(w.db.log, old(cursor)) == {} ==> cursor == w.db.latest && chan == old(chan)
      ensures !failed && Later(w.db.log, old(cursor)) != {} ==>
        cursor > old(cursor) && |chan| == |old(chan)| + 1 && chan[..|old(chan)|] == old(chan) && chan[|old(chan)|] != []
    {
      hide Sound, Intact, Told, Grows, Queue, SinceOf, Spliced, Broadcast, CursorAfter, Play, Removed, AllSourced,
        Later;
      ghost var since := Polled();
      SoundIsFaithful(w);
      var events, next := PollOnce(w, cursor, extra, failed, since);
      QueueMore(w.hist, since, consumed, chan, marks, cursor, next, events);
      IntactHigher(w, since, cursor, next);
      if |events| > 0 {
        chan, marks := chan + [events], marks + [next];
      }
      cursor := next;
    }

    /** A batch of the initial read. An attempt that is not completed leaves nothing behind. */
    method ReadStep(extra: nat, completed: bool)
      requires Valid()
      modifies this`pos, this`phase, this`lastRevision, this`delivered, collector
      ensures Valid() && State() == Moved(old(State()), prefix, minRevision, ReadMove(extra, completed))
      ensures phase.Refused? && old(phase).Reading? ==> collector.compactRevision == w.db.watermark
      ensures if old(phase).Reading? && completed then
          && (phase.Refused? <==> 0 < minRevision < w.db.watermark)
          && (phase.Passing? ==> delivered == collector.events)
          && (phase.Reading? ==> pos > old(pos) && pos in w.db.log)
        else phase == old(phase) && pos == old(pos) && delivered == old(delivered)
    {
      hide Sound, Intact, Told, Grows, Queue, SinceOf, Spliced, EventsOf, ScanAfter, Asc, AllIn, Later, Play, Removed,
        Broadcast, CursorAfter, Unsent, Filtered, BatchDone;
      if phase != Reading { return; }
      var last, more;
      ghost var taken;
      last, more, taken := ScanBatch(collector, w.db, pos, extra);
      if completed { CompleteBatch(extra, last, more, taken); }
    }

    /** The end of a batch whose transaction went through. */
    method CompleteBatch(ghost extra: nat, last: Rev, more: bool, ghost taken: seq<Rev>)
      requires Valid() && phase == Reading
      requires AllIn(w.db.log, Asc(Later(w.db.log, pos))) && AllIn(w.db.log, taken)
      requires AfterScan(taken, last, more)
            == ScanAfter(w.db.log, [], pos, Asc(Later(w.db.log, pos)), extra, collector.latestRev, 0, Some(prefix),
              |collector.events|)
      requires collector.batchEvents == EventsOf(w.db.log, taken) && collector.batchLatestRev == 0
      requires collector.batchCompactRev == 0
      modifies this`pos, this`phase, this`lastRevision, this`delivered, collector
      ensures Valid() && State() == BatchDone(old(State()), prefix, minRevision, extra)
      ensures phase.Refused? <==> 0 < minRevision < w.db.watermark
      ensures phase.Refused? ==> collector.compactRevision == w.db.watermark
      ensures phase.Passing? ==> delivered == collector.events
      ensures phase.Reading? ==> pos > old(pos) && pos in w.db.log
    {
      hide Sound, Intact, Told, Grows, Queue, SinceOf, Spliced, EventsOf, ScanAfter, Asc, AllIn, Later, BatchDone;
      ghost var since := Read();
      SoundIsFaithful(w);
      ghost var bound, sent := collector.latestRev, collector.events;
      BatchDoneIs(State(), prefix, minRevision, extra, taken, last, more);
      ReadBatch(w, since, prefix, minRevision, pos, extra, bound, sent, taken, last, more);
      var compacted := collector.EndBatch(w.db);
      collector.PostBatch();
      if compacted {
        phase := Refused;
        return;
      }
      pos := last;
      if !more { BeginPassing(if Later(w.db.log, last) == {} then w.db.latest else bound); }
    }

    /** Delivers what the initial read found and remembers where it ended. */
    method BeginPassing(ghost upto: Rev)
      requires Common() && subscribed <= upto <= w.db.latest && consumed == subscribed
      requires Told(w.hist, Read(), Some(prefix), minRevision, upto, collector.events)
      modifies this`phase, this`lastRevision, this`delivered
      ensures Valid() && phase == Passing && delivered == collector.events
      ensures lastRevision == if |delivered| > 0 then delivered[|delivered| - 1].kv.modRevision else minRevision
    {
      hide Sound, Intact, Told, Grows, Queue, SinceOf, Spliced;
      HandsOver(w.hist, SinceOf(start), lostRead, lostPoll, prefix, minRevision, upto, subscribed, collector.events);
      lastRevision :=
        if |collector.events| > 0 then collector.events[|collector.events| - 1].kv.modRevision else minRevision;
      delivered := collector.events;
      phase := Passing;
    }

    method ForwardStep()
      requires Valid()
      modifies this`chan, this`delivered, this`consumed, this`marks
      ensures Valid() && old(delivered) <= delivered && State() == Moved(old(State()), prefix, minRevision, ForwardMove)
      ensures if old(phase).Passing? && old(chan) != [] then
          && chan == old(chan)[1..] && Increasing(Revs(delivered[|old(delivered)|..]))
          && forall ev :: ev in delivered[|old(delivered)|..] <==>
               ev in old(chan)[0] && Matches(ev.kv.key, prefix) && ev.kv.modRevision > lastRevision
        else chan == old(chan) && delivered == old(delivered)
    {
      hide Sound, Intact, Told, Grows, SinceOf, Spliced, Filtered, Unsent, Queue, Play, Removed, Broadcast, CursorAfter,
        BatchDone, Matches;
      if phase != Passing || chan == [] { return; }
      ghost var since := Polled();
      var batch := chan[0];
      QueueHead(w.hist, since, consumed, chan, marks, cursor);
      BroadcastIncreasing(w.hist, since, consumed, marks[0], batch);
      var events := FilterEvents(batch, prefix);
      FilteredIs(batch, prefix);
      events := SkipSent(events, lastRevision);
      PassedOn(w.hist, since, prefix, lastRevision, consumed, marks[0], batch, events);
      WholeAbove(w.hist, SinceOf(start), Max(subscribed, lastRevision), lostRead, lostPoll, prefix,
                 Max(consumed, lastRevision), marks[0], events);
      Joined(w.hist, Whole(), prefix, minRevision, lastRevision, consumed, marks[0], delivered, events);
      QueueMark(w.hist, since, marks[0], chan[1..], marks[1..], cursor);
      chan := chan[1..];
      assert (delivered + events)[|delivered|..] == events;
      delivered := delivered + events;
      consumed, marks := marks[0], marks[1..];
    }
  }

  lemma BroadcastIncreasing(h: map<Rev, Entry>, since: Since, f: Rev, f': Rev, batch: seq<Event>)
    requires Told(h, since, None, f, f', batch)
    ensures Increasing(Revs(batch))
  {
  }

  lemma LosingTwice(since: Since, a: set<Rev>, b: set<Rev>)
    ensures Losing(Losing(since, a), b) == Losing(since, a + b)
  {
    assert since.lost + a + b == since.lost + (a + b);
  }

  /** What has been told above `m` stays told; `hi` may be a start revision that lies in the future. */
  lemma ToldOn(w: World, w': World, since: Since, prefix: Key, m: Rev, hi: Rev, events: seq<Event>)
    requires Grows(w, w') && (m == hi || m < hi <= w.db.latest) && Told(w.hist, since, Some(prefix), m, hi, events)
    ensures Told(w'.hist, since, Some(prefix), m, hi, events)
  {
    hide Grows;
    if m == hi {
      assert DueIn(w.hist, since, Some(prefix), m, hi) == {};
      assert events == [];
      NothingTold(w'.hist, since, Some(prefix), m);
    } else {
      ToldGrows(w, w', since, Some(prefix), m, hi, events);
    }
  }

  lemma WholeStill(h: map<Rev, Entry>, since: Since, bound: Rev, below: set<Rev>, above: set<Rev>, more: set<Rev>,
                   prefix: Key, lo: Rev, hi: Rev, events: seq<Event>)
    requires Told(h, Spliced(since, bound, below, above), Some(prefix), lo, hi, events)
    requires forall r :: r in more ==> r <= bound || r > hi
    ensures Told(h, Spliced(since, bound, below, above + more), Some(prefix), lo, hi, events)
  {
    hide Spliced, DueIn, Asc, Truthful;
    SplicedMore(h, since, bound, below, above, more, Some(prefix), lo, hi);
  }

  lemma WholeAbove(h: map<Rev, Entry>, since: Since, bound: Rev, below: set<Rev>, above: set<Rev>, prefix: Key, lo: Rev,
                   hi: Rev, events: seq<Event>)
    requires Told(h, Losing(since, above), Some(prefix), lo, hi, events) && bound <= lo
    ensures Told(h, Spliced(since, bound, below, above), Some(prefix), lo, hi, events)
  {
    hide Spliced, Losing, DueIn, Asc, Truthful;
    SplicedAbove(h, since, bound, below, above, Some(prefix), lo, hi);
  }

  /**
   * The hand-over: an initial read that is complete up to a revision not below the subscription has delivered all it
   * was due up to its last revision and up to the subscription, and from there on the broadcasts are due.
   */
  lemma HandsOver(h: map<Rev, Entry>, since: Since, below: set<Rev>, above: set<Rev>, prefix: Key, m: Rev, upto: Rev,
                  subscribed: Rev, events: seq<Event>)
    requires Told(h, Losing(since, below), Some(prefix), m, upto, events) && subscribed <= upto
    ensures var last := if events == [] then m else events[|events| - 1].kv.modRevision;
      var bound := Max(subscribed, last);
      && m <= last && (last == m || last <= upto)
      && Told(h, Spliced(since, bound, below, above), Some(prefix), m, bound, events)
  {
    hide Truthful, Takes, Due, Asc, Losing, Spliced;
    var read := Losing(since, below);
    var revs, due := Revs(events), DueIn(h, read, Some(prefix), m, upto);
    var last := if events == [] then m else events[|events| - 1].kv.modRevision;
    var bound := Max(subscribed, last);
    forall r | r in due ensures events != [] && r <= revs[|revs| - 1] { assert r in revs; }
    if events != [] { assert revs[|revs| - 1] in due; }
    SplicedBelow(h, since, bound, below, above, Some(prefix), m, bound);
    forall r ensures r in DueIn(h, read, Some(prefix), m, bound) <==> r in due {}
    assert DueIn(h, read, Some(prefix), m, bound) == due;
  }

  /** A completed batch of the initial read, and where the read is complete if it was the last. */
  lemma ReadBatch(w: World, since: Since, prefix: Key, m: Rev, pos: Rev, extra: nat, bound: Rev, sent: seq<Event>,
                  taken: seq<Rev>, last: Rev, more: bool)
    requires Faithful(w) && Intact(w, since, pos) && (m == pos || m < pos <= w.db.latest)
    requires Told(w.hist, since, Some(prefix), m, pos, sent) && (bound == 0 || pos == m || pos <= bound)
    requires AllIn(w.db.log, taken) && AllIn(w.db.log, Asc(Later(w.db.log, pos)))
    requires AfterScan(taken, last, more)
          == ScanAfter(w.db.log, [], pos, Asc(Later(w.db.log, pos)), extra, bound, 0, Some(prefix), |sent|)
    ensures (m == last || m < last <= w.db.latest) && Intact(w, since, last)
    ensures (bound == 0 || last == m || last <= bound) && (more ==> last > pos && last in w.db.log)
    ensures Told(w.hist, since, Some(prefix), m, last, sent + EventsOf(w.db.log, taken))
    ensures AllSourced(w, EventsOf(w.db.log, taken))
    ensures !more ==>
      && (Later(w.db.log, last) == {} || bound != 0)
      && Told(w.hist, since, Some(prefix), m, if Later(w.db.log, last) == {} then w.db.latest else bound,
              sent + EventsOf(w.db.log, taken))
  {
    hide Told, EventsOf, ScanAfter, Asc, Later, TakenIn, Sourced;
    var log := w.db.log;
    MoreIsFurther(log, pos, extra, bound, Some(prefix), |sent|);
    ScanAfterExact(log, [], pos, extra, bound, 0, Some(prefix), |sent|);
    assert [] + Asc(TakenIn(log, Some(prefix), pos, last)) == taken;
    BatchTold(w, since, pos, last, Some(prefix), taken);
    var events := EventsOf(log, taken);
    ToldMore(w.hist, since, Some(prefix), m, pos, last, sent, events);
    if !more {
      if Later(log, last) == {} {
        AllCaughtUp(w, since, Some(prefix), last);
        ToldFurther(w.hist, since, Some(prefix), m, last, w.db.latest, sent + events);
      } else {
        NothingUpTo(w, since, Some(prefix), last, bound);
        ToldFurther(w.hist, since, Some(prefix), m, last, bound, sent + events);
      }
    }
  }

  /** A batch that ends because time is up has read a record. */
  lemma MoreIsFurther(log: map<Rev, Entry>, pos: Rev, extra: nat, bound: Rev, filter: Option<Key>, earlier: nat)
    requires AllIn(log, Asc(Later(log, pos)))
    ensures var s := ScanAfter(log, [], pos, Asc(Later(log, pos)), extra, bound, 0, filter, earlier);
      s.more ==> s.last > pos && s.last in log
  {
    hide ScanAfter, Asc, Later;
    var revs := Asc(Later(log, pos));
    ScanAfterStep(log, [], pos, revs, extra, bound, 0, filter, earlier);
    if revs != [] {
      assert Later(log, pos) != {} by { if Later(log, pos) == {} { NoneLater(log, pos); } }
      LaterStep(log, pos);
      if extra > 0 {
        ScanAfterExact(log, Took(log, filter, [], revs[0]), revs[0], extra - 1, bound, 0, filter, earlier);
      }
    }
  }

  /** An interval with nothing due in it adds nothing, wherever it lies. */
  lemma ToldFurther(h: map<Rev, Entry>, since: Since, filter: Option<Key>, m: Rev, last: Rev, x: Rev,
                    events: seq<Event>)
    requires m <= last && (last == m || last <= x)
    requires Told(h, since, filter, m, last, events) && Told(h, since, filter, last, x, [])
    ensures Told(h, since, filter, m, x, events)
  {
    if last <= x {
      ToldMore(h, since, filter, m, last, x, events, []);
      assert events + [] == events;
    } else {
      assert DueIn(h, since, filter, m, last) == {} && DueIn(h, since, filter, m, x) == {};
    }
  }

  /** If every record still to be read is above the bound, nothing is due up to the bound. */
  lemma NothingUpTo(w: World, since: Since, filter: Option<Key>, last: Rev, bound: Rev)
    requires Intact(w, since, last) && forall r: Rev :: r in w.db.log && r > last ==> r > bound
    ensures Told(w.hist, since, filter, last, bound, [])
  {
    assert DueIn(w.hist, since, filter, last, bound) == {};
  }

  /** The revisions that are due above `m` sooner or later, in order, as of the state `w`. */
  ghost function Expected(since: Since, w: World, prefix: Key, m: Rev): seq<Rev> {
    Asc(DueIn(w.hist, since, Some(prefix), m, w.db.latest))
  }

  /** Told up to some point means a prefix of everything expected. */
  lemma ToldIsPrefix(since: Since, w: World, prefix: Key, m: Rev, upto: Rev, events: seq<Event>)
    requires Told(w.hist, since, Some(prefix), m, upto, events) && (upto <= w.db.latest || upto <= m)
    ensures Revs(events) <= Expected(since, w, prefix, m) && Increasing(Revs(events))
  {
    hide Truthful, Asc, Due, Takes;
    if m < upto {
      DueSplit(w.hist, since, Some(prefix), m, upto, w.db.latest);
    } else {
      assert DueIn(w.hist, since, Some(prefix), m, upto) == {};
    }
  }

  /** What a watch has delivered at any time. */
  ghost predicate Delivered(since: Since, w: World, prefix: Key, m: Rev, events: seq<Event>) {
    && Revs(events) <= Expected(since, w, prefix, m) && Increasing(Revs(events))
    && forall i :: 0 <= i < |events| ==> Truthful(w.hist, events[i])
  }

  /**
   * What a watch is due that subscribed at `cursor`: everything the store held then and everything committed since,
   * except what was removed before the initial read got there, as far as its last revision and the subscription, and
   * what was removed before the poll got there, from then on.
   */
  function DueOf(start: World, cursor: Rev, s: WatchState): Since {
    Spliced(SinceOf(start), Max(cursor, s.lastRevision), s.lostRead, s.lostPoll)
  }

  ghost predicate TameMoves(s: WatchState, prefix: Key, m: Rev, plan: seq<Move>)
    decreases |plan|
  {
    plan == [] ||
    (var n := |plan| - 1;
     && TameMoves(s, prefix, m, plan[..n])
     && (plan[n].Others? ==> TameRun(WatchRun(s, prefix, m, plan[..n]).w, plan[n].acts)))
  }

  lemma {:induction false} TameMovesKeepInv(s: WatchState, prefix: Key, m: Rev, plan: seq<Move>)
    requires Inv(s.w) && TameMoves(s, prefix, m, plan)
    ensures Inv(WatchRun(s, prefix, m, plan).w)
    decreases |plan|
  {
    hide Inv, Play, TameRun, Broadcast, CursorAfter, Removed, BatchDone, Unsent, Filtered;
    if plan != [] {
      var n := |plan| - 1;
      TameMovesKeepInv(s, prefix, m, plan[..n]);
      if plan[n].Others? { TameRunGrows(WatchRun(s, prefix, m, plan[..n]).w, plan[n].acts); }
      BatchDoneKeeps(WatchRun(s, prefix, m, plan[..n]), prefix, m, plan[n]);
    }
  }

  // ---------------------------------------------------------------- the channel drains

  function Polls(plan: seq<Move>): nat {
    if plan == [] then 0 else Polls(plan[..|plan| - 1]) + if plan[|plan| - 1].PollMove? then 1 else 0
  }

  predicate Forwards(plan: seq<Move>) {
    forall i :: 0 <= i < |plan| ==> plan[i].ForwardMove?
  }

  lemma {:induction false} WatchRunConcat(s: WatchState, prefix: Key, m: Rev, a: seq<Move>, b: seq<Move>)
    ensures WatchRun(s, prefix, m, a + b) == WatchRun(WatchRun(s, prefix, m, a), prefix, m, b)
    decreases |b|
  {
    hide Moved;
    if b == [] {
      assert a + b == a;
    } else {
      var n := |b| - 1;
      WatchRunConcat(s, prefix, m, a, b[..n]);
      assert (a + b)[..|a + b| - 1] == a + b[..n];
    }
  }

  lemma {:induction false} PollsConcat(a: seq<Move>, b: seq<Move>)
    ensures Polls(a + b) == Polls(a) + Polls(b)
    decreases |b|
  {
    if b == [] {
      assert a + b == a;
    } else {
      PollsConcat(a, b[..|b| - 1]);
      assert (a + b)[..|a + b| - 1] == a + b[..|b| - 1];
    }
  }

  lemma {:induction false} NoPolls(plan: seq<Move>)
    requires forall i :: 0 <= i < |plan| ==> !plan[i].PollMove?
    ensures Polls(plan) == 0
    decreases |plan|
  {
    if plan != [] { NoPolls(plan[..|plan| - 1]); }
  }

  lemma {:induction false} ChanBound(s: WatchState, prefix: Key, m: Rev, plan: seq<Move>)
    ensures |WatchRun(s, prefix, m, plan).chan| <= |s.chan| + Polls(plan)
    decreases |plan|
  {
    hide Play, Removed, Broadcast, CursorAfter, BatchDone, Unsent, Filtered;
    if plan != [] {
      var n := |plan| - 1;
      ChanBound(s, prefix, m, plan[..n]);
      BatchDoneKeeps(WatchRun(s, prefix, m, plan[..n]), prefix, m, plan[n]);
    }
  }

  lemma BatchDoneKeeps(s: WatchState, prefix: Key, m: Rev, move: Move)
    ensures move.ReadMove? ==> var s' := BatchDone(s, prefix, m, move.extra);
      s'.w == s.w && s'.chan == s.chan && s'.cursor == s.cursor && s'.lostPoll == s.lostPoll
  {
    hide ReadScan, EventsOf;
  }

  /** While the watch passes on, each step takes one broadcast off the channel. */
  lemma {:induction false} ForwardsDrain(s: WatchState, prefix: Key, m: Rev, plan: seq<Move>)
    requires Forwards(plan)
    ensures var s' := WatchRun(s, prefix, m, plan);
      && s'.phase == s.phase && s'.w == s.w && s'.cursor == s.cursor
      && (s.phase.Passing? ==> |s'.chan| == if |plan| < |s.chan| then |s.chan| - |plan| else 0)
    decreases |plan|
  {
    hide Play, Removed, Broadcast, CursorAfter, BatchDone, Unsent, Filtered;
    if plan != [] { ForwardsDrain(s, prefix, m, plan[..|plan| - 1]); }
  }

  /** A watch that passes on and ends with as many steps of its own as the poll loop has had has an empty channel. */
  lemma EndsDrained(s: WatchState, prefix: Key, m: Rev, plan: seq<Move>, k: nat)
    requires s.chan == [] && k + Polls(plan) <= |plan| && Forwards(plan[k..])
    requires WatchRun(s, prefix, m, plan).phase.Passing?
    ensures WatchRun(s, prefix, m, plan).chan == []
  {
    hide Moved;
    var a, b := plan[..k], plan[k..];
    assert plan == a + b;
    WatchRunConcat(s, prefix, m, a, b);
    ChanBound(s, prefix, m, a);
    PollsConcat(a, b);
    NoPolls(b);
    ForwardsDrain(WatchRun(s, prefix, m, a), prefix, m, b);
  }

  // ---------------------------------------------------------------- the watch catches up

  predicate CompletedReads(plan: seq<Move>) {
    forall i :: 0 <= i < |plan| ==> plan[i].ReadMove? && plan[i].completed
  }

  predicate GoodPolls(plan: seq<Move>) {
    forall i :: 0 <= i < |plan| ==> plan[i].PollMove? && !plan[i].failed
  }

  /**
   * A plan that ends undisturbed: batches of the initial read, iterations of the poll loop and steps of the watch,
   * more of the first two than the log has records, and of the last as many as there were polls.
   */
  predicate EndsUndisturbed(plan: seq<Move>, i: nat, j: nat, k: nat, records: nat)
  {
    && i <= j <= k <= |plan|
    && CompletedReads(plan[i..j]) && j - i > records
    && GoodPolls(plan[j..k]) && k - j > records
    && Forwards(plan[k..]) && |plan| - k >= Polls(plan)
  }

  /** More completed batches than there are records to read end the initial read. */
  lemma {:induction false} ReadsFinish(s: WatchState, prefix: Key, m: Rev, plan: seq<Move>)
    requires CompletedReads(plan)
    ensures var s' := WatchRun(s, prefix, m, plan);
      && s'.w == s.w && s'.cursor == s.cursor
      && (s'.phase.Reading? ==> |Later(s.w.db.log, s'.pos)| + |plan| <= |Later(s.w.db.log, s.pos)|)
    decreases |plan|
  {
    hide Play, Removed, Broadcast, CursorAfter, BatchDone, Unsent, Filtered, Later;
    if plan != [] {
      var n := |plan| - 1;
      ReadsFinish(s, prefix, m, plan[..n]);
      var mid := WatchRun(s, prefix, m, plan[..n]);
      BatchDoneKeeps(mid, prefix, m, plan[n]);
      ReadsOn(mid, prefix, m, plan[n].extra);
    }
  }

  lemma ReadsOn(s: WatchState, prefix: Key, m: Rev, extra: nat)
    ensures var s' := BatchDone(s, prefix, m, extra);
      s'.phase.Reading? && s.phase.Reading? ==> |Later(s.w.db.log, s'.pos)| < |Later(s.w.db.log, s.pos)|
  {
    hide ScanAfter, EventsOf, Later, Asc;
    LaterIn(s.w.db.log, s.pos);
    MoreIsFurther(s.w.db.log, s.pos, extra, s.bound, Some(prefix), |s.read|);
    var scan := ReadScan(s.w.db.log, s.pos, extra, s.bound, prefix, |s.read|);
    if scan.more { LaterLess(s.w.db.log, s.pos, scan.last); }
  }

  /** So do iterations of the poll loop reach the read version. */
  lemma {:induction false} PollsFinish(s: WatchState, prefix: Key, m: Rev, plan: seq<Move>)
    requires Faithful(s.w) && s.cursor <= s.w.db.latest && GoodPolls(plan)
    ensures var s' := WatchRun(s, prefix, m, plan);
      && s'.w == s.w && s'.phase == s.phase && s.cursor <= s'.cursor <= s.w.db.latest
      && (if |plan| > |Later(s.w.db.log, s.cursor)| then s'.cursor == s.w.db.latest
          else |Later(s.w.db.log, s'.cursor)| <= |Later(s.w.db.log, s.cursor)| - |plan|)
    decreases |plan|
  {
    hide Faithful, Play, Removed, Broadcast, CursorAfter, BatchDone, Unsent, Filtered, Later;
    if plan != [] {
      var n := |plan| - 1;
      PollsFinish(s, prefix, m, plan[..n]);
      var mid := WatchRun(s, prefix, m, plan[..n]);
      QuietTurn(PollState(mid.w, mid.cursor, [], {}), PollTurn([], plan[n].extra, false));
      NoneAbove(s.w);
      if n == |Later(s.w.db.log, s.cursor)| { assert Later(s.w.db.log, mid.cursor) == {}; }
    }
  }

  lemma {:induction false} WatchStaysSound(s: WatchState, prefix: Key, m: Rev, plan: seq<Move>)
    requires Sound(s.w) && s.cursor <= s.w.db.latest
    ensures var s' := WatchRun(s, prefix, m, plan); Sound(s'.w) && s'.cursor <= s'.w.db.latest
    decreases |plan|
  {
    hide Sound, Play, Removed, Broadcast, CursorAfter, BatchDone, Unsent, Filtered, Intact, Told, Grows, Later;
    if plan != [] {
      var n := |plan| - 1;
      WatchStaysSound(s, prefix, m, plan[..n]);
      var mid := WatchRun(s, prefix, m, plan[..n]);
      BatchDoneKeeps(mid, prefix, m, plan[n]);
      match plan[n] {
        case Others(acts) =>
          RunsKeepSound(mid.w, acts);
          GrowsLatest(mid.w, Play(mid.w, acts));
        case PollMove(extra, failed) =>
          SoundIsFaithful(mid.w);
          IntactAtFirst(mid.w, mid.cursor);
          PollBatch(mid.w, SinceOf(mid.w), mid.cursor, extra);
        case ReadMove(_, _) =>
        case ForwardMove =>
      }
    }
  }

  /** A plan that ends undisturbed ends with the watch refused, or caught up with the read version. */
  lemma EndsCaughtUp(s: WatchState, prefix: Key, m: Rev, plan: seq<Move>, i: nat, j: nat, k: nat)
    requires Sound(s.w) && s.cursor <= s.w.db.latest && s.chan == []
    requires EndsUndisturbed(plan, i, j, k, |WatchRun(s, prefix, m, plan).w.db.log|)
    ensures var s' := WatchRun(s, prefix, m, plan);
      s'.phase.Refused? || (s'.phase.Passing? && s'.chan == [] && s'.cursor == s'.w.db.latest)
  {
    hide Sound, Moved, Later, CompletedReads, GoodPolls, Forwards;
    var s0 := WatchRun(s, prefix, m, plan[..i]);
    var s1 := WatchRun(s0, prefix, m, plan[i..j]);
    var s2 := WatchRun(s1, prefix, m, plan[j..k]);
    Segments(s, prefix, m, plan, i, j, k);
    WatchStaysSound(s, prefix, m, plan[..i]);
    SoundIsFaithful(s0.w);
    ReadsFinish(s0, prefix, m, plan[i..j]);
    PollsFinish(s1, prefix, m, plan[j..k]);
    ForwardsDrain(s2, prefix, m, plan[k..]);
    LaterFits(s0.w.db.log, s0.pos);
    LaterFits(s0.w.db.log, s0.cursor);
    if WatchRun(s, prefix, m, plan).phase.Passing? { EndsDrained(s, prefix, m, plan, k); }
  }

  lemma Segments(s: WatchState, prefix: Key, m: Rev, plan: seq<Move>, i: nat, j: nat, k: nat)
    requires i <= j <= k <= |plan|
    ensures WatchRun(s, prefix, m, plan)
         == WatchRun(WatchRun(WatchRun(WatchRun(s, prefix, m, plan[..i]), prefix, m, plan[i..j]), prefix, m,
                              plan[j..k]), prefix, m, plan[k..])
  {
    hide Moved;
    assert plan == plan[..i] + plan[i..] && plan[i..] == plan[i..j] + plan[j..] && plan[j..] == plan[j..k] + plan[k..];
    WatchRunConcat(s, prefix, m, plan[..i], plan[i..]);
    var s0 := WatchRun(s, prefix, m, plan[..i]);
    WatchRunConcat(s0, prefix, m, plan[i..j], plan[j..]);
    WatchRunConcat(WatchRun(s0, prefix, m, plan[i..j]), prefix, m, plan[j..k], plan[k..]);
  }

  /** A prefix that has everything is everything. */
  lemma PrefixIsAll(since: Since, w: World, prefix: Key, m: Rev, events: seq<Event>)
    requires Delivered(since, w, prefix, m, events)
    requires forall r :: r in DueIn(w.hist, since, Some(prefix), m, w.db.latest) ==> r in Revs(events)
    ensures Revs(events) == Expected(since, w, prefix, m)
  {
    hide Truthful, Due, Takes;
    var due := Expected(since, w, prefix, m);
    forall r ensures r in Revs(events) <==> r in due {
      if r in Revs(events) { assert r in due[..|events|]; }
    }
    IncreasingUnique(Revs(events), due);
  }

  // ---------------------------------------------------------------- what was there before

  ghost predicate ChanAttributed(w: World, chan: seq<seq<Event>>) {
    forall i :: 0 <= i < |chan| ==> AllAttributed(w, chan[i])
  }

  /** Every event in flight comes with what it replaced, unless the log has lost that. */
  ghost predicate InFlight(s: WatchState) {
    && Sound(s.w) && Rooted(s.w)
    && AllAttributed(s.w, s.read) && AllAttributed(s.w, s.delivered) && ChanAttributed(s.w, s.chan)
  }

  lemma EventsSourced(w: World, revs: seq<Rev>)
    requires Faithful(w) && AllIn(w.db.log, revs)
    ensures AllSourced(w, EventsOf(w.db.log, revs))
  {
    hide EventOf, Sourced, Truthful, Faithful;
    forall i | 0 <= i < |revs| ensures Sourced(w.db.log, w.hist, EventOf(w.db.log, revs[i])) {
      assert revs[i] in revs;
      EventTruthful(w, revs[i]);
    }
  }

  lemma {:induction false} UnsentHas(events: seq<Event>, lastRevision: Rev)
    ensures forall ev :: ev in Unsent(events, lastRevision) ==> ev in events
    decreases |events|
  {
    if |events| > 0 && events[0].kv.modRevision <= lastRevision { UnsentHas(events[1..], lastRevision); }
  }

  lemma AttributedPart(w: World, all: seq<Event>, part: seq<Event>, sent: seq<Event>)
    requires AllAttributed(w, all) && AllAttributed(w, sent) && forall ev :: ev in part ==> ev in all
    ensures AllAttributed(w, sent + part)
  {
    hide Attributed;
    forall i | 0 <= i < |part| ensures Attributed(w, part[i]) { assert part[i] in part && part[i] in all; }
  }

  lemma NoneAttributed(w: World)
    ensures AllAttributed(w, [])
  {
  }

  lemma InFlightOthers(s: WatchState, prefix: Key, m: Rev, acts: seq<Action>)
    requires InFlight(s)
    ensures InFlight(Moved(s, prefix, m, Others(acts)))
  {
    hide Sound, Rooted, Play, Removed, AllAttributed, Grows;
    RunsKeepSound(s.w, acts);
    AttributedStays(s.w, acts, s.read);
    AttributedStays(s.w, acts, s.delivered);
    forall i | 0 <= i < |s.chan| ensures AllAttributed(Play(s.w, acts), s.chan[i]) {
      AttributedStays(s.w, acts, s.chan[i]);
    }
  }

  lemma InFlightPoll(s: WatchState, prefix: Key, m: Rev, extra: nat, failed: bool)
    requires InFlight(s)
    ensures InFlight(Moved(s, prefix, m, PollMove(extra, failed)))
  {
    hide Sound, Rooted, PollScan, AllSourced, AllAttributed, EventsOf, CursorAfter;
    SoundIsFaithful(s.w);
    PollScanIn(s.w.db, s.cursor, extra);
    EventsSourced(s.w, PollScan(s.w.db, s.cursor, extra).taken);
    var events := Broadcast(s.w.db, s.cursor, extra);
    NoneAttributed(s.w);
    AttributedMore(s.w, [], events);
    assert [] + events == events;
  }

  lemma InFlightRead(s: WatchState, prefix: Key, m: Rev, extra: nat, completed: bool)
    requires InFlight(s)
    ensures InFlight(Moved(s, prefix, m, ReadMove(extra, completed)))
  {
    hide Sound, Rooted, ReadScan, AllSourced, AllAttributed, EventsOf;
    SoundIsFaithful(s.w);
    ReadScanIn(s.w.db.log, s.pos, extra, s.bound, prefix, |s.read|);
    var taken := ReadScan(s.w.db.log, s.pos, extra, s.bound, prefix, |s.read|).taken;
    EventsSourced(s.w, taken);
    AttributedMore(s.w, s.read, EventsOf(s.w.db.log, taken));
  }

  lemma InFlightForward(s: WatchState, prefix: Key, m: Rev)
    requires InFlight(s)
    ensures InFlight(Moved(s, prefix, m, ForwardMove))
  {
    hide Sound, Rooted, AllAttributed, Unsent, Filtered, Matches;
    if s.phase.Passing? && s.chan != [] {
      FilteredHas(s.chan[0], prefix);
      UnsentHas(Filtered(s.chan[0], prefix), s.lastRevision);
      AttributedPart(s.w, s.chan[0], Unsent(Filtered(s.chan[0], prefix), s.lastRevision), s.delivered);
    }
  }

  lemma {:induction false} RunsKeepInFlight(s: WatchState, prefix: Key, m: Rev, plan: seq<Move>)
    requires InFlight(s)
    ensures InFlight(WatchRun(s, prefix, m, plan))
    decreases |plan|
  {
    hide InFlight, Moved;
    if plan != [] {
      var n := |plan| - 1;
      RunsKeepInFlight(s, prefix, m, plan[..n]);
      var mid := WatchRun(s, prefix, m, plan[..n]);
      match plan[n] {
        case Others(acts) => InFlightOthers(mid, prefix, m, acts);
        case PollMove(extra, failed) => InFlightPoll(mid, prefix, m, extra, failed);
        case ReadMove(extra, completed) => InFlightRead(mid, prefix, m, extra, completed);
        case ForwardMove => InFlightForward(mid, prefix, m);
      }
    }
  }

  /** As long as the log is the whole history, a delivered event tells what was there before whenever something was. */
  lemma WatchTellsPrev(start: World, cursor: Rev, prefix: Key, m: Rev, plan: seq<Move>, since: Since)
    requires Sound(start) && Rooted(start)
    requires var s := WatchRun(Subscribed(start, m, cursor), prefix, m, plan);
      s.w.db.log == s.w.hist && Delivered(since, s.w, prefix, m, s.delivered)
    ensures var s := WatchRun(Subscribed(start, m, cursor), prefix, m, plan);
      forall i :: 0 <= i < |s.delivered| ==> PrevTold(s.w.hist, s.delivered[i])
  {
    hide Sound, Rooted, Expected, Truthful, PrevTold;
    var first := Subscribed(start, m, cursor);
    NoneAttributed(start);
    RunsKeepInFlight(first, prefix, m, plan);
    var s := WatchRun(first, prefix, m, plan);
    SoundIsFaithful(s.w);
    AllPrevTold(s.w, s.delivered);
  }

  /**
   * The watch, over any interleaving and whatever compaction does: what it has delivered is a prefix of the matching
   * records it is due, each once and in order. Once it has read and consumed everything broadcast, it has delivered all
   * that is due up to the poll cursor.
   */
  method Watch(start: World, prefix: Key, minRevision: Rev, cursor: Rev, plan: seq<Move>)
    returns (phase: Phase, delivered: seq<Event>)
    requires Sound(start) && cursor <= start.db.latest
    ensures var p: Key := if prefix == [0] then [47] else prefix;
      var m := if minRevision > 0 then minRevision - 1 else 0;
      var s := WatchRun(Subscribed(start, m, cursor), p, m, plan);
      && phase == s.phase && delivered == s.delivered
      && Sound(s.w) && Grows(start, s.w) && cursor <= s.cursor <= s.w.db.latest
      && Delivered(DueOf(start, cursor, s), s.w, p, m, delivered) && (phase != Passing ==> delivered == [])
      && (phase == Passing && s.chan == [] ==>
            forall r :: r in DueIn(s.w.hist, DueOf(start, cursor, s), Some(p), m, s.cursor) ==> r in Revs(delivered))
      && (Inv(start) && TameMoves(Subscribed(start, m, cursor), p, m, plan) ==>
            Inv(s.w) && forall i :: 0 <= i < |delivered| ==> Consecutive(s.w.hist, delivered[i]))
      && (Rooted(start) && s.w.db.log == s.w.hist ==>
            forall i :: 0 <= i < |delivered| ==> PrevTold(s.w.hist, delivered[i]))
    ensures var p: Key := if prefix == [0] then [47] else prefix;
      var m := if minRevision > 0 then minRevision - 1 else 0;
      var s := WatchRun(Subscribed(start, m, cursor), p, m, plan);
      && (forall k :: 0 <= k <= |plan| - Polls(plan) && Forwards(plan[k..]) && phase == Passing ==>
            forall r :: r in DueIn(s.w.hist, DueOf(start, cursor, s), Some(p), m, s.cursor) ==> r in Revs(delivered))
      && (forall i, j, k :: EndsUndisturbed(plan, i, j, k, |s.w.db.log|) ==>
            phase == Refused || (phase == Passing && Revs(delivered) == Expected(DueOf(start, cursor, s), s.w, p, m)))
  {
    hide Inv, Sound, Intact, Told, Grows, Queue, SinceOf, Spliced, Delivered, Moved, TameMoves, Consecutive;
    hide Rooted, PrevTold, EndsUndisturbed, Forwards, Expected, DueIn;
    var watcher := new Watcher(start, prefix, minRevision, cursor);
    ghost var p, m := watcher.prefix, watcher.minRevision;
    ghost var first := Subscribed(start, m, cursor);
    for i := 0 to |plan|
      invariant watcher.Valid() && watcher.start == start && watcher.subscribed == cursor <= watcher.cursor
      invariant fresh(watcher) && fresh(watcher.collector)
      invariant watcher.State() == WatchRun(first, p, m, plan[..i])
    {
      WatchRunStep(first, p, m, plan, i);
      match plan[i] {
        case Others(acts) => watcher.OthersStep(acts);
        case PollMove(extra, failed) => watcher.PollStep(extra, failed);
        case ReadMove(extra, completed) => watcher.ReadStep(extra, completed);
        case ForwardMove => watcher.ForwardStep();
      }
    }
    assert plan[..|plan|] == plan;
    phase, delivered := watcher.phase, watcher.delivered;
    ghost var s := watcher.State();
    if phase == Passing {
      QueueMark(s.w.hist, watcher.Polled(), watcher.consumed, s.chan, watcher.marks, s.cursor);
      PassedAll(SinceOf(start), s, cursor, p, m, watcher.consumed, watcher.marks);
    } else {
      NothingDelivered(DueOf(start, cursor, s), s.w, p, m);
    }
    if Inv(start) && TameMoves(first, p, m, plan) {
      TameMovesKeepInv(first, p, m, plan);
      DeliveredConsecutive(DueOf(start, cursor, s), s.w, p, m, delivered);
    }
    if Rooted(start) && s.w.db.log == s.w.hist {
      WatchTellsPrev(start, cursor, p, m, plan, DueOf(start, cursor, s));
    }
    forall k | 0 <= k <= |plan| - Polls(plan) && Forwards(plan[k..]) && phase == Passing
      ensures s.chan == []
    {
      EndsDrained(first, p, m, plan, k);
    }
    forall i, j, k | EndsUndisturbed(plan, i, j, k, |s.w.db.log|)
      ensures phase == Refused || (phase == Passing && Revs(delivered) == Expected(DueOf(start, cursor, s), s.w, p, m))
    {
      EndsCaughtUp(first, p, m, plan, i, j, k);
      if phase == Passing { PrefixIsAll(DueOf(start, cursor, s), s.w, p, m, delivered); }
    }
  }

  lemma NothingDelivered(since: Since, w: World, prefix: Key, m: Rev)
    ensures Delivered(since, w, prefix, m, [])
  {
  }

  lemma DeliveredConsecutive(since: Since, w: World, prefix: Key, m: Rev, events: seq<Event>)
    requires Inv(w) && Delivered(since, w, prefix, m, events)
    ensures forall i :: 0 <= i < |events| ==> Consecutive(w.hist, events[i])
  {
    hide Inv, Truthful, Consecutive, Expected;
    forall i | 0 <= i < |events| ensures Consecutive(w.hist, events[i]) { TruthfulIsConsecutive(w, events[i]); }
  }

  /** All broadcasts consumed: what is due up to the cursor has been told. */
  lemma PassedAll(since: Since, s: WatchState, subscribed: Rev, prefix: Key, m: Rev, f: Rev, marks: seq<Rev>)
    requires s.cursor <= s.w.db.latest && subscribed <= f <= s.cursor
    requires m <= s.lastRevision && (s.lastRevision == m || s.lastRevision <= s.w.db.latest)
    requires var whole := Spliced(since, Max(subscribed, s.lastRevision), s.lostRead, s.lostPoll);
      Told(s.w.hist, whole, Some(prefix), m, Max(f, s.lastRevision), s.delivered)
    requires Queue(s.w.hist, Losing(since, s.lostPoll), f, s.chan, marks, s.cursor)
    ensures var whole := Spliced(since, Max(subscribed, s.lastRevision), s.lostRead, s.lostPoll);
      && Delivered(whole, s.w, prefix, m, s.delivered)
      && (s.chan == [] ==>
            forall r :: r in DueIn(s.w.hist, whole, Some(prefix), m, s.cursor) ==> r in Revs(s.delivered))
  {
    hide Truthful, Expected;
    var bound := Max(subscribed, s.lastRevision);
    var whole := Spliced(since, bound, s.lostRead, s.lostPoll);
    ToldIsPrefix(whole, s.w, prefix, m, Max(f, s.lastRevision), s.delivered);
    if s.chan == [] {
      forall r | r in DueIn(s.w.hist, whole, Some(prefix), m, s.cursor) ensures r in Revs(s.delivered) {
        if r > bound {
          NothingQueued(s.w.hist, Losing(since, s.lostPoll), f, s.cursor, r);
        }
        assert r in DueIn(s.w.hist, whole, Some(prefix), m, Max(f, s.lastRevision));
      }
    }
  }

  lemma NothingQueued(h: map<Rev, Entry>, since: Since, f: Rev, cursor: Rev, r: Rev)
    requires Told(h, since, None, f, cursor, []) && r in h && Due(since, r) && r <= cursor
    ensures r <= f
  {
    assert r > f ==> r in DueIn(h, since, None, f, cursor);
    assert r in DueIn(h, since, None, f, cursor) ==> r in Asc(DueIn(h, since, None, f, cursor));
  }
}
