/** Lease expiry: entries loaded from events, and deletes guarded by the revision each entry was loaded from. */
module Ttl {
  import opened Types
  import opened Store
  import opened World
  import opened Writes
  import opened Polling

  /** In nanoseconds, the unit of all durations. */
  const SECOND := 1_000_000_000

  datatype TtlEntry = TtlEntry(key: Key, modRevision: Rev, expiredAt: nat)

  /** At `time` the loop was told of the record at `rev`. */
  datatype Observation = Observation(rev: Rev, time: nat)

  /** At `time` the loop began the delete that appended the tombstone at `rev` for the record at `target`. */
  datatype Expiry = Expiry(target: Rev, rev: Rev, time: nat)

  /** The entry was loaded from an observation of a live leased record of its key, and expires a lease after it. */
  ghost predicate Grounded(h: map<Rev, Entry>, seen: seq<Observation>, e: TtlEntry) {
    && e.modRevision in h && h[e.modRevision].key == e.key && h[e.modRevision].meta.lease > 0 && e.modRevision > 0
    && exists i :: 0 <= i < |seen| && seen[i].rev == e.modRevision
                   && e.expiredAt == seen[i].time + h[e.modRevision].meta.lease * SECOND
  }

  /** The tombstone was written over exactly the observed record of its key, and not before its lease ran out. */
  ghost predicate Justified(h: map<Rev, Entry>, seen: seq<Observation>, x: Expiry) {
    && x.rev in h && x.target in h && x.target < x.rev && h[x.target].key == h[x.rev].key
    && h[x.rev].meta.isDelete && h[x.rev].meta.prevRev == x.target && h[x.target].meta.lease > 0
    && exists i :: 0 <= i < |seen| && seen[i].rev == x.target
                   && seen[i].time + h[x.target].meta.lease * SECOND <= x.time
  }

  lemma GroundedGrows(w: World, w': World, seen: seq<Observation>, more: seq<Observation>, e: TtlEntry)
    requires Grows(w, w') && Grounded(w.hist, seen, e)
    ensures Grounded(w'.hist, seen + more, e)
  {
    var lease := w.hist[e.modRevision].meta.lease;
    var i :| 0 <= i < |seen| && seen[i].rev == e.modRevision && e.expiredAt == seen[i].time + lease * SECOND;
    assert (seen + more)[i] == seen[i];
  }

  lemma JustifiedGrows(w: World, w': World, seen: seq<Observation>, more: seq<Observation>, x: Expiry)
    requires Grows(w, w') && Justified(w.hist, seen, x)
    ensures Justified(w'.hist, seen + more, x)
  {
    var i :| 0 <= i < |seen| && seen[i].rev == x.target
      && seen[i].time + w.hist[x.target].meta.lease * SECOND <= x.time;
    assert (seen + more)[i] == seen[i];
  }

  /** A tombstone that a guarded delete appended for an expired entry, whatever interfered with the delete. */
  lemma ExpiryJustified(h: map<Rev, Entry>, seen: seq<Observation>, e: TtlEntry, now: nat, rev: Rev)
    requires Grounded(h, seen, e) && e.expiredAt <= now && Wrote(h, DeleteOp(e.key, e.modRevision), rev)
    ensures Justified(h, seen, Expiry(e.modRevision, rev, now))
  {
  }

  /** While compactions begin safely the observed record is the one just before the tombstone in the key's history. */
  lemma JustifiedIsNext(w: World, seen: seq<Observation>, x: Expiry)
    requires Inv(w) && Justified(w.hist, seen, x)
    ensures Precedes(w.hist, x.target, x.rev)
  {
    hide RunOk, Mirrored, Retained, UniqueUuids, CurrentOk;
    assert Linked(w.hist, x.rev);
  }

  /** An event that says what was committed. */
  ghost predicate Tells(h: map<Rev, Entry>, ev: Event) {
    var r := ev.kv.modRevision;
    r > 0 && Outlines(h, ev.kv) && ev.delete == h[r].meta.isDelete
  }

  /** The steps around the loop, in any order. Any committed record may be reported at any time. */
  datatype TtlMove =
    | Elapses(d: nat)
    | OthersMove(acts: seq<Action>)
    | Reported(rev: Rev)
    | Wakes(key: Key)
    | Deletes(plan: seq<Attempt>)
    | Finishes

  /** `seen` and `expired` record what the loop was told and what it appended. */
  datatype TtlState = TtlState(
    w: World, now: nat, store: map<Key, TtlEntry>, inflight: Option<TtlEntry>, outcome: Option<bool>,
    seen: seq<Observation>, expired: seq<Expiry>)

  function Noted(s: TtlState, ev: Event): TtlState {
    if ev.delete || ev.kv.lease <= 0
       || (ev.kv.key in s.store && ev.kv.modRevision <= s.store[ev.kv.key].modRevision) then s
    else s.(store := s.store[ev.kv.key := TtlEntry(ev.kv.key, ev.kv.modRevision, s.now + ev.kv.lease * SECOND)],
            seen := s.seen + [Observation(ev.kv.modRevision, s.now)])
  }

  function Expiries(target: Rev, mine: seq<Rev>, time: nat): seq<Expiry> {
    seq(|mine|, i requires 0 <= i < |mine| => Expiry(target, mine[i], time))
  }

  /** One step of the system around the loop. */
  function TtlMoved(s: TtlState, move: TtlMove): TtlState {
    match move
    case Elapses(d) => s.(now := s.now + d)
    case OthersMove(acts) => s.(w := Play(s.w, acts))
    case Reported(rev) => if rev in s.w.hist then Noted(s, EventOf(s.w.hist, rev)) else s
    case Wakes(key) =>
      if s.inflight.None? && key in s.store && s.store[key].expiredAt <= s.now then s.(inflight := Some(s.store[key]))
      else s
    case Deletes(plan) =>
      if s.inflight.None? || s.outcome.Some? then s else
        var e := s.inflight.value;
        var o := Call(s.w, DeleteOp(e.key, e.modRevision), plan);
        s.(w := o.w, outcome := Some(o.reply.Failed?), expired := s.expired + Expiries(e.modRevision, o.mine, s.now))
    case Finishes =>
      if s.inflight.None? || s.outcome.None? then s else
        s.(store := if s.outcome.value then s.store else s.store - {s.inflight.value.key},
           inflight := None, outcome := None)
  }

  function TtlRun(s: TtlState, moves: seq<TtlMove>): TtlState
    decreases |moves|
  {
    if moves == [] then s else TtlMoved(TtlRun(s, moves[..|moves| - 1]), moves[|moves| - 1])
  }

  lemma TtlRunStep(s: TtlState, moves: seq<TtlMove>, i: nat)
    requires i < |moves|
    ensures TtlRun(s, moves[..i + 1]) == TtlMoved(TtlRun(s, moves[..i]), moves[i])
  {
    assert moves[..i + 1][..i] == moves[..i];
  }

  /** Everything the loop's delete of an entry with nobody else at work adds: the tombstone over the entry's record. */
  ghost predicate OneTombstone(s: TtlState, e: TtlEntry, s': TtlState) {
    && |s'.expired| == |s.expired| + 1 && s'.expired[..|s.expired|] == s.expired
    && var n := s'.expired[|s.expired|].rev;
      && s'.expired[|s.expired|] == Expiry(e.modRevision, n, s.now)
      && n !in s.w.hist && n in s'.w.hist && s'.w.hist == s.w.hist[n := s'.w.hist[n]]
      && s'.w.hist[n].key == e.key && s'.w.hist[n].meta.isDelete && s'.w.hist[n].meta.prevRev == e.modRevision
  }

  /**
   * A delete of the loaded entry that has returned. Without an error, the entry's record is not the live newest of its
   * key any more. With nobody else at work, a tombstone is written over that record exactly if it was.
   */
  ghost predicate DeleteDone(s: TtlState, plan: seq<Attempt>, s': TtlState) {
    s.inflight.Some? && s.outcome.None? ==>
      var e := s.inflight.value;
      && s'.outcome.Some? && (s'.outcome == Some(false) ==> !LiveTop(s'.w.hist, e.key, e.modRevision))
      && (Alone(plan) ==>
            && ((exists i :: 0 <= i < |plan| && plan[i].fate.Committed?) ==> s'.outcome == Some(false))
            && (!LiveTop(s.w.hist, e.key, e.modRevision) ==> s'.w.hist == s.w.hist && s'.expired == s.expired)
            && (LiveTop(s.w.hist, e.key, e.modRevision) && s'.outcome == Some(false) ==> OneTombstone(s, e, s')))
  }

  lemma DeleteIsDone(s: TtlState, plan: seq<Attempt>)
    requires Inv(s.w) && (s.inflight.Some? ==> s.inflight.value.modRevision != 0) && TameMove(s, Deletes(plan))
    ensures DeleteDone(s, plan, TtlMoved(s, Deletes(plan)))
  {
    hide Inv, Call, LiveTop, TameCall, Grows, Alone;
    if s.inflight.Some? && s.outcome.None? {
      var e := s.inflight.value;
      var op := DeleteOp(e.key, e.modRevision);
      CallCloses(s.w, op, plan);
      if Alone(plan) {
        CallAlone(s.w, op, plan);
        InvIsFaithful(s.w);
        assert s.expired + [] == s.expired;
      }
    }
  }

  class TtlLoop {
    const backend: Backend
    var now: nat
    var store: map<Key, TtlEntry>
    var inflight: Option<TtlEntry>     // the handler has loaded this entry and found it expired
    var outcome: Option<bool>          // its delete has returned, with an error or without
    ghost var seen: seq<Observation>
    ghost var expired: seq<Expiry>

    ghost function State(): TtlState
      reads this, backend
    {
      TtlState(backend.w, now, store, inflight, outcome, seen, expired)
    }

    ghost predicate Valid()
      reads this, backend
    {
      var h := backend.w.hist;
      && Sound(backend.w)
      && (forall k :: k in store ==> store[k].key == k && Grounded(h, seen, store[k]))
      && (inflight.Some? ==>
            inflight.value.key in store && Grounded(h, seen, inflight.value) && inflight.value.expiredAt <= now)
      && (outcome.Some? ==> inflight.Some?)
      && (forall i :: 0 <= i < |expired| ==> Justified(h, seen, expired[i]))
    }

    constructor (backend: Backend, now: nat)
      requires Sound(backend.w)
      ensures Valid() && this.backend == backend && State() == TtlState(backend.w, now, map[], None, None, [], [])
    {
      this.backend, this.now, store, inflight, outcome, seen, expired := backend, now, map[], None, None, [], [];
    }

    ghost method Carry(w: World, more: seq<Observation>)
      requires Sound(backend.w) && Grows(w, backend.w)
      requires forall k :: k in store ==> store[k].key == k && Grounded(w.hist, seen, store[k])
      requires inflight.Some? ==>
        inflight.value.key in store && Grounded(w.hist, seen, inflight.value) && inflight.value.expiredAt <= now
      requires outcome.Some? ==> inflight.Some?
      requires forall i :: 0 <= i < |expired| ==> Justified(w.hist, seen, expired[i])
      modifies this`seen
      ensures seen == old(seen) + more && Valid()
    {
      hide Sound, Grows, Grounded, Justified;
      forall k | k in store ensures Grounded(backend.w.hist, seen + more, store[k]) {
        GroundedGrows(w, backend.w, seen, more, store[k]);
      }
      if inflight.Some? { GroundedGrows(w, backend.w, seen, more, inflight.value); }
      forall i | 0 <= i < |expired| ensures Justified(backend.w.hist, seen + more, expired[i]) {
        JustifiedGrows(w, backend.w, seen, more, expired[i]);
      }
      seen := seen + more;
    }

    method Elapse(d: nat)
      requires Valid()
      modifies this`now
      ensures Valid() && State() == TtlMoved(old(State()), Elapses(d))
    {
      hide Sound, Grounded, Justified;
      now := now + d;
    }

    /** Writers and compaction. */
    method Others(acts: seq<Action>)
      requires Valid()
      modifies backend, this`seen
      ensures Valid() && State() == TtlMoved(old(State()), OthersMove(acts)) && Grows(old(backend.w), backend.w)
    {
      hide Sound, Grounded, Justified, Grows, Play;
      ghost var before := backend.w;
      RunsKeepSound(backend.w, acts);
      backend.w := Play(backend.w, acts);
      Carry(before, []);
    }

    /** An event arrives: a new entry, or a newer revision of a known one. */
    method Observe(ev: Event)
      requires Valid() && Tells(backend.w.hist, ev)
      modifies this`store, this`seen
      ensures Valid() && State() == Noted(old(State()), ev)
      ensures forall k :: k in old(store) ==> k in store && store[k].modRevision >= old(store)[k].modRevision
    {
      hide Grounded, Justified, Sound, Grows;
      if ev.kv.lease <= 0 || ev.delete { return; }
      if ev.kv.key !in store || ev.kv.modRevision > store[ev.kv.key].modRevision {
        var entry := TtlEntry(ev.kv.key, ev.kv.modRevision, now + ev.kv.lease * SECOND);
        ghost var before := seen;
        GrowsReflexive(backend.w);
        Carry(backend.w, [Observation(ev.kv.modRevision, now)]);
        NowGrounded(backend.w.hist, before, ev, now);
        store := store[ev.kv.key := entry];
      }
    }

    /** The handler wakes for a key, at any time: it goes on only with an entry that has expired. */
    method HandleLoad(key: Key)
      requires Valid()
      modifies this`inflight
      ensures Valid() && State() == TtlMoved(old(State()), Wakes(key))
    {
      hide Sound, Grounded, Justified;
      if inflight.Some? || key !in store || store[key].expiredAt > now { return; }
      inflight := Some(store[key]);
    }

    /** The delete of the loaded entry, with whatever interferes and however often it is retried. */
    method HandleDelete(plan: seq<Attempt>)
      requires Valid() && inflight.Some? && outcome.None?
      modifies this`outcome, this`seen, this`expired, backend
      ensures Valid() && State() == TtlMoved(old(State()), Deletes(plan)) && Grows(old(backend.w), backend.w)
      ensures old(Inv(backend.w) && TameMove(State(), Deletes(plan))) ==> DeleteDone(old(State()), plan, State())
    {
      hide Sound, Grounded, Justified, Grows, Wrote, Call, Inv, TameMove, DeleteDone;
      LoadedPositive(backend.w.hist, seen, inflight.value);
      if Inv(backend.w) && TameMove(State(), Deletes(plan)) { DeleteIsDone(State(), plan); }
      var pre := inflight.value;
      ghost var before := backend.w;
      CallIsOwn(backend.w, DeleteOp(pre.key, pre.modRevision), plan);
      ghost var mine;
      var reply;
      reply, mine := backend.Transact(DeleteOp(pre.key, pre.modRevision), plan);
      Carry(before, []);
      ghost var more := Expiries(pre.modRevision, mine, now);
      forall i | 0 <= i < |more| ensures Justified(backend.w.hist, seen, more[i]) {
        assert mine[i] in mine;
        ExpiryJustified(backend.w.hist, seen, pre, now, mine[i]);
      }
      expired := expired + more;
      outcome := Some(reply.Failed?);
    }

    /** After an error the entry is kept for another try; otherwise whatever entry the key has by now is dropped. */
    method HandleFinish()
      requires Valid() && outcome.Some?
      modifies this`store, this`inflight, this`outcome
      ensures Valid() && State() == TtlMoved(old(State()), Finishes)
    {
      hide Sound, Grounded, Justified;
      if inflight.value.expiredAt <= now && !outcome.value { store := store - {inflight.value.key}; }
      inflight, outcome := None, None;
    }
  }

  /** Nobody but the loop writes. */
  ghost predicate Quiet(moves: seq<TtlMove>) {
    forall i :: 0 <= i < |moves| ==>
      && !moves[i].OthersMove?
      && (moves[i].Deletes? ==> forall j :: 0 <= j < |moves[i].plan| ==> moves[i].plan[j].others == [])
  }

  ghost predicate Accounted(h: map<Rev, Entry>, start: map<Rev, Entry>, expired: seq<Expiry>) {
    forall r: Rev :: r in h && r !in start ==> exists i :: 0 <= i < |expired| && expired[i].rev == r
  }

  lemma DeleteAccounted(w: World, start: map<Rev, Entry>, op: Op, plan: seq<Attempt>, expired: seq<Expiry>, time: nat)
    requires op.DeleteOp? && (forall j :: 0 <= j < |plan| ==> plan[j].others == []) && Accounted(w.hist, start, expired)
    ensures var o := Call(w, op, plan); Accounted(o.w.hist, start, expired + Expiries(op.revision, o.mine, time))
  {
    hide Attempts;
    var o := Call(w, op, plan);
    var all := expired + Expiries(op.revision, o.mine, time);
    forall r: Rev | r in o.w.hist && r !in start ensures exists i :: 0 <= i < |all| && all[i].rev == r {
      AppendsOnlyMine(Burned(w), op, w.nextUuid, plan, r);
      if r in o.mine {
        var j :| 0 <= j < |o.mine| && o.mine[j] == r;
        assert all[|expired| + j].rev == r;
      } else {
        var i :| 0 <= i < |expired| && expired[i].rev == r;
        assert all[i].rev == r;
      }
    }
  }

  /** The move begins compactions only at safe ends. */
  ghost predicate TameMove(s: TtlState, move: TtlMove) {
    && (move.OthersMove? ==> TameRun(s.w, move.acts))
    && (move.Deletes? && s.inflight.Some? && s.outcome.None? ==>
          TameCall(s.w, DeleteOp(s.inflight.value.key, s.inflight.value.modRevision), move.plan))
  }

  ghost predicate TameMoves(s: TtlState, moves: seq<TtlMove>)
    decreases |moves|
  {
    moves == [] || (TameMoves(s, moves[..|moves| - 1]) && TameMove(TtlRun(s, moves[..|moves| - 1]), moves[|moves| - 1]))
  }

  lemma TameMovesStep(s: TtlState, moves: seq<TtlMove>, i: nat)
    requires i < |moves|
    ensures TameMoves(s, moves[..i + 1]) <==> TameMoves(s, moves[..i]) && TameMove(TtlRun(s, moves[..i]), moves[i])
  {
    assert moves[..i + 1][..i] == moves[..i];
  }

  lemma TameMoveKeepsInv(s: TtlState, move: TtlMove)
    requires Inv(s.w) && TameMove(s, move) && (s.inflight.Some? ==> s.inflight.value.modRevision != 0)
    ensures Inv(TtlMoved(s, move).w)
  {
    hide Inv, Play, TameRun, Call, TameCall, Noted;
    match move
    case OthersMove(acts) => TameRunGrows(s.w, acts);
    case Deletes(plan) =>
      if s.inflight.Some? && s.outcome.None? {
        AtMostOnce(s.w, DeleteOp(s.inflight.value.key, s.inflight.value.modRevision), plan);
      }
    case Reported(rev) => NotedWorld(s, rev);
    case Elapses(_) =>
    case Wakes(_) =>
    case Finishes =>
  }

  lemma NotedWorld(s: TtlState, rev: Rev)
    ensures TtlMoved(s, Reported(rev)).w == s.w
  {
  }

  lemma LoadedPositive(h: map<Rev, Entry>, seen: seq<Observation>, e: TtlEntry)
    requires Grounded(h, seen, e)
    ensures e.modRevision != 0 && e.modRevision in h
  {
  }

  function Begun(start: World): TtlState {
    TtlState(start, 0, map[], None, None, [], [])
  }

  /**
   * Over any run, with no condition on compaction, every tombstone the loop appended is justified; with no other
   * writer, those are all the new records. If compactions begin safely, the observed record is moreover the last one of
   * the key before the tombstone.
   */
  method RunTtl(start: World, moves: seq<TtlMove>) returns (w: World)
    requires Inv(start)
    ensures var s := TtlRun(Begun(start), moves);
      && w == s.w && Sound(w) && Grows(start, w)
      && (forall i :: 0 <= i < |s.expired| ==> Justified(w.hist, s.seen, s.expired[i]))
      && (Quiet(moves) ==> Accounted(w.hist, start.hist, s.expired))
      && (TameMoves(Begun(start), moves) ==>
            && Inv(w)
            && (forall i :: 0 <= i < |s.expired| ==> Precedes(w.hist, s.expired[i].target, s.expired[i].rev))
            && Cleared(s)
            && (forall i :: 0 <= i < |moves| && moves[i].Deletes? ==>
                  DeleteDone(TtlRun(Begun(start), moves[..i]), moves[i].plan, TtlRun(Begun(start), moves[..i + 1]))))
  {
    hide Inv, Sound, Grounded, Justified, Grows, Tells, Accounted, Call, TtlMoved, TameMove, Precedes, Quiet;
    hide DeleteDone, Cleared;
    var backend := new Backend(start);
    SoundAtFirst(start);
    var loop := new TtlLoop(backend, 0);
    ghost var first := Begun(start);
    NoneNew(start.hist);
    GrowsReflexive(start);
    NothingDone(first);
    for i := 0 to |moves|
      invariant loop.Valid() && fresh(loop) && fresh(backend) && loop.backend == backend
      invariant loop.State() == TtlRun(first, moves[..i]) && Grows(start, backend.w)
      invariant Quiet(moves) ==> Accounted(backend.w.hist, start.hist, loop.expired)
      invariant TameMoves(first, moves[..i]) ==> Inv(backend.w) && Cleared(loop.State()) && AllDone(first, moves[..i])
    {
      TtlRunStep(first, moves, i);
      TameMovesStep(first, moves, i);
      ghost var was := loop.State();
      if loop.inflight.Some? { LoadedPositive(backend.w.hist, loop.seen, loop.inflight.value); }
      if TameMoves(first, moves[..i + 1]) { TameMoveKeepsInv(was, moves[i]); }
      TakeMove(loop, moves[i]);
      if TameMoves(first, moves[..i + 1]) { MoveDone(first, moves, i); }
      GrowsTransitive(start, was.w, backend.w);
      if Quiet(moves) { MoveAccounted(was, start.hist, moves, i); }
    }
    assert moves[..|moves|] == moves;
    w := backend.w;
    if TameMoves(first, moves) {
      forall i | 0 <= i < |loop.expired| ensures Precedes(w.hist, loop.expired[i].target, loop.expired[i].rev) {
        JustifiedIsNext(w, loop.seen, loop.expired[i]);
      }
      AllDoneIs(first, moves);
    }
  }

  /** An entry whose delete has returned without an error: its record is not the live newest of its key, ever after. */
  ghost predicate Cleared(s: TtlState) {
    s.outcome == Some(false) ==>
      && s.inflight.Some? && s.inflight.value.modRevision in s.w.hist
      && !LiveTop(s.w.hist, s.inflight.value.key, s.inflight.value.modRevision)
  }

  ghost predicate AllDone(s: TtlState, moves: seq<TtlMove>) {
    forall i :: 0 <= i < |moves| && moves[i].Deletes? ==>
      DeleteDone(TtlRun(s, moves[..i]), moves[i].plan, TtlRun(s, moves[..i + 1]))
  }

  lemma NothingDone(s: TtlState)
    requires s.outcome == None
    ensures Cleared(s) && AllDone(s, [])
  {
  }

  lemma AllDoneIs(s: TtlState, moves: seq<TtlMove>)
    requires AllDone(s, moves)
    ensures forall i :: 0 <= i < |moves| && moves[i].Deletes? ==>
      DeleteDone(TtlRun(s, moves[..i]), moves[i].plan, TtlRun(s, moves[..i + 1]))
  {
  }

  lemma MoveDone(s: TtlState, moves: seq<TtlMove>, i: nat)
    requires i < |moves| && AllDone(s, moves[..i])
    requires var was := TtlRun(s, moves[..i]);
      && Inv(was.w) && TameMove(was, moves[i]) && Cleared(was) && Grows(was.w, TtlMoved(was, moves[i]).w)
      && (was.inflight.Some? ==> was.inflight.value.modRevision != 0 && was.inflight.value.modRevision in was.w.hist)
    ensures AllDone(s, moves[..i + 1]) && Cleared(TtlRun(s, moves[..i + 1]))
  {
    hide Inv, TameMove, TtlMoved, DeleteDone, Cleared, TtlRun, Grows;
    var was := TtlRun(s, moves[..i]);
    TtlRunStep(s, moves, i);
    if moves[i].Deletes? { DeleteIsDone(was, moves[i].plan); }
    ClearedStep(was, moves[i]);
    var now := moves[..i + 1];
    forall j | 0 <= j < |now| && now[j].Deletes?
      ensures DeleteDone(TtlRun(s, now[..j]), now[j].plan, TtlRun(s, now[..j + 1]))
    {
      assert now[..j] == moves[..j] && now[..j + 1] == moves[..j + 1];
      if j < i {
        assert moves[..i][..j] == moves[..j] && moves[..i][..j + 1] == moves[..j + 1] && moves[..i][j] == now[j];
      }
    }
  }

  lemma ClearedStep(s: TtlState, move: TtlMove)
    requires Cleared(s) && Grows(s.w, TtlMoved(s, move).w)
    requires s.inflight.Some? ==> s.inflight.value.modRevision in s.w.hist
    requires move.Deletes? ==> DeleteDone(s, move.plan, TtlMoved(s, move))
    ensures Cleared(TtlMoved(s, move))
  {
    hide Call, Play, Alone, OneTombstone;
    var s' := TtlMoved(s, move);
    if s'.outcome == Some(false) && s.outcome == Some(false) {
      var e := s.inflight.value;
      if LiveTop(s'.w.hist, e.key, e.modRevision) { LiveTopBefore(s.w, s'.w, e.key, e.modRevision); }
    }
  }

  lemma SoundAtFirst(w: World)
    requires Inv(w)
    ensures Sound(w)
  {
    hide StoreOk, RunOk, Sound;
    StoreIsSound(w);
  }

  lemma MoveAccounted(s: TtlState, start: map<Rev, Entry>, moves: seq<TtlMove>, i: nat)
    requires i < |moves| && Quiet(moves) && Accounted(s.w.hist, start, s.expired)
    ensures var s' := TtlMoved(s, moves[i]); Accounted(s'.w.hist, start, s'.expired)
  {
    hide Call, Accounted, Expiries;
    if moves[i].Deletes? && s.inflight.Some? && s.outcome.None? {
      var e := s.inflight.value;
      DeleteAccounted(s.w, start, DeleteOp(e.key, e.modRevision), moves[i].plan, s.expired, s.now);
    }
  }

  method TakeMove(loop: TtlLoop, move: TtlMove)
    requires loop.Valid()
    modifies loop, loop.backend
    ensures loop.Valid() && loop.State() == TtlMoved(old(loop.State()), move)
    ensures Grows(old(loop.backend.w), loop.backend.w)
  {
    hide Sound, Grounded, Justified, Grows, Call, Play;
    GrowsReflexive(loop.backend.w);
    match move {
      case Elapses(d) => loop.Elapse(d);
      case OthersMove(acts) => loop.Others(acts);
      case Reported(rev) =>
        if rev in loop.backend.w.hist {
          ReportTells(loop.backend.w, rev);
          loop.Observe(EventOf(loop.backend.w.hist, rev));
        }
      case Wakes(key) => loop.HandleLoad(key);
      case Deletes(plan) => if loop.inflight.Some? && loop.outcome.None? { loop.HandleDelete(plan); }
      case Finishes => if loop.outcome.Some? { loop.HandleFinish(); }
    }
  }

  lemma NoneNew(h: map<Rev, Entry>)
    ensures Accounted(h, h, [])
  {
  }

  lemma ReportTells(w: World, r: Rev)
    requires Sound(w) && r in w.hist
    ensures Tells(w.hist, EventOf(w.hist, r))
  {
  }

  lemma NowGrounded(h: map<Rev, Entry>, seen: seq<Observation>, ev: Event, now: nat)
    requires Tells(h, ev) && ev.kv.lease > 0
    ensures Grounded(h, seen + [Observation(ev.kv.modRevision, now)],
                     TtlEntry(ev.kv.key, ev.kv.modRevision, now + ev.kv.lease * SECOND))
  {
    var all := seen + [Observation(ev.kv.modRevision, now)];
    assert all[|seen|] == Observation(ev.kv.modRevision, now);
  }

  // ---------------------------------------------------------------- a lease that runs out

  /** The loop is told of a record, time passes, the handler wakes for the key, deletes it and finishes. */
  function RunsOut(rev: Rev, d: nat, key: Key, plan: seq<Attempt>): seq<TtlMove> {
    [Reported(rev), Elapses(d), Wakes(key), Deletes(plan), Finishes]
  }

  lemma LoadsExpired(s: TtlState, key: Key, rev: Rev, d: nat, plan: seq<Attempt>)
    requires s.inflight.None? && s.outcome.None? && LiveTop(s.w.hist, key, rev) && rev > 0
    requires s.w.hist[rev].meta.lease > 0 && d >= s.w.hist[rev].meta.lease * SECOND
    requires key in s.store ==> s.store[key].modRevision < rev
    ensures var e := TtlEntry(key, rev, s.now + s.w.hist[rev].meta.lease * SECOND);
      TtlRun(s, RunsOut(rev, d, key, plan)[..3])
      == TtlState(s.w, s.now + d, s.store[key := e], Some(e), None, s.seen + [Observation(rev, s.now)], s.expired)
  {
    hide TtlRun, Play, Call;
    var moves := RunsOut(rev, d, key, plan);
    NoMoves(s);
    assert moves[..0] == [];
    TtlRunStep(s, moves, 0);
    TtlRunStep(s, moves, 1);
    TtlRunStep(s, moves, 2);
  }

  /**
   * A lease that nobody renews is enforced: told of the live newest record of a key, and left alone until its lease has
   * run out, the loop writes exactly one tombstone, over that record, and forgets the key and no other.
   */
  lemma LeaseExpires(s: TtlState, key: Key, rev: Rev, d: nat, plan: seq<Attempt>)
    requires Inv(s.w) && s.inflight.None? && s.outcome.None? && LiveTop(s.w.hist, key, rev) && rev > 0
    requires s.w.hist[rev].meta.lease > 0 && d >= s.w.hist[rev].meta.lease * SECOND
    requires key in s.store ==> s.store[key].modRevision < rev
    requires Alone(plan) && exists i :: 0 <= i < |plan| && plan[i].fate.Committed?
    ensures var s' := TtlRun(s, RunsOut(rev, d, key, plan));
      && s'.inflight.None? && s'.outcome.None? && s'.store == s.store - {key}
      && OneTombstone(s.(now := s.now + d), TtlEntry(key, rev, s.now + s.w.hist[rev].meta.lease * SECOND), s')
  {
    hide TtlRun, Play, Call, Inv, LiveTop, Alone, TameCall;
    var moves := RunsOut(rev, d, key, plan);
    LiveTopIn(s.w.hist, key, rev);
    LoadsExpired(s, key, rev, d, plan);
    var s3 := TtlRun(s, moves[..3]);
    CallAlone(s.w, DeleteOp(key, rev), plan);
    DeleteIsDone(s3, plan);
    TtlRunStep(s, moves, 3);
    TtlRunStep(s, moves, 4);
    assert moves[..5] == moves;
    assert s.store[key := s3.store[key]] - {key} == s.store - {key};
  }

  lemma LiveTopIn(h: map<Rev, Entry>, key: Key, rev: Rev)
    requires LiveTop(h, key, rev)
    ensures rev in h && h[rev].key == key && Live(h[rev])
  {
  }

  // ---------------------------------------------------------------- renewals while the handler is at work

  /** The loop is told of a live leased record of the loaded entry's key, newer than the one it was loaded from. */
  ghost predicate Renews(s: TtlState, e: TtlEntry, move: TtlMove) {
    && move.Reported? && move.rev in s.w.hist && move.rev > e.modRevision
    && s.w.hist[move.rev].key == e.key && !s.w.hist[move.rev].meta.isDelete && s.w.hist[move.rev].meta.lease > 0
  }

  /** Some move has renewed the entry. */
  ghost predicate RenewedIn(s: TtlState, e: TtlEntry, moves: seq<TtlMove>) {
    exists i :: 0 <= i < |moves| && Renews(TtlRun(s, moves[..i]), e, moves[i])
  }

  lemma RenewedStep(s: TtlState, e: TtlEntry, moves: seq<TtlMove>)
    requires moves != []
    ensures var n := |moves| - 1;
      RenewedIn(s, e, moves) <==> RenewedIn(s, e, moves[..n]) || Renews(TtlRun(s, moves[..n]), e, moves[n])
  {
    hide Renews, TtlRun;
    var n := |moves| - 1;
    var init := moves[..n];
    if i :| 0 <= i < |moves| && Renews(TtlRun(s, moves[..i]), e, moves[i]) {
      assert i < n ==> init[..i] == moves[..i] && init[i] == moves[i];
    }
    if i :| 0 <= i < |init| && Renews(TtlRun(s, init[..i]), e, init[i]) {
      assert init[..i] == moves[..i] && init[i] == moves[i];
    }
  }

  lemma {:induction false} RenewedIff(s: TtlState, e: TtlEntry, moves: seq<TtlMove>)
    requires e.key in s.store && s.store[e.key] == e && Finishes !in moves
    ensures var s' := TtlRun(s, moves);
      && e.key in s'.store && s'.store[e.key].modRevision >= e.modRevision
      && (s'.store[e.key].modRevision > e.modRevision <==> RenewedIn(s, e, moves))
    decreases |moves|
  {
    hide TtlMoved, Renews, RenewedIn;
    if moves == [] {
      NotRenewed(s, e);
    } else {
      var n := |moves| - 1;
      RenewedIff(s, e, moves[..n]);
      RenewedStep(s, e, moves);
      StoreStep(TtlRun(s, moves[..n]), e, moves[n]);
    }
  }

  lemma NotRenewed(s: TtlState, e: TtlEntry)
    ensures !RenewedIn(s, e, [])
  {
  }

  lemma StoreStep(s: TtlState, e: TtlEntry, move: TtlMove)
    requires e.key in s.store && s.store[e.key].modRevision >= e.modRevision && !move.Finishes?
    ensures var s' := TtlMoved(s, move);
      && e.key in s'.store && s'.store[e.key].modRevision >= e.modRevision
      && (s'.store[e.key].modRevision > e.modRevision <==>
            s.store[e.key].modRevision > e.modRevision || Renews(s, e, move))
  {
    hide Call, Play;
  }

  /**
   * The handler drops a renewed entry exactly if its delete returned without an error and a newer live leased record
   * was reported after it had loaded the old entry.
   */
  lemma RenewalDroppedIff(s: TtlState, e: TtlEntry, moves: seq<TtlMove>)
    requires s.inflight == Some(e) && s.outcome == None && e.key in s.store && s.store[e.key] == e && Finishes !in moves
    requires TtlRun(s, moves).outcome.Some?
    ensures var s' := TtlRun(s, moves);
      e.key in s'.store && s'.store[e.key] != e && s'.store[e.key].modRevision > e.modRevision
        && e.key !in TtlMoved(s', Finishes).store
      <==> !s'.outcome.value && RenewedIn(s, e, moves)
  {
    hide TtlRun, RenewedIn;
    RenewedIff(s, e, moves);
    StillLoaded(s, e, moves);
  }

  lemma {:induction false} StillLoaded(s: TtlState, e: TtlEntry, moves: seq<TtlMove>)
    requires s.inflight == Some(e) && Finishes !in moves
    ensures TtlRun(s, moves).inflight == Some(e)
    decreases |moves|
  {
    hide Call, Play;
    if moves != [] { StillLoaded(s, e, moves[..|moves| - 1]); }
  }

  /** A key with a lease of a second is renewed just after the handler has loaded its expired entry. */
  function Renewal(): seq<TtlMove> {
    [OthersMove([Write(CreateOp([97], [], 1))]), Reported(2), Elapses(SECOND), Wakes([97]),
     OthersMove([Write(UpdateOp([97], [], 2, 1))]), Reported(3), Deletes([Attempt([], Committed)]), Finishes]
  }

  function Created(): World {
    Apply(Init(1), Write(CreateOp([97], [], 1)))
  }

  function Renewed(): World {
    Apply(Created(), Write(UpdateOp([97], [], 2, 1)))
  }

  lemma RenewedIs()
    ensures Play(Init(1), [Write(CreateOp([97], [], 1))]) == Created()
    ensures Play(Created(), [Write(UpdateOp([97], [], 2, 1))]) == Renewed()
    ensures Created().hist == map[2 := Entry([97], Meta(true, false, 1, 0, 0, 0), [])]
    ensures Renewed().hist == Created().hist[3 := Entry([97], Meta(false, false, 1, 2, 2, 0), [])]
    ensures GetLast(Renewed().db, [97]).Some? && GetLast(Renewed().db, [97]).value.rev == 3 && 3 in Renewed().db.log
  {
    hide CurrentAfter;
    PlayOne(Init(1), Write(CreateOp([97], [], 1)));
    PlayOne(Created(), Write(UpdateOp([97], [], 2, 1)));
    assert GetLast(Init(1).db, [97]).None?;
    GetLastIs(Created().db, [97], 2);
    GetLastIs(Renewed().db, [97], 3);
  }

  /** The guarded delete of an old revision changes nothing and returns no error. */
  lemma DeleteRefused(w: World, key: Key, rev: Rev)
    requires rev != 0 && GetLast(w.db, key).Some? && GetLast(w.db, key).value.rev in w.db.log
    requires GetLast(w.db, key).value.rev != rev
    ensures var o := Call(w, DeleteOp(key, rev), [Attempt([], Committed)]);
      o.w.hist == w.hist && o.mine == [] && !o.reply.Failed?
  {
    hide GetLast;
    PlayOne(Burned(w), Tick(0));
    assert Burned(w).db == w.db;
  }

  /** Up to the point where the handler has loaded the entry. */
  lemma Loaded()
    ensures var e := TtlEntry([97], 2, SECOND);
      TtlRun(Begun(Init(1)), Renewal()[..4])
      == TtlState(Created(), SECOND, map[[97] := e], Some(e), None, [Observation(2, 0)], [])
  {
    hide Call, Play, Renewed, Created, TtlRun;
    var s0, moves := Begun(Init(1)), Renewal();
    RenewedIs();
    NoMoves(s0);
    assert moves[..0] == [];
    TtlRunStep(s0, moves, 0);
    TtlRunStep(s0, moves, 1);
    TtlRunStep(s0, moves, 2);
    TtlRunStep(s0, moves, 3);
  }

  lemma NoMoves(s: TtlState)
    ensures TtlRun(s, []) == s
  {
  }

  /** The loop then knows of no lease for the key, which is live with one. */
  lemma RenewalDropped()
    ensures var s := TtlRun(Begun(Init(1)), Renewal());
      && s.store == map[] && s.inflight == None && s.expired == []
      && Newest(s.w.hist, 3) && s.w.hist[3].key == [97] && Live(s.w.hist[3]) && s.w.hist[3].meta.lease == 1
  {
    hide Call, Play, Renewed, Created, TtlRun;
    var s0, moves := Begun(Init(1)), Renewal();
    RenewedIs();
    DeleteRefused(Renewed(), [97], 2);
    Loaded();
    assert moves[..8] == moves;
    TtlRunStep(s0, moves, 4);
    TtlRunStep(s0, moves, 5);
    TtlRunStep(s0, moves, 6);
    TtlRunStep(s0, moves, 7);
  }
}
