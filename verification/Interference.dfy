/**
 * Guarded writes among compactions that begin above the read version. Such a compaction can remove the record a call
 * has just written and bring the record it was guarded by back, so that the retry finds its guard open again.
 */
module Interference {
  import opened Types
  import opened Store
  import opened World
  import opened Compaction
  import opened Writes

  /** What others do first may as well have happened before the call. */
  lemma Prepend(w: World, op: Op, lastUuid: nat, act: Action, acts: seq<Action>, fate: Fate, rest: seq<Attempt>)
    ensures Attempts(w, op, lastUuid, [Attempt([act] + acts, fate)] + rest)
         == Attempts(Apply(w, act), op, lastUuid, [Attempt(acts, fate)] + rest)
    ensures Tame(w, act) ==>
      (TameAttempts(w, op, lastUuid, [Attempt([act] + acts, fate)] + rest) <==>
       TameAttempts(Apply(w, act), op, lastUuid, [Attempt(acts, fate)] + rest))
  {
    hide Apply, Attempted, Tame;
    var a, b := [Attempt([act] + acts, fate)] + rest, [Attempt(acts, fate)] + rest;
    assert a[1..] == rest && b[1..] == rest;
    assert ([act] + acts)[0] == act && ([act] + acts)[1..] == acts;
    assert Play(w, [act] + acts) == Play(Apply(w, act), acts);
  }

  lemma BurnStoreOk(w: World)
    requires StoreOk(w)
    ensures StoreOk(Burned(w))
  {
    hide Mirrored, Chained, CurrentOk;
  }

  /** A delete whose key's newest record is live and is the one it names, if it names any. */
  lemma DeletePuts(w: World, k: Key, r0: Rev, g: Rev, lastUuid: nat)
    requires Sound(w) && GetLast(w.db, k).Some? && GetLast(w.db, k).value.rev == r0 && r0 in w.db.log
    requires !GetLast(w.db, k).value.entry.meta.isDelete && (g == 0 || g == r0)
    ensures Decide(w.db, DeleteOp(k, g)).Some? && Decide(w.db, DeleteOp(k, g)) == Decide(w.db, DeleteOp(k, 0))
    ensures TryOnce(w.db, DeleteOp(k, g), lastUuid) == Put(Decide(w.db, DeleteOp(k, 0)).value)
    ensures Decide(w.db, DeleteOp(k, 0)).value.entry.meta.prevRev == r0
    ensures Decide(w.db, DeleteOp(k, 0)).value.entry.meta.isDelete && Decide(w.db, DeleteOp(k, 0)).value.entry.key == k
  {
  }

  /**
   * A run that has not begun to scan and whose end lies above the read version, and no other writer at all: the first
   * batch keeps the live record, the delete commits in doubt, the second batch removes its tombstone, and the retry
   * deletes the record again and answers that it did.
   */
  lemma DeleteTwiceFrom(w: World, i: nat, k: Key, r0: Rev, g: Rev, lastUuid: nat)
    requires StoreOk(w) && i < |w.runs| && w.runs[i].cursor == 0 && w.runs[i].end > w.db.latest
    requires Newest(w.hist, r0) && w.hist[r0].key == k && Live(w.hist[r0]) && (g == 0 || g == r0)
    ensures var plan := [Attempt([Batch(i, |w.db.log|, true)], DoubtApplied), Attempt([Batch(i, 1, true)], Committed)];
      var o := Attempts(w, DeleteOp(k, g), lastUuid, plan);
      && o.mine == [w.db.latest + 1, w.db.latest + 2] && o.reply.Done? && o.reply.ok
      && TameAttempts(w, DeleteOp(k, g), lastUuid, plan)
  {
    hide StoreOk, Sound, Commit, Apply, Decide, TryOnce, Play, TameRun, Resurrected;
    var op := DeleteOp(k, g);
    var b1, b2 := Batch(i, |w.db.log|, true), Batch(i, 1, true);
    var w1 := Apply(w, b1);
    FirstBatch(w, i, r0);
    PlayOne(w, b1);
    StoreIsSound(w1);
    LastOfLive(w1, k, r0);
    DeletePuts(w1, k, r0, g, lastUuid);
    var a := DeleteLive(w1, k, r0);
    PutIs(w1, k, a);
    assert Attempted(w1, op, lastUuid, DoubtApplied) == Again(Commit(w1, a), w1.nextUuid, [w.db.latest + 1]);
    var w2 := Commit(w1, a);
    StoreIsSound(w2);
    FaithfulOf(w1);
    Compaction.Committed(w1, a);
    SecondBatch(w2, i, k, r0, w.db.latest + 1);
    var w3 := Apply(w2, b2);
    PlayOne(w2, b2);
    StepKeepsSound(w2, b2);
    DeletePuts(w3, k, r0, g, w1.nextUuid);
    var plan := [Attempt([b1], DoubtApplied), Attempt([b2], Committed)];
    assert plan[1..] == [plan[1]] && plan[1..][1..] == [];
    assert Attempts(w2, op, w1.nextUuid, plan[1..]).mine == [w.db.latest + 2];
    assert TameAttempts(w2, op, w1.nextUuid, plan[1..]);
  }

  lemma FaithfulOf(w: World)
    requires StoreOk(w)
    ensures Faithful(w)
  {
  }

  lemma LastOfLive(w: World, k: Key, r0: Rev)
    requires StoreOk(w) && Newest(w.hist, r0) && w.hist[r0].key == k && Live(w.hist[r0])
    ensures GetLast(w.db, k).Some? && GetLast(w.db, k).value.rev == r0 && r0 in w.db.log
    ensures GetLast(w.db, k).value.entry.meta == w.hist[r0].meta && w.db.log[r0] == w.hist[r0]
  {
    hide Chained, UniqueUuids, CurrentOk;
    LastIsNewest(w, k);
  }

  lemma PutIs(w: World, k: Key, a: Appending)
    requires Apply(w, Write(DeleteOp(k, 0))) == Commit(w, a) && Decide(w.db, DeleteOp(k, 0)).Some?
    ensures Commit(w, a) == Commit(w, Decide(w.db, DeleteOp(k, 0)).value)
  {
  }

  // ---------------------------------------------------------------- an Update, with someone else's delete in between

  /** A superseded record and the tombstone above it go in one batch of two. */
  lemma TwoRemoved(db: Db, cursor: Rev, end: Rev, k: Key, n: Rev)
    requires Mirrored(db) && cursor < n < n + 1 <= end && n in db.log && n + 1 in db.log
    requires db.log[n].key == k && db.log[n + 1].key == k && db.log[n + 1].meta.isDelete
    requires forall r: Rev :: r in db.log && r != n && r != n + 1 ==> r <= cursor
    ensures CompactScan(db, cursor, end, 2)
         == Scanned(db.(log := db.log - {n} - {n + 1}, index := db.index - {Pos(k, n)} - {Pos(k, n + 1)}), n + 1)
  {
    assert Pending(db, cursor, end) == {n, n + 1};
    LastIsTop(db, k, n + 1);
    assert Removes(db, n);
    var db1 := CompactOne(db, n);
    assert Pending(db1, n, end) == {n + 1};
    assert Removes(db1, n + 1);
    var db2 := CompactOne(db1, n + 1);
    assert CompactScan(db, cursor, end, 2) == CompactScan(db1, n, end, 1) == CompactScan(db2, n + 1, end, 0);
  }

  /** After the update and a delete, one batch removes both and leaves the record the update was guarded by. */
  lemma BothRemoved(w: World, i: nat, k: Key, r0: Rev, n: Rev)
    requires Sound(w) && i < |w.runs| && w.runs[i].cursor < n < n + 1 <= w.runs[i].end
    requires n in w.db.log && n + 1 in w.db.log
    requires w.db.log[n].key == k && w.db.log[n + 1].key == k && w.db.log[n + 1].meta.isDelete
    requires r0 in w.db.log && w.db.log[r0].key == k && r0 < n
    requires forall r: Rev :: r in w.db.log && r != n && r != n + 1 ==> r <= w.runs[i].cursor
    requires forall r: Rev :: r in w.db.log && w.db.log[r].key == k && r != n && r != n + 1 ==> r <= r0
    ensures Back(w, Apply(w, Batch(i, 2, true)), k, r0)
  {
    hide UniqueUuids, Faithful, Formed, CompactScan;
    TwoRemoved(w.db, w.runs[i].cursor, w.runs[i].end, k, n);
    var w' := Apply(w, Batch(i, 2, true));
    assert Pos(k, r0) in w.db.index && Pos(k, r0) in w'.db.index;
    forall m: nat | Pos(k, m) in w'.db.index ensures m <= r0 { assert Pos(k, m) in w.db.index; }
    GetLastIs(w'.db, k, r0);
  }

  lemma LastIsTop(db: Db, k: Key, top: Rev)
    requires Mirrored(db) && top in db.log && db.log[top].key == k && forall r: Rev :: r in db.log ==> r <= top
    ensures GetLast(db, k).Some? && GetLast(db, k).value.rev == top
  {
    GetLastIs(db, k, top);
  }

  /** An update whose key's newest record is the live one it names. */
  lemma UpdatePuts(w: World, k: Key, value: Bytes, r0: Rev, lease: int, lastUuid: nat)
    requires GetLast(w.db, k).Some? && GetLast(w.db, k).value.rev == r0 && !GetLast(w.db, k).value.entry.meta.isDelete
    ensures var op := UpdateOp(k, value, r0, lease);
      && Decide(w.db, op).Some? && TryOnce(w.db, op, lastUuid) == Put(Decide(w.db, op).value)
      && Decide(w.db, op).value.entry.key == k && Live(Decide(w.db, op).value.entry)
  {
  }

  lemma WriteStoreOk(w: World, op: Op)
    requires StoreOk(w) && Decide(w.db, op).Some?
    ensures StoreOk(Commit(w, Decide(w.db, op).value))
  {
    hide Chained, UniqueUuids, CurrentOk, Commit, Decide;
    DecideFits(w, op);
    CommitStoreOk(w, Decide(w.db, op).value);
  }

  /** Behind the cursor of run `i`, an update of `k` and another client's delete of it; a batch of two undoes both. */
  lemma UpdateAndDelete(w: World, i: nat, k: Key, r0: Rev, op: Op)
    requires StoreOk(w) && i < |w.runs| && w.runs[i].cursor <= w.db.latest && w.runs[i].end > w.db.latest + 1
    requires forall r: Rev :: r in w.db.log ==> r <= w.runs[i].cursor
    requires Newest(w.hist, r0) && w.hist[r0].key == k && Live(w.hist[r0])
    requires Decide(w.db, op).Some? && Decide(w.db, op).value.entry.key == k && Live(Decide(w.db, op).value.entry)
    ensures var w2 := Commit(w, Decide(w.db, op).value);
      var w4 := Play(w2, [Write(DeleteOp(k, 0)), Batch(i, 2, true)]);
      && TameRun(w2, [Write(DeleteOp(k, 0)), Batch(i, 2, true)]) && w4.db.latest == w.db.latest + 2
      && GetLast(w4.db, k).Some? && GetLast(w4.db, k).value.rev == r0 && !GetLast(w4.db, k).value.entry.meta.isDelete
  {
    hide StoreOk, Sound, Commit, Apply, Decide, Play, TameRun, Back, Newest;
    var a, del, n := Decide(w.db, op).value, Write(DeleteOp(k, 0)), w.db.latest + 1;
    var w2 := Commit(w, a);
    LastOfLive(w, k, r0);
    NewestInLog(w, k, r0);
    FaithfulOf(w);
    WriteStoreOk(w, op);
    Compaction.Committed(w, a);
    var d := DeleteLive(w2, k, n);
    FaithfulOf(w2);
    Compaction.Committed(w2, d);
    var w3 := Apply(w2, del);
    StoreIsSound(w3);
    assert forall r: Rev :: r in w3.db.log && r != n && r != n + 1 ==> r in w.db.log && w3.db.log[r] == w.db.log[r];
    BothRemoved(w3, i, k, r0, n);
    PlayTwo(w2, del, Batch(i, 2, true));
    BackIs(w3, Apply(w3, Batch(i, 2, true)), k, r0);
  }

  /** The same for an Update, with another client's delete in between. */
  lemma UpdateTwiceFrom(w: World, i: nat, k: Key, r0: Rev, value: Bytes, lease: int, lastUuid: nat)
    requires StoreOk(w) && i < |w.runs| && w.runs[i].cursor == 0 && w.runs[i].end > w.db.latest + 1
    requires Newest(w.hist, r0) && w.hist[r0].key == k && Live(w.hist[r0])
    ensures var plan := [Attempt([Batch(i, |w.db.log|, true)], DoubtApplied),
                         Attempt([Write(DeleteOp(k, 0)), Batch(i, 2, true)], Committed)];
      var o := Attempts(w, UpdateOp(k, value, r0, lease), lastUuid, plan);
      && o.mine == [w.db.latest + 1, w.db.latest + 3] && o.reply.Done? && o.reply.ok
      && TameAttempts(w, UpdateOp(k, value, r0, lease), lastUuid, plan)
  {
    hide StoreOk, Sound, Commit, Apply, Decide, TryOnce, Play, TameRun, Newest;
    var op := UpdateOp(k, value, r0, lease);
    var b1, acts := Batch(i, |w.db.log|, true), [Write(DeleteOp(k, 0)), Batch(i, 2, true)];
    var w1, n := Apply(w, b1), w.db.latest + 1;
    FirstBatch(w, i, r0);
    PlayOne(w, b1);
    LastOfLive(w1, k, r0);
    UpdatePuts(w1, k, value, r0, lease, lastUuid);
    UpdateAndDelete(w1, i, k, r0, op);
    var w2 := Commit(w1, Decide(w1.db, op).value);
    UpdatePuts(Play(w2, acts), k, value, r0, lease, w1.nextUuid);
    var plan := [Attempt([b1], DoubtApplied), Attempt(acts, Committed)];
    assert plan[1..] == [plan[1]] && plan[1..][1..] == [];
    assert Attempted(w1, op, lastUuid, DoubtApplied) == Again(w2, w1.nextUuid, [n]);
    assert Attempts(w2, op, w1.nextUuid, plan[1..]).mine == [n + 2];
    assert TameAttempts(w2, op, w1.nextUuid, plan[1..]);
  }

  lemma BackIs(w: World, w': World, k: Key, r0: Rev)
    requires Back(w, w', k, r0)
    ensures GetLast(w'.db, k).Some? && GetLast(w'.db, k).value.rev == r0 && w'.db.latest == w.db.latest
    ensures r0 in w.db.log && GetLast(w'.db, k).value.entry.meta == w.db.log[r0].meta
  {
  }

  lemma NewestInLog(w: World, k: Key, r0: Rev)
    requires StoreOk(w) && Newest(w.hist, r0) && w.hist[r0].key == k
    ensures forall r: Rev :: r in w.db.log && w.db.log[r].key == k ==> r <= r0
  {
  }

  // ---------------------------------------------------------------- the exact condition

  /**
   * Compact(end) leaves every guarded call at most once, whatever writers and other, safely begun compactions
   * interfere, if and only if `end` is safe. Otherwise there is a guarded delete that appends twice and answers that it
   * did.
   */
  lemma GuardedOnceIff(w: World, end: Rev)
    requires Inv(w)
    ensures SafeEnd(w, end) <==>
      forall op, plan :: Guarded(op) && TameCall(Apply(w, Compact(end)), op, plan)
                         ==> |Call(Apply(w, Compact(end)), op, plan).mine| <= 1
  {
    hide StoreOk, RunOk, NothingLive, TameCall, Call;
    var w' := Apply(w, Compact(end));
    if SafeEnd(w, end) {
      CompactKeepsInv(w, end);
      forall op, plan | Guarded(op) && TameCall(w', op, plan) ensures |Call(w', op, plan).mine| <= 1 {
        AtMostOnce(w', op, plan);
      }
    } else {
      var op, plan := TwiceIfUnsafe(w, end);
    }
  }

  lemma TwiceIfUnsafe(w: World, end: Rev) returns (op: Op, plan: seq<Attempt>)
    requires Inv(w) && !SafeEnd(w, end)
    ensures var w' := Apply(w, Compact(end));
      && Guarded(op) && TameCall(w', op, plan) && |Call(w', op, plan).mine| == 2
      && Call(w', op, plan).reply.Done? && Call(w', op, plan).reply.ok
  {
    hide StoreOk, RunOk, Attempts, TameAttempts;
    var w', i := Apply(w, Compact(end)), |w.runs|;
    OnlyRuns(w, w');
    BurnStoreOk(w');
    var w0 := Burned(w');
    if r0: Rev :| Newest(w.hist, r0) && Live(w.hist[r0]) {
      RevPositive(w, r0);
      op := DeleteOp(w.hist[r0].key, r0);
      DeleteTwiceFrom(w0, i, w.hist[r0].key, r0, r0, w'.nextUuid);
      plan := [Attempt([Batch(i, |w0.db.log|, true)], DoubtApplied), Attempt([Batch(i, 1, true)], Writes.Committed)];
    } else {
      op, plan := TwiceFromNothing(w0, i, w'.nextUuid);
    }
  }

  /** With nothing live yet, another client creates the key first. */
  lemma TwiceFromNothing(w: World, i: nat, lastUuid: nat) returns (op: Op, plan: seq<Attempt>)
    requires StoreOk(w) && NothingLive(w) && i < |w.runs| && w.runs[i].cursor == 0 && w.runs[i].end > w.db.latest + 1
    ensures var o := Attempts(w, op, lastUuid, plan);
      && op.DeleteOp? && op.revision != 0 && TameAttempts(w, op, lastUuid, plan)
      && |o.mine| == 2 && o.reply.Done? && o.reply.ok
  {
    hide StoreOk, NothingLive, Attempts, TameAttempts, Decide, Commit, Newest;
    var a := CreateDead(w, []);
    FaithfulOf(w);
    Compaction.Committed(w, a);
    var create := Write(CreateOp([], [], 0));
    var wc, r0 := Apply(w, create), w.db.latest + 1;
    op := DeleteOp(wc.hist[r0].key, r0);
    DeleteTwiceFrom(wc, i, wc.hist[r0].key, r0, r0, lastUuid);
    var b1, rest := Batch(i, |wc.db.log|, true), [Attempt([Batch(i, 1, true)], Writes.Committed)];
    plan := [Attempt([create] + [b1], DoubtApplied)] + rest;
    Prepend(w, op, lastUuid, create, [b1], DoubtApplied, rest);
    assert [Attempt([b1], DoubtApplied)] + rest
        == [Attempt([b1], DoubtApplied), Attempt([Batch(i, 1, true)], Writes.Committed)];
  }

  lemma RevPositive(w: World, r: Rev)
    requires Inv(w) && r in w.hist
    ensures r != 0
  {
  }

  /**
   * With no condition on compaction at all, no write is at most once: whenever its guard holds there is a run in which
   * it appends twice, unless it is refused for its size.
   */
  lemma NoWriteIsOnce(w: World, op: Op)
    requires Inv(w) && Decide(w.db, op).Some?
    ensures (forall plan :: |Call(w, op, plan).mine| <= 1) <==> Refused(op)
  {
    hide Inv, Attempts, Decide, TameAttempts;
    if !Refused(op) {
      var plan := TwicePlan(w, op);
      assert |Call(w, op, plan).mine| == 2;
    }
  }

  lemma TwicePlan(w: World, op: Op) returns (plan: seq<Attempt>)
    requires Inv(w) && Decide(w.db, op).Some? && !Refused(op)
    ensures |Call(w, op, plan).mine| == 2
  {
    hide StoreOk, RunOk, Attempts, TameAttempts;
    if Guarded(op) {
      var begin, i, k, r0 := Compact(w.db.latest + 2), |w.runs|, op.key, op.revision;
      GuardedLive(w, op);
      var w' := Apply(w, begin);
      OnlyRuns(w, w');
      BurnStoreOk(w');
      var w0 := Burned(w');
      assert w0 == Apply(Burned(w), begin);
      var b1 := Batch(i, |w0.db.log|, true);
      var second;
      if op.DeleteOp? {
        DeleteTwiceFrom(w0, i, k, r0, r0, w.nextUuid);
        second := Attempt([Batch(i, 1, true)], Writes.Committed);
      } else {
        UpdateTwiceFrom(w0, i, k, r0, op.value, op.lease, w.nextUuid);
        second := Attempt([Write(DeleteOp(k, 0)), Batch(i, 2, true)], Writes.Committed);
      }
      Prepend(Burned(w), op, w.nextUuid, begin, [b1], DoubtApplied, [second]);
      assert [Attempt([b1], DoubtApplied)] + [second] == [Attempt([b1], DoubtApplied), second];
      plan := [Attempt([begin] + [b1], DoubtApplied)] + [second];
    } else {
      var undo := if op.CreateOp? then DeleteOp(op.key, 0) else CreateOp(op.key, [], 0);
      AppendsTwice(w, op, undo);
      plan := [Attempt([], DoubtApplied), Attempt([Write(undo)], Writes.Committed)];
    }
  }

  /** A guard that holds names the live newest record of its key. */
  lemma GuardedLive(w: World, op: Op)
    requires Inv(w) && Guarded(op) && Decide(w.db, op).Some?
    ensures Newest(w.hist, op.revision) && w.hist[op.revision].key == op.key && Live(w.hist[op.revision])
  {
    hide Chained, UniqueUuids, CurrentOk, RunOk;
    LastIsNewest(w, op.key);
  }
}
