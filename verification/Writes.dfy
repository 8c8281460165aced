/**
 * Create, Update and Delete as clients call them: a transaction attempted again and again, each commit of
 * which may succeed, conflict, or end in doubt, while other actors write and compact in between.
 */
module Writes {
  import opened Types
  import opened Chunks
  import opened Store
  import opened World

  const MAX_RECORD_SIZE := 2 * 1024 * 1024

  datatype KeyValue = KeyValue(key: Key, createRevision: Rev, modRevision: Rev, lease: int, value: Bytes)

  function KvOf(rev: Rev, e: Entry): KeyValue {
    KeyValue(e.key, CreateRevision(rev, e.meta), rev, e.meta.lease, e.value)
  }

  /** The key-value tells the record at its revision, apart from the value. */
  ghost predicate Outlines(h: map<Rev, Entry>, kv: KeyValue) {
    var n := kv.modRevision;
    && n in h && kv.key == h[n].key && kv.lease == h[n].meta.lease
    && kv.createRevision == if h[n].meta.isCreate then n else h[n].meta.createRev
  }

  /** It tells all of it. */
  ghost predicate Depicts(h: map<Rev, Entry>, kv: KeyValue) {
    Outlines(h, kv) && kv.value == h[kv.modRevision].value
  }

  /** Its create revision is that of the create the record descends from: the key has lived since. */
  ghost predicate Born(h: map<Rev, Entry>, kv: KeyValue) {
    var c := kv.createRevision;
    && c in h && c <= kv.modRevision && h[c].key == kv.key && h[c].meta.isCreate
    && forall q: Rev :: q in h && h[q].key == kv.key && c < q < kv.modRevision ==> Live(h[q]) && !h[q].meta.isCreate
  }

  lemma KvDepicts(h: map<Rev, Entry>, n: Rev)
    requires n in h
    ensures KvOf(n, h[n]).modRevision == n && Depicts(h, KvOf(n, h[n]))
  {
  }

  /** In a chained history the create revision a record carries is the right one. */
  lemma OutlinedIsBorn(h: map<Rev, Entry>, kv: KeyValue)
    requires Chained(h) && Outlines(h, kv)
    ensures Born(h, kv)
  {
    hide Chained;
    if !h[kv.modRevision].meta.isCreate { IncarnationIsConstant(h, kv.modRevision); }
  }

  datatype Error = KeyExists | RequestTooLarge | RetriesExhausted | RecordMissing

  datatype Reply = Done(rev: Rev, kv: Option<KeyValue>, ok: bool) | Failed(error: Error)

  /** How an attempt's commit ended. In doubt, the write has or has not happened by the time of the retry. */
  datatype Fate = Committed | Conflict | DoubtLost | DoubtApplied

  /** One attempt: what other actors committed since the previous one, and the fate of this one. */
  datatype Attempt = Attempt(others: seq<Action>, fate: Fate)

  predicate Applied(fate: Fate) {
    fate.Committed? || fate.DoubtApplied?
  }

  // ---------------------------------------------------------------- one attempt

  /** What the transaction function returns: an error that ends the call, an answer, or a record to append. */
  datatype Try = Abort(error: Error) | Answer(reply: Reply) | Put(a: Appending)

  function TryCreate(db: Db, op: Op, lastUuid: nat): Try
    requires op.CreateOp?
  {
    var last := GetLast(db, op.key);
    if last.Some? && last.value.entry.meta.isCreate && last.value.entry.uuid == lastUuid then
      Answer(Done(last.value.rev, None, true))
    else if last.Some? && !last.value.entry.meta.isDelete then
      Abort(KeyExists)
    else
      Put(Decide(db, op).value)
  }

  function TryUpdate(db: Db, op: Op, lastUuid: nat): Try
    requires op.UpdateOp?
  {
    var last := GetLast(db, op.key);
    if last.None? || last.value.entry.meta.isDelete then
      Answer(Done(db.latest, None, false))
    else if last.value.rev != op.revision then
      if last.value.rev !in db.log then Abort(RecordMissing)
      else if last.value.entry.uuid == lastUuid then
        Answer(Done(last.value.rev, Some(KvOf(last.value.rev, db.log[last.value.rev])), true))
      else
        Answer(Done(db.latest, Some(KvOf(last.value.rev, db.log[last.value.rev])), false))
    else
      Put(Decide(db, op).value)
  }

  function TryDelete(db: Db, op: Op, lastUuid: nat): Try
    requires op.DeleteOp?
  {
    var last := GetLast(db, op.key);
    if last.None? then
      Answer(Done(db.latest, None, false))
    else if last.value.rev !in db.log then
      Abort(RecordMissing)
    else if last.value.entry.meta.isDelete then
      if last.value.entry.uuid == lastUuid then
        Answer(Done(last.value.rev, Some(KvOf(last.value.rev, db.log[last.value.rev])), true))
      else
        Answer(Done(db.latest, None, false))
    else if op.revision != 0 && last.value.rev != op.revision then
      Answer(Done(db.latest, Some(KvOf(last.value.rev, db.log[last.value.rev])), false))
    else
      Put(Decide(db, op).value)
  }

  function TryOnce(db: Db, op: Op, lastUuid: nat): Try {
    match op
    case CreateOp(_, _, _) => TryCreate(db, op, lastUuid)
    case UpdateOp(_, _, _, _) => TryUpdate(db, op, lastUuid)
    case DeleteOp(_, _) => TryDelete(db, op, lastUuid)
  }

  /** An attempt appends exactly when the guard of the write holds, whatever UUID it carries. */
  lemma PutIffGuard(db: Db, op: Op, lastUuid: nat)
    ensures TryOnce(db, op, lastUuid).Put? ==> Decide(db, op) == Some(TryOnce(db, op, lastUuid).a)
    ensures !TryOnce(db, op, lastUuid).Put? ==>
      Decide(db, op) == None || (op.CreateOp? && TryOnce(db, op, lastUuid).Answer?)
  {
  }

  /** The reply of an attempt that appended `e` at `rev`. */
  function PutReply(rev: Rev, e: Entry): Reply {
    Done(rev, if e.meta.isCreate then None else Some(KvOf(rev, e)), true)
  }

  // ---------------------------------------------------------------- the whole call

  datatype Step = Stop(w: World, reply: Reply, mine: seq<Rev>) | Again(w: World, lastUuid: nat, mine: seq<Rev>)

  /** One attempt against `w`, with the interference already played. */
  function Attempted(w: World, op: Op, lastUuid: nat, fate: Fate): Step {
    match TryOnce(w.db, op, lastUuid)
    case Abort(error) => Stop(w, Failed(error), [])
    case Answer(reply) => if fate.Committed? then Stop(w, reply, []) else Again(w, lastUuid, [])
    case Put(a) =>
      var w' := if Applied(fate) then Commit(w, a) else w.(nextUuid := w.nextUuid + 1);
      var mine := if Applied(fate) then [w.db.latest + 1] else [];
      if fate.Committed? then Stop(w', PutReply(w.db.latest + 1, a.entry), mine) else Again(w', w.nextUuid, mine)
  }

  /** `mine` lists the revisions this call appended. */
  datatype Outcome = Outcome(w: World, reply: Reply, mine: seq<Rev>)

  function Attempts(w: World, op: Op, lastUuid: nat, plan: seq<Attempt>): Outcome
    decreases |plan|
  {
    if plan == [] then Outcome(w, Failed(RetriesExhausted), []) else
      match Attempted(Play(w, plan[0].others), op, lastUuid, plan[0].fate)
      case Stop(w', reply, mine) => Outcome(w', reply, mine)
      case Again(w', lastUuid', mine) =>
        var rest := Attempts(w', op, lastUuid', plan[1..]);
        rest.(mine := mine + rest.mine)
  }

  /** One attempt, then the rest. */
  lemma AttemptsStep(w: World, op: Op, lastUuid: nat, plan: seq<Attempt>)
    ensures plan == [] ==> Attempts(w, op, lastUuid, plan) == Outcome(w, Failed(RetriesExhausted), [])
    ensures plan != [] ==>
      match Attempted(Play(w, plan[0].others), op, lastUuid, plan[0].fate)
      case Stop(w', reply, mine) => Attempts(w, op, lastUuid, plan) == Outcome(w', reply, mine)
      case Again(w', lastUuid', mine) =>
        var rest := Attempts(w', op, lastUuid', plan[1..]);
        Attempts(w, op, lastUuid, plan) == Outcome(rest.w, rest.reply, mine + rest.mine)
  {
  }

  function Call(w: World, op: Op, plan: seq<Attempt>): Outcome {
    if Refused(op) then Outcome(w, Failed(RequestTooLarge), [])
    else Attempts(Burned(w), op, w.nextUuid, plan)
  }

  // ---------------------------------------------------------------- every call, whatever interferes

  ghost predicate Guarded(op: Op) {
    op.UpdateOp? || (op.DeleteOp? && op.revision != 0)
  }

  /** A record this call wrote: the key is its own and the revision it replaced is the one it was guarded by. */
  ghost predicate Wrote(h: map<Rev, Entry>, op: Op, r: Rev) {
    && r in h && h[r].key == op.key && h[r].meta.isDelete == op.DeleteOp? && h[r].meta.isCreate == op.CreateOp?
    && (op.UpdateOp? ==> h[r].value == op.value && h[r].meta.lease == op.lease)
    && (op.CreateOp? ==> h[r].value == op.value && h[r].meta.lease == op.lease)
    && (Guarded(op) ==> h[r].meta.prevRev == op.revision < r)
  }

  function Burned(w: World): World {
    w.(nextUuid := w.nextUuid + 1)
  }

  lemma BurnSound(w: World)
    requires Sound(w)
    ensures Sound(Burned(w)) && Grows(w, Burned(w))
    ensures forall r: Rev :: r in w.uuids ==> w.uuids[r] != w.nextUuid
  {
    SoundFrame(w, Burned(w));
  }

  lemma BurnKeepsInv(w: World)
    requires Inv(w)
    ensures Inv(Burned(w)) && Grows(w, Burned(w))
    ensures forall r: Rev :: r in w.uuids ==> w.uuids[r] != w.nextUuid
  {
    var w' := Burned(w);
    forall i | 0 <= i < |w'.runs| ensures RunOk(w', w'.runs[i]) { assert RunOk(w, w.runs[i]); }
  }

  /** The newest index entry of a key, in any sound store. */
  lemma LastIsKnown(w: World, key: Key)
    requires Sound(w)
    ensures var last := GetLast(w.db, key);
      last.Some? ==>
        && last.value.rev in w.db.log && last.value.rev in w.hist && w.db.log[last.value.rev] == w.hist[last.value.rev]
        && w.hist[last.value.rev].key == key && last.value.entry.meta == w.hist[last.value.rev].meta
        && last.value.rev <= w.db.latest && last.value.rev in w.uuids
        && last.value.entry.uuid == w.uuids[last.value.rev]
        && !(last.value.entry.meta.isCreate && last.value.entry.meta.isDelete)
  {
  }

  /** The UUID of the last attempt belongs to no record, or to one this call has written. */
  ghost predicate Ours(w: World, op: Op, lastUuid: nat, own: seq<Rev>) {
    && lastUuid < w.nextUuid
    && (forall r :: r in own ==> Wrote(w.hist, op, r))
    && (forall r: Rev :: r in w.uuids && w.uuids[r] == lastUuid ==> r in own)
  }

  lemma OursGrows(w: World, w': World, op: Op, lastUuid: nat, own: seq<Rev>)
    requires Ours(w, op, lastUuid, own) && Grows(w, w')
    ensures Ours(w', op, lastUuid, own)
  {
  }

  lemma PutFacts(w: World, op: Op, a: Appending)
    requires Sound(w) && Decide(w.db, op) == Some(a)
    ensures var w' := Commit(w, a);
      var n := w.db.latest + 1;
      && Sound(w') && Grows(w, w') && n in w'.hist && w'.hist[n] == a.entry && Wrote(w'.hist, op, n)
      && (forall r: Rev :: r in w'.uuids && w'.uuids[r] == w.nextUuid ==> r == n)
      && w'.nextUuid == w.nextUuid + 1
  {
    hide CurrentAfter, Mirrored, Faithful, Formed, UniqueUuids, Grows, Wrote, Decide;
    CommitGrows(w, a);
    CommitSound(w, op);
    PutWrote(w, op, a);
    PutUuid(w, a);
  }

  lemma PutWrote(w: World, op: Op, a: Appending)
    requires Sound(w) && Decide(w.db, op) == Some(a)
    ensures Wrote(Commit(w, a).hist, op, w.db.latest + 1)
  {
    hide Append, Mirrored, Formed, UniqueUuids;
    LastIsKnown(w, op.key);
  }

  lemma PutUuid(w: World, a: Appending)
    requires Sound(w)
    ensures forall r: Rev :: r in Commit(w, a).uuids && Commit(w, a).uuids[r] == w.nextUuid ==> r == w.db.latest + 1
  {
    hide Append, Mirrored, Faithful, Formed;
  }

  /** The reply tells of the record at its revision, as it was written; for a create the revision is all it tells. */
  ghost predicate Acknowledges(h: map<Rev, Entry>, reply: Reply) {
    && reply.Done? && reply.ok && reply.rev in h
    && (h[reply.rev].meta.isCreate ==> reply.kv == None)
    && (!h[reply.rev].meta.isCreate ==>
          reply.kv.Some? && reply.kv.value.modRevision == reply.rev && Depicts(h, reply.kv.value))
  }

  lemma PutAcknowledges(h: map<Rev, Entry>, n: Rev)
    requires n in h
    ensures PutReply(n, h[n]).Done? && PutReply(n, h[n]).rev == n && Acknowledges(h, PutReply(n, h[n]))
  {
    KvDepicts(h, n);
  }

  /** What a reply that reports success must say: one of the call's own records, as it was written. */
  ghost predicate Reports(h: map<Rev, Entry>, own: seq<Rev>, reply: Reply) {
    reply.Done? && reply.ok ==> reply.rev in own && Acknowledges(h, reply)
  }

  /** What one attempt does, in any sound store. */
  lemma AttemptOwn(w: World, op: Op, lastUuid: nat, fate: Fate, own: seq<Rev>)
    requires Sound(w) && Ours(w, op, lastUuid, own)
    ensures var s := Attempted(w, op, lastUuid, fate);
      && Sound(s.w) && Grows(w, s.w) && |s.mine| <= 1
      && (forall r :: r in s.mine ==> r > w.db.latest && Wrote(s.w.hist, op, r))
      && (s.Again? ==> Ours(s.w, op, s.lastUuid, own + s.mine))
      && (s.Stop? ==> Reports(s.w.hist, own + s.mine, s.reply) && s.reply != Failed(RecordMissing))
  {
    hide Sound, Commit, Grows, Decide, Depicts, KvOf;
    LastIsKnown(w, op.key);
    if GetLast(w.db, op.key).Some? { PutAcknowledges(w.hist, GetLast(w.db, op.key).value.rev); }
    PutIffGuard(w.db, op, lastUuid);
    BurnSound(w);
    match TryOnce(w.db, op, lastUuid)
    case Abort(_) => GrowsReflexive(w);
    case Answer(reply) =>
      GrowsReflexive(w);
      assert own + [] == own;
    case Put(a) =>
      PutFacts(w, op, a);
      var w' := Commit(w, a);
      PutAcknowledges(w'.hist, w.db.latest + 1);
      OursGrows(w, w', op, lastUuid, own);
      OursGrows(w, Burned(w), op, lastUuid, own);
      assert own + [] == own;
  }

  lemma {:induction false} OwnFrom(w: World, op: Op, lastUuid: nat, plan: seq<Attempt>, own: seq<Rev>)
    requires Sound(w) && Ours(w, op, lastUuid, own)
    ensures var o := Attempts(w, op, lastUuid, plan);
      && Sound(o.w) && Grows(w, o.w)
      && (forall r :: r in o.mine ==> r > w.db.latest && Wrote(o.w.hist, op, r))
      && Reports(o.w.hist, own + o.mine, o.reply) && o.reply != Failed(RecordMissing)
    decreases |plan|
  {
    hide Sound, Attempted, Ours, Wrote, Play;
    if plan == [] {
      GrowsReflexive(w);
    } else {
      var w1 := Play(w, plan[0].others);
      RunsKeepSound(w, plan[0].others);
      OursGrows(w, w1, op, lastUuid, own);
      AttemptOwn(w1, op, lastUuid, plan[0].fate, own);
      var s := Attempted(w1, op, lastUuid, plan[0].fate);
      GrowsTransitive(w, w1, s.w);
      if s.Again? {
        OwnFrom(s.w, op, s.lastUuid, plan[1..], own + s.mine);
        var rest := Attempts(s.w, op, s.lastUuid, plan[1..]);
        GrowsTransitive(w, s.w, rest.w);
        assert own + (s.mine + rest.mine) == own + s.mine + rest.mine;
        forall r | r in s.mine ensures Wrote(rest.w.hist, op, r) { WroteGrows(s.w, rest.w, op, r); }
      }
    }
  }

  lemma WroteGrows(w: World, w': World, op: Op, r: Rev)
    requires Grows(w, w') && Wrote(w.hist, op, r)
    ensures Wrote(w'.hist, op, r)
  {
  }

  /**
   * Every call, over every plan, with no condition on what interferes: each record it appends is new, is the record
   * asked for, and names the guarded revision as its predecessor; a true result reports one of the call's own records
   * as written.
   */
  lemma CallIsOwn(w: World, op: Op, plan: seq<Attempt>)
    requires Sound(w)
    ensures var o := Call(w, op, plan);
      && Sound(o.w) && Grows(w, o.w)
      && (forall r :: r in o.mine ==> r > w.db.latest && Wrote(o.w.hist, op, r))
      && Reports(o.w.hist, o.mine, o.reply) && o.reply != Failed(RecordMissing)
  {
    hide Sound, Attempts, Wrote, Grows;
    if op.DeleteOp? || |op.value| <= MAX_RECORD_SIZE {
      BurnSound(w);
      OwnFrom(Burned(w), op, w.nextUuid, plan, []);
      GrowsTransitive(w, Burned(w), Attempts(Burned(w), op, w.nextUuid, plan).w);
      assert [] + Attempts(Burned(w), op, w.nextUuid, plan).mine == Attempts(Burned(w), op, w.nextUuid, plan).mine;
    } else {
      GrowsReflexive(w);
    }
  }

  /** With nobody else at work, what a call adds to the history is what it lists as its own. */
  lemma {:induction false} AppendsOnlyMine(w: World, op: Op, lastUuid: nat, plan: seq<Attempt>, r: Rev)
    requires (forall i :: 0 <= i < |plan| ==> plan[i].others == []) && r in Attempts(w, op, lastUuid, plan).w.hist
    ensures r in w.hist || r in Attempts(w, op, lastUuid, plan).mine
    decreases |plan|
  {
    hide TryOnce, Append;
    if plan != [] {
      var s := Attempted(w, op, lastUuid, plan[0].fate);
      if s.Again? && r !in s.mine { AppendsOnlyMine(s.w, op, s.lastUuid, plan[1..], r); }
    }
  }

  // ---------------------------------------------------------------- at most once

  /** Every compaction that others begin during the call begins at a safe end. */
  ghost predicate TameAttempts(w: World, op: Op, lastUuid: nat, plan: seq<Attempt>)
    decreases |plan|
  {
    plan != [] ==>
      && TameRun(w, plan[0].others)
      && match Attempted(Play(w, plan[0].others), op, lastUuid, plan[0].fate)
         case Stop(_, _, _) => true
         case Again(w2, lastUuid2, _) => TameAttempts(w2, op, lastUuid2, plan[1..])
  }

  ghost predicate TameCall(w: World, op: Op, plan: seq<Attempt>) {
    Refused(op) || TameAttempts(Burned(w), op, w.nextUuid, plan)
  }

  predicate Refused(op: Op) {
    !op.DeleteOp? && |op.value| > MAX_RECORD_SIZE
  }

  /** Once a guarded write is in the history, its guard is closed for good. */
  lemma WroteClosesGuard(w: World, op: Op, lastUuid: nat, r: Rev)
    requires Inv(w) && Guarded(op) && Wrote(w.hist, op, r)
    ensures !TryOnce(w.db, op, lastUuid).Put?
  {
    hide Chained, UniqueUuids, CurrentOk, RunOk, Mirrored, Faithful, Retained;
    LastIsNewest(w, op.key);
    PutIffGuard(w.db, op, lastUuid);
    var last := GetLast(w.db, op.key);
    assert last.Some? ==> r <= last.value.rev;
  }

  lemma {:induction false} OnceFrom(w: World, op: Op, lastUuid: nat, plan: seq<Attempt>, own: seq<Rev>)
    requires Inv(w) && Guarded(op) && Ours(w, op, lastUuid, own) && TameAttempts(w, op, lastUuid, plan)
    ensures var o := Attempts(w, op, lastUuid, plan);
      Inv(o.w) && |o.mine| <= 1 && (own != [] ==> o.mine == [])
    decreases |plan|
  {
    hide StoreOk, RunOk, TryOnce, Ours, Wrote, Play, TameRun, Sound, Commit, Decide;
    if plan != [] {
      var w1 := Play(w, plan[0].others);
      TameRunGrows(w, plan[0].others);
      OursGrows(w, w1, op, lastUuid, own);
      StoreIsSound(w1);
      AttemptOwn(w1, op, lastUuid, plan[0].fate, own);
      AttemptKeepsInv(w1, op, lastUuid, plan[0].fate);
      if own != [] {
        OursWrote(w1, op, lastUuid, own);
        WroteClosesGuard(w1, op, lastUuid, own[0]);
      }
      var s := Attempted(w1, op, lastUuid, plan[0].fate);
      if s.Again? {
        OnceFrom(s.w, op, s.lastUuid, plan[1..], own + s.mine);
        var rest := Attempts(s.w, op, s.lastUuid, plan[1..]);
        assert s.mine + rest.mine == if s.mine == [] then rest.mine else s.mine;
      }
    }
  }

  lemma OursWrote(w: World, op: Op, lastUuid: nat, own: seq<Rev>)
    requires Ours(w, op, lastUuid, own) && own != []
    ensures Wrote(w.hist, op, own[0])
  {
  }

  lemma AttemptKeepsInv(w: World, op: Op, lastUuid: nat, fate: Fate)
    requires Inv(w)
    ensures Inv(Attempted(w, op, lastUuid, fate).w)
  {
    hide Inv, TryOnce, Commit, Decide;
    PutIffGuard(w.db, op, lastUuid);
    WriteKeepsInv(w, op);
    BurnKeepsInv(w);
  }

  /**
   * At most once. However many attempts an Update or a revision-guarded Delete takes, whatever their commits did, and
   * whatever writers and safely begun compactions interfere, the call appends at most one record; a true result means
   * exactly one, and the reply describes it.
   */
  lemma AtMostOnce(w: World, op: Op, plan: seq<Attempt>)
    requires Inv(w) && Guarded(op) && TameCall(w, op, plan)
    ensures var o := Call(w, op, plan);
      && Inv(o.w) && Grows(w, o.w) && |o.mine| <= 1
      && (forall r :: r in o.mine ==> r > w.db.latest && Wrote(o.w.hist, op, r))
      && (o.reply.Done? && o.reply.ok ==> o.mine == [o.reply.rev] && Acknowledges(o.w.hist, o.reply))
      && o.reply != Failed(RecordMissing)
  {
    hide StoreOk, RunOk, Attempts, Grows, TameAttempts, Sound;
    StoreIsSound(w);
    CallIsOwn(w, op, plan);
    if !Refused(op) {
      BurnKeepsInv(w);
      assert Ours(Burned(w), op, w.nextUuid, []);
      OnceFrom(Burned(w), op, w.nextUuid, plan, []);
    }
  }

  // ---------------------------------------------------------------- retry transparency

  /** Between the attempts of the call no other step changes the newest record of its key. */
  ghost predicate Undisturbed(w: World, op: Op, lastUuid: nat, plan: seq<Attempt>)
    decreases |plan|
  {
    plan != [] ==>
      var w1 := Play(w, plan[0].others);
      && GetLast(w1.db, op.key) == GetLast(w.db, op.key)
      && match Attempted(w1, op, lastUuid, plan[0].fate)
         case Stop(_, _, _) => true
         case Again(w2, lastUuid2, _) => Undisturbed(w2, op, lastUuid2, plan[1..])
  }

  /** The guard of a write looks only at the newest record of its key. */
  lemma GuardByLast(a: Db, b: Db, op: Op)
    requires Mirrored(a) && Mirrored(b) && GetLast(a, op.key) == GetLast(b, op.key)
    ensures Decide(a, op).Some? <==> Decide(b, op).Some?
  {
  }

  /** Where a call stands: its guard still holds and nothing is written, or `m` is written and is the newest record. */
  ghost predicate Standing(w: World, op: Op, lastUuid: nat, m: Option<Rev>) {
    && (m.None? ==> Decide(w.db, op).Some?)
    && (m.Some? ==>
          && Wrote(w.hist, op, m.value)
          && GetLast(w.db, op.key) == Some(Last(m.value, IndexEntry(w.hist[m.value].meta, lastUuid))))
  }

  lemma StandingAttempt(w: World, op: Op, lastUuid: nat, fate: Fate, m: Option<Rev>)
    requires Sound(w) && Standing(w, op, lastUuid, m)
    ensures var s := Attempted(w, op, lastUuid, fate);
      && Sound(s.w) && Grows(w, s.w) && (m.Some? ==> s.mine == []) && |s.mine| <= 1
      && (s.Again? ==> Standing(s.w, op, s.lastUuid, if s.mine != [] then Some(s.mine[0]) else m))
      && (s.Stop? ==>
            && s.reply.Done?
            && (m.Some? ==> s.reply.rev == m.value) && (m.None? ==> s.mine == [s.reply.rev])
            && s.reply.rev in s.w.hist && s.reply == PutReply(s.reply.rev, s.w.hist[s.reply.rev]))
  {
    hide Sound, Commit, Grows, Decide;
    BurnSound(w);
    TryStanding(w, op, lastUuid, m);
    if m.Some? {
      GrowsReflexive(w);
    } else {
      var a := Decide(w.db, op).value;
      PutFacts(w, op, a);
      SoundTop(w, a);
    }
  }

  lemma SoundTop(w: World, a: Appending)
    requires Sound(w)
    ensures GetLast(Commit(w, a).db, a.entry.key) == Some(Last(w.db.latest + 1, IndexEntry(a.entry.meta, w.nextUuid)))
  {
    hide UniqueUuids, Formed, CurrentAfter;
    IndexTop(w, a);
  }

  lemma TryStanding(w: World, op: Op, lastUuid: nat, m: Option<Rev>)
    requires Sound(w) && Standing(w, op, lastUuid, m)
    ensures m.None? ==>
      TryOnce(w.db, op, lastUuid) == Put(Decide(w.db, op).value) && Decide(w.db, op).value.entry.key == op.key
    ensures m.Some? ==> TryOnce(w.db, op, lastUuid) == Answer(PutReply(m.value, w.hist[m.value]))
  {
    hide Sound;
    LastIsKnown(w, op.key);
  }

  lemma {:induction false} TransparentFrom(w: World, op: Op, lastUuid: nat, plan: seq<Attempt>, m: Option<Rev>)
    requires Sound(w) && Standing(w, op, lastUuid, m) && Undisturbed(w, op, lastUuid, plan)
    ensures var o := Attempts(w, op, lastUuid, plan);
      && Sound(o.w) && Grows(w, o.w) && |o.mine| <= 1 && (m.Some? ==> o.mine == [])
      && (o.reply == Failed(RetriesExhausted)
          || (o.reply.Done?
              && (m.Some? ==> o.reply.rev == m.value) && (m.None? ==> o.mine == [o.reply.rev])
              && o.reply.rev in o.w.hist && o.reply == PutReply(o.reply.rev, o.w.hist[o.reply.rev])))
    decreases |plan|
  {
    hide Mirrored, Faithful, UniqueUuids, Formed, Attempted, Standing, Grows, Play;
    if plan == [] {
      GrowsReflexive(w);
    } else {
      var w1 := Play(w, plan[0].others);
      RunsKeepSound(w, plan[0].others);
      StandingGrows(w, w1, op, lastUuid, m);
      StandingAttempt(w1, op, lastUuid, plan[0].fate, m);
      var s := Attempted(w1, op, lastUuid, plan[0].fate);
      GrowsTransitive(w, w1, s.w);
      if s.Again? {
        TransparentFrom(s.w, op, s.lastUuid, plan[1..], if s.mine != [] then Some(s.mine[0]) else m);
        var rest := Attempts(s.w, op, s.lastUuid, plan[1..]);
        GrowsTransitive(w, s.w, rest.w);
        assert (s.mine + rest.mine) == if s.mine == [] then rest.mine else s.mine;
      }
    }
  }

  lemma StandingGrows(w: World, w': World, op: Op, lastUuid: nat, m: Option<Rev>)
    requires Standing(w, op, lastUuid, m) && Grows(w, w') && GetLast(w'.db, op.key) == GetLast(w.db, op.key)
    requires Mirrored(w.db) && Mirrored(w'.db)
    ensures Standing(w', op, lastUuid, m)
  {
    hide Mirrored;
    GuardByLast(w.db, w'.db, op);
  }

  /**
   * Retry transparency. If the guard of a Create, Update or Delete holds when its first attempt begins and no other
   * step, compaction included, changes the newest record of the key between attempts, then a call that gets an answer
   * has appended exactly one record and answers with it, whichever attempt really committed it.
   */
  lemma RetryTransparent(w: World, op: Op, lastUuid: nat, plan: seq<Attempt>)
    requires Sound(w) && Decide(w.db, op).Some? && Undisturbed(w, op, lastUuid, plan)
    ensures var o := Attempts(w, op, lastUuid, plan);
      && |o.mine| <= 1
      && (o.reply != Failed(RetriesExhausted) ==>
            o.reply.Done? && o.mine == [o.reply.rev] && Acknowledges(o.w.hist, o.reply))
  {
    hide Sound, Attempts, Decide, Undisturbed;
    TransparentFrom(w, op, lastUuid, plan, None);
    var o := Attempts(w, op, lastUuid, plan);
    if o.reply != Failed(RetriesExhausted) { PutAcknowledges(o.w.hist, o.reply.rev); }
  }

  // ---------------------------------------------------------------- answers that are no success

  ghost predicate LiveKey(h: map<Rev, Entry>, key: Key) {
    exists r: Rev :: Newest(h, r) && h[r].key == key && Live(h[r])
  }

  /**
   * A write that is turned down is told the read version and, if the key is live, its newest record, which is then not
   * the one the write was guarded by. Only a Create of a live key fails with KeyExists.
   */
  ghost predicate Declines(w: World, op: Op, reply: Reply) {
    && (reply.Done? && !reply.ok ==>
          && !op.CreateOp? && reply.rev == w.db.latest && (reply.kv.Some? <==> LiveKey(w.hist, op.key))
          && (reply.kv.Some? ==>
                var kv := reply.kv.value;
                && kv.key == op.key && Depicts(w.hist, kv) && Born(w.hist, kv) && Newest(w.hist, kv.modRevision)
                && Guarded(op) && kv.modRevision != op.revision))
    && (reply == Failed(KeyExists) ==> op.CreateOp? && LiveKey(w.hist, op.key))
  }

  /** The newest entry of the index, in terms of the history. */
  lemma LastIsLive(w: World, key: Key)
    requires Inv(w)
    ensures var last := GetLast(w.db, key);
      && (LiveKey(w.hist, key) <==> last.Some? && !last.value.entry.meta.isDelete)
      && (last.Some? ==>
            && last.value.rev in w.db.log && last.value.rev in w.hist
            && w.db.log[last.value.rev] == w.hist[last.value.rev]
            && Newest(w.hist, last.value.rev) && w.hist[last.value.rev].key == key
            && w.hist[last.value.rev].meta == last.value.entry.meta
            && last.value.rev in w.uuids && w.uuids[last.value.rev] == last.value.entry.uuid)
  {
    hide RunOk, Chained, CurrentOk;
    LastIsNewest(w, key);
    var last := GetLast(w.db, key);
    if last.Some? && !last.value.entry.meta.isDelete { assert Newest(w.hist, last.value.rev); }
  }

  lemma TryDeclines(w: World, op: Op, lastUuid: nat)
    requires Inv(w)
    ensures TryOnce(w.db, op, lastUuid).Answer? ==> Declines(w, op, TryOnce(w.db, op, lastUuid).reply)
    ensures TryOnce(w.db, op, lastUuid).Abort? ==> Declines(w, op, Failed(TryOnce(w.db, op, lastUuid).error))
  {
    hide Inv, Newest, LiveKey, KvOf, Born, Decide;
    LastIsLive(w, op.key);
    var last := GetLast(w.db, op.key);
    if last.Some? {
      KvDepicts(w.hist, last.value.rev);
      InvIsChained(w);
      OutlinedIsBorn(w.hist, KvOf(last.value.rev, w.hist[last.value.rev]));
    }
  }

  lemma InvIsChained(w: World)
    requires Inv(w)
    ensures Chained(w.hist)
  {
    hide RunOk, Mirrored, Faithful, Retained, UniqueUuids, CurrentOk, Chained;
  }

  lemma {:induction false} DeclinesFrom(w: World, op: Op, lastUuid: nat, plan: seq<Attempt>)
    requires Inv(w) && TameAttempts(w, op, lastUuid, plan)
    ensures var o := Attempts(w, op, lastUuid, plan); Declines(o.w, op, o.reply)
    ensures (exists i :: 0 <= i < |plan| && plan[i].fate.Committed?) ==>
      Attempts(w, op, lastUuid, plan).reply != Failed(RetriesExhausted)
    decreases |plan|
  {
    hide Inv, TryOnce, Play, TameRun, Commit, Declines, Grows;
    if plan == [] {
      NothingDeclined(w, op, Failed(RetriesExhausted));
    } else {
      var w1 := Play(w, plan[0].others);
      TameRunGrows(w, plan[0].others);
      TryDeclines(w1, op, lastUuid);
      NeverExhausted(w1.db, op, lastUuid);
      AttemptKeepsInv(w1, op, lastUuid, plan[0].fate);
      var s := Attempted(w1, op, lastUuid, plan[0].fate);
      if s.Again? {
        DeclinesFrom(s.w, op, s.lastUuid, plan[1..]);
        assert forall i :: 0 < i < |plan| ==> plan[i] == plan[1..][i - 1];
      } else if s.mine != [] {
        NothingDeclined(s.w, op, s.reply);
      }
    }
  }

  lemma NothingDeclined(w: World, op: Op, reply: Reply)
    requires reply == Failed(RetriesExhausted) || reply == Failed(RequestTooLarge) || (reply.Done? && reply.ok)
    ensures Declines(w, op, reply)
  {
  }

  lemma NeverExhausted(db: Db, op: Op, lastUuid: nat)
    ensures TryOnce(db, op, lastUuid) != Abort(RetriesExhausted)
    ensures TryOnce(db, op, lastUuid).Answer? ==> TryOnce(db, op, lastUuid).reply != Failed(RetriesExhausted)
  {
  }

  /**
   * What a call that is turned down is told, whatever writers and safely begun compactions interfered. A call one of
   * whose attempts goes through is answered.
   */
  lemma CallDeclines(w: World, op: Op, plan: seq<Attempt>)
    requires Inv(w) && TameCall(w, op, plan)
    ensures var o := Call(w, op, plan);
      && Declines(o.w, op, o.reply)
      && (o.reply == Failed(RequestTooLarge) <==> !op.DeleteOp? && |op.value| > MAX_RECORD_SIZE)
      && ((exists i :: 0 <= i < |plan| && plan[i].fate.Committed?) ==> o.reply != Failed(RetriesExhausted))
  {
    hide Inv, Attempts, TameAttempts, Declines;
    if Refused(op) {
      NothingDeclined(w, op, Failed(RequestTooLarge));
    } else {
      BurnKeepsInv(w);
      DeclinesFrom(Burned(w), op, w.nextUuid, plan);
      NeverTooLarge(Burned(w), op, w.nextUuid, plan);
    }
  }

  lemma {:induction false} NeverTooLarge(w: World, op: Op, lastUuid: nat, plan: seq<Attempt>)
    ensures Attempts(w, op, lastUuid, plan).reply != Failed(RequestTooLarge)
    decreases |plan|
  {
    hide Play, Commit, Decide;
    if plan != [] {
      var s := Attempted(Play(w, plan[0].others), op, lastUuid, plan[0].fate);
      if s.Again? { NeverTooLarge(s.w, op, s.lastUuid, plan[1..]); }
    }
  }

  /** Of the records this call has written only the one under the last UUID can be the live newest of the key. */
  ghost predicate OwnTop(w: World, lastUuid: nat, own: seq<Rev>) {
    forall r :: r in own ==>
      r in w.hist && r in w.uuids && (Newest(w.hist, r) && Live(w.hist[r]) ==> w.uuids[r] == lastUuid)
  }

  lemma OwnTopGrows(w: World, w': World, lastUuid: nat, own: seq<Rev>)
    requires Grows(w, w') && OwnTop(w, lastUuid, own)
    ensures OwnTop(w', lastUuid, own)
  {
    forall r | r in own && Newest(w'.hist, r) ensures Newest(w.hist, r) {}
  }

  /** How a Create ended: its own record is the newest of the key, or the key was live and its newest not its own. */
  ghost predicate Settles(w: World, op: Op, own: seq<Rev>, reply: Reply) {
    && (reply.Done? ==> reply.ok && reply.rev in own && Newest(w.hist, reply.rev) && w.hist[reply.rev].key == op.key)
    && (reply == Failed(KeyExists) ==>
          exists r: Rev :: Newest(w.hist, r) && w.hist[r].key == op.key && Live(w.hist[r]) && r !in own)
  }

  lemma CreateSettles(w: World, op: Op, lastUuid: nat, fate: Fate, own: seq<Rev>)
    requires Inv(w) && op.CreateOp? && Ours(w, op, lastUuid, own) && OwnTop(w, lastUuid, own)
    ensures var s := Attempted(w, op, lastUuid, fate);
      && (s.Again? ==> OwnTop(s.w, s.lastUuid, own + s.mine))
      && (s.Stop? ==> Settles(s.w, op, own + s.mine, s.reply))
  {
    hide StoreOk, RunOk, Commit, LiveKey, Sound, Ours;
    LastIsLive(w, op.key);
    OursIs(w, op, lastUuid, own);
    PutIffGuard(w.db, op, lastUuid);
    match TryOnce(w.db, op, lastUuid)
    case Abort(_) => assert own + [] == own;
    case Answer(_) => assert own + [] == own;
    case Put(a) =>
      StoreIsSound(w);
      PutFacts(w, op, a);
      PutSettles(w, a, own);
      NoneLive(w, op, own);
      assert own + [] == own;
  }

  lemma OursIs(w: World, op: Op, lastUuid: nat, own: seq<Rev>)
    requires Ours(w, op, lastUuid, own)
    ensures forall r: Rev :: r in w.uuids && w.uuids[r] == lastUuid ==> r in own
    ensures forall r :: r in own ==> Wrote(w.hist, op, r)
  {
  }

  /** A new record of the key supersedes those before it. */
  lemma PutSettles(w: World, a: Appending, own: seq<Rev>)
    requires Inv(w) && forall r :: r in own ==> r in w.hist && w.hist[r].key == a.entry.key
    ensures var w', n := Commit(w, a), w.db.latest + 1;
      && n in w'.hist && n in w'.uuids && Newest(w'.hist, n) && w'.hist[n] == a.entry && w'.uuids[n] == w.nextUuid
      && OwnTop(w', w.nextUuid, own + [n])
  {
    hide RunOk, Mirrored, Retained, Chained, CurrentOk, Append;
    var w', n := Commit(w, a), w.db.latest + 1;
    forall r | r in own ensures r in w'.hist && r in w'.uuids && !Newest(w'.hist, r) {
      assert n in w'.hist && w'.hist[n].key == w'.hist[r].key && r < n;
    }
  }

  lemma NoneLive(w: World, op: Op, own: seq<Rev>)
    requires !LiveKey(w.hist, op.key) && forall r :: r in own ==> r in w.hist && r in w.uuids && w.hist[r].key == op.key
    ensures OwnTop(Burned(w), w.nextUuid, own)
  {
  }

  lemma {:induction false} SettlesFrom(w: World, op: Op, lastUuid: nat, plan: seq<Attempt>, own: seq<Rev>)
    requires Inv(w) && op.CreateOp? && Ours(w, op, lastUuid, own) && OwnTop(w, lastUuid, own)
    requires TameAttempts(w, op, lastUuid, plan)
    ensures var o := Attempts(w, op, lastUuid, plan); Settles(o.w, op, own + o.mine, o.reply)
    decreases |plan|
  {
    hide StoreOk, RunOk, TryOnce, Ours, OwnTop, Play, TameRun, Sound, Commit, Grows, Reports;
    if plan != [] {
      var w1 := Play(w, plan[0].others);
      TameRunGrows(w, plan[0].others);
      OursGrows(w, w1, op, lastUuid, own);
      OwnTopGrows(w, w1, lastUuid, own);
      StoreIsSound(w1);
      AttemptOwn(w1, op, lastUuid, plan[0].fate, own);
      AttemptKeepsInv(w1, op, lastUuid, plan[0].fate);
      CreateSettles(w1, op, lastUuid, plan[0].fate, own);
      var s := Attempted(w1, op, lastUuid, plan[0].fate);
      if s.Again? {
        SettlesFrom(s.w, op, s.lastUuid, plan[1..], own + s.mine);
        var rest := Attempts(s.w, op, s.lastUuid, plan[1..]);
        assert own + (s.mine + rest.mine) == own + s.mine + rest.mine;
      }
    }
  }

  /**
   * A Create that is answered: it succeeds exactly if the newest record of the key is then its own, and fails with
   * KeyExists exactly if that is live and not its own.
   */
  lemma CreateVerdict(w: World, op: Op, plan: seq<Attempt>)
    requires Inv(w) && op.CreateOp? && TameCall(w, op, plan)
    ensures var o := Call(w, op, plan);
      && Settles(o.w, op, o.mine, o.reply)
      && (o.reply.Done? || o.reply.error in {KeyExists, RetriesExhausted, RequestTooLarge})
  {
    hide Inv, Attempts, TameAttempts, Newest;
    if !Refused(op) {
      BurnKeepsInv(w);
      assert Ours(Burned(w), op, w.nextUuid, []) && OwnTop(Burned(w), w.nextUuid, []);
      SettlesFrom(Burned(w), op, w.nextUuid, plan, []);
      assert [] + Attempts(Burned(w), op, w.nextUuid, plan).mine == Attempts(Burned(w), op, w.nextUuid, plan).mine;
      CreateErrors(Burned(w), op, w.nextUuid, plan);
    }
  }

  lemma {:induction false} CreateErrors(w: World, op: Op, lastUuid: nat, plan: seq<Attempt>)
    requires op.CreateOp?
    ensures var reply := Attempts(w, op, lastUuid, plan).reply;
      reply.Done? || reply.error in {KeyExists, RetriesExhausted}
    decreases |plan|
  {
    hide Play, Commit, Decide;
    if plan != [] {
      var s := Attempted(Play(w, plan[0].others), op, lastUuid, plan[0].fate);
      if s.Again? { CreateErrors(s.w, op, s.lastUuid, plan[1..]); }
    }
  }

  // ---------------------------------------------------------------- one attempt, over the history

  /** A Create wants the key free, an Update its revision newest and live; a Delete the same, or any live record. */
  ghost predicate Opens(h: map<Rev, Entry>, op: Op) {
    match op
    case CreateOp(key, _, _) => !LiveKey(h, key)
    case UpdateOp(key, _, revision, _) => LiveTop(h, key, revision)
    case DeleteOp(key, revision) => if revision == 0 then LiveKey(h, key) else LiveTop(h, key, revision)
  }

  /** The newest record of the key is of the kind the call writes and carries the UUID of its last attempt. */
  ghost predicate Recognised(w: World, op: Op, lastUuid: nat, r: Rev) {
    && Newest(w.hist, r) && w.hist[r].key == op.key && r in w.db.log && r in w.uuids && w.uuids[r] == lastUuid
    && match op
       case CreateOp(_, _, _) => w.hist[r].meta.isCreate
       case UpdateOp(_, _, _, _) => Live(w.hist[r])
       case DeleteOp(_, _) => w.hist[r].meta.isDelete
  }

  /** A successful Create is answered with its revision, the others with the record at theirs. */
  ghost predicate Shows(h: map<Rev, Entry>, op: Op, reply: Reply)
    requires reply.Done?
  {
    if op.CreateOp? then reply.kv == None
    else reply.kv.Some? && reply.kv.value.modRevision == reply.rev && Depicts(h, reply.kv.value)
  }

  /**
   * One attempt. It appends its record, and nothing else, exactly if its guard holds and its commit goes through. What
   * it then answers is that record; otherwise the record of an earlier attempt if that is the newest of the key, and if
   * not, that it is turned down. Only KeyExists is answered without a commit.
   */
  ghost predicate Judged(w: World, op: Op, lastUuid: nat, fate: Fate, w': World, answer: Option<Reply>,
                         mine: seq<Rev>) {
    var n := w.db.latest + 1;
    && (if Opens(w.hist, op) && Applied(fate) then
          mine == [n] && Wrote(w'.hist, op, n) && n in w'.hist && w'.hist == w.hist[n := w'.hist[n]]
        else
          mine == [] && w'.hist == w.hist)
    && (answer.None? ==> !fate.Committed?)
    && (answer.Some? ==>
          && Declines(w', op, answer.value)
          && (if answer.value.Failed? then answer.value.error.KeyExists? else fate.Committed?)
          && (answer.value.Done? && answer.value.ok ==> Shows(w'.hist, op, answer.value))
          && (answer.value.Done? && answer.value.ok && Opens(w.hist, op) ==> answer.value.rev == n)
          && (answer.value.Done? && answer.value.ok && !Opens(w.hist, op) ==>
                Recognised(w, op, lastUuid, answer.value.rev))
          && (answer.value.Failed? || !answer.value.ok ==>
                !Opens(w.hist, op) && forall r: Rev :: !Recognised(w, op, lastUuid, r)))
  }

  function AnswerOf(s: Step): Option<Reply> {
    if s.Stop? then Some(s.reply) else None
  }

  lemma AttemptJudged(w: World, op: Op, lastUuid: nat, fate: Fate)
    requires Inv(w)
    ensures var s := Attempted(w, op, lastUuid, fate); Judged(w, op, lastUuid, fate, s.w, AnswerOf(s), s.mine)
  {
    hide Inv, Commit, Decide, Wrote, Declines, LiveKey, Depicts, KvOf, Sound, Grows;
    var s := Attempted(w, op, lastUuid, fate);
    OpensIffPut(w, op, lastUuid);
    if TryOnce(w.db, op, lastUuid).Put? {
      PutIffGuard(w.db, op, lastUuid);
      SoundOf(w);
      PutFacts(w, op, TryOnce(w.db, op, lastUuid).a);
      KvDepicts(Commit(w, TryOnce(w.db, op, lastUuid).a).hist, w.db.latest + 1);
      WroteKind(Commit(w, TryOnce(w.db, op, lastUuid).a).hist, op, w.db.latest + 1);
      CommitHist(w, TryOnce(w.db, op, lastUuid).a);
      if s.Stop? { NothingDeclined(s.w, op, s.reply); }
    } else {
      TryDeclines(w, op, lastUuid);
      NotPutJudged(w, op, lastUuid);
    }
  }

  lemma WroteKind(h: map<Rev, Entry>, op: Op, r: Rev)
    requires Wrote(h, op, r)
    ensures r in h && h[r].meta.isCreate == op.CreateOp?
  {
  }

  lemma CommitHist(w: World, a: Appending)
    ensures Commit(w, a).hist == w.hist[w.db.latest + 1 := a.entry]
  {
  }

  lemma OpensIffPut(w: World, op: Op, lastUuid: nat)
    requires Inv(w)
    ensures TryOnce(w.db, op, lastUuid).Put? <==> Opens(w.hist, op)
  {
    hide Inv, LiveKey, KvOf, Decide;
    LastIsLive(w, op.key);
    NewestIs(w, op.key);
    if GetLast(w.db, op.key).Some? { NotBoth(w, GetLast(w.db, op.key).value.rev); }
  }

  /** The newest retained record of a key is the only one that is its newest and retained. */
  lemma NewestIs(w: World, key: Key)
    requires Inv(w)
    ensures forall r: Rev :: Newest(w.hist, r) && w.hist[r].key == key && (Live(w.hist[r]) || r in w.db.log) ==>
      GetLast(w.db, key).Some? && GetLast(w.db, key).value.rev == r
  {
    hide Inv;
    LastIsLive(w, key);
    forall r: Rev | Newest(w.hist, r) && w.hist[r].key == key && (Live(w.hist[r]) || r in w.db.log)
      ensures GetLast(w.db, key).Some?
    {
      InvRetains(w, r);
    }
  }

  lemma InvRetains(w: World, r: Rev)
    requires Inv(w) && Newest(w.hist, r) && (Live(w.hist[r]) || r in w.db.log)
    ensures r in w.db.log && Pos(w.hist[r].key, r) in w.db.index
  {
    hide RunOk, Chained, UniqueUuids, CurrentOk;
  }

  lemma NotPutJudged(w: World, op: Op, lastUuid: nat)
    requires Inv(w) && !TryOnce(w.db, op, lastUuid).Put?
    ensures var t := TryOnce(w.db, op, lastUuid);
      && (t.Abort? ==> t.error.KeyExists?)
      && (t.Answer? ==> t.reply.Done? && (t.reply.ok ==> Shows(w.hist, op, t.reply)))
      && (t.Answer? && t.reply.ok ==> Recognised(w, op, lastUuid, t.reply.rev))
      && (t.Abort? || !t.reply.ok ==> forall r: Rev :: !Recognised(w, op, lastUuid, r))
  {
    hide Inv, LiveKey, KvOf, Decide, Depicts, Newest;
    LastIsLive(w, op.key);
    NewestIs(w, op.key);
    var last := GetLast(w.db, op.key);
    if last.Some? {
      KvDepicts(w.hist, last.value.rev);
      NotBoth(w, last.value.rev);
    }
  }

  lemma NotBoth(w: World, r: Rev)
    requires Inv(w) && r in w.hist
    ensures !(w.hist[r].meta.isCreate && w.hist[r].meta.isDelete)
  {
    hide RunOk, Mirrored, Retained, UniqueUuids, CurrentOk, Faithful, Precedes;
    assert Linked(w.hist, r);
  }

  // ---------------------------------------------------------------- guarded writes that are answered

  lemma LiveTopBefore(w: World, w': World, key: Key, rev: Rev)
    requires Grows(w, w') && rev in w.hist && LiveTop(w'.hist, key, rev)
    ensures LiveTop(w.hist, key, rev)
  {
  }

  /** Once a guarded write is answered, yes or no, the revision it was guarded by is not the key's live newest. */
  lemma CallCloses(w: World, op: Op, plan: seq<Attempt>)
    requires Inv(w) && Guarded(op) && TameCall(w, op, plan)
    ensures var o := Call(w, op, plan); o.reply.Done? ==> !LiveTop(o.w.hist, op.key, op.revision)
  {
    hide Inv, Call, TameCall, Grows, Acknowledges, Born;
    AtMostOnce(w, op, plan);
    CallDeclines(w, op, plan);
    var o := Call(w, op, plan);
    if o.reply.Done? && o.reply.ok { assert Wrote(o.w.hist, op, o.mine[0]); }
    assert LiveTop(o.w.hist, op.key, op.revision) ==> LiveKey(o.w.hist, op.key);
  }

  ghost predicate Alone(plan: seq<Attempt>) {
    forall i :: 0 <= i < |plan| ==> plan[i].others == []
  }

  lemma {:induction false} AloneIsTame(w: World, op: Op, lastUuid: nat, plan: seq<Attempt>)
    requires Alone(plan)
    ensures TameAttempts(w, op, lastUuid, plan) && Undisturbed(w, op, lastUuid, plan)
    decreases |plan|
  {
    hide TryOnce, Append;
    if plan != [] {
      var s := Attempted(w, op, lastUuid, plan[0].fate);
      if s.Again? { AloneIsTame(s.w, op, s.lastUuid, plan[1..]); }
    }
  }

  lemma OpensGuard(w: World, op: Op)
    requires Inv(w) && Guarded(op) && LiveTop(w.hist, op.key, op.revision)
    ensures Decide(w.db, op).Some?
  {
    hide Inv;
    LastIsLive(w, op.key);
    assert LiveKey(w.hist, op.key);
  }

  /** With nobody else at work the history grows by the call's own records. */
  lemma AloneAppends(w: World, op: Op, plan: seq<Attempt>)
    requires Inv(w) && Guarded(op) && Alone(plan) && !Refused(op)
    ensures var o := Call(w, op, plan);
      && |o.mine| <= 1 && (o.mine == [] ==> o.w.hist == w.hist)
      && (o.mine != [] ==>
            && o.mine[0] > w.db.latest && Wrote(o.w.hist, op, o.mine[0])
            && o.w.hist == w.hist[o.mine[0] := o.w.hist[o.mine[0]]])
  {
    hide Inv, Attempts, Wrote, Undisturbed, TameAttempts;
    AloneIsTame(Burned(w), op, w.nextUuid, plan);
    AtMostOnce(w, op, plan);
    var o := Call(w, op, plan);
    forall r: Rev | r in o.w.hist && r !in w.hist ensures r in o.mine {
      AppendsOnlyMine(Burned(w), op, w.nextUuid, plan, r);
    }
    if o.mine != [] {
      assert o.mine[0] in o.mine && forall r :: r in o.mine ==> r == o.mine[0];
      WroteIn(o.w.hist, op, o.mine[0]);
    }
  }

  lemma WroteIn(h: map<Rev, Entry>, op: Op, r: Rev)
    requires Wrote(h, op, r)
    ensures r in h
  {
  }

  /** What it replaced was the key's live newest record when the call began. */
  lemma AloneReplaces(w: World, op: Op, plan: seq<Attempt>)
    requires Inv(w) && Guarded(op) && Alone(plan) && !Refused(op) && Call(w, op, plan).mine != []
    ensures LiveTop(w.hist, op.key, op.revision)
  {
    hide Inv, Call, Undisturbed, TameAttempts, Acknowledges;
    AloneAppends(w, op, plan);
    AloneIsTame(Burned(w), op, w.nextUuid, plan);
    AtMostOnce(w, op, plan);
    var o := Call(w, op, plan);
    InvIsChained(o.w);
    InvIsFaithful(w);
    assert Linked(o.w.hist, o.mine[0]);
  }

  lemma InvIsFaithful(w: World)
    requires Inv(w)
    ensures Faithful(w)
  {
    hide RunOk, Mirrored, Faithful, Retained, UniqueUuids, CurrentOk, Chained;
  }

  /**
   * A guarded write with nobody else at work. It appends its record, and nothing else, exactly if the revision it is
   * guarded by is the key's live newest record; a call one of whose attempts goes through is answered.
   */
  lemma CallAlone(w: World, op: Op, plan: seq<Attempt>)
    requires Inv(w) && Guarded(op) && Alone(plan) && !Refused(op)
    ensures TameCall(w, op, plan)
    ensures var o := Call(w, op, plan);
      && (!LiveTop(w.hist, op.key, op.revision) ==>
            o.mine == [] && o.w.hist == w.hist && !(o.reply.Done? && o.reply.ok))
      && (LiveTop(w.hist, op.key, op.revision) && o.reply.Done? ==>
            && o.reply.ok && o.mine == [o.reply.rev] && o.reply.rev > w.db.latest
            && Wrote(o.w.hist, op, o.reply.rev) && o.w.hist == w.hist[o.reply.rev := o.w.hist[o.reply.rev]])
      && ((exists i :: 0 <= i < |plan| && plan[i].fate.Committed?) ==> o.reply.Done?)
  {
    hide Inv, Attempts, LiveTop, Wrote, Undisturbed, TameAttempts, Depicts, Sound, Declines, Grows;
    AloneIsTame(Burned(w), op, w.nextUuid, plan);
    AloneAppends(w, op, plan);
    AtMostOnce(w, op, plan);
    CallDeclines(w, op, plan);
    var o := Call(w, op, plan);
    NotKeyExists(o.w, op, o.reply);
    if o.reply.Failed? {
      match o.reply.error
      case KeyExists => assert false;
      case RequestTooLarge => assert false;
      case RetriesExhausted =>
      case RecordMissing => assert false;
    }
    if o.mine != [] { AloneReplaces(w, op, plan); }
    if LiveTop(w.hist, op.key, op.revision) {
      BurnKeepsInv(w);
      OpensGuard(Burned(w), op);
      SoundOf(Burned(w));
      RetryTransparent(Burned(w), op, w.nextUuid, plan);
    }
  }

  lemma NotKeyExists(w: World, op: Op, reply: Reply)
    requires Declines(w, op, reply) && !op.CreateOp?
    ensures reply != Failed(KeyExists)
  {
  }

  lemma SoundOf(w: World)
    requires Inv(w)
    ensures Sound(w)
  {
    hide StoreOk, RunOk, Sound;
    StoreIsSound(w);
  }

  // ---------------------------------------------------------------- what is not promised

  /**
   * Create is not at most once. From any state where the key is free: the first attempt commits but its reply
   * is lost, another client deletes the key, and the retry creates it again.
   */
  lemma CreateCanAppendTwice(w: World, key: Key, value: Bytes, lease: int)
    requires Inv(w) && Decide(w.db, CreateOp(key, value, lease)).Some? && |value| <= MAX_RECORD_SIZE
    ensures Call(w, CreateOp(key, value, lease),
                 [Attempt([], DoubtApplied), Attempt([Write(DeleteOp(key, 0))], Committed)]).mine
         == [w.db.latest + 1, w.db.latest + 3]
  {
    hide Mirrored, Faithful, Retained, Chained, UniqueUuids, CurrentOk, RunOk, Decide, CurrentAfter;
    var op := CreateOp(key, value, lease);
    AppendsTwice(w, op, DeleteOp(key, 0));
  }

  /** Neither is an unguarded Delete: here the other client creates the key again in between. */
  lemma DeleteCanAppendTwice(w: World, key: Key)
    requires Inv(w) && Decide(w.db, DeleteOp(key, 0)).Some?
    ensures var plan := [Attempt([], DoubtApplied), Attempt([Write(CreateOp(key, [], 0))], Committed)];
      Call(w, DeleteOp(key, 0), plan).mine == [w.db.latest + 1, w.db.latest + 3]
  {
    hide Mirrored, Faithful, Retained, Chained, UniqueUuids, CurrentOk, RunOk, Decide, CurrentAfter;
    AppendsTwice(w, DeleteOp(key, 0), CreateOp(key, [], 0));
  }

  ghost predicate Opposite(op: Op, undo: Op) {
    && undo.key == op.key
    && ((op.CreateOp? && undo == DeleteOp(op.key, 0)) || (op == DeleteOp(op.key, 0) && undo.CreateOp?))
  }

  /** The shape of both: an unguarded write, its lost reply, and the opposite write by someone else. */
  lemma AppendsTwice(w: World, op: Op, undo: Op)
    requires Inv(w) && Decide(w.db, op).Some? && Opposite(op, undo)
    requires !op.DeleteOp? ==> |op.value| <= MAX_RECORD_SIZE
    ensures Call(w, op, [Attempt([], DoubtApplied), Attempt([Write(undo)], Committed)]).mine
         == [w.db.latest + 1, w.db.latest + 3]
  {
    hide Inv, Attempts, Decide;
    BurnKeepsInv(w);
    PlayOne(Burned(w), Write(undo));
    TwiceFrom(Burned(w), op, undo, w.nextUuid, []);
  }

  /** The same from any state that the writes `pre` turn into one where the guard holds. */
  lemma TwiceFrom(w: World, op: Op, undo: Op, lastUuid: nat, pre: seq<Action>)
    requires Inv(Play(w, pre)) && Decide(Play(w, pre).db, op).Some? && Opposite(op, undo) && TameRun(w, pre)
    ensures var plan := [Attempt(pre, DoubtApplied), Attempt([Write(undo)], Committed)];
      && Attempts(w, op, lastUuid, plan).mine == [Play(w, pre).db.latest + 1, Play(w, pre).db.latest + 3]
      && TameAttempts(w, op, lastUuid, plan)
  {
    hide Inv, Commit, TryOnce, Decide, Play, TameRun;
    var w0 := Play(w, pre);
    AfterPut(w0, op, undo, lastUuid);
    var w1 := Commit(w0, Decide(w0.db, op).value);
    AfterPut(w1, undo, op, lastUuid);
    var w2 := Commit(w1, Decide(w1.db, undo).value);
    PlayOne(w1, Write(undo));
    AfterPut(w2, op, undo, w0.nextUuid);
    var plan := [Attempt(pre, DoubtApplied), Attempt([Write(undo)], Committed)];
    assert plan[1..] == [plan[1]] && plan[1..][1..] == [];
    assert Attempted(w0, op, lastUuid, DoubtApplied) == Again(w1, w0.nextUuid, [w0.db.latest + 1]);
    assert Attempts(w1, op, w0.nextUuid, plan[1..]).mine == [w2.db.latest + 1];
    assert Attempted(w2, op, w0.nextUuid, Committed).Stop?;
    assert TameAttempts(w1, op, w0.nextUuid, plan[1..]);
  }

  /** If the guard of an unguarded write is closed, the opposite write opens it. */
  lemma OppositeOpens(w: World, op: Op, undo: Op)
    requires Inv(w) && Decide(w.db, op).None? && Opposite(op, undo)
    ensures var w' := Apply(w, Write(undo)); Inv(w') && Decide(w'.db, op).Some?
  {
    hide Retained, UniqueUuids, CurrentOk, RunOk, Precedes, Commit, TryOnce;
    LastIsNewest(w, op.key);
    var last := GetLast(w.db, op.key);
    if last.Some? { assert Linked(w.hist, last.value.rev); }
    AfterPut(w, undo, op, 0);
  }

  /**
   * Exactly which calls are at most once among writers and safely begun compactions: Update, Delete with a revision,
   * and calls that are refused for their size. For every other call there is, in every state, a run in which it appends
   * twice.
   */
  lemma AtMostOnceIff(w: World, op: Op)
    requires Inv(w)
    ensures (forall plan :: TameCall(w, op, plan) ==> |Call(w, op, plan).mine| <= 1) <==> Guarded(op) || Refused(op)
  {
    hide Inv, Decide, Attempts, TameAttempts;
    if Guarded(op) {
      forall plan | TameCall(w, op, plan) ensures |Call(w, op, plan).mine| <= 1 { AtMostOnce(w, op, plan); }
    } else if !Refused(op) {
      var undo := if op.CreateOp? then DeleteOp(op.key, 0) else CreateOp(op.key, [], 0);
      var w1 := Burned(w);
      BurnKeepsInv(w);
      PlayOne(w1, Write(undo));
      var pre := if Decide(w1.db, op).Some? then [] else [Write(undo)];
      if Decide(w1.db, op).None? { OppositeOpens(w1, op, undo); }
      TwiceFrom(w1, op, undo, w.nextUuid, pre);
      var plan := [Attempt(pre, DoubtApplied), Attempt([Write(undo)], Committed)];
      assert TameCall(w, op, plan) && |Call(w, op, plan).mine| == 2;
    }
  }

  /** After a write commits, an attempt of it puts, and the opposite write finds its guard open. */
  lemma AfterPut(w: World, op: Op, undo: Op, lastUuid: nat)
    requires Inv(w) && Decide(w.db, op).Some? && Opposite(op, undo)
    ensures TryOnce(w.db, op, lastUuid) == Put(Decide(w.db, op).value)
    ensures var w' := Commit(w, Decide(w.db, op).value);
      Inv(w') && Decide(w'.db, undo).Some? && w'.db.latest == w.db.latest + 1 && w'.nextUuid == w.nextUuid + 1
  {
    hide Retained, UniqueUuids, CurrentOk, RunOk, Precedes, CurrentAfter;
    var a := Decide(w.db, op).value;
    WriteKeepsInv(w, op);
    LastIsNewest(w, op.key);
    var last := GetLast(w.db, op.key);
    if last.Some? { assert Linked(w.hist, last.value.rev); }
    IndexTop(w, a);
  }

  /** The newest record of a key is a tombstone, or is live. */
  ghost predicate Ends(h: map<Rev, Entry>, key: Key, dead: bool) {
    exists r: Rev {:trigger Newest(h, r)} :: Newest(h, r) && h[r].key == key && h[r].meta.isDelete == dead
  }

  /** Does this action write the key so as to leave it `dead` the other way? */
  predicate Undoes(act: Action, key: Key, dead: bool) {
    act.Write? && act.op.key == key && (if dead then act.op.CreateOp? else act.op.DeleteOp?)
  }

  lemma StepKeepsEnd(w: World, act: Action, key: Key, dead: bool)
    requires Inv(w) && Ends(w.hist, key, dead) && !Undoes(act, key, dead)
    ensures Ends(Apply(w, act).hist, key, dead)
  {
    hide Inv, Commit, Decide, CompactScan;
    if act.Write? && Decide(w.db, act.op).Some? {
      var a := Decide(w.db, act.op).value;
      InvIsFaithful(w);
      CommitHist(w, a);
      WritesKind(w, act.op, key, dead);
      CommitKeepsEnd(w.hist, w.db.latest + 1, a.entry, key, dead);
    }
  }

  /** A record of another key, or one of this key that leaves it as it was. */
  lemma CommitKeepsEnd(h: map<Rev, Entry>, n: Rev, e: Entry, key: Key, dead: bool)
    requires Ends(h, key, dead) && (forall r: Rev :: r in h ==> r < n) && (e.key == key ==> e.meta.isDelete == dead)
    ensures Ends(h[n := e], key, dead)
  {
    var r: Rev :| Newest(h, r) && h[r].key == key && h[r].meta.isDelete == dead;
    if e.key == key { assert Newest(h[n := e], n); } else { assert Newest(h[n := e], r); }
  }

  lemma WritesKind(w: World, op: Op, key: Key, dead: bool)
    requires Inv(w) && Ends(w.hist, key, dead) && !Undoes(Write(op), key, dead) && Decide(w.db, op).Some?
    ensures var e := Decide(w.db, op).value.entry; e.key == key ==> e.meta.isDelete == dead
  {
    hide Inv;
    LastIsLive(w, op.key);
    NewestIs(w, op.key);
  }

  lemma {:induction false} PlayKeepsEnd(w: World, acts: seq<Action>, key: Key, dead: bool)
    requires Inv(w) && TameRun(w, acts) && Ends(w.hist, key, dead)
    requires forall i :: 0 <= i < |acts| ==> !Undoes(acts[i], key, dead)
    ensures Ends(Play(w, acts).hist, key, dead)
    decreases |acts|
  {
    hide Inv, Apply, Ends, Undoes, Tame;
    if acts != [] {
      StepKeepsEnd(w, acts[0], key, dead);
      StepKeepsInv(w, acts[0]);
      PlayKeepsEnd(Apply(w, acts[0]), acts[1..], key, dead);
    }
  }

  /** None of the interfering actions undoes what `op` does to its key. */
  ghost predicate NeverUndone(op: Op, plan: seq<Attempt>) {
    forall t, i :: 0 <= t < |plan| && 0 <= i < |plan[t].others| ==> !Undoes(plan[t].others[i], op.key, op.DeleteOp?)
  }

  lemma {:induction false} OnceUnlessUndoneFrom(w: World, op: Op, lastUuid: nat, plan: seq<Attempt>, wrote: bool)
    requires Inv(w) && (op.CreateOp? || op.DeleteOp?) && NeverUndone(op, plan) && TameAttempts(w, op, lastUuid, plan)
    requires wrote ==> Ends(w.hist, op.key, op.DeleteOp?)
    ensures |Attempts(w, op, lastUuid, plan).mine| <= if wrote then 0 else 1
    decreases |plan|
  {
    hide Inv, TryOnce, Commit, Decide, Ends, Play, TameRun, Grows;
    if plan != [] {
      var w1 := Play(w, plan[0].others);
      TameRunGrows(w, plan[0].others);
      if wrote { PlayKeepsEnd(w, plan[0].others, op.key, op.DeleteOp?); }
      EndClosesGuard(w1, op, lastUuid);
      AttemptKeepsInv(w1, op, lastUuid, plan[0].fate);
      var s := Attempted(w1, op, lastUuid, plan[0].fate);
      if s.Again? {
        assert NeverUndone(op, plan[1..]);
        OnceUnlessUndoneFrom(s.w, op, s.lastUuid, plan[1..], wrote || s.mine != []);
      }
    }
  }

  /** Once a Create or Delete has had its effect its guard is closed, and putting it has that effect. */
  lemma EndClosesGuard(w: World, op: Op, lastUuid: nat)
    requires Inv(w) && (op.CreateOp? || op.DeleteOp?)
    ensures Ends(w.hist, op.key, op.DeleteOp?) ==> !TryOnce(w.db, op, lastUuid).Put?
    ensures TryOnce(w.db, op, lastUuid).Put? ==>
      Ends(Commit(w, TryOnce(w.db, op, lastUuid).a).hist, op.key, op.DeleteOp?)
  {
    hide Chained, UniqueUuids, CurrentOk, RunOk, CurrentAfter;
    LastIsNewest(w, op.key);
    if TryOnce(w.db, op, lastUuid).Put? {
      var h' := Commit(w, TryOnce(w.db, op, lastUuid).a).hist;
      assert Newest(h', w.db.latest + 1);
    }
  }

  /** While compactions begin safely, an undoing write is the only way: without one, these are at most once too. */
  lemma OnceUnlessUndone(w: World, op: Op, plan: seq<Attempt>)
    requires Inv(w) && (op.CreateOp? || op.DeleteOp?) && NeverUndone(op, plan) && TameCall(w, op, plan)
    ensures |Call(w, op, plan).mine| <= 1
  {
    hide Attempts, NeverUndone, Inv, TameAttempts;
    BurnKeepsInv(w);
    if !Refused(op) { OnceUnlessUndoneFrom(Burned(w), op, w.nextUuid, plan, false); }
  }

  // ---------------------------------------------------------------- creates need no condition on compaction

  /** The index's newest entry of the key is a live one. */
  predicate Alive(db: Db, key: Key) {
    GetLast(db, key).Some? && !GetLast(db, key).value.entry.meta.isDelete
  }

  lemma AliveOne(db: Db, r: Rev, key: Key)
    requires Mirrored(db) && r in db.log && Alive(db, key)
    ensures Mirrored(CompactOne(db, r)) && Alive(CompactOne(db, r), key)
  {
    var last := GetLast(db, key).value.rev;
    GetLastIs(CompactOne(db, r), key, last);
  }

  lemma {:induction false} AliveScan(db: Db, cursor: Rev, end: Rev, budget: nat, key: Key)
    requires Mirrored(db) && Alive(db, key)
    ensures Alive(CompactScan(db, cursor, end, budget).db, key)
    decreases budget
  {
    hide Mirrored, Alive, CompactOne;
    var pending := Pending(db, cursor, end);
    if budget > 0 && pending != {} {
      AliveOne(db, MinOf(pending), key);
      AliveScan(CompactOne(db, MinOf(pending)), MinOf(pending), end, budget - 1, key);
    }
  }

  lemma AliveIndex(db: Db, db': Db, key: Key)
    requires Alive(db, key) && db'.index == db.index
    ensures Alive(db', key)
  {
    GetLastIs(db', key, GetLast(db, key).value.rev);
  }

  lemma AliveWrite(w: World, op: Op, key: Key)
    requires Sound(w) && Alive(w.db, key) && !(op.DeleteOp? && op.key == key) && Decide(w.db, op).Some?
    ensures Alive(Commit(w, Decide(w.db, op).value).db, key)
  {
    hide UniqueUuids, Formed, CurrentAfter;
    var a := Decide(w.db, op).value;
    if op.key == key {
      SoundTop(w, a);
    } else {
      GetLastIs(Commit(w, a).db, key, GetLast(w.db, key).value.rev);
    }
  }

  /** Nothing but a delete of the key ends its life, not even a compaction that begins too high. */
  lemma AliveStep(w: World, act: Action, key: Key)
    requires Sound(w) && Alive(w.db, key) && !Undoes(act, key, false)
    ensures Alive(Apply(w, act).db, key)
  {
    hide Mirrored, Faithful, UniqueUuids, Formed, Alive, Decide, Commit, CompactScan;
    match act
    case Write(op) => if Decide(w.db, op).Some? { AliveWrite(w, op, key); }
    case Tick(gap) => AliveIndex(w.db, Apply(w, act).db, key);
    case Wipe(keys) => AliveIndex(w.db, Apply(w, act).db, key);
    case Compact(end) =>
    case Batch(i, budget, advance) =>
      if i < |w.runs| {
        var s := CompactScan(w.db, w.runs[i].cursor, w.runs[i].end, budget);
        AliveScan(w.db, w.runs[i].cursor, w.runs[i].end, budget, key);
        AliveIndex(s.db, Apply(w, act).db, key);
      }
  }

  lemma {:induction false} AliveRun(w: World, acts: seq<Action>, key: Key)
    requires Sound(w) && Alive(w.db, key) && forall i :: 0 <= i < |acts| ==> !Undoes(acts[i], key, false)
    ensures Alive(Play(w, acts).db, key)
    decreases |acts|
  {
    hide Sound, Alive, Apply, Undoes;
    if acts != [] {
      AliveStep(w, acts[0], key);
      StepKeepsSound(w, acts[0]);
      AliveRun(Apply(w, acts[0]), acts[1..], key);
    }
  }

  lemma CreateAttempted(w: World, op: Op, lastUuid: nat, fate: Fate)
    requires Sound(w) && op.CreateOp?
    ensures var s := Attempted(w, op, lastUuid, fate);
      && Sound(s.w) && |s.mine| <= 1 && (s.mine != [] ==> Alive(s.w.db, op.key))
      && (Alive(w.db, op.key) ==> s.mine == [] && s.w == w)
  {
    hide Mirrored, Faithful, UniqueUuids, Formed, Commit;
    PutIffGuard(w.db, op, lastUuid);
    BurnSound(w);
    match TryOnce(w.db, op, lastUuid)
    case Abort(_) =>
    case Answer(_) =>
    case Put(a) =>
      PutFacts(w, op, a);
      SoundTop(w, a);
  }

  lemma {:induction false} CreateOnceFrom(w: World, op: Op, lastUuid: nat, plan: seq<Attempt>)
    requires Sound(w) && op.CreateOp? && NeverUndone(op, plan)
    ensures |Attempts(w, op, lastUuid, plan).mine| <= 1
    ensures Alive(w.db, op.key) ==> Attempts(w, op, lastUuid, plan).mine == []
    decreases |plan|
  {
    hide Sound, Alive, Attempted, Play, Grows;
    if plan != [] {
      var w1 := Play(w, plan[0].others);
      RunsKeepSound(w, plan[0].others);
      if Alive(w.db, op.key) { AliveRun(w, plan[0].others, op.key); }
      CreateAttempted(w1, op, lastUuid, plan[0].fate);
      var s := Attempted(w1, op, lastUuid, plan[0].fate);
      if s.Again? {
        assert NeverUndone(op, plan[1..]);
        CreateOnceFrom(s.w, op, s.lastUuid, plan[1..]);
      }
    }
  }

  /** Without a delete by someone else a Create appends at most once, whatever compaction does. */
  lemma CreateOnceUnlessDeleted(w: World, op: Op, plan: seq<Attempt>)
    requires Sound(w) && op.CreateOp? && NeverUndone(op, plan)
    ensures |Call(w, op, plan).mine| <= 1
  {
    hide Sound, Attempts, NeverUndone;
    BurnSound(w);
    if !Refused(op) { CreateOnceFrom(Burned(w), op, w.nextUuid, plan); }
  }

  // ---------------------------------------------------------------- the calls themselves

  lemma Appended(w: World, a: Appending)
    requires StoreOk(w) && Fits(w.db, a)
    ensures var w' := Commit(w, a);
      var n, key := w.db.latest + 1, a.entry.key;
      && StoreOk(w') && n in w'.db.log && w'.db.log[n] == a.entry
      && GetLast(w'.db, key) == Some(Last(n, IndexEntry(a.entry.meta, w.nextUuid)))
      && Holds(w'.db.current, key, if a.entry.meta.isDelete then [] else a.entry.value)
  {
    hide Retained, Chained, UniqueUuids, Fits, CurrentAfter;
    CommitStoreOk(w, a);
    StoreIsSound(w);
    SoundTop(w, a);
    CommitFields(w, a);
    var w' := Commit(w, a);
    assert CurrentOk(w'.db, a.entry.key, a.entry.key in w'.legacy);
  }

  /** The backend's write half. `plan` says how the attempts of a call fare and what happens between them. */
  class Backend {
    var w: World

    constructor (w: World)
      ensures this.w == w
    {
      this.w := w;
    }

    /**
     * One append: a fresh UUID, then all three subspaces in one transaction, if it commits. On a record that continues
     * its key the three forms agree afterwards: it is the log's record at the new revision, the index's newest entry
     * under the UUID, and its value, or nothing for a tombstone, is what the current-value rows hold.
     */
    method AppendRecord(a: Appending, fate: Fate) returns (uuid: nat)
      modifies this
      ensures Sound(old(w)) ==> forall r: Rev :: r in old(w).uuids ==> old(w).uuids[r] != uuid
      ensures w == if Applied(fate) then Commit(old(w), a) else Burned(old(w))
      ensures uuid == old(w).nextUuid
      ensures Applied(fate) && StoreOk(old(w)) && Fits(old(w).db, a) ==>
        var n, key := old(w).db.latest + 1, a.entry.key;
        && StoreOk(w) && n in w.db.log && w.db.log[n] == a.entry
        && GetLast(w.db, key) == Some(Last(n, IndexEntry(a.entry.meta, uuid)))
        && Holds(w.db.current, key, if a.entry.meta.isDelete then [] else a.entry.value)
    {
      ghost var before := w;
      uuid := w.nextUuid;
      if Applied(fate) {
        w := Commit(w, a);
        if StoreOk(before) && Fits(before.db, a) { Appended(before, a); }
      } else {
        w := Burned(w);
      }
    }

    /** The transaction function of Create and its commit. */
    method CreateAttempt(key: Key, value: Bytes, lease: int, lastUuid: nat, fate: Fate)
      returns (answer: Option<Reply>, uuid: nat, ghost mine: seq<Rev>)
      modifies this
      ensures Attempted(old(w), CreateOp(key, value, lease), lastUuid, fate)
           == if answer.Some? then Stop(w, answer.value, mine) else Again(w, uuid, mine)
      ensures Inv(old(w)) ==> Judged(old(w), CreateOp(key, value, lease), lastUuid, fate, w, answer, mine)
    {
      hide Commit, Inv, Judged;
      if Inv(w) { AttemptJudged(w, CreateOp(key, value, lease), lastUuid, fate); }
      uuid, mine := lastUuid, [];
      var last := GetLast(w.db, key);
      var record := Entry(key, Meta(true, false, lease, 0, 0, |value|), value);
      if last.Some? {
        if last.value.entry.meta.isCreate && last.value.entry.uuid == lastUuid {
          return if fate.Committed? then Some(Done(last.value.rev, None, true)) else None, uuid, [];
        } else if !last.value.entry.meta.isDelete {
          return Some(Failed(KeyExists)), uuid, [];
        }
        record := record.(meta := record.meta.(prevRev := last.value.rev));
      }
      var rev := w.db.latest + 1;
      uuid := AppendRecord(Appending(record, 0), fate);
      mine := if Applied(fate) then [rev] else [];
      answer := if fate.Committed? then Some(Done(rev, None, true)) else None;
    }

    /** The transaction function of Update and its commit. */
    method UpdateAttempt(key: Key, value: Bytes, revision: Rev, lease: int, lastUuid: nat, fate: Fate)
      returns (answer: Option<Reply>, uuid: nat, ghost mine: seq<Rev>)
      modifies this
      ensures Attempted(old(w), UpdateOp(key, value, revision, lease), lastUuid, fate)
           == if answer.Some? then Stop(w, answer.value, mine) else Again(w, uuid, mine)
      ensures Inv(old(w)) ==> Judged(old(w), UpdateOp(key, value, revision, lease), lastUuid, fate, w, answer, mine)
    {
      hide Commit, Inv, Judged;
      if Inv(w) { AttemptJudged(w, UpdateOp(key, value, revision, lease), lastUuid, fate); }
      uuid, mine := lastUuid, [];
      var last := GetLast(w.db, key);
      var reply;
      if last.None? || last.value.entry.meta.isDelete {
        reply := Done(w.db.latest, None, false);
      } else if last.value.rev != revision {
        if last.value.rev !in w.db.log {
          return Some(Failed(RecordMissing)), uuid, [];
        }
        var record := w.db.log[last.value.rev];
        if last.value.entry.uuid == lastUuid {
          reply := Done(last.value.rev, Some(KvOf(last.value.rev, record)), true);
        } else {
          reply := Done(w.db.latest, Some(KvOf(last.value.rev, record)), false);
        }
      } else {
        var prev := last.value.entry.meta;
        var record := Entry(key, Meta(false, false, lease, CreateRevision(revision, prev), revision, |value|), value);
        var rev := w.db.latest + 1;
        uuid := AppendRecord(Appending(record, prev.valueSize), fate);
        mine := if Applied(fate) then [rev] else [];
        reply := Done(rev, Some(KvOf(rev, record)), true);
      }
      answer := if fate.Committed? then Some(reply) else None;
    }

    /** The transaction function of Delete and its commit. */
    method DeleteAttempt(key: Key, revision: Rev, lastUuid: nat, fate: Fate)
      returns (answer: Option<Reply>, uuid: nat, ghost mine: seq<Rev>)
      modifies this
      ensures Attempted(old(w), DeleteOp(key, revision), lastUuid, fate)
           == if answer.Some? then Stop(w, answer.value, mine) else Again(w, uuid, mine)
      ensures Inv(old(w)) ==> Judged(old(w), DeleteOp(key, revision), lastUuid, fate, w, answer, mine)
    {
      hide Commit, Inv, Judged;
      if Inv(w) { AttemptJudged(w, DeleteOp(key, revision), lastUuid, fate); }
      uuid, mine := lastUuid, [];
      var last := GetLast(w.db, key);
      var reply := Done(w.db.latest, None, false);
      if last.Some? {
        if last.value.rev !in w.db.log {
          return Some(Failed(RecordMissing)), uuid, [];
        }
        var record := w.db.log[last.value.rev];
        if last.value.entry.meta.isDelete {
          if last.value.entry.uuid == lastUuid {
            reply := Done(last.value.rev, Some(KvOf(last.value.rev, record)), true);
          }
        } else if revision != 0 && last.value.rev != revision {
          reply := Done(w.db.latest, Some(KvOf(last.value.rev, record)), false);
        } else {
          var tombstone := Entry(key, Meta(false, true, record.meta.lease,
                                           CreateRevision(last.value.rev, last.value.entry.meta),
                                           last.value.rev, record.meta.valueSize), record.value);
          var rev := w.db.latest + 1;
          uuid := AppendRecord(Appending(tombstone, 0), fate);
          mine := if Applied(fate) then [rev] else [];
          reply := Done(rev, Some(KvOf(rev, tombstone)), true);
        }
      }
      answer := if fate.Committed? then Some(reply) else None;
    }

    method OneAttempt(op: Op, lastUuid: nat, fate: Fate)
      returns (answer: Option<Reply>, uuid: nat, ghost mine: seq<Rev>)
      modifies this
      ensures Attempted(old(w), op, lastUuid, fate)
           == if answer.Some? then Stop(w, answer.value, mine) else Again(w, uuid, mine)
    {
      hide Attempted;
      match op {
        case CreateOp(key, value, lease) =>
          answer, uuid, mine := CreateAttempt(key, value, lease, lastUuid, fate);
        case UpdateOp(key, value, revision, lease) =>
          answer, uuid, mine := UpdateAttempt(key, value, revision, lease, lastUuid, fate);
        case DeleteOp(key, revision) =>
          answer, uuid, mine := DeleteAttempt(key, revision, lastUuid, fate);
      }
    }

    /** A client call: attempt after attempt until one is answered, carrying the UUID of the last one over. */
    method Transact(op: Op, plan: seq<Attempt>) returns (reply: Reply, ghost mine: seq<Rev>)
      modifies this
      ensures Outcome(w, reply, mine) == Call(old(w), op, plan)
      ensures Inv(old(w)) && TameCall(old(w), op, plan) ==> Declines(w, op, reply)
    {
      hide Attempted, Play, Attempts, Inv, TameCall, Declines;
      if Inv(w) && TameCall(w, op, plan) { CallDeclines(w, op, plan); }
      mine := [];
      if !op.DeleteOp? && |op.value| > MAX_RECORD_SIZE {
        return Failed(RequestTooLarge), [];
      }
      var lastWriteUuid := w.nextUuid;
      w := w.(nextUuid := w.nextUuid + 1);
      var t := 0;
      while t < |plan|
        invariant 0 <= t <= |plan|
        invariant var rest := Attempts(w, op, lastWriteUuid, plan[t..]);
          Call(old(w), op, plan) == rest.(mine := mine + rest.mine)
      {
        assert plan[t..][0] == plan[t] && plan[t..][1..] == plan[t + 1..];
        AttemptsStep(w, op, lastWriteUuid, plan[t..]);
        w := Play(w, plan[t].others);
        var answer;
        ghost var wrote;
        answer, lastWriteUuid, wrote := OneAttempt(op, lastWriteUuid, plan[t].fate);
        assert forall rest: seq<Rev> :: mine + wrote + rest == mine + (wrote + rest);
        mine := mine + wrote;
        if answer.Some? {
          return answer.value, mine;
        }
        t := t + 1;
      }
      AttemptsStep(w, op, lastWriteUuid, plan[t..]);
      reply := Failed(RetriesExhausted);
    }
  }
}
