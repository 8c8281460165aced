/**
 * The driver against the reference model: its log, read back and turned into guarded transactions, replays
 * without a failed guard, one revision per record, and shows at every revision what the driver shows.
 */
module Replay {
  import opened Types
  import opened Store
  import opened World
  import opened Compaction
  import Writes
  import opened RevisionLog
  import opened EtcdModel
  import Reads

  // ---------------------------------------------------------------- sequential-id mode

  /** One revision per record, starting at 2, and nothing compacted. */
  ghost predicate Sequential(w: World) {
    && Inv(w) && w.db.log == w.hist
    && forall r: Rev :: r in w.hist <==> 2 <= r <= w.db.latest
  }

  lemma SequentialCommit(w: World, a: Appending)
    requires w.db.log == w.hist && forall r: Rev :: r in w.hist <==> 2 <= r <= w.db.latest
    requires w.db.latest >= 1
    ensures var w' := Commit(w, a); w'.db.log == w'.hist && forall r: Rev :: r in w'.hist <==> 2 <= r <= w'.db.latest
  {
    hide CurrentAfter;
  }

  /** Every run of writes in sequential-id mode. */
  lemma {:induction false} SequentialRun(w: World, acts: seq<Action>)
    requires Sequential(w) && forall a :: a in acts ==> a.Write?
    ensures Sequential(Play(w, acts))
    decreases |acts|
  {
    hide Decide, Commit, RunOk, Mirrored, Retained, Chained, UniqueUuids, CurrentOk;
    if acts != [] {
      assert acts[0] in acts;
      StepKeepsInv(w, acts[0]);
      var a := Decide(w.db, acts[0].op);
      if a.Some? { SequentialCommit(w, a.value); }
      SequentialRun(Apply(w, acts[0]), acts[1..]);
    }
  }

  /** A client call, retried after commits in doubt, among other writers. */
  lemma {:induction false} SequentialCall(w: World, op: Op, lastUuid: nat, plan: seq<Writes.Attempt>)
    requires Sequential(w) && forall i, a :: 0 <= i < |plan| && a in plan[i].others ==> a.Write?
    ensures Sequential(Writes.Attempts(w, op, lastUuid, plan).w)
    decreases |plan|
  {
    hide RunOk, Mirrored, Retained, Chained, UniqueUuids, CurrentOk, Writes.TryOnce, Decide, Commit;
    if plan != [] {
      var w1 := Play(w, plan[0].others);
      SequentialRun(w, plan[0].others);
      Writes.PutIffGuard(w1.db, op, lastUuid);
      WriteKeepsInv(w1, op);
      Writes.BurnKeepsInv(w1);
      var a := Decide(w1.db, op);
      if a.Some? { SequentialCommit(w1, a.value); }
      var s := Writes.Attempted(w1, op, lastUuid, plan[0].fate);
      if s.Again? { SequentialCall(s.w, op, s.lastUuid, plan[1..]); }
    }
  }

  lemma SequentialInit()
    ensures Sequential(Init(1))
  {
    InitInv(1);
  }

  // ---------------------------------------------------------------- the log as requests

  function CreateRequest(key: Key, value: ValueOrHash): TxnRequest {
    TxnRequest([Condition(key, 0, 0)], [PutOperation(key, value, 0)], [])
  }

  function UpdateRequest(key: Key, value: ValueOrHash, prevRevision: Rev): TxnRequest {
    TxnRequest([Condition(key, prevRevision, 0)], [PutOperation(key, value, 0)], [RangeOperation(key, [], 0)])
  }

  function DeleteRequest(key: Key, prevRev: Rev): TxnRequest {
    if prevRev != 0 then
      TxnRequest([Condition(key, prevRev, 0)], [DeleteOperation(key)], [RangeOperation(key, [], 0)])
    else
      TxnRequest([], [RangeOperation(key, [], 0), DeleteOperation(key)], [])
  }

  function RequestOf(enc: Bytes -> ValueOrHash, e: Entry): TxnRequest {
    if e.meta.isCreate then CreateRequest(e.key, enc(e.value))
    else if e.meta.isDelete then DeleteRequest(e.key, e.meta.prevRev)
    else UpdateRequest(e.key, enc(e.value), e.meta.prevRev)
  }

  // ---------------------------------------------------------------- one record

  /** The reference state shows the driver's live view at a revision. */
  ghost predicate Shows(s: EtcdState, h: map<Rev, Entry>, enc: Bytes -> ValueOrHash, at: Rev) {
    && s.revision == at && s.keyLeases == map[] && s.leases == map[]
    && forall k: Key ::
      && (k in s.keyValues <==> View(h, k, at).Some?)
      && (k in s.keyValues ==>
            && View(h, k, at).value in h
            && s.keyValues[k] == ValueRevision(enc(h[View(h, k, at).value].value), View(h, k, at).value, 0))
  }

  lemma ViewElsewhere(h: map<Rev, Entry>, k: Key, r: Rev)
    requires r > 0 && (r in h ==> h[r].key != k)
    ensures View(h, k, r) == View(h, k, r - 1)
  {
    assert Upto(h, k, r) == Upto(h, k, r - 1);
  }

  lemma ViewOfNew(h: map<Rev, Entry>, r: Rev)
    requires r in h
    ensures View(h, h[r].key, r) == if Live(h[r]) then Some(r) else None
  {
    ViewIs(h, h[r].key, r, r);
  }

  lemma ViewOfPrev(h: map<Rev, Entry>, p: Rev, r: Rev)
    requires r in h && r > 0 && Precedes(h, p, r)
    ensures View(h, h[r].key, r - 1) == if Live(h[p]) then Some(p) else None
  {
    ViewIs(h, h[r].key, r - 1, p);
  }

  /** What the guard of a record saw when it was written. */
  lemma ViewBefore(h: map<Rev, Entry>, r: Rev)
    requires Chained(h) && r in h && r > 0
    ensures View(h, h[r].key, r - 1) == if h[r].meta.isCreate then None else Some(h[r].meta.prevRev)
  {
    hide View;
    assert Linked(h, r);
    var key := h[r].key;
    if !h[r].meta.isCreate {
      ViewOfPrev(h, h[r].meta.prevRev, r);
    } else {
      CreateSeesNone(h, r);
    }
  }

  lemma CreateSeesNone(h: map<Rev, Entry>, r: Rev)
    requires r in h && r > 0
    requires forall p: Rev {:trigger Precedes(h, p, r)} :: Precedes(h, p, r) ==> h[p].meta.isDelete
    ensures View(h, h[r].key, r - 1) == None
  {
    var revs := Upto(h, h[r].key, r - 1);
    if revs != {} {
      forall q: Rev | q in h && h[q].key == h[r].key && q < r ensures q <= MaxOf(revs) { assert q in revs; }
      assert Precedes(h, MaxOf(revs), r);
    }
  }

  /** Replaying a record: its guard holds, the revision rises by one, and the state shows the record's revision. */
  lemma RecordReplays(s: EtcdState, h: map<Rev, Entry>, enc: Bytes -> ValueOrHash, r: Rev)
    requires Chained(h) && r in h && r > 1 && (forall q: Rev :: q in h ==> q > 0) && Shows(s, h, enc, r - 1)
    ensures var req := RequestOf(enc, h[r]);
      !Answer(s, req).failure && After(s, req).revision == s.revision + 1 && Shows(After(s, req), h, enc, r)
  {
    hide View, Chained, Precedes;
    var req, key := RequestOf(enc, h[r]), h[r].key;
    ViewBefore(h, r);
    ViewOfNew(h, r);
    RecordGuard(s, h, enc, r);
    RecordEffect(s, h, enc, r);
    forall k: Key | k != key ensures View(h, k, r) == View(h, k, r - 1) { ViewElsewhere(h, k, r); }
  }

  lemma RecordGuard(s: EtcdState, h: map<Rev, Entry>, enc: Bytes -> ValueOrHash, r: Rev)
    requires Chained(h) && r in h && r > 1 && (forall q: Rev :: q in h ==> q > 0) && Shows(s, h, enc, r - 1)
    ensures var req := RequestOf(enc, h[r]); Chosen(s, req) == req.onSuccess && !Answer(s, req).failure
    ensures if h[r].meta.isCreate then Live(h[r]) else h[r].meta.prevRev != 0 && h[r].key in s.keyValues
  {
    hide View, Precedes;
    ViewBefore(h, r);
    assert Linked(h, r);
    if !h[r].meta.isCreate { PrevPositive(h, h[r].meta.prevRev, r); }
    assert Meets(s, RequestOf(enc, h[r]).conditions[0]);
  }

  // ---------------------------------------------------------------- guards that do not hold

  /** The state shows the key at this revision, or not at all. */
  ghost predicate ShowsKey(s: EtcdState, key: Key, rev: Option<Rev>) {
    && (key in s.keyValues <==> rev.Some?)
    && (key in s.keyValues ==> s.keyValues[key].modRevision == rev.value && rev.value > 0)
  }

  /** A create fails exactly if the key is there, any other record if it is not there at the revision replaced. */
  lemma RequestFailsIff(s: EtcdState, enc: Bytes -> ValueOrHash, e: Entry, rev: Option<Rev>)
    requires ShowsKey(s, e.key, rev) && (!e.meta.isCreate ==> e.meta.prevRev > 0)
    ensures Answer(s, RequestOf(enc, e)).failure <==> rev != if e.meta.isCreate then None else Some(e.meta.prevRev)
    ensures Answer(s, RequestOf(enc, e)).failure ==>
      && After(s, RequestOf(enc, e)) == s
      && Answer(s, RequestOf(enc, e)).results == if e.meta.isCreate then [] else [Found(s, e.key)]
  {
    hide OpEffect, OpResultOf, Executes;
    var req := RequestOf(enc, e);
    AnswerMeans(s, req);
    assert Stands(s, req.conditions[0]) <==> rev == if e.meta.isCreate then None else Some(e.meta.prevRev);
    assert Answer(s, req).failure <==> !Stands(s, req.conditions[0]);
    if Answer(s, req).failure {
      OnlyReads(s, req.onFailure);
      assert Chosen(s, req) == req.onFailure;
      if !e.meta.isCreate { ReadsOne(s, e.key); }
    }
  }

  /** What a read of one key answers. */
  function Found(s: EtcdState, key: Key): OpResult {
    if key in s.keyValues then OpResult([KeyAndValue(key, s.keyValues[key])], 1, 0) else OpResult([], 0, 0)
  }

  lemma ReadsOne(s: EtcdState, key: Key)
    ensures OpsResults(Progress(s, false), [RangeOperation(key, [], 0)]) == [Found(s, key)]
  {
    var p, ops := Progress(s, false), [RangeOperation(key, [], 0)];
    assert ops[..0] == [];
    assert OpsResults(p, ops) == OpsResults(p, []) + [OpResultOf(p, ops[0])];
  }

  /** A delete without a revision never fails; it answers what it found and leaves the key absent. */
  lemma UnguardedDelete(s: EtcdState, enc: Bytes -> ValueOrHash, e: Entry)
    requires e.meta.isDelete && !e.meta.isCreate && e.meta.prevRev == 0
    ensures var req := RequestOf(enc, e);
      && !Answer(s, req).failure && e.key !in After(s, req).keyValues
      && Answer(s, req).results == [Found(s, e.key), OpResult([], 0, if e.key in s.keyValues then 1 else 0)]
      && After(s, req).revision == s.revision + if e.key in s.keyValues then 1 else 0
  {
    var req, p := RequestOf(enc, e), Progress(s, false);
    var ops := req.onSuccess;
    assert Chosen(s, req) == ops && ops[..0] == [] && ops[..1] == [ops[0]] && ops == ops[..2];
    OpsStep(p, ops, 0);
    OpsStep(p, ops, 1);
  }

  lemma OnlyReads(s: EtcdState, ops: seq<Operation>)
    requires |ops| <= 1 && forall i :: 0 <= i < |ops| ==> ops[i].RangeOperation?
    ensures OpsEffect(Progress(s, false), ops) == Progress(s, false)
  {
    assert ops == [] || ops[..0] == [];
  }

  /** A log with a record missing does not replay: the next record of its key fails and changes nothing. */
  lemma GapFails(s: EtcdState, h: map<Rev, Entry>, enc: Bytes -> ValueOrHash, m: Rev, r: Rev)
    requires Chained(h) && (forall q: Rev :: q in h ==> q > 0) && Precedes(h, m, r) && m > 0
    requires ShowsKey(s, h[r].key, View(h, h[r].key, m - 1))
    ensures Answer(s, RequestOf(enc, h[r])).failure && After(s, RequestOf(enc, h[r])) == s
  {
    hide View, Precedes, RequestOf;
    PrecedesIs(h, m, r);
    assert Linked(h, r) && Linked(h, m);
    ViewBefore(h, m);
    if h[m].meta.isCreate { assert View(h, h[r].key, m - 1) == None; }
    else { PrevPositive(h, h[m].meta.prevRev, m); }
    if !h[r].meta.isCreate {
      PrecedesOne(h, h[r].meta.prevRev, m, r);
      ViewBelow(h, h[r].key, m);
    }
    RequestFailsIff(s, enc, h[r], View(h, h[r].key, m - 1));
  }

  lemma PrecedesIs(h: map<Rev, Entry>, m: Rev, r: Rev)
    requires Precedes(h, m, r)
    ensures m in h && r in h && h[m].key == h[r].key && m < r
  {
  }

  lemma PrecedesOne(h: map<Rev, Entry>, p: Rev, m: Rev, r: Rev)
    requires Precedes(h, p, r) && Precedes(h, m, r)
    ensures p == m
  {
  }

  lemma ViewBelow(h: map<Rev, Entry>, key: Key, m: Rev)
    requires m > 0
    ensures View(h, key, m - 1) != Some(m)
  {
    var revs := Upto(h, key, m - 1);
    if revs != {} { assert MaxOf(revs) in revs; }
  }

  lemma PrevPositive(h: map<Rev, Entry>, p: Rev, r: Rev)
    requires Precedes(h, p, r) && forall q: Rev :: q in h ==> q > 0
    ensures p > 0
  {
  }

  lemma RecordEffect(s: EtcdState, h: map<Rev, Entry>, enc: Bytes -> ValueOrHash, r: Rev)
    requires r in h && s.revision == r - 1 && s.keyLeases == map[] && s.leases == map[]
    requires Chosen(s, RequestOf(enc, h[r])) == RequestOf(enc, h[r]).onSuccess
    requires h[r].meta.isCreate ==> Live(h[r])
    requires !h[r].meta.isCreate ==> h[r].meta.prevRev != 0 && h[r].key in s.keyValues
    ensures After(s, RequestOf(enc, h[r])) == s.(revision := r, keyValues :=
      if Live(h[r]) then s.keyValues[h[r].key := ValueRevision(enc(h[r].value), r, 0)] else s.keyValues - {h[r].key})
  {
    var ops := RequestOf(enc, h[r]).onSuccess;
    assert ops == [ops[0]] && ops[..0] == [];
    assert OpsEffect(Progress(s, false), ops) == OpEffect(Progress(s, false), ops[0]);
  }

  // ---------------------------------------------------------------- the whole log

  /** The states the replay records, indexed by revision; a request that changes no revision adds none. */
  function States(state: EtcdState, states: seq<EtcdState>, requests: seq<TxnRequest>): seq<EtcdState>
    decreases |requests|
  {
    if requests == [] then states else
      var next := After(state, requests[0]);
      States(next, if next.revision != state.revision then states + [next] else states, requests[1..])
  }

  /** The states are indexed by their revisions; index 0 is a filler. */
  ghost predicate Indexed(states: seq<EtcdState>) {
    forall q :: 1 <= q < |states| ==> states[q].revision == q
  }

  /** Whatever the requests, failed ones included, the state recorded at an index is the one of that revision. */
  lemma {:induction false} StatesIndexed(state: EtcdState, states: seq<EtcdState>, requests: seq<TxnRequest>)
    requires |states| == state.revision + 1 && |states| >= 2 && Indexed(states)
    ensures Indexed(States(state, states, requests)) && states <= States(state, states, requests)
    decreases |requests|
  {
    hide After;
    if requests != [] {
      var next := After(state, requests[0]);
      AtMostOneRevision(state, requests[0]);
      StatesIndexed(next, if next.revision != state.revision then states + [next] else states, requests[1..]);
    }
  }

  lemma AtMostOneRevision(s: EtcdState, req: TxnRequest)
    ensures s.revision <= After(s, req).revision <= s.revision + 1
  {
    hide Leased, LastWrites, Reports, SomeChange, Stands;
    AnswerMeans(s, req);
  }

  /** Did every request of the replay have its guard hold? */
  predicate AllSucceed(state: EtcdState, requests: seq<TxnRequest>)
    decreases |requests|
  {
    requests == [] || (!Answer(state, requests[0]).failure && AllSucceed(After(state, requests[0]), requests[1..]))
  }

  /** The requests of the records from `r` on. */
  ghost function RequestsFrom(h: map<Rev, Entry>, enc: Bytes -> ValueOrHash, r: Rev, latest: Rev): seq<TxnRequest>
    requires forall q: Rev :: r <= q <= latest ==> q in h
    decreases latest - r
  {
    if r > latest then [] else [RequestOf(enc, h[r])] + RequestsFrom(h, enc, r + 1, latest)
  }

  /** The states so far are right, one for each revision below `r`. */
  ghost predicate Recorded(states: seq<EtcdState>, h: map<Rev, Entry>, enc: Bytes -> ValueOrHash, r: Rev) {
    |states| == r && forall q: Rev :: 1 <= q < r ==> Shows(states[q], h, enc, q)
  }

  lemma {:induction false} ReplayFrom(state: EtcdState, states: seq<EtcdState>, h: map<Rev, Entry>,
                                      enc: Bytes -> ValueOrHash, r: Rev, latest: Rev)
    requires Chained(h) && (forall q: Rev :: q in h <==> 2 <= q <= latest) && 2 <= r <= latest + 1
    requires Shows(state, h, enc, r - 1) && Recorded(states, h, enc, r)
    ensures var reqs := RequestsFrom(h, enc, r, latest);
      AllSucceed(state, reqs) && Recorded(States(state, states, reqs), h, enc, latest + 1)
    decreases latest - r
  {
    hide Chained, Shows, After, Answer, RequestOf;
    if r <= latest {
      RecordReplays(state, h, enc, r);
      var next := After(state, RequestOf(enc, h[r]));
      var states' := states + [next];
      forall q: Rev | 1 <= q < r + 1 ensures Shows(states'[q], h, enc, q) {}
      ReplayFrom(next, states', h, enc, r + 1, latest);
    }
  }

  /**
   * Replay refinement. In sequential-id mode, after any run of writes, the requests made from the log all succeed
   * from the fresh state, the state recorded for each revision shows exactly the driver's live view there, and the
   * events are one per record.
   */
  lemma ReplayRefines(w: World, enc: Bytes -> ValueOrHash)
    requires Sequential(w)
    ensures var reqs := RequestsFrom(w.hist, enc, 2, w.db.latest);
      && AllSucceed(FreshState(), reqs)
      && Recorded(States(FreshState(), [FreshState(), FreshState()], reqs), w.hist, enc, w.db.latest + 1)
      && AllEvents(FreshState(), reqs) == EventsFrom(w.hist, enc, 2, w.db.latest)
  {
    hide RunOk, Mirrored, Retained, Chained, UniqueUuids, CurrentOk;
    forall k: Key ensures View(w.hist, k, 1) == None { assert Upto(w.hist, k, 1) == {}; }
    ReplayFrom(FreshState(), [FreshState(), FreshState()], w.hist, enc, 2, w.db.latest);
    EventsReplay(FreshState(), w.hist, enc, 2, w.db.latest);
  }

  /** So does every run of writes from the empty store. */
  lemma RunsReplay(acts: seq<Action>, enc: Bytes -> ValueOrHash)
    requires forall a :: a in acts ==> a.Write?
    ensures Sequential(Play(Init(1), acts))
    ensures var w := Play(Init(1), acts);
      var reqs := RequestsFrom(w.hist, enc, 2, w.db.latest);
      && AllSucceed(FreshState(), reqs)
      && Recorded(States(FreshState(), [FreshState(), FreshState()], reqs), w.hist, enc, w.db.latest + 1)
      && AllEvents(FreshState(), reqs) == EventsFrom(w.hist, enc, 2, w.db.latest)
  {
    hide Inv, Play, Recorded, AllSucceed, AllEvents, States;
    SequentialInit();
    SequentialRun(Init(1), acts);
    ReplayRefines(Play(Init(1), acts), enc);
  }

  // ---------------------------------------------------------------- the events of a replay

  datatype PersistedEvent = PersistedEvent(isDelete: bool, key: Key, value: Option<ValueOrHash>, isCreate: bool,
    revision: int)

  function OpEvents(prev: EtcdState, op: Operation, result: OpResult, revision: int): seq<PersistedEvent> {
    match op
    case RangeOperation(_, _, _) => []
    case DeleteOperation(key) => if result.deleted != 0 then [PersistedEvent(true, key, None, false, revision)] else []
    case PutOperation(key, value, leaseID) =>
      if leaseID != 0 && leaseID !in prev.leases then []
      else [PersistedEvent(false, key, Some(value), key !in prev.keyValues, revision)]
  }

  function OpsEvents(prev: EtcdState, ops: seq<Operation>, results: seq<OpResult>, revision: int): seq<PersistedEvent>
    requires |results| == |ops|
  {
    if ops == [] then [] else
      OpsEvents(prev, ops[..|ops| - 1], results[..|ops| - 1], revision)
      + OpEvents(prev, ops[|ops| - 1], results[|ops| - 1], revision)
  }

  function WatchEvents(prev: EtcdState, req: TxnRequest): seq<PersistedEvent> {
    ResultPerOp(EtcdModel.Progress(prev, false), Chosen(prev, req));
    OpsEvents(prev, Chosen(prev, req), Answer(prev, req).results, Answer(prev, req).revision)
  }

  ghost predicate AnyEvent(prev: EtcdState, ops: seq<Operation>, results: seq<OpResult>, revision: int)
    requires |results| == |ops|
  {
    exists i :: 0 <= i < |ops| && OpEvents(prev, ops[i], results[i], revision) != []
  }

  lemma AnyEventStep(prev: EtcdState, ops: seq<Operation>, results: seq<OpResult>, revision: int)
    requires |results| == |ops| && ops != []
    ensures var n := |ops| - 1;
      AnyEvent(prev, ops, results, revision) <==>
        AnyEvent(prev, ops[..n], results[..n], revision) || OpEvents(prev, ops[n], results[n], revision) != []
  {
    hide OpEvents;
    var n := |ops| - 1;
    if i :| 0 <= i < n && OpEvents(prev, ops[i], results[i], revision) != [] {
      assert ops[..n][i] == ops[i] && results[..n][i] == results[i];
    }
  }

  lemma {:induction false} SomeEvent(prev: EtcdState, ops: seq<Operation>, results: seq<OpResult>, revision: int)
    requires |results| == |ops|
    ensures OpsEvents(prev, ops, results, revision) != [] <==> AnyEvent(prev, ops, results, revision)
    ensures forall e :: e in OpsEvents(prev, ops, results, revision) ==> e.revision == revision
    decreases |ops|
  {
    hide OpEvents, AnyEvent;
    if ops == [] {
      NoneAtAll(prev, revision);
    } else {
      var n := |ops| - 1;
      SomeEvent(prev, ops[..n], results[..n], revision);
      EventsHave(prev, ops[n], results[n], revision);
      AnyEventStep(prev, ops, results, revision);
    }
  }

  lemma NoneAtAll(prev: EtcdState, revision: int)
    ensures !AnyEvent(prev, [], [], revision)
  {
  }

  lemma EventsHave(prev: EtcdState, op: Operation, result: OpResult, revision: int)
    ensures forall e :: e in OpEvents(prev, op, result, revision) ==> e.revision == revision
  {
  }

  /** An operation gives rise to an event exactly if it changes the state it finds. */
  lemma EventIffChange(prev: EtcdState, ops: seq<Operation>, i: nat, revision: int)
    requires i < |ops|
    ensures var p := EtcdModel.Progress(prev, false);
      && |OpsResults(p, ops)| == |ops|
      && (OpEvents(prev, ops[i], OpsResults(p, ops)[i], revision) != [] <==>
            Changes(OpsEffect(p, ops[..i]).state, ops[i]))
  {
    hide OpEffect, OpResultOf, Selected, LastWrites;
    var p := EtcdModel.Progress(prev, false);
    ResultPerOp(p, ops);
    OpsReport(p, ops, i);
    LastWriterWins(p, ops[..i], []);
    if ops[i].PutOperation? {
      assert ops[i].leaseID in prev.leases.Keys <==> ops[i].leaseID in OpsEffect(p, ops[..i]).state.leases.Keys;
    }
  }

  /** A request gives rise to events exactly if it raises the revision, and they carry the revision it raises it to. */
  lemma EventsIffWritten(prev: EtcdState, req: TxnRequest)
    ensures WatchEvents(prev, req) != [] <==> After(prev, req).revision == prev.revision + 1
    ensures WatchEvents(prev, req) == [] <==> After(prev, req).revision == prev.revision
    ensures forall e :: e in WatchEvents(prev, req) ==> e.revision == After(prev, req).revision
  {
    hide OpEvents, OpResultOf, OpEffect, Changes, Leased, LastWrites, Reports, Stands, Meets, OpsEvents, OpsResults;
    var p, ops := EtcdModel.Progress(prev, false), Chosen(prev, req);
    AnswerMeans(prev, req);
    ResultPerOp(p, ops);
    var results, rev := Answer(prev, req).results, After(prev, req).revision;
    SomeEvent(prev, ops, results, rev);
    forall i | 0 <= i < |ops|
      ensures OpEvents(prev, ops[i], results[i], rev) != [] <==> Changes(OpsEffect(p, ops[..i]).state, ops[i])
    {
      EventIffChange(prev, ops, i, rev);
    }
  }

  /** The event a record must give rise to. */
  function EventFor(enc: Bytes -> ValueOrHash, r: Rev, e: Entry): PersistedEvent {
    PersistedEvent(e.meta.isDelete, e.key, if e.meta.isDelete then None else Some(enc(e.value)), e.meta.isCreate, r)
  }

  /** Replaying a record gives exactly one event, and it says what the record says. */
  lemma RecordEvent(s: EtcdState, h: map<Rev, Entry>, enc: Bytes -> ValueOrHash, r: Rev)
    requires Chained(h) && r in h && r > 1 && (forall q: Rev :: q in h ==> q > 0) && Shows(s, h, enc, r - 1)
    ensures WatchEvents(s, RequestOf(enc, h[r])) == [EventFor(enc, r, h[r])]
  {
    hide View, Chained, Precedes, Answer, After, Chosen;
    ViewBefore(h, r);
    RecordGuard(s, h, enc, r);
    RecordReplays(s, h, enc, r);
    OneEvent(s, RequestOf(enc, h[r]), r);
  }

  /** A request with one operation, whose guard holds and which raises the revision to `r`. */
  lemma OneEvent(s: EtcdState, req: TxnRequest, r: int)
    requires |req.onSuccess| == 1 && Chosen(s, req) == req.onSuccess && After(s, req).revision == r
    ensures WatchEvents(s, req)
         == OpEvents(s, req.onSuccess[0], OpResultOf(EtcdModel.Progress(s, false), req.onSuccess[0]), r)
  {
    hide OpEvents, OpResultOf, OpEffect;
    var p, ops := EtcdModel.Progress(s, false), req.onSuccess;
    assert ops[..0] == [] && ops == ops[..1];
    OpsStep(p, ops, 0);
    var results := OpsResults(p, ops);
    assert results == [OpResultOf(p, ops[0])];
    OpsEventsStep(s, ops, results, r, 0);
    assert results[..0] == [] && results[..1] == results;
  }

  lemma OpsEventsStep(prev: EtcdState, ops: seq<Operation>, results: seq<OpResult>, revision: int, i: nat)
    requires |results| == |ops| && i < |ops|
    ensures OpsEvents(prev, ops[..i + 1], results[..i + 1], revision)
         == OpsEvents(prev, ops[..i], results[..i], revision) + OpEvents(prev, ops[i], results[i], revision)
  {
    assert ops[..i + 1][..i] == ops[..i] && results[..i + 1][..i] == results[..i];
  }

  function AllEvents(state: EtcdState, requests: seq<TxnRequest>): seq<PersistedEvent>
    decreases |requests|
  {
    if requests == [] then [] else WatchEvents(state, requests[0]) + AllEvents(After(state, requests[0]), requests[1..])
  }

  ghost function EventsFrom(h: map<Rev, Entry>, enc: Bytes -> ValueOrHash, r: Rev, latest: Rev): seq<PersistedEvent>
    requires forall q: Rev :: r <= q <= latest ==> q in h
    decreases latest - r
  {
    if r > latest then [] else [EventFor(enc, r, h[r])] + EventsFrom(h, enc, r + 1, latest)
  }

  lemma {:induction false} EventsReplay(state: EtcdState, h: map<Rev, Entry>,
                                        enc: Bytes -> ValueOrHash, r: Rev, latest: Rev)
    requires Chained(h) && (forall q: Rev :: q in h <==> 2 <= q <= latest) && 2 <= r <= latest + 1
    requires Shows(state, h, enc, r - 1)
    ensures AllEvents(state, RequestsFrom(h, enc, r, latest)) == EventsFrom(h, enc, r, latest)
    decreases latest - r
  {
    hide Chained, Shows, After, Answer, RequestOf, WatchEvents, EventFor;
    if r <= latest {
      RecordReplays(state, h, enc, r);
      RecordEvent(state, h, enc, r);
      EventsReplay(After(state, RequestOf(enc, h[r])), h, enc, r + 1, latest);
    }
  }

  // ---------------------------------------------------------------- what the driver shows

  /** The driver's own pinned read answers from the same view. */
  lemma ListShowsView(w: World, sel: Reads.Selection, at: Rev, k: Key, r: Rev)
    requires StoreOk(w) && 0 < at <= w.db.latest && Reads.In(sel, k)
    ensures Reads.Winner(w.db, sel, at, Pos(k, r)) <==> View(w.db.log, k, at) == Some(r)
  {
    hide Retained, Chained, UniqueUuids, CurrentOk, Faithful, Reads.In;
    var log := w.db.log;
    forall q: Rev ensures q in Upto(log, k, at) <==> Pos(k, q) in w.db.index && Reads.Seen(w.db, at, q) {
      assert q in log && log[q].key == k ==> Pos(k, q) in w.db.index;
    }
    if Reads.Winner(w.db, sel, at, Pos(k, r)) {
      assert r in Upto(log, k, at);
      ViewIs(log, k, at, r);
    }
    if View(log, k, at) == Some(r) {
      forall q: Pos | q in w.db.index && q.key == k && Reads.Seen(w.db, at, q.n) ensures q.n <= r {
        assert q == Pos(k, q.n);
      }
    }
  }
}
