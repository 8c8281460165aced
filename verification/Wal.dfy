/** The log read back as a whole, turned into requests and replayed: the path the robustness suite takes. */
module Wal {
  import opened Types
  import opened Store
  import opened World
  import opened RevisionLog
  import opened EtcdModel
  import opened Replay
  import opened Polling
  import Reads
  import Collectors

  class WalCollector {
    var batchEvents: seq<RevEntry>
    var records: seq<RevEntry>

    constructor ()
      ensures batchEvents == [] && records == []
    {
      batchEvents, records := [], [];
    }

    method StartBatch()
      modifies this
      ensures batchEvents == [] && records == old(records)
    {
      batchEvents := [];
    }

    method Next(r: RevEntry)
      modifies this
      ensures batchEvents == old(batchEvents) + [r] && records == old(records)
    {
      batchEvents := batchEvents + [r];
    }

    method PostBatch()
      modifies this
      ensures records == old(records) + old(batchEvents)
    {
      records := records + batchEvents;
    }
  }

  lemma RecordsMore(log: map<Rev, Entry>, revs: seq<Rev>, r: Rev)
    requires AllIn(log, revs) && r in log
    ensures AllIn(log, revs + [r]) && RecordsOf(log, revs + [r]) == RecordsOf(log, revs) + [RevEntry(r, log[r])]
  {
  }

  /** One transaction of the scan: records after `after` until they end or time is up. */
  method WalBatch(c: WalCollector, log: map<Rev, Entry>, after: Rev, extra: nat)
    returns (last: Rev, more: bool, ghost taken: seq<Rev>)
    modifies c
    ensures AllIn(log, Asc(Later(log, after))) && AllIn(log, taken)
    ensures AfterScan(taken, last, more) == ScanAfter(log, [], after, Asc(Later(log, after)), extra, 0, 0, None, 0)
    ensures c.batchEvents == RecordsOf(log, taken) && c.records == old(c.records)
  {
    hide Asc, Later, AllIn, ScanAfter, RecordsOf;
    c.StartBatch();
    var revs := Asc(Later(log, after));
    LaterIn(log, after);
    last, more, taken := after, true, [];
    var left, i := revs, 0;
    EventsNone(log);
    ghost var goal := ScanAfter(log, [], after, revs, extra, 0, 0, None, 0);
    while more
      invariant AllIn(log, left) && AllIn(log, taken) && c.batchEvents == RecordsOf(log, taken)
      invariant c.records == old(c.records)
      invariant more ==> i <= extra
      invariant more ==> goal == ScanAfter(log, taken, last, left, extra - i, 0, 0, None, 0)
      invariant !more ==> goal == AfterScan(taken, last, false)
      decreases |left|, more
    {
      ScanAfterStep(log, taken, last, left, extra - i, 0, 0, None, 0);
      if left == [] {
        more := false;
      } else {
        var r := left[0];
        c.Next(RevEntry(r, log[r]));
        RecordsMore(log, taken, r);
        taken := Took(log, None, taken, r);
        last, left, i := r, left[1..], i + 1;
        if i > extra { break; }
      }
    }
  }

  /** What has been read is the log up to `after`. */
  ghost predicate ReadUpTo(log: map<Rev, Entry>, after: Rev, records: seq<RevEntry>) {
    var revs := Asc(TakenIn(log, None, 0, after));
    AllIn(log, revs) && records == RecordsOf(log, revs)
  }

  lemma ReadMore(log: map<Rev, Entry>, after: Rev, last: Rev, taken: seq<Rev>, records: seq<RevEntry>)
    requires ReadUpTo(log, after, records) && after <= last && AllIn(log, taken)
    requires taken == Asc(TakenIn(log, None, after, last))
    ensures ReadUpTo(log, last, records + RecordsOf(log, taken))
  {
    hide Asc, RecordsOf, AllIn;
    var a, b := TakenIn(log, None, 0, after), TakenIn(log, None, after, last);
    assert a + b == TakenIn(log, None, 0, last);
    AscSplit(a, b);
    RecordsJoin(log, Asc(a), taken);
  }

  lemma RecordsJoin(log: map<Rev, Entry>, a: seq<Rev>, b: seq<Rev>)
    requires AllIn(log, a) && AllIn(log, b)
    ensures AllIn(log, a + b) && RecordsOf(log, a + b) == RecordsOf(log, a) + RecordsOf(log, b)
  {
  }

  lemma ReadStays(db: Db, db': Db, after: Rev, records: seq<RevEntry>)
    requires Reads.Extends(db, db') && Mirrored(db') && after <= db.latest && ReadUpTo(db.log, after, records)
    requires forall r: Rev :: r in db'.log && r !in db.log ==> r > db.latest
    ensures ReadUpTo(db'.log, after, records)
  {
    hide Asc;
    assert TakenIn(db'.log, None, 0, after) == TakenIn(db.log, None, 0, after);
  }

  lemma ExtendsLog(db: Db, db': Db)
    requires Reads.Extends(db, db') && Mirrored(db) && Mirrored(db')
    ensures forall r: Rev :: r in db'.log && r !in db.log ==> r > db.latest
  {
    forall r: Rev | r in db'.log && r !in db.log ensures r > db.latest {
      assert Pos(db'.log[r].key, r) in db'.index;
    }
  }

  /**
   * Reading the log, split anywhere and with writers in between: the result is the whole log as the last batch found
   * it, every record with its value, in revision order.
   */
  method ReadWal(start: World, plan: seq<Collectors.Turn>) returns (w: World, records: seq<RevEntry>)
    requires Inv(start) && Collectors.NoCompaction(plan)
    ensures Inv(w) && Reads.Extends(start.db, w.db)
    ensures ReadUpTo(w.db.log, w.db.latest, records)
    ensures Sequential(start) && WritesOnly(plan) ==> Sequential(w)
  {
    hide Inv, Reads.Extends, ReadUpTo, Sequential, Play, ScanAfter;
    var c := new WalCollector();
    w := start;
    var after: Rev, more, i := 0, true, 0;
    Reads.ExtendsReflexive(start.db);
    NothingRead(start.db.log);
    while more
      invariant i <= |plan| + 1 && (i > |plan| ==> !more)
      invariant Inv(w) && Reads.Extends(start.db, w.db) && after <= w.db.latest && ReadUpTo(w.db.log, after, c.records)
      invariant !more ==> Later(w.db.log, after) == {}
      invariant Sequential(start) && WritesOnly(plan) ==> Sequential(w)
      decreases |plan| + 1 - i
    {
      var others := if i < |plan| then plan[i].others else [];
      Moved(start, w, others, after, c.records);
      if Sequential(start) && WritesOnly(plan) { SequentialRun(w, others); }
      w := Play(w, others);
      var revs := Asc(Later(w.db.log, after));
      var extra := if i < |plan| then plan[i].extra else |revs|;
      var last, m;
      ghost var taken;
      last, m, taken := WalBatch(c, w.db.log, after, extra);
      if i == |plan| || plan[i].ending.Complete? {
        BatchRead(w, after, extra, taken, last, m, c.records);
        c.PostBatch();
        after, more := last, m;
      }
      i := i + 1;
    }
    records := c.records;
    ReadAll(w.db.log, after, w.db.latest, records);
  }

  ghost predicate WritesOnly(plan: seq<Collectors.Turn>) {
    forall i, a :: 0 <= i < |plan| && a in plan[i].others ==> a.Write?
  }

  lemma NothingRead(log: map<Rev, Entry>)
    ensures ReadUpTo(log, 0, [])
  {
    NothingTaken(log, None, 0, 0);
  }

  /** Writers between two batches change nothing that has been read. */
  lemma Moved(start: World, w: World, others: seq<Action>, after: Rev, records: seq<RevEntry>)
    requires Inv(w) && Reads.Extends(start.db, w.db) && after <= w.db.latest && ReadUpTo(w.db.log, after, records)
    requires forall a :: a in others ==> Reads.Gentle(a)
    ensures var w' := Play(w, others);
      Inv(w') && Reads.Extends(start.db, w'.db) && after <= w'.db.latest && ReadUpTo(w'.db.log, after, records)
  {
    hide StoreOk, RunOk, Mirrored, Play, ReadUpTo;
    var w' := Play(w, others);
    Reads.GentleRun(w, others);
    Reads.StoreBounded(w);
    Reads.StoreBounded(w');
    Reads.ExtendsTransitive(start.db, w.db, w'.db);
    ExtendsLog(w.db, w'.db);
    ReadStays(w.db, w'.db, after, records);
  }

  lemma BatchRead(w: World, after: Rev, extra: nat, taken: seq<Rev>, last: Rev, more: bool, records: seq<RevEntry>)
    requires Inv(w) && after <= w.db.latest && ReadUpTo(w.db.log, after, records)
    requires AllIn(w.db.log, Asc(Later(w.db.log, after))) && AllIn(w.db.log, taken)
    requires AfterScan(taken, last, more)
          == ScanAfter(w.db.log, [], after, Asc(Later(w.db.log, after)), extra, 0, 0, None, 0)
    ensures ReadUpTo(w.db.log, last, records + RecordsOf(w.db.log, taken)) && last <= w.db.latest
    ensures !more ==> Later(w.db.log, last) == {}
    ensures extra >= |Asc(Later(w.db.log, after))| ==> !more
  {
    hide StoreOk, RunOk, ReadUpTo, ScanAfter, Asc, Later, TakenIn;
    ScanAfterExact(w.db.log, [], after, extra, 0, 0, None, 0);
    assert [] + Asc(TakenIn(w.db.log, None, after, last)) == taken;
    Reads.StoreBounded(w);
    ReadMore(w.db.log, after, last, taken, records);
    if extra >= |Asc(Later(w.db.log, after))| {
      WholeScanEnds(w.db.log, [], after, Asc(Later(w.db.log, after)), extra);
    }
  }

  lemma {:induction false} WholeScanEnds(log: map<Rev, Entry>, taken: seq<Rev>, last: Rev, revs: seq<Rev>, extra: nat)
    requires AllIn(log, revs) && extra >= |revs|
    ensures !ScanAfter(log, taken, last, revs, extra, 0, 0, None, 0).more
    decreases |revs|
  {
    ScanAfterStep(log, taken, last, revs, extra, 0, 0, None, 0);
    if revs != [] { WholeScanEnds(log, Took(log, None, taken, revs[0]), revs[0], revs[1..], extra - 1); }
  }

  lemma ReadAll(log: map<Rev, Entry>, after: Rev, latest: Rev, records: seq<RevEntry>)
    requires ReadUpTo(log, after, records) && after <= latest && Later(log, after) == {}
    ensures ReadUpTo(log, latest, records)
  {
    hide Asc;
    forall r: Rev ensures r in TakenIn(log, None, 0, after) <==> r in TakenIn(log, None, 0, latest) {
      assert r in log && r > after ==> r in Later(log, after);
    }
    assert TakenIn(log, None, 0, after) == TakenIn(log, None, 0, latest);
  }

  // ---------------------------------------------------------------- requests and replay

  /** The records' requests, in order. */
  method WalToRequests(records: seq<RevEntry>, enc: Bytes -> ValueOrHash) returns (requests: seq<TxnRequest>)
    ensures |requests| == |records|
    ensures forall i :: 0 <= i < |records| ==> requests[i] == RequestOf(enc, records[i].entry)
  {
    requests := [];
    for i := 0 to |records|
      invariant |requests| == i && forall k :: 0 <= k < i ==> requests[k] == RequestOf(enc, records[k].entry)
    {
      var e := records[i].entry;
      var req;
      if e.meta.isCreate {
        req := CreateRequest(e.key, enc(e.value));
      } else if e.meta.isDelete {
        req := DeleteRequest(e.key, e.meta.prevRev);
      } else {
        req := UpdateRequest(e.key, enc(e.value), e.meta.prevRev);
      }
      requests := requests + [req];
    }
  }

  datatype EtcdReplay = EtcdReplay(revisionToEtcdState: seq<EtcdState>, events: seq<PersistedEvent>)

  function StateForRevision(replay: EtcdReplay, revision: nat): Option<EtcdState> {
    if revision >= |replay.revisionToEtcdState| then None else Some(replay.revisionToEtcdState[revision])
  }

  /** The events of one request. */
  method ToWatchEvents(prev: EtcdState, req: TxnRequest, response: TxnResponse) returns (events: seq<PersistedEvent>)
    requires response == Answer(prev, req)
    ensures events == WatchEvents(prev, req)
  {
    hide OpEvents, Answer, OpsEvents;
    ghost var p := EtcdModel.Progress(prev, false);
    ResultPerOp(p, Chosen(prev, req));
    AnswerFields(prev, req);
    var ops := if response.failure then req.onFailure else req.onSuccess;
    events := [];
    NoEvents(prev, response.revision);
    for i := 0 to |ops|
      invariant events == OpsEvents(prev, ops[..i], response.results[..i], response.revision)
    {
      OpsEventsStep(prev, ops, response.results, response.revision, i);
      var more := OperationEvents(prev, ops[i], response.results[i], response.revision);
      events := events + more;
    }
    assert ops[..|ops|] == ops && response.results[..|ops|] == response.results;
  }

  lemma NoEvents(prev: EtcdState, revision: int)
    ensures OpsEvents(prev, [], [], revision) == []
  {
  }

  lemma AnswerFields(s: EtcdState, req: TxnRequest)
    ensures Answer(s, req).results == OpsResults(EtcdModel.Progress(s, false), Chosen(s, req))
    ensures Chosen(s, req) == if Answer(s, req).failure then req.onFailure else req.onSuccess
  {
  }

  method OperationEvents(prev: EtcdState, op: Operation, result: OpResult, revision: int)
    returns (events: seq<PersistedEvent>)
    ensures events == OpEvents(prev, op, result, revision)
  {
    events := [];
    match op {
      case RangeOperation(_, _, _) =>
      case DeleteOperation(key) =>
        if result.deleted != 0 { events := [PersistedEvent(true, key, None, false, revision)]; }
      case PutOperation(key, value, leaseID) =>
        if leaseID == 0 || leaseID in prev.leases {
          var e := PersistedEvent(false, key, Some(value), false, revision);
          if key !in prev.keyValues { e := e.(isCreate := true); }
          events := [e];
        }
    }
  }

  method NewReplay(requests: seq<TxnRequest>) returns (replay: EtcdReplay)
    ensures replay.revisionToEtcdState == States(FreshState(), [FreshState(), FreshState()], requests)
    ensures replay.events == AllEvents(FreshState(), requests)
    ensures Indexed(replay.revisionToEtcdState)
  {
    hide After, Answer, WatchEvents, Executes, Stands;
    StatesIndexed(FreshState(), [FreshState(), FreshState()], requests);
    var state := FreshState();
    var states := [state, state];
    var events := [];
    for i := 0 to |requests|
      invariant States(FreshState(), [FreshState(), FreshState()], requests) == States(state, states, requests[i..])
      invariant AllEvents(FreshState(), requests) == events + AllEvents(state, requests[i..])
    {
      assert requests[i..][0] == requests[i] && requests[i..][1..] == requests[i + 1..];
      var newState, response := StepTxn(state, requests[i]);
      if state.revision != newState.revision { states := states + [newState]; }
      var more := ToWatchEvents(state, requests[i], response);
      events := events + more;
      state := newState;
    }
    replay := EtcdReplay(states, events);
  }

  /**
   * The whole path, end to end: read the driver's log while writers are at work, turn it into requests, replay them.
   * The replay then knows a state for every revision up to the last batch's and no further, each of them the
   * driver's own live view, and it has one event per record.
   */
  method ReplayDriver(start: World, plan: seq<Collectors.Turn>, enc: Bytes -> ValueOrHash)
    returns (w: World, replay: EtcdReplay)
    requires Sequential(start) && Collectors.NoCompaction(plan) && WritesOnly(plan)
    ensures Sequential(w) && Reads.Extends(start.db, w.db)
    ensures forall r: nat :: r > w.db.latest ==> StateForRevision(replay, r) == None
    ensures forall r: nat :: 1 <= r <= w.db.latest ==>
      StateForRevision(replay, r).Some? && Shows(StateForRevision(replay, r).value, w.hist, enc, r)
    ensures replay.events == EventsFrom(w.hist, enc, 2, w.db.latest)
  {
    hide Inv, Reads.Extends, ReadUpTo, States, AllEvents, Shows, RequestsFrom, EventsFrom;
    var records, requests;
    w, records := ReadWal(start, plan);
    requests := WalToRequests(records, enc);
    RequestsAre(w, records, enc, requests);
    ReplayRefines(w, enc);
    replay := NewReplay(requests);
  }

  lemma RequestsAre(w: World, records: seq<RevEntry>, enc: Bytes -> ValueOrHash, requests: seq<TxnRequest>)
    requires Sequential(w) && ReadUpTo(w.db.log, w.db.latest, records) && |requests| == |records|
    requires forall i :: 0 <= i < |records| ==> requests[i] == RequestOf(enc, records[i].entry)
    ensures requests == RequestsFrom(w.hist, enc, 2, w.db.latest)
  {
    hide Inv, RequestOf, Asc;
    var revs := Asc(TakenIn(w.db.log, None, 0, w.db.latest));
    var expected := seq(if w.db.latest >= 2 then w.db.latest - 1 else 0, i => i + 2);
    forall r: nat ensures r in revs <==> r in expected {
      if 2 <= r <= w.db.latest { assert expected[r - 2] == r; }
    }
    IncreasingUnique(revs, expected);
    RequestsListed(w.hist, enc, 2, w.db.latest);
  }

  lemma {:induction false} RequestsListed(h: map<Rev, Entry>, enc: Bytes -> ValueOrHash, r: Rev, latest: Rev)
    requires forall q: Rev :: r <= q <= latest ==> q in h
    ensures var reqs := RequestsFrom(h, enc, r, latest);
      && |reqs| == (if r > latest then 0 else latest - r + 1)
      && forall i :: 0 <= i < |reqs| ==> r + i in h && reqs[i] == RequestOf(enc, h[r + i])
    decreases latest - r
  {
    hide RequestOf;
    if r <= latest { RequestsListed(h, enc, r + 1, latest); }
  }
}
