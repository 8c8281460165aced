/** The reference model: an etcd with transactions guarded by revisions, as the robustness suite replays them. */
module EtcdModel {
  import opened Types

  /** A value as the suite compares it: itself, or a hash if it is long. */
  datatype ValueOrHash = ValueOrHash(value: Bytes, hash: nat)

  datatype ValueRevision = ValueRevision(value: ValueOrHash, modRevision: int, version: int)

  datatype EtcdState = EtcdState(
    revision: int, compactRevision: int, keyValues: map<Key, ValueRevision>, keyLeases: map<Key, int>,
    leases: map<int, set<Key>>)

  datatype Condition = Condition(key: Key, expectedRevision: int, expectedVersion: int)

  datatype Operation =
    | RangeOperation(start: Key, end: Key, limit: nat)
    | PutOperation(key: Key, value: ValueOrHash, leaseID: int)
    | DeleteOperation(key: Key)

  datatype TxnRequest = TxnRequest(conditions: seq<Condition>, onSuccess: seq<Operation>, onFailure: seq<Operation>)

  datatype KeyAndValue = KeyAndValue(key: Key, value: ValueRevision)

  datatype OpResult = OpResult(kvs: seq<KeyAndValue>, count: nat, deleted: nat)

  datatype TxnResponse = TxnResponse(failure: bool, results: seq<OpResult>, revision: int)

  const NO_VALUE := ValueRevision(ValueOrHash([], 0), 0, 0)

  function FreshState(): EtcdState {
    EtcdState(1, -1, map[], map[], map[])
  }

  // ---------------------------------------------------------------- operations

  /** What a key reads as; a missing key reads as the zero value. */
  function Lookup(s: EtcdState, key: Key): ValueRevision {
    if key in s.keyValues then s.keyValues[key] else NO_VALUE
  }

  predicate Meets(s: EtcdState, c: Condition) {
    if c.expectedVersion > 0 then Lookup(s, c.key).version == c.expectedVersion
    else Lookup(s, c.key).modRevision == c.expectedRevision
  }

  function KvsOf(s: EtcdState, keys: seq<Key>): seq<KeyAndValue> {
    if keys == [] then [] else [KeyAndValue(keys[0], Lookup(s, keys[0]))] + KvsOf(s, keys[1..])
  }

  function KeysIn(s: EtcdState, start: Key, end: Key): seq<Pos> {
    SortPos(set k | k in s.keyValues && !Less(k, start) && Less(k, end) :: Pos(k, 0))
  }

  function KeysOf(ps: seq<Pos>): seq<Key> {
    if ps == [] then [] else [ps[0].key] + KeysOf(ps[1..])
  }

  function GetRange(s: EtcdState, start: Key, end: Key, limit: nat): OpResult {
    if end != [] then
      var kvs := KvsOf(s, KeysOf(KeysIn(s, start, end)));
      OpResult(if limit != 0 && |kvs| > limit then kvs[..limit] else kvs, |kvs|, 0)
    else if start in s.keyValues then
      OpResult([KeyAndValue(start, s.keyValues[start])], 1, 0)
    else
      OpResult([], 0, 0)
  }

  function Detached(s: EtcdState, key: Key): EtcdState {
    if key !in s.keyLeases then s else
      var lease := s.keyLeases[key];
      s.(leases := if lease in s.leases then s.leases[lease := s.leases[lease] - {key}] else s.leases,
         keyLeases := s.keyLeases - {key})
  }

  function Attached(s: EtcdState, leaseID: int, key: Key): EtcdState
    requires leaseID in s.leases
  {
    s.(keyLeases := s.keyLeases[key := leaseID], leases := s.leases[leaseID := s.leases[leaseID] + {key}])
  }

  /** The state inside a transaction and whether it has written. */
  datatype Progress = Progress(state: EtcdState, wrote: bool)

  function OpEffect(p: Progress, op: Operation): Progress {
    var s := p.state;
    match op
    case RangeOperation(_, _, _) => p
    case PutOperation(key, value, leaseID) =>
      if leaseID != 0 && leaseID !in s.leases then p else
        var s1 := Detached(s.(keyValues := s.keyValues[key := ValueRevision(value, s.revision + 1, 0)]), key);
        Progress(if leaseID in s1.leases then Attached(s1, leaseID, key) else s1, true)
    case DeleteOperation(key) =>
      if key !in s.keyValues then p else Progress(Detached(s.(keyValues := s.keyValues - {key}), key), true)
  }

  function OpResultOf(p: Progress, op: Operation): OpResult {
    match op
    case RangeOperation(start, end, limit) => GetRange(p.state, start, end, limit)
    case PutOperation(_, _, _) => OpResult([], 0, 0)
    case DeleteOperation(key) => OpResult([], 0, if key in p.state.keyValues then 1 else 0)
  }

  function OpsEffect(p: Progress, ops: seq<Operation>): Progress {
    if ops == [] then p else OpEffect(OpsEffect(p, ops[..|ops| - 1]), ops[|ops| - 1])
  }

  function OpsResults(p: Progress, ops: seq<Operation>): seq<OpResult> {
    if ops == [] then [] else
      OpsResults(p, ops[..|ops| - 1]) + [OpResultOf(OpsEffect(p, ops[..|ops| - 1]), ops[|ops| - 1])]
  }

  function Chosen(s: EtcdState, req: TxnRequest): seq<Operation> {
    if forall i :: 0 <= i < |req.conditions| ==> Meets(s, req.conditions[i]) then req.onSuccess else req.onFailure
  }

  /** A transaction as a function: all conditions or none, the operations in order, one revision for all of them. */
  function After(s: EtcdState, req: TxnRequest): EtcdState {
    var p := OpsEffect(Progress(s, false), Chosen(s, req));
    if p.wrote then p.state.(revision := p.state.revision + 1) else p.state
  }

  function Answer(s: EtcdState, req: TxnRequest): TxnResponse {
    TxnResponse(!forall i :: 0 <= i < |req.conditions| ==> Meets(s, req.conditions[i]),
                OpsResults(Progress(s, false), Chosen(s, req)), After(s, req).revision)
  }

  lemma OpsStep(p: Progress, ops: seq<Operation>, i: nat)
    requires i < |ops|
    ensures OpsEffect(p, ops[..i + 1]) == OpEffect(OpsEffect(p, ops[..i]), ops[i])
    ensures OpsResults(p, ops[..i + 1]) == OpsResults(p, ops[..i]) + [OpResultOf(OpsEffect(p, ops[..i]), ops[i])]
  {
    assert ops[..i + 1][..i] == ops[..i];
  }

  // ---------------------------------------------------------------- what a transaction means

  /** What a condition asks of the state: a version, a revision, or that the key is absent. */
  ghost predicate Stands(s: EtcdState, c: Condition) {
    if c.expectedVersion > 0 then c.key in s.keyValues && s.keyValues[c.key].version == c.expectedVersion
    else if c.key in s.keyValues then s.keyValues[c.key].modRevision == c.expectedRevision
    else c.expectedRevision == 0
  }

  /** The operation writes the key, unless it is a put under a lease that does not exist. */
  predicate Touches(s: EtcdState, op: Operation, key: Key) {
    (op.PutOperation? && op.key == key && (op.leaseID == 0 || op.leaseID in s.leases))
    || (op.DeleteOperation? && op.key == key)
  }

  /** What an operation that writes the key leaves there: the value at the next revision and its lease, or nothing. */
  ghost predicate Leaves(s: EtcdState, op: Operation, key: Key, s': EtcdState) {
    && (key in s'.keyValues <==> op.PutOperation?)
    && (op.PutOperation? ==>
          && s'.keyValues[key] == ValueRevision(op.value, s.revision + 1, 0)
          && (key in s'.keyLeases <==> op.leaseID in s.leases)
          && (key in s'.keyLeases ==> s'.keyLeases[key] == op.leaseID))
  }

  ghost predicate SameAt(s: EtcdState, s': EtcdState, key: Key) {
    && (key in s'.keyValues <==> key in s.keyValues)
    && (key in s'.keyLeases <==> key in s.keyLeases)
    && (key in s.keyValues ==> s'.keyValues[key] == s.keyValues[key])
    && (key in s.keyLeases ==> s'.keyLeases[key] == s.keyLeases[key])
  }

  /** Operations create and remove no leases and leave the revision to the end of the transaction. */
  ghost predicate SameFrame(s: EtcdState, s': EtcdState) {
    s'.leases.Keys == s.leases.Keys && s'.revision == s.revision && s'.compactRevision == s.compactRevision
  }

  lemma OpWrites(p: Progress, op: Operation, key: Key)
    ensures var s, s' := p.state, OpEffect(p, op).state;
      SameFrame(s, s') && if Touches(s, op, key) then Leaves(s, op, key, s') else SameAt(s, s', key)
  {
  }

  lemma FramedAlike(s: EtcdState, s': EtcdState, op: Operation, key: Key)
    requires SameFrame(s, s')
    ensures Touches(s, op, key) <==> Touches(s', op, key)
    ensures forall t: EtcdState :: Leaves(s', op, key, t) <==> Leaves(s, op, key, t)
  {
    if op.PutOperation? { assert op.leaseID in s.leases.Keys <==> op.leaseID in s'.leases.Keys; }
  }

  /** No operation writes the key, or the last one that does decides what becomes of it. */
  ghost predicate LastWrites(s: EtcdState, ops: seq<Operation>, key: Key, s': EtcdState) {
    && ((forall i :: 0 <= i < |ops| ==> !Touches(s, ops[i], key)) ==> SameAt(s, s', key))
    && (forall j ::
          0 <= j < |ops| && Touches(s, ops[j], key) && (forall i :: j < i < |ops| ==> !Touches(s, ops[i], key)) ==>
            Leaves(s, ops[j], key, s'))
  }

  lemma {:induction false} LastWriterWins(p: Progress, ops: seq<Operation>, key: Key)
    ensures SameFrame(p.state, OpsEffect(p, ops).state)
    ensures LastWrites(p.state, ops, key, OpsEffect(p, ops).state)
    decreases |ops|
  {
    hide OpEffect, Touches, Leaves, SameAt;
    if ops == [] {
      SameAsItself(p.state, key);
    } else {
      var n := |ops| - 1;
      var mid := OpsEffect(p, ops[..n]);
      LastWriterWins(p, ops[..n], key);
      OpWrites(mid, ops[n], key);
      FramedAlike(p.state, mid.state, ops[n], key);
      if !Touches(p.state, ops[n], key) {
        forall j | 0 <= j < n && Leaves(p.state, ops[j], key, mid.state)
          ensures Leaves(p.state, ops[j], key, OpsEffect(p, ops).state)
        {
          LeavesAlike(p.state, ops[j], key, mid.state, OpsEffect(p, ops).state);
        }
        if SameAt(p.state, mid.state, key) { SameTwice(p.state, mid.state, OpsEffect(p, ops).state, key); }
        assert forall i :: 0 <= i < n ==> ops[..n][i] == ops[i];
      }
    }
  }

  lemma SameAsItself(s: EtcdState, key: Key)
    ensures SameAt(s, s, key)
  {
  }

  lemma SameTwice(s: EtcdState, s1: EtcdState, s2: EtcdState, key: Key)
    requires SameAt(s, s1, key) && SameAt(s1, s2, key)
    ensures SameAt(s, s2, key)
  {
  }

  lemma LeavesAlike(s: EtcdState, op: Operation, key: Key, s1: EtcdState, s2: EtcdState)
    requires Leaves(s, op, key, s1) && SameAt(s1, s2, key)
    ensures Leaves(s, op, key, s2)
  {
  }

  /** One of the operations changes the state it finds. */
  ghost predicate SomeChange(p: Progress, ops: seq<Operation>) {
    exists i :: 0 <= i < |ops| && Changes(OpsEffect(p, ops[..i]).state, ops[i])
  }

  lemma SomeChangeStep(p: Progress, ops: seq<Operation>)
    requires ops != []
    ensures var n := |ops| - 1;
      SomeChange(p, ops) <==> SomeChange(p, ops[..n]) || Changes(OpsEffect(p, ops[..n]).state, ops[n])
  {
    hide OpsEffect, Changes;
    var n := |ops| - 1;
    var init := ops[..n];
    if i :| 0 <= i < |init| && Changes(OpsEffect(p, init[..i]).state, init[i]) {
      assert init[..i] == ops[..i] && init[i] == ops[i];
    }
    if i :| 0 <= i < n && Changes(OpsEffect(p, ops[..i]).state, ops[i]) {
      assert init[..i] == ops[..i] && init[i] == ops[i];
    }
  }

  /** A transaction writes exactly if one of its puts goes through or one of its deletes finds its key. */
  lemma {:induction false} WroteIff(p: Progress, ops: seq<Operation>)
    requires !p.wrote
    ensures OpsEffect(p, ops).wrote <==> SomeChange(p, ops)
    decreases |ops|
  {
    hide OpEffect, Changes, SomeChange;
    if ops == [] {
      NoChange(p);
    } else {
      var n := |ops| - 1;
      WroteIff(p, ops[..n]);
      WritesIfChanges(OpsEffect(p, ops[..n]), ops[n]);
      SomeChangeStep(p, ops);
    }
  }

  lemma NoChange(p: Progress)
    ensures !SomeChange(p, [])
  {
  }

  /** A put whose lease exists, or a delete that finds its key. */
  ghost predicate Changes(s: EtcdState, op: Operation) {
    match op
    case RangeOperation(_, _, _) => false
    case PutOperation(_, _, leaseID) => leaseID == 0 || leaseID in s.leases
    case DeleteOperation(key) => key in s.keyValues
  }

  lemma WritesIfChanges(p: Progress, op: Operation)
    ensures OpEffect(p, op).wrote <==> p.wrote || Changes(p.state, op)
  {
  }

  /** What an operation answers of the state it found. */
  ghost predicate Reports(s: EtcdState, op: Operation, r: OpResult) {
    match op
    case RangeOperation(start, end, limit) =>
      if end != [] then r.deleted == 0 && Selected(s, start, end, limit, r)
      else if start in s.keyValues then r == OpResult([KeyAndValue(start, s.keyValues[start])], 1, 0)
      else r == OpResult([], 0, 0)
    case PutOperation(_, _, _) => r == OpResult([], 0, 0)
    case DeleteOperation(key) => r == OpResult([], 0, if key in s.keyValues then 1 else 0)
  }

  /** The operations carried out: what they answer, what becomes of each key, and one revision for all of them. */
  ghost predicate Executes(s: EtcdState, ops: seq<Operation>, s': EtcdState, response: TxnResponse) {
    var p := Progress(s, false);
    && |response.results| == |ops|
    && (forall i :: 0 <= i < |ops| ==> Reports(OpsEffect(p, ops[..i]).state, ops[i], response.results[i]))
    && (forall k: Key :: LastWrites(s, ops, k, s'))
    && s'.leases.Keys == s.leases.Keys && s'.compactRevision == s.compactRevision
    && (Leased(s) ==> Leased(s'))
    && response.revision == s'.revision
    && s'.revision == s.revision + if SomeChange(p, ops) then 1 else 0
  }

  /** A lease knows its keys and a key its lease, and only keys with a value have one. */
  ghost predicate Leased(s: EtcdState) {
    && (forall k :: k in s.keyLeases ==>
          k in s.keyValues && s.keyLeases[k] in s.leases && k in s.leases[s.keyLeases[k]])
    && (forall l, k :: l in s.leases && k in s.leases[l] ==> k in s.keyLeases && s.keyLeases[k] == l)
  }

  lemma {:induction false} OpsKeepLeases(p: Progress, ops: seq<Operation>)
    requires Leased(p.state)
    ensures Leased(OpsEffect(p, ops).state)
    decreases |ops|
  {
    if ops != [] {
      OpsKeepLeases(p, ops[..|ops| - 1]);
      OpKeepsLeases(OpsEffect(p, ops[..|ops| - 1]), ops[|ops| - 1]);
    }
  }

  lemma OpKeepsLeases(p: Progress, op: Operation)
    requires Leased(p.state)
    ensures Leased(OpEffect(p, op).state)
  {
  }

  /** The transaction as it is carried out: a copy of the state, the conditions one by one, then the operations. */
  method StepTxn(s: EtcdState, req: TxnRequest) returns (newState: EtcdState, response: TxnResponse)
    ensures newState == After(s, req) && response == Answer(s, req)
    ensures !response.failure <==> forall i :: 0 <= i < |req.conditions| ==> Stands(s, req.conditions[i])
    ensures Executes(s, if response.failure then req.onFailure else req.onSuccess, newState, response)
  {
    hide OpEffect, OpResultOf, Meets, Stands, Executes;
    newState := s;
    var failure := false;
    var i := 0;
    while i < |req.conditions|
      invariant i <= |req.conditions|
      invariant forall k :: 0 <= k < i ==> Meets(s, req.conditions[k])
    {
      var cond := req.conditions[i];
      if !Meets(newState, cond) {
        failure := true;
        break;
      }
      i := i + 1;
    }
    var operations := if failure then req.onFailure else req.onSuccess;
    var results: seq<OpResult> := [];
    var increaseRevision := false;
    ghost var from := Progress(s, false);
    for j := 0 to |operations|
      invariant Progress(newState, increaseRevision) == OpsEffect(from, operations[..j])
      invariant results == OpsResults(from, operations[..j])
    {
      OpsStep(from, operations, j);
      var result;
      newState, increaseRevision, result := StepOperation(newState, increaseRevision, operations[j]);
      results := results + [result];
    }
    assert operations[..|operations|] == operations;
    if increaseRevision { newState := newState.(revision := newState.revision + 1); }
    response := TxnResponse(failure, results, newState.revision);
    AnswerMeans(s, req);
  }

  lemma AnswerMeans(s: EtcdState, req: TxnRequest)
    ensures !Answer(s, req).failure <==> forall i :: 0 <= i < |req.conditions| ==> Stands(s, req.conditions[i])
    ensures Executes(s, if Answer(s, req).failure then req.onFailure else req.onSuccess, After(s, req), Answer(s, req))
  {
    hide OpEffect, OpResultOf, Leased, LastWrites, SomeChange, Meets, Stands, Reports;
    var p, ops := Progress(s, false), Chosen(s, req);
    forall i | 0 <= i < |req.conditions|
      ensures Meets(s, req.conditions[i]) <==> Stands(s, req.conditions[i])
    {
      MeetsIsStands(s, req.conditions[i]);
    }
    LastWriterWins(p, ops, []);
    WroteIff(p, ops);
    ResultPerOp(p, ops);
    forall i | 0 <= i < |ops|
      ensures Reports(OpsEffect(p, ops[..i]).state, ops[i], OpsResults(p, ops)[i])
    {
      OpsReport(p, ops, i);
    }
    var s1 := OpsEffect(p, ops).state;
    if Leased(s) {
      OpsKeepLeases(p, ops);
      LeasedAlike(s1, After(s, req));
    }
    forall k: Key
      ensures LastWrites(s, ops, k, After(s, req))
    {
      LastWriterWins(p, ops, k);
      LastWritesAlike(s, ops, k, s1, After(s, req));
    }
  }

  lemma LeasedAlike(s: EtcdState, s': EtcdState)
    requires Leased(s) && s' == s.(revision := s'.revision)
    ensures Leased(s')
  {
  }

  lemma LastWritesAlike(s: EtcdState, ops: seq<Operation>, key: Key, s1: EtcdState, s2: EtcdState)
    requires LastWrites(s, ops, key, s1) && s2.keyValues == s1.keyValues && s2.keyLeases == s1.keyLeases
    ensures LastWrites(s, ops, key, s2)
  {
  }

  lemma MeetsIsStands(s: EtcdState, c: Condition)
    ensures Meets(s, c) <==> Stands(s, c)
  {
  }

  lemma {:induction false} ResultPerOp(p: Progress, ops: seq<Operation>)
    ensures |OpsResults(p, ops)| == |ops|
    decreases |ops|
  {
    hide OpResultOf;
    if ops != [] { ResultPerOp(p, ops[..|ops| - 1]); }
  }

  lemma {:induction false} OpsReport(p: Progress, ops: seq<Operation>, i: nat)
    requires i < |ops|
    ensures i < |OpsResults(p, ops)| && Reports(OpsEffect(p, ops[..i]).state, ops[i], OpsResults(p, ops)[i])
    decreases |ops|
  {
    hide OpEffect, OpResultOf, Reports;
    var n := |ops| - 1;
    ResultPerOp(p, ops[..n]);
    if i < n {
      OpsReport(p, ops[..n], i);
      assert ops[..n][..i] == ops[..i];
    } else {
      OpReports(OpsEffect(p, ops[..n]), ops[n]);
    }
  }

  lemma OpReports(p: Progress, op: Operation)
    ensures Reports(p.state, op, OpResultOf(p, op))
  {
    hide Selected;
    if op.RangeOperation? && op.end != [] { RangeSelects(p.state, op.start, op.end, op.limit); }
  }

  // ---------------------------------------------------------------- ranges

  /** The keys of a range, in order, with the values they have: all of them, or the first `limit`. */
  ghost predicate Selected(s: EtcdState, start: Key, end: Key, limit: nat, r: OpResult) {
    var keys := RangeKeys(s, start, end);
    && r.count == |keys| && |r.kvs| == (if limit != 0 && |keys| > limit then limit else |keys|)
    && (forall i :: 0 <= i < |r.kvs| ==>
          r.kvs[i].key in keys && r.kvs[i].value == s.keyValues[r.kvs[i].key])
    && (forall i, j :: 0 <= i < j < |r.kvs| ==> Less(r.kvs[i].key, r.kvs[j].key))
    && (forall i, k :: 0 <= i < |r.kvs| && k in keys && Less(k, r.kvs[i].key) ==>
          exists j :: 0 <= j < i && r.kvs[j].key == k)
  }

  ghost function Placed(keys: set<Key>): set<Pos> {
    set k | k in keys :: Pos(k, 0)
  }

  lemma {:induction false} PlacedSize(keys: set<Key>)
    ensures |Placed(keys)| == |keys|
    decreases |keys|
  {
    if k :| k in keys {
      PlacedSize(keys - {k});
      assert Placed(keys) == Placed(keys - {k}) + {Pos(k, 0)} && Pos(k, 0) !in Placed(keys - {k});
    }
  }

  lemma {:induction false} KvsAt(s: EtcdState, ps: seq<Pos>)
    ensures |KvsOf(s, KeysOf(ps))| == |ps|
    ensures forall i :: 0 <= i < |ps| ==> KvsOf(s, KeysOf(ps))[i] == KeyAndValue(ps[i].key, Lookup(s, ps[i].key))
    decreases |ps|
  {
    if ps != [] {
      KvsAt(s, ps[1..]);
      assert KeysOf(ps) == [ps[0].key] + KeysOf(ps[1..]) && KeysOf(ps)[1..] == KeysOf(ps[1..]);
      assert forall i :: 1 <= i < |ps| ==> ps[i] == ps[1..][i - 1];
    }
  }

  ghost function RangeKeys(s: EtcdState, start: Key, end: Key): set<Key> {
    set k | k in s.keyValues && !Less(k, start) && Less(k, end)
  }

  /** The positions of a range are its keys in order. */
  ghost predicate Ordered(ps: seq<Pos>, keys: set<Key>) {
    && |ps| == |keys| && (forall i :: 0 <= i < |ps| ==> ps[i].key in keys)
    && (forall k :: k in keys ==> Pos(k, 0) in ps)
    && (forall i, j :: 0 <= i < j < |ps| ==> Less(ps[i].key, ps[j].key))
  }

  lemma RangeOrdered(s: EtcdState, start: Key, end: Key)
    ensures Ordered(KeysIn(s, start, end), RangeKeys(s, start, end))
  {
    hide Less, SortPos, Ordered;
    assert Placed(RangeKeys(s, start, end)) == set k | k in s.keyValues && !Less(k, start) && Less(k, end) :: Pos(k, 0);
    PlacedOrdered(RangeKeys(s, start, end));
  }

  lemma PlacedOrdered(keys: set<Key>)
    ensures Ordered(SortPos(Placed(keys)), keys)
  {
    hide Less;
    var ps := SortPos(Placed(keys));
    PlacedSize(keys);
    forall i | 0 <= i < |ps| ensures ps[i].key in keys && ps[i].n == 0 { assert ps[i] in ps; }
    forall k | k in keys ensures Pos(k, 0) in ps { assert Pos(k, 0) in Placed(keys); }
    forall i, j | 0 <= i < j < |ps| ensures Less(ps[i].key, ps[j].key) { assert Before(ps[i], ps[j]); }
  }

  lemma RangeSelects(s: EtcdState, start: Key, end: Key, limit: nat)
    requires end != []
    ensures Selected(s, start, end, limit, GetRange(s, start, end, limit))
  {
    hide Less, KvsOf, KeysOf, KeysIn, Ordered, RangeKeys;
    var keys, ps := RangeKeys(s, start, end), KeysIn(s, start, end);
    var r := GetRange(s, start, end, limit);
    RangeOrdered(s, start, end);
    KvsAt(s, ps);
    OrderedSelects(s, start, end, limit, ps, r);
  }

  lemma OrderedSelects(s: EtcdState, start: Key, end: Key, limit: nat, ps: seq<Pos>, r: OpResult)
    requires Ordered(ps, RangeKeys(s, start, end))
    requires r.count == |ps| && |r.kvs| == if limit != 0 && |ps| > limit then limit else |ps|
    requires forall i :: 0 <= i < |r.kvs| ==> r.kvs[i] == KeyAndValue(ps[i].key, Lookup(s, ps[i].key))
    ensures Selected(s, start, end, limit, r)
  {
    hide Less;
    var keys := RangeKeys(s, start, end);
    forall i, k | 0 <= i < |r.kvs| && k in keys && Less(k, r.kvs[i].key)
      ensures exists j :: 0 <= j < i && r.kvs[j].key == k
    {
      assert Pos(k, 0) in ps;
      var j :| 0 <= j < |ps| && ps[j] == Pos(k, 0);
      if i <= j {
        LessOrder();
        assert false;
      }
      assert r.kvs[j].key == k;
    }
  }

  method StepOperation(s: EtcdState, wrote: bool, op: Operation)
    returns (newState: EtcdState, increaseRevision: bool, result: OpResult)
    ensures Progress(newState, increaseRevision) == OpEffect(Progress(s, wrote), op)
    ensures result == OpResultOf(Progress(s, wrote), op)
  {
    newState, increaseRevision, result := s, wrote, OpResult([], 0, 0);
    match op {
      case RangeOperation(start, end, limit) =>
        result := GetRange(newState, start, end, limit);
      case PutOperation(key, value, leaseID) =>
        var leaseExists := leaseID in newState.leases;
        if leaseID == 0 || leaseExists {
          newState := newState.(keyValues := newState.keyValues[key := ValueRevision(value, newState.revision + 1, 0)]);
          increaseRevision := true;
          newState := Detached(newState, key);
          if leaseExists { newState := Attached(newState, leaseID, key); }
        }
      case DeleteOperation(key) =>
        if key in newState.keyValues {
          newState := newState.(keyValues := newState.keyValues - {key});
          increaseRevision := true;
          newState := Detached(newState, key);
          result := result.(deleted := 1);
        }
    }
  }
}
