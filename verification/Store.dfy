/**
 * The database contents one transaction sees, and what a committed transaction does to them: the log by
 * revision, the index by (key, revision), the current-value rows, the read version and the compaction
 * watermark. Transactions are strictly serializable, so each is a function of the contents it starts from.
 */
module Store {
  import opened Types
  import opened Chunks

  /** What both indices store about a record. Revision 0 stands for the dummy versionstamp. */
  datatype Meta = Meta(isCreate: bool, isDelete: bool, lease: int, createRev: Rev, prevRev: Rev, valueSize: nat)

  /** A record of the log by revision. */
  datatype Entry = Entry(key: Key, meta: Meta, value: Bytes)

  /** A record of the index by (key, revision); only the index stores the write UUID. */
  datatype IndexEntry = IndexEntry(meta: Meta, uuid: nat)

  /**
   * `latest` is the read version. It never falls, and the next write gets a revision above it: exactly the
   * next one in sequential-id mode, some later one in versionstamp mode (the World's Tick makes the gap).
   */
  datatype Db = Db(log: map<Rev, Entry>, index: map<Pos, IndexEntry>, current: Rows, latest: Rev, watermark: Rev)

  datatype Last = Last(rev: Rev, entry: IndexEntry)

  predicate Live(e: Entry) {
    !e.meta.isDelete
  }

  /** The create revision of the incarnation that the record at `rev` belongs to. */
  function CreateRevision(rev: Rev, meta: Meta): Rev {
    if meta.isCreate then rev else meta.createRev
  }

  /** The newest index entry of a key: a reverse range read of one row. */
  function GetLast(db: Db, key: Key): (r: Option<Last>)
    ensures r.None? <==> forall n: nat :: Pos(key, n) !in db.index
    ensures r.Some? ==> Pos(key, r.value.rev) in db.index && r.value.entry == db.index[Pos(key, r.value.rev)]
    ensures r.Some? ==> forall n: nat :: Pos(key, n) in db.index ==> n <= r.value.rev
  {
    var revs := set p | p in db.index && p.key == key :: p.n;
    assert forall n: nat :: Pos(key, n) in db.index ==> n in revs;
    if revs == {} then None else Some(Last(MaxOf(revs), db.index[Pos(key, MaxOf(revs))]))
  }

  lemma GetLastIs(db: Db, key: Key, rev: Rev)
    requires Pos(key, rev) in db.index && forall n: nat :: Pos(key, n) in db.index ==> n <= rev
    ensures GetLast(db, key) == Some(Last(rev, db.index[Pos(key, rev)]))
  {
  }

  // ---------------------------------------------------------------- guarded writes

  datatype Op =
    | CreateOp(key: Key, value: Bytes, lease: int)
    | UpdateOp(key: Key, value: Bytes, revision: Rev, lease: int)
    | DeleteOp(key: Key, revision: Rev)

  /** A record to append, and the size of the value it replaces in the current-value rows. */
  datatype Appending = Appending(entry: Entry, prevSize: nat)

  /** The record one attempt of a write appends, if its guard holds. */
  function Decide(db: Db, op: Op): Option<Appending> {
    var last := GetLast(db, op.key);
    match op
    case CreateOp(key, value, lease) =>
      if last.None? then
        Some(Appending(Entry(key, Meta(true, false, lease, 0, 0, |value|), value), 0))
      else if last.value.entry.meta.isDelete then
        Some(Appending(Entry(key, Meta(true, false, lease, 0, last.value.rev, |value|), value), 0))
      else
        None
    case UpdateOp(key, value, revision, lease) =>
      if last.None? || last.value.entry.meta.isDelete || last.value.rev != revision then
        None
      else
        var meta := last.value.entry.meta;
        Some(Appending(
          Entry(key, Meta(false, false, lease, CreateRevision(last.value.rev, meta), last.value.rev, |value|), value),
          meta.valueSize))
    case DeleteOp(key, revision) =>
      if last.None? || last.value.rev !in db.log || last.value.entry.meta.isDelete
         || (revision != 0 && last.value.rev != revision) then
        None
      else
        var record := db.log[last.value.rev];
        Some(Appending(
          Entry(key, Meta(false, true, record.meta.lease, CreateRevision(last.value.rev, last.value.entry.meta),
                          last.value.rev, record.meta.valueSize), record.value),
          0))
  }

  /** One transaction writes the log, the index and the current-value rows together. */
  function Append(db: Db, a: Appending, uuid: nat): Db {
    var rev := db.latest + 1;
    Db(db.log[rev := a.entry],
       db.index[Pos(a.entry.key, rev) := IndexEntry(a.entry.meta, uuid)],
       CurrentAfter(db.current, a),
       rev,
       db.watermark)
  }

  function CurrentAfter(rows: Rows, a: Appending): Rows {
    if a.entry.meta.isDelete then Cleared(rows, a.entry.key)
    else Replaced(rows, a.entry.key, a.entry.value, a.prevSize)
  }

  // ---------------------------------------------------------------- compaction

  /** Does compaction remove the record at `rev` when it scans it? */
  predicate Removes(db: Db, rev: Rev)
    requires rev in db.log
  {
    var last := GetLast(db, db.log[rev].key);
    last.None? || last.value.rev != rev || db.log[rev].meta.isDelete
  }

  function CompactOne(db: Db, rev: Rev): Db
    requires rev in db.log
  {
    if Removes(db, rev) then db.(log := db.log - {rev}, index := db.index - {Pos(db.log[rev].key, rev)}) else db
  }

  function Pending(db: Db, cursor: Rev, end: Rev): set<Rev> {
    set r | r in db.log && cursor < r <= end
  }

  datatype Scanned = Scanned(db: Db, cursor: Rev)

  /** At most `budget` records after `cursor` and up to `end`, in revision order. */
  function CompactScan(db: Db, cursor: Rev, end: Rev, budget: nat): Scanned
    decreases budget
  {
    var pending := Pending(db, cursor, end);
    if budget == 0 || pending == {} then Scanned(db, cursor)
    else CompactScan(CompactOne(db, MinOf(pending)), MinOf(pending), end, budget - 1)
  }

  /** A committed compaction batch: the scan, then the watermark at the last scanned record, if any. */
  function CompactBatch(db: Db, cursor: Rev, end: Rev, budget: nat): Scanned {
    var s := CompactScan(db, cursor, end, budget);
    if s.cursor == cursor then s else Scanned(s.db.(watermark := s.cursor), s.cursor)
  }
}
