/**
 * The ingestion worker of the contract-based node revision. Its cache is a
 * LevelDB table keyed by integers: heights hold the runtime's items and key
 * -1 holds the worker's head, written as decimal text and read back with
 * `parseInt`. Values are shown as text.
 */
module LevelWorker {
  import opened Common
  import Decimal

  /** The key under which the worker keeps the next height to fetch. */
  const HeadKey: int := -1

  /** One operation of a LevelDB batch. */
  datatype BatchOp = Put(key: int, value: string) | Del(key: int)

  /** The table after applying the operations in order. */
  function ApplyOps(entries: map<int, string>, ops: seq<BatchOp>): map<int, string> {
    if ops == [] then entries
    else
      var before := ApplyOps(entries, ops[..|ops| - 1]);
      match ops[|ops| - 1]
      case Put(k, v) => before[k := v]
      case Del(k) => before - {k}
  }

  /** The stored head, when present, reads back as a number. */
  predicate HeadReadable(entries: map<int, string>) {
    HeadKey in entries ==> Decimal.ParseInt(entries[HeadKey]).Some?
  }

  /** `workerHeight`: the stored head, or the pool's height when key -1 is absent. */
  function WorkerHeight(entries: map<int, string>, poolHeight: int): int
    requires HeadReadable(entries)
  {
    if HeadKey in entries then Decimal.ParseInt(entries[HeadKey]).value else poolHeight
  }

  class LevelCache {
    var entries: map<int, string>

    /** Opens the table with what is already on disk. */
    constructor (onDisk: map<int, string>)
      ensures entries == onDisk
    {
      entries := onDisk;
    }

    /** `db.get(key)`; `None` is the rejected read of a missing key. */
    method Get(key: int) returns (r: Option<string>)
      ensures key in entries ==> r == Some(entries[key])
      ensures key !in entries ==> r == None
    {
      r := if key in entries then Some(entries[key]) else None;
    }

    /** `db.batch(ops)`: all operations take effect together. */
    method Batch(ops: seq<BatchOp>)
      modifies this
      ensures entries == ApplyOps(old(entries), ops)
    {
      entries := ApplyOps(entries, ops);
    }

    /** `db.clear({lt})` read over integers: every key below `lt` is removed. */
    method ClearBelow(lt: int)
      modifies this
      ensures entries == ClearBelowEntries(old(entries), lt)
    {
      entries := ClearBelowEntries(entries, lt);
    }

    /** The eviction the round evidently intends: heights below `lt` are removed and the worker's head is kept. */
    method ClearFinalized(lt: int)
      modifies this
      ensures entries == ClearFinalizedEntries(old(entries), lt)
    {
      entries := ClearFinalizedEntries(entries, lt);
    }
  }

  function ClearBelowEntries(entries: map<int, string>, lt: int): map<int, string> {
    map k | k in entries && k >= lt :: entries[k]
  }

  function ClearFinalizedEntries(entries: map<int, string>, lt: int): (r: map<int, string>)
    ensures forall k :: k in r <==> k in entries && (k == HeadKey || k >= lt)
    ensures forall k :: k in r ==> r[k] == entries[k]
  {
    map k | k in entries && (k == HeadKey || k >= lt) :: entries[k]
  }

  /** The batch the worker writes: the runtime's operations, then the new head. */
  function WorkerBatch(workerHeight: int, ops: seq<BatchOp>): seq<BatchOp> {
    ops + [Put(HeadKey, Decimal.Show(workerHeight + |ops|))]
  }

  /** The table after one worker iteration that fetched a batch (`None` when the fetch threw). */
  function Worked(entries: map<int, string>, poolHeight: int, requestWorkerBatch: int -> Option<seq<BatchOp>>): map<int, string>
    requires HeadReadable(entries)
  {
    var workerHeight := WorkerHeight(entries, poolHeight);
    match requestWorkerBatch(workerHeight)
    case None => entries
    case Some(ops) => ApplyOps(entries, WorkerBatch(workerHeight, ops))
  }

  /**
   * One iteration of `worker()`: when the used disk space exceeds the budget
   * nothing is fetched or written; otherwise the batch for the current head
   * and the advanced head are written in one atomic batch, and a failed fetch
   * writes nothing.
   */
  method WorkerStep(db: LevelCache, poolHeight: int, usedDiskSpace: int, diskSpace: int,
                    requestWorkerBatch: int -> Option<seq<BatchOp>>)
    returns (workerHeight: Option<int>)
    requires HeadReadable(db.entries)
    modifies db
    ensures usedDiskSpace > diskSpace ==> workerHeight.None? && db.entries == old(db.entries)
    ensures usedDiskSpace <= diskSpace ==> workerHeight == Some(WorkerHeight(old(db.entries), poolHeight))
    ensures usedDiskSpace <= diskSpace ==> db.entries == Worked(old(db.entries), poolHeight, requestWorkerBatch)
    ensures HeadReadable(db.entries)
  {
    if usedDiskSpace > diskSpace {
      return None;
    }
    var stored := db.Get(HeadKey);
    var height := if stored.Some? then Decimal.ParseInt(stored.value).value else poolHeight;
    workerHeight := Some(height);
    var ops := requestWorkerBatch(height);
    if ops.Some? {
      db.Batch(WorkerBatch(height, ops.value));
      WorkedHead(old(db.entries), poolHeight, requestWorkerBatch);
    }
  }

  /** After a fetched batch, the head reads back as the old head plus the number of operations. */
  lemma WorkedHead(entries: map<int, string>, poolHeight: int, requestWorkerBatch: int -> Option<seq<BatchOp>>)
    requires HeadReadable(entries)
    ensures HeadReadable(Worked(entries, poolHeight, requestWorkerBatch))
    ensures var h := WorkerHeight(entries, poolHeight);
      requestWorkerBatch(h).Some? ==>
        WorkerHeight(Worked(entries, poolHeight, requestWorkerBatch), poolHeight) == h + |requestWorkerBatch(h).value|
  {
    var h := WorkerHeight(entries, poolHeight);
    if requestWorkerBatch(h).Some? {
      var ops := requestWorkerBatch(h).value;
      var batch := WorkerBatch(h, ops);
      assert batch[..|batch| - 1] == ops;
      Decimal.ParseShow(h + |ops|);
    }
  }

  /** The runtime's operations store items at consecutive heights from `from`. */
  predicate ConsecutivePuts(ops: seq<BatchOp>, from: int) {
    forall i :: 0 <= i < |ops| ==> ops[i].Put? && ops[i].key == from + i && ops[i].key != HeadKey
  }

  lemma {:induction false} ApplyPutsLookup(entries: map<int, string>, ops: seq<BatchOp>, from: int, k: int)
    requires ConsecutivePuts(ops, from)
    ensures k in ApplyOps(entries, ops) <==> k in entries || from <= k < from + |ops|
    ensures from <= k < from + |ops| ==> ApplyOps(entries, ops)[k] == ops[k - from].value
    ensures k in entries && !(from <= k < from + |ops|) ==> ApplyOps(entries, ops)[k] == entries[k]
  {
    if ops != [] {
      var prefix := ops[..|ops| - 1];
      assert ConsecutivePuts(prefix, from);
      ApplyPutsLookup(entries, prefix, from, k);
    }
  }

  /** Every height from `tail` up to the head is stored. */
  predicate StoredUpToHead(entries: map<int, string>, tail: int, poolHeight: int)
    requires HeadReadable(entries)
  {
    forall k :: tail <= k < WorkerHeight(entries, poolHeight) ==> k in entries
  }

  /**
   * When the runtime stores each item under its own height, starting at the
   * head, a worker iteration keeps every height below the head stored: the head
   * never moves past a height that was not written.
   */
  lemma WorkerKeepsHeightsBelowHead(entries: map<int, string>, tail: int, poolHeight: int,
                                    requestWorkerBatch: int -> Option<seq<BatchOp>>)
    requires HeadReadable(entries) && StoredUpToHead(entries, tail, poolHeight)
    requires var h := WorkerHeight(entries, poolHeight);
      requestWorkerBatch(h).Some? ==> ConsecutivePuts(requestWorkerBatch(h).value, h)
    ensures HeadReadable(Worked(entries, poolHeight, requestWorkerBatch))
    ensures StoredUpToHead(Worked(entries, poolHeight, requestWorkerBatch), tail, poolHeight)
  {
    WorkedHead(entries, poolHeight, requestWorkerBatch);
    var h := WorkerHeight(entries, poolHeight);
    if requestWorkerBatch(h).Some? {
      var ops := requestWorkerBatch(h).value;
      var batch := WorkerBatch(h, ops);
      var after := Worked(entries, poolHeight, requestWorkerBatch);
      assert batch[..|batch| - 1] == ops;
      assert after == ApplyOps(entries, ops)[HeadKey := Decimal.Show(h + |ops|)];
      forall k | tail <= k < WorkerHeight(after, poolHeight)
        ensures k in after
      {
        ApplyPutsLookup(entries, ops, h, k);
      }
    }
  }

  /**
   * As written, the round's eviction also removes key -1, so the next worker
   * iteration starts again from the pool's height instead of its own head.
   */
  lemma ClearBelowDropsWorkerHead(entries: map<int, string>, lt: int, poolHeight: int)
    requires HeadReadable(entries) && lt > HeadKey
    ensures HeadReadable(ClearBelowEntries(entries, lt))
    ensures HeadKey !in ClearBelowEntries(entries, lt)
    ensures WorkerHeight(ClearBelowEntries(entries, lt), poolHeight) == poolHeight
  {
  }

  /** A concrete case: a worker cached up to 120 is sent back to 110 by an eviction at 110. */
  lemma ClearBelowRestartsWorker()
    ensures var entries := map[HeadKey := "120", 110 := "item"];
      && HeadReadable(entries)
      && WorkerHeight(entries, 110) == 120
      && WorkerHeight(ClearBelowEntries(entries, 110), 110) == 110
  {
    var entries := map[HeadKey := "120", 110 := "item"];
    Decimal.ParseShow(120);
    assert Decimal.Show(120) == "120";
    assert entries[HeadKey] == "120";
  }

  /** The corrected eviction keeps the worker's head and every height at or above `lt`. */
  lemma ClearFinalizedKeepsWorkerHead(entries: map<int, string>, lt: int, poolHeight: int)
    requires HeadReadable(entries)
    ensures HeadReadable(ClearFinalizedEntries(entries, lt))
    ensures WorkerHeight(ClearFinalizedEntries(entries, lt), poolHeight) == WorkerHeight(entries, poolHeight)
  {
  }
}
