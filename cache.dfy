/**
 * The disk-bounded sequential cache of the REST-based node revision:
 * the ingestion loop `cache()` (one iteration per call), eviction of
 * finalized heights, and the two readers that turn cached heights into
 * bundles (`createBundle` for the uploader, `loadBundle` for validators).
 */
module Cache {
  import opened Common
  import opened Storage

  /** Heights attempted per ingestion iteration. */
  const BatchSize: nat := 10
  /** Byte cap of a bundle built by the uploader (20 MB). */
  const BundleDataSizeLimit: nat := 20 * 1000 * 1000
  /** Item cap of a bundle built by the uploader. */
  const BundleItemSizeLimit: nat := 10000

  /** `parseInt(await db.get(key))`, or `fallback` when the read rejects. */
  function PointerOr(files: map<string, Value>, key: Key, fallback: int): int {
    match Lookup(files, key)
    case Some(Number(n)) => n
    case _ => fallback
  }

  /** Reads a pointer from the store, falling back when its file is missing. */
  method ReadPointer(db: Database, key: Key, fallback: int) returns (h: int)
    ensures FileName(key) !in db.files ==> h == fallback
    ensures FileName(key) in db.files && db.files[FileName(key)].Number? ==> h == db.files[FileName(key)].n
    ensures h == PointerOr(db.files, key, fallback)
  {
    var stored := db.Get(key);
    match stored
    case Some(Number(n)) => h := n;
    case _ => h := fallback;
  }

  // ---------------------------------------------------------------- ingestion

  /** The store after `getDataItemAndSave(h)`: the item is written when it was fetched; a failed fetch is swallowed. */
  function SaveItem(files: map<string, Value>, h: int, item: Option<Value>): map<string, Value> {
    if item.Some? then files[FileName(Height(h)) := item.value] else files
  }

  /** The store after saving the fetched items of heights `[from, from + n)`. */
  function SaveBatch(files: map<string, Value>, from: int, n: nat, getDataItem: int -> Option<Value>): map<string, Value> {
    if n == 0 then files
    else SaveItem(SaveBatch(files, from, n - 1, getDataItem), from + n - 1, getDataItem(from + n - 1))
  }

  /** The store after one completed ingestion iteration: a batch from the head, then `head` advanced by the batch size. */
  function Ingested(files: map<string, Value>, heightArchived: int, getDataItem: int -> Option<Value>): map<string, Value> {
    var height := PointerOr(files, Head, heightArchived);
    SaveBatch(files, height, BatchSize, getDataItem)[FileName(Head) := Number(height + BatchSize)]
  }

  /** Fetches the item of one height and stores it; a failed fetch leaves the store as it was. */
  method GetDataItemAndSave(db: Database, height: int, getDataItem: int -> Option<Value>)
    modifies db
    ensures db.files == SaveItem(old(db.files), height, getDataItem(height))
  {
    var dataItem := getDataItem(height);
    if dataItem.Some? {
      db.Put(Height(height), dataItem.value);
    }
  }

  /**
   * One iteration of `cache()`: start at the stored head, or at the pool's
   * archived height when there is none; when the used disk space exceeds the
   * budget do nothing; otherwise save the items of the next `BatchSize`
   * heights and move `head` past them.
   */
  method CacheStep(db: Database, heightArchived: int, usedDiskSpace: int, space: int, getDataItem: int -> Option<Value>)
    returns (height: int)
    modifies db
    ensures height == PointerOr(old(db.files), Head, heightArchived)
    ensures usedDiskSpace > space ==> db.files == old(db.files)
    ensures usedDiskSpace <= space ==> db.files == Ingested(old(db.files), heightArchived, getDataItem)
  {
    height := ReadPointer(db, Head, heightArchived);
    if usedDiskSpace > space {
      return;
    }
    SaveBatchFrom(db, height, getDataItem);
    db.Put(Head, Number(height + BatchSize));
  }

  /** The `for` loop of `cache()`: fetch and save the heights `[height, height + BatchSize)`. */
  method SaveBatchFrom(db: Database, height: int, getDataItem: int -> Option<Value>)
    modifies db
    ensures db.files == SaveBatch(old(db.files), height, BatchSize, getDataItem)
  {
    var targetHeight := height + BatchSize;
    var h := height;
    while h < targetHeight
      invariant height <= h <= targetHeight
      invariant db.files == SaveBatch(old(db.files), height, h - height, getDataItem)
    {
      GetDataItemAndSave(db, h, getDataItem);
      h := h + 1;
    }
  }

  /** Saving a batch changes exactly the heights of the batch whose fetch succeeded. */
  lemma {:induction false} SaveBatchLookup(files: map<string, Value>, from: int, n: nat, getDataItem: int -> Option<Value>, key: Key)
    ensures Lookup(SaveBatch(files, from, n, getDataItem), key)
         == if key.Height? && from <= key.h < from + n && getDataItem(key.h).Some? then getDataItem(key.h)
            else Lookup(files, key)
  {
    if n > 0 {
      var before := SaveBatch(files, from, n - 1, getDataItem);
      SaveBatchLookup(files, from, n - 1, getDataItem, key);
      var item := getDataItem(from + n - 1);
      if item.Some? {
        LookupAfterPut(before, Height(from + n - 1), item.value, key);
      }
    }
  }

  /**
   * What an ingestion iteration leaves behind: `head` is the start height plus
   * the batch size whether or not every fetch succeeded, each height of the
   * batch holds its item when it was fetched, and every other key is untouched.
   */
  lemma IngestedLookup(files: map<string, Value>, heightArchived: int, getDataItem: int -> Option<Value>, key: Key)
    ensures var height := PointerOr(files, Head, heightArchived);
      Lookup(Ingested(files, heightArchived, getDataItem), key)
      == if key == Head then Some(Number(height + BatchSize))
         else if key.Height? && height <= key.h < height + BatchSize && getDataItem(key.h).Some? then getDataItem(key.h)
         else Lookup(files, key)
  {
    var height := PointerOr(files, Head, heightArchived);
    var saved := SaveBatch(files, height, BatchSize, getDataItem);
    LookupAfterPut(saved, Head, Number(height + BatchSize), key);
    SaveBatchLookup(files, height, BatchSize, getDataItem, key);
  }

  /** The head never regresses: every completed iteration moves it forward by exactly the batch size. */
  lemma HeadAdvances(files: map<string, Value>, heightArchived: int, getDataItem: int -> Option<Value>, fallback: int)
    ensures PointerOr(Ingested(files, heightArchived, getDataItem), Head, fallback)
         == PointerOr(files, Head, heightArchived) + BatchSize
  {
    IngestedLookup(files, heightArchived, getDataItem, Head);
  }

  // ---------------------------------------------------------------- eviction

  /** The store after deleting the heights `[lo, hi)`; deleting a missing height changes nothing. */
  function DeleteRange(files: map<string, Value>, lo: int, hi: int): map<string, Value>
    decreases hi - lo
  {
    if hi <= lo then files else DeleteRange(files, lo, hi - 1) - {FileName(Height(hi - 1))}
  }

  /** The store after `clearFinalizedData()`: heights from the tail up to the archived height are gone, and `tail` is the archived height. */
  function Evicted(files: map<string, Value>, heightArchived: int): map<string, Value> {
    var tail := PointerOr(files, Tail, heightArchived);
    DeleteRange(files, tail, heightArchived)[FileName(Tail) := Number(heightArchived)]
  }

  /** How many heights of `[lo, hi)` have no file in the store. */
  function MissingCount(files: map<string, Value>, lo: int, hi: int): nat
    decreases hi - lo
  {
    if hi <= lo then 0 else MissingCount(files, lo, hi - 1) + (if FileName(Height(hi - 1)) in files then 0 else 1)
  }

  /**
   * `clearFinalizedData()`: deletes every height in `[tail, heightArchived)`,
   * where `tail` is the stored tail or else the archived height, and then
   * records the archived height as the new tail. A delete that fails (the
   * height was never cached) is logged and the loop goes on; `failedDeletes`
   * counts them.
   */
  method ClearFinalizedData(db: Database, heightArchived: int) returns (failedDeletes: nat)
    modifies db
    ensures db.files == Evicted(old(db.files), heightArchived)
    ensures failedDeletes == MissingCount(old(db.files), PointerOr(old(db.files), Tail, heightArchived), heightArchived)
  {
    var tail := ReadPointer(db, Tail, heightArchived);
    failedDeletes := 0;
    var key := tail;
    while key < heightArchived
      invariant tail <= key
      invariant db.files == DeleteRange(old(db.files), tail, if key < heightArchived then key else heightArchived)
      invariant failedDeletes == MissingCount(old(db.files), tail, if key < heightArchived then key else heightArchived)
      decreases heightArchived - key
    {
      DeleteRangeLookup(old(db.files), tail, key, Height(key));
      var ok := db.Del(Height(key));
      if !ok {
        failedDeletes := failedDeletes + 1;
      }
      key := key + 1;
    }
    db.Put(Tail, Number(heightArchived));
  }

  lemma {:induction false} DeleteRangeLookup(files: map<string, Value>, lo: int, hi: int, key: Key)
    ensures Lookup(DeleteRange(files, lo, hi), key)
         == if key.Height? && lo <= key.h < hi then None else Lookup(files, key)
    decreases hi - lo
  {
    if lo < hi {
      DeleteRangeLookup(files, lo, hi - 1, key);
      LookupAfterDel(DeleteRange(files, lo, hi - 1), Height(hi - 1), key);
    }
  }

  /**
   * What eviction leaves behind: `tail` is the archived height, the heights
   * from the old tail up to the archived height are gone, and every other key
   * (in particular every height at or above the archived height, and `head`)
   * is untouched.
   */
  lemma EvictedLookup(files: map<string, Value>, heightArchived: int, key: Key)
    ensures var tail := PointerOr(files, Tail, heightArchived);
      Lookup(Evicted(files, heightArchived), key)
      == if key == Tail then Some(Number(heightArchived))
         else if key.Height? && tail <= key.h < heightArchived then None
         else Lookup(files, key)
  {
    var tail := PointerOr(files, Tail, heightArchived);
    LookupAfterPut(DeleteRange(files, tail, heightArchived), Tail, Number(heightArchived), key);
    DeleteRangeLookup(files, tail, heightArchived, key);
  }

  /** Evicting twice with the same archived height is the same as evicting once. */
  lemma EvictionIdempotent(files: map<string, Value>, heightArchived: int)
    ensures Evicted(Evicted(files, heightArchived), heightArchived) == Evicted(files, heightArchived)
  {
    var once := Evicted(files, heightArchived);
    EvictedLookup(files, heightArchived, Tail);
    assert PointerOr(once, Tail, heightArchived) == heightArchived;
    assert DeleteRange(once, heightArchived, heightArchived) == once;
    assert FileName(Tail) in once && once[FileName(Tail)] == Number(heightArchived);
  }

  /**
   * The two loops never disturb each other while the archived height is at or
   * below the height ingestion starts from (the head, or the archived height
   * itself before the first iteration): whichever runs first, every key reads
   * the same afterwards.
   */
  lemma IngestionAndEvictionCommute(files: map<string, Value>, heightArchived: int, getDataItem: int -> Option<Value>, key: Key)
    requires heightArchived <= PointerOr(files, Head, heightArchived)
    ensures Lookup(Evicted(Ingested(files, heightArchived, getDataItem), heightArchived), key)
         == Lookup(Ingested(Evicted(files, heightArchived), heightArchived, getDataItem), key)
  {
    var ingested := Ingested(files, heightArchived, getDataItem);
    var evicted := Evicted(files, heightArchived);
    EvictedLookup(files, heightArchived, Head);
    IngestedLookup(files, heightArchived, getDataItem, Tail);
    EvictedLookup(ingested, heightArchived, key);
    IngestedLookup(evicted, heightArchived, getDataItem, key);
    EvictedLookup(files, heightArchived, key);
    IngestedLookup(files, heightArchived, getDataItem, key);
  }

  /**
   * Nothing keeps `head` at or above the archived height: after downtime, or
   * while the disk budget stops ingestion and the pool goes on archiving,
   * eviction moves `tail` past `head`. Ingestion then writes heights below
   * `tail`, and since every later eviction starts at `tail`, none of them
   * ever deletes those files. Here a store whose head is 0 is evicted at 100,
   * ingests heights 0 to 9, and height 0 survives eviction at 200 and at any
   * archived height after it.
   */
  lemma LaggingHeadLeaksHeights()
    ensures var files := map[FileName(Head) := Number(0)];
      var getDataItem := (h: int) => Some(Record("item"));
      var leaked := Evicted(Ingested(Evicted(files, 100), 100, getDataItem), 200);
      && Lookup(files, Height(0)) == None
      && Lookup(leaked, Height(0)) == Some(Record("item"))
      && forall later :: Lookup(Evicted(leaked, later), Height(0)) == Some(Record("item"))
  {
    var files := map[FileName(Head) := Number(0)];
    var getDataItem := (h: int) => Some(Record("item"));
    var evicted := Evicted(files, 100);
    EvictedLookup(files, 100, Head);
    EvictedLookup(files, 100, Tail);
    var ingested := Ingested(evicted, 100, getDataItem);
    IngestedLookup(evicted, 100, getDataItem, Height(0));
    IngestedLookup(evicted, 100, getDataItem, Tail);
    var leaked := Evicted(ingested, 200);
    EvictedLookup(ingested, 200, Height(0));
    EvictedLookup(ingested, 200, Tail);
    forall later
      ensures Lookup(Evicted(leaked, later), Height(0)) == Some(Record("item"))
    {
      EvictedLookup(leaked, later, Height(0));
    }
  }

  /** Where ingestion resumes when it never goes below the archived height: the stored head, or the archived height when that is higher. */
  function ResumeHeight(files: map<string, Value>, heightArchived: int): (height: int)
    ensures height >= heightArchived && height >= PointerOr(files, Head, heightArchived)
    ensures height == heightArchived || height == PointerOr(files, Head, heightArchived)
  {
    var head := PointerOr(files, Head, heightArchived);
    if head < heightArchived then heightArchived else head
  }

  /** An ingestion iteration that resumes at `ResumeHeight` instead of at a head below the archived height. */
  function ResumedIngested(files: map<string, Value>, heightArchived: int, getDataItem: int -> Option<Value>): map<string, Value> {
    var height := ResumeHeight(files, heightArchived);
    SaveBatch(files, height, BatchSize, getDataItem)[FileName(Head) := Number(height + BatchSize)]
  }

  /** The same iteration as `CacheStep`, resuming at the archived height when the stored head lags behind it. */
  method ResumingCacheStep(db: Database, heightArchived: int, usedDiskSpace: int, space: int, getDataItem: int -> Option<Value>)
    returns (height: int)
    modifies db
    ensures height == ResumeHeight(old(db.files), heightArchived)
    ensures usedDiskSpace > space ==> db.files == old(db.files)
    ensures usedDiskSpace <= space ==> db.files == ResumedIngested(old(db.files), heightArchived, getDataItem)
  {
    var head := ReadPointer(db, Head, heightArchived);
    height := if head < heightArchived then heightArchived else head;
    if usedDiskSpace > space {
      return;
    }
    SaveBatchFrom(db, height, getDataItem);
    db.Put(Head, Number(height + BatchSize));
  }

  /** What a resumed iteration leaves behind: as `IngestedLookup`, from `ResumeHeight`. */
  lemma ResumedIngestedLookup(files: map<string, Value>, heightArchived: int, getDataItem: int -> Option<Value>, key: Key)
    ensures var height := ResumeHeight(files, heightArchived);
      Lookup(ResumedIngested(files, heightArchived, getDataItem), key)
      == if key == Head then Some(Number(height + BatchSize))
         else if key.Height? && height <= key.h < height + BatchSize && getDataItem(key.h).Some? then getDataItem(key.h)
         else Lookup(files, key)
  {
    var height := ResumeHeight(files, heightArchived);
    var saved := SaveBatch(files, height, BatchSize, getDataItem);
    LookupAfterPut(saved, Head, Number(height + BatchSize), key);
    SaveBatchLookup(files, height, BatchSize, getDataItem, key);
  }

  /** Where the head is not behind the archived height, resuming changes nothing. */
  lemma ResumedMatchesIngested(files: map<string, Value>, heightArchived: int, getDataItem: int -> Option<Value>)
    requires heightArchived <= PointerOr(files, Head, heightArchived)
    ensures ResumedIngested(files, heightArchived, getDataItem) == Ingested(files, heightArchived, getDataItem)
  {
  }

  /** With resumed ingestion, ingestion and eviction commute whatever the head. */
  lemma ResumedIngestionAndEvictionCommute(files: map<string, Value>, heightArchived: int, getDataItem: int -> Option<Value>, key: Key)
    ensures Lookup(Evicted(ResumedIngested(files, heightArchived, getDataItem), heightArchived), key)
         == Lookup(ResumedIngested(Evicted(files, heightArchived), heightArchived, getDataItem), key)
  {
    var ingested := ResumedIngested(files, heightArchived, getDataItem);
    var evicted := Evicted(files, heightArchived);
    EvictedLookup(files, heightArchived, Head);
    ResumedIngestedLookup(files, heightArchived, getDataItem, Tail);
    EvictedLookup(ingested, heightArchived, key);
    ResumedIngestedLookup(evicted, heightArchived, getDataItem, key);
    EvictedLookup(files, heightArchived, key);
    ResumedIngestedLookup(files, heightArchived, getDataItem, key);
  }

  /**
   * With resumed ingestion nothing leaks: a height that was not cached, and
   * that ingestion caches after an eviction, is deleted by the next eviction
   * once it is below that eviction's archived height.
   */
  lemma ResumedHeightsAreEvicted(files: map<string, Value>, archived: int, later: int, getDataItem: int -> Option<Value>, h: int)
    requires Lookup(files, Height(h)) == None && h < later
    ensures Lookup(Evicted(ResumedIngested(Evicted(files, archived), archived, getDataItem), later), Height(h)) == None
  {
    var evicted := Evicted(files, archived);
    EvictedLookup(files, archived, Height(h));
    EvictedLookup(files, archived, Tail);
    var ingested := ResumedIngested(evicted, archived, getDataItem);
    ResumedIngestedLookup(evicted, archived, getDataItem, Height(h));
    ResumedIngestedLookup(evicted, archived, getDataItem, Tail);
    EvictedLookup(ingested, later, Height(h));
  }

  // ---------------------------------------------------------------- bundles

  /** One bundle entry: a height and its cached item. */
  datatype Entry = Entry(key: int, value: Value)

  /**
   * Result of `createBundle()`. `AwaitingItem` is the state in which the
   * source sleeps and retries the same height: the next height is not cached
   * yet and fewer than `minBundleSize` items have been collected; `collected`
   * is the bundle built so far.
   */
  datatype BundleBuild =
    | Created(fromHeight: int, toHeight: int, bundle: seq<Entry>)
    | AwaitingItem(height: int, collected: seq<Entry>)

  /** Accumulated `sizeof` of the entries. */
  function SizeSum(entries: seq<Entry>, sizeOf: Entry -> nat): nat {
    if entries == [] then 0 else SizeSum(entries[..|entries| - 1], sizeOf) + sizeOf(entries[|entries| - 1])
  }

  /** The entries are the cached items of consecutive heights starting at `from`. */
  predicate ConsecutiveFrom(files: map<string, Value>, from: int, entries: seq<Entry>) {
    forall i :: 0 <= i < |entries| ==> entries[i].key == from + i && Lookup(files, Height(from + i)) == Some(entries[i].value)
  }

  lemma ConsecutiveExtend(files: map<string, Value>, from: int, entries: seq<Entry>, v: Value)
    requires ConsecutiveFrom(files, from, entries)
    requires Lookup(files, Height(from + |entries|)) == Some(v)
    ensures ConsecutiveFrom(files, from, entries + [Entry(from + |entries|, v)])
  {
  }

  lemma SizeSumAppend(entries: seq<Entry>, e: Entry, sizeOf: Entry -> nat)
    ensures SizeSum(entries + [e], sizeOf) == SizeSum(entries, sizeOf) + sizeOf(e)
  {
    assert (entries + [e])[..|entries|] == entries;
  }

  /** Why a finished bundle stops where it does: the next height is not cached (and the minimum is met), or taking it would break a cap. */
  predicate StopsAtCap(files: map<string, Value>, bundle: seq<Entry>, next: int, minBundleSize: int, sizeOf: Entry -> nat) {
    match Lookup(files, Height(next))
    case None => |bundle| >= minBundleSize
    case Some(v) =>
      |bundle| == BundleItemSizeLimit || SizeSum(bundle, sizeOf) + sizeOf(Entry(next, v)) >= BundleDataSizeLimit
  }

  /**
   * What `createBundle()` promises: a finished bundle holds the cached items of
   * consecutive heights from `toHeight`, `toHeight - fromHeight` is its
   * length, both caps hold, and it stops only at a cap or at a miss with the
   * minimum met; otherwise the build waits at the first missing height with
   * fewer than `minBundleSize` items, no cap having fired on the way.
   */
  predicate BundleBuilt(files: map<string, Value>, toHeight: int, minBundleSize: int, sizeOf: Entry -> nat, r: BundleBuild) {
    match r
    case Created(fromHeight, upTo, bundle) =>
      && fromHeight == toHeight && upTo - fromHeight == |bundle|
      && ConsecutiveFrom(files, toHeight, bundle)
      && |bundle| <= BundleItemSizeLimit && SizeSum(bundle, sizeOf) < BundleDataSizeLimit
      && StopsAtCap(files, bundle, upTo, minBundleSize, sizeOf)
    case AwaitingItem(height, collected) =>
      && height == toHeight + |collected| && |collected| < minBundleSize
      && ConsecutiveFrom(files, toHeight, collected)
      && |collected| <= BundleItemSizeLimit && SizeSum(collected, sizeOf) < BundleDataSizeLimit
      && Lookup(files, Height(height)) == None
  }

  /**
   * `createBundle()`: collects cached items from the proposal's `toHeight`
   * upwards while the accumulated size stays under the byte cap and the item
   * cap is not reached. A cache miss ends the bundle once it holds at least
   * `minBundleSize` items.
   */
  method CreateBundle(db: Database, toHeight: int, minBundleSize: int, sizeOf: Entry -> nat) returns (r: BundleBuild)
    ensures BundleBuilt(db.files, toHeight, minBundleSize, sizeOf, r)
  {
    var bundle: seq<Entry> := [];
    var currentDataSize: nat := 0;
    var h := toHeight;
    while true
      invariant h == toHeight + |bundle|
      invariant |bundle| <= BundleItemSizeLimit
      invariant ConsecutiveFrom(db.files, toHeight, bundle)
      invariant currentDataSize == SizeSum(bundle, sizeOf) < BundleDataSizeLimit
      decreases BundleItemSizeLimit - |bundle|
    {
      var dataItem := db.Get(Height(h));
      if dataItem.None? {
        if |bundle| < minBundleSize {
          return AwaitingItem(h, bundle);
        }
        return Created(toHeight, h, bundle);
      }
      var entry := Entry(h, dataItem.value);
      currentDataSize := currentDataSize + sizeOf(entry);
      if currentDataSize < BundleDataSizeLimit && |bundle| < BundleItemSizeLimit {
        SizeSumAppend(bundle, entry, sizeOf);
        ConsecutiveExtend(db.files, toHeight, bundle, dataItem.value);
        bundle := bundle + [entry];
        h := h + 1;
      } else {
        return Created(toHeight, h, bundle);
      }
    }
  }

  /** The size accumulated over a prefix never exceeds the size of the whole. */
  lemma {:induction false} SizeSumPrefix(entries: seq<Entry>, n: nat, sizeOf: Entry -> nat)
    requires n <= |entries|
    ensures SizeSum(entries[..n], sizeOf) <= SizeSum(entries, sizeOf)
  {
    if n < |entries| {
      var init := entries[..|entries| - 1];
      assert init[..n] == entries[..n];
      SizeSumPrefix(init, n, sizeOf);
    } else {
      assert entries[..n] == entries;
    }
  }

  /** Two consecutive runs from the same height agree on their common length. */
  lemma ConsecutivePrefix(files: map<string, Value>, from: int, short: seq<Entry>, long: seq<Entry>)
    requires ConsecutiveFrom(files, from, short) && ConsecutiveFrom(files, from, long)
    requires |short| <= |long|
    ensures short == long[..|short|]
  {
    forall i | 0 <= i < |short|
      ensures short[i] == long[i]
    {
      assert Lookup(files, Height(from + i)) == Some(short[i].value) == Some(long[i].value);
    }
  }

  /** A longer consecutive run names the cached item at the height right after a shorter one. */
  lemma NextCached(files: map<string, Value>, from: int, short: seq<Entry>, long: seq<Entry>)
    requires ConsecutiveFrom(files, from, short) && ConsecutiveFrom(files, from, long)
    requires |short| < |long|
    ensures long[..|short| + 1] == short + [Entry(from + |short|, long[|short|].value)]
    ensures Lookup(files, Height(from + |short|)) == Some(long[|short|].value)
  {
    var n := |short|;
    assert long[n].key == from + n && Lookup(files, Height(from + n)) == Some(long[n].value);
    ConsecutivePrefix(files, from, short, long);
    assert long[..n + 1] == long[..n] + [long[n]];
  }

  /** When a longer run than `short` fits under both caps, the height after `short` is cached and still fits. */
  lemma NextFits(files: map<string, Value>, from: int, short: seq<Entry>, long: seq<Entry>, sizeOf: Entry -> nat)
    requires ConsecutiveFrom(files, from, short) && ConsecutiveFrom(files, from, long)
    requires |short| < |long| <= BundleItemSizeLimit && SizeSum(long, sizeOf) < BundleDataSizeLimit
    ensures Lookup(files, Height(from + |short|)) == Some(long[|short|].value)
    ensures |short| < BundleItemSizeLimit
    ensures SizeSum(short, sizeOf) + sizeOf(Entry(from + |short|, long[|short|].value)) < BundleDataSizeLimit
  {
    NextCached(files, from, short, long);
    var e := Entry(from + |short|, long[|short|].value);
    SizeSumAppend(short, e, sizeOf);
    SizeSumPrefix(long, |short| + 1, sizeOf);
  }

  /** A shorter bundle than another valid outcome cannot itself be a valid outcome: it would have stopped too early. */
  lemma BundleBuiltNotShorter(files: map<string, Value>, toHeight: int, minBundleSize: int, sizeOf: Entry -> nat,
                              r1: BundleBuild, r2: BundleBuild)
    requires BundleBuilt(files, toHeight, minBundleSize, sizeOf, r1) && BundleBuilt(files, toHeight, minBundleSize, sizeOf, r2)
    ensures |BuiltSoFar(r1)| >= |BuiltSoFar(r2)|
  {
    var b1, b2 := BuiltSoFar(r1), BuiltSoFar(r2);
    if |b1| < |b2| {
      NextFits(files, toHeight, b1, b2, sizeOf);
      assert false;
    }
  }

  /** The entries a build has collected, finished or not. */
  function BuiltSoFar(r: BundleBuild): seq<Entry> {
    match r
    case Created(_, _, bundle) => bundle
    case AwaitingItem(_, collected) => collected
  }

  /**
   * What `createBundle()` promises fixes its result: for a given cache there
   * is exactly one outcome, so the model can neither wait where the source
   * builds a bundle nor build a different bundle.
   */
  lemma BundleBuiltUnique(files: map<string, Value>, toHeight: int, minBundleSize: int, sizeOf: Entry -> nat,
                          r1: BundleBuild, r2: BundleBuild)
    requires BundleBuilt(files, toHeight, minBundleSize, sizeOf, r1) && BundleBuilt(files, toHeight, minBundleSize, sizeOf, r2)
    ensures r1 == r2
  {
    BundleBuiltNotShorter(files, toHeight, minBundleSize, sizeOf, r1, r2);
    BundleBuiltNotShorter(files, toHeight, minBundleSize, sizeOf, r2, r1);
    var b1, b2 := BuiltSoFar(r1), BuiltSoFar(r2);
    ConsecutivePrefix(files, toHeight, b1, b2);
  }

  /**
   * Result of `loadBundle()`. `Missing` is the state in which the source
   * sleeps and retries the same height: it never skips a height.
   */
  datatype BundleLoad = Loaded(items: seq<Bytes>) | Missing(height: int)

  /**
   * `loadBundle()`: the encoded cached items of `[fromHeight, toHeight)` in
   * increasing height order, or the first height that is not cached.
   */
  method LoadBundle(db: Database, fromHeight: int, toHeight: int, encode: Value -> Bytes) returns (r: BundleLoad)
    ensures r.Loaded? <==> forall h :: fromHeight <= h < toHeight ==> Lookup(db.files, Height(h)).Some?
    ensures r.Loaded? ==>
      && |r.items| == (if fromHeight < toHeight then toHeight - fromHeight else 0)
      && forall i :: 0 <= i < |r.items| ==>
           Lookup(db.files, Height(fromHeight + i)).Some? && r.items[i] == encode(Lookup(db.files, Height(fromHeight + i)).value)
    ensures r.Missing? ==>
      && fromHeight <= r.height < toHeight
      && Lookup(db.files, Height(r.height)) == None
      && forall h :: fromHeight <= h < r.height ==> Lookup(db.files, Height(h)).Some?
  {
    var bundle: seq<Bytes> := [];
    var h := fromHeight;
    while h < toHeight
      invariant fromHeight <= h && (h <= toHeight || h == fromHeight)
      invariant |bundle| == h - fromHeight
      invariant forall k :: fromHeight <= k < h ==> Lookup(db.files, Height(k)).Some?
      invariant forall i :: 0 <= i < |bundle| ==>
        Lookup(db.files, Height(fromHeight + i)).Some? && bundle[i] == encode(Lookup(db.files, Height(fromHeight + i)).value)
    {
      var dataItem := db.Get(Height(h));
      if dataItem.None? {
        return Missing(h);
      }
      bundle := bundle + [encode(dataItem.value)];
      h := h + 1;
    }
    r := Loaded(bundle);
  }
}
