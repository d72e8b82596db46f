/**
 * The node's on-disk key-value cache: one JSON file per key under
 * `./db/<name>/`, named `<key>.json`. Heights are integer keys; the
 * ingestion pointer `head` and the eviction pointer `tail` live in the
 * same directory under their own names.
 */
module Storage {
  import opened Common
  import Decimal

  /** The keys the node uses: a block height, or one of the two pointers. */
  datatype Key = Height(h: int) | Head | Tail

  /** What a file holds once `jsonfile` has parsed it: a number (the pointers) or a data item. */
  datatype Value = Number(n: int) | Record(json: string)

  /** The file a key is stored in: its string form followed by `.json`. */
  function FileName(key: Key): string {
    match key
    case Height(h) => Decimal.Show(h) + ".json"
    case Head => "head.json"
    case Tail => "tail.json"
  }

  /** A height's file name starts with a digit or a minus sign; a pointer's does not. */
  lemma FileNameStart(key: Key)
    ensures |FileName(key)| > 0
    ensures key.Height? <==> (FileName(key)[0] == '-' || Decimal.IsDigit(FileName(key)[0]))
  {
    if key.Height? {
      assert FileName(key)[0] == Decimal.Show(key.h)[0];
    }
  }

  /** Two different keys never share a file: heights cannot collide with each other or with the pointers. */
  lemma FileNameInjective(a: Key, b: Key)
    ensures FileName(a) == FileName(b) ==> a == b
  {
    FileNameStart(a);
    FileNameStart(b);
    if FileName(a) == FileName(b) && a.Height? && b.Height? {
      var s, t := Decimal.Show(a.h), Decimal.Show(b.h);
      assert FileName(a)[..|s|] == s;
      assert FileName(b)[..|t|] == t;
      Decimal.ShowInjective(a.h, b.h);
    }
  }

  /** What `get(key)` finds in a directory: the parsed file, or `None` when reading rejects. */
  function Lookup(files: map<string, Value>, key: Key): Option<Value> {
    if FileName(key) in files then Some(files[FileName(key)]) else None
  }

  /** After `put(key, v)`, `key` reads back `v` and every other key reads as before. */
  lemma LookupAfterPut(files: map<string, Value>, key: Key, v: Value, other: Key)
    ensures Lookup(files[FileName(key) := v], other) == if other == key then Some(v) else Lookup(files, other)
  {
    FileNameInjective(key, other);
  }

  /** After `del(key)`, `key` is missing and every other key reads as before. */
  lemma LookupAfterDel(files: map<string, Value>, key: Key, other: Key)
    ensures Lookup(files - {FileName(key)}, other) == if other == key then None else Lookup(files, other)
  {
    FileNameInjective(key, other);
  }

  class Database {
    const path: string
    var files: map<string, Value>

    /** Opens (creating if needed) `./db/<path>/`; the files already there are kept. */
    constructor (path: string, onDisk: map<string, Value>)
      ensures this.path == path && files == onDisk
    {
      this.path := path;
      files := onDisk;
    }

    /** Writes `value` as the file of `key`, replacing any earlier one. */
    method Put(key: Key, value: Value)
      modifies this
      ensures files == old(files)[FileName(key) := value]
    {
      files := files[FileName(key) := value];
    }

    /** Reads the file of `key`; `None` is the rejected read of a missing file. */
    method Get(key: Key) returns (r: Option<Value>)
      ensures FileName(key) in files ==> r == Some(files[FileName(key)])
      ensures FileName(key) !in files ==> r == None
    {
      if FileName(key) in files {
        r := Some(files[FileName(key)]);
      } else {
        r := None;
      }
    }

    /** Unlinks the file of `key`; `ok` is false when `unlink` rejects because there was no such file. */
    method Del(key: Key) returns (ok: bool)
      modifies this
      ensures ok == (FileName(key) in old(files))
      ensures files == old(files) - {FileName(key)}
    {
      ok := FileName(key) in files;
      files := files - {FileName(key)};
    }

    /** Empties the directory. */
    method Drop()
      modifies this
      ensures files == map[]
    {
      files := map[];
    }
  }

  /** A client of the store: a put followed by a get returns what was put, and a get after del finds nothing. */
  method PutGetDel(db: Database, key: Key, v: Value) returns (afterPut: Option<Value>, afterDel: Option<Value>)
    modifies db
    ensures afterPut == Some(v) && afterDel == None
    ensures db.files == old(db.files) - {FileName(key)}
  {
    db.Put(key, v);
    afterPut := db.Get(key);
    var _ := db.Del(key);
    afterDel := db.Get(key);
  }
}
