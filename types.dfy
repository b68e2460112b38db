/** Values shared by the file-system monitor model: object-file metadata,
    persisted records, store notifications and Java `long` arithmetic. */
module Types {

  /** The partition key derived from an object file's metadata (FileObjectKey). */
  type Key = string

  type Uri = string

  /** Metadata of a listed object file (FileObjectMeta); never mutated. */
  datatype Meta = Meta(uri: Uri, lastModified: int, size: nat)

  /** A record status (FileObjectStatus); its families are configuration, see Families. */
  datatype Status = Status(name: string)

  /** The terminal status written once a completed file has been cleaned up. */
  const Cleaned: Status := Status("CLEANED")

  /** The two status families the monitor consults: FileObjectStatus.started() and
      FileObjectStatus.completed(). */
  datatype Families = Families(started: set<Status>, completed: set<Status>)

  /** A persisted record (FileObject): metadata, status and the key it was stored under,
      which is attached by the monitor when it queues the record. */
  datatype FileObject = FileObject(meta: Meta, status: Status, key: Option<Key>)
  {
    function WithKey(k: Key): (r: FileObject)
      ensures r.key == Some(k) && r.meta == meta && r.status == status
    {
      this.(key := Some(k))
    }

    function WithStatus(s: Status): (r: FileObject)
      ensures r.status == s && r.meta == meta && r.key == key
    {
      this.(status := s)
    }
  }

  /** An immutable point-in-time view of the state store: key to record. */
  type Snapshot = map<Key, FileObject>

  /** A push notification of the state store's update listener. */
  datatype Event = Update(key: Key, obj: FileObject) | Remove(key: Key)

  /** The cleanup policy's verdict for one record (FileCleanupPolicyResult). */
  datatype CleanupResult = Succeed | Fail

  /** One asynchronous write to the state store (`putAsync(key, record)`). */
  datatype Write = Write(key: Key, obj: FileObject)

  datatype Option<+T> = None | Some(value: T)

  /** A result or the exception that ends the call. */
  datatype Outcome<+T> = Ok(value: T) | Err(error: string)

  /** Every record in a queue carries the key it was received under. */
  ghost predicate AllKeyed(q: seq<FileObject>)
  {
    forall i :: 0 <= i < |q| ==> q[i].key.Some?
  }

  const LongMin: int := -0x8000_0000_0000_0000
  const LongMax: int := 0x7FFF_FFFF_FFFF_FFFF

  predicate IsLong(x: int)
  {
    LongMin <= x <= LongMax
  }

  /** Two's-complement wrap-around of a mathematical integer into a Java `long`. */
  function WrapLong(x: int): (r: int)
    ensures IsLong(r)
    ensures IsLong(x) ==> r == x
    ensures (r - x) % 0x1_0000_0000_0000_0000 == 0
  {
    (x - LongMin) % 0x1_0000_0000_0000_0000 + LongMin
  }

  function Max(a: int, b: int): int
  {
    if a < b then b else a
  }

  function Min(a: int, b: int): int
  {
    if a < b then a else b
  }
}
