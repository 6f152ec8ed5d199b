/** Values shared by the staleness gate and the passthrough wrapper:
    relative paths, the two directory trees, timestamps and the
    request/reply shapes of the filesystem surface. */
module FsTypes {

  newtype byte = x: int | 0 <= x < 256
  newtype uint32 = x: int | 0 <= x < 0x1_0000_0000
  newtype uint64 = x: int | 0 <= x < 0x1_0000_0000_0000_0000

  type Bytes = seq<byte>

  /** A slash-separated path relative to the mount root; the same relative
      path addresses the read-only source tree and the writable tree. */
  type Path = string

  /** A point in time (modification times and the clock), as a count of ticks. */
  type Time = nat

  datatype Option<T> = None | Some(value: T)

  /** `filepath.Join(dir, rel)`, kept as an uninterpreted but injective key:
      two joins are the same path exactly when their parts are. */
  datatype JoinedPath = Join(dir: string, rel: Path)

  /** What `os.Stat` reports about an entry of the read-only tree. */
  datatype SourceEntry = Dir(mtime: Time) | File(mtime: Time, content: Bytes)

  /** The read-only tree: a path absent from the map cannot be stat'ed. */
  type SourceTree = map<Path, SourceEntry>

  /** The writable tree: the files materialised under the rw directory. */
  type RwTree = map<Path, Bytes>

  /** `*fuse.Context`: who issued the request. */
  datatype Context = Context(uid: uint32, gid: uint32, pid: uint32)

  /** `fuse.Status`: an errno, 0 meaning OK. */
  datatype Status = Status(errno: nat)

  datatype DirEntry = DirEntry(name: string, mode: uint32)

  /** The data part of what the merged view answers, one variant per result shape. */
  datatype Payload =
    | Nothing
    | StatfsOut(blocks: uint64, bfree: uint64, bavail: uint64, files: uint64, ffree: uint64)
    | Attr(mode: uint32, size: uint64, mtime: Time)
    | Stream(entries: seq<DirEntry>)
    | FileHandle(id: nat)
    | LinkTarget(target: string)
    | XAttrData(data: Bytes)
    | XAttrNames(names: seq<string>)
    | Name(text: string)

  datatype Reply = Reply(code: Status, payload: Payload)

  /** Map `m1` and map `m2` agree at key `k`: both lack it or both hold the same value. */
  predicate SameAt<K, V(==)>(m1: map<K, V>, m2: map<K, V>, k: K)
  {
    (k in m1 <==> k in m2) && (k in m1 ==> m1[k] == m2[k])
  }

  /** No element occurs twice in `s`. */
  predicate NoDuplicates<T(==)>(s: seq<T>)
  {
    forall i, j :: 0 <= i < j < |s| ==> s[i] != s[j]
  }
}
