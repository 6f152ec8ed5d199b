/** `LambdaFileSystem`: the staleness gate as a method over the host's
    writable tree and the freshness record, and the passthrough wrapper that
    runs it before forwarding every request to the merged (union) view. */
module LambdaFs {
  import opened FsTypes
  import Gate
  import Logging

  /** The host operating system and process globals as the gate sees them:
      the read-only tree under `RoDir`, the writable tree under `RwDir`, the
      clock, the process log level, and whether the next `ioutil.WriteFile`
      will succeed. */
  class Host {
    var ro: SourceTree
    var rw: RwTree
    var clock: Time
    var logLevel: int
    var writeSucceeds: bool

    constructor (ro: SourceTree, rw: RwTree, clock: Time, logLevel: int, writeSucceeds: bool)
      ensures this.ro == ro && this.rw == rw && this.clock == clock
      ensures this.logLevel == logLevel && this.writeSucceeds == writeSucceeds
    {
      this.ro := ro;
      this.rw := rw;
      this.clock := clock;
      this.logLevel := logLevel;
      this.writeSucceeds := writeSucceeds;
    }

    /** What one gate call consults of the host. */
    ghost function Sample(): Gate.Env
      reads this
    {
      Gate.Env(clock, writeSucceeds, Logging.ShouldLogDebug(logLevel))
    }

    /** `os.Stat` of the read-only path. */
    method Stat(path: Path) returns (info: Option<SourceEntry>)
      ensures info.Some? <==> path in ro
      ensures info.Some? ==> info.value == ro[path]
    {
      info := if path in ro then Some(ro[path]) else None;
    }

    /** `os.Remove` of the writable path, its error ignored. */
    method Remove(path: Path)
      modifies this`rw
      ensures rw == old(rw) - {path}
    {
      rw := rw - {path};
    }

    /** `ioutil.WriteFile` of the writable path. */
    method WriteFile(path: Path, content: Bytes) returns (ok: bool)
      modifies this`rw
      ensures ok == writeSucceeds
      ensures rw == if ok then old(rw)[path := content] else old(rw)
    {
      ok := writeSucceeds;
      if ok {
        rw := rw[path := content];
      }
    }

    /** `time.Now()`. */
    method Now() returns (t: Time)
      ensures t == clock
    {
      t := clock;
    }

  }

  /** One request of the filesystem surface, with its arguments. */
  datatype Call =
    | StatFs(name: Path)
    | GetAttr(name: Path, context: Context)
    | OpenDir(name: Path, context: Context)
    | Open(name: Path, flags: uint32, context: Context)
    | Chmod(path: Path, mode: uint32, context: Context)
    | Chown(path: Path, uid: uint32, gid: uint32, context: Context)
    | Truncate(path: Path, offset: uint64, context: Context)
    | Readlink(name: Path, context: Context)
    | Mknod(name: Path, mode: uint32, dev: uint32, context: Context)
    | Mkdir(path: Path, mode: uint32, context: Context)
    | Unlink(name: Path, context: Context)
    | Rmdir(name: Path, context: Context)
    | Symlink(pointedTo: string, linkName: Path, context: Context)
    | Rename(oldPath: Path, newPath: Path, context: Context)
    | Link(orig: Path, newName: Path, context: Context)
    | Access(name: Path, mode: uint32, context: Context)
    | Create(path: Path, flags: uint32, mode: uint32, context: Context)
    | GetXAttr(name: Path, attribute: string, context: Context)
    | ListXAttr(name: Path, context: Context)
    | RemoveXAttr(name: Path, attr: string, context: Context)
    | SetXAttr(name: Path, attr: string, data: Bytes, xattrFlags: int, context: Context)
    | SetDebug(debug: bool)
    | String
    | Utimens(name: Path, atime: Option<Time>, mtime: Option<Time>, context: Context)

  /** The paths of the mounted namespace a request names (a symlink's target
      is data, not a path of the namespace). */
  function PathArgs(c: Call): set<Path>
  {
    match c
    case StatFs(n) => {n}
    case GetAttr(n, _) => {n}
    case OpenDir(n, _) => {n}
    case Open(n, _, _) => {n}
    case Chmod(p, _, _) => {p}
    case Chown(p, _, _, _) => {p}
    case Truncate(p, _, _) => {p}
    case Readlink(n, _) => {n}
    case Mknod(n, _, _, _) => {n}
    case Mkdir(p, _, _) => {p}
    case Unlink(n, _) => {n}
    case Rmdir(n, _) => {n}
    case Symlink(_, l, _) => {l}
    case Rename(o, n, _) => {o, n}
    case Link(o, n, _) => {o, n}
    case Access(n, _, _) => {n}
    case Create(p, _, _, _) => {p}
    case GetXAttr(n, _, _) => {n}
    case ListXAttr(n, _) => {n}
    case RemoveXAttr(n, _, _) => {n}
    case SetXAttr(n, _, _, _, _) => {n}
    case SetDebug(_) => {}
    case String => {}
    case Utimens(n, _, _, _) => {n}
  }

  /** The requests that only create a new entry (there is no prior source
      content to reconcile), plus directory listing and the two requests
      that name no path. */
  predicate Ungated(c: Call)
  {
    c.OpenDir? || c.Mknod? || c.Mkdir? || c.Create? || c.SetDebug? || c.String?
  }

  /** The wrapper's fixed table: the path each request runs the gate on, if any. */
  function GateTarget(c: Call): (target: Option<Path>)
    ensures target.None? <==> Ungated(c)
    ensures target.Some? ==> target.value in PathArgs(c)
    // of two-path requests, the rename source, the new link and the symlink itself
    ensures c.Rename? ==> target == Some(c.oldPath)
    ensures c.Link? ==> target == Some(c.newName)
    ensures c.Symlink? ==> target == Some(c.linkName)
  {
    match c
    case StatFs(n) => Some(n)
    case GetAttr(n, _) => Some(n)
    case OpenDir(_, _) => None
    case Open(n, _, _) => Some(n)
    case Chmod(p, _, _) => Some(p)
    case Chown(p, _, _, _) => Some(p)
    case Truncate(p, _, _) => Some(p)
    case Readlink(n, _) => Some(n)
    case Mknod(_, _, _, _) => None
    case Mkdir(_, _, _) => None
    case Unlink(n, _) => Some(n)
    case Rmdir(n, _) => Some(n)
    case Symlink(_, l, _) => Some(l)
    case Rename(o, _, _) => Some(o)
    case Link(_, n, _) => Some(n)
    case Access(n, _, _) => Some(n)
    case Create(_, _, _, _) => None
    case GetXAttr(n, _, _) => Some(n)
    case ListXAttr(n, _) => Some(n)
    case RemoveXAttr(n, _, _) => Some(n)
    case SetXAttr(n, _, _, _, _) => Some(n)
    case SetDebug(_) => None
    case String => None
    case Utimens(n, _, _, _) => Some(n)
  }

  /** `Delegate`: the merged view over the two trees, kept opaque. What it
      answers and how it changes the writable tree are fixed functions of
      the request and of both trees at the moment it is called; `calls`
      logs the requests it received, in order. */
  class MergeView {
    const host: Host
    const reply: (Call, SourceTree, RwTree) -> Reply
    const effect: (Call, SourceTree, RwTree) -> RwTree
    ghost var calls: seq<Call>

    constructor (host: Host, reply: (Call, SourceTree, RwTree) -> Reply, effect: (Call, SourceTree, RwTree) -> RwTree)
      ensures this.host == host && this.reply == reply && this.effect == effect
      ensures calls == []
    {
      this.host := host;
      this.reply := reply;
      this.effect := effect;
      calls := [];
    }

    method Serve(c: Call) returns (r: Reply)
      modifies this`calls, host`rw
      ensures calls == old(calls) + [c]
      ensures r == reply(c, host.ro, old(host.rw))
      ensures host.rw == effect(c, host.ro, old(host.rw))
    {
      r := reply(c, host.ro, host.rw);
      host.rw := effect(c, host.ro, host.rw);
      calls := calls + [c];
    }
  }

  class LambdaFileSystem {
    const rootDir: string
    const rwDir: string
    const roDir: string
    const delegate: MergeView
    const updateFile: Option<Gate.Regenerator>
    var fileUpdatedAt: map<Path, Time>
    /** The source paths `updateFile` has been called with, in order. */
    ghost var regenerated: seq<JoinedPath>
    /** The host whose trees `RoDir` and `RwDir` name. */
    const host: Host

    /** The wrapper and its delegate work on the same host. */
    ghost predicate Valid()
    {
      delegate.host == host
    }

    constructor (rootDir: string, rwDir: string, roDir: string, delegate: MergeView,
                 updateFile: Option<Gate.Regenerator>, host: Host)
      requires delegate.host == host
      ensures Valid()
      ensures this.rootDir == rootDir && this.rwDir == rwDir && this.roDir == roDir
      ensures this.delegate == delegate && this.updateFile == updateFile && this.host == host
      ensures fileUpdatedAt == map[] && regenerated == []
    {
      this.rootDir := rootDir;
      this.rwDir := rwDir;
      this.roDir := roDir;
      this.delegate := delegate;
      this.updateFile := updateFile;
      this.host := host;
      fileUpdatedAt := map[];
      regenerated := [];
    }

    /** The part of the world the gate changes. */
    ghost function State(): Gate.GateState
      reads this, host
    {
      Gate.GateState(host.rw, fileUpdatedAt)
    }

    /** The staleness gate: regenerates the rw copy of `path` when its source
        is a stale file, and removes it when the source is gone. `action`
        only labels log output. */
    method BeforeFileAccess(action: string, path: Path)
      requires Valid()
      modifies this`fileUpdatedAt, this`regenerated, host`rw
      ensures var e := Gate.Step(updateFile, roDir, host.ro, old(State()), path, old(host.Sample()));
              State() == e.state && regenerated == old(regenerated) + e.calls
    {
      if updateFile.None? {
        return;
      }
      var hasBeenUpdated := path in fileUpdatedAt;
      var roPath := Join(roDir, path);
      var fileInfo := host.Stat(path);
      if fileInfo.None? {
        // the source is gone, so its rw copy must go too
        host.Remove(path);
        return;
      }
      if fileInfo.value.Dir? {
        return;
      }
      if hasBeenUpdated && !(fileInfo.value.mtime > fileUpdatedAt[path]) {
        return;
      }
      var regenerate := updateFile.value;
      var content := regenerate(roPath, host.ro);
      regenerated := regenerated + [roPath];
      match content {
        case Failure(_) =>
          return;
        case NoUpdate =>
          var now := host.Now();
          fileUpdatedAt := fileUpdatedAt[path := now];
        case Updated(bytes) =>
          var written := host.WriteFile(path, bytes);
          if written {
            var debug := Logging.ShouldLogDebug(host.logLevel);
            if debug {
              var now := host.Now();
              fileUpdatedAt := fileUpdatedAt[path := now];
            }
          }
      }
    }

    /** The gate as the wrapper runs it for `c`, from the state before the request. */
    twostate function GateFor(c: Call): Gate.Effect
      reads this, host
    {
      Gate.Gated(updateFile, roDir, old(host.ro), old(State()), GateTarget(c), old(host.Sample()))
    }

    /** `c` ran the gate on its target path (if it has one), then reached the
        delegate unchanged, which saw the writable tree as the gate left it;
        the record is as the gate left it. */
    twostate predicate Forwarded(c: Call)
      reads this, host, delegate
    {
      var e := GateFor(c);
      && host.ro == old(host.ro)
      && fileUpdatedAt == e.state.record
      && regenerated == old(regenerated) + e.calls
      && delegate.calls == old(delegate.calls) + [c]
      && host.rw == delegate.effect(c, host.ro, e.state.rw)
    }

    /** `c` was forwarded and `r` is the delegate's answer, returned unchanged. */
    twostate predicate Answered(c: Call, r: Reply)
      reads this, host, delegate
    {
      Forwarded(c) && r == delegate.reply(c, host.ro, GateFor(c).state.rw)
    }

    /** The path of `relPath` under the mount point. */
    function GetPath(relPath: Path): JoinedPath
    {
      Join(rootDir, relPath)
    }

    /** The mount path and the source path the gate regenerates from are
        addressed by the same relative path, and distinct relative paths
        have distinct mount paths. */
    lemma MountPathAddressesSource(relPath: Path, other: Path)
      ensures GetPath(relPath).rel == Join(roDir, relPath).rel
      ensures GetPath(relPath) == GetPath(other) <==> relPath == other
    {
    }

    method StatFs(name: Path) returns (r: Reply)
      requires Valid()
      modifies this`fileUpdatedAt, this`regenerated, host`rw, delegate`calls
      ensures GateTarget(Call.StatFs(name)) == Some(name)
      ensures Answered(Call.StatFs(name), r)
    {
      BeforeFileAccess("StatFs", name);
      r := delegate.Serve(Call.StatFs(name));
    }

    method GetAttr(name: Path, context: Context) returns (r: Reply)
      requires Valid()
      modifies this`fileUpdatedAt, this`regenerated, host`rw, delegate`calls
      ensures GateTarget(Call.GetAttr(name, context)) == Some(name)
      ensures Answered(Call.GetAttr(name, context), r)
    {
      BeforeFileAccess("GetAttr", name);
      r := delegate.Serve(Call.GetAttr(name, context));
    }

    method OpenDir(name: Path, context: Context) returns (r: Reply)
      requires Valid()
      modifies delegate`calls, host`rw
      ensures GateTarget(Call.OpenDir(name, context)).None?
      ensures Answered(Call.OpenDir(name, context), r)
    {
      r := delegate.Serve(Call.OpenDir(name, context));
    }

    method Open(name: Path, flags: uint32, context: Context) returns (r: Reply)
      requires Valid()
      modifies this`fileUpdatedAt, this`regenerated, host`rw, delegate`calls
      ensures GateTarget(Call.Open(name, flags, context)) == Some(name)
      ensures Answered(Call.Open(name, flags, context), r)
    {
      BeforeFileAccess("Open", name);
      r := delegate.Serve(Call.Open(name, flags, context));
    }

    method Chmod(path: Path, mode: uint32, context: Context) returns (r: Reply)
      requires Valid()
      modifies this`fileUpdatedAt, this`regenerated, host`rw, delegate`calls
      ensures GateTarget(Call.Chmod(path, mode, context)) == Some(path)
      ensures Answered(Call.Chmod(path, mode, context), r)
    {
      BeforeFileAccess("Chmod", path);
      r := delegate.Serve(Call.Chmod(path, mode, context));
    }

    method Chown(path: Path, uid: uint32, gid: uint32, context: Context) returns (r: Reply)
      requires Valid()
      modifies this`fileUpdatedAt, this`regenerated, host`rw, delegate`calls
      ensures GateTarget(Call.Chown(path, uid, gid, context)) == Some(path)
      ensures Answered(Call.Chown(path, uid, gid, context), r)
    {
      BeforeFileAccess("Chown", path);
      r := delegate.Serve(Call.Chown(path, uid, gid, context));
    }

    method Truncate(path: Path, offset: uint64, context: Context) returns (r: Reply)
      requires Valid()
      modifies this`fileUpdatedAt, this`regenerated, host`rw, delegate`calls
      ensures GateTarget(Call.Truncate(path, offset, context)) == Some(path)
      ensures Answered(Call.Truncate(path, offset, context), r)
    {
      BeforeFileAccess("Truncate", path);
      r := delegate.Serve(Call.Truncate(path, offset, context));
    }

    method Readlink(name: Path, context: Context) returns (r: Reply)
      requires Valid()
      modifies this`fileUpdatedAt, this`regenerated, host`rw, delegate`calls
      ensures GateTarget(Call.Readlink(name, context)) == Some(name)
      ensures Answered(Call.Readlink(name, context), r)
    {
      BeforeFileAccess("Readlink", name);
      r := delegate.Serve(Call.Readlink(name, context));
    }

    method Mknod(name: Path, mode: uint32, dev: uint32, context: Context) returns (r: Reply)
      requires Valid()
      modifies delegate`calls, host`rw
      ensures GateTarget(Call.Mknod(name, mode, dev, context)).None?
      ensures Answered(Call.Mknod(name, mode, dev, context), r)
    {
      r := delegate.Serve(Call.Mknod(name, mode, dev, context));
    }

    method Mkdir(path: Path, mode: uint32, context: Context) returns (r: Reply)
      requires Valid()
      modifies delegate`calls, host`rw
      ensures GateTarget(Call.Mkdir(path, mode, context)).None?
      ensures Answered(Call.Mkdir(path, mode, context), r)
    {
      r := delegate.Serve(Call.Mkdir(path, mode, context));
    }

    method Unlink(name: Path, context: Context) returns (r: Reply)
      requires Valid()
      modifies this`fileUpdatedAt, this`regenerated, host`rw, delegate`calls
      ensures GateTarget(Call.Unlink(name, context)) == Some(name)
      ensures Answered(Call.Unlink(name, context), r)
    {
      BeforeFileAccess("Unlink", name);
      r := delegate.Serve(Call.Unlink(name, context));
    }

    method Rmdir(name: Path, context: Context) returns (r: Reply)
      requires Valid()
      modifies this`fileUpdatedAt, this`regenerated, host`rw, delegate`calls
      ensures GateTarget(Call.Rmdir(name, context)) == Some(name)
      ensures Answered(Call.Rmdir(name, context), r)
    {
      BeforeFileAccess("Rmdir", name);
      r := delegate.Serve(Call.Rmdir(name, context));
    }

    method Symlink(pointedTo: string, linkName: Path, context: Context) returns (r: Reply)
      requires Valid()
      modifies this`fileUpdatedAt, this`regenerated, host`rw, delegate`calls
      ensures GateTarget(Call.Symlink(pointedTo, linkName, context)) == Some(linkName)
      ensures Answered(Call.Symlink(pointedTo, linkName, context), r)
    {
      BeforeFileAccess("Symlink", linkName);
      r := delegate.Serve(Call.Symlink(pointedTo, linkName, context));
    }

    method Rename(oldPath: Path, newPath: Path, context: Context) returns (r: Reply)
      requires Valid()
      modifies this`fileUpdatedAt, this`regenerated, host`rw, delegate`calls
      ensures GateTarget(Call.Rename(oldPath, newPath, context)) == Some(oldPath)
      ensures Answered(Call.Rename(oldPath, newPath, context), r)
    {
      BeforeFileAccess("Rename", oldPath);
      r := delegate.Serve(Call.Rename(oldPath, newPath, context));
    }

    method Link(orig: Path, newName: Path, context: Context) returns (r: Reply)
      requires Valid()
      modifies this`fileUpdatedAt, this`regenerated, host`rw, delegate`calls
      ensures GateTarget(Call.Link(orig, newName, context)) == Some(newName)
      ensures Answered(Call.Link(orig, newName, context), r)
    {
      BeforeFileAccess("Link", newName);
      r := delegate.Serve(Call.Link(orig, newName, context));
    }

    method Access(name: Path, mode: uint32, context: Context) returns (r: Reply)
      requires Valid()
      modifies this`fileUpdatedAt, this`regenerated, host`rw, delegate`calls
      ensures GateTarget(Call.Access(name, mode, context)) == Some(name)
      ensures Answered(Call.Access(name, mode, context), r)
    {
      BeforeFileAccess("Access", name);
      r := delegate.Serve(Call.Access(name, mode, context));
    }

    method Create(path: Path, flags: uint32, mode: uint32, context: Context) returns (r: Reply)
      requires Valid()
      modifies delegate`calls, host`rw
      ensures GateTarget(Call.Create(path, flags, mode, context)).None?
      ensures Answered(Call.Create(path, flags, mode, context), r)
    {
      r := delegate.Serve(Call.Create(path, flags, mode, context));
    }

    method GetXAttr(name: Path, attribute: string, context: Context) returns (r: Reply)
      requires Valid()
      modifies this`fileUpdatedAt, this`regenerated, host`rw, delegate`calls
      ensures GateTarget(Call.GetXAttr(name, attribute, context)) == Some(name)
      ensures Answered(Call.GetXAttr(name, attribute, context), r)
    {
      BeforeFileAccess("GetXAttr", name);
      r := delegate.Serve(Call.GetXAttr(name, attribute, context));
    }

    method ListXAttr(name: Path, context: Context) returns (r: Reply)
      requires Valid()
      modifies this`fileUpdatedAt, this`regenerated, host`rw, delegate`calls
      ensures GateTarget(Call.ListXAttr(name, context)) == Some(name)
      ensures Answered(Call.ListXAttr(name, context), r)
    {
      BeforeFileAccess("ListXAttr", name);
      r := delegate.Serve(Call.ListXAttr(name, context));
    }

    method RemoveXAttr(name: Path, attr: string, context: Context) returns (r: Reply)
      requires Valid()
      modifies this`fileUpdatedAt, this`regenerated, host`rw, delegate`calls
      ensures GateTarget(Call.RemoveXAttr(name, attr, context)) == Some(name)
      ensures Answered(Call.RemoveXAttr(name, attr, context), r)
    {
      BeforeFileAccess("RemoveXAttr", name);
      r := delegate.Serve(Call.RemoveXAttr(name, attr, context));
    }

    method SetXAttr(name: Path, attr: string, data: Bytes, flags: int, context: Context) returns (r: Reply)
      requires Valid()
      modifies this`fileUpdatedAt, this`regenerated, host`rw, delegate`calls
      ensures GateTarget(Call.SetXAttr(name, attr, data, flags, context)) == Some(name)
      ensures Answered(Call.SetXAttr(name, attr, data, flags, context), r)
    {
      BeforeFileAccess("SetXAttr", name);
      r := delegate.Serve(Call.SetXAttr(name, attr, data, flags, context));
    }

    method SetDebug(debug: bool)
      requires Valid()
      modifies delegate`calls, host`rw
      ensures GateTarget(Call.SetDebug(debug)).None?
      ensures Forwarded(Call.SetDebug(debug))
    {
      var _ := delegate.Serve(Call.SetDebug(debug));
    }

    method String() returns (r: Reply)
      requires Valid()
      modifies delegate`calls, host`rw
      ensures GateTarget(Call.String).None?
      ensures Answered(Call.String, r)
    {
      r := delegate.Serve(Call.String);
    }

    method Utimens(name: Path, atime: Option<Time>, mtime: Option<Time>, context: Context) returns (r: Reply)
      requires Valid()
      modifies this`fileUpdatedAt, this`regenerated, host`rw, delegate`calls
      ensures GateTarget(Call.Utimens(name, atime, mtime, context)) == Some(name)
      ensures Answered(Call.Utimens(name, atime, mtime, context), r)
    {
      BeforeFileAccess("Utimens", name);
      r := delegate.Serve(Call.Utimens(name, atime, mtime, context));
    }
  }
}
