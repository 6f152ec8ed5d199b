# lambdafs: the staleness gate and its passthrough wrapper, in Dafny

lambdafs is a FUSE filesystem. It presents a union of a read-only source
tree (`RoDir`) and a writable tree (`RwDir`). Before most requests it runs a
staleness gate, `BeforeFileAccess`. The gate asks an injected regenerator
(`UpdateFile`) for fresh content for a source file that changed since it was
last handled, and writes that content into the writable tree, where the
union view finds it first. The wrapper methods run the gate on the path a
request observes, then hand the request unchanged to the union filesystem
(`Delegate`).

The model has five modules:

- `FsTypes` (fs_types.dfy): paths, the two trees, timestamps, and request and reply values.
  `filepath.Join` is the injective constructor `Join(dir, rel)`, so one
  relative path addresses both trees.
- `Gate` (gate.dfy): the gate as a pure function `Step` from the state before a request
  (writable tree and `FileUpdatedAt` record) to the state after it, plus the
  source paths the regenerator was called with. `Run` applies it to a
  sequence of requests. The lemmas cover idempotence, sticky freshness,
  deletion propagation and re-regeneration after a source change.
- `LambdaFs` (lambda_fs.dfy): the class `LambdaFileSystem`. It has the Go struct's fields, the
  imperative `BeforeFileAccess` (proved equal to `Gate.Step`) and every
  wrapper method. The union filesystem is the class `MergeView`. Its answer
  and its effect on the writable tree are fixed, unknown functions of the
  request and of both trees at the moment of the call. A ghost log records the
  requests it received. The OS (stat, remove, write, clock, log level) is the
  class `Host`.
- `Logging` (logging.dfy): only `ShouldLogDebug` and the default log level.
- `PhpExample` (php_example.dfy): the example command's regenerator (append "\nhello\n" to `.php`
  files) and two scenario methods that call `GetAttr` on a model mount and show a regeneration, a
  skipped repeat, and a regeneration after the source is rewritten.

Behaviour of the code, kept as written:

- After the regenerator returns content, the path is stamped in the record
  only if the write succeeded and debug logging is on. Debug logging is on at
  the default log level. With it off, the next request regenerates the
  same unchanged file again (`Gate.QuietWriteRegeneratesAgain`).
- `nil` content and empty content differ. `nil` stamps the record without
  writing. Empty content writes an empty file.
- The model follows the code:
  - `OpenDir` does not run the gate, although it observes an existing path
    like the gated requests do.
  - The record is not stamped unconditionally after a successful write.
  - The `MkdirAll` error is ignored rather than aborting the write.
  - There is no lock around the gate.

## Model

| member | source | states |
|---|---|---|
| Gate.Step | LambdaFileSystem.go:23-64 | One gate call. The regenerator is called at most once: exactly when a regenerator is set and the source is a stale file (no record, or mtime strictly after it), and with `RoDir` joined to the same relative path. No other path's rw entry or record changes. With no regenerator nothing changes. An absent source removes only the rw entry. A directory or fresh file changes nothing. Regenerator error: nothing changes. Nil content: only the record is stamped with now. Content: rw holds exactly those bytes if the write succeeds, and the record is stamped only if the write succeeds with debug logging on |
| Gate.Run | LambdaFileSystem.go:23-64 | Over any sequence of requests, at most one regeneration attempt per request |
| Gate.IdempotentAfterSettling | LambdaFileSystem.go:38-52 | After a request settles a stale file (nil content, or content written with debug on) whose mtime is not after the clock, a repeat request against the unchanged source does nothing at all |
| Gate.QuietWriteRegeneratesAgain | LambdaFileSystem.go:53-63 | Content written while debug logging is off lands in rw but is not recorded, so the very next request calls the regenerator again |
| Gate.ModifiedSourceRegenerates | LambdaFileSystem.go:38-44 | A recorded file whose source mtime advances past the record is regenerated exactly once by the next request |
| Gate.DeletionPropagates | LambdaFileSystem.go:27-34 | When the source cannot be stat'ed, one request removes the rw entry without calling the regenerator, and later requests change nothing more |
| Gate.FreshStaysFresh | LambdaFileSystem.go:35-40 | A path whose record covers the source mtime is never regenerated by any sequence of gate calls against the same source, and the gate leaves its rw entry and record as they were (forwarded requests may still change the rw entry through the delegate) |
| Gate.AtMostOneRegenerationPerPath | LambdaFileSystem.go:38-63 | Freshness is sticky: with an unchanged source, a sequence of gate calls calls the regenerator at most once per path, provided the first request on each file the record does not yet vouch for has its clock not behind the file's mtime and would settle it. Later requests on that path, files already recorded, directories and absent paths are unconstrained (the log level may be raised or writes may fail after a file is recorded) |
| LambdaFs.GateTarget | LambdaFileSystem.go:66-188 | The wrapper's fixed table. OpenDir, Mknod, Mkdir, Create, SetDebug and String never run the gate. Every other request gates one of its own path arguments: Rename its old path, Link its new name, Symlink the link itself |
| LambdaFs.LambdaFileSystem.constructor | LambdaFileSystem.go:14-21 | The struct's fields, with an empty freshness record and no regenerations yet |
| LambdaFs.LambdaFileSystem.BeforeFileAccess | LambdaFileSystem.go:23-64 | The early-return gate updates the rw tree and the record exactly as `Gate.Step` says, and logs the regenerator calls `Gate.Step` reports |
| LambdaFs.LambdaFileSystem.MountPathAddressesSource | LambdaFileSystem.go:76-78 | `GetPath` addresses the same relative path as the source path the gate regenerates from, and distinct relative paths have distinct mount paths |
| LambdaFs.LambdaFileSystem.StatFs | LambdaFileSystem.go:66-69 | Gates `name`; the delegate then receives the identical request, sees rw as the gate left it, and its answer is returned unchanged |
| LambdaFs.LambdaFileSystem.GetAttr | LambdaFileSystem.go:80-83 | Gates `name`, then forwards unchanged and returns the delegate's answer |
| LambdaFs.LambdaFileSystem.OpenDir | LambdaFileSystem.go:85-87 | No gate: record and rw untouched before the delegate, whose answer is returned unchanged |
| LambdaFs.LambdaFileSystem.Open | LambdaFileSystem.go:89-92 | Gates `name`, then forwards unchanged |
| LambdaFs.LambdaFileSystem.Chmod | LambdaFileSystem.go:94-97 | Gates `path`, then forwards unchanged |
| LambdaFs.LambdaFileSystem.Chown | LambdaFileSystem.go:99-102 | Gates `path`, then forwards unchanged |
| LambdaFs.LambdaFileSystem.Truncate | LambdaFileSystem.go:104-107 | Gates `path`, then forwards unchanged |
| LambdaFs.LambdaFileSystem.Readlink | LambdaFileSystem.go:109-112 | Gates `name`, then forwards unchanged |
| LambdaFs.LambdaFileSystem.Mknod | LambdaFileSystem.go:114-116 | No gate; forwards unchanged |
| LambdaFs.LambdaFileSystem.Mkdir | LambdaFileSystem.go:118-120 | No gate; forwards unchanged |
| LambdaFs.LambdaFileSystem.Unlink | LambdaFileSystem.go:123-126 | Gates `name` before the deletion is forwarded |
| LambdaFs.LambdaFileSystem.Rmdir | LambdaFileSystem.go:128-131 | Gates `name` before the deletion is forwarded |
| LambdaFs.LambdaFileSystem.Symlink | LambdaFileSystem.go:133-136 | Gates `linkName` (not the target), then forwards unchanged |
| LambdaFs.LambdaFileSystem.Rename | LambdaFileSystem.go:138-141 | Gates `oldPath` (not the new path), then forwards unchanged |
| LambdaFs.LambdaFileSystem.Link | LambdaFileSystem.go:143-146 | Gates `newName` (not the original), then forwards unchanged |
| LambdaFs.LambdaFileSystem.Access | LambdaFileSystem.go:148-151 | Gates `name`, then forwards unchanged |
| LambdaFs.LambdaFileSystem.Create | LambdaFileSystem.go:153-155 | No gate; forwards unchanged |
| LambdaFs.LambdaFileSystem.GetXAttr | LambdaFileSystem.go:157-160 | Gates `name`, then forwards unchanged |
| LambdaFs.LambdaFileSystem.ListXAttr | LambdaFileSystem.go:162-165 | Gates `name`, then forwards unchanged |
| LambdaFs.LambdaFileSystem.RemoveXAttr | LambdaFileSystem.go:167-170 | Gates `name`, then forwards unchanged |
| LambdaFs.LambdaFileSystem.SetXAttr | LambdaFileSystem.go:172-175 | Gates `name`, then forwards unchanged |
| LambdaFs.LambdaFileSystem.SetDebug | LambdaFileSystem.go:177-179 | No gate; forwards the flag to the delegate |
| LambdaFs.LambdaFileSystem.String | LambdaFileSystem.go:181-183 | No gate; returns the delegate's answer |
| LambdaFs.LambdaFileSystem.Utimens | LambdaFileSystem.go:185-188 | Gates `name`, then forwards unchanged |
| Logging.DebugLoggingOnByDefault | infra/logging.go:13-37 | Debug logging is on at the starting log level and off at info, warning and error |
| PhpExample.AppendHello | cmd/example-lambdafs/main.go:52-62 | Exactly the non-`.php` files need no update, so a `.php` source is always rewritten or an error. A readable `.php` source file always yields content, and any content is the source bytes as a prefix followed by "\nhello\n" |
| PhpExample.StatTwice | LambdaFileSystem.go:38-63 | Mounted with the example regenerator at the default log level: the first stat of a `.php` file materialises its content plus hello, and a second stat leaves it as it is; the regenerator ran once in all, for the first stat |
| PhpExample.StatAfterRewrite | LambdaFileSystem.go:38-56 | Once the source is rewritten after the recorded time, the next stat calls the regenerator exactly once and materialises the new content plus hello |

## Left out

- FUSE transport, mounting and the union filesystem's own semantics (merging, whiteouts, caches). `MergeView` is opaque: what it answers and how it changes the writable tree are arbitrary fixed functions of the request and the two trees.
- `OnMount` and `OnUnmount` (LambdaFileSystem.go:71-74): empty hooks with no behaviour to model.
- Logging output (`LogDebug`, `LogError`): only `ShouldLogDebug` is modelled, as the host's log level.
- `os.MkdirAll` of the parent directory: the writable tree holds files only, so directories in it are not represented. The call's error is ignored in the code anyway.
- `os.Remove` is key deletion. The real call silently fails on a non-empty directory, and that failure is not modelled.
- A failed `ioutil.WriteFile` leaves the writable tree as it was. A partially written or truncated destination is not modelled. Whether the write succeeds is an injected host flag. File modes (`0644`, `0755`) are not modelled.
- Paths are opaque keys: `filepath.Join` cleaning (`..`, duplicate or trailing slashes) is not modelled, and `PhpExample.AppendHello` tests the `.php` suffix on the relative part of the joined path.
- `UpdateFile` is passed the source tree explicitly, because the real function reads it from disk. It is a pure function of the path and that tree.
- Time is a natural number read from the host clock. `time.Time.After` is strict `>`. Wall-clock behaviour such as monotonic readings or the clock going backwards is not modelled.
- Concurrency: the gate has no lock and `FileUpdatedAt` is accessed unsynchronised. The model is sequential.
- A `LambdaFileSystem` built with a nil `FileUpdatedAt` map panics on the first stamp in Go. The constructor here always starts from an empty map.
- LambdaFs.LambdaFileSystem.GetPath: a single opaque `filepath.Join` of the root directory, so its own contract states nothing beyond the join; what a caller can use is proved in `MountPathAddressesSource`.
- cmd/example-lambdafs/main.go beyond its regenerator (flag parsing, TTL conversions, mounting). `NewLambdaFileSystem`, which it calls, is not defined in LambdaFileSystem.go.
- build.py and cmd/generic-function-tracer/main.go: a build script and a debugger-attach tool, unrelated to the filesystem.
