/** The staleness gate of `LambdaFileSystem.BeforeFileAccess`, as a function
    from the state before a request to the state after it, and what follows
    from it over a sequence of requests. */
module Gate {
  import opened FsTypes

  /** What the injected `UpdateFile` returns: an error, `nil` content
      (nothing to regenerate for this file) or the new bytes (possibly empty). */
  datatype Regen = Failure(reason: string) | NoUpdate | Updated(content: Bytes)

  /** `UpdateFile`: called with the source path, it may read the source
      tree and nothing else. */
  type Regenerator = (JoinedPath, SourceTree) -> Regen

  /** What the gate consults besides its own state during one request:
      the clock (`time.Now()`), whether `ioutil.WriteFile` succeeds, and
      whether debug logging is on (`infra.ShouldLogDebug()`). */
  datatype Env = Env(now: Time, writeSucceeds: bool, logDebug: bool)

  /** The state the gate changes: the writable tree and the
      `FileUpdatedAt` freshness record. */
  datatype GateState = GateState(rw: RwTree, record: map<Path, Time>)

  /** The state after the gate, and the source paths `UpdateFile` was called with. */
  datatype Effect = Effect(state: GateState, calls: seq<JoinedPath>)

  /** The record vouches for the source at `path`: the source exists and was
      not modified after the recorded time. */
  predicate Fresh(src: SourceTree, record: map<Path, Time>, path: Path)
  {
    path in src && path in record && src[path].mtime <= record[path]
  }

  /** The source at `path` is a file the record does not vouch for: never
      recorded, or modified strictly after the recorded time. */
  predicate Stale(src: SourceTree, record: map<Path, Time>, path: Path)
  {
    path in src && src[path].File? && !Fresh(src, record, path)
  }

  /** One call of `BeforeFileAccess(action, path)`. */
  function Step(updateFile: Option<Regenerator>, roDir: string, src: SourceTree,
                st: GateState, path: Path, env: Env): (e: Effect)
    // the regenerator is called at most once, exactly when the source is a
    // stale file, and with the read-only directory joined to the same path
    ensures e.calls == (if updateFile.Some? && Stale(src, st.record, path) then [Join(roDir, path)] else [])
    // nothing at any other path changes
    ensures e.state.rw - {path} == st.rw - {path}
    ensures e.state.record - {path} == st.record - {path}
    // without a regenerator the gate is inert
    ensures updateFile.None? ==> e.state == st
    // a source that cannot be stat'ed removes the rw entry and nothing else
    ensures updateFile.Some? && path !in src ==> e.state == GateState(st.rw - {path}, st.record)
    // a directory or a fresh file changes nothing
    ensures path in src && !Stale(src, st.record, path) ==> e.state == st
    // the outcomes of the regenerator
    ensures e.calls != [] ==>
      match updateFile.value(Join(roDir, path), src)
      case Failure(_) => e.state == st
      case NoUpdate => e.state == GateState(st.rw, st.record[path := env.now])
      case Updated(content) =>
        && e.state.rw == (if env.writeSucceeds then st.rw[path := content] else st.rw)
        && e.state.record == (if env.writeSucceeds && env.logDebug then st.record[path := env.now] else st.record)
  {
    if updateFile.None? then Effect(st, [])
    else if path !in src then Effect(GateState(st.rw - {path}, st.record), [])
    else if src[path].Dir? then Effect(st, [])
    else if path in st.record && !(src[path].mtime > st.record[path]) then Effect(st, [])
    else
      var roPath := Join(roDir, path);
      match updateFile.value(roPath, src)
      case Failure(_) => Effect(st, [roPath])
      case NoUpdate => Effect(GateState(st.rw, st.record[path := env.now]), [roPath])
      case Updated(content) =>
        if !env.writeSucceeds then Effect(st, [roPath])
        else if env.logDebug then Effect(GateState(st.rw[path := content], st.record[path := env.now]), [roPath])
        else Effect(GateState(st.rw[path := content], st.record), [roPath])
  }

  /** The gate as a wrapper method runs it: on the observed path, or not at all. */
  function Gated(updateFile: Option<Regenerator>, roDir: string, src: SourceTree,
                 st: GateState, target: Option<Path>, env: Env): Effect
  {
    match target
    case None => Effect(st, [])
    case Some(path) => Step(updateFile, roDir, src, st, path, env)
  }

  /** One request reaching the gate: the path it observes and the environment at the time. */
  datatype Request = Request(path: Path, env: Env)

  /** A sequence of requests against an unchanged source tree. */
  function Run(updateFile: Option<Regenerator>, roDir: string, src: SourceTree,
               st: GateState, accesses: seq<Request>): (e: Effect)
    // at most one regeneration attempt per access
    ensures |e.calls| <= |accesses|
    decreases |accesses|
  {
    if accesses == [] then Effect(st, [])
    else
      var first := Step(updateFile, roDir, src, st, accesses[0].path, accesses[0].env);
      var rest := Run(updateFile, roDir, src, first.state, accesses[1..]);
      Effect(rest.state, first.calls + rest.calls)
  }

  /** Whether one regeneration leaves the path recorded: the regenerator did
      not fail and, when it produced content, the write succeeded with debug
      logging on. */
  predicate Settles(r: Regen, env: Env)
  {
    match r
    case Failure(_) => false
    case NoUpdate => true
    case Updated(_) => env.writeSucceeds && env.logDebug
  }

  /** Once a request settles a stale file whose mtime is not after the clock,
      an immediate repeat with the source unchanged does nothing at all. */
  lemma IdempotentAfterSettling(updateFile: Option<Regenerator>, roDir: string, src: SourceTree,
                                st: GateState, path: Path, env: Env, env': Env)
    requires updateFile.Some? && Stale(src, st.record, path)
    requires Settles(updateFile.value(Join(roDir, path), src), env)
    requires src[path].mtime <= env.now
    ensures var first := Step(updateFile, roDir, src, st, path, env);
            Step(updateFile, roDir, src, first.state, path, env') == Effect(first.state, [])
  {
  }

  /** A stale file whose content was written while debug logging is off is
      never recorded, so the very next request regenerates it again. */
  lemma QuietWriteRegeneratesAgain(updateFile: Option<Regenerator>, roDir: string, src: SourceTree,
                                   st: GateState, path: Path, env: Env, env': Env)
    requires updateFile.Some? && Stale(src, st.record, path)
    requires updateFile.value(Join(roDir, path), src).Updated?
    requires env.writeSucceeds && !env.logDebug
    ensures var first := Step(updateFile, roDir, src, st, path, env);
            && first.state.rw[path] == updateFile.value(Join(roDir, path), src).content
            && Step(updateFile, roDir, src, first.state, path, env').calls == [Join(roDir, path)]
  {
  }

  /** A source modified after the recorded time is stale again and is
      regenerated exactly once by the next request. */
  lemma ModifiedSourceRegenerates(updateFile: Option<Regenerator>, roDir: string, src: SourceTree,
                                  src': SourceTree, st: GateState, path: Path, env: Env)
    requires updateFile.Some? && Fresh(src, st.record, path)
    requires path in src' && src'[path].File? && src'[path].mtime > src[path].mtime
    requires src'[path].mtime > st.record[path]
    ensures Step(updateFile, roDir, src', st, path, env).calls == [Join(roDir, path)]
  {
  }

  /** Deletion propagation: once the source is gone, one request removes the
      rw entry and later requests find nothing more to do. */
  lemma DeletionPropagates(updateFile: Option<Regenerator>, roDir: string, src: SourceTree,
                           st: GateState, path: Path, env: Env, env': Env)
    requires updateFile.Some? && path !in src
    ensures var first := Step(updateFile, roDir, src, st, path, env);
            && path !in first.state.rw
            && first.calls == []
            && Step(updateFile, roDir, src, first.state, path, env') == Effect(first.state, [])
  {
  }

  /** A path the record vouches for stays untouched over any sequence of
      gate calls against the same source: it is never regenerated, and the
      gate leaves its rw entry and its record as they were. (Requests the
      wrapper forwards may still change the rw entry through the delegate.) */
  lemma {:induction false} FreshStaysFresh(updateFile: Option<Regenerator>, roDir: string, src: SourceTree,
                                           st: GateState, accesses: seq<Request>, path: Path)
    requires Fresh(src, st.record, path)
    ensures var e := Run(updateFile, roDir, src, st, accesses);
            && Join(roDir, path) !in e.calls
            && SameAt(e.state.rw, st.rw, path)
            && SameAt(e.state.record, st.record, path)
    decreases |accesses|
  {
    if accesses != [] {
      var a := accesses[0];
      var first := Step(updateFile, roDir, src, st, a.path, a.env);
      if a.path == path {
        assert first == Effect(st, []);
      } else {
        assert SameAt(first.state.rw, st.rw, path) by {
          assert path in first.state.rw - {a.path} <==> path in st.rw - {a.path};
        }
        assert SameAt(first.state.record, st.record, path) by {
          assert path in first.state.record - {a.path} <==> path in st.record - {a.path};
        }
        assert Join(roDir, path) !in first.calls;
      }
      FreshStaysFresh(updateFile, roDir, src, first.state, accesses[1..], path);
    }
  }

  /** No request before the `i`-th observes the same path. */
  predicate FirstVisit(accesses: seq<Request>, i: int)
    requires 0 <= i < |accesses|
  {
    forall j :: 0 <= j < i ==> accesses[j].path != accesses[i].path
  }

  /** The requests the gate would regenerate on: the first request on each
      source file the record does not yet vouch for. Each of them has a clock
      not behind the file's mtime and would settle the file, were it
      regenerated. Later requests on a path, directories, absent paths and
      files already recorded are unconstrained. */
  predicate FirstVisitsSettle(updateFile: Option<Regenerator>, roDir: string, src: SourceTree,
                              st: GateState, accesses: seq<Request>)
  {
    updateFile.Some? ==>
      forall i :: 0 <= i < |accesses| && FirstVisit(accesses, i) && Stale(src, st.record, accesses[i].path) ==>
        && src[accesses[i].path].mtime <= accesses[i].env.now
        && Settles(updateFile.value(Join(roDir, accesses[i].path), src), accesses[i].env)
  }

  /** Freshness is sticky: against an unchanged source, when the first
      request on each file the record does not yet vouch for settles it with
      the clock not behind the source, a sequence of gate calls regenerates
      each path at most once. */
  lemma {:induction false} AtMostOneRegenerationPerPath(updateFile: Option<Regenerator>, roDir: string,
                                                        src: SourceTree, st: GateState, accesses: seq<Request>)
    requires FirstVisitsSettle(updateFile, roDir, src, st, accesses)
    ensures NoDuplicates(Run(updateFile, roDir, src, st, accesses).calls)
    decreases |accesses|
  {
    if accesses != [] {
      var a := accesses[0];
      var first := Step(updateFile, roDir, src, st, a.path, a.env);
      var rest := Run(updateFile, roDir, src, first.state, accesses[1..]);
      if updateFile.Some? {
        assert FirstVisitsSettle(updateFile, roDir, src, first.state, accesses[1..]) by {
          var tail := accesses[1..];
          forall i | 0 <= i < |tail| && FirstVisit(tail, i) && Stale(src, first.state.record, tail[i].path)
            ensures src[tail[i].path].mtime <= tail[i].env.now
            ensures Settles(updateFile.value(Join(roDir, tail[i].path), src), tail[i].env)
          {
            var p := tail[i].path;
            assert tail[i] == accesses[i + 1];
            if p == a.path {
              // the first request already settled `p`, or found it fresh
              assert false;
            } else {
              assert SameAt(first.state.record, st.record, p) by {
                assert p in first.state.record - {a.path} <==> p in st.record - {a.path};
              }
              assert FirstVisit(accesses, i + 1) by {
                forall j | 0 <= j < i + 1
                  ensures accesses[j].path != accesses[i + 1].path
                {
                  if j > 0 {
                    assert accesses[j] == tail[j - 1];
                  }
                }
              }
            }
          }
        }
      }
      AtMostOneRegenerationPerPath(updateFile, roDir, src, first.state, accesses[1..]);
      if first.calls != [] {
        assert FirstVisit(accesses, 0);
        assert Fresh(src, first.state.record, a.path);
        FreshStaysFresh(updateFile, roDir, src, first.state, accesses[1..], a.path);
        assert first.calls + rest.calls == [Join(roDir, a.path)] + rest.calls;
      } else {
        assert first.calls + rest.calls == rest.calls;
      }
    }
  }
}
