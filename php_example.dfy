/** The regenerator the example command installs: every `.php` source file
    gets "\nhello\n" appended, every other file needs no regeneration. Used
    here as a concrete instance of `UpdateFile` to exercise the gate end to end. */
module PhpExample {
  import opened FsTypes
  import Gate
  import Logging
  import LambdaFs

  /** The bytes of "\nhello\n". */
  const Hello: Bytes := [10, 104, 101, 108, 108, 111, 10]

  predicate HasSuffix(s: string, suffix: string)
  {
    |suffix| <= |s| && s[|s| - |suffix|..] == suffix
  }

  /** `UpdateFile` of the example command. Reading fails on a directory or
      on a path that is gone. */
  function AppendHello(file: JoinedPath, src: SourceTree): (r: Gate.Regen)
    // only non-`.php` files are left alone; a `.php` source is always rewritten or an error
    ensures r.NoUpdate? <==> !HasSuffix(file.rel, ".php")
    // new content exists only for a readable source file: its bytes, then hello
    ensures r.Updated? ==>
              && file.rel in src && src[file.rel].File?
              && |r.content| == |src[file.rel].content| + |Hello|
              && r.content[..|src[file.rel].content|] == src[file.rel].content
              && r.content[|src[file.rel].content|..] == Hello
    // a readable `.php` source file always yields content to write
    ensures HasSuffix(file.rel, ".php") && file.rel in src && src[file.rel].File? ==> r.Updated?
  {
    if !HasSuffix(file.rel, ".php") then Gate.NoUpdate
    else if file.rel in src && src[file.rel].File? then Gate.Updated(src[file.rel].content + Hello)
    else Gate.Failure("read failed")
  }

  /** A merged view that answers OK and leaves the writable tree alone. */
  function Answer(c: LambdaFs.Call, ro: SourceTree, rw: RwTree): Reply
  {
    Reply(Status(0), Nothing)
  }

  function Untouched(c: LambdaFs.Call, ro: SourceTree, rw: RwTree): RwTree
  {
    rw
  }

  /** A mounted filesystem over a `.php` source file (mtime 1, bytes `original`) at the
      default log level: the first stat materialises `original` + hello and
      records the clock, and a second stat with the source unchanged
      regenerates nothing and leaves it as it is. */
  method StatTwice(path: Path, original: Bytes, context: Context)
    returns (afterFirst: Bytes, afterSecond: Bytes, ghost regenerations: seq<JoinedPath>)
    requires HasSuffix(path, ".php")
    ensures afterFirst == original + Hello
    ensures afterSecond == original + Hello
    // the regenerator ran for the first stat only
    ensures regenerations == [Join("/ro", path)]
  {
    var host := new LambdaFs.Host(map[path := File(1, original)], map[], 5, Logging.DefaultLogLevel, true);
    var view := new LambdaFs.MergeView(host, Answer, Untouched);
    var fs := new LambdaFs.LambdaFileSystem("/mnt", "/rw", "/ro", view, Some(AppendHello), host);
    var source := Join("/ro", path);
    assert Logging.ShouldLogDebug(Logging.DefaultLogLevel);
    assert AppendHello(source, host.ro) == Gate.Updated(original + Hello);

    var _ := fs.GetAttr(path, context);
    assert fs.State() == Gate.GateState(map[path := original + Hello], map[path := 5]);
    assert fs.regenerated == [source];
    afterFirst := host.rw[path];

    var _ := fs.GetAttr(path, context);
    afterSecond := host.rw[path];
    regenerations := fs.regenerated;
  }

  /** A fresh mount whose writable tree and record are set to the state
      `StatTwice` leaves (`original` + hello, recorded at 5), over a source
      rewritten since (mtime 7): the next stat regenerates exactly once and
      materialises the new bytes + hello. */
  method StatAfterRewrite(path: Path, original: Bytes, rewritten: Bytes, context: Context)
    returns (afterRewrite: Bytes, ghost regenerations: seq<JoinedPath>)
    requires HasSuffix(path, ".php")
    ensures afterRewrite == rewritten + Hello
    // the regenerator ran exactly once, on the rewritten source
    ensures regenerations == [Join("/ro", path)]
  {
    var host := new LambdaFs.Host(map[path := File(7, rewritten)], map[path := original + Hello], 9, Logging.DefaultLogLevel, true);
    var view := new LambdaFs.MergeView(host, Answer, Untouched);
    var fs := new LambdaFs.LambdaFileSystem("/mnt", "/rw", "/ro", view, Some(AppendHello), host);
    fs.fileUpdatedAt := map[path := 5];
    var source := Join("/ro", path);
    assert Logging.ShouldLogDebug(Logging.DefaultLogLevel);
    assert AppendHello(source, host.ro) == Gate.Updated(rewritten + Hello);

    var _ := fs.GetAttr(path, context);
    afterRewrite := host.rw[path];
    regenerations := fs.regenerated;
  }
}
