/**
  A directory whose changes become durable only when the directory is synced. A crash keeps the
  durable directory and some prefix of the changes made since.
 */
module FileSystem {
  import opened Model
  import opened ByteStrings

  datatype Node = File(bytes: Bytes) | Other

  /** A name that is absent from the map is missing. */
  type Directory = map<Path, Node>

  datatype DirectoryOp =
    | Put(path: Path, node: Node)
    | Rename(source: Path, path: Path)
    | Remove(path: Path)

  function Step(d: Directory, op: DirectoryOp): Directory {
    match op
    case Put(path, node) => d[path := node]
    case Rename(source, path) => if source in d then (d - {source})[path := d[source]] else d
    case Remove(path) => d - {path}
  }

  function Replay(d: Directory, ops: seq<DirectoryOp>): Directory {
    if |ops| == 0 then d else Step(Replay(d, ops[..|ops| - 1]), ops[|ops| - 1])
  }

  datatype Fs = Fs(durable: Directory, pending: seq<DirectoryOp>) {
    /** What a crash that keeps the first `n` unsynced changes leaves. */
    function View(n: nat): Directory
      requires n <= |pending|
    {
      Replay(durable, pending[..n])
    }

    function Visible(): Directory {
      Replay(durable, pending)
    }

    function Act(op: DirectoryOp): Fs {
      Fs(durable, pending + [op])
    }

    function Sync(): Fs {
      Fs(Visible(), [])
    }

    function Crash(n: nat): Fs
      requires n <= |pending|
    {
      Fs(View(n), [])
    }
  }

  lemma VisibleIsLastView(fs: Fs)
    ensures fs.View(|fs.pending|) == fs.Visible()
  {
    assert fs.pending[..|fs.pending|] == fs.pending;
  }

  /** A change adds one possible crash state, the one with the change, and keeps the others. */
  lemma ViewsAfter(fs: Fs, op: DirectoryOp)
    ensures fs.Act(op).Visible() == Step(fs.Visible(), op)
    ensures forall n | 0 <= n <= |fs.pending| :: fs.Act(op).View(n) == fs.View(n)
    ensures fs.Act(op).View(|fs.pending| + 1) == Step(fs.Visible(), op)
  {
    var fs' := fs.Act(op);
    assert fs'.pending[..|fs.pending|] == fs.pending;
    assert fs'.pending[..|fs.pending| + 1] == fs'.pending;
    forall n | 0 <= n <= |fs.pending| ensures fs'.View(n) == fs.View(n) {
      assert fs'.pending[..n] == fs.pending[..n];
    }
  }

  ghost predicate CrashOf(before: Fs, after: Fs) {
    exists n: nat :: n <= |before.pending| && before.Crash(n) == after
  }

  lemma CrashWitness(fs: Fs, n: nat)
    requires n <= |fs.pending|
    ensures CrashOf(fs, fs.Crash(n))
  {
    var after := fs.Crash(n);
    assert n <= |fs.pending| && fs.Crash(n) == after;
  }

  /** The name holds this node now and after any crash. */
  ghost predicate Stable(fs: Fs, path: Path, node: Node) {
    forall n | 0 <= n <= |fs.pending| :: path in fs.View(n) && fs.View(n)[path] == node
  }

  datatype PathKind = Missing | RegularFile | Irregular

  function KindIn(d: Directory, path: Path): PathKind {
    if path !in d then Missing else if d[path].File? then RegularFile else Irregular
  }

  /** How an operation on files ended. */
  datatype Ending = Done | Errored | Crashed

  /** The directory as the running program sees it; operations may fail, and the machine may stop. */
  class Disk {
    var fs: Fs
    /** Operations fail only for a reason visible in the directory, and the machine does not stop. */
    const dependable: bool

    constructor (fs: Fs, dependable: bool)
      ensures this.fs == fs && this.dependable == dependable
    {
      this.fs := fs;
      this.dependable := dependable;
    }

    function Inspect(path: Path): PathKind
      reads this
    {
      KindIn(fs.Visible(), path)
    }

    /** A point where the machine may stop and lose unsynced changes. */
    method MayCrash() returns (crashed: bool)
      modifies this
      ensures dependable ==> !crashed
      ensures !crashed ==> fs == old(fs)
      ensures crashed ==> CrashOf(old(fs), fs)
    {
      crashed := *;
      if dependable {
        crashed := false;
      }
      if crashed {
        var n: nat := *;
        if n > |fs.pending| {
          n := |fs.pending|;
        }
        ghost var before := fs;
        fs := fs.Crash(n);
        CrashWitness(before, n);
      }
    }

    method CrashTo(n: nat)
      requires n <= |fs.pending|
      modifies this
      ensures fs == old(fs).Crash(n)
    {
      fs := fs.Crash(n);
    }

    method Create(path: Path, bytes: Bytes)
      requires path !in fs.Visible()
      modifies this
      ensures fs == old(fs).Act(Put(path, File(bytes)))
    {
      fs := fs.Act(Put(path, File(bytes)));
    }

    method MayFail() returns (failed: bool)
      ensures dependable ==> !failed
    {
      failed := *;
      if dependable {
        failed := false;
      }
    }

    /** Never replaces an existing target. */
    method RenameNoReplace(source: Path, path: Path) returns (ok: bool)
      requires source != path
      modifies this
      ensures ok ==>
                && source in old(fs).Visible() && path !in old(fs).Visible()
                && fs == old(fs).Act(Rename(source, path))
      ensures !ok ==> fs == old(fs)
      ensures dependable ==> (ok <==> source in old(fs).Visible() && path !in old(fs).Visible())
    {
      var failed := MayFail();
      ok := !failed && source in fs.Visible() && path !in fs.Visible();
      if ok {
        fs := fs.Act(Rename(source, path));
      }
    }

    method RemoveRegularFileIfExists(path: Path) returns (ok: bool)
      modifies this
      ensures ok ==> fs == if path in old(fs).Visible() then old(fs).Act(Remove(path)) else old(fs)
      ensures ok ==> path in old(fs).Visible() ==> old(fs).Visible()[path].File?
      ensures !ok ==> fs == old(fs)
      ensures dependable ==> (ok <==> KindIn(old(fs).Visible(), path) != Irregular)
    {
      match Inspect(path)
      case Missing => ok := true;
      case RegularFile =>
        var failed := MayFail();
        ok := !failed;
        if ok {
          fs := fs.Act(Remove(path));
        }
      case Irregular => ok := false;
    }

    method SyncParent() returns (ok: bool)
      modifies this
      ensures fs == if ok then old(fs).Sync() else old(fs)
      ensures dependable ==> ok
    {
      var failed := MayFail();
      ok := !failed;
      if ok {
        fs := fs.Sync();
      }
    }
  }
}
