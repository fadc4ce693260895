/** The library's `Extractor` (extract.go) as a class: its operations are
    chosen once and kept in `ops`, its deferred cleanups accumulate in
    `cleanups`, and every step changes the target filesystem through
    `TargetFs`. Each method is proved to do what the matching function of
    `ExtractSpec` describes, and the walk is proved to be `Squash.WalkAt`
    with the `extract` visitor. */
module Extract {
  import opened Common
  import opened FsModel
  import opened Squash
  import opened ExtractSpec

  class Extractor {
    const opts: Options
    const archive: Archive
    const target: TargetFs
    /** `e.Ops`; `None` is the nil interface. */
    var ops: Option<OpsKind>
    /** `e.cleanups`. */
    var cleanups: seq<Cleanup>

    constructor(opts: Options, archive: Archive, target: TargetFs, ops: Option<OpsKind>)
      ensures this.opts == opts && this.archive == archive && this.target == target
      ensures this.ops == ops && cleanups == []
    {
      this.opts := opts;
      this.archive := archive;
      this.target := target;
      this.ops := ops;
      cleanups := [];
    }

    /** What the visitor changes: the target filesystem and the cleanups. */
    function State(): ExtState
      reads this, target
    {
      ExtState(target.fs, cleanups)
    }

    /** `e.Ops.Chmod(p, mode)`. */
    method Chmod(p: Path, mode: bv32) returns (err: Option<Error>)
      requires ops.Some?
      modifies target
      ensures Step(target.fs, err) == OpsChmod(target.env, old(target.fs), ops.value, p, mode)
    {
      match ops.value
      case GoOps => err := target.Chmod(Sys, p, mode);
      case LibcOps => err := target.Chmod(Sys, p, mode);
      case FakerootOps => err := target.Chmod(Exec, p, mode & PermMask);
    }

    /** `e.Ops.Chown(p, uid, gid)`. */
    method Chown(p: Path, uid: int, gid: int) returns (err: Option<Error>)
      requires ops.Some?
      modifies target
      ensures Step(target.fs, err) == OpsChown(target.env, old(target.fs), ops.value, p, uid, gid)
    {
      match ops.value
      case GoOps => err := target.Chown(Sys, p, uid, gid, true);
      case LibcOps => err := target.Chown(Sys, p, uid, gid, true);
      case FakerootOps => err := target.Chown(Exec, p, uid, gid, false);
    }

    /** `e.Ops.Mknod(p, info)`. */
    method Mknod(p: Path, info: Info) returns (err: Option<Error>)
      requires ops.Some?
      modifies target
      ensures Step(target.fs, err) == OpsMknod(target.env, old(target.fs), ops.value, p, info)
    {
      match ops.value
      case GoOps => err := target.Mknod(Sys, p, DefaultFilePerm, info.rdev);
      case LibcOps => err := target.Mknod(Libc, p, DefaultFilePerm, info.rdev);
      case FakerootOps => err := FakerootMknod(p, info);
    }

    /** `FakerootOps.Mknod(p, info)`. */
    method FakerootMknod(p: Path, info: Info) returns (err: Option<Error>)
      modifies target
      ensures Step(target.fs, err) == ExtractSpec.FakerootMknod(target.env, old(target.fs), p, info)
    {
      var majMin: seq<nat> := [info.rdev / 256, info.rdev % 256];
      var dtype: char;
      if info.fmode & ModeCharDevice != 0 {
        dtype := 'c';
      } else if info.fmode & ModeDevice != 0 {
        dtype := 'b';
      } else if info.fmode & ModeNamedPipe != 0 {
        dtype := 'p';
        majMin := [];
      } else {
        return Some(NotADevice(p));
      }
      assert dtype == DeviceLetter(info.fmode) && majMin == MajorMinor(dtype, info.rdev);
      ghost var s0 := target.fs;
      err := target.MknodCmd(p, info.fmode & PermBits, dtype, majMin);
      FakerootMknodUnfold(target.env, s0, p, info);
      if err.Some? && target.PathExists(p) {
        err := Some(Exist);
      }
    }

    method RunCleanup(c: Cleanup) returns (err: Option<Error>)
      requires ops.Some?
      modifies target
      ensures Step(target.fs, err) == ExtractSpec.RunCleanup(target.env, old(target.fs), ops.value, c)
    {
      match c
      case NoOp => err := None;
      case RestoreMode(p, m) => err := Chmod(p, m);
    }

    /** `prepWrite(p, info)`. */
    method PrepWrite(p: Path, newIsDir: bool) returns (cleanup: Cleanup, err: Option<Error>)
      requires ops.Some?
      modifies target
      ensures Prep(target.fs, cleanup, err) == ExtractSpec.PrepWrite(target.env, old(target.fs), ops.value, p, newIsDir)
    {
      cleanup := NoOp;
      var dir := Parent(p);
      var st := target.Stat(dir);
      if st.Err? {
        return cleanup, Some(st.error);
      }
      if !st.value.kind.Directory? {
        return cleanup, Some(NotADirectory(p));
      }
      if !target.Access(dir) {
        cleanup, err := GrantWrite(dir, st.value.perm);
        if err.Some? {
          return;
        }
      }
      ghost var before := target.fs;
      err := ClearTarget(p, newIsDir);
      ClearTargetKeepsCleanup(target.env, before, p, newIsDir, cleanup);
    }

    /** The middle of `prepWrite`: make the parent directory `dir`
        writable for a while. */
    method GrantWrite(dir: Path, perm: bv32) returns (cleanup: Cleanup, err: Option<Error>)
      requires ops.Some?
      modifies target
      ensures Prep(target.fs, cleanup, err) == ExtractSpec.GrantWrite(target.env, old(target.fs), ops.value, dir, perm)
    {
      cleanup := NoOp;
      var oldPerms := ModeDir | perm;
      err := Chmod(dir, OpenDirPerm);
      if err.Some? {
        return;
      }
      if !target.Access(dir) {
        var b := Chmod(dir, oldPerms);
        if b.Some? {
          return cleanup, Some(CannotMakeWritableSetBack(dir));
        }
        return cleanup, Some(CannotMakeWritable(dir));
      }
      cleanup := RestoreMode(dir, oldPerms);
    }

    /** The end of `prepWrite`: get rid of what is at `p`. */
    method ClearTarget(p: Path, newIsDir: bool) returns (err: Option<Error>)
      modifies target
      ensures Prep(target.fs, NoOp, err) == ExtractSpec.ClearTarget(target.env, old(target.fs), p, newIsDir, NoOp)
    {
      var ls := target.Lstat(p);
      if ls == Err(NotExist) {
        return None;
      } else if ls.Err? {
        return Some(ls.error);
      }
      if ls.value.kind.Directory? {
        if newIsDir {
          return None;
        }
        err := target.RemoveAll(p);
        return;
      }
      err := target.Remove(p);
    }

    /** The creator closures. */
    method Create(c: Creator, p: Path) returns (err: Option<Error>)
      requires ops.Some?
      modifies target
      ensures Step(target.fs, err) == ExtractSpec.Create(target.env, old(target.fs), ops.value, c, p)
    {
      match c
      case MakeSymlink(t) => err := target.Symlink(t, p);
      case MakeFifo => err := target.Mkfifo(p, DefaultFilePerm);
      case MakeSocket => err := target.Listen(p);
      case MakeNode(info) => err := Mknod(p, info);
    }

    /** `doCreate(p, info, creator)`. */
    method DoCreate(p: Path, newIsDir: bool, c: Creator) returns (err: Option<Error>)
      requires ops.Some?
      modifies target
      ensures Step(target.fs, err) == ExtractSpec.DoCreate(target.env, old(target.fs), ops.value, p, newIsDir, c)
    {
      var createError: Option<Error> := None;
      var cleanup, e := PrepWrite(p, newIsDir);
      if e.None? {
        createError := Create(c, p);
      }
      var cleanupError := RunCleanup(cleanup);
      if cleanupError.Some? {
        if createError.None? {
          return cleanupError;
        }
      }
      return createError;
    }

    /** `extractRegular`, writing to `p`. */
    method ExtractRegular(p: Path, info: Info) returns (err: Option<Error>)
      requires ops.Some?
      modifies target
      ensures Step(target.fs, err) == ExtractSpec.ExtractRegular(target.env, old(target.fs), ops.value, p, info)
    {
      var finalError: Option<Error> := None;
      var cleanup, e := PrepWrite(p, IsDir(info));
      if e.None? {
        var oe := target.OpenFile(p, DefaultFilePerm);
        if oe.None? {
          var written, ce := target.Copy(p, info.content);
          if ce.None? {
            if written != info.fsize {
              finalError := Some(SizeMismatch(written, p, info.fsize));
            }
          }
        } else {
          finalError := oe;
        }
      } else {
        finalError := e;
      }
      var cleanupError := RunCleanup(cleanup);
      if finalError.None? {
        finalError := cleanupError;
      }
      return finalError;
    }

    /** `extractDir`, at `p`. */
    method ExtractDir(p: Path) returns (err: Option<Error>)
      modifies target
      ensures Step(target.fs, err) == ExtractSpec.ExtractDir(target.env, old(target.fs), p)
    {
      var e := target.Mkdir(p, DefaultDirPerm);
      if e == Some(Exist) {
        return None;
      } else if e.Some? {
        return e;
      }
      return None;
    }

    /** `applyWhiteOut`, at `p`. */
    method ApplyWhiteOut(p: Path) returns (err: Option<Error>)
      modifies target
      ensures Step(target.fs, err) == ExtractSpec.ApplyWhiteOut(target.env, old(target.fs), p)
    {
      if target.PathExists(p) {
        err := target.RemoveAll(p);
      } else {
        err := None;
      }
    }

    /** The type dispatch of `extract`; `None` in `skip` when a gated entry
        is skipped (the visitor then returns nil at once). */
    method Dispatch(path: Path, info: Info) returns (skip: bool, err: Option<Error>)
      requires ops.Some?
      modifies target
      ensures var k := Classify(info.fmode);
        && skip == Gated(opts, k)
        && (skip ==> target.fs == old(target.fs) && err.None?)
        && (!skip ==> Step(target.fs, err) == Materialise(target.env, old(target.fs), ops.value, k, path, opts.dir + path, info))
    {
      var mode := info.fmode;
      var fpath := opts.dir + path;
      skip := false;
      if mode & ModeDir != 0 {
        assert Classify(mode) == DirE;
        err := ExtractDir(fpath);
      } else if mode & ModeSymlink != 0 {
        assert Classify(mode) == SymlinkE;
        err := DoCreate(fpath, IsDir(info), MakeSymlink(info.symlinkTarget));
      } else if mode & ModeSocket != 0 {
        assert Classify(mode) == SocketE;
        if !opts.sockets {
          return true, None;
        }
        err := DoCreate(fpath, IsDir(info), MakeSocket);
      } else if mode & ModeNamedPipe != 0 {
        assert Classify(mode) == FifoE;
        err := DoCreate(fpath, IsDir(info), MakeFifo);
      } else if mode & ModeDevice != 0 {
        assert Classify(mode) == BlockE;
        if !opts.devs {
          return true, None;
        }
        err := DoCreate(fpath, IsDir(info), MakeNode(info));
      } else if mode & ModeCharDevice != 0 {
        assert Classify(mode) == CharE;
        if !opts.devs {
          return true, None;
        }
        err := DoCreate(fpath, IsDir(info), MakeNode(info));
      } else if mode & ModeIrregular != 0 {
        assert Classify(mode) == IrregularE;
        err := Some(IrregularFile(path));
      } else {
        ClassifyTotal(mode);
        assert Classify(mode) == RegularE;
        err := ExtractRegular(fpath, info);
      }
    }

    /** The ownership and permission part of `extract`. */
    method Finish(fpath: Path, info: Info) returns (err: Option<Error>)
      requires ops.Some?
      modifies this, target
      ensures ops == old(ops)
      ensures (State(), err) == ExtractSpec.Finish(opts, target.env, ops.value, old(State()), fpath, info)
    {
      if opts.owners {
        var e := Chown(fpath, info.uid, info.gid);
        if e.Some? {
          return e;
        }
      }
      err := SetPerms(fpath, info);
    }

    /** The permission part of `extract`. */
    method SetPerms(fpath: Path, info: Info) returns (err: Option<Error>)
      requires ops.Some?
      modifies this, target
      ensures ops == old(ops)
      ensures (State(), err) == ExtractSpec.SetPerms(opts, target.env, ops.value, old(State()), fpath, info)
    {
      if !opts.perms || info.fmode & ModeSymlink != 0 {
        return None;
      }
      var mode := info.fmode;
      if mode & ModeDir != 0 && mode & OwnerRw == 0 {
        assert NeedsRw(info);
        mode := mode | OwnerRw;
        cleanups := cleanups + [RestoreMode(fpath, info.fmode)];
      } else {
        assert !NeedsRw(info);
      }
      assert mode == PermsMode(info);
      ghost var s0 := target.fs;
      err := Chmod(fpath, mode);
      SetPermsUnfold(opts, target.env, ops.value, old(State()), fpath, info, s0);
    }

    /** The visitor `extract(path, info, perr)`. */
    method Visit(path: Path, info: Info, perr: Option<Error>) returns (err: Option<Error>)
      requires ops.Some?
      modifies this, target
      ensures ops == old(ops)
      ensures (State(), err) == ExtractEntry(opts, target.env, ops.value, old(State()), path, info, perr)
    {
      if perr.Some? {
        return perr;
      }
      if IsWhiteOut(info) {
        if !opts.whiteOuts {
          return None;
        }
        err := ApplyWhiteOut(opts.dir + path);
        return;
      }
      ClassifyTotal(info.fmode);
      var skip, e := Dispatch(path, info);
      if skip {
        return None;
      }
      if e.Some? {
        return e;
      }
      err := Finish(opts.dir + path, info);
    }

    /** `walk(path, info, e.extract)`. */
    method Walk(p: Path, info: Info) returns (err: Option<Error>)
      requires p in archive.inodes && ops.Some?
      modifies this, target
      ensures ops == old(ops)
      ensures var o := WalkAt(archive, p, info, ExtractVisitor(opts, target.env, ops.value), old(State()));
        State() == o.state && err == o.err
      decreases Deeper(archive, p), 1
    {
      ghost var visit := ExtractVisitor(opts, target.env, ops.value);
      if !IsDir(info) {
        err := Visit(p, info, None);
        return;
      }
      var names := List(archive, p);
      var lerr := if names.Err? then Some(names.error) else None;
      var r := Visit(p, info, lerr);
      if lerr.Some? || r.Some? {
        return r;
      }
      var ns := names.value;
      ghost var s1 := State();
      var i := 0;
      while i < |ns|
        invariant 0 <= i <= |ns| && ops == old(ops)
        invariant var all := WalkNames(archive, p, ns, 0, visit, s1);
          var rest := WalkNames(archive, p, ns, i, visit, State());
          all.state == rest.state && all.err == rest.err
      {
        var c := p + [ns[i]];
        match Lstat(archive, c) {
          case Err(e) =>
            // The visitor hands back the error it is given
            // (`ExtractFacts.VisitErrorPassedThrough`) and a failed `Lstat`
            // is never `SkipDir`, so this arm always returns.
            var r := Visit(c, ZeroInfo, Some(e));
            if Aborts(r) {
              return r;
            }
          case Ok(ci) =>
            DeeperShrinks(archive, p, c);
            var e := Walk(c, ci);
            if e.Some? && (!IsDir(ci) || e != Some(SkipDir)) {
              return e;
            }
            i := i + 1;
        }
      }
      return None;
    }

    /** `Extract()`. */
    method Extract() returns (err: Option<Error>)
      modifies this, target
      ensures RunResult(ops, target.fs, cleanups, err)
              == Run(opts, target.env, archive, old(ops), old(target.fs), old(cleanups))
    {
      if ops.None? {
        if target.env.fakeroot {
          if !target.env.libcFound {
            return Some(LibraryNotFound);
          }
          ops := Some(LibcOps);
        } else {
          ops := Some(GoOps);
        }
      }
      var walkErr: Option<Error>;
      if opts.root !in archive.inodes {
        walkErr := Some(NotExist);
      } else {
        walkErr := Walk(opts.root, GetFileInfo(opts.root, archive.inodes[opts.root]));
        if walkErr == Some(SkipDir) {
          walkErr := None;
        }
      }
      var cleanErr: Option<Error> := None;
      ghost var s0 := target.fs;
      ghost var cs := cleanups;
      ghost var chosen := ops;
      var i := 0;
      while i < |cleanups|
        invariant cleanups == cs && ops == chosen && ops.Some?
        invariant 0 <= i <= |cleanups|
        invariant Drain(target.env, s0, ops.value, cleanups) == Drain(target.env, target.fs, ops.value, cleanups[i..])
        invariant cleanErr.None?
      {
        var e := RunCleanup(cleanups[i]);
        if e.Some? {
          if cleanErr.Some? {
            cleanErr := e;
          }
        }
        i := i + 1;
      }
      assert cleanups[i..] == [];
      if walkErr.Some? {
        return walkErr;
      }
      return cleanErr;
    }
  }

  lemma SetPermsUnfold(opts: Options, env: Env, ops: OpsKind, st: ExtState, fpath: Path, info: Info, s: Fs)
    requires opts.perms && info.fmode & ModeSymlink == 0 && s == st.fs
    ensures var c := OpsChmod(env, s, ops, fpath, PermsMode(info));
      ExtractSpec.SetPerms(opts, env, ops, st, fpath, info)
        == (ExtState(c.fs, if NeedsRw(info) then st.cleanups + [RestoreMode(fpath, info.fmode)] else st.cleanups), c.err)
  {
  }
}
