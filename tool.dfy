/** The command-line tool's extractor (squashtool/main.go), first its
    package functions `chmod`, `chown`, `mknod`, `prepWrite` and `doCreate`,
    which act on the target filesystem given to them. Each is proved to do
    what the matching function of `ToolSpec` describes. */
module ToolOps {
  import opened Common
  import opened FsModel
  import opened Squash
  import opened ExtractSpec
  import opened ToolSpec

  /** `chmod(path, mode)`. */
  method Chmod(target: TargetFs, p: Path, mode: bv32) returns (err: Option<Error>)
    modifies target
    ensures Step(target.fs, err) == ToolChmod(target.env, old(target.fs), p, mode)
  {
    if mode & ModeSymlink != 0 {
      return None;
    }
    err := target.Chmod(Sys, p, mode & PermMask);
  }

  /** `chown(path, uid, gid)`. */
  method Chown(target: TargetFs, p: Path, uid: int, gid: int) returns (err: Option<Error>)
    modifies target
    ensures Step(target.fs, err) == ToolChown(target.env, old(target.fs), p, uid, gid)
  {
    if !target.env.fakeroot {
      err := target.Chown(Sys, p, uid, gid, false);
      return;
    }
    err := target.Chown(Exec, p, uid, gid, false);
  }

  /** `mknod(path, info)`. */
  method Mknod(target: TargetFs, p: Path, info: Info) returns (err: Option<Error>)
    modifies target
    ensures Step(target.fs, err) == ToolMknod(target.env, old(target.fs), p, info)
  {
    if !target.env.fakeroot {
      err := target.Mknod(Sys, p, DefaultFilePerm, info.rdev);
      return;
    }
    var majMin: seq<nat> := [info.rdev / 256, info.rdev % 256];
    var dtype: char;
    if info.fmode & ModeCharDevice != 0 {
      dtype := 'c';
    } else if info.fmode & ModeDevice != 0 {
      dtype := 'b';
    } else if info.fmode & ModeNamedPipe != 0 {
      dtype := 'p';
      majMin := [];
    } else {
      return Some(NotADevice(p));
    }
    assert dtype == DeviceLetter(info.fmode) && majMin == MajorMinor(dtype, info.rdev);
    ghost var s0 := target.fs;
    err := target.MknodCmd(p, info.fmode & PermBits, dtype, majMin);
    FakerootMknodUnfold(target.env, s0, p, info);
    if err.Some? && target.PathExists(p) {
      err := Some(Exist);
    }
  }

  method RunCleanup(target: TargetFs, c: Cleanup) returns (err: Option<Error>)
    modifies target
    ensures Step(target.fs, err) == ToolRunCleanup(target.env, old(target.fs), c)
  {
    match c
    case NoOp => err := None;
    case RestoreMode(p, m) => err := Chmod(target, p, m);
  }

  /** `prepWrite(path, finfo)`. */
  method PrepWrite(target: TargetFs, p: Path, newIsDir: bool) returns (cleanup: Cleanup, err: Option<Error>)
    modifies target
    ensures Prep(target.fs, cleanup, err) == ToolPrepWrite(target.env, old(target.fs), p, newIsDir)
  {
    cleanup := NoOp;
    var dir := Parent(p);
    var st := target.Stat(dir);
    if st.Err? {
      return cleanup, Some(st.error);
    }
    if !st.value.kind.Directory? {
      return cleanup, Some(NotADirectory(p));
    }
    if !target.Access(dir) {
      cleanup, err := GrantWrite(target, dir, st.value.perm);
      if err.Some? {
        return;
      }
    }
    ghost var before := target.fs;
    err := ClearTarget(target, p, newIsDir);
    ClearTargetKeepsCleanup(target.env, before, p, newIsDir, cleanup);
  }

  /** The middle of `prepWrite`: make the parent directory `dir` writable
      for a while. */
  method GrantWrite(target: TargetFs, dir: Path, perm: bv32) returns (cleanup: Cleanup, err: Option<Error>)
    modifies target
    ensures Prep(target.fs, cleanup, err) == ToolGrantWrite(target.env, old(target.fs), dir, perm)
  {
    cleanup := NoOp;
    var oldPerms := ModeDir | perm;
    err := Chmod(target, dir, OpenDirPerm);
    if err.Some? {
      return;
    }
    if !target.Access(dir) {
      var b := Chmod(target, dir, oldPerms);
      if b.Some? {
        return cleanup, Some(CannotMakeWritableSetBack(dir));
      }
      return cleanup, Some(CannotMakeWritable(dir));
    }
    cleanup := RestoreMode(dir, oldPerms);
  }

  /** The end of `prepWrite`: get rid of what is at `p`. */
  method ClearTarget(target: TargetFs, p: Path, newIsDir: bool) returns (err: Option<Error>)
    modifies target
    ensures Prep(target.fs, NoOp, err) == ExtractSpec.ClearTarget(target.env, old(target.fs), p, newIsDir, NoOp)
  {
    var ls := target.Lstat(p);
    if ls == Err(NotExist) {
      return None;
    } else if ls.Err? {
      return Some(ls.error);
    }
    if ls.value.kind.Directory? {
      if newIsDir {
        return None;
      }
      err := target.RemoveAll(p);
      return;
    }
    err := target.Remove(p);
  }

  /** The creator closures. */
  method Create(target: TargetFs, c: Creator, p: Path) returns (err: Option<Error>)
    modifies target
    ensures Step(target.fs, err) == ToolCreate(target.env, old(target.fs), c, p)
  {
    match c
    case MakeSymlink(t) => err := target.Symlink(t, p);
    case MakeFifo => err := target.Mkfifo(p, DefaultFilePerm);
    case MakeSocket => err := target.Listen(p);
    case MakeNode(info) => err := Mknod(target, p, info);
  }

  /** `doCreate(path, info, creator)`, as written. */
  method DoCreate(target: TargetFs, p: Path, newIsDir: bool, c: Creator) returns (err: Option<Error>)
    modifies target
    ensures Step(target.fs, err) == ToolDoCreate(target.env, old(target.fs), p, newIsDir, c)
  {
    var createError: Option<Error> := None;
    var cleanup, e := PrepWrite(target, p, newIsDir);
    if e.Some? {
      createError := Create(target, c, p);
    }
    var cleanupError := RunCleanup(target, cleanup);
    if cleanupError.Some? {
      if createError.None? {
        return cleanupError;
      }
    }
    return createError;
  }
}

/** The tool's `Extractor`, which walks the archive with its own `extract`
    visitor; proved against `ToolSpec` like the package functions. */
module Tool {
  import opened Common
  import opened FsModel
  import opened Squash
  import opened ExtractSpec
  import opened ToolSpec
  import ToolOps

  /** The tool's `Extractor`; it keeps no state of its own besides its
      settings. */
  class ToolExtractor {
    const opts: Options
    const archive: Archive
    const target: TargetFs

    constructor(opts: Options, archive: Archive, target: TargetFs)
      ensures this.opts == opts && this.archive == archive && this.target == target
    {
      this.opts := opts;
      this.archive := archive;
      this.target := target;
    }

    /** `extractRegular`, writing to `p`. */
    method ExtractRegular(p: Path, info: Info) returns (err: Option<Error>)
      modifies target
      ensures Step(target.fs, err) == ToolExtractRegular(target.env, old(target.fs), p, info)
    {
      var finalError: Option<Error> := None;
      var cleanup, e := ToolOps.PrepWrite(target, p, IsDir(info));
      if e.None? {
        var oe := target.OpenFile(p, DefaultFilePerm);
        if oe.None? {
          var written, ce := target.Copy(p, info.content);
          if ce.None? {
            if written != info.fsize {
              finalError := Some(SizeMismatch(written, p, info.fsize));
            }
          }
        } else {
          finalError := oe;
        }
      } else {
        finalError := e;
      }
      var cleanupError := ToolOps.RunCleanup(target, cleanup);
      if finalError.None? {
        finalError := cleanupError;
      }
      return finalError;
    }

    /** `extractDir`, at `p`. */
    method ExtractDir(p: Path) returns (err: Option<Error>)
      modifies target
      ensures Step(target.fs, err) == ExtractSpec.ExtractDir(target.env, old(target.fs), p)
    {
      var e := target.Mkdir(p, DefaultDirPerm);
      if e == Some(Exist) {
        return None;
      } else if e.Some? {
        return e;
      }
      return None;
    }

    /** `applyWhiteOut`, at `p`. */
    method ApplyWhiteOut(p: Path) returns (err: Option<Error>)
      modifies target
      ensures Step(target.fs, err) == ExtractSpec.ApplyWhiteOut(target.env, old(target.fs), p)
    {
      if target.PathExists(p) {
        err := target.RemoveAll(p);
      } else {
        err := None;
      }
    }

    /** The type dispatch of `extract`; `skip` when a gated entry is
        skipped (the visitor then returns nil at once). */
    method Dispatch(path: Path, info: Info) returns (skip: bool, err: Option<Error>)
      modifies target
      ensures var k := Classify(info.fmode);
        && skip == Gated(opts, k)
        && (skip ==> target.fs == old(target.fs) && err.None?)
        && (!skip ==> Step(target.fs, err) == ToolMaterialise(target.env, old(target.fs), k, path, opts.dir + path, info))
    {
      var mode := info.fmode;
      var fpath := opts.dir + path;
      skip := false;
      if mode & ModeDir != 0 {
        assert Classify(mode) == DirE;
        err := ExtractDir(fpath);
      } else if mode & ModeSymlink != 0 {
        assert Classify(mode) == SymlinkE;
        err := ToolOps.DoCreate(target, fpath, IsDir(info), MakeSymlink(info.symlinkTarget));
      } else if mode & ModeSocket != 0 {
        assert Classify(mode) == SocketE;
        if !opts.sockets {
          return true, None;
        }
        err := ToolOps.DoCreate(target, fpath, IsDir(info), MakeSocket);
      } else if mode & ModeNamedPipe != 0 {
        assert Classify(mode) == FifoE;
        err := ToolOps.DoCreate(target, fpath, IsDir(info), MakeFifo);
      } else if mode & ModeDevice != 0 {
        assert Classify(mode) == BlockE;
        if !opts.devs {
          return true, None;
        }
        err := ToolOps.DoCreate(target, fpath, IsDir(info), MakeNode(info));
      } else if mode & ModeCharDevice != 0 {
        assert Classify(mode) == CharE;
        if !opts.devs {
          return true, None;
        }
        err := ToolOps.DoCreate(target, fpath, IsDir(info), MakeNode(info));
      } else if mode & ModeIrregular != 0 {
        assert Classify(mode) == IrregularE;
        err := Some(IrregularFile(path));
      } else {
        ClassifyTotal(mode);
        assert Classify(mode) == RegularE;
        err := ExtractRegular(fpath, info);
      }
    }

    /** The ownership and permission part of `extract`. */
    method Finish(fpath: Path, info: Info) returns (err: Option<Error>)
      modifies target
      ensures Step(target.fs, err) == ToolFinish(opts, target.env, old(target.fs), fpath, info)
    {
      if opts.owners {
        var e := ToolOps.Chown(target, fpath, info.uid, info.gid);
        if e.Some? {
          return e;
        }
      }
      if opts.perms {
        var e := ToolOps.Chmod(target, fpath, info.fmode);
        if e.Some? {
          return e;
        }
      }
      return None;
    }

    /** The visitor `extract(path, info, perr)`. */
    method Visit(path: Path, info: Info, perr: Option<Error>) returns (err: Option<Error>)
      modifies target
      ensures (target.fs, err) == ToolEntry(opts, target.env, old(target.fs), path, info, perr)
    {
      if perr.Some? {
        return perr;
      }
      if IsWhiteOut(info) {
        if opts.whiteOuts {
          return None;
        }
        err := ApplyWhiteOut(opts.dir + path);
        return;
      }
      ClassifyTotal(info.fmode);
      var skip, e := Dispatch(path, info);
      if skip {
        return None;
      }
      if e.Some? {
        return e;
      }
      err := Finish(opts.dir + path, info);
    }

    /** `walk(path, info, e.extract)`. */
    method Walk(p: Path, info: Info) returns (err: Option<Error>)
      requires p in archive.inodes
      modifies target
      ensures var o := WalkAt(archive, p, info, ToolVisitor(opts, target.env), old(target.fs));
        target.fs == o.state && err == o.err
      decreases Deeper(archive, p), 1
    {
      ghost var visit := ToolVisitor(opts, target.env);
      if !IsDir(info) {
        err := Visit(p, info, None);
        return;
      }
      var names := List(archive, p);
      var lerr := if names.Err? then Some(names.error) else None;
      var r := Visit(p, info, lerr);
      if lerr.Some? || r.Some? {
        return r;
      }
      var ns := names.value;
      ghost var s1 := target.fs;
      var i := 0;
      while i < |ns|
        invariant 0 <= i <= |ns|
        invariant var all := WalkNames(archive, p, ns, 0, visit, s1);
          var rest := WalkNames(archive, p, ns, i, visit, target.fs);
          all.state == rest.state && all.err == rest.err
      {
        var c := p + [ns[i]];
        match Lstat(archive, c) {
          case Err(e) =>
            // The visitor hands back the error it is given
            // (`ToolFacts.ToolVisitErrorPassedThrough`) and a failed `Lstat`
            // is never `SkipDir`, so this arm always returns.
            var r := Visit(c, ZeroInfo, Some(e));
            if Aborts(r) {
              return r;
            }
          case Ok(ci) =>
            DeeperShrinks(archive, p, c);
            var e := Walk(c, ci);
            if e.Some? && (!IsDir(ci) || e != Some(SkipDir)) {
              return e;
            }
            i := i + 1;
        }
      }
      return None;
    }

    /** `Extract()`: the walk, and nothing after it. */
    method Extract() returns (err: Option<Error>)
      modifies target
      ensures var o := ToolRun(opts, target.env, archive, old(target.fs));
        target.fs == o.state && err == o.err
    {
      if opts.root !in archive.inodes {
        return Some(NotExist);
      }
      err := Walk(opts.root, GetFileInfo(opts.root, archive.inodes[opts.root]));
      if err == Some(SkipDir) {
        err := None;
      }
    }
  }
}
