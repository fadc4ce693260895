/** What the command-line tool's own extractor (squashtool/main.go) does, as
    functions of the target filesystem. It is an older copy of the
    library's extractor that has drifted: the system operations are plain
    package functions that test for a root emulation session themselves,
    `chmod` skips symlink modes and sets only the permission bits, there is
    no deferred cleanup list, whiteouts are skipped when `WhiteOuts` is set,
    and `doCreate` calls the creator only when `prepWrite` failed. The
    pieces that are the same as in the library (entry classification,
    whiteout recognition, `extractDir`, `applyWhiteOut`, the target-clearing
    part of `prepWrite`, the `mknod` command) are shared with
    `ExtractSpec`. */
module ToolSpec {
  import opened Common
  import opened FsModel
  import opened Squash
  import opened ExtractSpec

  /** `chmod(path, mode)`: nothing for a symlink mode, otherwise `os.Chmod`
      with `mode.Perm()`, which follows a symbolic link at `path`. */
  function ToolChmod(env: Env, s: Fs, p: Path, mode: bv32): (r: Step)
    ensures mode & ModeSymlink != 0 ==> r == Step(s, None)
    ensures mode & ModeSymlink == 0 ==> r.fs.log == s.log + [ChmodCall(Sys, p, mode & PermMask)]
    ensures mode & ModeSymlink == 0 && r.err.None? ==>
              && p in s.nodes && Resolve(s, p, MaxLinks).Ok?
              && var q := Resolve(s, p, MaxLinks).value;
                 q in s.nodes && r.fs.nodes == s.nodes[q := s.nodes[q].(perm := mode & PermMask)]
    ensures mode & ModeSymlink == 0 && r.err.None? && !s.nodes[p].kind.Symlink? ==>
              r.fs.nodes == s.nodes[p := s.nodes[p].(perm := mode & PermMask)]
    ensures r.err.Some? ==> r.fs.nodes == s.nodes
  {
    if mode & ModeSymlink != 0 then Step(s, None)
    else ChmodStep(env, s, Sys, p, mode & PermMask)
  }

  /** `chown(path, uid, gid)`: `os.Lchown`, or the `chown --no-dereference`
      command in a root emulation session; a symlink is never followed. */
  function ToolChown(env: Env, s: Fs, p: Path, uid: int, gid: int): (r: Step)
    ensures r.fs.log == s.log + [ChownCall(if env.fakeroot then Exec else Sys, p, uid, gid, false)]
    ensures r.err.Some? ==> r.fs.nodes == s.nodes
  {
    if env.fakeroot then ChownStep(env, s, Exec, p, uid, gid, false)
    else ChownStep(env, s, Sys, p, uid, gid, false)
  }

  /** `mknod(path, info)`: the system call with mode 0644 and the device
      number, or in a root emulation session the `mknod` command exactly as
      the library's `FakerootOps.Mknod` issues it. */
  function ToolMknod(env: Env, s: Fs, p: Path, info: Info): (r: Step)
    ensures !env.fakeroot ==> r.fs.log == s.log + [MknodCall(Sys, p, DefaultFilePerm, info.rdev)]
    ensures env.fakeroot ==> r == FakerootMknod(env, s, p, info)
  {
    if !env.fakeroot then MknodStep(env, s, Sys, p, DefaultFilePerm, info.rdev)
    else FakerootMknod(env, s, p, info)
  }

  /** The temporary write grant of `prepWrite`, with the tool's `chmod`. */
  function ToolGrantWrite(env: Env, s: Fs, dir: Path, perm: bv32): Prep {
    var dirMode := ModeDir | perm;
    var g := ToolChmod(env, s, dir, OpenDirPerm);
    if g.err.Some? then Prep(g.fs, NoOp, g.err)
    else if !Writable(env, g.fs, dir) then
      var b := ToolChmod(env, g.fs, dir, dirMode);
      Prep(b.fs, NoOp, Some(if b.err.Some? then CannotMakeWritableSetBack(dir) else CannotMakeWritable(dir)))
    else Prep(g.fs, RestoreMode(dir, dirMode), None)
  }

  /** `prepWrite(path, finfo)`. */
  function ToolPrepWrite(env: Env, s: Fs, p: Path, newIsDir: bool): Prep {
    var dir := Parent(p);
    match StatStep(env, s, dir)
    case Err(e) => Prep(s, NoOp, Some(e))
    case Ok(dn) =>
      if !dn.kind.Directory? then Prep(s, NoOp, Some(NotADirectory(p)))
      else if Writable(env, s, dir) then ClearTarget(env, s, p, newIsDir, NoOp)
      else
        var g := ToolGrantWrite(env, s, dir, dn.perm);
        if g.err.Some? then g else ClearTarget(env, g.fs, p, newIsDir, g.cleanup)
  }

  function ToolRunCleanup(env: Env, s: Fs, c: Cleanup): Step {
    match c
    case NoOp => Step(s, None)
    case RestoreMode(p, m) => ToolChmod(env, s, p, m)
  }

  /** The creators the tool's `doCreate` is given. */
  function ToolCreate(env: Env, s: Fs, c: Creator, p: Path): Step {
    match c
    case MakeSymlink(t) => SymlinkStep(env, s, t, p)
    case MakeFifo => MkfifoStep(env, s, p, DefaultFilePerm)
    case MakeSocket => ListenStep(env, s, p)
    case MakeNode(info) => ToolMknod(env, s, p, info)
  }

  /** `doCreate(path, info, creator)` as written: the creator runs only
      when `prepWrite` reported an error, and that error itself is dropped. */
  function ToolDoCreate(env: Env, s: Fs, p: Path, newIsDir: bool, c: Creator): Step {
    var pr := ToolPrepWrite(env, s, p, newIsDir);
    var cr := if pr.err.Some? then ToolCreate(env, pr.fs, c, p) else Step(pr.fs, None);
    var cl := ToolRunCleanup(env, cr.fs, pr.cleanup);
    Step(cl.fs, if cl.err.Some? && cr.err.None? then cl.err else cr.err)
  }

  /** `extractRegular(path, info)` writing to `p`. */
  function ToolExtractRegular(env: Env, s: Fs, p: Path, info: Info): Step {
    var pr := ToolPrepWrite(env, s, p, IsDir(info));
    var w := WriteRegular(env, pr, p, info);
    var cl := ToolRunCleanup(env, w.fs, pr.cleanup);
    Step(cl.fs, if w.err.Some? then w.err else cl.err)
  }

  /** The type-specific step of the tool's `extract`. */
  function ToolMaterialise(env: Env, s: Fs, k: EntryKind, path: Path, fpath: Path, info: Info): Step {
    match k
    case DirE => ExtractDir(env, s, fpath)
    case SymlinkE => ToolDoCreate(env, s, fpath, IsDir(info), MakeSymlink(info.symlinkTarget))
    case SocketE => ToolDoCreate(env, s, fpath, IsDir(info), MakeSocket)
    case FifoE => ToolDoCreate(env, s, fpath, IsDir(info), MakeFifo)
    case BlockE => ToolDoCreate(env, s, fpath, IsDir(info), MakeNode(info))
    case CharE => ToolDoCreate(env, s, fpath, IsDir(info), MakeNode(info))
    case IrregularE => Step(s, Some(IrregularFile(path)))
    case RegularE => ToolExtractRegular(env, s, fpath, info)
    case UnknownE => Step(s, Some(UnknownType(path)))
  }

  /** Ownership, then permissions (the recorded mode as it is). */
  function ToolFinish(opts: Options, env: Env, s: Fs, fpath: Path, info: Info): Step {
    var o := if opts.owners then ToolChown(env, s, fpath, info.uid, info.gid) else Step(s, None);
    if o.err.Some? || !opts.perms then o
    else ToolChmod(env, o.fs, fpath, info.fmode)
  }

  /** The tool's visitor `extract(path, info, perr)`. */
  function ToolEntry(opts: Options, env: Env, s: Fs, path: Path, info: Info, perr: Option<Error>): (Fs, Option<Error>) {
    if perr.Some? then (s, perr)
    else if IsWhiteOut(info) then
      if opts.whiteOuts then (s, None)
      else var w := ApplyWhiteOut(env, s, opts.dir + path); (w.fs, w.err)
    else
      var k := Classify(info.fmode);
      if Gated(opts, k) then (s, None)
      else if k == UnknownE then (s, Some(UnknownType(path)))
      else
        var fpath := opts.dir + path;
        var m := ToolMaterialise(env, s, k, path, fpath, info);
        if m.err.Some? then (m.fs, m.err)
        else var f := ToolFinish(opts, env, m.fs, fpath, info); (f.fs, f.err)
  }

  function ToolVisitor(opts: Options, env: Env): Visitor<Fs> {
    (s: Fs, path: Path, info: Info, perr: Option<Error>) => ToolEntry(opts, env, s, path, info, perr)
  }

  /** The tool's `Extract()`: the walk alone. */
  function ToolRun(opts: Options, env: Env, a: Archive, s: Fs): Outcome<Fs> {
    Walk(a, opts.root, ToolVisitor(opts, env), s)
  }
}
