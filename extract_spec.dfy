/** What the library's extractor (extract.go) does, as functions of the
    target filesystem: the three `FsOps` implementations, whiteout
    recognition, the classification of an entry by its mode bits,
    `prepWrite`, `doCreate`, the per-type extractors, the `extract` visitor
    and `Extract` with its deferred cleanups. The imperative `Extractor`
    class is proved against these functions. */
module ExtractSpec {
  import opened Common
  import opened FsModel
  import opened Squash

  const DefaultFilePerm: bv32 := 0x1A4  // 0644
  const DefaultDirPerm: bv32 := 0x1ED   // 0755
  const OpenDirPerm: bv32 := 0x1FF      // 0777
  const OwnerRw: bv32 := 0x180          // 0600

  /** The `FsOps` implementations: plain system calls, the external
      commands that a root emulation session intercepts, and the emulation
      library's own `mknod` symbol. */
  datatype OpsKind = GoOps | FakerootOps | LibcOps

  /** The `Extractor`'s options. `dir` is the destination directory and
      `root` the archive path extracted. */
  datatype Options = Options(dir: Path, root: Path, whiteOuts: bool, owners: bool,
                             perms: bool, devs: bool, sockets: bool)

  /** `Ops.Chmod(p, mode)`: `os.Chmod` and the `chmod` command both follow
      a symbolic link at `p`. */
  function OpsChmod(env: Env, s: Fs, ops: OpsKind, p: Path, mode: bv32): (r: Step)
    ensures r.fs.log == s.log + [ChmodCall(if ops.FakerootOps? then Exec else Sys, p, mode & PermMask)]
    ensures r.err.None? ==>
              && p in s.nodes && Resolve(s, p, MaxLinks).Ok?
              && var q := Resolve(s, p, MaxLinks).value;
                 q in s.nodes && r.fs.nodes == s.nodes[q := s.nodes[q].(perm := mode & PermMask)]
    ensures r.err.None? && !s.nodes[p].kind.Symlink? ==>
              r.fs.nodes == s.nodes[p := s.nodes[p].(perm := mode & PermMask)]
    ensures r.err.Some? ==> r.fs.nodes == s.nodes
  {
    match ops
    case GoOps => ChmodStep(env, s, Sys, p, mode)
    case LibcOps => ChmodStep(env, s, Sys, p, mode)
    case FakerootOps => ChmodStep(env, s, Exec, p, mode & PermMask)
  }

  /** `Ops.Chown(p, uid, gid)`: `os.Chown` follows a symlink, the `chown
      --no-dereference` command does not. */
  function OpsChown(env: Env, s: Fs, ops: OpsKind, p: Path, uid: int, gid: int): (r: Step)
    ensures r.fs.log == s.log + [if ops.FakerootOps? then ChownCall(Exec, p, uid, gid, false)
                                 else ChownCall(Sys, p, uid, gid, true)]
    ensures r.err.Some? ==> r.fs.nodes == s.nodes
  {
    match ops
    case GoOps => ChownStep(env, s, Sys, p, uid, gid, true)
    case LibcOps => ChownStep(env, s, Sys, p, uid, gid, true)
    case FakerootOps => ChownStep(env, s, Exec, p, uid, gid, false)
  }

  /** `PathExists(p)`: only a "does not exist" answer from `os.Stat` counts
      as absent. */
  predicate PathExists(env: Env, s: Fs, p: Path) {
    StatStep(env, s, p) != Err(NotExist)
  }

  /** The `mknod` command's type letter for a mode, `'?'` for none. */
  function DeviceLetter(m: bv32): char {
    if m & ModeCharDevice != 0 then 'c'
    else if m & ModeDevice != 0 then 'b'
    else if m & ModeNamedPipe != 0 then 'p'
    else '?'
  }

  /** The numbers given to the `mknod` command: none for a fifo, otherwise
      `Rdev/256` and `Rdev%256`. */
  function MajorMinor(dtype: char, rdev: nat): seq<nat> {
    if dtype == 'p' then [] else [rdev / 256, rdev % 256]
  }

  /** The major/minor split loses nothing: the two numbers recombine to the
      device number and the minor is below 256. */
  lemma MajorMinorSplit(dtype: char, rdev: nat)
    requires dtype != 'p'
    ensures var mm := MajorMinor(dtype, rdev); |mm| == 2 && mm[0] * 256 + mm[1] == rdev && mm[1] < 256
  {
  }

  /** `FakerootOps.Mknod`. */
  function FakerootMknod(env: Env, s: Fs, p: Path, info: Info): (r: Step)
    ensures DeviceLetter(info.fmode) == '?' ==> r == Step(s, Some(NotADevice(p)))
    ensures DeviceLetter(info.fmode) != '?' ==>
              r.fs.log == s.log + [MknodCmdCall(p, info.fmode & PermBits, DeviceLetter(info.fmode),
                                                MajorMinor(DeviceLetter(info.fmode), info.rdev))]
  {
    var dtype := DeviceLetter(info.fmode);
    if dtype == '?' then Step(s, Some(NotADevice(p)))
    else
      var st := MknodCmdStep(env, s, p, info.fmode & PermBits, dtype, MajorMinor(dtype, info.rdev));
      if st.err.Some? && PathExists(env, st.fs, p) then Step(st.fs, Some(Exist)) else st
  }

  /** `FakerootMknod` one level down, for callers that issue the command
      themselves. */
  lemma FakerootMknodUnfold(env: Env, s: Fs, p: Path, info: Info)
    requires DeviceLetter(info.fmode) != '?'
    ensures var st := MknodCmdStep(env, s, p, info.fmode & PermBits, DeviceLetter(info.fmode),
                                   MajorMinor(DeviceLetter(info.fmode), info.rdev));
      FakerootMknod(env, s, p, info) == if st.err.Some? && PathExists(env, st.fs, p) then Step(st.fs, Some(Exist)) else st
  {
  }

  /** `Ops.Mknod(p, info)`: the Go and library implementations issue
      `mknod` with mode 0644 and the device number. */
  function OpsMknod(env: Env, s: Fs, ops: OpsKind, p: Path, info: Info): Step {
    match ops
    case GoOps => MknodStep(env, s, Sys, p, DefaultFilePerm, info.rdev)
    case LibcOps => MknodStep(env, s, Libc, p, DefaultFilePerm, info.rdev)
    case FakerootOps => FakerootMknod(env, s, p, info)
  }

  /** A failed `mknod` command leaves the path absent unless something else
      created it; when the path is then found, the error is `ErrExist`. */
  lemma FakerootMknodExists(env: Env, s: Fs, p: Path, info: Info)
    requires DeviceLetter(info.fmode) != '?'
    ensures var r := FakerootMknod(env, s, p, info);
      r.err.Some? && PathExists(env, r.fs, p) ==> r.err == Some(Exist)
  {
  }

  /** `Extract`'s choice of operations: a preset is kept; otherwise the
      library-symbol operations under a root emulation session (failing
      when the library cannot be loaded), the Go ones outside it. */
  function SelectOps(preset: Option<OpsKind>, env: Env): (r: Result<OpsKind>)
    ensures preset.Some? ==> r == Ok(preset.value)
    ensures preset.None? && !env.fakeroot ==> r == Ok(GoOps)
    ensures preset.None? && env.fakeroot ==> r == (if env.libcFound then Ok(LibcOps) else Err(LibraryNotFound))
  {
    if preset.Some? then Ok(preset.value)
    else if env.fakeroot then (if env.libcFound then Ok(LibcOps) else Err(LibraryNotFound))
    else Ok(GoOps)
  }

  /** `getWhiteOut(info) != ""`: a character device with device number 0. */
  predicate IsWhiteOut(info: Info) {
    info.fmode & ModeCharDevice != 0 && info.rdev == 0
  }

  /** The branches of `extract`'s type dispatch, in the order tested. */
  datatype EntryKind = DirE | SymlinkE | SocketE | FifoE | BlockE | CharE | IrregularE | RegularE | UnknownE

  function Classify(m: bv32): EntryKind {
    if m & ModeDir != 0 then DirE
    else if m & ModeSymlink != 0 then SymlinkE
    else if m & ModeSocket != 0 then SocketE
    else if m & ModeNamedPipe != 0 then FifoE
    else if m & ModeDevice != 0 then BlockE
    else if m & ModeCharDevice != 0 then CharE
    else if m & ModeIrregular != 0 then IrregularE
    else if m & ModeType == 0 then RegularE
    else UnknownE
  }

  /** Every mode falls into one of the tested branches: the "could not
      determine file type" error is never reached. */
  lemma ClassifyTotal(m: bv32)
    ensures Classify(m) != UnknownE
  {
  }

  /** The branch each inode type takes. The extended symlink carries no
      type bit, so it is extracted as a regular file. */
  lemma ClassifyInode(name: Path, ino: Inode)
    ensures var k := Classify(GetFileInfo(name, ino).fmode);
      match ino.itype
      case DirT | ExtDirT => k == DirE
      case SlinkT => k == SymlinkE
      case ExtSlinkT => k == RegularE
      case SocketT | ExtSocketT => k == SocketE
      case FifoT | ExtFifoT => k == FifoE
      case BdevT | ExtBdevT => k == BlockE
      case CdevT | ExtCdevT => k == CharE
      case FileT | ExtFileT => k == RegularE
  {
    var low := ino.mode as bv32;
    assert low < 0x1_0000;
    assert low & ModeType == 0;
  }

  /** A deferred action: nothing, or putting a path's mode back. */
  datatype Cleanup = NoOp | RestoreMode(path: Path, mode: bv32)

  function RunCleanup(env: Env, s: Fs, ops: OpsKind, c: Cleanup): Step {
    match c
    case NoOp => Step(s, None)
    case RestoreMode(p, m) => OpsChmod(env, s, ops, p, m)
  }

  /** The calls a list of cleanups issues, in order. */
  function CleanupCalls(ops: OpsKind, cs: seq<Cleanup>): seq<Call> {
    if cs == [] then []
    else
      (match cs[0]
       case NoOp => []
       case RestoreMode(p, m) => [ChmodCall(if ops.FakerootOps? then Exec else Sys, p, m & PermMask)])
      + CleanupCalls(ops, cs[1..])
  }

  datatype Prep = Prep(fs: Fs, cleanup: Cleanup, err: Option<Error>)

  /** The part of `prepWrite` that makes the existing target path go away:
      absent is fine; an existing directory stays for a directory and is
      removed recursively otherwise; anything else is unlinked. */
  function ClearTarget(env: Env, s: Fs, p: Path, newIsDir: bool, cleanup: Cleanup): Prep {
    match LstatStep(env, s, p)
    case Err(e) => Prep(s, cleanup, if e == NotExist then None else Some(e))
    case Ok(n) =>
      if n.kind.Directory? then
        if newIsDir then Prep(s, cleanup, None)
        else var r := RemoveAllStep(env, s, p); Prep(r.fs, cleanup, r.err)
      else var r := RemoveStep(env, s, p); Prep(r.fs, cleanup, r.err)
  }

  /** `ClearTarget` passes any cleanup through untouched. */
  lemma ClearTargetKeepsCleanup(env: Env, s: Fs, p: Path, newIsDir: bool, c: Cleanup)
    ensures var r := ClearTarget(env, s, p, newIsDir, NoOp);
      ClearTarget(env, s, p, newIsDir, c) == Prep(r.fs, c, r.err)
  {
  }

  /** The temporary write grant of `prepWrite` on a parent directory `dir`
      that is not writable and has permission bits `perm`: chmod it 0777;
      if that does not make it writable, put the old mode back at once and
      fail; otherwise the cleanup restores the old mode (`Mode()`, with its
      directory bit). */
  function GrantWrite(env: Env, s: Fs, ops: OpsKind, dir: Path, perm: bv32): Prep {
    var dirMode := ModeDir | perm;
    var g := OpsChmod(env, s, ops, dir, OpenDirPerm);
    if g.err.Some? then Prep(g.fs, NoOp, g.err)
    else if !Writable(env, g.fs, dir) then
      var b := OpsChmod(env, g.fs, ops, dir, dirMode);
      Prep(b.fs, NoOp, Some(if b.err.Some? then CannotMakeWritableSetBack(dir) else CannotMakeWritable(dir)))
    else Prep(g.fs, RestoreMode(dir, dirMode), None)
  }

  /** `prepWrite(p, info)`. */
  function PrepWrite(env: Env, s: Fs, ops: OpsKind, p: Path, newIsDir: bool): Prep {
    var dir := Parent(p);
    match StatStep(env, s, dir)
    case Err(e) => Prep(s, NoOp, Some(e))
    case Ok(dn) =>
      if !dn.kind.Directory? then Prep(s, NoOp, Some(NotADirectory(p)))
      else if Writable(env, s, dir) then ClearTarget(env, s, p, newIsDir, NoOp)
      else
        var g := GrantWrite(env, s, ops, dir, dn.perm);
        if g.err.Some? then g else ClearTarget(env, g.fs, p, newIsDir, g.cleanup)
  }

  /** The creators `doCreate` is given. */
  datatype Creator = MakeSymlink(target: string) | MakeFifo | MakeSocket | MakeNode(info: Info)

  function Create(env: Env, s: Fs, ops: OpsKind, c: Creator, p: Path): Step {
    match c
    case MakeSymlink(t) => SymlinkStep(env, s, t, p)
    case MakeFifo => MkfifoStep(env, s, p, DefaultFilePerm)
    case MakeSocket => ListenStep(env, s, p)
    case MakeNode(info) => OpsMknod(env, s, ops, p, info)
  }

  /** `doCreate(p, info, creator)`. */
  function DoCreate(env: Env, s: Fs, ops: OpsKind, p: Path, newIsDir: bool, c: Creator): Step {
    var pr := PrepWrite(env, s, ops, p, newIsDir);
    var cr := if pr.err.None? then Create(env, pr.fs, ops, c, p) else Step(pr.fs, None);
    var cl := RunCleanup(env, cr.fs, ops, pr.cleanup);
    Step(cl.fs, if cl.err.Some? && cr.err.None? then cl.err else cr.err)
  }

  /** `extractRegular(path, info)` writing to `p`: open (create) the file,
      copy the entry's bytes, check the count; the copy's own error is not
      looked at. */
  /** The part of `extractRegular` between `prepWrite` and the cleanup:
      nothing after a failed `prepWrite`, otherwise the open with 0644, the
      copy of the content (whose own error is dropped) and the size check. */
  function WriteRegular(env: Env, pr: Prep, p: Path, info: Info): Step {
    if pr.err.Some? then Step(pr.fs, pr.err)
    else
      var op := OpenStep(env, pr.fs, p, DefaultFilePerm);
      if op.err.Some? then op
      else
        var cp := CopyStepAt(env, op.fs, p, info.content);
        if cp.err.None? && cp.written != info.fsize then Step(cp.fs, Some(SizeMismatch(cp.written, p, info.fsize)))
        else Step(cp.fs, None)
  }

  function ExtractRegular(env: Env, s: Fs, ops: OpsKind, p: Path, info: Info): Step {
    var pr := PrepWrite(env, s, ops, p, IsDir(info));
    var w := WriteRegular(env, pr, p, info);
    var cl := RunCleanup(env, w.fs, ops, pr.cleanup);
    Step(cl.fs, if w.err.Some? then w.err else cl.err)
  }

  /** `extractDir`: `mkdir` with 0755; an existing path is success. */
  function ExtractDir(env: Env, s: Fs, p: Path): (r: Step)
    ensures r.fs == MkdirStep(env, s, p, DefaultDirPerm).fs
    ensures r.err.None? <==> MkdirStep(env, s, p, DefaultDirPerm).err in {None, Some(Exist)}
  {
    var m := MkdirStep(env, s, p, DefaultDirPerm);
    Step(m.fs, if m.err == Some(Exist) then None else m.err)
  }

  /** `applyWhiteOut`: remove the whole subtree, but only if it exists. */
  function ApplyWhiteOut(env: Env, s: Fs, p: Path): (r: Step)
    ensures !PathExists(env, s, p) ==> r == Step(s, None)
    ensures PathExists(env, s, p) ==> r == RemoveAllStep(env, s, p)
  {
    if PathExists(env, s, p) then RemoveAllStep(env, s, p) else Step(s, None)
  }

  /** The state the `extract` visitor changes: the target filesystem and the
      `Extractor`'s cleanup list. */
  datatype ExtState = ExtState(fs: Fs, cleanups: seq<Cleanup>)

  /** The type-specific step of `extract` for an entry of kind `k`. */
  function Materialise(env: Env, s: Fs, ops: OpsKind, k: EntryKind, path: Path, fpath: Path, info: Info): Step {
    match k
    case DirE => ExtractDir(env, s, fpath)
    case SymlinkE => DoCreate(env, s, ops, fpath, IsDir(info), MakeSymlink(info.symlinkTarget))
    case SocketE => DoCreate(env, s, ops, fpath, IsDir(info), MakeSocket)
    case FifoE => DoCreate(env, s, ops, fpath, IsDir(info), MakeFifo)
    case BlockE => DoCreate(env, s, ops, fpath, IsDir(info), MakeNode(info))
    case CharE => DoCreate(env, s, ops, fpath, IsDir(info), MakeNode(info))
    case IrregularE => Step(s, Some(IrregularFile(path)))
    case RegularE => ExtractRegular(env, s, ops, fpath, info)
    case UnknownE => Step(s, Some(UnknownType(path)))
  }

  /** Whether the directory "+rw" rule applies: a directory missing both
      owner read and owner write. */
  predicate NeedsRw(info: Info) {
    IsDir(info) && info.fmode & OwnerRw == 0
  }

  /** The mode a `Perms` chmod sets: the recorded one, with owner read and
      write added for a directory that lacks both. */
  function PermsMode(info: Info): bv32 {
    if NeedsRw(info) then info.fmode | OwnerRw else info.fmode
  }

  /** The permission part of `extract`: with `Perms`, anything but a
      symlink is chmod'ed to its recorded mode, a directory lacking owner
      read and write gets them added and a restore cleanup appended. */
  function SetPerms(opts: Options, env: Env, ops: OpsKind, st: ExtState, fpath: Path, info: Info): (ExtState, Option<Error>) {
    if !opts.perms || info.fmode & ModeSymlink != 0 then (st, None)
    else
      var cs := if NeedsRw(info) then st.cleanups + [RestoreMode(fpath, info.fmode)] else st.cleanups;
      var c := OpsChmod(env, st.fs, ops, fpath, PermsMode(info));
      (ExtState(c.fs, cs), c.err)
  }

  /** Ownership and permissions of a materialised entry. */
  function Finish(opts: Options, env: Env, ops: OpsKind, st: ExtState, fpath: Path, info: Info): (ExtState, Option<Error>) {
    var o := if opts.owners then OpsChown(env, st.fs, ops, fpath, info.uid, info.gid) else Step(st.fs, None);
    if o.err.Some? then (ExtState(o.fs, st.cleanups), o.err)
    else SetPerms(opts, env, ops, ExtState(o.fs, st.cleanups), fpath, info)
  }

  /** Sockets are skipped unless enabled, devices unless enabled. */
  predicate Gated(opts: Options, k: EntryKind) {
    (k == SocketE && !opts.sockets) || ((k == BlockE || k == CharE) && !opts.devs)
  }

  /** The visitor `extract(path, info, perr)`. */
  function ExtractEntry(opts: Options, env: Env, ops: OpsKind, st: ExtState,
                        path: Path, info: Info, perr: Option<Error>): (ExtState, Option<Error>) {
    if perr.Some? then (st, perr)
    else if IsWhiteOut(info) then
      if !opts.whiteOuts then (st, None)
      else var w := ApplyWhiteOut(env, st.fs, opts.dir + path); (ExtState(w.fs, st.cleanups), w.err)
    else
      var k := Classify(info.fmode);
      if Gated(opts, k) then (st, None)
      else if k == UnknownE then (st, Some(UnknownType(path)))
      else
        var fpath := opts.dir + path;
        var m := Materialise(env, st.fs, ops, k, path, fpath, info);
        if m.err.Some? then (ExtState(m.fs, st.cleanups), m.err)
        else Finish(opts, env, ops, ExtState(m.fs, st.cleanups), fpath, info)
  }

  function ExtractVisitor(opts: Options, env: Env, ops: OpsKind): Visitor<ExtState> {
    (st: ExtState, path: Path, info: Info, perr: Option<Error>) => ExtractEntry(opts, env, ops, st, path, info, perr)
  }

  /** Running the cleanups in order; their errors are dropped. */
  function Drain(env: Env, s: Fs, ops: OpsKind, cs: seq<Cleanup>): Fs
    decreases |cs|
  {
    if cs == [] then s else Drain(env, RunCleanup(env, s, ops, cs[0]).fs, ops, cs[1..])
  }

  datatype RunResult = RunResult(ops: Option<OpsKind>, fs: Fs, cleanups: seq<Cleanup>, err: Option<Error>)

  /** `Extract()`: select the operations, walk, then drain every cleanup
      recorded so far (the list is never emptied). */
  function Run(opts: Options, env: Env, a: Archive, preset: Option<OpsKind>, s: Fs, cs: seq<Cleanup>): RunResult {
    match SelectOps(preset, env)
    case Err(e) => RunResult(preset, s, cs, Some(e))
    case Ok(ops) =>
      var w := Walk(a, opts.root, ExtractVisitor(opts, env, ops), ExtState(s, cs));
      RunResult(Some(ops), Drain(env, w.state.fs, ops, w.state.cleanups), w.state.cleanups, w.err)
  }
}
