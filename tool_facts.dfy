/** Properties of the command-line tool's extractor, and how it relates to
    the library's: where the two agree (`prepWrite`, `extractRegular` with
    the plain Go operations) and where the tool's copy has drifted (the
    creator test in `doCreate`, the meaning of the whiteout flag, `chmod`
    without the directory "+rw" rule, `chown` that never follows a
    symlink). */
module ToolFacts {
  import opened Common
  import opened FsModel
  import opened Squash
  import opened ExtractSpec
  import opened ExtractFacts
  import opened ToolSpec

  /** The mode `os.Stat` reports for `d` carries no symlink bit (true of
      every directory the system reports). */
  predicate PlainMode(s: Fs, d: Path) {
    d in s.nodes ==> s.nodes[d].perm & ModeSymlink == 0
  }

  /** Without a symlink bit, the tool's `chmod` is the library's Go
      `Chmod`. */
  lemma ToolChmodIsGo(env: Env, s: Fs, p: Path, mode: bv32)
    requires mode & ModeSymlink == 0
    ensures ToolChmod(env, s, p, mode) == OpsChmod(env, s, GoOps, p, mode)
  {
    assert (mode & PermMask) & PermMask == mode & PermMask;
  }

  lemma ToolGrantWriteIsGo(env: Env, s: Fs, dir: Path, perm: bv32)
    requires perm & ModeSymlink == 0
    ensures ToolGrantWrite(env, s, dir, perm) == GrantWrite(env, s, GoOps, dir, perm)
  {
    var dirMode := ModeDir | perm;
    assert dirMode & ModeSymlink == 0;
    ToolChmodIsGo(env, s, dir, OpenDirPerm);
    var g := ToolChmod(env, s, dir, OpenDirPerm);
    ToolChmodIsGo(env, g.fs, dir, dirMode);
  }

  /** `prepWrite` is the same in both copies: the tool's is the library's
      with the Go operations. */
  lemma ToolPrepWriteIsGo(env: Env, s: Fs, p: Path, newIsDir: bool)
    requires PlainMode(s, Parent(p))
    ensures ToolPrepWrite(env, s, p, newIsDir) == PrepWrite(env, s, GoOps, p, newIsDir)
  {
    var dir := Parent(p);
    if StatStep(env, s, dir).Ok? && IsDirAt(s, dir) && !Writable(env, s, dir) {
      ToolGrantWriteIsGo(env, s, dir, s.nodes[dir].perm);
    }
  }

  /** The cleanup `prepWrite` hands back: nothing, or restoring the
      parent's directory mode. */
  lemma PrepWriteCleanup(env: Env, s: Fs, ops: OpsKind, p: Path, newIsDir: bool)
    ensures var c := PrepWrite(env, s, ops, p, newIsDir).cleanup;
      c.NoOp? || (Parent(p) in s.nodes && c == RestoreMode(Parent(p), ModeDir | s.nodes[Parent(p)].perm))
  {
  }

  /** `extractRegular` is the same in both copies: the tool's is the
      library's with the Go operations. */
  lemma ToolExtractRegularIsGo(env: Env, s: Fs, p: Path, info: Info)
    requires PlainMode(s, Parent(p))
    ensures ToolExtractRegular(env, s, p, info) == ExtractRegular(env, s, GoOps, p, info)
  {
    ToolPrepWriteIsGo(env, s, p, IsDir(info));
    PrepWriteCleanup(env, s, GoOps, p, IsDir(info));
    var pr := PrepWrite(env, s, GoOps, p, IsDir(info));
    var w := WriteRegular(env, pr, p, info);
    if pr.cleanup.RestoreMode? {
      assert pr.cleanup.mode & ModeSymlink == 0;
      ToolChmodIsGo(env, w.fs, pr.cleanup.path, pr.cleanup.mode);
    }
  }

  /** Hence what the library promises about `extractRegular` holds for the
      tool's: without an error the target is a regular file, and when the
      copy went through it holds the entry's bytes, as many as recorded.
      The order and precedence are the library's too: open and copy only
      after a successful `prepWrite`, the cleanup always last, the first of
      a `prepWrite` error, an open error and a size mismatch returned, the
      cleanup's error only when there was none; a failed copy is ignored. */
  lemma ToolExtractRegularOutcome(env: Env, s: Fs, p: Path, info: Info)
    requires |p| > 0 && PlainMode(s, Parent(p))
    ensures var r := ToolExtractRegular(env, s, p, info);
      && (r.err.None? ==> p in r.fs.nodes && r.fs.nodes[p].kind.Regular?)
      && (r.err.None? && CopyCall(p) !in env.fails ==>
            (|info.content| == info.fsize
             && |info.content| <= |r.fs.nodes[p].kind.data|
             && r.fs.nodes[p].kind.data[..|info.content|] == info.content))
    ensures var pr := ToolPrepWrite(env, s, p, IsDir(info));
      var r := ToolExtractRegular(env, s, p, info);
      && (pr.err.Some? ==>
            var cl := ToolRunCleanup(env, pr.fs, pr.cleanup);
            r.fs == cl.fs && r.err == pr.err)
      && (pr.err.None? ==>
            var op := OpenStep(env, pr.fs, p, DefaultFilePerm);
            && (op.err.Some? ==>
                  var cl := ToolRunCleanup(env, op.fs, pr.cleanup);
                  r.fs == cl.fs && r.err == op.err)
            && (op.err.None? ==>
                  var cp := CopyStepAt(env, op.fs, p, info.content);
                  var cl := ToolRunCleanup(env, cp.fs, pr.cleanup);
                  && r.fs == cl.fs
                  && (cp.err.None? && cp.written != info.fsize ==>
                        r.err == Some(SizeMismatch(cp.written, p, info.fsize)))
                  && (cp.err.Some? ==> r.err == cl.err)
                  && (cp.written == info.fsize ==> r.err == cl.err)))
  {
    ToolExtractRegularIsGo(env, s, p, info);
    ExtractRegularOutcome(env, s, GoOps, p, info);
  }

  /** The tool's `chown` (`os.Lchown`, or `chown --no-dereference`) changes
      the owner of a symbolic link itself and never of what it points to. */
  lemma ToolChownOnSymlink(env: Env, s: Fs, p: Path, t: string, uid: int, gid: int)
    requires p in s.nodes && s.nodes[p].kind == Symlink(t)
    requires ChownCall(if env.fakeroot then Exec else Sys, p, uid, gid, false) !in env.fails
    ensures var r := ToolChown(env, s, p, uid, gid);
      r.err.None? && r.fs.nodes == s.nodes[p := s.nodes[p].(uid := uid, gid := gid)]
  {
  }

  /** The tool's `chmod` on a symbolic link: nothing for an entry whose mode
      is a symlink; otherwise `os.Chmod` goes through the link, failing on
      a dangling one and setting an existing target's permissions. */
  lemma ToolChmodOnSymlink(env: Env, s: Fs, p: Path, t: string, mode: bv32)
    requires p in s.nodes && s.nodes[p].kind == Symlink(t)
    requires ChmodCall(Sys, p, mode & PermMask) !in env.fails
    ensures var r := ToolChmod(env, s, p, mode);
      var q := LinkPath(p, t);
      && (mode & ModeSymlink != 0 ==> r == Step(s, None))
      && (mode & ModeSymlink == 0 && q !in s.nodes ==> r.err == Some(NotExist) && r.fs.nodes == s.nodes)
      && (mode & ModeSymlink == 0 && q in s.nodes && !s.nodes[q].kind.Symlink? ==>
            && r.err.None? && q != p && r.fs.nodes[p] == s.nodes[p]
            && r.fs.nodes == s.nodes[q := s.nodes[q].(perm := mode & PermMask)])
  {
  }

  /** The tool's `doCreate` as written: after a successful `prepWrite` the
      creator is not called and only the cleanup runs; after a failed one
      the creator is called on whatever `prepWrite` left, and the
      `prepWrite` error itself is not reported. */
  lemma ToolDoCreateBranches(env: Env, s: Fs, p: Path, newIsDir: bool, c: Creator)
    ensures var pr := ToolPrepWrite(env, s, p, newIsDir);
      var r := ToolDoCreate(env, s, p, newIsDir, c);
      && (pr.err.None? ==> r == ToolRunCleanup(env, pr.fs, pr.cleanup))
      && (pr.err.Some? ==>
            (var cr := ToolCreate(env, pr.fs, c, p);
             var cl := ToolRunCleanup(env, cr.fs, pr.cleanup);
             r.fs == cl.fs && r.err == (if cr.err.Some? then cr.err else cl.err)))
  {
  }

  /** A concrete case: in a writable, empty destination directory with no
      failing call, the tool's `doCreate` for a symlink reports success and
      creates nothing, while the library's creates the symlink. */
  lemma ToolDoCreateSkipsSymlink()
    ensures var env := Env({}, {}, false, false, 0, 0);
      var s := Fs(map[[] := Node(Directory, DefaultDirPerm, 0, 0)], []);
      var r := ToolDoCreate(env, s, ["a"], false, MakeSymlink("t"));
      var l := DoCreate(env, s, GoOps, ["a"], false, MakeSymlink("t"));
      && r.err.None? && ["a"] !in r.fs.nodes
      && l.err.None? && ["a"] in l.fs.nodes && l.fs.nodes[["a"]].kind == Symlink("t")
  {
    var env := Env({}, {}, false, false, 0, 0);
    var s := Fs(map[[] := Node(Directory, DefaultDirPerm, 0, 0)], []);
    assert Parent(["a"]) == [];
    assert Writable(env, s, []);
    assert LstatStep(env, s, ["a"]) == Err(NotExist);
  }

  /** The library's `doCreate`, where the test is the right way round: when
      `prepWrite`, the creator and the cleanup all succeed, the new node is
      at `p`, and for a symlink, a fifo or a socket it is of that kind. */
  lemma {:induction false} DoCreateCreates(env: Env, s: Fs, ops: OpsKind, p: Path, newIsDir: bool, c: Creator)
    requires |p| > 0
    requires PrepWrite(env, s, ops, p, newIsDir).err.None?
    requires DoCreate(env, s, ops, p, newIsDir, c).err.None?
    ensures var r := DoCreate(env, s, ops, p, newIsDir, c);
      && p in r.fs.nodes
      && (c.MakeSymlink? ==> r.fs.nodes[p].kind == Symlink(c.target))
      && (c.MakeFifo? ==> r.fs.nodes[p].kind == Fifo)
      && (c.MakeSocket? ==> r.fs.nodes[p].kind == Socket)
  {
    var pr := PrepWrite(env, s, ops, p, newIsDir);
    var cr := Create(env, pr.fs, ops, c, p);
    DoCreatePrecedence(env, s, ops, p, newIsDir, c);
    assert cr.err.None?;
    CreateMakes(env, pr.fs, ops, c, p);
    PrepWriteCleanup(env, s, ops, p, newIsDir);
    assert Parent(p) != p by { assert |Parent(p)| < |p|; }
    assert IsDirAt(cr.fs, Parent(p));
    CleanupKeepsOthers(env, cr.fs, ops, pr.cleanup, p);
  }

  /** A creator that succeeds leaves a node at `p`, of the kind it makes. */
  lemma CreateMakes(env: Env, s: Fs, ops: OpsKind, c: Creator, p: Path)
    requires Create(env, s, ops, c, p).err.None?
    ensures var r := Create(env, s, ops, c, p);
      && p in r.fs.nodes
      && (c.MakeSymlink? ==> r.fs.nodes[p].kind == Symlink(c.target))
      && (c.MakeFifo? ==> r.fs.nodes[p].kind == Fifo)
      && (c.MakeSocket? ==> r.fs.nodes[p].kind == Socket)
  {
    if c.MakeNode? && ops.FakerootOps? {
      FakerootMknodUnfold(env, s, p, c.info);
    }
  }

  /** The tool's whiteout flag means the opposite of the library's: the
      tool with `WhiteOuts` set does what the library does with it clear,
      and the other way round. */
  lemma WhiteOutFlagInverted(opts: Options, env: Env, ops: OpsKind, s: Fs, cs: seq<Cleanup>, path: Path, info: Info)
    requires IsWhiteOut(info)
    ensures var t := ToolEntry(opts, env, s, path, info, None);
      var l := ExtractEntry(opts.(whiteOuts := !opts.whiteOuts), env, ops, ExtState(s, cs), path, info, None);
      t == (l.0.fs, l.1) && l.0.cleanups == cs
  {
  }

  /** Whiteouts in the tool: skipped when `WhiteOuts` is set; otherwise the
      target subtree is removed if it exists. */
  lemma ToolWhiteOutHandling(opts: Options, env: Env, s: Fs, path: Path, info: Info)
    requires IsWhiteOut(info)
    ensures var r := ToolEntry(opts, env, s, path, info, None);
      && (opts.whiteOuts ==> r == (s, None))
      && (!opts.whiteOuts && !PathExists(env, s, opts.dir + path) ==> r == (s, None))
      && (!opts.whiteOuts && PathExists(env, s, opts.dir + path) ==>
            (var w := RemoveAllStep(env, s, opts.dir + path); r == (w.fs, w.err)))
  {
  }

  /** The calls the tool issues after a successful type-specific step:
      `chown` without following symlinks when owners are extracted, then,
      when permissions are extracted and the entry is not a symlink, one
      `chmod` with exactly the recorded permission bits (a directory gets
      no added owner read and write). A failed `chown` stops there. */
  lemma ToolFinishCalls(opts: Options, env: Env, s: Fs, fpath: Path, info: Info)
    ensures var r := ToolFinish(opts, env, s, fpath, info);
      var chown := if opts.owners then [ChownCall(if env.fakeroot then Exec else Sys, fpath, info.uid, info.gid, false)] else [];
      var owned := !opts.owners || ToolChown(env, s, fpath, info.uid, info.gid).err.None?;
      var chmod := opts.perms && info.fmode & ModeSymlink == 0;
      && (!owned ==> r.fs.log == s.log + chown && r.err.Some?)
      && (owned && !chmod ==> r.fs.log == s.log + chown && r.err.None?)
      && (owned && chmod ==> r.fs.log == s.log + chown + [ChmodCall(Sys, fpath, info.fmode & PermMask)])
  {
  }

  /** A directory without owner read and write ends with exactly its
      recorded permissions in the tool, where the library would have opened
      it up and queued the restore. The permissions land on the node the
      path leads to: `os.Chmod` follows a symbolic link found there. */
  lemma ToolDirKeepsRecordedPerms(opts: Options, env: Env, s: Fs, fpath: Path, info: Info)
    requires opts.perms && NeedsRw(info) && info.fmode & ModeSymlink == 0
    requires ToolFinish(opts, env, s, fpath, info).err.None?
    ensures var r := ToolFinish(opts, env, s, fpath, info);
      var t := Resolve(s, fpath, MaxLinks);
      && t.Ok? && t.value in r.fs.nodes
      && r.fs.nodes[t.value].perm == info.fmode & PermMask
      && r.fs.nodes[t.value].perm & OwnerRw == 0
  {
    var o := if opts.owners then ToolChown(env, s, fpath, info.uid, info.gid) else Step(s, None);
    ResolveSameKinds(s, o.fs, fpath, MaxLinks);
  }

  /** An error handed to the tool's visitor is returned unchanged. */
  lemma ToolVisitErrorPassedThrough(opts: Options, env: Env, s: Fs, path: Path, info: Info, e: Error)
    ensures ToolEntry(opts, env, s, path, info, Some(e)) == (s, Some(e))
  {
  }

  /** The tool's `Extract` returns the walk's error as it is; there are no
      cleanups left to run afterwards. */
  lemma ToolRunIsWalk(opts: Options, env: Env, a: Archive, s: Fs)
    requires opts.root in a.inodes
    ensures var r := ToolRun(opts, env, a, s);
      var o := WalkAt(a, opts.root, GetFileInfo(opts.root, a.inodes[opts.root]), ToolVisitor(opts, env), s);
      r.state == o.state && r.err == (if o.err == Some(SkipDir) then None else o.err)
  {
  }
}
