/** What the library's extractor promises, proved about the functions of
    `ExtractSpec`: the deferred cleanups run once each and in order without
    ever turning into `Extract`'s error, `prepWrite` leaves the target free
    and its parent writable, the error precedence of `doCreate` and
    `extractRegular`, and the gating of the `extract` visitor. */
module ExtractFacts {
  import opened Common
  import opened FsModel
  import opened Squash
  import opened ExtractSpec

  /** The cleanup list issues exactly the calls of its entries, in order. */
  lemma {:induction false} DrainLog(env: Env, s: Fs, ops: OpsKind, cs: seq<Cleanup>)
    ensures Drain(env, s, ops, cs).log == s.log + CleanupCalls(ops, cs)
    decreases |cs|
  {
    if cs != [] {
      var s1 := RunCleanup(env, s, ops, cs[0]).fs;
      DrainLog(env, s1, ops, cs[1..]);
    }
  }

  /** `Extract`: once operations are chosen, every cleanup recorded during
      the walk (and before it) runs exactly once, in the order appended,
      after the walk; the result is the walk's error alone, so a failing
      cleanup never reaches the caller. Without operations nothing runs. */
  lemma ExtractOutcome(opts: Options, env: Env, a: Archive, preset: Option<OpsKind>, s: Fs, cs: seq<Cleanup>)
    ensures var r := Run(opts, env, a, preset, s, cs);
      match SelectOps(preset, env)
      case Err(e) => r == RunResult(preset, s, cs, Some(e))
      case Ok(ops) =>
        var w := Walk(a, opts.root, ExtractVisitor(opts, env, ops), ExtState(s, cs));
        && r.ops == Some(ops)
        && r.err == w.err
        && r.fs.log == w.state.fs.log + CleanupCalls(ops, w.state.cleanups)
        && r.cleanups == w.state.cleanups
  {
    if SelectOps(preset, env).Ok? {
      var ops := SelectOps(preset, env).value;
      var w := Walk(a, opts.root, ExtractVisitor(opts, env, ops), ExtState(s, cs));
      DrainLog(env, w.state.fs, ops, w.state.cleanups);
    }
  }

  /** A preset `Ops` is never replaced, and operations are only ever chosen
      when none were set. */
  lemma OpsChosenOnce(opts: Options, env: Env, a: Archive, preset: Option<OpsKind>, s: Fs, cs: seq<Cleanup>)
    ensures preset.Some? ==> Run(opts, env, a, preset, s, cs).ops == preset
    ensures preset.None? && env.fakeroot && !env.libcFound ==>
              Run(opts, env, a, preset, s, cs) == RunResult(None, s, cs, Some(LibraryNotFound))
  {
  }

  /** The part of `prepWrite` after the parent checks: on success the
      target is absent, or is a directory kept for a directory; the parent
      is still a writable directory; the cleanup is passed through. */
  lemma ClearTargetOutcome(env: Env, s: Fs, p: Path, newIsDir: bool, c: Cleanup)
    requires |p| > 0 && IsDirAt(s, Parent(p)) && Writable(env, s, Parent(p))
    ensures var r := ClearTarget(env, s, p, newIsDir, c);
      && r.cleanup == c
      && (r.err.None? ==> (p !in r.fs.nodes || (newIsDir && IsDirAt(r.fs, p))))
      && IsDirAt(r.fs, Parent(p)) && Writable(env, r.fs, Parent(p))
      && r.fs.nodes[Parent(p)] == s.nodes[Parent(p)]
  {
    var d := Parent(p);
    assert d != p && !Below(p, d);
    var r := ClearTarget(env, s, p, newIsDir, c);
    assert d in r.fs.nodes && r.fs.nodes[d] == s.nodes[d];
    SameNodeSameAccess(env, s, r.fs, d);
  }

  /** Write access and directory-ness depend on the node alone. */
  lemma SameNodeSameAccess(env: Env, s: Fs, t: Fs, d: Path)
    requires d in s.nodes && d in t.nodes && t.nodes[d] == s.nodes[d]
    ensures Writable(env, t, d) == Writable(env, s, d) && IsDirAt(t, d) == IsDirAt(s, d)
  {
  }

  /** `prepWrite` with a parent that cannot be stat'ed or is not a
      directory: an error, a no-op cleanup, and no change at all. */
  lemma PrepWriteBadParent(env: Env, s: Fs, ops: OpsKind, p: Path, newIsDir: bool)
    requires StatStep(env, s, Parent(p)).Err? || !IsDirAt(s, Parent(p))
    ensures var r := PrepWrite(env, s, ops, p, newIsDir);
      r.fs == s && r.cleanup == NoOp && r.err.Some?
  {
  }

  /** A successful `prepWrite` leaves the target clear (or a directory kept
      for a directory) and the parent a writable directory; the cleanup
      restores the parent's old mode exactly when write access had to be
      granted. */
  lemma {:induction false} PrepWriteOutcome(env: Env, s: Fs, ops: OpsKind, p: Path, newIsDir: bool)
    requires |p| > 0
    requires PrepWrite(env, s, ops, p, newIsDir).err.None?
    ensures var r := PrepWrite(env, s, ops, p, newIsDir);
      var d := Parent(p);
      && (p !in r.fs.nodes || (newIsDir && IsDirAt(r.fs, p)))
      && IsDirAt(r.fs, d) && Writable(env, r.fs, d)
      && d in s.nodes
      && r.cleanup == (if Writable(env, s, d) then NoOp else RestoreMode(d, ModeDir | s.nodes[d].perm))
  {
    var d := Parent(p);
    PrepWriteParentOk(env, s, ops, p, newIsDir);
    if Writable(env, s, d) {
      PrepWriteWritable(env, s, ops, p, newIsDir);
      ClearTargetOutcome(env, s, p, newIsDir, NoOp);
    } else {
      PrepWriteGranted(env, s, ops, p, newIsDir);
      var g := OpsChmod(env, s, ops, d, OpenDirPerm);
      ClearTargetOutcome(env, g.fs, p, newIsDir, RestoreMode(d, ModeDir | s.nodes[d].perm));
    }
  }

  lemma PrepWriteParentOk(env: Env, s: Fs, ops: OpsKind, p: Path, newIsDir: bool)
    requires PrepWrite(env, s, ops, p, newIsDir).err.None?
    ensures StatStep(env, s, Parent(p)).Ok? && IsDirAt(s, Parent(p))
  {
  }

  lemma PrepWriteWritable(env: Env, s: Fs, ops: OpsKind, p: Path, newIsDir: bool)
    requires StatStep(env, s, Parent(p)).Ok? && IsDirAt(s, Parent(p)) && Writable(env, s, Parent(p))
    ensures PrepWrite(env, s, ops, p, newIsDir) == ClearTarget(env, s, p, newIsDir, NoOp)
  {
  }

  lemma PrepWriteGranted(env: Env, s: Fs, ops: OpsKind, p: Path, newIsDir: bool)
    requires StatStep(env, s, Parent(p)).Ok? && IsDirAt(s, Parent(p)) && !Writable(env, s, Parent(p))
    requires PrepWrite(env, s, ops, p, newIsDir).err.None?
    ensures var d := Parent(p);
      var g := OpsChmod(env, s, ops, d, OpenDirPerm);
      && g.err.None? && Writable(env, g.fs, d) && IsDirAt(g.fs, d)
      && PrepWrite(env, s, ops, p, newIsDir) == ClearTarget(env, g.fs, p, newIsDir, RestoreMode(d, ModeDir | s.nodes[d].perm))
  {
  }

  /** When the temporary 0777 grant goes through but the parent is still
      not writable, the old mode is put back at once and `prepWrite` fails
      with a no-op cleanup. */
  lemma PrepWriteGrantRefused(env: Env, s: Fs, ops: OpsKind, p: Path, newIsDir: bool)
    requires IsDirAt(s, Parent(p)) && StatCall(Parent(p)) !in env.fails && !Writable(env, s, Parent(p))
    requires Parent(p) in env.denied
    requires OpsChmod(env, s, ops, Parent(p), OpenDirPerm).err.None?
    ensures var r := PrepWrite(env, s, ops, p, newIsDir);
      var d := Parent(p);
      var via := if ops.FakerootOps? then Exec else Sys;
      && r.cleanup == NoOp
      && r.err in {Some(CannotMakeWritable(d)), Some(CannotMakeWritableSetBack(d))}
      && r.fs.log == s.log + [ChmodCall(via, d, OpenDirPerm), ChmodCall(via, d, (ModeDir | s.nodes[d].perm) & PermMask)]
  {
  }

  /** `doCreate` when `prepWrite` failed: the creator is skipped, the
      cleanup still runs, and the `prepWrite` error itself is dropped: the
      result is the cleanup's. */
  lemma DoCreatePrepFailed(env: Env, s: Fs, ops: OpsKind, p: Path, newIsDir: bool, c: Creator)
    requires PrepWrite(env, s, ops, p, newIsDir).err.Some?
    ensures var pr := PrepWrite(env, s, ops, p, newIsDir);
      DoCreate(env, s, ops, p, newIsDir, c) == RunCleanup(env, pr.fs, ops, pr.cleanup)
    ensures PrepWrite(env, s, ops, p, newIsDir).cleanup == NoOp ==>
              DoCreate(env, s, ops, p, newIsDir, c) == Step(PrepWrite(env, s, ops, p, newIsDir).fs, None)
  {
  }

  /** `doCreate` when `prepWrite` succeeded: the creator runs once, then the
      cleanup; a creator error wins, a cleanup error is returned only when
      the creator succeeded. */
  lemma DoCreatePrecedence(env: Env, s: Fs, ops: OpsKind, p: Path, newIsDir: bool, c: Creator)
    requires PrepWrite(env, s, ops, p, newIsDir).err.None?
    ensures var pr := PrepWrite(env, s, ops, p, newIsDir);
      var cr := Create(env, pr.fs, ops, c, p);
      var cl := RunCleanup(env, cr.fs, ops, pr.cleanup);
      var r := DoCreate(env, s, ops, p, newIsDir, c);
      && r.fs == cl.fs
      && (cr.err.Some? ==> r.err == cr.err)
      && (cr.err.None? ==> r.err == cl.err)
  {
  }

  /** The parent's restore cleanup leaves every node alone except the one
      its path leads to. */
  lemma CleanupKeepsOthers(env: Env, s: Fs, ops: OpsKind, c: Cleanup, q: Path)
    requires c.NoOp? || Resolve(s, c.path, MaxLinks) != Ok(q)
    ensures var r := RunCleanup(env, s, ops, c).fs; q in s.nodes ==> q in r.nodes && r.nodes[q] == s.nodes[q]
  {
  }

  /** `extractRegular`: without an error the target is a regular file; when
      the copy itself went through, its first bytes are the entry's content
      and their number is the recorded size. The open and copy come only
      after a successful `prepWrite` and the cleanup always runs last; the
      first of a `prepWrite` error, an open error and a size mismatch after
      a copy that went through is returned, the cleanup's own error only
      when there was none of those. A copy failure alone is not an error. */
  lemma {:induction false} ExtractRegularOutcome(env: Env, s: Fs, ops: OpsKind, p: Path, info: Info)
    requires |p| > 0
    ensures var r := ExtractRegular(env, s, ops, p, info);
      && (r.err.None? ==> p in r.fs.nodes && r.fs.nodes[p].kind.Regular?)
      && (r.err.None? && CopyCall(p) !in env.fails ==>
            (|info.content| == info.fsize
             && |info.content| <= |r.fs.nodes[p].kind.data|
             && r.fs.nodes[p].kind.data[..|info.content|] == info.content))
    ensures var pr := PrepWrite(env, s, ops, p, IsDir(info));
      var r := ExtractRegular(env, s, ops, p, info);
      && (pr.err.Some? ==>
            var cl := RunCleanup(env, pr.fs, ops, pr.cleanup);
            r.fs == cl.fs && r.err == pr.err)
      && (pr.err.None? ==>
            var op := OpenStep(env, pr.fs, p, DefaultFilePerm);
            && (op.err.Some? ==>
                  var cl := RunCleanup(env, op.fs, ops, pr.cleanup);
                  r.fs == cl.fs && r.err == op.err)
            && (op.err.None? ==>
                  var cp := CopyStepAt(env, op.fs, p, info.content);
                  var cl := RunCleanup(env, cp.fs, ops, pr.cleanup);
                  && r.fs == cl.fs
                  && (cp.err.None? && cp.written != info.fsize ==>
                        r.err == Some(SizeMismatch(cp.written, p, info.fsize)))
                  && (cp.err.Some? || cp.written == info.fsize ==> r.err == cl.err)))
  {
    var pr := PrepWrite(env, s, ops, p, IsDir(info));
    if pr.err.None? {
      PrepWriteOutcome(env, s, ops, p, IsDir(info));
      var op := OpenStep(env, pr.fs, p, DefaultFilePerm);
      if op.err.None? {
        assert p in op.fs.nodes && op.fs.nodes[p].kind.Regular?;
        var cp := CopyStepAt(env, op.fs, p, info.content);
        assert p in cp.fs.nodes && cp.fs.nodes[p].kind.Regular?;
        assert pr.cleanup.NoOp? || pr.cleanup.path == Parent(p);
        assert Parent(p) != p;
        assert IsDirAt(cp.fs, Parent(p));
        CleanupKeepsOthers(env, cp.fs, ops, pr.cleanup, p);
      }
    }
  }

  /** `GoFsOps.Chown` and `LibcFsOps.Chown` go through a symbolic link: a
      dangling one fails with "does not exist" and changes nothing, one to
      an existing non-link re-owns that target and leaves the link as it
      was. `FakerootOps.Chown` (`chown --no-dereference`) re-owns the link. */
  lemma OpsChownOnSymlink(env: Env, s: Fs, ops: OpsKind, p: Path, t: string, uid: int, gid: int)
    requires p in s.nodes && s.nodes[p].kind == Symlink(t)
    requires ChownCall(if ops.FakerootOps? then Exec else Sys, p, uid, gid, !ops.FakerootOps?) !in env.fails
    ensures var r := OpsChown(env, s, ops, p, uid, gid);
      && (ops.FakerootOps? ==>
            r.err.None? && r.fs.nodes == s.nodes[p := s.nodes[p].(uid := uid, gid := gid)])
      && (!ops.FakerootOps? ==>
            var q := LinkPath(p, t);
            && (q !in s.nodes ==> r.err == Some(NotExist) && r.fs.nodes == s.nodes)
            && (q in s.nodes && !s.nodes[q].kind.Symlink? ==>
                  && r.err.None? && q != p && r.fs.nodes[p] == s.nodes[p]
                  && r.fs.nodes == s.nodes[q := s.nodes[q].(uid := uid, gid := gid)]))
  {
  }

  /** `Ops.Chmod` on a symbolic link, by every mechanism (`os.Chmod` and the
      `chmod` command alike): a dangling link fails with "does not exist"
      and changes nothing; a link to an existing non-link sets that
      target's permissions and leaves the link as it was. */
  lemma OpsChmodOnSymlink(env: Env, s: Fs, ops: OpsKind, p: Path, t: string, mode: bv32)
    requires p in s.nodes && s.nodes[p].kind == Symlink(t)
    requires ChmodCall(if ops.FakerootOps? then Exec else Sys, p, mode & PermMask) !in env.fails
    ensures var r := OpsChmod(env, s, ops, p, mode);
      var q := LinkPath(p, t);
      && (q !in s.nodes ==> r.err == Some(NotExist) && r.fs.nodes == s.nodes)
      && (q in s.nodes && !s.nodes[q].kind.Symlink? ==>
            && r.err.None? && q != p && r.fs.nodes[p] == s.nodes[p]
            && r.fs.nodes == s.nodes[q := s.nodes[q].(perm := mode & PermMask)])
  {
  }

  /** The copy's error is never looked at: a failed copy after a successful
      open and cleanup is reported as success. */
  lemma ExtractRegularIgnoresCopyError(env: Env, s: Fs, ops: OpsKind, p: Path, info: Info)
    requires PrepWrite(env, s, ops, p, IsDir(info)).err.None?
    requires OpenStep(env, PrepWrite(env, s, ops, p, IsDir(info)).fs, p, DefaultFilePerm).err.None?
    requires CopyCall(p) in env.fails
    ensures var pr := PrepWrite(env, s, ops, p, IsDir(info));
      var op := OpenStep(env, pr.fs, p, DefaultFilePerm);
      var cp := CopyStepAt(env, op.fs, p, info.content);
      ExtractRegular(env, s, ops, p, info) == RunCleanup(env, cp.fs, ops, pr.cleanup)
  {
  }

  /** A visit with an error from the walk returns it and touches nothing. */
  lemma VisitErrorPassedThrough(opts: Options, env: Env, ops: OpsKind, st: ExtState, path: Path, info: Info, e: Error)
    ensures ExtractEntry(opts, env, ops, st, path, info, Some(e)) == (st, Some(e))
  {
  }

  /** Whiteouts: skipped when not applied; otherwise the target subtree is
      removed if it exists, and a missing target is no error. */
  lemma WhiteOutHandling(opts: Options, env: Env, ops: OpsKind, st: ExtState, path: Path, info: Info)
    requires IsWhiteOut(info)
    ensures var r := ExtractEntry(opts, env, ops, st, path, info, None);
      && (!opts.whiteOuts ==> r == (st, None))
      && (opts.whiteOuts && !PathExists(env, st.fs, opts.dir + path) ==> r == (st, None))
      && (opts.whiteOuts && PathExists(env, st.fs, opts.dir + path) ==>
            (var w := RemoveAllStep(env, st.fs, opts.dir + path);
             r == (ExtState(w.fs, st.cleanups), w.err)))
  {
  }

  /** Sockets without `Sockets`, and block or character devices without
      `Devs`, are skipped without error or change. */
  lemma GatedEntriesSkipped(opts: Options, env: Env, ops: OpsKind, st: ExtState, path: Path, info: Info)
    requires !IsWhiteOut(info)
    requires Classify(info.fmode) == SocketE ==> !opts.sockets
    requires Classify(info.fmode) in {BlockE, CharE} ==> !opts.devs
    requires Classify(info.fmode) in {SocketE, BlockE, CharE}
    ensures ExtractEntry(opts, env, ops, st, path, info, None) == (st, None)
  {
  }

  /** Irregular files are always an error; a failed type-specific step is
      returned before any ownership or permission change. */
  lemma MaterialiseFirst(opts: Options, env: Env, ops: OpsKind, st: ExtState, path: Path, info: Info)
    requires !IsWhiteOut(info) && !Gated(opts, Classify(info.fmode))
    ensures Classify(info.fmode) == IrregularE ==>
              ExtractEntry(opts, env, ops, st, path, info, None) == (st, Some(IrregularFile(path)))
    ensures var m := Materialise(env, st.fs, ops, Classify(info.fmode), path, opts.dir + path, info);
      m.err.Some? ==> ExtractEntry(opts, env, ops, st, path, info, None) == (ExtState(m.fs, st.cleanups), m.err)
  {
    ClassifyTotal(info.fmode);
  }

  /** Ownership and permissions of an extracted entry: a chown only with
      `Owners`; a chmod only with `Perms`, never for a symlink, and only
      after a successful chown; a directory missing both owner read and
      write is chmod'ed with them added and a cleanup restoring its
      recorded mode is appended (not run). */
  lemma FinishCalls(opts: Options, env: Env, ops: OpsKind, st: ExtState, fpath: Path, info: Info)
    ensures var r := Finish(opts, env, ops, st, fpath, info);
      var via := if ops.FakerootOps? then Exec else Sys;
      var chown := if opts.owners then [if ops.FakerootOps? then ChownCall(Exec, fpath, info.uid, info.gid, false)
                                        else ChownCall(Sys, fpath, info.uid, info.gid, true)] else [];
      var owned := !opts.owners || OpsChown(env, st.fs, ops, fpath, info.uid, info.gid).err.None?;
      var chmod := opts.perms && info.fmode & ModeSymlink == 0;
      && (!owned ==> r.0.fs.log == st.fs.log + chown && r.0.cleanups == st.cleanups && r.1.Some?)
      && (owned && !chmod ==> r.0.fs.log == st.fs.log + chown && r.0.cleanups == st.cleanups && r.1.None?)
      && (owned && chmod ==>
            (r.0.fs.log == st.fs.log + chown
                           + [ChmodCall(via, fpath, PermsMode(info) & PermMask)]
             && r.0.cleanups == st.cleanups + (if NeedsRw(info) then [RestoreMode(fpath, info.fmode)] else [])))
  {
    var o := if opts.owners then OpsChown(env, st.fs, ops, fpath, info.uid, info.gid) else Step(st.fs, None);
    var r := Finish(opts, env, ops, st, fpath, info);
    if o.err.Some? {
      assert r == (ExtState(o.fs, st.cleanups), o.err);
    } else if !(opts.perms && info.fmode & ModeSymlink == 0) {
      assert r == (ExtState(o.fs, st.cleanups), None);
    } else {
      var c := OpsChmod(env, o.fs, ops, fpath, PermsMode(info));
      var cs := if NeedsRw(info) then st.cleanups + [RestoreMode(fpath, info.fmode)] else st.cleanups;
      assert r == (ExtState(c.fs, cs), c.err);
    }
  }

  /** A symbolic link is never chmod'ed: finishing it issues at most a
      chown and appends no cleanup. */
  lemma SymlinkNeverChmodded(opts: Options, env: Env, ops: OpsKind, st: ExtState, fpath: Path, info: Info)
    requires info.fmode & ModeSymlink != 0
    ensures var r := Finish(opts, env, ops, st, fpath, info);
      && r.0.cleanups == st.cleanups
      && (forall k :: |st.fs.log| <= k < |r.0.fs.log| ==> !r.0.fs.log[k].ChmodCall?)
  {
    FinishCalls(opts, env, ops, st, fpath, info);
  }

  /** Each visit appends at most one cleanup, and only the restore of a
      directory extracted with "+rw". */
  lemma VisitCleanups(opts: Options, env: Env, ops: OpsKind, st: ExtState, path: Path, info: Info, perr: Option<Error>)
    ensures var r := ExtractEntry(opts, env, ops, st, path, info, perr);
      || r.0.cleanups == st.cleanups
      || (r.0.cleanups == st.cleanups + [RestoreMode(opts.dir + path, info.fmode)]
          && opts.perms && NeedsRw(info) && perr.None? && !IsWhiteOut(info))
  {
    if perr.None? && !IsWhiteOut(info) {
      var k := Classify(info.fmode);
      if !Gated(opts, k) && k != UnknownE {
        var m := Materialise(env, st.fs, ops, k, path, opts.dir + path, info);
        if m.err.None? {
          FinishCalls(opts, env, ops, ExtState(m.fs, st.cleanups), opts.dir + path, info);
        }
      }
    }
  }
}
