/** The target filesystem the extractor writes into, as the operating system
    presents it. Nothing here is the repository's own logic: these are the
    system calls (`os.Mkdir`, `os.Symlink`, `syscall.Mkfifo`, `net.Listen`,
    `os.OpenFile`, `io.Copy`, `os.Remove`, `os.RemoveAll`, `os.Chmod`,
    `os.Chown`, `os.Lchown`, `syscall.Mknod`, the `mknod` command,
    `os.Stat`, `os.Lstat`, `unix.Access`) reduced to their effect on a map
    from paths to nodes. Whether a call fails is decided by a fault oracle:
    a call listed in `Env.fails` fails and changes nothing; otherwise the
    call fails only for the reason the system would give (the path exists,
    the parent is missing, the parent is not writable, ...). Every
    state-changing call is appended to a log, so that properties about
    which operations were issued, and in what order, can be stated. */
module FsModel {
  import opened Common

  /** Permission bits kept by a node (`os.FileMode.Perm()`). */
  const PermMask: bv32 := 0x1FF  // 0777
  /** Owner-write bit, the one `access(2)` with `W_OK` looks at here. */
  const OwnerWrite: bv32 := 0x80  // 0200
  const GroupWrite: bv32 := 0x10  // 0020
  const OtherWrite: bv32 := 0x02  // 0002
  /** How many symbolic links the kernel follows before giving up (`ELOOP`). */
  const MaxLinks: nat := 40

  datatype Kind =
    | Directory
    | Regular(data: seq<byte>)
    | Symlink(target: string)
    | Fifo
    | Socket
    | Device(dtype: char, major: nat, minor: nat)

  datatype Node = Node(kind: Kind, perm: bv32, uid: int, gid: int)

  datatype Fs = Fs(nodes: map<Path, Node>, log: seq<Call>)

  /** The environment of one run: the calls that fail, the directories the
      process may not write into whatever their mode, whether a root
      emulation session is active (`FAKEROOTKEY` is set), whether the
      emulation library can be loaded, and the process's own uid/gid. */
  datatype Env = Env(fails: set<Call>, denied: set<Path>, fakeroot: bool,
                     libcFound: bool, uid: int, gid: int)

  /** The outcome of one state-changing call. */
  datatype Step = Step(fs: Fs, err: Option<Error>)

  function StatStep(env: Env, s: Fs, p: Path): (r: Result<Node>)
    ensures r.Ok? ==> p in s.nodes && r.value == s.nodes[p]
    ensures r == Err(NotExist) <==> StatCall(p) !in env.fails && p !in s.nodes
  {
    if StatCall(p) in env.fails then Err(OsFailed(StatCall(p)))
    else if p in s.nodes then Ok(s.nodes[p])
    else Err(NotExist)
  }

  function LstatStep(env: Env, s: Fs, p: Path): (r: Result<Node>)
    ensures r.Ok? ==> p in s.nodes && r.value == s.nodes[p]
    ensures r == Err(NotExist) <==> LstatCall(p) !in env.fails && p !in s.nodes
  {
    if LstatCall(p) in env.fails then Err(OsFailed(LstatCall(p)))
    else if p in s.nodes then Ok(s.nodes[p])
    else Err(NotExist)
  }

  /** The write bit `access(2)` consults for a node: the owner's when the
      process owns it, else the group's when the process is in the node's
      group, else everyone's. */
  function WriteBit(env: Env, n: Node): bv32 {
    if n.uid == env.uid then OwnerWrite
    else if n.gid == env.gid then GroupWrite
    else OtherWrite
  }

  /** `unix.Access(d, unix.W_OK) == nil`: root may write anywhere, any other
      process needs the write bit that applies to it; a directory in
      `env.denied` refuses writes whatever its mode (a read-only mount). */
  predicate Writable(env: Env, s: Fs, d: Path) {
    && d in s.nodes && d !in env.denied
    && (env.uid == 0 || s.nodes[d].perm & WriteBit(env, s.nodes[d]) != 0)
  }

  predicate IsDirAt(s: Fs, d: Path) {
    d in s.nodes && s.nodes[d].kind.Directory?
  }

  /** `p` lies strictly below `d`. */
  predicate Below(d: Path, p: Path) {
    |d| < |p| && p[..|d|] == d
  }

  /** The conditions under which the system lets `c` create `p`. */
  predicate CanCreate(env: Env, s: Fs, c: Call, p: Path) {
    c !in env.fails && p !in s.nodes && IsDirAt(s, Parent(p)) && Writable(env, s, Parent(p))
  }

  /** Creating a new node: fails if the path exists, if the parent is not a
      directory, or if the parent is not writable. */
  function CreateStep(env: Env, s: Fs, c: Call, p: Path, n: Node): (r: Step)
    ensures r.fs.log == s.log + [c]
    ensures r.err.None? <==> CanCreate(env, s, c, p)
    ensures r.err.None? ==> r.fs.nodes == s.nodes[p := n]
    ensures r.err.Some? ==> r.fs.nodes == s.nodes
    ensures r.err.Some? && c !in env.fails && p in s.nodes ==> r.err == Some(Exist)
  {
    var log := s.log + [c];
    if c in env.fails then Step(Fs(s.nodes, log), Some(OsFailed(c)))
    else if p in s.nodes then Step(Fs(s.nodes, log), Some(Exist))
    else if !IsDirAt(s, Parent(p)) then Step(Fs(s.nodes, log), Some(NotExist))
    else if !Writable(env, s, Parent(p)) then Step(Fs(s.nodes, log), Some(Permission(Parent(p))))
    else Step(Fs(s.nodes[p := n], log), None)
  }

  function MkdirStep(env: Env, s: Fs, p: Path, perm: bv32): Step {
    CreateStep(env, s, MkdirCall(p), p, Node(Directory, perm & PermMask, env.uid, env.gid))
  }

  function SymlinkStep(env: Env, s: Fs, target: string, p: Path): Step {
    CreateStep(env, s, SymlinkCall(p, target), p, Node(Symlink(target), PermMask, env.uid, env.gid))
  }

  function MkfifoStep(env: Env, s: Fs, p: Path, perm: bv32): Step {
    CreateStep(env, s, MkfifoCall(p), p, Node(Fifo, perm & PermMask, env.uid, env.gid))
  }

  /** `net.Listen("unix", p)`: binding creates the socket node (the
      listener is never closed, so the node stays). */
  function ListenStep(env: Env, s: Fs, p: Path): Step {
    CreateStep(env, s, ListenCall(p), p, Node(Socket, PermMask, env.uid, env.gid))
  }

  /** `mknod(2)` with a mode that carries no file-type bits, as
      `syscall.Mknod(path, 0644, rdev)` issues it: a zero file type makes
      the system create an empty regular file. */
  function MknodStep(env: Env, s: Fs, via: Via, p: Path, mode: bv32, rdev: nat): Step {
    CreateStep(env, s, MknodCall(via, p, mode, rdev), p,
               Node(Regular([]), mode & PermMask, env.uid, env.gid))
  }

  /** The external command `mknod --mode=<perm> <path> <dtype> [<major> <minor>]`. */
  function MknodCmdStep(env: Env, s: Fs, p: Path, perm: bv32, dtype: char, majMin: seq<nat>): Step {
    var kind := if |majMin| == 2 then Device(dtype, majMin[0], majMin[1]) else Fifo;
    CreateStep(env, s, MknodCmdCall(p, perm, dtype, majMin), p,
               Node(kind, perm & PermMask, env.uid, env.gid))
  }

  /** `os.OpenFile(p, O_CREATE|O_WRONLY, perm)`: opens an existing regular
      file as it is (no truncation) or creates an empty one. */
  function OpenStep(env: Env, s: Fs, p: Path, perm: bv32): Step {
    var c := OpenCall(p);
    if c !in env.fails && p in s.nodes then
      if s.nodes[p].kind.Regular? then Step(Fs(s.nodes, s.log + [c]), None)
      else Step(Fs(s.nodes, s.log + [c]), Some(IsADirectory(p)))
    else CreateStep(env, s, c, p, Node(Regular([]), perm & PermMask, env.uid, env.gid))
  }

  datatype CopyStep = CopyStep(fs: Fs, written: int, err: Option<Error>)

  /** `io.Copy` of `data` into the regular file opened at `p`, from offset
      zero: the bytes written replace the file's first bytes. */
  function CopyStepAt(env: Env, s: Fs, p: Path, data: seq<byte>): (r: CopyStep)
    ensures r.fs.log == s.log + [CopyCall(p)]
    ensures r.err.None? ==> (r.written == |data| && p in r.fs.nodes && r.fs.nodes[p].kind.Regular?
                             && |data| <= |r.fs.nodes[p].kind.data| && r.fs.nodes[p].kind.data[..|data|] == data)
  {
    var c := CopyCall(p);
    var log := s.log + [c];
    if c in env.fails || p !in s.nodes || !s.nodes[p].kind.Regular? then
      CopyStep(Fs(s.nodes, log), 0, Some(OsFailed(c)))
    else
      var old_ := s.nodes[p].kind.data;
      var data' := if |old_| <= |data| then data else data + old_[|data|..];
      CopyStep(Fs(s.nodes[p := s.nodes[p].(kind := Regular(data'))], log), |data|, None)
  }

  /** `os.Remove(p)`. */
  function RemoveStep(env: Env, s: Fs, p: Path): (r: Step)
    ensures r.fs.log == s.log + [RemoveCall(p)]
    ensures r.err.None? ==> p in s.nodes && r.fs.nodes == s.nodes - {p}
    ensures r.err.Some? ==> r.fs.nodes == s.nodes
  {
    var c := RemoveCall(p);
    var log := s.log + [c];
    if c in env.fails then Step(Fs(s.nodes, log), Some(OsFailed(c)))
    else if p !in s.nodes then Step(Fs(s.nodes, log), Some(NotExist))
    else if exists q :: q in s.nodes && Below(p, q) then Step(Fs(s.nodes, log), Some(NotEmpty(p)))
    else if p != [] && !Writable(env, s, Parent(p)) then Step(Fs(s.nodes, log), Some(Permission(Parent(p))))
    else Step(Fs(s.nodes - {p}, log), None)
  }

  /** The nodes left once `p` and everything below it are gone. */
  function Pruned(nodes: map<Path, Node>, p: Path): (m: map<Path, Node>)
    ensures forall q :: q in m <==> q in nodes && q != p && !Below(p, q)
    ensures forall q :: q in m ==> m[q] == nodes[q]
  {
    map q | q in nodes && q != p && !Below(p, q) :: nodes[q]
  }

  /** `os.RemoveAll(p)`: a missing path is not an error. */
  function RemoveAllStep(env: Env, s: Fs, p: Path): (r: Step)
    ensures r.fs.log == s.log + [RemoveAllCall(p)]
    ensures r.err.None? ==> r.fs.nodes == Pruned(s.nodes, p)
    ensures r.err.Some? ==> r.fs.nodes == s.nodes
  {
    var c := RemoveAllCall(p);
    var log := s.log + [c];
    if c in env.fails then Step(Fs(s.nodes, log), Some(OsFailed(c)))
    else if p !in s.nodes then Step(Fs(Pruned(s.nodes, p), log), None)
    else if p != [] && !Writable(env, s, Parent(p)) then Step(Fs(s.nodes, log), Some(Permission(Parent(p))))
    else Step(Fs(Pruned(s.nodes, p), log), None)
  }

  /** The components of a link target, empty ones (from repeated or
      trailing slashes) dropped. */
  function Components(t: string): (r: seq<string>)
    ensures forall k :: 0 <= k < |r| ==> r[k] != ""
    decreases |t|
  {
    if |t| == 0 then []
    else
      var i := FirstSlash(t, 0);
      var rest := if i < |t| then Components(t[i + 1..]) else [];
      if i == 0 then rest else [t[..i]] + rest
  }

  /** The index of the first `/` in `t` at or after `j`, or `|t|`. */
  function FirstSlash(t: string, j: nat): (i: nat)
    requires j <= |t|
    ensures j <= i <= |t| && (i < |t| ==> t[i] == '/')
    ensures forall k :: j <= k < i ==> t[k] != '/'
    decreases |t| - j
  {
    if j == |t| || t[j] == '/' then j else FirstSlash(t, j + 1)
  }

  /** Walking `comps` from `base`: `.` stays, `..` goes up (not above `/`). */
  function Lexical(base: Path, comps: seq<string>): Path
    decreases |comps|
  {
    if comps == [] then base
    else if comps[0] == "." then Lexical(base, comps[1..])
    else if comps[0] == ".." then Lexical(Parent(base), comps[1..])
    else Lexical(base + [comps[0]], comps[1..])
  }

  /** Where a symbolic link at `at` with target `t` points: from `/` for an
      absolute target, otherwise from the link's directory. */
  function LinkPath(at: Path, t: string): Path {
    Lexical(if |t| > 0 && t[0] == '/' then [] else Parent(at), Components(t))
  }

  /** The node reached from `p` by following symbolic links, at most `hops`
      of them. */
  function Resolve(s: Fs, p: Path, hops: nat): (r: Result<Path>)
    ensures r.Ok? ==> r.value in s.nodes && !s.nodes[r.value].kind.Symlink?
    ensures r.Err? ==> r.error in {NotExist, TooManyLinks}
    ensures p !in s.nodes ==> r == Err(NotExist)
    ensures p in s.nodes && !s.nodes[p].kind.Symlink? ==> r == Ok(p)
    decreases hops
  {
    if p !in s.nodes then Err(NotExist)
    else match s.nodes[p].kind
      case Symlink(t) => if hops == 0 then Err(TooManyLinks) else Resolve(s, LinkPath(p, t), hops - 1)
      case _ => Ok(p)
  }

  /** `chmod`, by whichever mechanism (`chmod(2)` or the `chmod` command):
      only the permission bits are set, on the node the symbolic links
      starting at `p` lead to; a dangling link or a loop is an error. */
  function ChmodStep(env: Env, s: Fs, via: Via, p: Path, mode: bv32): (r: Step)
    ensures r.fs.log == s.log + [ChmodCall(via, p, mode & PermMask)]
    ensures r.err.None? <==> ChmodCall(via, p, mode & PermMask) !in env.fails && Resolve(s, p, MaxLinks).Ok?
    ensures r.err.None? ==>
              var q := Resolve(s, p, MaxLinks).value;
              p in s.nodes && q in s.nodes && r.fs.nodes == s.nodes[q := s.nodes[q].(perm := mode & PermMask)]
    ensures r.err.None? && !s.nodes[p].kind.Symlink? ==>
              r.fs.nodes == s.nodes[p := s.nodes[p].(perm := mode & PermMask)]
    ensures r.err.Some? ==> r.fs.nodes == s.nodes
  {
    var c := ChmodCall(via, p, mode & PermMask);
    var log := s.log + [c];
    if c in env.fails then Step(Fs(s.nodes, log), Some(OsFailed(c)))
    else match Resolve(s, p, MaxLinks)
      case Err(e) => Step(Fs(s.nodes, log), Some(e))
      case Ok(q) => Step(Fs(s.nodes[q := s.nodes[q].(perm := mode & PermMask)], log), None)
  }

  /** Following links looks only at which paths exist and what kind of
      node each is: changing owners or permissions does not change where a
      link leads. */
  lemma {:induction false} ResolveSameKinds(s: Fs, t: Fs, p: Path, hops: nat)
    requires s.nodes.Keys == t.nodes.Keys
    requires forall q :: q in s.nodes ==> t.nodes[q].kind == s.nodes[q].kind
    ensures Resolve(s, p, hops) == Resolve(t, p, hops)
    decreases hops
  {
    if p in s.nodes && s.nodes[p].kind.Symlink? && hops > 0 {
      ResolveSameKinds(s, t, LinkPath(p, s.nodes[p].kind.target), hops - 1);
    }
  }

  /** The node a `chown` changes: `p` itself, or with `deref` (`os.Chown`)
      the node the symbolic links starting at `p` lead to. */
  function ChownTarget(s: Fs, p: Path, deref: bool): Result<Path> {
    if deref then Resolve(s, p, MaxLinks)
    else if p in s.nodes then Ok(p)
    else Err(NotExist)
  }

  /** `chown`, by whichever mechanism: `os.Chown` follows symbolic links,
      `os.Lchown` and `chown --no-dereference` change the link itself. */
  function ChownStep(env: Env, s: Fs, via: Via, p: Path, uid: int, gid: int, deref: bool): (r: Step)
    ensures r.fs.log == s.log + [ChownCall(via, p, uid, gid, deref)]
    ensures r.err.None? <==> ChownCall(via, p, uid, gid, deref) !in env.fails && ChownTarget(s, p, deref).Ok?
    ensures r.err.None? ==>
              var q := ChownTarget(s, p, deref).value;
              q in s.nodes && r.fs.nodes == s.nodes[q := s.nodes[q].(uid := uid, gid := gid)]
    ensures r.err.Some? ==> r.fs.nodes == s.nodes
  {
    var c := ChownCall(via, p, uid, gid, deref);
    var log := s.log + [c];
    if c in env.fails then Step(Fs(s.nodes, log), Some(OsFailed(c)))
    else match ChownTarget(s, p, deref)
      case Err(e) => Step(Fs(s.nodes, log), Some(e))
      case Ok(q) => Step(Fs(s.nodes[q := s.nodes[q].(uid := uid, gid := gid)], log), None)
  }

  /** The operating system's side of one run: the state the extractor's
      calls change one at a time. */
  class TargetFs {
    const env: Env
    var fs: Fs

    constructor (env: Env, fs: Fs)
      ensures this.env == env && this.fs == fs
    {
      this.env := env;
      this.fs := fs;
    }

    function Stat(p: Path): Result<Node> reads this { StatStep(env, fs, p) }
    function Lstat(p: Path): Result<Node> reads this { LstatStep(env, fs, p) }
    predicate Access(d: Path) reads this { Writable(env, fs, d) }
    predicate PathExists(p: Path) reads this { Stat(p) != Err(NotExist) }

    method Mkdir(p: Path, perm: bv32) returns (err: Option<Error>)
      modifies this
      ensures Step(fs, err) == MkdirStep(env, old(fs), p, perm)
    {
      var r := MkdirStep(env, fs, p, perm);
      fs, err := r.fs, r.err;
    }

    method Symlink(target: string, p: Path) returns (err: Option<Error>)
      modifies this
      ensures Step(fs, err) == SymlinkStep(env, old(fs), target, p)
    {
      var r := SymlinkStep(env, fs, target, p);
      fs, err := r.fs, r.err;
    }

    method Mkfifo(p: Path, perm: bv32) returns (err: Option<Error>)
      modifies this
      ensures Step(fs, err) == MkfifoStep(env, old(fs), p, perm)
    {
      var r := MkfifoStep(env, fs, p, perm);
      fs, err := r.fs, r.err;
    }

    method Listen(p: Path) returns (err: Option<Error>)
      modifies this
      ensures Step(fs, err) == ListenStep(env, old(fs), p)
    {
      var r := ListenStep(env, fs, p);
      fs, err := r.fs, r.err;
    }

    method Mknod(via: Via, p: Path, mode: bv32, rdev: nat) returns (err: Option<Error>)
      modifies this
      ensures Step(fs, err) == MknodStep(env, old(fs), via, p, mode, rdev)
    {
      var r := MknodStep(env, fs, via, p, mode, rdev);
      fs, err := r.fs, r.err;
    }

    method MknodCmd(p: Path, perm: bv32, dtype: char, majMin: seq<nat>) returns (err: Option<Error>)
      modifies this
      ensures Step(fs, err) == MknodCmdStep(env, old(fs), p, perm, dtype, majMin)
    {
      var r := MknodCmdStep(env, fs, p, perm, dtype, majMin);
      fs, err := r.fs, r.err;
    }

    method OpenFile(p: Path, perm: bv32) returns (err: Option<Error>)
      modifies this
      ensures Step(fs, err) == OpenStep(env, old(fs), p, perm)
    {
      var r := OpenStep(env, fs, p, perm);
      fs, err := r.fs, r.err;
    }

    method Copy(p: Path, data: seq<byte>) returns (written: int, err: Option<Error>)
      modifies this
      ensures CopyStep(fs, written, err) == CopyStepAt(env, old(fs), p, data)
    {
      var r := CopyStepAt(env, fs, p, data);
      fs, written, err := r.fs, r.written, r.err;
    }

    method Remove(p: Path) returns (err: Option<Error>)
      modifies this
      ensures Step(fs, err) == RemoveStep(env, old(fs), p)
    {
      var r := RemoveStep(env, fs, p);
      fs, err := r.fs, r.err;
    }

    method RemoveAll(p: Path) returns (err: Option<Error>)
      modifies this
      ensures Step(fs, err) == RemoveAllStep(env, old(fs), p)
    {
      var r := RemoveAllStep(env, fs, p);
      fs, err := r.fs, r.err;
    }

    method Chmod(via: Via, p: Path, mode: bv32) returns (err: Option<Error>)
      modifies this
      ensures Step(fs, err) == ChmodStep(env, old(fs), via, p, mode)
    {
      var r := ChmodStep(env, fs, via, p, mode);
      fs, err := r.fs, r.err;
    }

    method Chown(via: Via, p: Path, uid: int, gid: int, deref: bool) returns (err: Option<Error>)
      modifies this
      ensures Step(fs, err) == ChownStep(env, old(fs), via, p, uid, gid, deref)
    {
      var r := ChownStep(env, fs, via, p, uid, gid, deref);
      fs, err := r.fs, r.err;
    }
  }
}
