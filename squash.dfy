/** The archive side (squash.go): the inode-to-`FileInfo` mapping, path
    normalisation in `Open`, and the `filepath.Walk`-style tree walker.
    The archive itself is an abstract tree: a map from paths to inodes (each
    directory inode carrying its ordered child names) plus the directories
    whose listing fails. */
module Squash {
  import opened Common

  // Go's os.FileMode bits.
  const ModeDir: bv32        := 0x8000_0000
  const ModeSymlink: bv32    := 0x0800_0000
  const ModeDevice: bv32     := 0x0400_0000
  const ModeNamedPipe: bv32  := 0x0200_0000
  const ModeSocket: bv32     := 0x0100_0000
  const ModeCharDevice: bv32 := 0x0020_0000
  const ModeIrregular: bv32  := 0x0008_0000
  const ModeType: bv32 := ModeDir | ModeSymlink | ModeNamedPipe | ModeSocket
                          | ModeDevice | ModeCharDevice | ModeIrregular
  const PermBits: bv32 := 0x1FF

  /** The inode types of the archive format (basic and extended forms). */
  datatype InodeType =
    | DirT | FileT | SlinkT | BdevT | CdevT | FifoT | SocketT
    | ExtDirT | ExtFileT | ExtSlinkT | ExtBdevT | ExtCdevT | ExtFifoT | ExtSocketT

  /** One inode: its type, its raw 16-bit mode, owner ids (already looked up
      in the id table), device number, the size field of its type (directory
      size, file size or symlink target size), symlink target, the bytes
      its data reader yields, and, for a directory, its children in reader
      order. */
  datatype Inode = Inode(itype: InodeType, mode: bv16, uid: int, gid: int, devno: nat,
                         size: nat, target: string, content: seq<byte>, names: seq<string>)

  /** `FileInfo` together with the fields of `Sys()` the extractor reads. */
  datatype Info = Info(filename: Path, fsize: int, fmode: bv32, uid: int, gid: int,
                       rdev: nat, symlinkTarget: string, content: seq<byte>)

  /** The `FileInfo{}` zero value handed to the visitor when `Lstat` fails. */
  const ZeroInfo := Info([], 0, 0, 0, 0, 0, "", [])

  predicate IsDir(info: Info) { info.fmode & ModeDir != 0 }

  /** The Go type bit `getFileInfo` sets for each inode type. */
  function TypeBits(t: InodeType): bv32 {
    match t
    case DirT | ExtDirT => ModeDir
    case SlinkT => ModeSymlink
    case ExtSlinkT => 0            // the extended symlink gets no type bit
    case BdevT | ExtBdevT => ModeDevice
    case CdevT | ExtCdevT => ModeCharDevice
    case FifoT | ExtFifoT => ModeNamedPipe
    case SocketT | ExtSocketT => ModeSocket
    case FileT | ExtFileT => 0
  }

  /** No type bit falls among the permission bits. */
  lemma TypeBitsOutsidePerm(t: InodeType)
    ensures TypeBits(t) & PermBits == 0
  {
  }

  lemma OrKeepsPerm(x: bv32, y: bv32)
    requires x & PermBits == 0
    ensures (x | y) & PermBits == y & PermBits
  {
  }

  predicate IsDeviceInode(t: InodeType) {
    t.BdevT? || t.CdevT? || t.ExtBdevT? || t.ExtCdevT?
  }

  predicate IsSymlinkInode(t: InodeType) {
    t.SlinkT? || t.ExtSlinkT?
  }

  predicate HasSize(t: InodeType) {
    t.DirT? || t.ExtDirT? || t.FileT? || t.ExtFileT? || t.SlinkT? || t.ExtSlinkT?
  }

  /** The mode `getFileInfo` reports: the type bit or'ed with the inode's
      raw mode, whose permission bits it keeps. */
  function FileMode(ino: Inode): (m: bv32)
    ensures m & PermBits == (ino.mode as bv32) & PermBits
  {
    TypeBitsOutsidePerm(ino.itype);
    OrKeepsPerm(TypeBits(ino.itype), ino.mode as bv32);
    TypeBits(ino.itype) | (ino.mode as bv32)
  }

  /** `getFileInfo`: the type bit, the raw mode or'ed in, the size of the
      inode's type (zero for devices, fifos and sockets), the device number
      (`Sys().Rdev`, zero but for devices) and the symlink target. */
  function GetFileInfo(name: Path, ino: Inode): (info: Info)
    ensures info.filename == name && info.uid == ino.uid && info.gid == ino.gid
    ensures info.fmode & PermBits == (ino.mode as bv32) & PermBits
    ensures info.fsize == if HasSize(ino.itype) then ino.size else 0
    ensures info.rdev == if IsDeviceInode(ino.itype) then ino.devno else 0
    ensures info.symlinkTarget == if IsSymlinkInode(ino.itype) then ino.target else ""
  {
    Info(name,
         if HasSize(ino.itype) then ino.size else 0,
         FileMode(ino),
         ino.uid, ino.gid,
         if IsDeviceInode(ino.itype) then ino.devno else 0,
         if IsSymlinkInode(ino.itype) then ino.target else "",
         ino.content)
  }

  /** `Open`'s normalisation: one trailing slash is dropped unless the name
      is `/` itself. The rest of this module names entries by their list of
      components (`Path`), where `/a/b` and `/a/b/` are already one path;
      this string form is kept only for `Open`, whose lookups the source
      does on the name as given. */
  function TrimSlash(name: string): (r: string)
    ensures name == "/" ==> r == name
    ensures |name| > 0 && name[|name| - 1] == '/' && name != "/" ==> r + "/" == name
    ensures !(|name| > 0 && name[|name| - 1] == '/') ==> r == name
  {
    if name != "/" && |name| > 0 && name[|name| - 1] == '/' then name[..|name| - 1] else name
  }

  datatype Archive = Archive(inodes: map<Path, Inode>, unlistable: set<Path>)

  /** `SquashFs.Lstat`: opening fails for a path the archive does not hold;
      `getFileInfo` itself has no failure. */
  function Lstat(a: Archive, p: Path): (r: Result<Info>)
    ensures r.Ok? <==> p in a.inodes
    ensures r.Err? ==> r.error == NotExist
  {
    if p in a.inodes then Ok(GetFileInfo(p, a.inodes[p])) else Err(NotExist)
  }

  /** `Readdirnames(0)` on a freshly opened directory. */
  function List(a: Archive, p: Path): Result<seq<string>>
    requires p in a.inodes
  {
    if p in a.unlistable then Err(DirReaderFailed(-1)) else Ok(a.inodes[p].names)
  }

  /** The archive paths longer than `p`: it shrinks at every step down. */
  function Deeper(a: Archive, p: Path): set<Path> {
    set q | q in a.inodes && |q| > |p|
  }

  lemma DeeperShrinks(a: Archive, p: Path, c: Path)
    requires c in a.inodes && |c| == |p| + 1
    ensures Deeper(a, c) < Deeper(a, p)
  {
    assert c in Deeper(a, p) && c !in Deeper(a, c);
  }

  /** One call of the visitor: its arguments and what it returned. */
  datatype Visited = Visited(path: Path, info: Info, err: Option<Error>, res: Option<Error>)

  datatype Outcome<S> = Outcome(state: S, err: Option<Error>, trace: seq<Visited>)

  /** The visitor (`WalkFunc`) with the state it changes made explicit. */
  type Visitor<!S> = (S, Path, Info, Option<Error>) -> (S, Option<Error>)

  /** Non-nil results other than `SkipDir` abort the walk. */
  predicate Aborts(r: Option<Error>) { r.Some? && r != Some(SkipDir) }

  /** `walk(path, info, walkFn)`. */
  function WalkAt<S>(a: Archive, p: Path, info: Info, visit: Visitor<S>, s: S): Outcome<S>
    requires p in a.inodes
    decreases Deeper(a, p), 1
  {
    if !IsDir(info) then
      var (s1, r) := visit(s, p, info, None);
      Outcome(s1, r, [Visited(p, info, None, r)])
    else
      var names := List(a, p);
      var lerr := if names.Err? then Some(names.error) else None;
      var (s1, r) := visit(s, p, info, lerr);
      var v := Visited(p, info, lerr, r);
      if lerr.Some? || r.Some? then Outcome(s1, r, [v])
      else
        var o := WalkNames(a, p, names.value, 0, visit, s1);
        Outcome(o.state, o.err, [v] + o.trace)
  }

  /** The loop of `walk` over the child names, from position `i` on. */
  function WalkNames<S>(a: Archive, p: Path, names: seq<string>, i: nat, visit: Visitor<S>, s: S): Outcome<S>
    decreases Deeper(a, p), 0, |names| - i
  {
    if i >= |names| then Outcome(s, None, [])
    else
      var c := p + [names[i]];
      match Lstat(a, c)
      case Err(e) =>
        var (s1, r) := visit(s, c, ZeroInfo, Some(e));
        var v := Visited(c, ZeroInfo, Some(e), r);
        if Aborts(r) then Outcome(s1, r, [v])
        else
          var o := WalkNames(a, p, names, i + 1, visit, s1);
          Outcome(o.state, o.err, [v] + o.trace)
      case Ok(ci) =>
        DeeperShrinks(a, p, c);
        var o := WalkAt(a, c, ci, visit, s);
        if o.err.Some? && (!IsDir(ci) || o.err != Some(SkipDir)) then o
        else
          var o2 := WalkNames(a, p, names, i + 1, visit, o.state);
          Outcome(o2.state, o2.err, o.trace + o2.trace)
  }

  /** `SquashFs.Walk(root, walkFn)`. */
  function Walk<S>(a: Archive, root: Path, visit: Visitor<S>, s: S): Outcome<S> {
    if root !in a.inodes then Outcome(s, Some(NotExist), [])
    else
      var o := WalkAt(a, root, GetFileInfo(root, a.inodes[root]), visit, s);
      Outcome(o.state, if o.err == Some(SkipDir) then None else o.err, o.trace)
  }
}
