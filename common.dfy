/** Values shared by the archive reader, the target filesystem and both
    extractors: optional values, results, paths, the calls made to the
    operating system and the errors the Go code returns. */
module Common {

  datatype Option<+T> = None | Some(value: T)

  datatype Result<+T> = Ok(value: T) | Err(error: Error)

  newtype byte = b: int | 0 <= b < 256

  /** A slash-separated path as its list of components; `[]` is `/`.
      `filepath.Join(a, b)` is `a + b` and `filepath.Dir(p)` is `Parent(p)`. */
  type Path = seq<string>

  function Parent(p: Path): (d: Path)
    ensures |p| > 0 ==> d + [p[|p| - 1]] == p
    ensures |p| == 0 ==> d == []
  {
    if |p| == 0 then [] else p[..|p| - 1]
  }

  /** Which mechanism carried out a privileged operation: an in-process
      system call, an external `chmod`/`chown`/`mknod` command, or the
      emulation library's own symbol resolved at run time. */
  datatype Via = Sys | Exec | Libc

  /** One call made to the operating system. Every state-changing primitive
      appends its call to the filesystem's log, and the fault oracle names
      the calls that fail. */
  datatype Call =
    | StatCall(path: Path)
    | LstatCall(path: Path)
    | MkdirCall(path: Path)
    | SymlinkCall(path: Path, target: string)
    | MkfifoCall(path: Path)
    | ListenCall(path: Path)
    | OpenCall(path: Path)
    | CopyCall(path: Path)
    | RemoveCall(path: Path)
    | RemoveAllCall(path: Path)
    | ChmodCall(via: Via, path: Path, perm: bv32)
    | ChownCall(via: Via, path: Path, uid: int, gid: int, deref: bool)
    | MknodCall(via: Via, path: Path, mode: bv32, rdev: nat)
    | MknodCmdCall(path: Path, perm: bv32, dtype: char, majMin: seq<nat>)

  /** The errors the Go code distinguishes. `SkipDir` and `EOF` are the
      sentinels of `filepath` and `io`; `Exist`/`NotExist` are what
      `os.IsExist`/`os.IsNotExist` recognise. */
  datatype Error =
    | SkipDir
    | EOF
    | NotExist
    | TooManyLinks
    | Exist
    | Permission(path: Path)
    | NotEmpty(path: Path)
    | IsADirectory(path: Path)
    | OsFailed(call: Call)
    | NotADirectory(path: Path)
    | CannotMakeWritable(path: Path)
    | CannotMakeWritableSetBack(path: Path)
    | SizeMismatch(written: int, path: Path, expected: int)
    | IrregularFile(path: Path)
    | UnknownType(path: Path)
    | NotADevice(path: Path)
    | LibraryNotFound
    | DirReaderFailed(code: int)
    | DataReaderFailed
    | ReadFailed(code: int)
    | SeekBeforeStart(pos: int)
    | SeekPastEnd(pos: int)
}
