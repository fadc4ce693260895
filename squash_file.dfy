/** The `os.File`-like cursor over one archive inode (squash.go): the
    memoised size, `Seek`, the position bookkeeping of `Read`, and
    `Readdirnames` over the directory reader. The data and directory readers
    of the archive library are foreign: what they answer is given to the
    methods as parameters (`rlen` for a read) or fixed when the file is
    opened (the steps the directory reader will yield). */
module SquashFile {
  import opened Common
  import opened Squash

  // io.Seek* whence values.
  const SeekStart := 0
  const SeekCurrent := 1
  const SeekEnd := 2

  /** One answer of the directory reader: an entry, the end of the
      directory (a positive code) or a failure (a negative code). */
  datatype DirStep = Entry(name: string) | End | Fail(code: int)

  /** What the reader answers at position `pos`; past the listing it keeps
      answering end-of-directory. */
  function NextStep(steps: seq<DirStep>, pos: nat): DirStep {
    if pos < |steps| then steps[pos] else End
  }

  /** The size `getFileInfo` reports for the file's inode. */
  function FileSize(ino: Inode): int {
    GetFileInfo([], ino).fsize
  }

  /** Where `Seek(offset, whence)` would move: `ref + offset` with `ref`
      zero, the current position or the size; an unknown `whence` leaves
      `ref` at zero. */
  function SeekTarget(pos: int, size: int, offset: int, whence: int): int {
    (if whence == SeekCurrent then pos else if whence == SeekEnd then size else 0) + offset
  }

  datatype SeekOutcome = SeekOutcome(pos: int, err: Option<Error>)

  /** `Seek`'s decision: out-of-range targets are refused and keep the old
      position; any other target becomes the new position. */
  function SeekResult(pos: int, size: int, offset: int, whence: int): (r: SeekOutcome)
    ensures r.err.None? <==> 0 <= SeekTarget(pos, size, offset, whence) <= size
    ensures r.err.None? ==> r.pos == SeekTarget(pos, size, offset, whence) && 0 <= r.pos <= size
    ensures r.err.Some? ==> r.pos == pos
    ensures SeekTarget(pos, size, offset, whence) < 0 ==> r.err == Some(SeekBeforeStart(pos))
    ensures 0 <= SeekTarget(pos, size, offset, whence) && SeekTarget(pos, size, offset, whence) > size ==> r.err == Some(SeekPastEnd(pos))
  {
    var t := SeekTarget(pos, size, offset, whence);
    if t < 0 then SeekOutcome(pos, Some(SeekBeforeStart(pos)))
    else if t > size then SeekOutcome(pos, Some(SeekPastEnd(pos)))
    else SeekOutcome(t, None)
  }

  /** Seeking relative to the start, the current position or the end
      reaches the same place whenever the offsets agree. */
  lemma SeekWhenceAgree(pos: int, size: int, k: int)
    ensures SeekResult(pos, size, k, SeekStart) == SeekResult(pos, size, k - pos, SeekCurrent)
    ensures SeekResult(pos, size, k, SeekStart) == SeekResult(pos, size, k - size, SeekEnd)
  {
  }

  datatype ReadOutcome = ReadOutcome(pos: int, n: int, err: Option<Error>)

  /** `Read` once a data reader exists: at the end it answers `(0, EOF)`;
      a negative count from the reader is passed on as an error; otherwise
      the position advances by exactly the count. */
  function ReadResult(pos: int, size: int, rlen: int): (r: ReadOutcome)
    ensures pos == size ==> r == ReadOutcome(pos, 0, Some(EOF))
    ensures pos != size && rlen < 0 ==> r.pos == pos && r.n == rlen && r.err == Some(ReadFailed(rlen))
    ensures pos != size && rlen >= 0 ==> r.pos == pos + r.n && r.n == rlen && r.err.None?
  {
    if pos == size then ReadOutcome(pos, 0, Some(EOF))
    else if rlen < 0 then ReadOutcome(pos, rlen, Some(ReadFailed(rlen)))
    else ReadOutcome(pos + rlen, rlen, None)
  }

  /** Reads never move the cursor back, and a reader that returns no more
      than what is left keeps the cursor within the file. */
  lemma ReadKeepsCursorInFile(pos: int, size: int, rlen: int)
    requires 0 <= pos <= size && rlen <= size - pos
    ensures var r := ReadResult(pos, size, rlen); pos <= r.pos <= size
  {
  }

  datatype Names = Names(names: seq<string>, err: Option<Error>, pos: nat)

  /** The loop of `Readdirnames(n)` from reader position `pos` with `count`
      names already taken. */
  function ReadNames(steps: seq<DirStep>, pos: nat, n: int, count: nat): Names
    decreases |steps| - pos
  {
    if n > 0 && count >= n then Names([], None, pos)
    else
      match NextStep(steps, pos)
      case End => Names([], if n > 0 then Some(EOF) else None, pos)
      case Fail(c) => Names([], Some(ReadFailed(c)), pos)
      case Entry(name) =>
        var r := ReadNames(steps, pos + 1, n, count + 1);
        Names([name] + r.names, r.err, r.pos)
  }

  /** One more name taken by the loop. */
  lemma ReadNamesEntry(steps: seq<DirStep>, pos: nat, n: int, count: nat)
    requires !(n > 0 && count >= n) && NextStep(steps, pos).Entry?
    ensures pos < |steps|
    ensures var r := ReadNames(steps, pos + 1, n, count + 1);
      ReadNames(steps, pos, n, count) == Names([steps[pos].name] + r.names, r.err, r.pos)
  {
  }

  /** Taking one more name moves it from the rest of the listing to the
      names already read, and the whole listing stays the same. */
  lemma ReadNamesTake(steps: seq<DirStep>, pos: nat, n: int, count: nat, names: seq<string>)
    requires !(n > 0 && count >= n) && NextStep(steps, pos).Entry?
    ensures pos < |steps|
    ensures var r := ReadNames(steps, pos, n, count);
      var r1 := ReadNames(steps, pos + 1, n, count + 1);
      Names(names + r.names, r.err, r.pos) == Names((names + [steps[pos].name]) + r1.names, r1.err, r1.pos)
  {
    ReadNamesEntry(steps, pos, n, count);
    var r1 := ReadNames(steps, pos + 1, n, count + 1);
    assert names + ([steps[pos].name] + r1.names) == (names + [steps[pos].name]) + r1.names;
  }

  /** The maximal run of entries from `pos` on: the whole directory as the
      reader sees it. */
  function Run(steps: seq<DirStep>, pos: nat): seq<string>
    decreases |steps| - pos
  {
    if pos < |steps| && steps[pos].Entry? then [steps[pos].name] + Run(steps, pos + 1) else []
  }

  /** How the run ends: the end of the directory or a reader failure. */
  function RunEnd(steps: seq<DirStep>, pos: nat): DirStep
    decreases |steps| - pos
  {
    if pos < |steps| && steps[pos].Entry? then RunEnd(steps, pos + 1) else NextStep(steps, pos)
  }

  /** With `n <= 0` every remaining name is returned, with a nil error unless
      the reader failed. */
  lemma {:induction false} ReadAllNames(steps: seq<DirStep>, pos: nat, count: nat, n: int)
    requires n <= 0
    ensures var r := ReadNames(steps, pos, n, count);
      && r.names == Run(steps, pos)
      && r.pos == pos + |r.names|
      && (RunEnd(steps, pos).Fail? ==> r.err == Some(ReadFailed(RunEnd(steps, pos).code)))
      && (!RunEnd(steps, pos).Fail? ==> r.err.None?)
    decreases |steps| - pos
  {
    if pos < |steps| && steps[pos].Entry? {
      ReadAllNames(steps, pos + 1, count + 1, n);
    }
  }

  /** With `n > 0` at most `n` names are returned: the first `n` of the
      directory when it has that many (nil error), otherwise all of them with
      `EOF` (or the reader's failure). */
  lemma {:induction false} ReadSomeNames(steps: seq<DirStep>, pos: nat, count: nat, n: int)
    requires 0 < n && count <= n
    ensures var r := ReadNames(steps, pos, n, count);
      var run := Run(steps, pos);
      && r.pos == pos + |r.names|
      && (|run| >= n - count ==> r.names == run[..n - count] && r.err.None?)
      && (|run| < n - count ==>
            (r.names == run
             && r.err == (if RunEnd(steps, pos).Fail? then Some(ReadFailed(RunEnd(steps, pos).code))
                          else Some(EOF))))
    decreases |steps| - pos
  {
    if count < n && pos < |steps| && steps[pos].Entry? {
      ReadSomeNames(steps, pos + 1, count + 1, n);
      var rest := Run(steps, pos + 1);
      assert Run(steps, pos) == [steps[pos].name] + rest;
      if |rest| >= n - count - 1 {
        assert ([steps[pos].name] + rest)[..n - count] == [steps[pos].name] + rest[..n - count - 1];
      }
    }
  }

  /** An open file of the archive. */
  class File {
    const filename: string
    const inode: Inode
    /** What `sqfs_dir_reader_open_dir` answers for this inode. */
    const openCode: int
    /** What the directory reader yields once opened. */
    const steps: seq<DirStep>
    var pos: int
    /** `-1` until `Size` has computed it. */
    var size: int
    /** Whether `f.dataReader` has been set. */
    var dataReader: bool
    /** Whether `f.dirReader` has been set. */
    var dirReader: bool
    var dirPos: nat

    ghost predicate Valid()
      reads this
    {
      (size == -1 || size == FileSize(inode)) && dirPos <= |steps|
    }

    constructor(name: string, ino: Inode, openCode: int, steps: seq<DirStep>)
      ensures Valid()
      ensures filename == name && inode == ino && this.openCode == openCode && this.steps == steps
      ensures pos == 0 && size == -1 && !dataReader && !dirReader && dirPos == 0
    {
      filename := name;
      inode := ino;
      this.openCode := openCode;
      this.steps := steps;
      pos := 0;
      size := -1;
      dataReader := false;
      dirReader := false;
      dirPos := 0;
    }

    /** `Size`: computed from the inode on first use, then remembered. */
    method Size() returns (s: int)
      requires Valid()
      modifies this
      ensures Valid()
      ensures s == FileSize(inode) && size == s
      ensures pos == old(pos) && dataReader == old(dataReader)
      ensures dirReader == old(dirReader) && dirPos == old(dirPos)
    {
      if size == -1 {
        size := GetFileInfo([], inode).fsize;
      }
      s := size;
    }

    /** `Seek(offset, whence)`. */
    method Seek(offset: int, whence: int) returns (ret: int, err: Option<Error>)
      requires Valid()
      modifies this
      ensures Valid()
      ensures size == FileSize(inode)
      ensures SeekOutcome(pos, err) == SeekResult(old(pos), FileSize(inode), offset, whence)
      ensures ret == pos
      ensures dataReader == old(dataReader) && dirReader == old(dirReader) && dirPos == old(dirPos)
    {
      var ref := 0;
      if whence == SeekStart {
        ref := 0;
      } else if whence == SeekCurrent {
        ref := pos;
      } else if whence == SeekEnd {
        ref := Size();
      }
      var newPos := ref + offset;
      var sz := Size();
      if newPos < 0 {
        return pos, Some(SeekBeforeStart(pos));
      } else if newPos > sz {
        return pos, Some(SeekPastEnd(pos));
      }
      pos := newPos;
      return pos, None;
    }

    /** `Read`: `copyOk` is whether copying the archive's data reader
        succeeds, `rlen` what the data reader returns for this read. */
    method Read(copyOk: bool, rlen: int) returns (n: int, err: Option<Error>)
      requires Valid()
      modifies this
      ensures Valid()
      ensures dirReader == old(dirReader) && dirPos == old(dirPos)
      ensures !old(dataReader) && !copyOk ==>
        n == 0 && err == Some(DataReaderFailed) && pos == old(pos) && !dataReader && size == old(size)
      ensures old(dataReader) || copyOk ==>
                (dataReader && size == FileSize(inode)
                 && ReadOutcome(pos, n, err) == ReadResult(old(pos), FileSize(inode), rlen))
    {
      if !dataReader {
        if !copyOk {
          return 0, Some(DataReaderFailed);
        }
        dataReader := true;
      }
      var sz := Size();
      if pos == sz {
        return 0, Some(EOF);
      }
      if rlen < 0 {
        return rlen, Some(ReadFailed(rlen));
      }
      pos := pos + rlen;
      return rlen, None;
    }

    /** `Readdirnames(n)`: the reader is opened on first use (and stays
        set even when opening fails), then read until `n` names are taken,
        the directory ends or the reader fails. */
    method Readdirnames(n: int) returns (names: seq<string>, err: Option<Error>)
      requires Valid()
      modifies this
      ensures Valid()
      ensures dirReader
      ensures pos == old(pos) && size == old(size) && dataReader == old(dataReader)
      ensures !old(dirReader) && openCode != 0 ==>
                (names == [] && err == Some(DirReaderFailed(openCode)) && dirPos == old(dirPos))
      ensures old(dirReader) || openCode == 0 ==>
        Names(names, err, dirPos) == ReadNames(steps, old(dirPos), n, 0)
    {
      if !dirReader {
        dirReader := true;
        if openCode != 0 {
          return [], Some(DirReaderFailed(openCode));
        }
      }
      names, err := ReadEntries(n);
    }

    /** The loop of `Readdirnames` on an opened reader: names are taken
        until `n` of them are (for `n > 0`), the directory ends or the
        reader fails. */
    method ReadEntries(n: int) returns (names: seq<string>, err: Option<Error>)
      requires Valid() && dirReader
      modifies this
      ensures Valid() && dirReader
      ensures pos == old(pos) && size == old(size) && dataReader == old(dataReader)
      ensures Names(names, err, dirPos) == ReadNames(steps, old(dirPos), n, 0)
    {
      names := [];
      var i: nat := 0;
      var at := dirPos;
      while n <= 0 || i < n
        invariant i == |names| && at <= |steps|
        invariant unchanged(this)
        invariant var r := ReadNames(steps, at, n, i);
          ReadNames(steps, old(dirPos), n, 0) == Names(names + r.names, r.err, r.pos)
        decreases |steps| - at
      {
        var step := NextStep(steps, at);
        if step.End? {
          dirPos := at;
          if n > 0 {
            return names, Some(EOF);
          }
          return names, None;
        } else if step.Fail? {
          dirPos := at;
          return names, Some(ReadFailed(step.code));
        }
        ReadNamesTake(steps, at, n, i, names);
        names := names + [step.name];
        at := at + 1;
        i := i + 1;
      }
      dirPos := at;
      return names, None;
    }
  }

  /** `Open(name)`: one trailing slash is dropped (not from `/`), then the
      name is looked up; `lookup` stands for the archive library's path
      search, and `openCode`/`steps` for what its directory reader will do
      for the inode found. */
  method Open(name: string, lookup: string -> Option<Inode>, openCode: int, steps: seq<DirStep>)
    returns (r: Result<File>)
    ensures lookup(TrimSlash(name)).None? <==> r.Err?
    ensures r.Err? ==> r.error == NotExist
    ensures r.Ok? ==>
              (fresh(r.value) && r.value.Valid()
               && r.value.filename == TrimSlash(name) && Some(r.value.inode) == lookup(TrimSlash(name))
               && r.value.pos == 0 && r.value.size == -1 && !r.value.dirReader && !r.value.dataReader)
  {
    var n := TrimSlash(name);
    match lookup(n)
    case None => return Err(NotExist);
    case Some(ino) =>
      var f := new File(n, ino, openCode, steps);
      return Ok(f);
  }
}
