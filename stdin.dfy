/** The `getStdin` template helper: standard input is captured at most once,
    on the first call, and every call returns the captured bytes. */
module Stdin {
  import opened GoBytes

  /** `os.ModeNamedPipe`: bit 25 of a Go `FileMode`, a 32-bit mask. */
  const ModeNamedPipe: bv32 := 0x0200_0000

  /** What `os.Stdin.Stat()` returned. */
  datatype StatResult = StatFailed | Stat(mode: bv32)

  /** What `ioutil.ReadAll(os.Stdin)` returned. */
  datatype ReadResult = ReadFailed | Read(data: Bytes)

  /** `fi.Mode()&os.ModeNamedPipe != 0`: the mode has the named-pipe bit. */
  predicate IsNamedPipe(mode: bv32)
    ensures IsNamedPipe(mode) <==> (mode >> 25) & 1 == 1
  {
    mode & ModeNamedPipe != 0
  }

  /** The bytes the once-body leaves in the buffer, given what stat and a
      first read of standard input report: the read data when stdin is a named
      pipe and both calls succeed, and nothing otherwise. */
  function Captured(stat: StatResult, read: ReadResult): (b: Bytes)
    ensures stat.Stat? && IsNamedPipe(stat.mode) && read.Read? ==> b == read.data
    ensures stat.StatFailed? || !IsNamedPipe(stat.mode) || read.ReadFailed? ==> b == []
  {
    match stat
    case StatFailed => []
    case Stat(mode) =>
      if !IsNamedPipe(mode) then []
      else match read
        case ReadFailed => []
        case Read(data) => data
  }

  /** The process's standard input. A pipe yields its data to the first read
      and is drained afterwards; `readCount` counts the reads made. */
  class Source {
    const stat: StatResult
    ghost const first: ReadResult
    var next: ReadResult
    var readCount: nat

    constructor (stat: StatResult, first: ReadResult)
      ensures this.stat == stat && this.first == first
      ensures next == first && readCount == 0
    {
      this.stat := stat;
      this.first := first;
      next := first;
      readCount := 0;
    }

    method Stat() returns (s: StatResult)
      ensures s == stat
    {
      s := stat;
    }

    method ReadAll() returns (r: ReadResult)
      modifies this
      ensures r == old(next)
      ensures readCount == old(readCount) + 1
      ensures next == Read([])
    {
      r := next;
      next := Read([]);
      readCount := readCount + 1;
    }
  }

  /** The `stdin` buffer and its `stdinOnce` guard. */
  class Cache {
    var done: bool
    var data: Bytes
    const stdin: Source

    /** Before the first call nothing has been read; afterwards the buffer
        holds what the first call captured and stdin was read at most once. */
    ghost predicate Valid()
      reads this, stdin
    {
      if done then data == Captured(stdin.stat, stdin.first) && stdin.readCount <= 1
      else data == [] && stdin.readCount == 0 && stdin.next == stdin.first
    }

    constructor (stdin: Source)
      requires stdin.readCount == 0 && stdin.next == stdin.first
      ensures Valid() && !done && this.stdin == stdin
    {
      this.stdin := stdin;
      done := false;
      data := [];
    }

    /** `getStdin()`: the first call stats stdin and, if it is a named pipe,
        reads it; every call returns the captured bytes. A later call touches
        neither the buffer nor stdin. */
    method Get() returns (b: Bytes)
      requires Valid()
      modifies this, stdin
      ensures Valid() && done
      ensures b == Captured(stdin.stat, stdin.first)
      ensures stdin.readCount <= 1
      ensures old(done) ==> unchanged(this, stdin)
      ensures !old(done) ==> stdin.readCount == (if stdin.stat.Stat? && IsNamedPipe(stdin.stat.mode) then 1 else 0)
    {
      if !done {
        done := true;
        var fi := stdin.Stat();
        if fi.Stat? && IsNamedPipe(fi.mode) {
          var r := stdin.ReadAll();
          if r.Read? {
            data := r.data;
          }
        }
      }
      b := data;
    }
  }

  /** Two `getStdin` calls in one template evaluation return identical bytes,
      and stdin is read at most once. */
  method GetTwice(stdin: Source) returns (a: Bytes, b: Bytes)
    requires stdin.readCount == 0 && stdin.next == stdin.first
    modifies stdin
    ensures a == b == Captured(stdin.stat, stdin.first)
    ensures stdin.readCount == (if stdin.stat.Stat? && IsNamedPipe(stdin.stat.mode) then 1 else 0)
  {
    var cache := new Cache(stdin);
    a := cache.Get();
    b := cache.Get();
  }
}
