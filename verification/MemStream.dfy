/** A stdio stream on memory, against a file that cannot grow beyond a capacity. */
module MemStream {
  import opened Values

  const INT_MAX := 0x7fff_ffff

  // ---- Modes ----------------------------------------------------------------

  /** MS_READ, MS_WRITE, MS_APPEND and MS_TRUNCATE. */
  datatype Flags = Flags(read: bool, write: bool, append: bool, truncate: bool)

  const NONE := Flags(false, false, false, false)

  /** A mode is one of r, w and a, and then any number of + and b. */
  predicate IsMode(t: string) {
    t != "" && t[0] in "rwa" && forall i :: 1 <= i < |t| ==> t[i] in "+b"
  }

  function FlagsOf(t: string): Flags
    requires IsMode(t)
  {
    var plus := '+' in t;
    Flags(t[0] == 'r' || plus, t[0] == 'w' || plus, t[0] == 'a', t[0] == 'w')
  }

  /** type_to_flags. */
  method TypeToFlags(t: string) returns (flags: Flags)
    ensures flags == if IsMode(t) then FlagsOf(t) else NONE
  {
    flags := NONE;
    var i := 0;
    while i < |t|
      invariant 0 <= i <= |t|
      invariant if i == 0 then flags == NONE else IsMode(t[..i]) && flags == FlagsOf(t[..i]) && flags != NONE
    {
      var c := t[i];
      assert t[..i + 1] == t[..i] + [c];
      if c == 'r' || c == 'w' || c == 'a' {
        if flags != NONE {
          return NONE;
        }
        flags := if c == 'r' then flags.(read := true)
                 else if c == 'w' then flags.(write := true, truncate := true)
                 else flags.(append := true);
      } else if c == '+' {
        if flags == NONE {
          return NONE;
        }
        flags := flags.(read := true, write := true);
      } else if c == 'b' {
        if flags == NONE {
          return NONE;
        }
      } else {
        return NONE;
      }
      i := i + 1;
    }
    assert t[..i] == t;
  }

  // ---- A file of bounded size -----------------------------------------------

  /** What the file holds and where it is read and written. */
  datatype File = File(content: seq<byte>, pos: nat)

  function Min(a: int, b: int): int {
    if a < b then a else b
  }

  function Max(a: int, b: int): int {
    if a > b then a else b
  }

  function FileRead(f: File, len: nat): (r: (File, seq<byte>))
    requires f.pos <= |f.content|
    ensures r.0.pos <= |r.0.content|
  {
    var n := Min(len, |f.content| - f.pos);
    (f.(pos := f.pos + n), f.content[f.pos..f.pos + n])
  }

  /** Overwrite from off, as far as the capacity allows. */
  function FileWrite(f: File, cap: nat, append: bool, data: seq<byte>): (r: (File, nat))
    requires f.pos <= |f.content| <= cap
    ensures r.0.pos <= |r.0.content| <= cap
  {
    var off := if append then |f.content| else f.pos;
    var n := Min(|data|, cap - off);
    var rest := if off + n < |f.content| then f.content[off + n..] else [];
    (File(f.content[..off] + data[..n] + rest, off + n), n)
  }

  datatype Whence = Start | Current | End

  function Target(f: File, pos: int, whence: Whence): int {
    match whence
    case Start => pos
    case Current => f.pos + pos
    case End => |f.content| + pos
  }

  /** Somewhere from the start to the end of the content, or nowhere. */
  function FileSeek(f: File, target: int): (r: (File, int))
    requires f.pos <= |f.content|
    ensures r.0.content == f.content && r.0.pos <= |f.content|
  {
    if 0 <= target <= |f.content| then (f.(pos := target), target) else (f, -1)
  }

  /** A conversion to int keeps the low 32 bits. */
  function ToInt(x: int): int {
    var low := x % 0x1_0000_0000;
    if low > INT_MAX then low - 0x1_0000_0000 else low
  }

  /** Seeking with an int offset is seeking, unless the target has more than 32 bits
      and the low ones happen to be a place in the content. */
  lemma SeekAgreesIff(f: File, target: int)
    requires f.pos <= |f.content| <= INT_MAX
    ensures FileSeek(f, ToInt(target)) == FileSeek(f, target) <==>
      (-INT_MAX - 1 <= target <= INT_MAX || ToInt(target) > |f.content| || ToInt(target) < 0)
  {
    if -INT_MAX - 1 <= target <= INT_MAX {
      assert ToInt(target) == target;
    }
  }

  /** Such as the place 2 to the 32 of any stream. */
  lemma SeekWraps(f: File)
    requires f.pos <= |f.content| <= INT_MAX
    ensures FileSeek(f, 0x1_0000_0000).1 == -1 && FileSeek(f, ToInt(0x1_0000_0000)).1 == 0
  {
  }

  // ---- The stream -----------------------------------------------------------

  /** find_end. */
  method FindEnd(buf: array<byte>, len: nat) returns (off: nat)
    requires len <= buf.Length
    ensures off <= len && 0 !in buf[..off] && (off < len ==> buf[off] == 0)
  {
    off := 0;
    while off < len
      invariant off <= len && 0 !in buf[..off]
    {
      if buf[off] == 0 {
        break;
      }
      off := off + 1;
    }
  }

  /** a with data from off on. */
  function Patched(a: seq<byte>, off: nat, data: seq<byte>): seq<byte>
    requires off + |data| <= |a|
  {
    a[..off] + data + a[off + |data|..]
  }

  class Stream {
    const buf: array<byte>
    const rsize: nat
    const flags: Flags
    var vsize: nat
    var curpos: nat

    ghost predicate Valid()
      reads this
    {
      0 < rsize <= buf.Length && rsize <= INT_MAX && curpos <= vsize <= rsize
    }

    /** What can be read, and the position. */
    ghost function View(): File
      requires Valid()
      reads this, buf
    {
      File(buf[..vsize], curpos)
    }

    constructor (b: array<byte>, size: nat, fl: Flags, v: nat, c: nat)
      requires 0 < size <= b.Length && size <= INT_MAX && c <= v <= size
      ensures Valid() && buf == b && rsize == size && flags == fl && vsize == v && curpos == c
    {
      buf, rsize, flags, vsize, curpos := b, size, fl, v, c;
    }

    /** mstream_read. */
    method Read(len: nat) returns (data: seq<byte>, nr: int)
      requires Valid()
      modifies `curpos
      ensures Valid()
      ensures !flags.read ==> nr == -1 && data == [] && curpos == old(curpos)
      ensures flags.read ==> (View(), data) == FileRead(old(View()), len) && nr == |data|
    {
      if !flags.read {
        return [], -1;
      }
      if curpos >= vsize {
        assert buf[..vsize][curpos..curpos] == [];
        return [], 0;
      }
      nr := Min(len, vsize - curpos);
      data := buf[curpos..curpos + nr];
      curpos := curpos + nr;
      assert buf[..vsize][old(curpos)..old(curpos) + nr] == data;
    }

    /** memcpy into the buffer. */
    method Copy(off: nat, data: seq<byte>)
      requires off + |data| <= buf.Length
      modifies buf
      ensures buf[..] == Patched(old(buf[..]), off, data)
    {
      var i := 0;
      while i < |data|
        invariant 0 <= i <= |data|
        invariant forall x :: 0 <= x < buf.Length ==>
          buf[x] == if off <= x < off + i then data[x - off] else old(buf[x])
      {
        buf[off + i] := data[i];
        i := i + 1;
      }
    }

    /** The data in its place, the position behind it, and on a longer content of a
        stream for reading and writing a null behind that. */
    method Place(off: nat, data: seq<byte>) returns (nw: nat)
      requires Valid() && off <= vsize
      modifies this, buf
      ensures Valid() && nw == Min(|data|, rsize - off) && curpos == off + nw && vsize == Max(old(vsize), curpos)
      ensures var b := Patched(old(buf[..]), off, data[..nw]);
        buf[..] == if flags.read && flags.write && vsize > old(vsize) && vsize < rsize then b[vsize := 0] else b
    {
      nw := Min(|data|, rsize - off);
      Copy(off, data[..nw]);
      curpos := off + nw;
      if curpos > vsize {
        vsize := curpos;
        if flags.read && flags.write && vsize < rsize {
          buf[vsize] := 0;
        }
      }
    }

    /** A write to a stream for reading too. The null behind the content is no part of it. */
    method WriteRead(data: seq<byte>) returns (nw: int)
      requires Valid() && flags.read && (flags.write || flags.append)
      modifies this, buf
      ensures Valid() && (View(), nw) == FileWrite(old(View()), rsize, flags.append, data)
      ensures flags.write && vsize > old(vsize) && vsize < rsize ==> buf[vsize] == 0
      ensures buf[rsize..] == old(buf[rsize..])
    {
      hide Patched;
      ghost var v := vsize;
      var off := if flags.append then vsize else curpos;
      nw := Place(off, data);
      Overwritten(old(buf[..]), off, data[..nw], v, vsize, rsize, Min(vsize, rsize - 1));
    }

    /** A write to a stream that is not for reading: a null goes behind what was written,
        over its last byte if there is no room. */
    method WriteOnly(data: seq<byte>) returns (nw: int)
      requires Valid() && !flags.read
      modifies this, buf
      ensures Valid()
      ensures var off := if flags.append then old(vsize) else old(curpos);
        && nw == Min(|data|, rsize - off) && curpos == off + nw && vsize == Max(old(vsize), curpos)
        && buf[..] == Patched(old(buf[..]), off, data[..nw])[Min(curpos, rsize - 1) := 0]
      ensures buf[rsize..] == old(buf[rsize..])
    {
      hide Patched;
      ghost var v := vsize;
      var off := if flags.append then vsize else curpos;
      nw := Place(off, data);
      Overwritten(old(buf[..]), off, data[..nw], v, vsize, rsize, Min(curpos, rsize - 1));
      if curpos < rsize {
        buf[curpos] := 0;
      } else {
        buf[rsize - 1] := 0;
      }
    }

    /** mstream_write. */
    method Write(data: seq<byte>) returns (nw: int)
      requires Valid()
      modifies this, buf
      ensures Valid() && buf[rsize..] == old(buf[rsize..])
      ensures !flags.write && !flags.append ==> nw == -1 && View() == old(View())
      ensures flags.read && (flags.write || flags.append) ==>
        (View(), nw) == FileWrite(old(View()), rsize, flags.append, data)
      ensures flags.read && flags.write && vsize > old(vsize) && vsize < rsize ==> buf[vsize] == 0
      ensures !flags.read && (flags.write || flags.append) ==>
        var off := if flags.append then old(vsize) else old(curpos);
        && nw == Min(|data|, rsize - off) && curpos == off + nw && vsize == Max(old(vsize), curpos)
        && buf[..] == Patched(old(buf[..]), off, data[..nw])[Min(curpos, rsize - 1) := 0]
    {
      hide FileWrite;
      if !flags.append && !flags.write {
        return -1;
      }
      if flags.read {
        nw := WriteRead(data);
      } else {
        nw := WriteOnly(data);
      }
    }

    /** mstream_seek, with the target cut to an int. */
    method Seek(pos: int, whence: Whence) returns (r: int)
      requires Valid()
      modifies `curpos
      ensures Valid() && (View(), r) == FileSeek(old(View()), ToInt(Target(old(View()), pos, whence)))
    {
      var off :=
        match whence
        case Start => ToInt(pos)
        case End => ToInt(vsize + pos)
        case Current => ToInt(curpos + pos);
      if off < 0 || off > vsize {
        return -1;
      }
      curpos := off;
      return off;
    }
  }

  /** Data put into the buffer: what it does to the content, and to what is behind the
      stream; a null at i, behind the content, does no more. */
  lemma Overwritten(a: seq<byte>, off: nat, data: seq<byte>, v: nat, v': nat, size: nat, i: nat)
    requires i < size && off <= v <= size <= |a| && off + |data| <= size && v' == Max(v, off + |data|)
    ensures var b := Patched(a, off, data);
      && |b| == |a| && b[..v'] == a[..v][..off] + data + (if off + |data| < v then a[..v][off + |data|..] else [])
      && b[size..] == a[size..]
      && (v' <= i ==> b[i := 0][..v'] == b[..v']) && b[i := 0][size..] == b[size..]
  {
    assert a[..v][..off] == a[..off];
    if off + |data| < v {
      assert a[..v][off + |data|..] == a[off + |data|..v];
    }
  }

  // ---- Opening --------------------------------------------------------------

  /** What a stream starts with: all of the buffer, nothing, or what is before the
      first null. */
  ghost predicate Opened(s: Stream, t: string, given: bool, before: seq<byte>, size: nat)
    requires size <= |before|
    reads s, s.buf
  {
    && IsMode(t) && s.Valid() && s.rsize == size && s.flags == FlagsOf(t)
    && match t[0]
       case 'a' =>
         && s.curpos == s.vsize
         && (if given then 0 !in before[..s.vsize] && (s.vsize < size ==> before[s.vsize] == 0) else s.vsize == 0)
       case 'w' => s.curpos == 0 && s.vsize == 0
       case _ => s.curpos == 0 && s.vsize == size
  }

  /** fmemopen; without a buffer it makes one, for reading and writing only. */
  method Fmemopen(buf: array?<byte>, size: nat, t: string) returns (s: Stream?)
    requires size <= INT_MAX && (buf != null ==> size <= buf.Length)
    ensures s == null <==> size == 0 || !IsMode(t) || (buf == null && '+' !in t)
    ensures s != null && buf != null ==> s.buf == buf && Opened(s, t, true, buf[..], size)
    ensures s != null && buf == null ==> fresh(s.buf) && s.buf.Length == size && Opened(s, t, false, s.buf[..], size)
    ensures s != null ==> fresh(s)
  {
    if size == 0 {
      return null;
    }
    var flags := TypeToFlags(t);
    if flags == NONE {
      return null;
    }
    var curpos := 0;
    var b: array<byte>;
    if buf == null {
      if !(flags.read && flags.write) {
        return null;
      }
      b := new byte[size];
    } else {
      b := buf;
      if flags.append {
        curpos := FindEnd(b, size);
      }
    }
    var vsize := if flags.append then curpos else if flags.truncate then 0 else size;
    s := new Stream(b, size, flags, vsize, curpos);
  }

  // ---- Runs -----------------------------------------------------------------

  datatype Op = Get(len: nat) | Put(data: seq<byte>) | Go(pos: int, whence: Whence)
  datatype Reply = Data(bytes: seq<byte>) | Count(n: int)

  function FileDo(f: File, cap: nat, append: bool, op: Op): (r: (File, Reply))
    requires f.pos <= |f.content| <= cap
    ensures r.0.pos <= |r.0.content| <= cap
  {
    match op
    case Get(len) => var (g, d) := FileRead(f, len); (g, Data(d))
    case Put(data) => var (g, n) := FileWrite(f, cap, append, data); (g, Count(n))
    case Go(pos, whence) => var (g, n) := FileSeek(f, Target(f, pos, whence)); (g, Count(n))
  }

  /** The same with a seek whose target is cut to an int. */
  function StreamDo(f: File, cap: nat, append: bool, op: Op): (r: (File, Reply))
    requires f.pos <= |f.content| <= cap
    ensures r.0.pos <= |r.0.content| <= cap
  {
    if op.Go? then var (g, n) := FileSeek(f, ToInt(Target(f, op.pos, op.whence))); (g, Count(n))
    else FileDo(f, cap, append, op)
  }

  function FileRun(f: File, cap: nat, append: bool, ops: seq<Op>): (replies: seq<Reply>)
    requires f.pos <= |f.content| <= cap
    ensures |replies| == |ops|
    decreases |ops|
  {
    if ops == [] then []
    else var (g, r) := FileDo(f, cap, append, ops[0]); [r] + FileRun(g, cap, append, ops[1..])
  }

  function StreamRun(f: File, cap: nat, append: bool, ops: seq<Op>): (replies: seq<Reply>)
    requires f.pos <= |f.content| <= cap
    ensures |replies| == |ops|
    decreases |ops|
  {
    if ops == [] then []
    else var (g, r) := StreamDo(f, cap, append, ops[0]); [r] + StreamRun(g, cap, append, ops[1..])
  }

  /** The target of a seek is an int, or its low 32 bits are no place in the content. */
  predicate FairSeek(f: File, op: Op) {
    op.Go? ==>
      var target := Target(f, op.pos, op.whence);
      -INT_MAX - 1 <= target <= INT_MAX || ToInt(target) > |f.content| || ToInt(target) < 0
  }

  ghost predicate FairSeeks(f: File, cap: nat, append: bool, ops: seq<Op>)
    requires f.pos <= |f.content| <= cap
    decreases |ops|
  {
    ops == [] || (FairSeek(f, ops[0]) && FairSeeks(FileDo(f, cap, append, ops[0]).0, cap, append, ops[1..]))
  }

  lemma UnfairReply(f: File, cap: nat, append: bool, op: Op)
    requires f.pos <= |f.content| <= cap <= INT_MAX
    ensures FairSeek(f, op) ==> StreamDo(f, cap, append, op) == FileDo(f, cap, append, op)
    ensures !FairSeek(f, op) ==> StreamDo(f, cap, append, op).1 != FileDo(f, cap, append, op).1
  {
    if op.Go? {
      SeekAgreesIff(f, Target(f, op.pos, op.whence));
    }
  }

  /** A stream answers a run like the file if and only if no seek of it is to a place
      whose low 32 bits name another. */
  lemma {:induction false} RunAgreesIff(f: File, cap: nat, append: bool, ops: seq<Op>)
    requires f.pos <= |f.content| <= cap <= INT_MAX
    ensures StreamRun(f, cap, append, ops) == FileRun(f, cap, append, ops) <==> FairSeeks(f, cap, append, ops)
    decreases |ops|
  {
    hide StreamDo, FileDo, FairSeek;
    if ops != [] {
      UnfairReply(f, cap, append, ops[0]);
      var s, t := StreamRun(f, cap, append, ops), FileRun(f, cap, append, ops);
      assert s[0] == StreamDo(f, cap, append, ops[0]).1 && t[0] == FileDo(f, cap, append, ops[0]).1;
      if FairSeek(f, ops[0]) {
        var g := FileDo(f, cap, append, ops[0]).0;
        RunAgreesIff(g, cap, append, ops[1..]);
        assert s[1..] == StreamRun(g, cap, append, ops[1..]) && t[1..] == FileRun(g, cap, append, ops[1..]);
      }
    }
  }

  method Perform(s: Stream, op: Op) returns (reply: Reply)
    requires s.Valid() && s.flags.read && s.flags.write
    modifies s, s.buf
    ensures s.Valid() && (s.View(), reply) == StreamDo(old(s.View()), s.rsize, s.flags.append, op)
  {
    hide FileRead, FileWrite, FileSeek, ToInt, Target;
    match op {
      case Get(len) =>
        var d, n := s.Read(len);
        reply := Data(d);
      case Put(data) =>
        var n := s.Write(data);
        reply := Count(n);
      case Go(pos, whence) =>
        var n := s.Seek(pos, whence);
        reply := Count(n);
    }
  }

  /** A stream for reading and writing answers every run like the file, but for the
      seeks that it cuts. */
  method Run(s: Stream, ops: seq<Op>) returns (replies: seq<Reply>)
    requires s.Valid() && s.flags.read && s.flags.write
    modifies s, s.buf
    ensures s.Valid() && replies == StreamRun(old(s.View()), s.rsize, s.flags.append, ops)
    ensures replies == FileRun(old(s.View()), s.rsize, s.flags.append, ops) <==>
      FairSeeks(old(s.View()), s.rsize, s.flags.append, ops)
  {
    hide StreamDo, FileDo, FairSeeks, FileRun;
    replies := [];
    var i := 0;
    ghost var all := StreamRun(s.View(), s.rsize, s.flags.append, ops);
    RunAgreesIff(s.View(), s.rsize, s.flags.append, ops);
    assert ops[0..] == ops;
    while i < |ops|
      invariant 0 <= i <= |ops| && s.Valid()
      invariant replies + StreamRun(s.View(), s.rsize, s.flags.append, ops[i..]) == all
    {
      assert ops[i..][0] == ops[i] && ops[i..][1..] == ops[i + 1..];
      var reply := Perform(s, ops[i]);
      replies := replies + [reply];
      i := i + 1;
    }
  }
}
