/** The byte format of the index file: an index record is a 7-character chain
    pointer, a 4-character length, and `key:offset:length\n`. */
module IndexCodec {
  import opened Values
  import opened Ascii

  const IDXLEN_SZ := 4
  const PTR_SZ := 7
  const PTR_MAX := 9999999
  const IDXLEN_MIN := 6
  const IDXLEN_MAX := 1024
  const DATLEN_MIN := 2
  const DATLEN_MAX := 1024

  /** The four values an index record holds; `datlen` includes the newline. */
  datatype Rec = Rec(ptr: int, key: seq<byte>, datoff: int, datlen: int)

  /** What `_db_writeidx` puts into idxbuf. */
  function Body(key: seq<byte>, datoff: int, datlen: int): seq<byte> {
    key + [SEP] + Decimal(datoff) + [SEP] + Decimal(datlen) + [NEWLINE]
  }

  function EncodePtr(p: int): seq<byte> { Padded(p, PTR_SZ) }

  /** The record behind its chain pointer: the length, then the body. */
  function EncodeTail(r: Rec): seq<byte> {
    var body := Body(r.key, r.datoff, r.datlen);
    Padded(|body|, IDXLEN_SZ) + body
  }

  function Encode(r: Rec): seq<byte> { EncodePtr(r.ptr) + EncodeTail(r) }

  /** The length test that both `_db_writeidx` and `_db_readidx` apply. */
  predicate BodyFits(key: seq<byte>, datoff: int, datlen: int) {
    IDXLEN_MIN <= |Body(key, datoff, datlen)| <= IDXLEN_MAX
  }

  /** A record whose writer passed every check, for a key without a separator. */
  ghost predicate WellFormed(r: Rec) {
    && 0 <= r.ptr <= PTR_MAX
    && CString(r.key) && SEP !in r.key
    && 0 <= r.datoff && 0 < r.datlen <= DATLEN_MAX
    && BodyFits(r.key, r.datoff, r.datlen)
  }

  /** The three fields of an index record once the separators at p1 and p2 and
      the final newline count as terminators. */
  function DecodeFields(ptr: int, buf: seq<byte>, p1: nat, p2: nat): (r: Option<Rec>)
    requires p1 < p2 < |buf|
    ensures r.Some? ==> r.value.ptr == ptr
  {
    var datoff, datlen := Atol(buf[p1 + 1..p2]), Atol(buf[p2 + 1..]);
    if datoff < 0 || datlen <= 0 || datlen > DATLEN_MAX then None else
      Some(Rec(ptr, buf[..p1], datoff, datlen))
  }

  /** The separator tests of `_db_readidx`, on the buffer without its newline. */
  function DecodeBuffer(ptr: int, buf: seq<byte>): (r: Option<Rec>)
    ensures r.Some? ==> r.value.ptr == ptr
  {
    var p1 := StrChr(buf, 0, SEP);
    if p1 == -1 then None else
      var p2 := StrChr(buf, p1 + 1, SEP);
      if p2 == -1 || StrChr(buf, p2 + 1, SEP) != -1 then None else DecodeFields(ptr, buf, p1, p2)
  }

  /** `_db_readidx` once the record's `len` bytes are in the buffer. */
  function DecodeBody(ptr: int, raw: seq<byte>): (r: Option<Rec>)
    requires |raw| >= 1
    ensures r.Some? ==> r.value.ptr == ptr
  {
    if raw[|raw| - 1] != NEWLINE then None else DecodeBuffer(ptr, raw[..|raw| - 1])
  }

  /** `_db_readidx` on the bytes s of the index file from the record on:
      `None` is one of its `err_dump` exits. */
  function Decode(s: seq<byte>): Option<Rec> {
    if |s| < PTR_SZ + IDXLEN_SZ then None else
      var len := Atol(s[PTR_SZ..PTR_SZ + IDXLEN_SZ]);
      if len < IDXLEN_MIN || len > IDXLEN_MAX || |s| < PTR_SZ + IDXLEN_SZ + len then None else
        DecodeBody(Atol(s[..PTR_SZ]), s[PTR_SZ + IDXLEN_SZ..PTR_SZ + IDXLEN_SZ + len])
  }

  /** The length a reader sees for the record that s starts with. */
  function EncodedLength(s: seq<byte>): int
    requires |s| >= PTR_SZ + IDXLEN_SZ
  {
    PTR_SZ + IDXLEN_SZ + Atol(s[PTR_SZ..PTR_SZ + IDXLEN_SZ])
  }

  // ---- Field widths ---------------------------------------------------------

  lemma PtrWidth(p: int)
    requires 0 <= p <= PTR_MAX
    ensures |EncodePtr(p)| == PTR_SZ
    ensures Atol(EncodePtr(p)) == p
  {
    assert Pow10(7) == 10000000 by {
      assert Pow10(3) == 1000;
      assert Pow10(5) == 100000;
    }
    PaddedFits(p, PTR_SZ);
    AtolPadded(p, PTR_SZ);
  }

  lemma LenWidth(n: int)
    requires 0 <= n <= IDXLEN_MAX
    ensures |Padded(n, IDXLEN_SZ)| == IDXLEN_SZ
    ensures Atol(Padded(n, IDXLEN_SZ)) == n
  {
    assert Pow10(4) == 10000 by {
      assert Pow10(2) == 100;
    }
    PaddedFits(n, IDXLEN_SZ);
    AtolPadded(n, IDXLEN_SZ);
  }

  /** The number of bytes of a record does not depend on its pointer. */
  lemma EncodeShape(r: Rec)
    requires 0 <= r.ptr <= PTR_MAX && BodyFits(r.key, r.datoff, r.datlen)
    ensures |Encode(r)| == PTR_SZ + IDXLEN_SZ + |Body(r.key, r.datoff, r.datlen)|
    ensures Encode(r)[..PTR_SZ] == EncodePtr(r.ptr)
    ensures Encode(r)[PTR_SZ..PTR_SZ + IDXLEN_SZ] == Padded(|Body(r.key, r.datoff, r.datlen)|, IDXLEN_SZ)
    ensures Encode(r)[PTR_SZ + IDXLEN_SZ..] == Body(r.key, r.datoff, r.datlen)
  {
    hide EncodePtr, Padded, Body, Atol;
    PtrWidth(r.ptr);
    LenWidth(|Body(r.key, r.datoff, r.datlen)|);
  }

  // ---- Round trip -----------------------------------------------------------

  lemma DecimalBytes(n: int)
    requires 0 <= n
    ensures NUL !in Decimal(n) && SEP !in Decimal(n)
    ensures Atol(Decimal(n)) == n
  {
    AtolPadded(n, 0);
    forall i | 0 <= i < |Digits(n)|
      ensures Digits(n)[i] != NUL && Digits(n)[i] != SEP
    {
      assert IsDigit(Digits(n)[i]);
    }
  }

  /** The buffer without its newline, and where its fields lie. */
  function Fields(key: seq<byte>, datoff: int, datlen: int): seq<byte> {
    key + [SEP] + Decimal(datoff) + [SEP] + Decimal(datlen)
  }

  lemma FieldBytes(key: seq<byte>, datoff: int, datlen: int)
    requires CString(key) && 0 <= datoff && 0 <= datlen
    ensures var buf, p1 := Fields(key, datoff, datlen), |key|;
      var p2 := p1 + 1 + |Decimal(datoff)|;
      && p2 < |buf| && buf[p1] == SEP && buf[p2] == SEP
      && buf[..p1] == key && buf[p1 + 1..p2] == Decimal(datoff) && buf[p2 + 1..] == Decimal(datlen)
      && (forall i :: 0 <= i < |buf| ==> buf[i] != NUL)
      && (forall i :: p1 < i < |buf| && i != p2 ==> buf[i] != SEP)
      && (SEP !in key ==> forall i :: 0 <= i < p1 ==> buf[i] != SEP)
  {
    var o, l := Decimal(datoff), Decimal(datlen);
    DecimalBytes(datoff);
    DecimalBytes(datlen);
    var buf, p1 := Fields(key, datoff, datlen), |key|;
    var p2 := p1 + 1 + |o|;
    assert forall i :: 0 <= i < p1 ==> buf[i] == key[i];
    assert forall i :: p1 < i < p2 ==> buf[i] == o[i - p1 - 1];
    assert forall i :: p2 < i < |buf| ==> buf[i] == l[i - p2 - 1];
  }

  lemma DecodeBufferAt(ptr: int, buf: seq<byte>, p1: nat, p2: nat)
    requires p1 < p2 < |buf| && buf[p1] == SEP && buf[p2] == SEP
    requires forall i :: 0 <= i < |buf| ==> buf[i] != NUL
    requires forall i :: 0 <= i < |buf| && i != p1 && i != p2 ==> buf[i] != SEP
    ensures DecodeBuffer(ptr, buf) == DecodeFields(ptr, buf, p1, p2)
  {
    StrChrAt(buf, 0, p1, SEP);
    StrChrAt(buf, p1 + 1, p2, SEP);
    StrChrNone(buf, p2 + 1, SEP);
  }

  lemma DecodeBodyOfBody(ptr: int, key: seq<byte>, datoff: int, datlen: int)
    requires CString(key) && SEP !in key
    requires 0 <= datoff && 0 < datlen <= DATLEN_MAX
    ensures DecodeBody(ptr, Body(key, datoff, datlen)) == Some(Rec(ptr, key, datoff, datlen))
  {
    FieldBytes(key, datoff, datlen);
    var buf := Fields(key, datoff, datlen);
    var p2 := |key| + 1 + |Decimal(datoff)|;
    assert DecodeFields(ptr, buf, |key|, p2) == Some(Rec(ptr, key, datoff, datlen)) by {
      DecimalBytes(datoff);
      DecimalBytes(datlen);
    }
    DecodeBufferAt(ptr, buf, |key|, p2);
    assert Body(key, datoff, datlen)[..|buf|] == buf;
  }

  /** Three separators: one of the three `strchr` tests fails. */
  lemma DecodeBufferThreeSeps(ptr: int, buf: seq<byte>, s0: nat, s1: nat, s2: nat)
    requires s0 < s1 < s2 < |buf|
    requires buf[s0] == SEP && buf[s1] == SEP && buf[s2] == SEP
    requires forall i :: 0 <= i < |buf| ==> buf[i] != NUL
    ensures DecodeBuffer(ptr, buf).None?
  {
    var p1 := FirstSep(buf, 0, s0);
    StrChrAt(buf, 0, p1, SEP);
    var p2 := FirstSep(buf, p1 + 1, s1);
    StrChrAt(buf, p1 + 1, p2, SEP);
    var p3 := FirstSep(buf, p2 + 1, s2);
    StrChrAt(buf, p2 + 1, p3, SEP);
  }

  /** A key with a separator in it is written as a record no reader accepts. */
  lemma DecodeBodyRejectsSep(ptr: int, key: seq<byte>, datoff: int, datlen: int)
    requires CString(key) && SEP in key
    requires 0 <= datoff && 0 < datlen
    ensures DecodeBody(ptr, Body(key, datoff, datlen)).None?
  {
    FieldBytes(key, datoff, datlen);
    var buf := Fields(key, datoff, datlen);
    var j :| 0 <= j < |key| && key[j] == SEP;
    assert buf[j] == buf[..|key|][j];
    DecodeBufferThreeSeps(ptr, buf, j, |key|, |key| + 1 + |Decimal(datoff)|);
    assert Body(key, datoff, datlen)[..|buf|] == buf;
  }

  /** The first separator at or after `from`, when there is one at `at`. */
  lemma {:induction false} FirstSep(b: seq<byte>, from: nat, at: nat) returns (k: nat)
    requires from <= at < |b| && b[at] == SEP
    requires forall i :: from <= i < |b| ==> b[i] != NUL
    ensures from <= k <= at && b[k] == SEP
    ensures forall i :: from <= i < k ==> b[i] != SEP && b[i] != NUL
    decreases at - from
  {
    if b[from] == SEP {
      k := from;
    } else {
      k := FirstSep(b, from + 1, at);
    }
  }

  /** Reading back what was written gives the same four values, whatever
      follows in the file, if and only if the key has no separator in it. */
  lemma RoundTrip(r: Rec, rest: seq<byte>)
    requires 0 <= r.ptr <= PTR_MAX && CString(r.key)
    requires 0 <= r.datoff && 0 < r.datlen <= DATLEN_MAX
    requires BodyFits(r.key, r.datoff, r.datlen)
    ensures Decode(Encode(r) + rest) == Some(r) <==> SEP !in r.key
    ensures |Encode(r) + rest| >= PTR_SZ + IDXLEN_SZ && EncodedLength(Encode(r) + rest) == |Encode(r)|
  {
    var body := Body(r.key, r.datoff, r.datlen);
    EncodeShape(r);
    PtrWidth(r.ptr);
    LenWidth(|body|);
    var s := Encode(r) + rest;
    assert s[..PTR_SZ] == EncodePtr(r.ptr);
    assert s[PTR_SZ..PTR_SZ + IDXLEN_SZ] == Padded(|body|, IDXLEN_SZ);
    assert s[PTR_SZ + IDXLEN_SZ..PTR_SZ + IDXLEN_SZ + |body|] == body;
    if SEP in r.key {
      DecodeBodyRejectsSep(r.ptr, r.key, r.datoff, r.datlen);
    } else {
      DecodeBodyOfBody(r.ptr, r.key, r.datoff, r.datlen);
    }
  }

  /** Rewriting only the pointer field changes the pointer and nothing else. */
  lemma RewritePtr(r: Rec, p: int)
    requires WellFormed(r) && 0 <= p <= PTR_MAX
    ensures |Encode(r)| >= PTR_SZ
    ensures EncodePtr(p) + Encode(r)[PTR_SZ..] == Encode(r.(ptr := p))
    ensures Decode(EncodePtr(p) + Encode(r)[PTR_SZ..]) == Some(r.(ptr := p))
  {
    var q := r.(ptr := p);
    EncodeShape(r);
    assert Encode(r)[PTR_SZ..] ==
        Padded(|Body(r.key, r.datoff, r.datlen)|, IDXLEN_SZ) + Body(r.key, r.datoff, r.datlen) by {
      PtrWidth(r.ptr);
    }
    assert EncodePtr(p) + Encode(r)[PTR_SZ..] == Encode(q);
    assert Decode(Encode(q)) == Some(q) by {
      RoundTrip(q, []);
      assert Encode(q) + [] == Encode(q);
    }
  }

  /** A record keeps its size when key and data keep theirs: this is why a free
      record of equal lengths can be reused where it lies. */
  lemma SameSize(r: Rec, q: Rec)
    requires WellFormed(r) && 0 <= q.ptr <= PTR_MAX
    requires |q.key| == |r.key| && q.datoff == r.datoff && q.datlen == r.datlen
    ensures BodyFits(q.key, q.datoff, q.datlen) && |Encode(q)| == |Encode(r)|
  {
    EncodeShape(r);
    EncodeShape(q);
  }
}
