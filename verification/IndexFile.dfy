/** The index file as a whole: a free-list pointer, NHASH chain pointers, a
    newline, then index records without gaps. */
module IndexFile {
  import opened Values
  import opened Ascii
  import opened IndexCodec
  import opened Layout

  const NHASH := 137
  /** The free list is list 0 and hash chain h is list h + 1, so the head of
      list i lies at byte i * PTR_SZ. */
  const NLISTS := NHASH + 1
  const FIRST_REC := NLISTS * PTR_SZ + 1

  ghost predicate GoodPtrs(ps: seq<int>) {
    |ps| == NLISTS && forall i :: 0 <= i < |ps| ==> 0 <= ps[i] <= PTR_MAX
  }

  ghost predicate GoodRecs(rs: seq<Rec>) {
    forall i {:trigger WellFormed(rs[i])} :: 0 <= i < |rs| ==> WellFormed(rs[i])
  }

  function PtrCells(ps: seq<int>): (cs: seq<seq<byte>>)
    ensures |cs| == |ps|
  {
    seq(|ps|, i requires 0 <= i < |ps| => EncodePtr(ps[i]))
  }

  function RecCells(rs: seq<Rec>): (cs: seq<seq<byte>>)
    ensures |cs| == |rs|
  {
    seq(|rs|, j requires 0 <= j < |rs| => Encode(rs[j]))
  }

  function Cells(heads: seq<int>, recs: seq<Rec>): (cs: seq<seq<byte>>)
    ensures |cs| == |heads| + 1 + |recs| && cs[|heads|] == [NEWLINE]
  {
    PtrCells(heads) + [[NEWLINE]] + RecCells(recs)
  }

  /** The bytes of the index file. */
  function Image(heads: seq<int>, recs: seq<Rec>): seq<byte> { Flatten(Cells(heads, recs)) }

  /** Byte offset of record j. */
  ghost function RecOff(heads: seq<int>, recs: seq<Rec>, j: nat): nat
    requires |heads| == NLISTS && j <= |recs|
  {
    Off(Cells(heads, recs), NLISTS + 1 + j)
  }

  // ---- Cells ----------------------------------------------------------------

  lemma CellOfHead(heads: seq<int>, recs: seq<Rec>, i: nat)
    requires i < |heads|
    ensures Cells(heads, recs)[i] == EncodePtr(heads[i])
  {
  }

  lemma CellOfRec(heads: seq<int>, recs: seq<Rec>, j: nat)
    requires j < |recs|
    ensures Cells(heads, recs)[|heads| + 1 + j] == Encode(recs[j])
  {
  }

  lemma {:induction false} HeadOff(heads: seq<int>, recs: seq<Rec>, i: nat)
    requires GoodPtrs(heads) && i <= NLISTS
    ensures Off(Cells(heads, recs), i) == PTR_SZ * i
  {
    var cs := Cells(heads, recs);
    if i > 0 {
      HeadOff(heads, recs, i - 1);
      OffNext(cs, i - 1);
      CellOfHead(heads, recs, i - 1);
      PtrWidth(heads[i - 1]);
    }
  }

  lemma CellsAfterHead(heads: seq<int>, recs: seq<Rec>, i: nat, p: int)
    requires i < |heads|
    ensures Cells(heads[i := p], recs) == Cells(heads, recs)[i := EncodePtr(p)]
  {
    assert PtrCells(heads[i := p]) == PtrCells(heads)[i := EncodePtr(p)];
  }

  lemma CellsAfterRec(heads: seq<int>, recs: seq<Rec>, j: nat, r: Rec)
    requires j < |recs|
    ensures Cells(heads, recs[j := r]) == Cells(heads, recs)[|heads| + 1 + j := Encode(r)]
  {
    assert RecCells(recs[j := r]) == RecCells(recs)[j := Encode(r)];
  }

  // ---- Reading --------------------------------------------------------------

  lemma ReadHead(heads: seq<int>, recs: seq<Rec>, i: nat)
    requires GoodPtrs(heads) && i < NLISTS
    ensures PTR_SZ * i + PTR_SZ <= |Image(heads, recs)|
    ensures Atol(Image(heads, recs)[PTR_SZ * i..PTR_SZ * i + PTR_SZ]) == heads[i]
  {
    HeadCell(heads, recs, i);
    PtrWidth(heads[i]);
  }

  lemma HeadCell(heads: seq<int>, recs: seq<Rec>, i: nat)
    requires GoodPtrs(heads) && i < NLISTS
    ensures PTR_SZ * i + PTR_SZ <= |Image(heads, recs)|
    ensures Image(heads, recs)[PTR_SZ * i..PTR_SZ * i + PTR_SZ] == EncodePtr(heads[i])
  {
    HeadOff(heads, recs, i);
    CellOfHead(heads, recs, i);
    PtrWidth(heads[i]);
    ReadCell(Cells(heads, recs), i);
  }

  /** What a reader finds at the offset of record j, and where it ends. */
  lemma ReadRec(heads: seq<int>, recs: seq<Rec>, j: nat)
    requires GoodPtrs(heads) && GoodRecs(recs) && j < |recs|
    ensures RecOff(heads, recs, j) + |Encode(recs[j])| == RecOff(heads, recs, j + 1) <= |Image(heads, recs)|
    ensures |Encode(recs[j])| >= PTR_SZ + IDXLEN_SZ
    ensures Decode(Image(heads, recs)[RecOff(heads, recs, j)..]) == Some(recs[j])
    ensures EncodedLength(Image(heads, recs)[RecOff(heads, recs, j)..]) == |Encode(recs[j])|
  {
    var cs, c := Cells(heads, recs), NLISTS + 1 + j;
    assert WellFormed(recs[j]);
    CellOfRec(heads, recs, j);
    ReadCell(cs, c);
    OffNext(cs, c);
    EncodeShape(recs[j]);
    RoundTrip(recs[j], Flatten(cs[c + 1..]));
  }

  lemma FirstRecord(heads: seq<int>, recs: seq<Rec>)
    requires GoodPtrs(heads)
    ensures RecOff(heads, recs, 0) == FIRST_REC
    ensures RecOff(heads, recs, |recs|) == |Image(heads, recs)|
  {
    var cs := Cells(heads, recs);
    HeadOff(heads, recs, NLISTS);
    OffNext(cs, NLISTS);
    assert cs[..|cs|] == cs;
  }

  // ---- Writing --------------------------------------------------------------

  lemma WriteHead(heads: seq<int>, recs: seq<Rec>, i: nat, p: int)
    requires GoodPtrs(heads) && i < NLISTS && 0 <= p <= PTR_MAX
    ensures PTR_SZ * i <= |Image(heads, recs)|
    ensures Splice(Image(heads, recs), PTR_SZ * i, EncodePtr(p)) == Image(heads[i := p], recs)
  {
    HeadOff(heads, recs, i);
    CellOfHead(heads, recs, i);
    PtrWidth(heads[i]);
    PtrWidth(p);
    CellsAfterHead(heads, recs, i, p);
    WriteCell(Cells(heads, recs), i, EncodePtr(p));
  }

  lemma NextOffset(heads: seq<int>, recs: seq<Rec>, k: nat)
    requires |heads| == NLISTS && k < |recs|
    ensures RecOff(heads, recs, k + 1) == RecOff(heads, recs, k) + |Encode(recs[k])|
  {
    CellOfRec(heads, recs, k);
    OffNext(Cells(heads, recs), NLISTS + 1 + k);
  }

  /** Offsets depend on the sizes of the records only. */
  lemma {:induction false} SameOffsets(heads: seq<int>, recs: seq<Rec>, hs: seq<int>, rs: seq<Rec>, k: nat)
    requires GoodPtrs(heads) && GoodPtrs(hs) && |rs| == |recs| && k <= |recs|
    requires forall j {:trigger Encode(rs[j])} :: 0 <= j < |recs| ==> |Encode(rs[j])| == |Encode(recs[j])|
    ensures RecOff(hs, rs, k) == RecOff(heads, recs, k)
  {
    if k == 0 {
      FirstRecord(heads, recs);
      FirstRecord(hs, rs);
    } else {
      SameOffsets(heads, recs, hs, rs, k - 1);
      NextOffset(heads, recs, k - 1);
      NextOffset(hs, rs, k - 1);
    }
  }

  /** Rewriting record j with one of the same size. */
  lemma WriteRec(heads: seq<int>, recs: seq<Rec>, j: nat, r: Rec)
    requires |heads| == NLISTS && j < |recs| && |Encode(r)| == |Encode(recs[j])|
    ensures RecOff(heads, recs, j) <= |Image(heads, recs)|
    ensures Splice(Image(heads, recs), RecOff(heads, recs, j), Encode(r)) == Image(heads, recs[j := r])
  {
    CellOfRec(heads, recs, j);
    CellsAfterRec(heads, recs, j, r);
    WriteCell(Cells(heads, recs), NLISTS + 1 + j, Encode(r));
  }

  /** Rewriting only the chain pointer of record j. */
  lemma WriteRecPtr(heads: seq<int>, recs: seq<Rec>, j: nat, p: int)
    requires |heads| == NLISTS && j < |recs|
    requires 0 <= recs[j].ptr <= PTR_MAX && 0 <= p <= PTR_MAX
    ensures |Encode(recs[j].(ptr := p))| == |Encode(recs[j])|
    ensures RecOff(heads, recs, j) <= |Image(heads, recs)|
    ensures Splice(Image(heads, recs), RecOff(heads, recs, j), EncodePtr(p))
         == Image(heads, recs[j := recs[j].(ptr := p)])
  {
    var r := recs[j];
    PtrWidth(r.ptr);
    PtrWidth(p);
    CellOfRec(heads, recs, j);
    CellsAfterRec(heads, recs, j, r.(ptr := p));
    WriteFront(Cells(heads, recs), NLISTS + 1 + j, EncodePtr(r.ptr), EncodeTail(r), EncodePtr(p));
  }

  lemma AppendRec(heads: seq<int>, recs: seq<Rec>, r: Rec)
    requires GoodPtrs(heads)
    ensures Splice(Image(heads, recs), |Image(heads, recs)|, Encode(r)) == Image(heads, recs + [r])
    ensures RecOff(heads, recs + [r], |recs|) == |Image(heads, recs)|
    ensures forall k :: 0 <= k <= |recs| ==> RecOff(heads, recs + [r], k) == RecOff(heads, recs, k)
  {
    var cs := Cells(heads, recs);
    AppendCell(cs, Encode(r));
    assert RecCells(recs + [r]) == RecCells(recs) + [Encode(r)];
    assert Cells(heads, recs + [r]) == cs + [Encode(r)];
    assert cs[..|cs|] == cs;
  }
}
