/** A file as a gap-free run of cells, and what one `write` does to it. */
module Layout {
  import opened Values

  function Flatten(cs: seq<seq<byte>>): seq<byte> {
    if cs == [] then [] else cs[0] + Flatten(cs[1..])
  }

  /** Byte offset of cell c. */
  function Off(cs: seq<seq<byte>>, c: nat): nat
    requires c <= |cs|
  {
    |Flatten(cs[..c])|
  }

  /** The file after `write` of some bytes at an offset inside it. */
  function Splice(f: seq<byte>, off: nat, bytes: seq<byte>): (g: seq<byte>)
    requires off <= |f|
    ensures |g| == if off + |bytes| <= |f| then |f| else off + |bytes|
  {
    f[..off] + bytes + (if off + |bytes| <= |f| then f[off + |bytes|..] else [])
  }

  lemma {:induction false} FlattenConcat(a: seq<seq<byte>>, b: seq<seq<byte>>)
    ensures Flatten(a + b) == Flatten(a) + Flatten(b)
  {
    if a == [] {
      assert a + b == b;
    } else {
      assert (a + b)[1..] == a[1..] + b;
      FlattenConcat(a[1..], b);
    }
  }

  lemma FlattenSplit(cs: seq<seq<byte>>, c: nat)
    requires c < |cs|
    ensures Flatten(cs) == Flatten(cs[..c]) + cs[c] + Flatten(cs[c + 1..])
  {
    assert cs == cs[..c] + cs[c..];
    FlattenConcat(cs[..c], cs[c..]);
    assert cs[c..][1..] == cs[c + 1..];
  }

  lemma OffNext(cs: seq<seq<byte>>, c: nat)
    requires c < |cs|
    ensures Off(cs, c + 1) == Off(cs, c) + |cs[c]|
  {
    assert cs[..c + 1][..c] == cs[..c] && cs[..c + 1][c + 1..] == [];
    FlattenSplit(cs[..c + 1], c);
  }

  lemma {:induction false} OffMonotone(cs: seq<seq<byte>>, c: nat, d: nat)
    requires c <= d <= |cs|
    ensures Off(cs, c) <= Off(cs, d) <= |Flatten(cs)|
    decreases |cs| - c
  {
    if c < d {
      OffNext(cs, c);
      OffMonotone(cs, c + 1, d);
    } else if d < |cs| {
      OffNext(cs, d);
      OffMonotone(cs, d + 1, d + 1);
    } else {
      assert cs[..d] == cs;
    }
  }

  lemma Middle(a: seq<byte>, b: seq<byte>, c: seq<byte>)
    ensures (a + b + c)[|a|..] == b + c
    ensures (a + b + c)[|a|..|a| + |b|] == b
  {
  }

  lemma ReadCell(cs: seq<seq<byte>>, c: nat)
    requires c < |cs|
    ensures Off(cs, c) + |cs[c]| <= |Flatten(cs)|
    ensures Flatten(cs)[Off(cs, c)..] == cs[c] + Flatten(cs[c + 1..])
    ensures Flatten(cs)[Off(cs, c)..Off(cs, c) + |cs[c]|] == cs[c]
  {
    FlattenSplit(cs, c);
    Middle(Flatten(cs[..c]), cs[c], Flatten(cs[c + 1..]));
  }

  lemma SpliceMiddle(a: seq<byte>, b: seq<byte>, c: seq<byte>, d: seq<byte>)
    requires |b| == |d|
    ensures Splice(a + b + c, |a|, d) == a + d + c
  {
    assert (a + b + c)[..|a|] == a;
    assert (a + b + c)[|a| + |d|..] == c;
  }

  /** A write of equal size over one cell replaces that cell only. */
  lemma WriteCell(cs: seq<seq<byte>>, c: nat, d: seq<byte>)
    requires c < |cs| && |cs[c]| == |d|
    ensures Off(cs, c) <= |Flatten(cs)|
    ensures Splice(Flatten(cs), Off(cs, c), d) == Flatten(cs[c := d])
  {
    var ds := cs[c := d];
    FlattenSplit(cs, c);
    FlattenSplit(ds, c);
    assert ds[..c] == cs[..c] && ds[c + 1..] == cs[c + 1..];
    SpliceMiddle(Flatten(cs[..c]), cs[c], Flatten(cs[c + 1..]), d);
  }

  /** A write over the front x of a cell x + y leaves y. */
  lemma WriteFront(cs: seq<seq<byte>>, c: nat, x: seq<byte>, y: seq<byte>, d: seq<byte>)
    requires c < |cs| && cs[c] == x + y && |x| == |d|
    ensures Off(cs, c) <= |Flatten(cs)|
    ensures Splice(Flatten(cs), Off(cs, c), d) == Flatten(cs[c := d + y])
  {
    FlattenSplit(cs, c);
    SpliceFront(Flatten(cs[..c]), x, y, Flatten(cs[c + 1..]), d);
    WriteCell(cs, c, d + y);
  }

  lemma SpliceFront(a: seq<byte>, x: seq<byte>, y: seq<byte>, b: seq<byte>, d: seq<byte>)
    requires |x| == |d|
    ensures Splice(a + (x + y) + b, |a|, d) == Splice(a + (x + y) + b, |a|, d + y)
  {
    assert a + (x + y) + b == a + x + (y + b);
    SpliceMiddle(a, x, y + b, d);
    SpliceMiddle(a, x + y, b, d + y);
  }

  /** A write at the end of the file adds a cell. */
  lemma AppendCell(cs: seq<seq<byte>>, d: seq<byte>)
    ensures Splice(Flatten(cs), |Flatten(cs)|, d) == Flatten(cs + [d])
    ensures forall k :: 0 <= k <= |cs| ==> Off(cs + [d], k) == Off(cs, k)
  {
    FlattenConcat(cs, [d]);
    assert Flatten([d]) == d;
    var f := Flatten(cs);
    assert f[..|f|] == f && f[|f|..] == [];
    forall k | 0 <= k <= |cs|
      ensures (cs + [d])[..k] == cs[..k]
    {
    }
  }
}
