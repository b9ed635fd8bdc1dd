/** How much room a database takes: what decides whether a store has to append, and
    whether it can. */
module DbSpace {
  import opened Values
  import opened Ascii
  import opened IndexCodec
  import opened IndexFile
  import opened Layout
  import opened DbStore
  import opened DbSteps
  import C = Chains

  /** The key and data lengths of the free records, and the lengths of both files. */
  datatype Space = Space(free: multiset<(int, int)>, idx: int, dat: int)

  /** The length of an index record. */
  function RecLen(key: seq<byte>, datoff: int, datlen: int): int {
    PTR_SZ + IDXLEN_SZ + |Body(key, datoff, datlen)|
  }

  ghost function Total(recs: seq<Rec>): int {
    if recs == [] then 0
    else
      var r := recs[|recs| - 1];
      Total(recs[..|recs| - 1]) + RecLen(r.key, r.datoff, r.datlen)
  }

  ghost function SizeOf(recs: seq<Rec>, j: nat): (int, int) {
    if j < |recs| then (|recs[j].key|, recs[j].datlen) else (0, 0)
  }

  ghost function SizesOf(l: seq<nat>, recs: seq<Rec>): seq<(int, int)> {
    seq(|l|, b requires 0 <= b < |l| => SizeOf(recs, l[b]))
  }

  ghost predicate FreeInRange(s: Store) {
    |s.ch.lists| == NLISTS && forall b :: 0 <= b < |s.ch.lists[FREE]| ==> s.ch.lists[FREE][b] < |s.recs|
  }

  ghost function SpaceOf(s: Store): Space {
    Space(if |s.ch.lists| == 0 then multiset{} else multiset(SizesOf(s.ch.lists[FREE], s.recs)),
          FIRST_REC + Total(s.recs), |s.dat|)
  }

  lemma ValidInRange(s: Store)
    requires Valid(s)
    ensures FreeInRange(s) && RecsOk(s)
  {
    hide Valid, KeysOk, DataOk;
    ValidIsRecsOk(s);
    ListInRange(s, FREE);
  }

  // ---- The length of the index file -----------------------------------------

  lemma EncodedLen(r: Rec)
    requires WellFormed(r)
    ensures |Encode(r)| == RecLen(r.key, r.datoff, r.datlen)
  {
    EncodeShape(r);
  }

  lemma {:induction false} RecsLen(recs: seq<Rec>)
    requires GoodRecs(recs)
    ensures |Flatten(RecCells(recs))| == Total(recs)
  {
    hide Encode, WellFormed, RecLen;
    if recs != [] {
      var n := |recs| - 1;
      assert forall i :: 0 <= i < n ==> recs[..n][i] == recs[i];
      RecsLen(recs[..n]);
      EncodedLen(recs[n]);
      assert RecCells(recs) == RecCells(recs[..n]) + [Encode(recs[n])];
      FlattenConcat(RecCells(recs[..n]), [Encode(recs[n])]);
      FlattenOne(Encode(recs[n]));
    }
  }

  lemma FlattenOne(c: seq<byte>)
    ensures Flatten([c]) == c
  {
  }

  lemma {:induction false} PtrsLen(ps: seq<int>)
    requires forall i :: 0 <= i < |ps| ==> 0 <= ps[i] <= PTR_MAX
    ensures |Flatten(PtrCells(ps))| == PTR_SZ * |ps|
  {
    if ps != [] {
      var n := |ps| - 1;
      PtrsLen(ps[..n]);
      PtrWidth(ps[n]);
      assert PtrCells(ps) == PtrCells(ps[..n]) + [EncodePtr(ps[n])];
      hide EncodePtr;
      FlattenConcat(PtrCells(ps[..n]), [EncodePtr(ps[n])]);
      FlattenOne(EncodePtr(ps[n]));
    }
  }

  /** The length SpaceOf counts is that of the file. */
  lemma ImageLen(s: Store)
    requires Valid(s)
    ensures |Image(s.ch.heads, s.recs)| == SpaceOf(s).idx
  {
    hide Valid, KeysOk, DataOk, C.Good, Encode, EncodePtr, WellFormed;
    ValidInRange(s);
    PtrsLen(s.ch.heads);
    RecsLen(s.recs);
    FlattenConcat(PtrCells(s.ch.heads) + [[NEWLINE]], RecCells(s.recs));
    FlattenConcat(PtrCells(s.ch.heads), [[NEWLINE]]);
    FlattenOne([NEWLINE]);
  }

  // ---- What each change does ------------------------------------------------

  predicate SameShape(r: Rec, q: Rec) {
    |r.key| == |q.key| && r.datoff == q.datoff && r.datlen == q.datlen
  }

  lemma {:induction false} TotalSame(a: seq<Rec>, b: seq<Rec>)
    requires |a| == |b| && forall x :: 0 <= x < |a| ==> SameShape(a[x], b[x])
    ensures Total(a) == Total(b)
  {
    if a != [] {
      TotalSame(a[..|a| - 1], b[..|b| - 1]);
      assert SameShape(a[|a| - 1], b[|b| - 1]);
    }
  }

  lemma SizesSame(l: seq<nat>, a: seq<Rec>, b: seq<Rec>)
    requires (forall x :: 0 <= x < |l| ==> l[x] < |a|) && |a| <= |b|
    requires forall x :: 0 <= x < |a| ==> SameShape(a[x], b[x])
    ensures SizesOf(l, a) == SizesOf(l, b)
  {
    assert forall x :: 0 <= x < |l| ==> SameShape(a[l[x]], b[l[x]]);
  }

  /** A record goes to the free list. */
  function Freed(z: Space, keylen: int, datlen: int): Space {
    z.(free := z.free + multiset{(keylen, datlen)})
  }

  lemma KillShape(s: Store, i: nat, a: nat)
    requires RecsOk(s) && 1 <= i < NLISTS && a < |s.ch.lists[i]|
    ensures var t, j := Kill(s, i, a), s.ch.lists[i][a];
      && j < |s.recs| == |t.recs| && t.ch.lists[FREE] == [j] + s.ch.lists[FREE] && |t.ch.lists| == NLISTS &&
           t.dat == s.dat
      && forall x :: 0 <= x < |s.recs| ==> SameShape(s.recs[x], t.recs[x])
  {
    assert s.ch.own[s.ch.lists[i][a]] == i;
    C.UnlinkGood(s.ch, i, a, C.UNLISTED);
    hide C.Good, GoodRecs, GoodPtrs;
  }

  lemma KillSpace(s: Store, i: nat, a: nat)
    requires Valid(s) && 1 <= i < NLISTS && |s.ch.lists| == NLISTS && a < |s.ch.lists[i]|
    ensures RecsOk(s) && s.ch.lists[i][a] < |s.recs|
    ensures var r := s.recs[s.ch.lists[i][a]]; SpaceOf(Kill(s, i, a)) == Freed(SpaceOf(s), |r.key|, r.datlen)
  {
    hide Valid, RecsOk, KeysOk, DataOk, Kill, RecLen;
    ValidInRange(s);
    KillShape(s, i, a);
    var t, j, l := Kill(s, i, a), s.ch.lists[i][a], s.ch.lists[FREE];
    TotalSame(s.recs, t.recs);
    SizesSame(l, s.recs, t.recs);
    SizesPush(l, t.recs, j);
  }

  lemma SizesPush(l: seq<nat>, recs: seq<Rec>, j: nat)
    requires j < |recs| && forall x :: 0 <= x < |l| ==> l[x] < |recs|
    ensures multiset(SizesOf([j] + l, recs)) == multiset(SizesOf(l, recs)) + multiset{(|recs[j].key|, recs[j].datlen)}
  {
    assert SizesOf([j] + l, recs) == [(|recs[j].key|, recs[j].datlen)] + SizesOf(l, recs);
  }

  /** A free record is taken. */
  function Taken(z: Space, keylen: int, datlen: int): Space {
    z.(free := z.free - multiset{(keylen, datlen)})
  }

  lemma DetachShape(s: Store, a: nat)
    requires RecsOk(s) && a < |s.ch.lists[FREE]|
    ensures var t := Detach(s, a);
      && |s.recs| == |t.recs| && t.ch.lists[FREE] == C.Without(s.ch.lists[FREE], a) && |t.ch.lists| == NLISTS &&
           t.dat == s.dat
      && forall x :: 0 <= x < |s.recs| ==> SameShape(s.recs[x], t.recs[x])
  {
    hide C.Good, GoodRecs, GoodPtrs;
  }

  lemma SizesDrop(l: seq<nat>, recs: seq<Rec>, a: nat)
    requires a < |l| && forall x :: 0 <= x < |l| ==> l[x] < |recs|
    ensures multiset(SizesOf(C.Without(l, a), recs))
         == multiset(SizesOf(l, recs)) - multiset{(|recs[l[a]].key|, recs[l[a]].datlen)}
  {
    var s, v := SizesOf(l, recs), (|recs[l[a]].key|, recs[l[a]].datlen);
    assert s == s[..a] + [v] + s[a + 1..];
    assert SizesOf(C.Without(l, a), recs) == s[..a] + s[a + 1..];
  }

  lemma DetachSpace(s: Store, a: nat)
    requires Valid(s) && |s.ch.lists| == NLISTS && a < |s.ch.lists[FREE]|
    ensures RecsOk(s) && s.ch.lists[FREE][a] < |s.recs|
    ensures var r := s.recs[s.ch.lists[FREE][a]]; SpaceOf(Detach(s, a)) == Taken(SpaceOf(s), |r.key|, r.datlen)
  {
    hide Valid, RecsOk, KeysOk, DataOk, Detach, RecLen;
    ValidInRange(s);
    DetachShape(s, a);
    var t, l := Detach(s, a), s.ch.lists[FREE];
    TotalSame(s.recs, t.recs);
    SizesSame(l, s.recs, t.recs);
    SizesDrop(l, t.recs, a);
  }

  /** Whether a free record fits is in the sizes. */
  lemma HasFreeIff(s: Store, keylen: nat, datlen: nat)
    requires Valid(s)
    ensures HasFree(s, keylen, datlen) <==> (keylen, datlen) in SpaceOf(s).free
  {
    hide Valid, RecsOk, KeysOk, DataOk, RecLen;
    ValidInRange(s);
    var z, l := SizesOf(s.ch.lists[FREE], s.recs), s.ch.lists[FREE];
    if HasFree(s, keylen, datlen) {
      var b :| 0 <= b < |l| && FreeFits(s, b, keylen, datlen);
      assert z[b] == (keylen, datlen);
    }
    if (keylen, datlen) in z {
      var b :| 0 <= b < |z| && z[b] == (keylen, datlen);
      assert FreeFits(s, b, keylen, datlen);
    }
  }

  /** Rewriting a taken record and putting it on a chain. */
  lemma ReuseSpace(s: Store, t: Store)
    requires FreeInRange(s) && |t.ch.lists| == NLISTS && t.ch.lists[FREE] == s.ch.lists[FREE]
    requires |t.dat| == |s.dat| && |t.recs| == |s.recs| && forall x :: 0 <= x < |s.recs| ==>
      SameShape(s.recs[x], t.recs[x])
    ensures SpaceOf(t) == SpaceOf(s)
  {
    TotalSame(s.recs, t.recs);
    SizesSame(s.ch.lists[FREE], s.recs, t.recs);
  }

  /** A record at the end of both files. */
  function Appended(z: Space, key: seq<byte>, datlen: int): Space {
    z.(idx := z.idx + RecLen(key, z.dat, datlen), dat := z.dat + datlen)
  }

  lemma AppendSpace(s: Store, t: Store, key: seq<byte>, datlen: int)
    requires FreeInRange(s) && |t.ch.lists| == NLISTS && t.ch.lists[FREE] == s.ch.lists[FREE]
    requires |t.dat| == |s.dat| + datlen && |t.recs| == |s.recs| + 1 && t.recs[..|s.recs|] == s.recs
    requires var r := t.recs[|s.recs|]; r.key == key && r.datoff == |s.dat| && r.datlen == datlen
    ensures SpaceOf(t) == Appended(SpaceOf(s), key, datlen)
  {
    assert forall x :: 0 <= x < |s.recs| ==> t.recs[x] == s.recs[x];
    SizesSame(s.ch.lists[FREE], s.recs, t.recs);
  }

  /** The data of a live record is one shorter than its region. */
  lemma LiveLength(s: Store, key: seq<byte>)
    requires Valid(s) && key in s.at
    ensures s.at[key] < |s.recs| && s.recs[s.at[key]].key == key
    ensures key in Contents(s) && s.recs[s.at[key]].datlen == |Contents(s)[key]| + 1
  {
    hide RecsOk, ChainOf;
  }

  /** What a store asks of the records, asked of the sizes. */
  lemma AppendIff(s: Store, key: seq<byte>, data: seq<byte>)
    requires Valid(s)
    ensures NeedsAppend(s, key, data) <==>
      if key in Contents(s) then |Contents(s)[key]| != |data| else (|key|, |data| + 1) !in SpaceOf(s).free
  {
    hide Valid, Contents, HasFree, SpaceOf;
    ContentsAre(s);
    if key in s.at {
      LiveLength(s, key);
    } else {
      HasFreeIff(s, |key|, |data| + 1);
    }
  }

  lemma FreshSpace()
    ensures SpaceOf(Fresh()) == Space(multiset{}, FIRST_REC, 0)
  {
    assert SizesOf([], []) == [];
  }

  lemma AttachSpace(s: Store, j: nat)
    requires Valid(s) && RecsOk(s) && j < |s.recs|
    ensures SpaceOf(Attach(s, j)) == SpaceOf(s)
  {
    hide Valid, RecsOk, KeysOk, DataOk, C.Good, RecLen, Hash;
    ValidInRange(s);
    PushShape(s, j);
    ReuseSpace(s, Attach(s, j));
  }

  lemma PushShape(s: Store, j: nat)
    requires RecsOk(s) && j < |s.recs|
    ensures var t := Attach(s, j);
      |t.ch.lists| == NLISTS && t.ch.lists[FREE] == s.ch.lists[FREE] && t.recs == s.recs && t.dat == s.dat
  {
    hide C.Good, GoodRecs, GoodPtrs;
  }

  /** A taken record, overwritten and put on a chain. */
  lemma ReusedSpace(s: Store, j: nat, data: seq<byte>, key: seq<byte>, ptr: int)
    requires Valid(s) && j < |s.recs| == |s.ch.ptrs| && |key| == |s.recs[j].key|
    requires 0 <= s.recs[j].datoff && s.recs[j].datoff + |data| + 1 <= |s.dat|
    requires var t := Rewrite(s.(dat := Splice(s.dat, s.recs[j].datoff, data + [NEWLINE])), j, key, ptr);
      Valid(t) && RecsOk(t)
    ensures var t := Rewrite(s.(dat := Splice(s.dat, s.recs[j].datoff, data + [NEWLINE])), j, key, ptr);
      SpaceOf(Attach(t, j)) == SpaceOf(s)
  {
    hide Valid, RecsOk, KeysOk, DataOk, C.Good, RecLen, Hash, Attach, SpaceOf;
    var t := Rewrite(s.(dat := Splice(s.dat, s.recs[j].datoff, data + [NEWLINE])), j, key, ptr);
    ValidInRange(s);
    AttachSpace(t, j);
    ReuseSpace(s, t);
  }

  lemma GrownSpace(s: Store, key: seq<byte>, data: seq<byte>, ptr: int)
    requires Valid(s)
    ensures RecsOk(s) && SpaceOf(Grown(s, key, data, ptr)) == Appended(SpaceOf(s), key, |data| + 1)
  {
    hide Valid, RecsOk, KeysOk, DataOk, C.Good, RecLen, Hash, SpaceOf, Appended, RecOff;
    ValidInRange(s);
    var t := Grown(s, key, data, ptr);
    assert t.recs[..|s.recs|] == s.recs;
    AppendSpace(s, t, key, |data| + 1);
  }
}
