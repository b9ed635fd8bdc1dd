/** The steps the database operations take on the store, each with the proof
    that it keeps the store valid and what it does to the contents. */
module DbSteps {
  import opened Values
  import opened Ascii
  import opened IndexCodec
  import opened IndexFile
  import opened Layout
  import opened DbStore
  import C = Chains

  // ---- Relinking records without moving them --------------------------------

  /** Every pointer on a list is 0 or the offset of a listed record. */
  lemma PtrsInRange(ch: C.Chains)
    requires C.Good(ch)
    requires forall j :: 0 <= j < |ch.own| && ch.own[j] >= 0 ==> ch.offs[j] <= PTR_MAX
    ensures forall i :: 0 <= i < |ch.heads| ==> 0 <= ch.heads[i] <= PTR_MAX
    ensures forall j :: 0 <= j < |ch.own| && ch.own[j] >= 0 ==> 0 <= ch.ptrs[j] <= PTR_MAX
  {
    forall i, a | 0 <= i < |ch.lists| && 0 <= a <= |ch.lists[i]|
      ensures 0 <= C.PtrTo(ch.offs, ch.lists[i], a) <= PTR_MAX
    {
      if a < |ch.lists[i]| {
        assert ch.own[ch.lists[i][a]] == i;
      }
    }
    forall i | 0 <= i < |ch.heads|
      ensures 0 <= ch.heads[i] <= PTR_MAX
    {
      assert C.LinkedList(ch, i);
    }
    forall j | 0 <= j < |ch.own| && ch.own[j] >= 0
      ensures 0 <= ch.ptrs[j] <= PTR_MAX
    {
      var i := ch.own[j];
      assert C.LinkedList(ch, i);
      var a :| 0 <= a < |ch.lists[i]| && ch.lists[i][a] == j;
      assert ch.ptrs[j] == C.PtrTo(ch.offs, ch.lists[i], a + 1);
    }
  }

  /** r can be rewritten as q where it lies. */
  ghost predicate Refits(r: Rec, q: Rec) {
    && |q.key| == |r.key| && q.datoff == r.datoff && q.datlen == r.datlen
    && CString(q.key) && SEP !in q.key && 0 <= q.ptr <= PTR_MAX
  }

  lemma RefitsKeeps(r: Rec, q: Rec)
    requires WellFormed(r) && Refits(r, q)
    ensures WellFormed(q) && |Encode(q)| == |Encode(r)|
  {
    SameSize(r, q);
  }

  lemma RelinkOk(s: Store, t: Store)
    requires RecsOk(s) && C.Good(t.ch) && |t.ch.lists| == NLISTS && t.ch.offs == s.ch.offs
    requires |t.recs| == |s.recs|
    requires forall x :: 0 <= x < |s.recs| ==> Refits(s.recs[x], t.recs[x]) && t.recs[x].ptr == t.ch.ptrs[x]
    requires forall x :: 0 <= x < |s.recs| && t.ch.own[x] >= 0 ==> t.ch.offs[x] <= PTR_MAX
    ensures RecsOk(t)
    ensures |Image(t.ch.heads, t.recs)| == |Image(s.ch.heads, s.recs)|
  {
    PtrsInRange(t.ch);
    forall x | 0 <= x < |s.recs|
      ensures WellFormed(t.recs[x]) && |Encode(t.recs[x])| == |Encode(s.recs[x])|
    {
      RefitsKeeps(s.recs[x], t.recs[x]);
    }
    forall x | 0 <= x < |s.recs|
      ensures RecOff(t.ch.heads, t.recs, x) == RecOff(s.ch.heads, s.recs, x)
    {
      SameOffsets(s.ch.heads, s.recs, t.ch.heads, t.recs, x);
    }
    SameOffsets(s.ch.heads, s.recs, t.ch.heads, t.recs, |s.recs|);
    FirstRecord(s.ch.heads, s.recs);
    FirstRecord(t.ch.heads, t.recs);
  }

  /** Records with the same regions over the same data. */
  lemma SameRegions(recs: seq<Rec>, rs: seq<Rec>, dat: seq<byte>)
    requires DataOk(recs, dat) && |rs| == |recs|
    requires forall x :: 0 <= x < |recs| ==> rs[x].datoff == recs[x].datoff && rs[x].datlen == recs[x].datlen
    ensures DataOk(rs, dat)
  {
    forall j, k | 0 <= j < k < |rs|
      ensures Apart(rs[j], rs[k])
    {
      assert Apart(recs[j], recs[k]);
    }
  }

  // ---- Deleting -------------------------------------------------------------

  /** `_db_dodelete`: the record at position a of chain i goes to the front of
      the free list with a blank key. */
  ghost function Kill(s: Store, i: nat, a: nat): Store
    requires RecsOk(s) && 1 <= i < NLISTS && a < |s.ch.lists[i]|
  {
    var j := s.ch.lists[i][a];
    C.UnlinkGood(s.ch, i, a, C.UNLISTED);
    assert s.ch.own[j] == i;
    var ch := C.Push(C.Unlink(s.ch, i, a, C.UNLISTED), FREE, j);
    var r := s.recs[j].(key := Blanks(|s.recs[j].key|));
    Store(ch, Relinked(s.recs[j := r], ch.ptrs), s.at - {s.recs[j].key}, s.dat)
  }

  ghost function Relinked(recs: seq<Rec>, ptrs: seq<int>): (rs: seq<Rec>)
    requires |ptrs| == |recs|
    ensures |rs| == |recs| && forall x :: 0 <= x < |recs| ==> rs[x] == recs[x].(ptr := ptrs[x])
  {
    seq(|recs|, x requires 0 <= x < |recs| => recs[x].(ptr := ptrs[x]))
  }

  lemma KillRecs(s: Store, i: nat, a: nat)
    requires RecsOk(s) && 1 <= i < NLISTS && a < |s.ch.lists[i]|
    ensures RecsOk(Kill(s, i, a))
    ensures |Image(Kill(s, i, a).ch.heads, Kill(s, i, a).recs)| == |Image(s.ch.heads, s.recs)|
  {
    var t, j := Kill(s, i, a), s.ch.lists[i][a];
    assert s.ch.own[j] == i;
    C.UnlinkGood(s.ch, i, a, C.UNLISTED);
    C.PushGood(C.Unlink(s.ch, i, a, C.UNLISTED), FREE, j);
    PtrsInRange(t.ch);
    forall x | 0 <= x < |s.recs|
      ensures Refits(s.recs[x], t.recs[x])
    {
      assert WellFormed(s.recs[x]);
      if t.ch.own[x] < 0 {
        assert t.ch.ptrs[x] == s.ch.ptrs[x] by {
          assert a > 0 ==> s.ch.own[s.ch.lists[i][a - 1]] == i;
        }
      }
    }
    RelinkOk(s, t);
  }

  lemma KillKeys(own: seq<int>, recs: seq<Rec>, at: map<seq<byte>, nat>, rs: seq<Rec>, j: nat)
    requires KeysOk(own, recs, at) && j < |recs| && own[j] > FREE && |rs| == |recs|
    requires forall x :: 0 <= x < |recs| && x != j ==> rs[x].key == recs[x].key
    requires Blank(rs[j].key)
    ensures KeysOk(own[j := FREE], rs, at - {recs[j].key})
  {
  }

  lemma SameBindings(recs: seq<Rec>, rs: seq<Rec>, at: map<seq<byte>, nat>, dat: seq<byte>)
    requires DataOk(recs, dat) && |rs| == |recs| && forall k :: k in at ==> at[k] < |recs|
    requires forall x :: 0 <= x < |recs| ==> rs[x].datoff == recs[x].datoff && rs[x].datlen == recs[x].datlen
    ensures DataOk(rs, dat) && Bindings(rs, at, dat) == Bindings(recs, at, dat)
  {
    SameRegions(recs, rs, dat);
    forall k | k in at
      ensures Data(dat, rs[at[k]]) == Data(dat, recs[at[k]])
    {
    }
  }

  lemma KillBindings(recs: seq<Rec>, at: map<seq<byte>, nat>, dat: seq<byte>, rs: seq<Rec>, key: seq<byte>)
    requires DataOk(recs, dat) && |rs| == |recs| && forall k :: k in at ==> at[k] < |recs|
    requires forall x :: 0 <= x < |recs| ==> rs[x].datoff == recs[x].datoff && rs[x].datlen == recs[x].datlen
    ensures DataOk(rs, dat) && Bindings(rs, at - {key}, dat) == Bindings(recs, at, dat) - {key}
  {
    SameBindings(recs, rs, at, dat);
  }

  lemma OwnedKeys(s: Store)
    requires Valid(s)
    ensures forall k :: k in s.at ==> s.at[k] < |s.recs|
    ensures |s.ch.own| == |s.recs|
  {
  }

  lemma KillChanges(s: Store, i: nat, a: nat)
    requires RecsOk(s) && 1 <= i < NLISTS && a < |s.ch.lists[i]|
    ensures var t, j := Kill(s, i, a), s.ch.lists[i][a];
      && j < |s.recs| && s.ch.own[j] == i && |t.recs| == |s.recs| && t.ch.own == s.ch.own[j := FREE]
      && (forall x :: 0 <= x < |s.recs| && x != j ==> t.recs[x].key == s.recs[x].key)
      && Blank(t.recs[j].key) && t.at == s.at - {s.recs[j].key} && t.dat == s.dat
      && (forall x :: 0 <= x < |s.recs| ==>
           t.recs[x].datoff == s.recs[x].datoff && t.recs[x].datlen == s.recs[x].datlen)
  {
    assert s.ch.own[s.ch.lists[i][a]] == i;
  }

  lemma KillValid(s: Store, i: nat, a: nat)
    requires Valid(s) && 1 <= i < NLISTS && a < |s.ch.lists[i]|
    ensures Valid(Kill(s, i, a))
    ensures Contents(Kill(s, i, a)) == Contents(s) - {s.recs[s.ch.lists[i][a]].key}
    ensures Kill(s, i, a).at == s.at - {s.recs[s.ch.lists[i][a]].key} && Kill(s, i, a).dat == s.dat
    ensures |Image(Kill(s, i, a).ch.heads, Kill(s, i, a).recs)| == |Image(s.ch.heads, s.recs)|
    ensures Clean(s) ==> Clean(Kill(s, i, a))
  {
    hide RecsOk, KeysOk, DataOk, Kill, Bindings, C.Good, Image;
    FoundRecord(s, i, a);
    var t, j := Kill(s, i, a), s.ch.lists[i][a];
    KillChanges(s, i, a);
    OwnedKeys(s);
    KillRecs(s, i, a);
    KillKeys(s.ch.own, s.recs, s.at, t.recs, j);
    KillBindings(s.recs, s.at, s.dat, t.recs, s.recs[j].key);
  }

  // ---- Taking a free record -------------------------------------------------

  /** `_db_findfree`: the record at position a of the free list leaves it. */
  ghost function Detach(s: Store, a: nat): Store
    requires RecsOk(s) && a < |s.ch.lists[FREE]|
  {
    var ch := C.Unlink(s.ch, FREE, a, C.UNLISTED);
    s.(ch := ch, recs := Relinked(s.recs, ch.ptrs))
  }

  lemma DetachRecs(s: Store, a: nat)
    requires RecsOk(s) && a < |s.ch.lists[FREE]|
    ensures RecsOk(Detach(s, a))
  {
    var t, j := Detach(s, a), s.ch.lists[FREE][a];
    C.UnlinkGood(s.ch, FREE, a, C.UNLISTED);
    PtrsInRange(t.ch);
    forall x | 0 <= x < |s.recs|
      ensures Refits(s.recs[x], t.recs[x])
    {
      assert WellFormed(s.recs[x]);
      if t.ch.own[x] < 0 {
        assert t.ch.ptrs[x] == s.ch.ptrs[x] by {
          assert C.NoDup(s.ch.lists[FREE]);
          assert a > 0 ==> s.ch.own[s.ch.lists[FREE][a - 1]] == FREE;
        }
      }
    }
    RelinkOk(s, t);
  }

  lemma DetachValid(s: Store, a: nat)
    requires Valid(s) && a < |s.ch.lists[FREE]|
    ensures Valid(Detach(s, a)) && Contents(Detach(s, a)) == Contents(s)
  {
    var t, j := Detach(s, a), s.ch.lists[FREE][a];
    assert s.ch.own[j] == FREE;
    DetachRecs(s, a);
    assert t.ch.own == s.ch.own[j := C.UNLISTED];
    OrphanKeys(s.ch.own, s.recs, s.at, t.recs, j, C.UNLISTED);
    SameBindings(s.recs, t.recs, s.at, s.dat);
  }

  lemma OrphanKeys(own: seq<int>, recs: seq<Rec>, at: map<seq<byte>, nat>, rs: seq<Rec>, j: nat, o: int)
    requires KeysOk(own, recs, at) && j < |recs| && own[j] <= FREE && o < 0 && |rs| == |recs|
    requires forall x :: 0 <= x < |recs| && x != j ==> rs[x].key == recs[x].key
    ensures KeysOk(own[j := o], rs, at)
  {
  }

  // ---- Rewriting an unlisted record -----------------------------------------

  /** `_db_writeidx` over a record that is on no list. */
  ghost function Rewrite(s: Store, j: nat, key: seq<byte>, ptr: int): Store
    requires j < |s.recs| && |s.ch.ptrs| == |s.recs|
  {
    s.(ch := s.ch.(ptrs := s.ch.ptrs[j := ptr]), recs := s.recs[j := s.recs[j].(key := key, ptr := ptr)])
  }

  lemma RewriteRecs(s: Store, j: nat, key: seq<byte>, ptr: int)
    requires RecsOk(s) && j < |s.recs| && s.ch.own[j] < 0
    requires Refits(s.recs[j], s.recs[j].(key := key, ptr := ptr))
    ensures RecsOk(Rewrite(s, j, key, ptr))
  {
    var t := Rewrite(s, j, key, ptr);
    C.SetPtrGood(s.ch, j, ptr);
    forall x | 0 <= x < |s.recs|
      ensures Refits(s.recs[x], t.recs[x])
    {
      assert WellFormed(s.recs[x]);
    }
    RelinkOk(s, t);
  }

  lemma RewriteValid(s: Store, j: nat, key: seq<byte>, ptr: int)
    requires Valid(s) && j < |s.recs| && s.ch.own[j] < 0
    requires Refits(s.recs[j], s.recs[j].(key := key, ptr := ptr))
    ensures Valid(Rewrite(s, j, key, ptr)) && Contents(Rewrite(s, j, key, ptr)) == Contents(s)
  {
    var t := Rewrite(s, j, key, ptr);
    RewriteRecs(s, j, key, ptr);
    assert s.ch.own == s.ch.own[j := s.ch.own[j]];
    OrphanKeys(s.ch.own, s.recs, s.at, t.recs, j, s.ch.own[j]);
    SameBindings(s.recs, t.recs, s.at, s.dat);
  }

  // ---- Putting a written record on its chain --------------------------------

  /** `_db_writeptr(db, db->chainoff, db->idxoff)`. */
  ghost function Attach(s: Store, j: nat): Store
    requires RecsOk(s) && j < |s.recs|
  {
    var i := ChainOf(s.recs[j].key);
    s.(ch := C.Push(s.ch, i, j), at := s.at[s.recs[j].key := j])
  }

  lemma AttachRecs(s: Store, j: nat)
    requires RecsOk(s) && j < |s.recs| && s.ch.own[j] < 0
    requires s.ch.offs[j] <= PTR_MAX && s.recs[j].ptr == s.ch.heads[ChainOf(s.recs[j].key)]
    ensures RecsOk(Attach(s, j))
  {
    var t := Attach(s, j);
    C.PushGood(s.ch, ChainOf(s.recs[j].key), j);
    forall x | 0 <= x < |s.recs|
      ensures Refits(s.recs[x], t.recs[x])
    {
      assert WellFormed(s.recs[x]);
    }
    RelinkOk(s, t);
  }

  lemma AttachKeys(own: seq<int>, recs: seq<Rec>, at: map<seq<byte>, nat>, j: nat)
    requires KeysOk(own, recs, at) && j < |recs| && own[j] < 0 && recs[j].key !in at
    ensures KeysOk(own[j := ChainOf(recs[j].key)], recs, at[recs[j].key := j])
  {
  }

  lemma AttachValid(s: Store, j: nat)
    requires Valid(s) && j < |s.recs| && s.ch.own[j] < 0
    requires s.ch.offs[j] <= PTR_MAX && s.recs[j].ptr == s.ch.heads[ChainOf(s.recs[j].key)]
    requires s.recs[j].key !in s.at
    ensures Valid(Attach(s, j))
    ensures Contents(Attach(s, j)) == Contents(s)[s.recs[j].key := Data(s.dat, s.recs[j])]
    ensures Attach(s, j).dat == s.dat
  {
    AttachRecs(s, j);
    AttachKeys(s.ch.own, s.recs, s.at, j);
    AttachBindings(s.recs, s.at, s.dat, j);
  }

  lemma AttachBindings(recs: seq<Rec>, at: map<seq<byte>, nat>, dat: seq<byte>, j: nat)
    requires DataOk(recs, dat) && j < |recs| && forall k :: k in at ==> at[k] < |recs|
    ensures Bindings(recs, at[recs[j].key := j], dat) == Bindings(recs, at, dat)[recs[j].key := Data(dat, recs[j])]
  {
  }

  // ---- The data file --------------------------------------------------------

  /** `_db_writedat` over the region of record j. */
  lemma OverwriteData(recs: seq<Rec>, dat: seq<byte>, j: nat, data: seq<byte>)
    requires DataOk(recs, dat) && j < |recs| && |data| + 1 == recs[j].datlen
    ensures var d := Splice(dat, recs[j].datoff, data + [NEWLINE]);
      && DataOk(recs, d) && |d| == |dat| && Data(d, recs[j]) == data
      && forall x :: 0 <= x < |recs| && x != j ==> Data(d, recs[x]) == Data(dat, recs[x])
  {
    var r := recs[j];
    var d := Splice(dat, r.datoff, data + [NEWLINE]);
    assert Data(d, r) == data by {
      assert forall k :: 0 <= k < |data| ==> d[r.datoff + k] == data[k];
    }
    forall x | 0 <= x < |recs| && x != j
      ensures Data(d, recs[x]) == Data(dat, recs[x]) && d[recs[x].datoff + recs[x].datlen - 1] == NEWLINE
    {
      assert Apart(recs[if x < j then x else j], recs[if x < j then j else x]);
      hide DataOk, Data;
      OverwriteOther(dat, r, data, recs[x]);
    }
    hide Data, Splice;
  }

  lemma OverwriteOther(dat: seq<byte>, r: Rec, data: seq<byte>, q: Rec)
    requires 0 <= r.datoff && |data| + 1 == r.datlen && r.datoff + r.datlen <= |dat|
    requires 0 <= q.datoff && 0 < q.datlen && q.datoff + q.datlen <= |dat| && (Apart(r, q) || Apart(q, r))
    ensures var d := Splice(dat, r.datoff, data + [NEWLINE]);
      |d| == |dat| && Data(d, q) == Data(dat, q) && d[q.datoff + q.datlen - 1] == dat[q.datoff + q.datlen - 1]
  {
    var d, lo, hi := Splice(dat, r.datoff, data + [NEWLINE]), q.datoff, q.datoff + q.datlen;
    SpliceOutside(dat, r.datoff, data + [NEWLINE], lo, hi);
    assert |d| == |dat|;
    hide Splice, Apart;
    SameFront(d, dat, lo, hi);
  }

  lemma SameFront(f: seq<byte>, g: seq<byte>, lo: nat, hi: nat)
    requires lo < hi <= |f| == |g| && f[lo..hi] == g[lo..hi]
    ensures f[lo..hi - 1] == g[lo..hi - 1] && f[hi - 1] == g[hi - 1]
  {
    var n := hi - 1 - lo;
    assert f[lo..hi - 1] == f[lo..hi][..n];
    assert g[lo..hi - 1] == g[lo..hi][..n];
    assert f[hi - 1] == f[lo..hi][n] && g[hi - 1] == g[lo..hi][n];
  }

  lemma SpliceOutside(f: seq<byte>, off: nat, b: seq<byte>, lo: nat, hi: nat)
    requires off + |b| <= |f| && lo <= hi <= |f| && (hi <= off || off + |b| <= lo)
    ensures Splice(f, off, b)[lo..hi] == f[lo..hi]
  {
  }

  lemma OverwriteBindings(own: seq<int>, recs: seq<Rec>, at: map<seq<byte>, nat>, dat: seq<byte>, j: nat,
      data: seq<byte>)
    requires KeysOk(own, recs, at) && DataOk(recs, dat) && j < |recs| && |data| + 1 == recs[j].datlen
    ensures var d := Splice(dat, recs[j].datoff, data + [NEWLINE]);
      && DataOk(recs, d)
      && (own[j] > FREE ==> Bindings(recs, at, d) == Bindings(recs, at, dat)[recs[j].key := data])
      && (own[j] <= FREE ==> Bindings(recs, at, d) == Bindings(recs, at, dat))
  {
    OverwriteData(recs, dat, j, data);
    BindingsAfter(own, recs, at, dat, Splice(dat, recs[j].datoff, data + [NEWLINE]), j, data);
  }

  lemma BindingsAfter(own: seq<int>, recs: seq<Rec>, at: map<seq<byte>, nat>, dat: seq<byte>, d: seq<byte>, j: nat,
      data: seq<byte>)
    requires KeysOk(own, recs, at) && DataOk(recs, dat) && DataOk(recs, d) && j < |recs|
    requires Data(d, recs[j]) == data
    requires forall x :: 0 <= x < |recs| && x != j ==> Data(d, recs[x]) == Data(dat, recs[x])
    ensures own[j] > FREE ==> Bindings(recs, at, d) == Bindings(recs, at, dat)[recs[j].key := data]
    ensures own[j] <= FREE ==> Bindings(recs, at, d) == Bindings(recs, at, dat)
  {
    forall k | k in at
      ensures at[k] < |recs| && (at[k] == j <==> own[j] > FREE && k == recs[j].key)
    {
    }
    assert own[j] > FREE ==> recs[j].key in at && at[recs[j].key] == j;
    hide KeysOk, DataOk, Data, ChainOf;
  }

  lemma OverwriteValid(s: Store, j: nat, data: seq<byte>)
    requires Valid(s) && j < |s.recs| && |data| + 1 == s.recs[j].datlen
    ensures var t := s.(dat := Splice(s.dat, s.recs[j].datoff, data + [NEWLINE]));
      && Valid(t) && (Clean(s) ==> Clean(t)) && Data(t.dat, t.recs[j]) == data
      && (s.ch.own[j] > FREE ==> Contents(t) == Contents(s)[s.recs[j].key := data])
      && (s.ch.own[j] <= FREE ==> Contents(t) == Contents(s))
  {
    OverwriteData(s.recs, s.dat, j, data);
    OverwriteBindings(s.ch.own, s.recs, s.at, s.dat, j, data);
  }

  /** `_db_writedat` at the end of the file. */
  lemma AppendBindings(recs: seq<Rec>, at: map<seq<byte>, nat>, dat: seq<byte>, more: seq<byte>)
    requires DataOk(recs, dat) && forall k :: k in at ==> at[k] < |recs|
    ensures DataOk(recs, dat + more) && Bindings(recs, at, dat + more) == Bindings(recs, at, dat)
  {
    forall j | 0 <= j < |recs|
      ensures Data(dat + more, recs[j]) == Data(dat, recs[j])
    {
    }
  }

  lemma AppendData(s: Store, more: seq<byte>)
    requires Valid(s)
    ensures var t := s.(dat := s.dat + more);
      Valid(t) && Contents(t) == Contents(s)
  {
    AppendBindings(s.recs, s.at, s.dat, more);
  }

  // ---- Appending an index record --------------------------------------------

  /** `_db_writeidx` at the end of the index file. */
  ghost function AddRec(s: Store, r: Rec): Store
    requires RecsOk(s)
  {
    s.(ch := C.Extend(s.ch, r.ptr, RecOff(s.ch.heads, s.recs, |s.recs|), C.UNLISTED), recs := s.recs + [r])
  }

  lemma AddRecRecs(s: Store, r: Rec)
    requires RecsOk(s) && WellFormed(r)
    ensures RecsOk(AddRec(s, r))
    ensures AddRec(s, r).ch.offs[|s.recs|] == |Image(s.ch.heads, s.recs)|
  {
    var t, off := AddRec(s, r), RecOff(s.ch.heads, s.recs, |s.recs|);
    FirstRecord(s.ch.heads, s.recs);
    PositiveEnd(s.ch.heads, s.recs);
    C.ExtendGood(s.ch, r.ptr, off, C.UNLISTED);
    AppendRec(s.ch.heads, s.recs, r);
    forall j | 0 <= j < |t.recs|
      ensures t.ch.offs[j] == RecOff(t.ch.heads, t.recs, j)
    {
      if j < |s.recs| {
        assert s.ch.offs[j] == RecOff(s.ch.heads, s.recs, j);
      }
    }
  }

  lemma PositiveEnd(heads: seq<int>, recs: seq<Rec>)
    requires GoodPtrs(heads)
    ensures RecOff(heads, recs, |recs|) >= FIRST_REC
  {
    FirstRecord(heads, recs);
    OffMonotone(Cells(heads, recs), NLISTS + 1, NLISTS + 1 + |recs|);
  }

  lemma AddRecData(recs: seq<Rec>, at: map<seq<byte>, nat>, dat: seq<byte>, r: Rec)
    requires DataOk(recs, dat) && forall k :: k in at ==> at[k] < |recs|
    requires 0 <= r.datoff && 0 < r.datlen && r.datoff + r.datlen == |dat| && dat[|dat| - 1] == NEWLINE
    requires forall x :: 0 <= x < |recs| ==> recs[x].datoff + recs[x].datlen <= r.datoff
    ensures DataOk(recs + [r], dat) && Bindings(recs + [r], at, dat) == Bindings(recs, at, dat)
  {
    var rs := recs + [r];
    forall j, k | 0 <= j < k < |rs|
      ensures Apart(rs[j], rs[k])
    {
      if k < |recs| {
        assert Apart(recs[j], recs[k]);
      }
    }
  }

  lemma AddRecValid(s: Store, r: Rec)
    requires Valid(s) && WellFormed(r) && r.datoff + r.datlen == |s.dat| && s.dat[|s.dat| - 1] == NEWLINE
    requires forall x :: 0 <= x < |s.recs| ==> s.recs[x].datoff + s.recs[x].datlen <= r.datoff
    ensures Valid(AddRec(s, r)) && Contents(AddRec(s, r)) == Contents(s)
  {
    var t := AddRec(s, r);
    AddRecRecs(s, r);
    AddRecData(s.recs, s.at, s.dat, r);
    AddRecKeys(s.ch.own, s.recs, s.at, r, C.UNLISTED);
  }

  lemma AddRecKeys(own: seq<int>, recs: seq<Rec>, at: map<seq<byte>, nat>, r: Rec, o: int)
    requires KeysOk(own, recs, at) && o < 0
    ensures KeysOk(own + [o], recs + [r], at)
  {
  }

  // ---- What the writes do to the bytes --------------------------------------

  lemma FoundRecord(s: Store, i: nat, a: nat)
    requires Valid(s) && i < NLISTS && a < |s.ch.lists[i]|
    ensures var j := s.ch.lists[i][a];
      && j < |s.recs| && s.ch.own[j] == i && |s.recs| == |s.ch.offs|
      && 0 < s.recs[j].datlen && 0 <= s.recs[j].datoff && s.recs[j].datoff + s.recs[j].datlen <= |s.dat|
      && 0 < s.ch.offs[j] <= PTR_MAX
      && RecsOk(s) && C.Good(s.ch) && |s.ch.lists| == |s.ch.heads| == NLISTS
  {
    assert s.ch.own[s.ch.lists[i][a]] == i;
  }

  /** The offset of the cell that points to position a of list i. */
  ghost function CellOffset(ch: C.Chains, i: nat, a: nat): int
    requires i < |ch.lists| && a <= |ch.lists[i]|
    requires a > 0 ==> ch.lists[i][a - 1] < |ch.offs|
  {
    if a == 0 then PTR_SZ * i else ch.offs[ch.lists[i][a - 1]]
  }

  /** One write to the cell that points to position a of list i. */
  lemma WritePointer(s: Store, i: nat, a: nat, p: int)
    requires RecsOk(s) && i < NLISTS && a <= |s.ch.lists[i]| && 0 <= p <= PTR_MAX
    ensures a > 0 ==> s.ch.lists[i][a - 1] < |s.ch.offs|
    ensures var f, o := Image(s.ch.heads, s.recs), CellOffset(s.ch, i, a);
      && 0 <= o <= |f|
      && Splice(f, o, EncodePtr(p))
         == if a == 0 then Image(s.ch.heads[i := p], s.recs)
            else var q := s.ch.lists[i][a - 1]; Image(s.ch.heads, s.recs[q := s.recs[q].(ptr := p)])
  {
    if a == 0 {
      WriteHead(s.ch.heads, s.recs, i, p);
    } else {
      var q := s.ch.lists[i][a - 1];
      assert s.ch.own[q] == i;
      assert WellFormed(s.recs[q]);
      assert s.ch.offs[q] == RecOff(s.ch.heads, s.recs, q);
      WriteRecPtr(s.ch.heads, s.recs, q, p);
    }
  }

  /** The heads and records after the three index writes of `_db_dodelete`. */
  ghost function KilledHeads(s: Store, i: nat, a: nat): seq<int>
    requires RecsOk(s) && 1 <= i < NLISTS && a < |s.ch.lists[i]|
  {
    var j := s.ch.lists[i][a];
    var hs := s.ch.heads[FREE := s.ch.offs[j]];
    if a == 0 then hs[i := s.recs[j].ptr] else hs
  }

  ghost function KilledRec(s: Store, j: nat): Rec
    requires RecsOk(s) && j < |s.recs|
  {
    s.recs[j].(key := Blanks(|s.recs[j].key|), ptr := s.ch.heads[FREE])
  }

  ghost function KilledRecs(s: Store, i: nat, a: nat): seq<Rec>
    requires RecsOk(s) && 1 <= i < NLISTS && a < |s.ch.lists[i]|
  {
    var j := s.ch.lists[i][a];
    var rs := s.recs[j := KilledRec(s, j)];
    if a == 0 then rs else
      var q := s.ch.lists[i][a - 1];
      rs[q := rs[q].(ptr := s.recs[j].ptr)]
  }

  lemma KilledIsKill(s: Store, i: nat, a: nat)
    requires RecsOk(s) && 1 <= i < NLISTS && a < |s.ch.lists[i]|
    ensures Kill(s, i, a).ch.heads == KilledHeads(s, i, a)
    ensures Kill(s, i, a).recs == KilledRecs(s, i, a)
  {
    var t, j := Kill(s, i, a), s.ch.lists[i][a];
    assert C.NoDup(s.ch.lists[i]);
    assert s.recs[j].ptr == s.ch.ptrs[j];
    var rs := KilledRecs(s, i, a);
    forall x | 0 <= x < |rs|
      ensures rs[x] == t.recs[x]
    {
      assert s.recs[x].ptr == s.ch.ptrs[x];
    }
  }

  lemma KilledRecFits(s: Store, j: nat)
    requires RecsOk(s) && j < |s.recs|
    ensures WellFormed(KilledRec(s, j)) && |Encode(KilledRec(s, j))| == |Encode(s.recs[j])|
  {
    assert WellFormed(s.recs[j]);
    RefitsKeeps(s.recs[j], KilledRec(s, j));
  }

  /** The first two writes: the record, then the head of the free list. */
  lemma KillFirstWrites(s: Store, j: nat)
    requires RecsOk(s) && j < |s.recs| && s.ch.offs[j] <= PTR_MAX
    ensures var hs, rs := s.ch.heads[FREE := s.ch.offs[j]], s.recs[j := KilledRec(s, j)];
      && 0 < s.ch.offs[j] <= |Image(s.ch.heads, s.recs)|
      && |Splice(Image(s.ch.heads, s.recs), s.ch.offs[j], Encode(KilledRec(s, j)))| == |Image(s.ch.heads, s.recs)|
      && Splice(Splice(Image(s.ch.heads, s.recs), s.ch.offs[j], Encode(KilledRec(s, j))), FREE, EncodePtr(s.ch.offs[j]))
         == Image(hs, rs)
      && |Image(hs, rs)| == |Image(s.ch.heads, s.recs)|
      && (forall x {:trigger RecOff(hs, rs, x)} :: 0 <= x < |s.recs| ==> RecOff(hs, rs, x) == s.ch.offs[x])
  {
    var hs, rs := s.ch.heads[FREE := s.ch.offs[j]], s.recs[j := KilledRec(s, j)];
    KilledRecFits(s, j);
    assert s.ch.offs[j] == RecOff(s.ch.heads, s.recs, j);
    WriteRec(s.ch.heads, s.recs, j, KilledRec(s, j));
    WriteHead(s.ch.heads, rs, FREE, s.ch.offs[j]);
    FirstRecord(s.ch.heads, s.recs);
    FirstRecord(hs, rs);
    SameOffsets(s.ch.heads, s.recs, hs, rs, |s.recs|);
    forall x | 0 <= x < |s.recs|
      ensures RecOff(hs, rs, x) == s.ch.offs[x]
    {
      SameOffsets(s.ch.heads, s.recs, hs, rs, x);
      assert s.ch.offs[x] == RecOff(s.ch.heads, s.recs, x);
    }
  }

  lemma KillLastWrite(s: Store, i: nat, a: nat)
    requires RecsOk(s) && 1 <= i < NLISTS && a < |s.ch.lists[i]|
    ensures a > 0 ==> s.ch.lists[i][a - 1] < |s.ch.offs|
    ensures var j := s.ch.lists[i][a];
      var f := Image(s.ch.heads[FREE := s.ch.offs[j]], s.recs[j := KilledRec(s, j)]);
      && 0 <= CellOffset(s.ch, i, a) <= |f| && 0 <= s.recs[j].ptr <= PTR_MAX
      && Splice(f, CellOffset(s.ch, i, a), EncodePtr(s.recs[j].ptr)) == Image(KilledHeads(s, i, a), KilledRecs(s, i, a))
  {
    var j := s.ch.lists[i][a];
    assert s.ch.own[j] == i;
    var hs, rs := s.ch.heads[FREE := s.ch.offs[j]], s.recs[j := KilledRec(s, j)];
    KillFirstWrites(s, j);
    assert WellFormed(s.recs[j]);
    if a == 0 {
      WriteHead(hs, rs, i, s.recs[j].ptr);
    } else {
      var q := s.ch.lists[i][a - 1];
      assert s.ch.own[q] == i && q != j by {
        assert C.NoDup(s.ch.lists[i]);
      }
      assert WellFormed(s.recs[q]);
      assert RecOff(hs, rs, q) == s.ch.offs[q];
      WriteRecPtr(hs, rs, q, s.recs[j].ptr);
    }
  }

  /** The three writes of `_db_dodelete` to the index file together. */
  lemma KillImage(s: Store, i: nat, a: nat)
    requires Valid(s) && 1 <= i < NLISTS && a < |s.ch.lists[i]|
    ensures a > 0 ==> s.ch.lists[i][a - 1] < |s.ch.offs|
    ensures var j, f := s.ch.lists[i][a], Image(s.ch.heads, s.recs);
      var r := Rec(s.ch.heads[FREE], Blanks(|s.recs[j].key|), s.recs[j].datoff, s.recs[j].datlen);
      && 0 < s.ch.offs[j] <= PTR_MAX && 0 <= s.ch.heads[FREE] <= PTR_MAX && 0 <= s.recs[j].ptr <= PTR_MAX
      && s.ch.offs[j] <= |f| && BodyFits(r.key, r.datoff, r.datlen)
      && var f1 := Splice(f, s.ch.offs[j], Encode(r));
      && |f1| == |f|
      && var f2 := Splice(f1, FREE, EncodePtr(s.ch.offs[j]));
      && |f2| == |f| && 0 <= CellOffset(s.ch, i, a) <= |f2|
      && Splice(f2, CellOffset(s.ch, i, a), EncodePtr(s.recs[j].ptr))
         == Image(Kill(s, i, a).ch.heads, Kill(s, i, a).recs)
  {
    var j := s.ch.lists[i][a];
    assert s.ch.own[j] == i;
    KilledRecFits(s, j);
    KillFirstWrites(s, j);
    KillLastWrite(s, i, a);
    KilledIsKill(s, i, a);
  }

  // ---- Reuse: the bytes and the side conditions -----------------------------

  /** Clean except that record j is on no list. */
  ghost predicate CleanBut(s: Store, j: nat) {
    (forall x :: 0 <= x < |s.ch.own| && x != j ==> s.ch.own[x] >= 0) && Gapless(s.recs, s.dat)
  }

  /** Record j is on no list and the file is ready to take it back. */
  ghost predicate Orphan(s: Store, j: nat)
    requires Valid(s)
  {
    j < |s.recs| && s.ch.own[j] < 0 && s.ch.offs[j] <= PTR_MAX
  }

  lemma DetachImage(s: Store, a: nat)
    requires Valid(s) && a < |s.ch.lists[FREE]|
    ensures a > 0 ==> s.ch.lists[FREE][a - 1] < |s.ch.offs|
    ensures RecsOk(s)
    ensures var f, j := Image(s.ch.heads, s.recs), s.ch.lists[FREE][a];
      && 0 <= CellOffset(s.ch, FREE, a) <= |f| && j < |s.recs| && 0 <= s.recs[j].ptr <= PTR_MAX
      && Splice(f, CellOffset(s.ch, FREE, a), EncodePtr(s.recs[j].ptr))
         == Image(Detach(s, a).ch.heads, Detach(s, a).recs)
  {
    var t, j := Detach(s, a), s.ch.lists[FREE][a];
    assert s.ch.own[j] == FREE;
    assert WellFormed(s.recs[j]);
    assert s.recs[j].ptr == s.ch.ptrs[j];
    WritePointer(s, FREE, a, s.recs[j].ptr);
    DetachIs(s, a);
  }

  lemma DetachIs(s: Store, a: nat)
    requires RecsOk(s) && a < |s.ch.lists[FREE]|
    ensures var t, j := Detach(s, a), s.ch.lists[FREE][a];
      && j < |s.recs| && t.ch.heads == (if a == 0 then s.ch.heads[FREE := s.recs[j].ptr] else s.ch.heads)
      && t.recs == (if a == 0 then s.recs
                    else var q := s.ch.lists[FREE][a - 1]; s.recs[q := s.recs[q].(ptr := s.recs[j].ptr)])
  {
    var t, j := Detach(s, a), s.ch.lists[FREE][a];
    assert s.ch.own[j] == FREE;
    forall x | 0 <= x < |s.recs|
      ensures s.recs[x].ptr == s.ch.ptrs[x]
    {
    }
    if a == 0 {
      assert t.recs == s.recs;
    } else {
      var q := s.ch.lists[FREE][a - 1];
      assert s.ch.own[q] == FREE;
      assert t.recs == s.recs[q := s.recs[q].(ptr := s.recs[j].ptr)];
    }
  }

  /** What `_db_findfree` leaves alone. */
  lemma DetachKeeps(s: Store, a: nat)
    requires Valid(s) && a < |s.ch.lists[FREE]|
    ensures RecsOk(s)
    ensures var t, j := Detach(s, a), s.ch.lists[FREE][a];
      && Valid(t) && Orphan(t, j) && t.at == s.at && t.dat == s.dat && t.ch.offs == s.ch.offs && |t.recs| == |s.recs|
      && t.recs[j].key == s.recs[j].key && t.recs[j].datoff == s.recs[j].datoff && t.recs[j].datlen == s.recs[j].datlen
      && |t.ch.heads| == |s.ch.heads| && (forall i :: 0 < i < |s.ch.heads| ==> t.ch.heads[i] == s.ch.heads[i])
      && (Clean(s) ==> CleanBut(t, j))
  {
    hide DbStore.Valid, RecsOk, C.Good, KeysOk, DataOk, Bindings;
    FoundRecord(s, FREE, a);
    ValidShape(s);
    DetachValid(s, a);
  }

  lemma RewriteImage(s: Store, j: nat, key: seq<byte>, ptr: int)
    requires Valid(s) && j < |s.recs| && Refits(s.recs[j], s.recs[j].(key := key, ptr := ptr))
    ensures var f, r := Image(s.ch.heads, s.recs), Rec(ptr, key, s.recs[j].datoff, s.recs[j].datlen);
      && 0 < s.ch.offs[j] <= |f| && BodyFits(key, r.datoff, r.datlen)
      && Splice(f, s.ch.offs[j], Encode(r)) == Image(s.ch.heads, Rewrite(s, j, key, ptr).recs)
  {
    assert WellFormed(s.recs[j]);
    RefitsKeeps(s.recs[j], s.recs[j].(key := key, ptr := ptr));
    assert s.ch.offs[j] == RecOff(s.ch.heads, s.recs, j);
    WriteRec(s.ch.heads, s.recs, j, s.recs[j].(key := key, ptr := ptr));
  }

  lemma AttachImage(s: Store, j: nat)
    requires Valid(s) && j < |s.recs| && s.recs[j].ptr == s.ch.heads[ChainOf(s.recs[j].key)] && s.ch.offs[j] <= PTR_MAX
    ensures RecsOk(s)
    ensures var f, o := Image(s.ch.heads, s.recs), PTR_SZ * ChainOf(s.recs[j].key);
      && o <= |f| && 0 < s.ch.offs[j]
      && Splice(f, o, EncodePtr(s.ch.offs[j])) == Image(Attach(s, j).ch.heads, Attach(s, j).recs)
  {
    WriteHead(s.ch.heads, s.recs, ChainOf(s.recs[j].key), s.ch.offs[j]);
  }

  lemma AttachClean(s: Store, j: nat)
    requires RecsOk(s) && j < |s.recs| && CleanBut(s, j)
    ensures Clean(Attach(s, j))
  {
  }

  // ---- Appending: the bytes and the side conditions -------------------------

  /** The record `db_store` appends behind the data it appended. */
  ghost function NewRec(s: Store, key: seq<byte>, data: seq<byte>, ptr: int): Rec {
    Rec(ptr, key, |s.dat|, |data| + 1)
  }

  /** The store after the data and the index record were appended. */
  ghost function Grown(s: Store, key: seq<byte>, data: seq<byte>, ptr: int): Store
    requires RecsOk(s)
  {
    AddRec(s.(dat := s.dat + (data + [NEWLINE])), NewRec(s, key, data, ptr))
  }

  lemma GrownValid(s: Store, key: seq<byte>, data: seq<byte>, ptr: int)
    requires Valid(s) && WellFormed(NewRec(s, key, data, ptr))
    ensures RecsOk(s)
    ensures var t, n := Grown(s, key, data, ptr), |s.recs|;
      && Valid(t) && Contents(t) == Contents(s) && t.at == s.at && t.ch.heads == s.ch.heads
      && |t.recs| == |t.ch.own| == |t.ch.offs| == n + 1 && t.recs[n] == NewRec(s, key, data, ptr)
      && t.ch.own[n] < 0 && t.dat == s.dat + (data + [NEWLINE])
      && t.ch.offs[n] == |Image(s.ch.heads, s.recs)| && Data(t.dat, t.recs[n]) == data
  {
    hide DbStore.Valid, RecsOk, KeysOk, DataOk, WellFormed, RecOff, Image, Bindings;
    var r, u := NewRec(s, key, data, ptr), s.(dat := s.dat + (data + [NEWLINE]));
    BelowEnd(s);
    ValidShape(s);
    AppendData(s, data + [NEWLINE]);
    PositiveFields(r);
    AddRecValid(u, r);
    ValidIsRecsOk(s);
    ValidIsRecsOk(u);
    AddRecRecs(u, r);
  }

  lemma ValidIsRecsOk(s: Store)
    requires Valid(s)
    ensures RecsOk(s)
  {
  }

  lemma PositiveFields(r: Rec)
    requires WellFormed(r)
    ensures 0 <= r.datoff && 0 < r.datlen
  {
  }

  lemma BelowEnd(s: Store)
    requires Valid(s)
    ensures forall x :: 0 <= x < |s.recs| ==> s.recs[x].datoff + s.recs[x].datlen <= |s.dat|
  {
  }

  lemma GrownClean(s: Store, key: seq<byte>, data: seq<byte>, ptr: int)
    requires RecsOk(s) && Clean(s)
    ensures CleanBut(Grown(s, key, data, ptr), |s.recs|)
  {
  }

  lemma GrownImage(s: Store, key: seq<byte>, data: seq<byte>, ptr: int)
    requires Valid(s)
    ensures RecsOk(s)
    ensures var f := Image(s.ch.heads, s.recs);
      Splice(f, |f|, Encode(NewRec(s, key, data, ptr)))
      == Image(Grown(s, key, data, ptr).ch.heads, Grown(s, key, data, ptr).recs)
  {
    AppendRec(s.ch.heads, s.recs, NewRec(s, key, data, ptr));
  }

  lemma RegionOf(s: Store, j: nat)
    requires Valid(s) && j < |s.recs|
    ensures 0 <= s.recs[j].datoff && 0 < s.recs[j].datlen && s.recs[j].datoff + s.recs[j].datlen <= |s.dat|
  {
  }

  lemma RecordFacts(s: Store, k: nat)
    requires Valid(s) && k < |s.recs|
    ensures |s.ch.heads| == NLISTS && |s.ch.offs| == |s.recs| && s.ch.offs[k] == RecOff(s.ch.heads, s.recs, k)
    ensures s.recs[k].ptr >= 0 && 0 <= s.recs[k].datoff && 0 < s.recs[k].datlen
    ensures s.recs[k].datoff + s.recs[k].datlen <= |s.dat|
    ensures s.dat[s.recs[k].datoff + s.recs[k].datlen - 1] == NEWLINE
  {
    assert WellFormed(s.recs[k]);
  }

  lemma PtrInRange(s: Store, i: nat)
    requires Valid(s) && i < NLISTS
    ensures |s.ch.heads| == NLISTS && 0 <= s.ch.heads[i] <= PTR_MAX
  {
  }

  lemma HeadOffsetIn(s: Store, i: nat)
    requires Valid(s) && i < NLISTS
    ensures PTR_SZ * i <= |Image(s.ch.heads, s.recs)|
    ensures forall j :: 0 <= j < |s.recs| ==> 0 < s.ch.offs[j]
  {
    ReadHead(s.ch.heads, s.recs, i);
  }

  lemma ListInRange(s: Store, i: nat)
    requires Valid(s) && i < NLISTS
    ensures forall b :: 0 <= b < |s.ch.lists[i]| ==> s.ch.lists[i][b] < |s.ch.offs|
  {
  }

  lemma RewriteClean(s: Store, j: nat, data: seq<byte>, key: seq<byte>, ptr: int)
    requires Valid(s) && j < |s.recs| && CleanBut(s, j) && |data| + 1 == s.recs[j].datlen
    requires |s.ch.ptrs| == |s.recs|
    ensures CleanBut(Rewrite(s.(dat := Splice(s.dat, s.recs[j].datoff, data + [NEWLINE])), j, key, ptr), j)
  {
  }
}
