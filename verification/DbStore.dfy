/** What the two database files mean: records on hash chains and on the free
    list, the data each record owns, and the map from keys to data. */
module DbStore {
  import opened Values
  import opened Ascii
  import opened IndexCodec
  import opened IndexFile
  import C = Chains

  // ---- Hashing --------------------------------------------------------------

  const ULONG := 0x1_0000_0000_0000_0000

  /** A byte as a signed `char`. */
  function Char(b: byte): int { if b < 128 then b else b - 256 }

  function HashSum(key: seq<byte>): int {
    if key == [] then 0 else HashSum(key[..|key| - 1]) + Char(key[|key| - 1]) * |key|
  }

  /** Each character times its 1-based position, summed in an unsigned long. */
  function Hash(key: seq<byte>): (h: nat)
    ensures h < NHASH
  {
    HashSum(key) % ULONG % NHASH
  }

  /** The list a live record with this key belongs on. */
  function ChainOf(key: seq<byte>): (i: nat)
    ensures 1 <= i < NLISTS
  {
    Hash(key) + 1
  }

  // ---- The store ------------------------------------------------------------

  /** recs are the index records in file order; at says which of them holds a
      key. */
  datatype Store = Store(ch: C.Chains, recs: seq<Rec>, at: map<seq<byte>, nat>, dat: seq<byte>)

  const FREE := 0

  ghost predicate Blank(key: seq<byte>) { forall i :: 0 <= i < |key| ==> key[i] == SPACE }

  /** The chain structure is that of the records in the index file. */
  ghost predicate RecsOk(s: Store) {
    && C.Good(s.ch) && |s.ch.lists| == NLISTS && |s.recs| == |s.ch.ptrs|
    && GoodPtrs(s.ch.heads) && GoodRecs(s.recs)
    && (forall j :: 0 <= j < |s.recs| ==> s.recs[j].ptr == s.ch.ptrs[j])
    && (forall j {:trigger RecOff(s.ch.heads, s.recs, j)} :: 0 <= j < |s.recs| ==>
          s.ch.offs[j] == RecOff(s.ch.heads, s.recs, j))
    && (forall j :: 0 <= j < |s.recs| && s.ch.own[j] >= 0 ==> s.ch.offs[j] <= PTR_MAX)
  }

  /** Live records are exactly those that `at` names, each on the chain its key
      hashes to; free records have blank keys. */
  ghost predicate KeysOk(own: seq<int>, recs: seq<Rec>, at: map<seq<byte>, nat>) {
    && |own| == |recs|
    && (forall k :: k in at ==> at[k] < |recs| && recs[at[k]].key == k && own[at[k]] == ChainOf(k))
    && (forall j :: 0 <= j < |recs| && own[j] > FREE ==> recs[j].key in at && at[recs[j].key] == j)
    && (forall j :: 0 <= j < |recs| && own[j] == FREE ==> Blank(recs[j].key))
  }

  ghost predicate Apart(r: Rec, q: Rec) {
    r.datoff + r.datlen <= q.datoff || q.datoff + q.datlen <= r.datoff
  }

  /** Every record has a region of the data file to itself, ended by a newline. */
  ghost predicate DataOk(recs: seq<Rec>, dat: seq<byte>) {
    && (forall j :: 0 <= j < |recs| ==>
          && 0 <= recs[j].datoff && 0 < recs[j].datlen && recs[j].datoff + recs[j].datlen <= |dat|
          && dat[recs[j].datoff + recs[j].datlen - 1] == NEWLINE)
    && (forall j, k :: 0 <= j < k < |recs| ==> Apart(recs[j], recs[k]))
  }

  ghost predicate Valid(s: Store) {
    RecsOk(s) && KeysOk(s.ch.own, s.recs, s.at) && DataOk(s.recs, s.dat)
  }

  /** The data of a record, without its newline. */
  ghost function Data(dat: seq<byte>, r: Rec): seq<byte>
    requires 0 <= r.datoff && 0 < r.datlen && r.datoff + r.datlen <= |dat|
  {
    dat[r.datoff..r.datoff + r.datlen - 1]
  }

  ghost function Bindings(recs: seq<Rec>, at: map<seq<byte>, nat>, dat: seq<byte>): map<seq<byte>, seq<byte>>
    requires DataOk(recs, dat) && forall k :: k in at ==> at[k] < |recs|
  {
    map k | k in at :: Data(dat, recs[at[k]])
  }

  /** The map the database stands for. */
  ghost function Contents(s: Store): map<seq<byte>, seq<byte>>
    requires Valid(s)
  {
    Bindings(s.recs, s.at, s.dat)
  }

  /** The data regions follow one another from the start of the file to its
      end. */
  ghost predicate Gapless(recs: seq<Rec>, dat: seq<byte>) {
    && (|recs| == 0 ==> dat == [])
    && (|recs| > 0 ==> recs[0].datoff == 0 && recs[|recs| - 1].datoff + recs[|recs| - 1].datlen == |dat|)
    && (forall j, k :: 0 <= j < |recs| && k == j + 1 < |recs| ==> recs[k].datoff == recs[j].datoff + recs[j].datlen)
  }

  /** No record is on no list, and the data file has no gap. */
  ghost predicate Clean(s: Store) {
    (forall j :: 0 <= j < |s.ch.own| ==> s.ch.own[j] >= 0) && Gapless(s.recs, s.dat)
  }

  /** The shape of a valid store, without its contents. */
  lemma ValidShape(s: Store)
    requires Valid(s)
    ensures C.Good(s.ch) && |s.ch.lists| == |s.ch.heads| == NLISTS
    ensures |s.recs| == |s.ch.offs| == |s.ch.own| == |s.ch.ptrs|
  {
  }

  /** A key is in the database if and only if some record of its chain holds
      it. */
  lemma OnChain(s: Store, key: seq<byte>)
    requires Valid(s)
    ensures var l := s.ch.lists[ChainOf(key)];
      && (forall b :: 0 <= b < |l| ==> l[b] < |s.recs|)
      && (key in s.at <==> exists b :: 0 <= b < |l| && s.recs[l[b]].key == key)
  {
    var l := s.ch.lists[ChainOf(key)];
    forall b | 0 <= b < |l|
      ensures s.ch.own[l[b]] == ChainOf(key)
    {
    }
    if key in s.at {
      assert s.ch.own[s.at[key]] == ChainOf(key);
    }
  }

  lemma ValidData(s: Store)
    requires Valid(s)
    ensures DataOk(s.recs, s.dat)
  {
  }

  lemma ContentsAre(s: Store)
    requires Valid(s)
    ensures Contents(s).Keys == s.at.Keys
    ensures forall k :: k in s.at ==> s.at[k] < |s.recs|
    ensures forall k :: k in s.at ==> var r := s.recs[s.at[k]];
      && 0 <= r.datoff && 0 < r.datlen && r.datoff + r.datlen <= |s.dat| && s.dat[r.datoff + r.datlen - 1] == NEWLINE
      && Contents(s)[k] == Data(s.dat, r)
  {
    hide RecsOk, ChainOf, Data, Blank;
  }

  /** The record a chain walk finds is the one that holds the key. */
  lemma FoundIsAt(s: Store, key: seq<byte>, a: nat)
    requires Valid(s) && a < |s.ch.lists[ChainOf(key)]|
    ensures s.ch.lists[ChainOf(key)][a] < |s.recs|
    ensures s.recs[s.ch.lists[ChainOf(key)][a]].key == key ==> key in s.at && s.at[key] == s.ch.lists[ChainOf(key)][a]
  {
    assert s.ch.own[s.ch.lists[ChainOf(key)][a]] == ChainOf(key);
  }

  // ---- The plain map --------------------------------------------------------

  type Map = map<seq<byte>, seq<byte>>

  datatype Flag = INSERT | REPLACE | STORE | OTHER

  /** What `db_store` returns on a plain map. */
  function StoreCode(m: Map, key: seq<byte>, flag: Flag): int {
    match flag
    case OTHER => -1
    case INSERT => if key in m then 1 else 0
    case REPLACE => if key in m then 0 else -1
    case STORE => 0
  }

  /** The plain map afterwards. */
  function StoreMap(m: Map, key: seq<byte>, data: seq<byte>, flag: Flag): Map {
    if StoreCode(m, key, flag) == 0 then m[key := data] else m
  }

  predicate DataLengthOk(data: seq<byte>) { DATLEN_MIN <= |data| + 1 <= DATLEN_MAX }

  /** Some free record has exactly these sizes. */
  ghost predicate HasFree(s: Store, keylen: nat, datlen: nat)
    requires Valid(s)
  {
    exists b :: 0 <= b < |s.ch.lists[FREE]| && FreeFits(s, b, keylen, datlen)
  }

  ghost predicate FreeFits(s: Store, b: nat, keylen: nat, datlen: nat)
    requires Valid(s) && b < |s.ch.lists[FREE]|
  {
    assert s.ch.own[s.ch.lists[FREE][b]] == FREE;
    var r := s.recs[s.ch.lists[FREE][b]];
    |r.key| == keylen && r.datlen == datlen
  }

  /** `db_store` has to append: the key is new and no free record fits, or the
      key is bound to data of another length. */
  ghost predicate NeedsAppend(s: Store, key: seq<byte>, data: seq<byte>)
    requires Valid(s)
  {
    if key in s.at then s.recs[s.at[key]].datlen != |data| + 1 else !HasFree(s, |key|, |data| + 1)
  }

  ghost function Fresh(): Store {
    Store(C.Chains(seq(NLISTS, _ => 0), [], [], [], seq(NLISTS, _ => [])), [], map[], [])
  }

  lemma FreshValid()
    ensures Valid(Fresh()) && Clean(Fresh()) && Contents(Fresh()) == map[]
  {
    C.EmptyGood(NLISTS);
  }

  // ---- Listing --------------------------------------------------------------

  /** The first record from n on whose key is not blank. */
  ghost function NextLive(recs: seq<Rec>, n: nat): (m: nat)
    requires n <= |recs|
    ensures n <= m <= |recs| && (m < |recs| ==> !Blank(recs[m].key))
    decreases |recs| - n
  {
    if n == |recs| || !Blank(recs[n].key) then n else NextLive(recs, n + 1)
  }

  /** Key and data of every record from n on with a key that is not blank, in
      file order. */
  ghost function Listing(recs: seq<Rec>, dat: seq<byte>, n: nat): seq<(seq<byte>, seq<byte>)>
    requires DataOk(recs, dat) && n <= |recs|
    decreases |recs| - n
  {
    var m := NextLive(recs, n);
    if m == |recs| then [] else [(recs[m].key, Data(dat, recs[m]))] + Listing(recs, dat, m + 1)
  }

  lemma {:induction false} NextLiveSkips(recs: seq<Rec>, n: nat, x: nat)
    requires n <= |recs| && n <= x < NextLive(recs, n)
    ensures Blank(recs[x].key)
    decreases |recs| - n
  {
    if n < x {
      NextLiveSkips(recs, n + 1, x);
    }
  }

  /** Whose record each listed pair is. */
  lemma {:induction false} ListedFrom(recs: seq<Rec>, dat: seq<byte>, n: nat, p: nat) returns (j: nat)
    requires DataOk(recs, dat) && n <= |recs| && p < |Listing(recs, dat, n)|
    ensures n + p <= j < |recs| && !Blank(recs[j].key)
    ensures Listing(recs, dat, n)[p] == (recs[j].key, Data(dat, recs[j]))
    decreases |recs| - n
  {
    var m := NextLive(recs, n);
    if p == 0 {
      j := m;
    } else {
      j := ListedFrom(recs, dat, m + 1, p - 1);
    }
  }

  /** Every record with a key that is not blank is listed. */
  lemma {:induction false} IsListed(recs: seq<Rec>, dat: seq<byte>, n: nat, j: nat) returns (p: nat)
    requires DataOk(recs, dat) && n <= j < |recs| && !Blank(recs[j].key)
    ensures p < |Listing(recs, dat, n)| && Listing(recs, dat, n)[p] == (recs[j].key, Data(dat, recs[j]))
    decreases |recs| - n
  {
    var m := NextLive(recs, n);
    if j < m {
      NextLiveSkips(recs, n, j);
    } else if j == m {
      p := 0;
    } else {
      var q := IsListed(recs, dat, m + 1, j);
      p := q + 1;
    }
  }

  /** Two positions of a listing come from two records. */
  lemma {:induction false} ListedApart(recs: seq<Rec>, dat: seq<byte>, n: nat, p: nat, q: nat) returns (j: nat, k: nat)
    requires DataOk(recs, dat) && n <= |recs| && p < q < |Listing(recs, dat, n)|
    ensures j < k < |recs| && !Blank(recs[j].key) && !Blank(recs[k].key)
    ensures Listing(recs, dat, n)[p].0 == recs[j].key && Listing(recs, dat, n)[q].0 == recs[k].key
    decreases |recs| - n
  {
    var m := NextLive(recs, n);
    if p == 0 {
      j := m;
      k := ListedFrom(recs, dat, m + 1, q - 1);
    } else {
      j, k := ListedApart(recs, dat, m + 1, p - 1, q - 1);
    }
  }

  /** The two records of two listed positions, the other way round. */
  lemma {:induction false} BothListed(recs: seq<Rec>, dat: seq<byte>, n: nat, j: nat, k: nat) returns (p: nat, q: nat)
    requires DataOk(recs, dat) && n <= j < k < |recs| && !Blank(recs[j].key) && !Blank(recs[k].key)
    ensures p < q < |Listing(recs, dat, n)|
    ensures Listing(recs, dat, n)[p].0 == recs[j].key && Listing(recs, dat, n)[q].0 == recs[k].key
    decreases |recs| - n
  {
    var m := NextLive(recs, n);
    if j < m {
      NextLiveSkips(recs, n, j);
    } else if j == m {
      p := 0;
      var x := IsListed(recs, dat, m + 1, k);
      q := x + 1;
    } else {
      var x, y := BothListed(recs, dat, m + 1, j, k);
      p, q := x + 1, y + 1;
    }
  }

  /** l lists every binding of m, no other, and no key twice. */
  ghost predicate Lists(l: seq<(seq<byte>, seq<byte>)>, m: Map) {
    && (forall k, v :: (k, v) in l <==> k in m && m[k] == v)
    && (forall p, q :: 0 <= p < q < |l| ==> l[p].0 != l[q].0)
  }

  /** The bindings whose keys are not all blanks. */
  ghost function Shown(m: Map): Map {
    map k | k in m && !Blank(k) :: m[k]
  }

  /** No record off the lists has a key that is not blank. */
  ghost predicate Unstrayed(s: Store) {
    forall j :: 0 <= j < |s.recs| && j < |s.ch.own| && s.ch.own[j] < 0 ==> Blank(s.recs[j].key)
  }

  /** What a walk through the file lists: the bindings whose keys are not blank, if and
      only if no stray record has such a key; all bindings, if and only if moreover no
      key is blank. */
  lemma ListingIsContents(s: Store)
    requires Valid(s)
    ensures DataOk(s.recs, s.dat)
    ensures Lists(Listing(s.recs, s.dat, 0), Shown(Contents(s))) <==> Unstrayed(s)
    ensures Lists(Listing(s.recs, s.dat, 0), Contents(s)) <==>
      Unstrayed(s) && forall k :: k in Contents(s) ==> !Blank(k)
  {
    hide Valid, Contents, Listing, Lists, Unstrayed, Blank;
    ValidData(s);
    var l, m := Listing(s.recs, s.dat, 0), Contents(s);
    if Unstrayed(s) {
      ListsShown(s);
    } else {
      StrayListed(s);
    }
    if k :| k in m && Blank(k) {
      BlankUnlisted(s, k);
    } else {
      assert Shown(m) == m;
    }
  }

  lemma ListsShown(s: Store)
    requires Valid(s) && Unstrayed(s)
    ensures DataOk(s.recs, s.dat) && Lists(Listing(s.recs, s.dat, 0), Shown(Contents(s)))
  {
    hide Valid, Contents, Blank, Listing, Unstrayed, Shown;
    ValidData(s);
    var l, m := Listing(s.recs, s.dat, 0), Shown(Contents(s));
    forall k, v
      ensures (k, v) in l <==> k in m && m[k] == v
    {
      ListedOne(s, k, v);
    }
    forall p, q | 0 <= p < q < |l|
      ensures l[p].0 != l[q].0
    {
      ListedOnce(s, p, q);
    }
  }

  lemma ListedOne(s: Store, k: seq<byte>, v: seq<byte>)
    requires Valid(s) && Unstrayed(s)
    ensures DataOk(s.recs, s.dat)
    ensures (k, v) in Listing(s.recs, s.dat, 0) <==> k in Shown(Contents(s)) && Shown(Contents(s))[k] == v
  {
    hide Valid, Contents, Blank, Data, Listing, Unstrayed;
    ValidData(s);
    var l, m := Listing(s.recs, s.dat, 0), Shown(Contents(s));
    NotBlankIsLive(s);
    ContentsAre(s);
    if (k, v) in l {
      var p :| 0 <= p < |l| && l[p] == (k, v);
      var j := ListedFrom(s.recs, s.dat, 0, p);
    }
    if k in m && m[k] == v {
      var p := IsListed(s.recs, s.dat, 0, s.at[k]);
    }
  }

  lemma ListedOnce(s: Store, p: nat, q: nat)
    requires Valid(s) && Unstrayed(s) && DataOk(s.recs, s.dat) && p < q < |Listing(s.recs, s.dat, 0)|
    ensures Listing(s.recs, s.dat, 0)[p].0 != Listing(s.recs, s.dat, 0)[q].0
  {
    hide Valid, Blank, Data, Listing, Unstrayed, DataOk;
    NotBlankIsLive(s);
    var j, k := ListedApart(s.recs, s.dat, 0, p, q);
  }

  lemma NotBlankIsLive(s: Store)
    requires Valid(s) && Unstrayed(s)
    ensures forall j :: 0 <= j < |s.recs| && !Blank(s.recs[j].key) ==> s.recs[j].key in s.at && s.at[s.recs[j].key] == j
    ensures forall k :: k in s.at ==> s.at[k] < |s.recs| && s.recs[s.at[k]].key == k
  {
    hide RecsOk, Blank, ChainOf;
  }

  /** A stray record is listed as a binding that is not there, or beside the one that is. */
  lemma StrayListed(s: Store)
    requires Valid(s) && !Unstrayed(s)
    ensures DataOk(s.recs, s.dat)
    ensures !Lists(Listing(s.recs, s.dat, 0), Contents(s)) && !Lists(Listing(s.recs, s.dat, 0), Shown(Contents(s)))
  {
    hide Valid, Contents, Blank, Listing, Data;
    ValidData(s);
    var j :| 0 <= j < |s.recs| && j < |s.ch.own| && s.ch.own[j] < 0 && !Blank(s.recs[j].key);
    var l, key := Listing(s.recs, s.dat, 0), s.recs[j].key;
    ContentsAre(s);
    var p := IsListed(s.recs, s.dat, 0, j);
    assert (key, Data(s.dat, s.recs[j])) in l;
    if key in s.at {
      LiveElsewhere(s, j);
      var x, y;
      if j < s.at[key] {
        x, y := BothListed(s.recs, s.dat, 0, j, s.at[key]);
      } else {
        x, y := BothListed(s.recs, s.dat, 0, s.at[key], j);
      }
      assert l[x].0 == l[y].0;
    }
  }

  lemma LiveElsewhere(s: Store, j: nat)
    requires Valid(s) && j < |s.recs| && j < |s.ch.own| && s.ch.own[j] < 0 && s.recs[j].key in s.at
    ensures var i := s.at[s.recs[j].key]; i < |s.recs| && i != j && s.recs[i].key == s.recs[j].key
  {
    hide RecsOk, Blank;
  }

  lemma BlankUnlisted(s: Store, k: seq<byte>)
    requires Valid(s) && k in Contents(s) && Blank(k)
    ensures DataOk(s.recs, s.dat) && !Lists(Listing(s.recs, s.dat, 0), Contents(s))
  {
    hide Valid, Contents, Blank, Listing, Data;
    ValidData(s);
    var l := Listing(s.recs, s.dat, 0);
    if (k, Contents(s)[k]) in l {
      var p :| 0 <= p < |l| && l[p] == (k, Contents(s)[k]);
      var j := ListedFrom(s.recs, s.dat, 0, p);
    }
  }

  /** With every record on a list there is no stray one. */
  lemma CleanUnstrayed(s: Store)
    requires Valid(s) && Clean(s)
    ensures Unstrayed(s)
  {
    hide Valid;
    ValidShape(s);
  }

  // ---- Runs -----------------------------------------------------------------

  datatype Op = DoStore(key: seq<byte>, data: seq<byte>,
    flag: Flag) | DoDelete(key: seq<byte>) | DoFetch(key: seq<byte>)

  datatype Reply = Code(rc: int) | Value(value: Option<seq<byte>>)

  /** What callers of the library must keep to. */
  ghost predicate Legal(op: Op) {
    op.DoStore? ==> CString(op.key) && SEP !in op.key && CString(op.data)
  }

  /** The plain map: what an operation replies and what it leaves. */
  function MapReply(m: Map, op: Op): Reply {
    match op
    case DoStore(key, _, flag) => Code(StoreCode(m, key, flag))
    case DoDelete(key) => Code(if key in m then 0 else -1)
    case DoFetch(key) => Value(if key in m then Some(m[key]) else None)
  }

  function MapAfter(m: Map, op: Op): Map {
    match op
    case DoStore(key, data, flag) => StoreMap(m, key, data, flag)
    case DoDelete(key) => m - {key}
    case DoFetch(_) => m
  }

  function MapRun(ops: seq<Op>): (r: (seq<Reply>, Map)) {
    if ops == [] then ([], map[]) else
      var (replies, m) := MapRun(ops[..|ops| - 1]);
      (replies + [MapReply(m, ops[|ops| - 1])], MapAfter(m, ops[|ops| - 1]))
  }
}
