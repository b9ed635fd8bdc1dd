/** Which run of operations ends the process, from the operations alone: the sizes a
    database takes are followed beside the plain map. */
module DbLimits {
  import opened Values
  import opened Ascii
  import opened IndexCodec
  import opened IndexFile
  import opened DbStore
  import opened DbSpace

  /** A store that succeeds has to append. */
  predicate MustAppend(z: Space, m: Map, key: seq<byte>, data: seq<byte>) {
    if key in m then |m[key]| != |data| else (|key|, |data| + 1) !in z.free
  }

  /** A new record can be appended. */
  predicate HasRoom(z: Space, key: seq<byte>, datlen: int) {
    BodyFits(key, z.dat, datlen) && z.idx <= PTR_MAX
  }

  /** The operation ends the process. */
  predicate Halts(z: Space, m: Map, op: Op) {
    && op.DoStore? && op.flag != OTHER
    && (|| !DataLengthOk(op.data)
        || (&& StoreCode(m, op.key, op.flag) == 0 && MustAppend(z, m, op.key, op.data)
            && !HasRoom(z, op.key, |op.data| + 1)))
  }

  /** The map that an operation which ends the process leaves in the files. */
  function MapHalted(m: Map, op: Op): Map
    requires op.DoStore?
  {
    if DataLengthOk(op.data) then m - {op.key} else m
  }

  /** A store that ends the process leaves an index record off the lists whose key is
      not blank: it came as far as the last pointer. */
  ghost predicate Strays(z: Space, op: Op)
    requires op.DoStore?
  {
    DataLengthOk(op.data) && BodyFits(op.key, z.dat, |op.data| + 1) && !Blank(op.key)
  }

  /** The sizes after a store that replies 0. */
  function SpaceStored(z: Space, m: Map, key: seq<byte>, data: seq<byte>): Space {
    if !MustAppend(z, m, key, data) then (if key in m then z else Taken(z, |key|, |data| + 1))
    else Appended(if key in m then Freed(z, |key|, |m[key]| + 1) else z, key, |data| + 1)
  }

  function SpaceAfter(z: Space, m: Map, op: Op): Space {
    match op
    case DoStore(key, data, flag) => if StoreCode(m, key, flag) == 0 then SpaceStored(z, m, key, data) else z
    case DoDelete(key) => if key in m then Freed(z, |key|, |m[key]| + 1) else z
    case DoFetch(_) => z
  }

  function SpaceRun(ops: seq<Op>): Space {
    if ops == [] then Space(multiset{}, FIRST_REC, 0) else
      var before := ops[..|ops| - 1];
      SpaceAfter(SpaceRun(before), MapRun(before).1, ops[|ops| - 1])
  }

  predicate HaltsAt(ops: seq<Op>, i: nat)
    requires i < |ops|
  {
    Halts(SpaceRun(ops[..i]), MapRun(ops[..i]).1, ops[i])
  }

  // ---- A bound that a caller can test ---------------------------------------

  const OVERHEAD := 25 // pointer 7, length 4, separators and newline 3, numbers of up to 7 and 4 digits

  /** What a store can add to the index file, and to the data file. */
  function IdxCost(op: Op): nat {
    if op.DoStore? then OVERHEAD + |op.key| else 0
  }

  function DatCost(op: Op): nat {
    if op.DoStore? then |op.data| + 1 else 0
  }

  function IdxCosts(ops: seq<Op>): nat {
    if ops == [] then 0 else IdxCosts(ops[..|ops| - 1]) + IdxCost(ops[|ops| - 1])
  }

  function DatCosts(ops: seq<Op>): nat {
    if ops == [] then 0 else DatCosts(ops[..|ops| - 1]) + DatCost(ops[|ops| - 1])
  }

  /** Keys and data of the lengths the library takes. */
  predicate Modest(op: Op) {
    op.DoStore? ==> DataLengthOk(op.data) && 1 <= |op.key| <= IDXLEN_MAX - 14
  }

  lemma PrefixCosts(ops: seq<Op>, i: nat)
    requires i <= |ops|
    ensures IdxCosts(ops[..i]) <= IdxCosts(ops) && DatCosts(ops[..i]) <= DatCosts(ops)
    decreases |ops|
  {
    if i < |ops| {
      var n := |ops| - 1;
      assert ops[..n][..i] == ops[..i];
      PrefixCosts(ops[..n], i);
    } else {
      assert ops[..i] == ops;
    }
  }

  lemma SevenDigits(n: int)
    requires 0 <= n <= PTR_MAX
    ensures |Decimal(n)| <= 7
  {
    assert Pow10(7) == 10000000 by {
      assert Pow10(3) == 1000;
      assert Pow10(5) == 100000;
    }
    DigitsFit(n, 7);
  }

  lemma FourDigits(n: int)
    requires 0 <= n <= DATLEN_MAX
    ensures |Decimal(n)| <= 4
  {
    assert Pow10(4) == 10000 by {
      assert Pow10(2) == 100;
    }
    DigitsFit(n, 4);
  }

  lemma ModestBody(key: seq<byte>, datoff: int, datlen: int)
    requires 0 <= datoff <= PTR_MAX && 0 < datlen <= DATLEN_MAX
    ensures |key| + 5 <= |Body(key, datoff, datlen)| <= |key| + 14
  {
    SevenDigits(datoff);
    FourDigits(datlen);
    hide Decimal;
  }

  /** An operation adds at most its cost. */
  lemma CostBound(z: Space, m: Map, op: Op)
    requires Modest(op) && 0 <= z.dat <= PTR_MAX
    ensures var w := SpaceAfter(z, m, op); w.idx <= z.idx + IdxCost(op) && z.dat <= w.dat <= z.dat + DatCost(op)
  {
    hide Body;
    if op.DoStore? {
      ModestBody(op.key, z.dat, |op.data| + 1);
    }
  }

  lemma {:induction false} CostsBound(ops: seq<Op>)
    requires (forall i :: 0 <= i < |ops| ==> Modest(ops[i])) && DatCosts(ops) <= PTR_MAX
    ensures SpaceRun(ops).idx <= FIRST_REC + IdxCosts(ops) && 0 <= SpaceRun(ops).dat <= DatCosts(ops)
  {
    if ops != [] {
      var n := |ops| - 1;
      CostsBound(ops[..n]);
      CostBound(SpaceRun(ops[..n]), MapRun(ops[..n]).1, ops[n]);
    }
  }

  /** A caller whose keys and data have lengths the library takes, and who stores no
      more than the pointers can reach, is never cut off. */
  lemma NeverHalts(ops: seq<Op>)
    requires forall i :: 0 <= i < |ops| ==> Modest(ops[i])
    requires FIRST_REC + IdxCosts(ops) <= PTR_MAX && DatCosts(ops) <= PTR_MAX
    ensures forall i :: 0 <= i < |ops| ==> !HaltsAt(ops, i)
  {
    forall i | 0 <= i < |ops| ensures !HaltsAt(ops, i) {
      PrefixCosts(ops, i);
      assert forall j :: 0 <= j < i ==> Modest(ops[..i][j]) by {
        assert forall j :: 0 <= j < i ==> ops[..i][j] == ops[j];
      }
      CostsBound(ops[..i]);
      ModestOp(SpaceRun(ops[..i]), MapRun(ops[..i]).1, ops[i]);
    }
  }

  lemma ModestOp(z: Space, m: Map, op: Op)
    requires Modest(op) && z.idx <= PTR_MAX && 0 <= z.dat <= PTR_MAX
    ensures !Halts(z, m, op)
  {
    hide Body;
    if op.DoStore? {
      if DataLengthOk(op.data) {
        ModestBody(op.key, z.dat, |op.data| + 1);
      }
    }
  }

  /** Every limit is met by some run: data of no byte, a key too long, and a key of no
      byte with data that is too short. */
  lemma LimitsBite(key: seq<byte>)
    requires |key| > IDXLEN_MAX
    ensures HaltsAt([DoStore([65], [], STORE)], 0)
    ensures HaltsAt([DoStore(key, [65], STORE)], 0)
    ensures HaltsAt([DoStore([], [65], STORE)], 0)
  {
    assert [DoStore([65], [], STORE)][..0] == [];
    assert [DoStore(key, [65], STORE)][..0] == [];
    assert [DoStore([], [65], STORE)][..0] == [];
    assert MapRun([]).1 == map[];
    assert Decimal(0) == [48] && Decimal(2) == [50];
    assert |Body([], 0, 2)| == 5;
    assert |Body(key, 0, 2)| > IDXLEN_MAX;
  }
}
