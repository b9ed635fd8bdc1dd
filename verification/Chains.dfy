/** Singly linked lists whose links are file offsets: every record carries one
    pointer cell, every list has one head cell, and 0 ends a list. */
module Chains {

  /** heads[i] and ptrs[j] are the pointer cells, offs[j] is where record j
      lies. own[j] is the list record j is on, or negative if it is on none;
      lists[i] spells list i out from its head. own and lists are what the cells are meant to say. */
  datatype Chains = Chains(heads: seq<int>, ptrs: seq<int>, offs: seq<int>, own: seq<int>, lists: seq<seq<nat>>)

  const UNLISTED := -1

  ghost predicate Shape(c: Chains) {
    && |c.ptrs| == |c.offs| == |c.own|
    && |c.heads| == |c.lists|
  }

  /** The pointer to position a of a list: 0 past its end. */
  ghost function PtrTo(offs: seq<int>, l: seq<nat>, a: nat): int
    requires forall b :: 0 <= b < |l| ==> l[b] < |offs|
  {
    if a < |l| then offs[l[a]] else 0
  }

  ghost predicate NoDup(l: seq<nat>) {
    forall a, b :: 0 <= a < b < |l| ==> l[a] != l[b]
  }

  /** lists and own agree: every record is on the one list own names, or on
      none, and no list visits a record twice (so no list has a cycle). */
  ghost predicate Placed(c: Chains)
    requires Shape(c)
  {
    && (forall i, a :: 0 <= i < |c.lists| && 0 <= a < |c.lists[i]| ==>
          c.lists[i][a] < |c.own| && c.own[c.lists[i][a]] == i)
    && (forall j :: 0 <= j < |c.own| && c.own[j] >= 0 ==> c.own[j] < |c.lists| && j in c.lists[c.own[j]])
    && (forall i :: 0 <= i < |c.lists| ==> NoDup(c.lists[i]))
  }

  /** The cells of list i spell it. */
  ghost predicate LinkedList(c: Chains, i: nat)
    requires Shape(c) && Placed(c) && i < |c.lists|
  {
    && c.heads[i] == PtrTo(c.offs, c.lists[i], 0)
    && forall a :: 0 <= a < |c.lists[i]| ==> c.ptrs[c.lists[i][a]] == PtrTo(c.offs, c.lists[i], a + 1)
  }

  ghost predicate Good(c: Chains) {
    && Shape(c) && Placed(c)
    && (forall j :: 0 <= j < |c.offs| ==> c.offs[j] > 0)
    && (forall i :: 0 <= i < |c.lists| ==> LinkedList(c, i))
  }

  /** One step along list i. */
  lemma Follow(c: Chains, i: nat, a: nat)
    requires Good(c) && i < |c.lists| && a <= |c.lists[i]|
    ensures c.heads[i] == PtrTo(c.offs, c.lists[i], 0)
    ensures PtrTo(c.offs, c.lists[i], a) == 0 <==> a == |c.lists[i]|
    ensures a < |c.lists[i]| ==> var j := c.lists[i][a];
      j < |c.own| && c.own[j] == i && c.offs[j] > 0 && c.ptrs[j] == PtrTo(c.offs, c.lists[i], a + 1)
  {
    assert LinkedList(c, i);
  }

  // ---- Taking a record off a list -------------------------------------------

  function Without(l: seq<nat>, a: nat): (r: seq<nat>)
    requires a < |l|
    ensures |r| == |l| - 1
    ensures forall b :: 0 <= b < a ==> r[b] == l[b]
    ensures forall b :: a <= b < |r| ==> r[b] == l[b + 1]
  {
    l[..a] + l[a + 1..]
  }

  /** Write the pointer of the record at position a of list i into the cell that
      points to that record, which then is owned by o. */
  ghost function Unlink(c: Chains, i: nat, a: nat, o: int): Chains
    requires Shape(c) && Placed(c) && i < |c.lists| && a < |c.lists[i]|
  {
    var l, j := c.lists[i], c.lists[i][a];
    Chains(if a == 0 then c.heads[i := c.ptrs[j]] else c.heads,
           if a == 0 then c.ptrs else c.ptrs[l[a - 1] := c.ptrs[j]],
           c.offs, c.own[j := o], c.lists[i := Without(l, a)])
  }

  lemma UnlinkPlaced(c: Chains, i: nat, a: nat, o: int)
    requires Shape(c) && Placed(c) && i < |c.lists| && a < |c.lists[i]| && o < 0
    ensures Shape(Unlink(c, i, a, o)) && Placed(Unlink(c, i, a, o))
  {
    var d, j, l := Unlink(c, i, a, o), c.lists[i][a], c.lists[i];
    var m := d.lists[i];
    forall k, b | 0 <= k < |d.lists| && 0 <= b < |d.lists[k]|
      ensures d.lists[k][b] < |d.own| && d.own[d.lists[k][b]] == k
    {
      if k == i {
        assert m[b] == if b < a then l[b] else l[b + 1];
      } else {
        assert c.own[c.lists[k][b]] == k;
      }
    }
    forall x | 0 <= x < |d.own| && d.own[x] >= 0
      ensures x in d.lists[d.own[x]]
    {
      assert x in c.lists[c.own[x]];
      if c.own[x] == i {
        var b :| 0 <= b < |l| && l[b] == x;
        assert m[if b < a then b else b - 1] == x;
      }
    }
    assert NoDup(l);
    assert NoDup(m);
  }

  lemma UnlinkLinked(c: Chains, i: nat, a: nat, o: int, k: nat)
    requires Shape(c) && Placed(c) && i < |c.lists| && a < |c.lists[i]| && k < |c.lists|
    requires LinkedList(c, i) && LinkedList(c, k)
    requires Shape(Unlink(c, i, a, o)) && Placed(Unlink(c, i, a, o))
    ensures LinkedList(Unlink(c, i, a, o), k)
  {
    if k == i {
      UnlinkSame(c, i, a, o);
    } else {
      UnlinkOther(c, i, a, o, k);
    }
  }

  lemma UnlinkSame(c: Chains, i: nat, a: nat, o: int)
    requires Shape(c) && Placed(c) && i < |c.lists| && a < |c.lists[i]| && LinkedList(c, i)
    requires Shape(Unlink(c, i, a, o)) && Placed(Unlink(c, i, a, o))
    ensures LinkedList(Unlink(c, i, a, o), i)
  {
    var d, l := Unlink(c, i, a, o), c.lists[i];
    assert NoDup(l);
    var m := d.lists[i];
    forall b | 0 <= b < |m|
      ensures d.ptrs[m[b]] == PtrTo(d.offs, m, b + 1)
    {
      assert m[b] == if b < a then l[b] else l[b + 1];
    }
  }

  lemma UnlinkOther(c: Chains, i: nat, a: nat, o: int, k: nat)
    requires Shape(c) && Placed(c) && i < |c.lists| && a < |c.lists[i]| && k < |c.lists| && k != i && LinkedList(c, k)
    requires Shape(Unlink(c, i, a, o)) && Placed(Unlink(c, i, a, o))
    ensures LinkedList(Unlink(c, i, a, o), k)
  {
    var d, l := Unlink(c, i, a, o), c.lists[i];
    assert a > 0 ==> c.own[l[a - 1]] == i;
    forall b | 0 <= b < |d.lists[k]|
      ensures d.ptrs[d.lists[k][b]] == c.ptrs[c.lists[k][b]]
    {
      assert c.own[c.lists[k][b]] == k;
    }
  }

  lemma UnlinkGood(c: Chains, i: nat, a: nat, o: int)
    requires Good(c) && i < |c.lists| && a < |c.lists[i]| && o < 0
    ensures Good(Unlink(c, i, a, o))
  {
    UnlinkPlaced(c, i, a, o);
    assert LinkedList(c, i);
    forall k | 0 <= k < |c.lists|
      ensures LinkedList(Unlink(c, i, a, o), k)
    {
      UnlinkLinked(c, i, a, o, k);
    }
  }

  // ---- Putting a record on a list -------------------------------------------

  /** Point record j at the first record of list i, and the head of i at j. */
  ghost function Push(c: Chains, i: nat, j: nat): Chains
    requires Shape(c) && i < |c.lists| && j < |c.own|
  {
    Chains(c.heads[i := c.offs[j]], c.ptrs[j := c.heads[i]], c.offs, c.own[j := i],
           c.lists[i := [j] + c.lists[i]])
  }

  lemma PushPlaced(c: Chains, i: nat, j: nat)
    requires Shape(c) && Placed(c) && i < |c.lists| && j < |c.own| && c.own[j] < 0
    ensures Shape(Push(c, i, j)) && Placed(Push(c, i, j))
  {
    var d, l := Push(c, i, j), c.lists[i];
    var m := d.lists[i];
    forall k, b | 0 <= k < |d.lists| && 0 <= b < |d.lists[k]|
      ensures d.lists[k][b] < |d.own| && d.own[d.lists[k][b]] == k
    {
      if k == i {
        assert m[b] == if b == 0 then j else l[b - 1];
      } else {
        assert c.own[c.lists[k][b]] == k;
      }
    }
    forall x | 0 <= x < |d.own| && d.own[x] >= 0
      ensures x in d.lists[d.own[x]]
    {
      if x == j {
        assert m[0] == j;
      } else {
        assert x in c.lists[c.own[x]];
        if c.own[x] == i {
          var b :| 0 <= b < |l| && l[b] == x;
          assert m[b + 1] == x;
        }
      }
    }
    assert NoDup(l);
    assert NoDup(m) by {
      forall b | 0 <= b < |l|
        ensures l[b] != j
      {
        assert c.own[c.lists[i][b]] == i;
      }
    }
  }

  lemma PushLinked(c: Chains, i: nat, j: nat, k: nat)
    requires Shape(c) && Placed(c) && i < |c.lists| && j < |c.own| && c.own[j] < 0 && k < |c.lists|
    requires LinkedList(c, i) && LinkedList(c, k)
    requires Shape(Push(c, i, j)) && Placed(Push(c, i, j))
    ensures LinkedList(Push(c, i, j), k)
  {
    var d, l := Push(c, i, j), c.lists[i];
    forall b | 0 <= b < |c.lists[k]|
      ensures c.lists[k][b] != j
    {
      assert c.own[c.lists[k][b]] == k;
    }
    if k == i {
      var m := d.lists[i];
      forall b | 0 <= b < |m|
        ensures d.ptrs[m[b]] == PtrTo(d.offs, m, b + 1)
      {
        assert b > 0 ==> m[b] == l[b - 1];
      }
    }
  }

  lemma PushGood(c: Chains, i: nat, j: nat)
    requires Good(c) && i < |c.lists| && j < |c.own| && c.own[j] < 0
    ensures Good(Push(c, i, j))
  {
    PushPlaced(c, i, j);
    assert LinkedList(c, i);
    forall k | 0 <= k < |c.lists|
      ensures LinkedList(Push(c, i, j), k)
    {
      PushLinked(c, i, j, k);
    }
  }

  /** The pointer of a record on no list is nobody's business. */
  lemma SetPtrGood(c: Chains, j: nat, ptr: int)
    requires Good(c) && j < |c.own| && c.own[j] < 0
    ensures Good(c.(ptrs := c.ptrs[j := ptr]))
  {
    var d := c.(ptrs := c.ptrs[j := ptr]);
    assert Placed(d);
    forall k | 0 <= k < |c.lists|
      ensures LinkedList(d, k)
    {
      assert LinkedList(c, k);
      forall a | 0 <= a < |c.lists[k]|
        ensures c.lists[k][a] != j
      {
        assert c.own[c.lists[k][a]] == k;
      }
    }
  }

  // ---- A new record ---------------------------------------------------------

  ghost function Extend(c: Chains, ptr: int, off: int, o: int): Chains {
    Chains(c.heads, c.ptrs + [ptr], c.offs + [off], c.own + [o], c.lists)
  }

  lemma ExtendPlaced(c: Chains, ptr: int, off: int, o: int)
    requires Shape(c) && Placed(c) && o < 0
    ensures Shape(Extend(c, ptr, off, o)) && Placed(Extend(c, ptr, off, o))
  {
    var d := Extend(c, ptr, off, o);
    forall i, a | 0 <= i < |d.lists| && 0 <= a < |d.lists[i]|
      ensures d.lists[i][a] < |d.own| && d.own[d.lists[i][a]] == i
    {
      assert c.own[c.lists[i][a]] == i;
    }
  }

  lemma ExtendLinked(c: Chains, ptr: int, off: int, o: int, k: nat)
    requires Shape(c) && Placed(c) && o < 0 && k < |c.lists| && LinkedList(c, k)
    requires Shape(Extend(c, ptr, off, o)) && Placed(Extend(c, ptr, off, o))
    ensures LinkedList(Extend(c, ptr, off, o), k)
  {
    forall a | 0 <= a < |c.lists[k]|
      ensures c.lists[k][a] < |c.own|
    {
      assert c.own[c.lists[k][a]] == k;
    }
  }

  lemma ExtendGood(c: Chains, ptr: int, off: int, o: int)
    requires Good(c) && off > 0 && o < 0
    ensures Good(Extend(c, ptr, off, o))
  {
    ExtendPlaced(c, ptr, off, o);
    forall k | 0 <= k < |c.lists|
      ensures LinkedList(Extend(c, ptr, off, o), k)
    {
      assert LinkedList(c, k);
      ExtendLinked(c, ptr, off, o, k);
    }
  }

  // ---- Lists while a pointer is out of date ---------------------------------

  /** The cell that points to position b of list i. */
  ghost function Cell(c: Chains, i: nat, b: nat): int
    requires Shape(c) && Placed(c) && i < |c.lists| && b <= |c.lists[i]|
  {
    if b == 0 then c.heads[i] else c.ptrs[c.lists[i][b - 1]]
  }

  /** List i is spelled by its cells, except that the one for position a holds
      v. */
  ghost predicate LinkedBut(c: Chains, i: nat, a: nat, v: int)
    requires Shape(c) && Placed(c) && i < |c.lists|
  {
    forall b :: 0 <= b <= |c.lists[i]| ==> Cell(c, i, b) == if b == a then v else PtrTo(c.offs, c.lists[i], b)
  }

  lemma LinkedCells(c: Chains, i: nat, b: nat)
    requires Shape(c) && Placed(c) && i < |c.lists| && b <= |c.lists[i]|
    requires LinkedList(c, i)
    ensures Cell(c, i, b) == PtrTo(c.offs, c.lists[i], b)
  {
    if b > 0 {
      assert c.ptrs[c.lists[i][b - 1]] == PtrTo(c.offs, c.lists[i], (b - 1) + 1);
    }
  }

  lemma CellsLinked(c: Chains, i: nat)
    requires Shape(c) && Placed(c) && i < |c.lists|
    requires forall b :: 0 <= b <= |c.lists[i]| ==> Cell(c, i, b) == PtrTo(c.offs, c.lists[i], b)
    ensures LinkedList(c, i)
  {
    assert Cell(c, i, 0) == PtrTo(c.offs, c.lists[i], 0);
    forall a | 0 <= a < |c.lists[i]|
      ensures c.ptrs[c.lists[i][a]] == PtrTo(c.offs, c.lists[i], a + 1)
    {
      assert Cell(c, i, a + 1) == PtrTo(c.offs, c.lists[i], a + 1);
    }
  }

  /** The record at position a of list i is given to o before any cell of the
      list changes. */
  ghost function Drop(c: Chains, i: nat, a: nat, o: int): Chains
    requires Shape(c) && Placed(c) && i < |c.lists| && a < |c.lists[i]|
  {
    c.(own := c.own[c.lists[i][a] := o], lists := c.lists[i := Without(c.lists[i], a)])
  }

  lemma DropPlaced(c: Chains, i: nat, a: nat, o: int)
    requires Shape(c) && Placed(c) && i < |c.lists| && a < |c.lists[i]| && o < 0
    ensures Shape(Drop(c, i, a, o)) && Placed(Drop(c, i, a, o))
  {
    UnlinkPlaced(c, i, a, o);
    var d, e := Drop(c, i, a, o), Unlink(c, i, a, o);
    assert d.own == e.own && d.lists == e.lists;
  }

  lemma DropLinked(c: Chains, i: nat, a: nat, o: int)
    requires Shape(c) && Placed(c) && i < |c.lists| && a < |c.lists[i]| && LinkedList(c, i)
    requires Shape(Drop(c, i, a, o)) && Placed(Drop(c, i, a, o))
    ensures LinkedBut(Drop(c, i, a, o), i, a, c.offs[c.lists[i][a]])
  {
    var d, l := Drop(c, i, a, o), c.lists[i];
    var m := d.lists[i];
    forall b | 0 <= b <= |m|
      ensures Cell(d, i, b) == if b == a then c.offs[l[a]] else PtrTo(d.offs, m, b)
    {
      if b <= a {
        assert b > 0 ==> m[b - 1] == l[b - 1];
        LinkedCells(c, i, b);
      } else {
        assert m[b - 1] == l[b];
        LinkedCells(c, i, b + 1);
      }
    }
  }

  /** The dropped record still points to what now is at its position. */
  lemma DropNext(c: Chains, i: nat, a: nat, o: int)
    requires Shape(c) && Placed(c) && i < |c.lists| && a < |c.lists[i]| && LinkedList(c, i)
    requires Shape(Drop(c, i, a, o)) && Placed(Drop(c, i, a, o))
    ensures c.ptrs[c.lists[i][a]] == PtrTo(c.offs, Drop(c, i, a, o).lists[i], a)
  {
  }

  /** Write v into the cell for position a of list i. */
  ghost function SetCell(c: Chains, i: nat, a: nat, v: int): Chains
    requires Shape(c) && Placed(c) && i < |c.lists| && a <= |c.lists[i]|
  {
    if a == 0 then c.(heads := c.heads[i := v]) else c.(ptrs := c.ptrs[c.lists[i][a - 1] := v])
  }

  lemma SetCellPlaced(c: Chains, i: nat, a: nat, v: int)
    requires Shape(c) && Placed(c) && i < |c.lists| && a <= |c.lists[i]|
    ensures Shape(SetCell(c, i, a, v)) && Placed(SetCell(c, i, a, v))
  {
  }

  lemma SetCellRestores(c: Chains, i: nat, a: nat, v: int, w: int)
    requires Shape(c) && Placed(c) && i < |c.lists| && a <= |c.lists[i]|
    requires LinkedBut(c, i, a, w) && v == PtrTo(c.offs, c.lists[i], a)
    requires Shape(SetCell(c, i, a, v)) && Placed(SetCell(c, i, a, v))
    ensures LinkedList(SetCell(c, i, a, v), i)
  {
    var d, l := SetCell(c, i, a, v), c.lists[i];
    assert NoDup(l);
    forall b | 0 <= b <= |l|
      ensures Cell(d, i, b) == PtrTo(d.offs, l, b)
    {
      assert Cell(c, i, b) == if b == a then w else PtrTo(c.offs, l, b);
    }
    CellsLinked(d, i);
  }

  /** List i looks the same in d as in c. */
  ghost predicate SameList(c: Chains, d: Chains, i: nat)
    requires Shape(c) && Placed(c) && Shape(d) && Placed(d) && i < |c.lists| && i < |d.lists|
  {
    && d.lists[i] == c.lists[i] && d.heads[i] == c.heads[i]
    && forall a :: 0 <= a < |c.lists[i]| ==>
        d.ptrs[c.lists[i][a]] == c.ptrs[c.lists[i][a]] && d.offs[c.lists[i][a]] == c.offs[c.lists[i][a]]
  }

  lemma SameListLinked(c: Chains, d: Chains, i: nat)
    requires Shape(c) && Placed(c) && Shape(d) && Placed(d) && i < |c.lists| && i < |d.lists|
    requires SameList(c, d, i) && LinkedList(c, i)
    ensures LinkedList(d, i)
  {
    forall b | 0 <= b <= |c.lists[i]|
      ensures Cell(d, i, b) == PtrTo(d.offs, d.lists[i], b)
    {
      LinkedCells(c, i, b);
    }
    CellsLinked(d, i);
  }

  lemma SameListLinkedBut(c: Chains, d: Chains, i: nat, a: nat, v: int)
    requires Shape(c) && Placed(c) && Shape(d) && Placed(d) && i < |c.lists| && i < |d.lists|
    requires SameList(c, d, i) && LinkedBut(c, i, a, v)
    ensures LinkedBut(d, i, a, v)
  {
    forall b | 0 <= b <= |c.lists[i]|
      ensures Cell(d, i, b) == if b == a then v else PtrTo(d.offs, d.lists[i], b)
    {
      assert Cell(c, i, b) == if b == a then v else PtrTo(c.offs, c.lists[i], b);
    }
  }

  /** A fresh file: all heads 0, no records. */
  lemma EmptyGood(n: nat)
    ensures Good(Chains(seq(n, _ => 0), [], [], [], seq(n, _ => [])))
  {
  }
}
