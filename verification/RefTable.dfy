/** A hash table of reference-counted objects under one lock: every call is one
    critical section, and the object of a last release is freed after it. */
module RefTable {
  import opened Values

  const NHASH := 29
  const ULONG := 0x1_0000_0000_0000_0000

  /** `((unsigned long)id) % NHASH`. */
  function Slot(id: int): (h: nat)
    ensures h < NHASH
  {
    id % ULONG % NHASH
  }

  /** lists[h] is chain h from its head; ids and counts are those of the objects on
      chains; refs are the references each thread holds; doomed are the objects
      taken off their chain and the thread that will free them. */
  datatype Table = Table(
    lists: seq<seq<nat>>, ids: map<nat, int>, counts: map<nat, int>, refs: seq<multiset<nat>>,
    doomed: map<nat, nat>, freed: set<nat>)

  datatype Event =
    | Quiet
    | Alloc(id: int, j: nat)
    | Hold(j: nat)
    | Find(id: int, found: Option<nat>)
    | Release(j: nat)
    | Free(j: nat)

  /** The first object of a chain with this id. */
  ghost function FirstMatch(l: seq<nat>, ids: map<nat, int>, id: int): Option<nat> {
    if l == [] then None
    else if l[0] in ids && ids[l[0]] == id then Some(l[0])
    else FirstMatch(l[1..], ids, id)
  }

  ghost function Minus(l: seq<nat>, j: nat): seq<nat> {
    if l == [] then [] else if l[0] == j then l[1..] else [l[0]] + Minus(l[1..], j)
  }

  // ---- The four calls -------------------------------------------------------

  ghost predicate DoAlloc(a: Table, t: nat, id: int, j: nat, b: Table)
    requires t < |a.refs| && |a.lists| == NHASH
  {
    && j !in a.ids && j !in a.doomed && j !in a.freed
    && b == a.(lists := a.lists[Slot(id) := [j] + a.lists[Slot(id)]], ids := a.ids[j := id],
               counts := a.counts[j := 1], refs := a.refs[t := a.refs[t] + multiset{j}])
  }

  ghost predicate DoHold(a: Table, t: nat, j: nat, b: Table)
    requires t < |a.refs|
  {
    && j in a.refs[t] && j in a.counts
    && b == a.(counts := a.counts[j := a.counts[j] + 1], refs := a.refs[t := a.refs[t] + multiset{j}])
  }

  ghost predicate DoFind(a: Table, t: nat, id: int, found: Option<nat>, b: Table)
    requires t < |a.refs| && |a.lists| == NHASH
  {
    && found == FirstMatch(a.lists[Slot(id)], a.ids, id)
    && match found
       case None => b == a
       case Some(j) =>
         && j in a.counts
         && b == a.(counts := a.counts[j := a.counts[j] + 1], refs := a.refs[t := a.refs[t] + multiset{j}])
  }

  /** Give up a reference that is not the last. */
  ghost predicate DoDrop(a: Table, t: nat, j: nat, b: Table)
    requires t < |a.refs|
  {
    && j in a.refs[t] && j in a.counts && a.counts[j] - 1 != 0
    && b == a.(counts := a.counts[j := a.counts[j] - 1], refs := a.refs[t := a.refs[t] - multiset{j}])
  }

  /** Give up the last reference: the object leaves its chain and is t's to free. */
  ghost predicate DoRemove(a: Table, t: nat, j: nat, b: Table)
    requires t < |a.refs| && |a.lists| == NHASH
  {
    && j in a.refs[t] && j in a.counts && a.counts[j] - 1 == 0 && j in a.ids
    && b == a.(lists := a.lists[Slot(a.ids[j]) := Minus(a.lists[Slot(a.ids[j])], j)],
               ids := a.ids - {j}, counts := a.counts - {j},
               refs := a.refs[t := a.refs[t] - multiset{j}], doomed := a.doomed[j := t])
  }

  ghost predicate DoFree(a: Table, t: nat, j: nat, b: Table) {
    j in a.doomed && a.doomed[j] == t && b == a.(doomed := a.doomed - {j}, freed := a.freed + {j})
  }

  /** Thread t does e. */
  ghost predicate Step(a: Table, t: nat, e: Event, b: Table) {
    && t < |a.refs| && |a.lists| == NHASH
    && match e
       case Quiet => b == a
       case Alloc(id, j) => DoAlloc(a, t, id, j, b)
       case Hold(j) => DoHold(a, t, j, b)
       case Find(id, found) => DoFind(a, t, id, found, b)
       case Release(j) => DoDrop(a, t, j, b) || DoRemove(a, t, j, b)
       case Free(j) => DoFree(a, t, j, b)
  }
}
