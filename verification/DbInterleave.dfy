/** What every interleaving of the processes of DbShared keeps. */
module DbInterleave {
  import opened Values
  import opened Ascii
  import opened IndexCodec
  import opened IndexFile
  import opened DbStore
  import opened DbShared
  import C = Chains

  // ---- The plain map --------------------------------------------------------

  /** The map after the calls of the log. */
  function Abs(log: seq<Entry>): Map {
    if log == [] then map[] else MapAfter(Abs(log[..|log| - 1]), log[|log| - 1].op)
  }

  /** Every call of the log replied what a plain map replies at its place. */
  ghost predicate Linear(log: seq<Entry>) {
    forall n :: 0 <= n < |log| ==> log[n].reply == MapReply(Abs(log[..n]), log[n].op)
  }

  // ---- The invariant --------------------------------------------------------

  ghost predicate Core(s: State) {
    && C.Shape(s.ch) && C.Placed(s.ch) && |s.ch.lists| == NLISTS && |s.ch.ptrs| == |s.recs|
    && (forall j :: 0 <= j < |s.recs| ==> s.recs[j].ptr == s.ch.ptrs[j] && s.ch.offs[j] == j + 1)
    && KeysOk(s.ch.own, s.recs, s.at) && DataOk(s.recs, s.dat)
  }

  /** No two processes hold conflicting locks. */
  ghost predicate Excl(s: State) {
    forall p, q :: 0 <= p < |s.procs| && 0 <= q < |s.procs| && p != q ==> Compatible(s.procs[p], s.procs[q])
  }

  /** A record tagged with a process is the one that process has in hand. */
  ghost predicate HeldOk(s: State) {
    forall j :: 0 <= j < |s.ch.own| && s.ch.own[j] <= -2 ==>
      var p := -2 - s.ch.own[j]; p < |s.procs| && Held(s.procs[p]) == Some(j)
  }

  /** The data record at off that a process appended. */
  function Region(off: nat, data: seq<byte>): Rec { Rec(0, [], off, |data| + 1) }

  /** It lies in the file, apart from the data of every index record. */
  ghost predicate PendingOk(s: State, off: nat, data: seq<byte>) {
    && off + |data| + 1 <= |s.dat| && s.dat[off..off + |data| + 1] == data + [NEWLINE]
    && forall j :: 0 <= j < |s.recs| ==> Apart(s.recs[j], Region(off, data))
  }

  ghost predicate PendingsApart(s: State) {
    forall p, q :: 0 <= p < |s.procs| && 0 <= q < |s.procs| && p != q ==> PendApart(s.procs[p], s.procs[q])
  }

  predicate PendApart(x: Pc, y: Pc) {
    Pending(x).Some? && Pending(y).Some? && x.op.DoStore? && y.op.DoStore? ==>
      Pending(x).value + |x.op.data| + 1 <= Pending(y).value || Pending(y).value + |y.op.data| + 1 <= Pending(x).value
  }

  /** Outside a delete in progress the cells of a list spell it. */
  ghost predicate LinkOk(s: State)
    requires C.Shape(s.ch) && C.Placed(s.ch)
  {
    forall i :: 0 <= i < |s.ch.lists| && (forall p :: 0 <= p < |s.procs| ==> Breaks(s.procs[p]) != Some(i)) ==>
      C.LinkedList(s.ch, i)
  }

  ghost predicate InFlux(s: State, k: Key) {
    exists p :: 0 <= p < |s.procs| && Flux(s.procs[p]) == Some(k)
  }

  /** The live records hold the plain map, except that a key that is being
      replaced has no record for the moment. */
  ghost predicate AgreeOn(s: State, k: Key)
    requires DataOk(s.recs, s.dat) && KeysOk(s.ch.own, s.recs, s.at)
  {
    if InFlux(s, k) then k !in s.at && k in Abs(s.log)
    else (k in s.at <==> k in Abs(s.log)) && (k in s.at ==> Abs(s.log)[k] == Data(s.dat, s.recs[s.at[k]]))
  }

  ghost predicate Agree(s: State)
    requires DataOk(s.recs, s.dat) && KeysOk(s.ch.own, s.recs, s.at)
  {
    forall k :: AgreeOn(s, k)
  }

  // ---- What holds at each program point -------------------------------------

  /** The cell that points to position a of a list, as `prev` has it. */
  function PrevOf(l: seq<nat>, a: nat): int
    requires a <= |l|
  {
    if a == 0 then 0 else l[a - 1] + 1
  }

  ghost predicate Logged(s: State, p: nat, op: Op, reply: Reply, n: nat) {
    n < |s.log| && s.log[n] == Entry(p, op, reply)
  }

  /** The process has record j in hand. */
  ghost predicate Has(s: State, p: nat, j: nat)
    requires Core(s)
  {
    j < |s.recs| && s.ch.own[j] == Tag(p)
  }

  ghost predicate Storing(s: State, op: Op) {
    op.DoStore? && op.key !in s.at && DataLengthOk(op.data)
  }

  /** The record found for the key is at position a of its chain. */
  ghost predicate Located(s: State, op: Op, j: nat, a: nat, prev: int, save: int)
    requires Core(s)
  {
    var l := s.ch.lists[ChainOf(op.key)];
    && a < |l| && l[a] == j && j < |s.recs| && s.recs[j].key == op.key && prev == PrevOf(l, a)
    && save == s.recs[j].ptr
  }

  /** The chain still points to record j, which has left it. */
  ghost predicate Leaving(s: State, op: Op, j: nat, a: nat, prev: int, save: int)
    requires Core(s)
  {
    var l := s.ch.lists[ChainOf(op.key)];
    && a <= |l| && prev == PrevOf(l, a) && save == C.PtrTo(s.ch.offs, l, a)
    && C.LinkedBut(s.ch, ChainOf(op.key), a, j + 1) && op.key !in s.at
  }

  /** The call either has taken effect (a delete) or is a replacement. */
  ghost predicate DeleteLogged(s: State, p: nat, op: Op, n: nat) {
    if op.DoDelete? then Logged(s, p, op, Code(0), n)
    else op.DoStore? && op.flag != INSERT && op.flag != OTHER && DataLengthOk(op.data)
  }

  ghost predicate WalksChain(s: State, op: Op, a: nat, prev: int, cur: int)
    requires Core(s)
  {
    var l := s.ch.lists[ChainOf(op.key)];
    && a <= |l| && prev == PrevOf(l, a) && cur == C.PtrTo(s.ch.offs, l, a)
    && forall b :: 0 <= b < a ==> s.recs[l[b]].key != op.key
  }

  ghost predicate WalksFree(s: State, a: nat, prev: int, cur: int)
    requires Core(s)
  {
    var l := s.ch.lists[FREE];
    a <= |l| && prev == PrevOf(l, a) && cur == C.PtrTo(s.ch.offs, l, a)
  }

  ghost predicate Fits(s: State, op: Op, j: nat)
    requires op.DoStore? && j < |s.recs|
  {
    |s.recs[j].key| == |op.key| && s.recs[j].datlen == |op.data| + 1
  }

  ghost predicate PcOk(s: State, p: nat, pc: Pc)
    requires Core(s)
  {
    match pc
    case Idle => true
    case WantChain(op) => Startable(op)
    case FindHead(op) => Startable(op)
    case FindRec(op, a, prev, cur) => Startable(op) && WalksChain(s, op, a, prev, cur)
    case FetchDat(op, j) => op.DoFetch? && op.key in s.at && s.at[op.key] == j
    case Ret(op, reply, n) => Logged(s, p, op, reply, n)
    case DelWant(op, j, a, prev, save) => Startable(op) && Located(s, op, j, a, prev, save) && Removes(op)
    case DelDat(op, j, a, prev, save) => Startable(op) && Located(s, op, j, a, prev, save) && Removes(op)
    case DelFree(op, j, a, prev, save, n) =>
      Removes(op) && DeleteLogged(s, p, op, n) && Leaving(s, op, j, a, prev, save) && Has(s, p, j)
    case DelIdx(op, j, a, prev, save, n, fp) =>
      && Removes(op) && DeleteLogged(s, p, op, n) && Leaving(s, op, j, a, prev, save) && Has(s, p, j)
      && fp == s.ch.heads[FREE]
    case DelHead(op, j, a, prev, save, n) =>
      && Removes(op) && DeleteLogged(s, p, op, n) && Leaving(s, op, j, a, prev, save) && Has(s, p, j)
      && s.recs[j].ptr == s.ch.heads[FREE] && Blank(s.recs[j].key)
    case DelPrev(op, j, a, prev, save, n) =>
      Removes(op) && DeleteLogged(s, p, op, n) && Leaving(s, op, j, a, prev, save)
    case DelUnlock(op, n) => Removes(op) && DeleteLogged(s, p, op, n) && op.key !in s.at
    case ReadHead(op) => Storing(s, op) && op.flag != REPLACE && op.flag != OTHER
    case FFWant(op, ptr) => Inserting(s, op, ptr)
    case FFHead(op, ptr) => Inserting(s, op, ptr)
    case FFRec(op, ptr, a, prev, cur) => Inserting(s, op, ptr) && WalksFree(s, a, prev, cur)
    case FFTake(op, ptr, a, prev, j) =>
      && Inserting(s, op, ptr)
      && a < |s.ch.lists[FREE]| && s.ch.lists[FREE][a] == j && j < |s.recs| && prev == PrevOf(s.ch.lists[FREE], a)
      && Fits(s, op, j)
    case FFUnlock(op, ptr, found) =>
      Inserting(s, op, ptr) && (found.Some? ==> Has(s, p, found.value) && Fits(s, op, found.value))
    case ReDat(op, ptr, j) => Inserting(s, op, ptr) && Has(s, p, j) && Fits(s, op, j)
    case ReIdx(op, ptr, j) =>
      Inserting(s, op, ptr) && Has(s, p, j) && Fits(s, op, j) && Data(s.dat, s.recs[j]) == op.data
    case ReHead(op) => Storing(s, op) && Replaces(op)
    case DatWant(op, ptr, repl) => Appending(s, op, ptr, repl)
    case DatApp(op, ptr, repl) => Appending(s, op, ptr, repl)
    case DatUnlock(op, ptr, repl, off) => Appending(s, op, ptr, repl) && PendingOk(s, off, op.data)
    case IdxWant(op, ptr, repl, off) => Appending(s, op, ptr, repl) && PendingOk(s, off, op.data)
    case IdxApp(op, ptr, repl, off) => Appending(s, op, ptr, repl) && PendingOk(s, off, op.data)
    case IdxUnlock(op, repl, j) => Ready(s, p, op, repl, j)
    case LinkHead(op, repl, j) => Ready(s, p, op, repl, j)
    case OverDat(op, j) =>
      && op.DoStore? && op.flag != INSERT && op.flag != OTHER
      && op.key in s.at && s.at[op.key] == j && s.recs[j].datlen == |op.data| + 1
    case Dead => true
  }

  /** The call removes the record it finds. */
  predicate Removes(op: Op) { op.DoDelete? || Replaces(op) }

  predicate Replaces(op: Op) { op.DoStore? && op.flag != INSERT && op.flag != OTHER }

  ghost predicate Inserting(s: State, op: Op, ptr: int)
    requires Core(s)
  {
    Storing(s, op) && op.flag != REPLACE && op.flag != OTHER && ptr == s.ch.heads[ChainOf(op.key)]
  }

  ghost predicate Appending(s: State, op: Op, ptr: int, repl: bool)
    requires Core(s)
  {
    && Storing(s, op) && ptr == s.ch.heads[ChainOf(op.key)]
    && (if repl then Replaces(op) else op.flag != REPLACE && op.flag != OTHER)
  }

  /** Record j is written and waits to be put on its chain. */
  ghost predicate Ready(s: State, p: nat, op: Op, repl: bool, j: nat)
    requires Core(s)
  {
    && Has(s, p, j) && s.recs[j].key == op.key && Appending(s, op, s.recs[j].ptr, repl)
    && Data(s.dat, s.recs[j]) == op.data
  }

  ghost predicate PcsOk(s: State)
    requires Core(s)
  {
    forall p :: 0 <= p < |s.procs| ==> PcOk(s, p, s.procs[p])
  }

  ghost predicate Inv(s: State) {
    && Core(s) && Excl(s) && HeldOk(s) && PendingsApart(s) && LinkOk(s) && Agree(s) && Linear(s.log) && PcsOk(s)
  }
}
