/** The database library: one handle on an index file and a data file. */
module Db {
  import opened Values
  import opened Ascii
  import opened IndexCodec
  import opened IndexFile
  import opened Layout
  import opened DbStore
  import opened DbSteps
  import opened DbSpace
  import opened DbLimits
  import C = Chains

  /** `err_dump`, `err_quit` and `err_sys` end the process. */
  datatype Outcome<+T> = Done(value: T) | Halted

  /** The fields of the handle, the two files, and the store they stand for. */
  class Handle {
    var idx: seq<byte>
    var dat: seq<byte>
    var idxpos: int      // file offset of the index descriptor
    var idxbuf: seq<byte>
    var idxoff: int
    var idxlen: int
    var datoff: int
    var datlen: int
    var ptrval: int
    var ptroff: int
    var chainoff: int
    ghost var st: Store

    /** The files are the image of a valid store. */
    ghost predicate Valid()
      reads this`st, this`idx, this`dat
    {
      DbStore.Valid(st) && idx == Image(st.ch.heads, st.recs) && dat == st.dat
    }

    /** The handle describes record j. */
    ghost predicate Current(j: nat)
      reads this
    {
      && j < |st.recs| && |st.ch.offs| == |st.recs|
      && idxoff == st.ch.offs[j] && idxbuf == st.recs[j].key && ptrval == st.recs[j].ptr
      && datoff == st.recs[j].datoff && datlen == st.recs[j].datlen
    }

    // ---- Primitive reads and writes -----------------------------------------

    method ReadPtr(offset: int) returns (r: Outcome<int>)
      modifies this`idxpos
      ensures r == if 0 <= offset && offset + PTR_SZ <= |idx|
                   then Done(Atol(idx[offset..offset + PTR_SZ])) else Halted
      ensures r.Done? ==> idxpos == offset + PTR_SZ
    {
      if offset < 0 || offset + PTR_SZ > |idx| {
        return Halted;
      }
      idxpos := offset + PTR_SZ;
      return Done(Atol(idx[offset..offset + PTR_SZ]));
    }

    /** An offset of 0 means the current position; -1 reports the end of file. */
    method ReadIdx(offset: int) returns (r: Outcome<int>)
      requires idxpos >= 0
      modifies this`idxpos, this`idxbuf, this`idxoff, this`idxlen, this`datoff, this`datlen, this`ptrval
      ensures var pos := if offset == 0 then old(idxpos) else offset;
        if pos < 0 then r == Halted
        else if pos >= |idx| then r == (if offset == 0 then Done(-1) else Halted) && idxpos == old(idxpos)
        else match Decode(idx[pos..])
          case None => r == Halted
          case Some(rec) =>
            && r == Done(rec.ptr) && idxoff == pos && idxbuf == rec.key && ptrval == rec.ptr
            && datoff == rec.datoff && datlen == rec.datlen
            && |idx[pos..]| >= PTR_SZ + IDXLEN_SZ && idxpos == pos + EncodedLength(idx[pos..])
      ensures idxpos >= 0
    {
      hide DecodeBody, Atol;
      idxoff := if offset == 0 then idxpos else offset;
      if idxoff < 0 {
        return Halted;
      }
      if idxoff >= |idx| && offset == 0 {
        return Done(-1);
      }
      if idxoff + PTR_SZ + IDXLEN_SZ > |idx| {
        return Halted;
      }
      var s := idx[idxoff..];
      ptrval := Atol(s[..PTR_SZ]);
      idxlen := Atol(s[PTR_SZ..PTR_SZ + IDXLEN_SZ]);
      if idxlen < IDXLEN_MIN || idxlen > IDXLEN_MAX || PTR_SZ + IDXLEN_SZ + idxlen > |s| {
        return Halted;
      }
      idxpos := idxoff + PTR_SZ + IDXLEN_SZ + idxlen;
      idxbuf := s[PTR_SZ + IDXLEN_SZ..PTR_SZ + IDXLEN_SZ + idxlen];
      r := SplitFields();
    }

    /** The second half of `_db_readidx`: newline, separators, numbers. */
    method SplitFields() returns (r: Outcome<int>)
      requires |idxbuf| >= 1
      modifies this`idxbuf, this`datoff, this`datlen
      ensures match DecodeBody(ptrval, old(idxbuf))
        case None => r == Halted
        case Some(rec) => r == Done(rec.ptr) && idxbuf == rec.key && datoff == rec.datoff && datlen == rec.datlen
    {
      hide StrChr, Atol;
      if idxbuf[|idxbuf| - 1] != NEWLINE {
        return Halted;
      }
      idxbuf := idxbuf[..|idxbuf| - 1];
      var p1 := StrChr(idxbuf, 0, SEP);
      if p1 == -1 {
        return Halted;
      }
      var p2 := StrChr(idxbuf, p1 + 1, SEP);
      if p2 == -1 || StrChr(idxbuf, p2 + 1, SEP) != -1 {
        return Halted;
      }
      datoff := Atol(idxbuf[p1 + 1..p2]);
      datlen := Atol(idxbuf[p2 + 1..]);
      if datoff < 0 || datlen <= 0 || datlen > DATLEN_MAX {
        return Halted;
      }
      idxbuf := idxbuf[..p1];
      return Done(ptrval);
    }

    method ReadDat() returns (r: Outcome<seq<byte>>)
      ensures r == if 0 <= datoff && 0 < datlen && datoff + datlen <= |dat| && dat[datoff + datlen - 1] == NEWLINE
                   then Done(dat[datoff..datoff + datlen - 1]) else Halted
    {
      if datoff < 0 || datlen <= 0 || datoff + datlen > |dat| || dat[datoff + datlen - 1] != NEWLINE {
        return Halted;
      }
      return Done(dat[datoff..datoff + datlen - 1]);
    }

    method WriteDat(data: seq<byte>, offset: int, append: bool)
      requires append || 0 <= offset <= |dat|
      modifies this`dat, this`datoff, this`datlen
      ensures datoff == (if append then |old(dat)| else offset) && datlen == |data| + 1
      ensures dat == Splice(old(dat), datoff, data + [NEWLINE])
    {
      datoff := if append then |dat| else offset;
      datlen := |data| + 1;
      dat := Splice(dat, datoff, data + [NEWLINE]);
    }

    method WriteIdx(key: seq<byte>, offset: int, append: bool, ptr: int) returns (r: Outcome<()>)
      requires append || 0 <= offset <= |idx|
      modifies this`idx, this`idxbuf, this`idxoff, this`ptrval
      ensures r == if 0 <= ptr <= PTR_MAX && BodyFits(key, datoff, datlen) then Done(()) else Halted
      ensures r.Done? ==> ptrval == ptr && idxoff == (if append then |old(idx)| else offset)
      ensures r.Done? ==> idx == Splice(old(idx), idxoff, Encode(Rec(ptr, key, datoff, datlen)))
      ensures r.Halted? ==> idx == old(idx)
    {
      hide Padded, Body, Splice;
      ptrval := ptr;
      if ptr < 0 || ptr > PTR_MAX {
        return Halted;
      }
      idxbuf := Body(key, datoff, datlen);
      var len := |idxbuf|;
      if len < IDXLEN_MIN || len > IDXLEN_MAX {
        return Halted;
      }
      var asciiptrlen := Padded(ptr, PTR_SZ) + Padded(len, IDXLEN_SZ);
      idxoff := if append then |idx| else offset;
      assert asciiptrlen + idxbuf == Encode(Rec(ptr, key, datoff, datlen));
      idx := Splice(idx, idxoff, asciiptrlen + idxbuf);
      return Done(());
    }

    method WritePtr(offset: int, ptr: int) returns (r: Outcome<()>)
      requires 0 <= offset <= |idx|
      modifies this`idx
      ensures r == if 0 <= ptr <= PTR_MAX then Done(()) else Halted
      ensures idx == if r.Done? then Splice(old(idx), offset, EncodePtr(ptr)) else old(idx)
    {
      if ptr < 0 || ptr > PTR_MAX {
        return Halted;
      }
      idx := Splice(idx, offset, Padded(ptr, PTR_SZ));
      return Done(());
    }

    /** `_db_hash`: the unsigned long wraps at every step. */
    method HashOf(key: seq<byte>) returns (h: nat)
      ensures h == Hash(key)
    {
      var hval, i := 0, 0;
      while i < |key|
        invariant 0 <= i <= |key|
        invariant hval == HashSum(key[..i]) % ULONG
      {
        assert key[..i + 1][..i] == key[..i];
        WrapAdd(HashSum(key[..i]), Char(key[i]) * (i + 1));
        hval := (hval + Char(key[i]) * (i + 1)) % ULONG;
        i := i + 1;
      }
      assert key[..i] == key;
      h := hval % NHASH;
    }

    // ---- Finding a key ------------------------------------------------------

    /** What the index file holds where a chain pointer leads. */
    lemma AtRecord(j: nat)
      requires Valid() && j < |st.recs|
      ensures 0 < st.ch.offs[j] < |idx|
      ensures Decode(idx[st.ch.offs[j]..]) == Some(st.recs[j])
      ensures |idx[st.ch.offs[j]..]| >= PTR_SZ + IDXLEN_SZ
      ensures st.ch.offs[j] + EncodedLength(idx[st.ch.offs[j]..]) == RecOff(st.ch.heads, st.recs, j + 1)
    {
      assert st.ch.offs[j] == RecOff(st.ch.heads, st.recs, j);
      ReadRec(st.ch.heads, st.recs, j);
    }

    lemma AtHead(i: nat)
      requires Valid() && i < NLISTS
      ensures PTR_SZ * i + PTR_SZ <= |idx|
      ensures Atol(idx[PTR_SZ * i..PTR_SZ * i + PTR_SZ]) == st.ch.heads[i]
    {
      ReadHead(st.ch.heads, st.recs, i);
    }

    /** `_db_readidx` at the offset of a record: it never ends the process. */
    method ReadRecord(offset: int, ghost j: nat) returns (next: int)
      requires Valid() && idxpos >= 0 && j < |st.recs| && offset == st.ch.offs[j]
      modifies this`idxpos, this`idxbuf, this`idxoff, this`idxlen, this`datoff, this`datlen, this`ptrval
      ensures next == st.ch.ptrs[j] && Current(j) && idxpos == RecOff(st.ch.heads, st.recs, j + 1)
    {
      AtRecord(j);
      var r := ReadIdx(offset);
      assert st.recs[j].ptr == st.ch.ptrs[j];
      next := r.value;
    }

    /** `_db_readptr` at the head of a list: it never ends the process. */
    method ReadHeadPtr(ghost i: nat, offset: int) returns (ptr: int)
      requires Valid() && i < NLISTS && offset == PTR_SZ * i
      modifies this`idxpos
      ensures ptr == st.ch.heads[i] && idxpos >= 0
    {
      AtHead(i);
      var r := ReadPtr(offset);
      ptr := r.value;
    }

    /** Walk the chain of the key. Found or not, nothing in the files changes;
        when it is found, ptroff is the cell that points to its record. */
    method FindAndLock(key: seq<byte>) returns (found: bool, ghost a: nat)
      requires Valid() && idxpos >= 0
      modifies this`idxpos, this`idxbuf, this`idxoff, this`idxlen, this`datoff, this`datlen, this`ptrval
      modifies this`ptroff, this`chainoff
      ensures chainoff == PTR_SZ * ChainOf(key) && idxpos >= 0
      ensures found <==> key in st.at
      ensures found ==> FoundAt(key, a)
    {
      hide DbStore.Valid, C.Good, Hash, Image, RecOff;
      var h := HashOf(key);
      chainoff := h * PTR_SZ + PTR_SZ;
      ptroff := chainoff;
      ghost var i := ChainOf(key);
      ValidShape(st);
      OnChain(st, key);
      ghost var l := st.ch.lists[i];
      a := 0;
      C.Follow(st.ch, i, 0);
      var offset := ReadHeadPtr(i, ptroff);
      while offset != 0
        invariant 0 <= a <= |l| && idxpos >= 0 && chainoff == PTR_SZ * i
        invariant offset == C.PtrTo(st.ch.offs, l, a)
        invariant ptroff == CellOffset(st.ch, i, a)
        invariant forall b :: 0 <= b < a ==> st.recs[l[b]].key != key
        decreases |l| - a
      {
        C.Follow(st.ch, i, a);
        var nextoffset := ReadRecord(offset, l[a]);
        if idxbuf == key {
          return true, a;
        }
        ptroff := offset;
        offset := nextoffset;
        a := a + 1;
      }
      C.Follow(st.ch, i, a);
      return false, a;
    }

    /** The handle describes the record of the key, at position a of its chain. */
    ghost predicate FoundAt(key: seq<byte>, a: nat)
      requires Valid()
      reads this
    {
      ValidShape(st);
      var i := ChainOf(key);
      OnChain(st, key);
      && a < |st.ch.lists[i]| && Current(st.ch.lists[i][a]) && idxbuf == key
      && ptroff == CellOffset(st.ch, i, a)
    }

    // ---- Deleting -----------------------------------------------------------

    /** `_db_dodelete` of the record FindAndLock left in the handle. */
    method DoDelete(ghost key: seq<byte>, ghost a: nat)
      requires Valid() && FoundAt(key, a)
      modifies this`idx, this`dat, this`idxpos, this`idxbuf, this`idxoff, this`datoff, this`datlen, this`ptrval, this`st
      ensures Valid() && Contents(st) == old(Contents(st)) - {key} && st.at == old(st.at) - {key}
      ensures old(Clean(st)) ==> Clean(st)
      ensures idxpos >= 0 && |idx| == |old(idx)| && |dat| == |old(dat)|
      ensures SpaceOf(st) == Freed(old(SpaceOf(st)), |key|, old(datlen))
    {
      hide DbStore.Valid, RecsOk, C.Good, Hash, Image, RecOff, Contents, Clean, Kill, Splice, Encode, EncodePtr;
      hide Total, SizesOf, Freed;
      ghost var i := ChainOf(key);
      FoundRecord(st, i, a);
      WriteDat(Blanks(datlen - 1), datoff, false);
      OverwriteValid(st, st.ch.lists[i][a], Blanks(datlen - 1));
      st := st.(dat := dat);
      var freeptr := ReadHeadPtr(FREE, FREE * PTR_SZ);
      KillSpace(st, i, a);
      MoveToFreeList(key, a, freeptr);
    }

    /** The writes of `_db_dodelete` to the index file. */
    method MoveToFreeList(ghost key: seq<byte>, ghost a: nat, freeptr: int)
      requires Valid() && FoundAt(key, a) && freeptr == st.ch.heads[FREE]
      modifies this`idx, this`idxbuf, this`idxoff, this`ptrval, this`st
      ensures Valid() && st == Kill(old(st), ChainOf(key), a)
      ensures Contents(st) == old(Contents(st)) - {key} && st.at == old(st.at) - {key}
      ensures old(Clean(st)) ==> Clean(st)
      ensures |idx| == |old(idx)|
    {
      hide DbStore.Valid, RecsOk, C.Good, Hash, Image, RecOff, Contents, Clean, Kill, Splice, Encode, EncodePtr;
      ghost var i := ChainOf(key);
      FoundRecord(st, i, a);
      var saveptr := ptrval;
      KillImage(st, i, a);
      var w := WriteIdx(Blanks(|idxbuf|), idxoff, false, freeptr);
      w := WritePtr(FREE * PTR_SZ, idxoff);
      w := WritePtr(ptroff, saveptr);
      KillValid(st, i, a);
      st := Kill(st, i, a);
    }

    // ---- Storing ------------------------------------------------------------

    /** `_db_findfree`: take the first free record of exactly these sizes off the
        free list. */
    method FindFree(keylen: nat, datalen: nat) returns (found: bool, ghost j: nat)
      requires Valid() && idxpos >= 0
      modifies this`idx, this`idxpos, this`idxbuf, this`idxoff, this`idxlen, this`datoff, this`datlen, this`ptrval
      modifies this`st
      ensures Valid() && Contents(st) == old(Contents(st)) && st.at == old(st.at) && dat == old(dat) && idxpos >= 0
      ensures found <==> old(HasFree(st, keylen, datalen))
      ensures !found ==> st == old(st) && idx == old(idx)
      ensures found ==> Orphan(st, j) && |st.recs[j].key| == keylen && st.recs[j].datlen == datalen
      ensures found ==> |st.ch.offs| == |st.recs| && idxoff == st.ch.offs[j] && datoff == st.recs[j].datoff
      ensures |st.ch.heads| == |old(st).ch.heads| == NLISTS && forall i :: 0 < i < NLISTS ==>
        st.ch.heads[i] == old(st).ch.heads[i]
      ensures found && old(Clean(st)) ==> CleanBut(st, j)
      ensures found ==> SpaceOf(st) == Taken(old(SpaceOf(st)), keylen, datalen)
    {
      hide SpaceOf, Taken;
      hide DbStore.Valid, RecsOk, C.Good, Image, RecOff, Contents, Clean, CleanBut, Detach, Splice, EncodePtr, Gapless;
      ValidShape(st);
      ListInRange(st, FREE);
      ghost var l := st.ch.lists[FREE];
      ghost var a := 0;
      C.Follow(st.ch, FREE, 0);
      var saveoffset := FREE * PTR_SZ;
      var offset := ReadHeadPtr(FREE, saveoffset);
      while offset != 0
        invariant 0 <= a <= |l| && idxpos >= 0 && st == old(st) && idx == old(idx)
        invariant offset == C.PtrTo(st.ch.offs, l, a)
        invariant saveoffset == CellOffset(st.ch, FREE, a)
        invariant forall b :: 0 <= b < a ==> !FreeFits(st, b, keylen, datalen)
        decreases |l| - a
      {
        C.Follow(st.ch, FREE, a);
        j := l[a];
        var nextoffset := ReadRecord(offset, j);
        if |idxbuf| == keylen && datlen == datalen {
          DetachImage(st, a);
          DetachKeeps(st, a);
          DetachValid(st, a);
          DetachSpace(st, a);
          assert FreeFits(st, a, keylen, datalen);
          var w := WritePtr(saveoffset, ptrval);
          st := Detach(st, a);
          return true, j;
        }
        saveoffset := offset;
        offset := nextoffset;
        a := a + 1;
      }
      C.Follow(st.ch, FREE, a);
      return false, 0;
    }

    /** Rewrite a record that FindFree took, where it lies, and put it at the
        front of the chain of the key. */
    method Reuse(key: seq<byte>, data: seq<byte>, ptr: int, ghost j: nat)
      requires Valid() && Orphan(st, j) && CString(key) && SEP !in key && key !in st.at
      requires |st.recs[j].key| == |key| && st.recs[j].datlen == |data| + 1
      requires |st.ch.offs| == |st.recs| && idxoff == st.ch.offs[j] && datoff == st.recs[j].datoff
      requires |st.ch.heads| == NLISTS && ptr == st.ch.heads[ChainOf(key)] && chainoff == PTR_SZ * ChainOf(key)
      modifies this`idx, this`dat, this`idxbuf, this`idxoff, this`datoff, this`datlen, this`ptrval, this`st
      ensures Valid() && Contents(st) == old(Contents(st))[key := data]
      ensures old(CleanBut(st, j)) ==> Clean(st)
      ensures SpaceOf(st) == old(SpaceOf(st))
    {
      hide Attach, Clean, SpaceOf;
      hide DbStore.Valid, RecsOk, C.Good, Image, RecOff, Contents, Splice, EncodePtr, Encode, Gapless, Hash, C.Push;
      hide CleanBut;
      ValidShape(st);
      ghost var s := st;
      RegionOf(st, j);
      WriteDat(data, datoff, false);
      OverwriteValid(st, j, data);
      st := st.(dat := dat);
      PtrInRange(st, ChainOf(key));
      RewriteImage(st, j, key, ptr);
      RewriteValid(st, j, key, ptr);
      var w := WriteIdx(key, idxoff, false, ptr);
      st := Rewrite(st, j, key, ptr);
      AttachImage(st, j);
      AttachValid(st, j);
      if CleanBut(s, j) {
        RewriteClean(s, j, data, key, ptr);
        AttachClean(st, j);
      }
      w := WritePtr(chainoff, idxoff);
      ReusedSpace(s, j, data, key, ptr);
      st := Attach(st, j);
    }

    /** Append a data record and an index record, then put the index record at the
        front of the chain of the key. The two length checks come in the middle:
        when one of them ends the process, what was appended stays, on no list. */
    method Append(key: seq<byte>, data: seq<byte>, ptr: int) returns (r: Outcome<()>)
      requires Valid() && CString(key) && SEP !in key && key !in st.at && |data| + 1 <= DATLEN_MAX
      requires |st.ch.heads| == NLISTS && ptr == st.ch.heads[ChainOf(key)] && chainoff == PTR_SZ * ChainOf(key)
      modifies this`idx, this`dat, this`idxbuf, this`idxoff, this`datoff, this`datlen, this`ptrval, this`st
      ensures r.Done? <==> BodyFits(key, |old(dat)|, |data| + 1) && |old(idx)| <= PTR_MAX
      ensures Valid() && Contents(st) == if r.Done? then old(Contents(st))[key := data] else old(Contents(st))
      ensures r.Done? && old(Clean(st)) ==> Clean(st)
      ensures r.Halted? && old(Clean(st)) ==> (Unstrayed(st) <==> !BodyFits(key, |old(dat)|, |data| + 1) || Blank(key))
      ensures r.Done? ==> SpaceOf(st) == Appended(old(SpaceOf(st)), key, |data| + 1)
    {
      hide SpaceOf, Appended, Unstrayed, Blank;
      hide DbStore.Valid, RecsOk, C.Good, Image, RecOff, Contents, EncodePtr, Encode, Gapless, Hash, C.Push, Data;
      hide Grown, BodyFits, Clean, CleanBut, Attach;
      ghost var s := st;
      PtrInRange(st, ChainOf(key));
      AppendData(st, data + [NEWLINE]);
      WriteDat(data, 0, true);
      assert dat == s.dat + (data + [NEWLINE]);
      st := st.(dat := dat);
      GrownImage(s, key, data, ptr);
      var w := WriteIdx(key, 0, true, ptr);
      if w.Halted? {
        if Clean(s) {
          CleanUnstrayed(s);
          SameStray(s, st);
        }
        return Halted;
      }
      GrownValid(s, key, data, ptr);
      if Clean(s) {
        GrownClean(s, key, data, ptr);
      }
      GrownSpace(s, key, data, ptr);
      st := Grown(s, key, data, ptr);
      if Clean(s) {
        GrownStrays(s, key, data, ptr);
      }
      w := LinkNew(key, |s.recs|);
      return w;
    }

    /** The last write of an append. */
    method LinkNew(ghost key: seq<byte>, ghost n: nat) returns (r: Outcome<()>)
      requires Valid() && n < |st.recs| == |st.ch.own| == |st.ch.offs| && st.ch.own[n] < 0
      requires st.recs[n].key == key && key !in st.at && idxoff == st.ch.offs[n]
      requires |st.ch.heads| == NLISTS && st.recs[n].ptr == st.ch.heads[ChainOf(key)]
      requires chainoff == PTR_SZ * ChainOf(key)
      requires 0 <= st.recs[n].datoff && 0 < st.recs[n].datlen && st.recs[n].datoff + st.recs[n].datlen <= |st.dat|
      modifies this`idx, this`st
      ensures r.Done? <==> old(idxoff) <= PTR_MAX
      ensures Valid()
      ensures Contents(st) ==
        if r.Done? then old(Contents(st))[key := old(Data(st.dat, st.recs[n]))] else old(Contents(st))
      ensures r.Done? && old(CleanBut(st, n)) ==> Clean(st)
      ensures r.Halted? ==> st == old(st)
      ensures SpaceOf(st) == old(SpaceOf(st))
    {
      hide SpaceOf;
      hide DbStore.Valid, RecsOk, C.Good, Image, RecOff, Contents, EncodePtr, Encode, Gapless, Hash, C.Push, Clean;
      hide CleanBut, Attach, Splice;
      HeadOffsetIn(st, ChainOf(key));
      if idxoff <= PTR_MAX {
        AttachImage(st, n);
        AttachValid(st, n);
        if CleanBut(st, n) {
          AttachClean(st, n);
        }
      }
      var w := WritePtr(chainoff, idxoff);
      if w.Done? {
        AttachSpace(st, n);
        st := Attach(st, n);
      }
      return w;
    }

    /** The sizes of the store are those of the two files. */
    lemma SizesOfFiles()
      requires Valid()
      ensures |idx| == SpaceOf(st).idx && |dat| == SpaceOf(st).dat
    {
      ImageLen(st);
    }

    // ---- The public operations ----------------------------------------------

    /** `db_fetch`: the value bound to the key, if any. */
    method Fetch(key: seq<byte>) returns (r: Option<seq<byte>>)
      requires Valid() && idxpos >= 0
      modifies this`idxpos, this`idxbuf, this`idxoff, this`idxlen, this`datoff, this`datlen, this`ptrval
      modifies this`ptroff, this`chainoff
      ensures Valid() && idxpos >= 0
      ensures r == if key in Contents(st) then Some(Contents(st)[key]) else None
    {
      hide DbStore.Valid, Hash, Image, Contents;
      ContentsAre(st);
      var found, a := FindAndLock(key);
      if !found {
        return None;
      }
      FoundIsAt(st, key, a);
      var d := ReadDat();
      return Some(d.value);
    }

    /** `db_delete`: 0 if the key was there, -1 if not. */
    method Delete(key: seq<byte>) returns (rc: int)
      requires Valid() && idxpos >= 0
      modifies this
      ensures Valid() && idxpos >= 0 && (old(Clean(st)) ==> Clean(st))
      ensures rc == if key in old(Contents(st)) then 0 else -1
      ensures Contents(st) == old(Contents(st)) - {key}
      ensures SpaceOf(st) == SpaceAfter(old(SpaceOf(st)), old(Contents(st)), Op.DoDelete(key))
    {
      hide DbStore.Valid, Hash, Image, Contents, Clean, SpaceOf, Freed;
      ContentsAre(st);
      var found, a := FindAndLock(key);
      if found {
        FoundIsAt(st, key, a);
        LiveLength(st, key);
        DoDelete(key, a);
        return 0;
      }
      return -1;
    }

    /** `db_store`. It ends the process on data of a length it does not take, and
        when it has to append and the new record does not fit; a replacement that
        dies there has lost the old value. In every other case it is the store
        of a plain map. */
    method Store(key: seq<byte>, data: seq<byte>, flag: Flag) returns (r: Outcome<int>)
      requires Valid() && idxpos >= 0 && CString(key) && CString(data) && SEP !in key
      modifies this
      ensures Valid() && idxpos >= 0 && (r.Done? && old(Clean(st)) ==> Clean(st))
      ensures r.Done? ==> r.value == StoreCode(old(Contents(st)), key, flag)
      ensures r.Done? ==> Contents(st) == StoreMap(old(Contents(st)), key, data, flag)
      ensures r.Halted? <==> Halts(old(SpaceOf(st)), old(Contents(st)), DoStore(key, data, flag))
      ensures r.Halted? <==>
        && flag != OTHER
        && (|| !DataLengthOk(data)
            || (&& StoreCode(old(Contents(st)), key, flag) == 0 && old(NeedsAppend(st, key, data))
                && !(BodyFits(key, |old(dat)|, |data| + 1) && |old(idx)| <= PTR_MAX)))
      ensures r.Halted? ==> Contents(st) == if DataLengthOk(data) then old(Contents(st)) - {key} else old(Contents(st))
      ensures r.Halted? && old(Clean(st)) ==> (Unstrayed(st) <==> !Strays(old(SpaceOf(st)), DoStore(key, data, flag)))
      ensures r.Done? ==> SpaceOf(st) == SpaceAfter(old(SpaceOf(st)), old(Contents(st)), DoStore(key, data, flag))
    {
      hide DbStore.Valid, Hash, Image, Contents, Clean, BodyFits, RecsOk, SpaceOf, SpaceStored, NeedsAppend, StoreMap;
      hide StoreCode, DataLengthOk, Unstrayed, Blank;
      SizesOfFiles();
      AppendIff(st, key, data);
      if flag == OTHER {
        NoSuchFlag(Contents(st), key, data);
        return Done(-1);
      }
      r := StoreFlagged(key, data, flag);
    }

    /** `db_store` with one of its three flags. */
    method StoreFlagged(key: seq<byte>, data: seq<byte>, flag: Flag) returns (r: Outcome<int>)
      requires Valid() && idxpos >= 0 && CString(key) && CString(data) && SEP !in key && flag != OTHER
      modifies this
      ensures Valid() && idxpos >= 0 && (r.Done? && old(Clean(st)) ==> Clean(st))
      ensures r.Done? ==> r.value == StoreCode(old(Contents(st)), key, flag)
      ensures r.Done? ==> Contents(st) == StoreMap(old(Contents(st)), key, data, flag)
      ensures r.Halted? <==>
        || !DataLengthOk(data)
        || (&& StoreCode(old(Contents(st)), key, flag) == 0 && old(NeedsAppend(st, key, data))
            && !(BodyFits(key, |old(dat)|, |data| + 1) && |old(idx)| <= PTR_MAX))
      ensures r.Halted? && old(Clean(st)) ==>
        (Unstrayed(st) <==> !(DataLengthOk(data) && BodyFits(key, |old(dat)|, |data| + 1) && !Blank(key)))
      ensures r.Halted? ==> Contents(st) == if DataLengthOk(data) then old(Contents(st)) - {key} else old(Contents(st))
      ensures r.Done? ==> SpaceOf(st) == SpaceAfter(old(SpaceOf(st)), old(Contents(st)), DoStore(key, data, flag))
    {
      hide DbStore.Valid, Hash, Image, Contents, Clean, CleanBut, HasFree, BodyFits, RecsOk, SpaceOf, SpaceStored;
      hide Unstrayed, Blank;
      var datalen := |data| + 1;
      if datalen < DATLEN_MIN || datalen > DATLEN_MAX {
        if Clean(st) {
          CleanUnstrayed(st);
        }
        return Halted;
      }
      ContentsAre(st);
      var found, a := FindAndLock(key);
      if !found {
        if flag == REPLACE {
          return Done(-1);
        }
        r := Insert(key, data);
      } else {
        if flag == INSERT {
          return Done(1);
        }
        r := Replace(key, data, a);
      }
    }

    /** The branch of `db_store` that replaces: in place if the data has the same
        length, otherwise by deleting and appending. */
    method Replace(key: seq<byte>, data: seq<byte>, ghost a: nat) returns (r: Outcome<int>)
      requires Valid() && idxpos >= 0 && CString(key) && SEP !in key && key in st.at && DataLengthOk(data)
      requires FoundAt(key, a) && chainoff == PTR_SZ * ChainOf(key)
      modifies this`idx, this`dat, this`idxpos, this`idxbuf, this`idxoff, this`datoff, this`datlen, this`ptrval, this`st
      ensures Valid() && idxpos >= 0 && (r.Done? && old(Clean(st)) ==> Clean(st))
      ensures r.Halted? <==>
        old(NeedsAppend(st, key, data)) && !(BodyFits(key, |old(dat)|, |data| + 1) && |old(idx)| <= PTR_MAX)
      ensures r.Done? ==> r.value == 0
      ensures Contents(st) == if r.Done? then old(Contents(st))[key := data] else old(Contents(st)) - {key}
      ensures r.Halted? && old(Clean(st)) ==> (Unstrayed(st) <==> !BodyFits(key, |old(dat)|, |data| + 1) || Blank(key))
      ensures r.Done? ==> SpaceOf(st) == SpaceStored(old(SpaceOf(st)), old(Contents(st)), key, data)
    {
      hide DbStore.Valid, Hash, Image, Contents, Clean, CleanBut, HasFree, BodyFits, RecsOk, Splice;
      hide Total, SizesOf, Freed, Appended, Unstrayed, Blank;
      FoundIsAt(st, key, a);
      LiveLength(st, key);
      RegionOf(st, st.at[key]);
      if |data| + 1 != datlen {
        DoDelete(key, a);
        ValidShape(st);
        var ptr := ReadHeadPtr(ChainOf(key), chainoff);
        var w := Append(key, data, ptr);
        r := if w.Halted? then Halted else Done(0);
      } else {
        FoundRecord(st, ChainOf(key), a);
        OverwriteValid(st, st.at[key], data);
        WriteDat(data, datoff, false);
        st := st.(dat := dat);
        r := Done(0);
      }
    }

    /** The branch of `db_store` for a key that is not there. */
    method Insert(key: seq<byte>, data: seq<byte>) returns (r: Outcome<int>)
      requires Valid() && idxpos >= 0 && CString(key) && SEP !in key && key !in st.at && DataLengthOk(data)
      requires chainoff == PTR_SZ * ChainOf(key)
      modifies this`idx, this`dat, this`idxpos, this`idxbuf, this`idxoff, this`idxlen, this`datoff, this`datlen
      modifies this`ptrval, this`st
      ensures Valid() && idxpos >= 0 && (r.Done? && old(Clean(st)) ==> Clean(st))
      ensures r.Halted? <==>
        !old(HasFree(st, |key|, |data| + 1)) && !(BodyFits(key, |old(dat)|, |data| + 1) && |old(idx)| <= PTR_MAX)
      ensures r.Done? ==> r.value == 0
      ensures Contents(st) == if r.Done? then old(Contents(st))[key := data] else old(Contents(st))
      ensures r.Halted? && old(Clean(st)) ==> (Unstrayed(st) <==> !BodyFits(key, |old(dat)|, |data| + 1) || Blank(key))
      ensures r.Done? ==> SpaceOf(st) == SpaceStored(old(SpaceOf(st)), old(Contents(st)), key, data)
    {
      hide DbStore.Valid, Hash, Image, Contents, Clean, CleanBut, HasFree, BodyFits, RecsOk;
      hide SpaceOf, Taken, Appended, Unstrayed, Blank;
      ContentsAre(st);
      HasFreeIff(st, |key|, |data| + 1);
      ValidShape(st);
      var ptr := ReadHeadPtr(ChainOf(key), chainoff);
      var found, j := FindFree(|key|, |data| + 1);
      if found {
        Reuse(key, data, ptr, j);
        return Done(0);
      }
      var w := Append(key, data, ptr);
      r := if w.Halted? then Halted else Done(0);
    }

    /** One operation, of whichever kind, is the operation of a plain map unless the
        sizes say that it ends the process. */
    method Perform(op: Op) returns (r: Outcome<Reply>)
      requires Valid() && idxpos >= 0 && Legal(op)
      modifies this
      ensures Valid() && idxpos >= 0 && (r.Done? && old(Clean(st)) ==> Clean(st))
      ensures r.Halted? <==> Halts(old(SpaceOf(st)), old(Contents(st)), op)
      ensures r.Done? ==> r.value == MapReply(old(Contents(st)), op) && Contents(st) == MapAfter(old(Contents(st)), op)
      ensures r.Done? ==> SpaceOf(st) == SpaceAfter(old(SpaceOf(st)), old(Contents(st)), op)
      ensures r.Halted? ==> op.DoStore? && Contents(st) == MapHalted(old(Contents(st)), op)
      ensures r.Halted? && old(Clean(st)) ==> (Unstrayed(st) <==> !Strays(old(SpaceOf(st)), op))
    {
      hide DbStore.Valid, Contents, Clean, StoreCode, StoreMap, SpaceOf, SpaceStored, Image, Unstrayed, Strays;
      match op {
        case DoStore(key, data, flag) =>
          var c := Store(key, data, flag);
          r := if c.Halted? then Halted else Done(Code(c.value));
        case DoDelete(key) =>
          var rc := Delete(key);
          r := Done(Code(rc));
        case DoFetch(key) =>
          var v := Fetch(key);
          r := Done(Value(v));
      }
    }

    // ---- Creating, rewinding, listing ---------------------------------------

    /** `db_open` with O_CREAT and O_TRUNC: NHASH + 1 zero pointers, a newline. */
    constructor Create()
      ensures Valid() && idxpos >= 0 && Contents(st) == map[] && Clean(st)
      ensures SpaceOf(st) == Space(multiset{}, FIRST_REC, 0)
    {
      hide DbStore.Valid, Image, Flatten, PtrCells, Contents, Clean, SpaceOf;
      var hash := ZeroPointers(NLISTS);
      FreshImage();
      FreshValid();
      FreshSpace();
      idx, dat, idxpos := hash + [NEWLINE], [], FIRST_REC;
      idxbuf, idxoff, idxlen, datoff, datlen, ptrval, ptroff, chainoff := [], FIRST_REC, 0, 0, 0, 0, 0, 0;
      st := Fresh();
    }

    static method ZeroPointers(n: nat) returns (hash: seq<byte>)
      ensures hash == Flatten(PtrCells(seq(n, _ => 0)))
    {
      hide EncodePtr;
      hash := [];
      var i := 0;
      while i < n
        invariant 0 <= i <= n && hash == Flatten(PtrCells(seq(i, _ => 0)))
      {
        assert seq(i + 1, _ => 0) == seq(i, _ => 0) + [0];
        assert PtrCells(seq(i + 1, _ => 0)) == PtrCells(seq(i, _ => 0)) + [EncodePtr(0)];
        FlattenConcat(PtrCells(seq(i, _ => 0)), [EncodePtr(0)]);
        assert Flatten([EncodePtr(0)]) == EncodePtr(0);
        hash := hash + EncodePtr(0);
        i := i + 1;
      }
    }

    /** `db_rewind`. */
    method Rewind()
      requires Valid()
      modifies this`idxpos, this`idxoff
      ensures idxpos == RecOff(st.ch.heads, st.recs, 0)
    {
      FirstRecord(st.ch.heads, st.recs);
      idxoff := (NHASH + 1) * PTR_SZ + 1;
      idxpos := idxoff;
    }

    /** `db_nextrec`, standing before record n: key and data of the next record
        whose key is not blank, or the end of the file. */
    method NextRec(ghost n: nat) returns (r: Option<(seq<byte>, seq<byte>)>)
      requires Valid() && n <= |st.recs| && |st.ch.heads| == NLISTS && idxpos == RecOff(st.ch.heads, st.recs, n)
      modifies this`idxpos, this`idxbuf, this`idxoff, this`idxlen, this`datoff, this`datlen, this`ptrval
      ensures DataOk(st.recs, st.dat)
      ensures var m := NextLive(st.recs, n);
        if m == |st.recs| then r == None && idxpos == RecOff(st.ch.heads, st.recs, m)
        else r == Some((st.recs[m].key, Data(st.dat, st.recs[m]))) && idxpos == RecOff(st.ch.heads, st.recs, m + 1)
    {
      hide DbStore.Valid, RecsOk, KeysOk, DataOk, Image, RecOff, Decode, EncodedLength, Blank;
      ghost var k := n;
      ValidData(st);
      while true
        invariant n <= k <= |st.recs| && idxpos == RecOff(st.ch.heads, st.recs, k)
        invariant NextLive(st.recs, n) == NextLive(st.recs, k)
        decreases |st.recs| - k
      {
        AtNext(k);
        var p := ReadIdx(0);
        if p.value < 0 {
          return None;
        }
        var blank := AllBlank(idxbuf);
        if !blank {
          break;
        }
        k := k + 1;
      }
      RegionOf(st, k);
      var d := ReadDat();
      return Some((idxbuf, d.value));
    }

    lemma AtNext(k: nat)
      requires Valid() && |st.ch.heads| == NLISTS && k <= |st.recs|
      ensures k == |st.recs| ==> RecOff(st.ch.heads, st.recs, k) == |idx|
      ensures k < |st.recs| ==> var o := RecOff(st.ch.heads, st.recs, k);
        && o < |idx| && Decode(idx[o..]) == Some(st.recs[k]) && st.recs[k].ptr >= 0
        && |idx[o..]| >= PTR_SZ + IDXLEN_SZ && o + EncodedLength(idx[o..]) == RecOff(st.ch.heads, st.recs, k + 1)
        && 0 <= st.recs[k].datoff && 0 < st.recs[k].datlen && st.recs[k].datoff + st.recs[k].datlen <= |dat|
        && dat[st.recs[k].datoff + st.recs[k].datlen - 1] == NEWLINE
    {
      hide DbStore.Valid, Image, RecOff, Decode, EncodedLength, RecsOk, KeysOk, DataOk;
      if k < |st.recs| {
        RecordFacts(st, k);
        AtRecord(k);
      } else {
        AtEnd();
      }
    }

    lemma AtEnd()
      requires Valid() && |st.ch.heads| == NLISTS
      ensures RecOff(st.ch.heads, st.recs, |st.recs|) == |idx|
    {
      FirstRecord(st.ch.heads, st.recs);
    }

    /** The blank test inside `db_nextrec`. */
    static method AllBlank(key: seq<byte>) returns (b: bool)
      ensures b <==> Blank(key)
    {
      var i := 0;
      while i < |key| && key[i] == SPACE
        invariant 0 <= i <= |key| && forall x :: 0 <= x < i ==> key[x] == SPACE
      {
        i := i + 1;
      }
      b := i == |key|;
    }

    /** `db_rewind`, then `db_nextrec` until it reports the end. */
    method Enumerate() returns (out: seq<(seq<byte>, seq<byte>)>)
      requires Valid()
      modifies this`idxpos, this`idxbuf, this`idxoff, this`idxlen, this`datoff, this`datlen, this`ptrval
      ensures Valid() && DataOk(st.recs, st.dat) && out == Listing(st.recs, st.dat, 0)
      ensures Lists(out, Shown(Contents(st))) <==> Unstrayed(st)
      ensures Lists(out, Contents(st)) <==> Unstrayed(st) && forall k :: k in Contents(st) ==> !Blank(k)
    {
      hide DbStore.Valid, RecsOk, KeysOk, DataOk, Image, RecOff, NextLive, Data, Lists, Shown, Contents, Unstrayed;
      hide Blank;
      ListingIsContents(st);
      ValidShape(st);
      ValidData(st);
      Rewind();
      out := [];
      ghost var n := 0;
      while true
        invariant n <= |st.recs| && idxpos == RecOff(st.ch.heads, st.recs, n)
        invariant out + Listing(st.recs, st.dat, n) == Listing(st.recs, st.dat, 0)
        decreases |st.recs| - n
      {
        var r := NextRec(n);
        if r.None? {
          break;
        }
        out := out + [r.value];
        n := NextLive(st.recs, n) + 1;
      }
    }
  }

  lemma WrapAdd(x: int, y: int)
    ensures (x % ULONG + y) % ULONG == (x + y) % ULONG
  {
    var q := x / ULONG;
    assert x == q * ULONG + x % ULONG;
    ModShift(x % ULONG + y, q);
  }

  lemma ModShift(z: int, q: int)
    ensures (z + q * ULONG) % ULONG == z % ULONG
  {
    var a, b := z / ULONG, (z + q * ULONG) / ULONG;
    assert z == a * ULONG + z % ULONG;
    assert z + q * ULONG == b * ULONG + (z + q * ULONG) % ULONG;
    assert (b - a - q) * ULONG == z % ULONG - (z + q * ULONG) % ULONG;
  }

  lemma FreshImage()
    ensures Flatten(PtrCells(seq(NLISTS, _ => 0))) + [NEWLINE] == Image(Fresh().ch.heads, Fresh().recs)
  {
    var hs := seq(NLISTS, _ => 0);
    FlattenConcat(PtrCells(hs), [[NEWLINE]]);
    assert Flatten([[NEWLINE]]) == [NEWLINE];
    assert Cells(hs, []) == PtrCells(hs) + [[NEWLINE]];
  }

  /** The two files are a gap-free sequence of well-formed records that hold m. */
  ghost predicate Represents(idx: seq<byte>, dat: seq<byte>, m: map<seq<byte>, seq<byte>>) {
    exists s :: DbStore.Valid(s) && idx == Image(s.ch.heads, s.recs) && dat == s.dat && Clean(s) && Contents(s) == m
  }

  lemma SameStray(s: Store, t: Store)
    requires t.recs == s.recs && t.ch == s.ch
    ensures Unstrayed(t) <==> Unstrayed(s)
  {
  }

  /** The record that was appended last is off the lists. */
  lemma GrownStrays(s: Store, key: seq<byte>, data: seq<byte>, ptr: int)
    requires DbStore.Valid(s) && Clean(s)
    ensures RecsOk(s) && (Unstrayed(Grown(s, key, data, ptr)) <==> Blank(key))
  {
    hide DbStore.Valid, Blank, RecOff;
    ValidIsRecsOk(s);
    ValidShape(s);
    var t, n := Grown(s, key, data, ptr), |s.recs|;
    assert t.recs[n].key == key && t.ch.own[n] < 0;
    assert forall j :: 0 <= j < n ==> t.ch.own[j] == s.ch.own[j] >= 0;
  }

  lemma NoSuchFlag(m: Map, key: seq<byte>, data: seq<byte>)
    ensures StoreCode(m, key, OTHER) == -1 && StoreMap(m, key, data, OTHER) == m
  {
  }

  /** The files hold m, perhaps beside records on no list. */
  ghost predicate Holds(idx: seq<byte>, dat: seq<byte>, m: map<seq<byte>, seq<byte>>) {
    exists s :: DbStore.Valid(s) && idx == Image(s.ch.heads, s.recs) && dat == s.dat && Contents(s) == m
  }

  /** The operations one after the other, up to the first that ends the process. */
  method RunOn(db: Handle, ops: seq<Op>) returns (replies: seq<Reply>, halted: bool)
    requires (forall i :: 0 <= i < |ops| ==> Legal(ops[i])) && db.Valid() && db.idxpos >= 0
    requires Contents(db.st) == map[] && Clean(db.st) && SpaceOf(db.st) == SpaceRun([])
    modifies db
    ensures |replies| <= |ops| && replies == MapRun(ops[..|replies|]).0 && db.Valid() && db.idxpos >= 0
    ensures forall i :: 0 <= i < |replies| ==> !HaltsAt(ops, i)
    ensures halted <==> |replies| < |ops|
    ensures halted ==> HaltsAt(ops, |replies|)
    ensures halted ==> Contents(db.st) == MapHalted(MapRun(ops[..|replies|]).1, ops[|replies|])
    ensures halted ==> (Unstrayed(db.st) <==> !Strays(SpaceRun(ops[..|replies|]), ops[|replies|]))
    ensures !halted ==> Clean(db.st) && Contents(db.st) == MapRun(ops).1 && SpaceOf(db.st) == SpaceRun(ops)
  {
    hide DbStore.Valid, Contents, Clean, Halts, MapHalted, MapReply, MapAfter, SpaceAfter, SpaceOf, Image;
    hide Unstrayed, Strays;
    replies := [];
    var i := 0;
    while i < |ops|
      invariant 0 <= i == |replies| <= |ops| && db.Valid() && db.idxpos >= 0
      invariant MapRun(ops[..i]) == (replies, Contents(db.st)) && Clean(db.st)
      invariant SpaceRun(ops[..i]) == SpaceOf(db.st)
      invariant forall j :: 0 <= j < i ==> !HaltsAt(ops, j)
    {
      assert ops[..i + 1][..i] == ops[..i];
      var r := db.Perform(ops[i]);
      if r.Halted? {
        return replies, true;
      }
      replies := replies + [r.value];
      i := i + 1;
    }
    assert ops[..i] == ops;
    return replies, false;
  }

  /** Any sequence of operations from a fresh database replies what a plain map
      replies, up to the first operation that the sizes alone say ends the process;
      and it leaves files of the sizes foretold, that hold that map. */
  method Run(ops: seq<Op>) returns (replies: seq<Reply>, halted: bool, idx: seq<byte>, dat: seq<byte>)
    requires forall i :: 0 <= i < |ops| ==> Legal(ops[i])
    ensures |replies| <= |ops| && replies == MapRun(ops[..|replies|]).0
    ensures forall i :: 0 <= i < |replies| ==> !HaltsAt(ops, i)
    ensures halted <==> |replies| < |ops|
    ensures halted ==> HaltsAt(ops, |replies|)
    ensures halted ==> Holds(idx, dat, MapHalted(MapRun(ops[..|replies|]).1, ops[|replies|]))
    ensures !halted ==> Represents(idx, dat, MapRun(ops).1)
    ensures !halted ==> |idx| == SpaceRun(ops).idx && |dat| == SpaceRun(ops).dat
  {
    hide DbStore.Valid, Contents, Clean, Halts, MapHalted, MapRun, SpaceOf, Image;
    var db := new Handle.Create();
    replies, halted := RunOn(db, ops);
    db.SizesOfFiles();
    return replies, halted, db.idx, db.dat;
  }

  /** Any sequence of operations from a fresh database, and then a walk through the
      file: it lists the bindings of the map whose keys are not blank, so all of them
      if and only if there is no blank key. When the process has ended before that, and
      another walks through the file, so it is unless the last store came as far as
      the last pointer. */
  method RunAndList(ops: seq<Op>) returns (done: nat, out: seq<(seq<byte>, seq<byte>)>)
    requires forall i :: 0 <= i < |ops| ==> Legal(ops[i])
    ensures done <= |ops| && (forall i :: 0 <= i < done ==> !HaltsAt(ops, i)) && (done < |ops| ==> HaltsAt(ops, done))
    ensures done == |ops| ==> Lists(out, Shown(MapRun(ops).1))
    ensures done == |ops| ==> (Lists(out, MapRun(ops).1) <==> forall k :: k in MapRun(ops).1 ==> !Blank(k))
    ensures done < |ops| ==>
      var m := MapHalted(MapRun(ops[..done]).1, ops[done]);
      Lists(out, Shown(m)) <==> !Strays(SpaceRun(ops[..done]), ops[done])
  {
    hide DbStore.Valid, Contents, Clean, Halts, MapHalted, MapRun, SpaceOf, Image, Lists, Shown, Blank, Unstrayed;
    hide Strays;
    var db := new Handle.Create();
    var replies, halted := RunOn(db, ops);
    done := |replies|;
    if !halted {
      CleanUnstrayed(db.st);
    }
    out := db.Enumerate();
  }

  /** A key of one blank is stored and found, and not listed. */
  lemma BlankKeyHidden()
    ensures var ops := [DoStore([SPACE], [65], STORE)];
      && Legal(ops[0]) && !HaltsAt(ops, 0)
      && MapRun(ops).1 == map[[SPACE] := [65]] && Shown(MapRun(ops).1) == map[]
  {
    var ops := [DoStore([SPACE], [65], STORE)];
    assert ops[..0] == [];
    assert MapRun([]).1 == map[];
    assert Decimal(0) == [48] && Decimal(2) == [50];
    assert |Body([SPACE], 0, 2)| == 6;
    assert Blank([SPACE]);
  }
}
