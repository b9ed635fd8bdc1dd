/** The watch cache against the directories it stands for. */
module DirCache {
  import opened DirPath

  /** A slot of the cache; wd is -1 when it is unused. */
  datatype Slot = Slot(wd: int, path: string)

  const UNUSED := Slot(-1, "")

  /** The watches of an inotify instance: the descriptor of each watched i-node. */
  datatype Kernel = Kernel(watches: map<nat, int>, nextWd: int)

  /** Directories and their i-nodes. */
  type Dirs = map<Path, nat>

  // ---- Directory trees ------------------------------------------------------

  ghost predicate RootsOk(roots: set<string>) {
    && (forall r :: r in roots ==> IsRoot(r))
    && (forall r, q :: r in roots && q in roots && r != q ==> Apart(r, q))
  }

  /** Each directory but a root is in a directory, and they are all different. */
  ghost predicate Forest(t: Dirs, roots: set<string>) {
    && RootsOk(roots)
    && (forall p :: p in t ==> IsPath(p) && p[0] in roots)
    && (forall p :: p in t && |p| > 1 ==> Parent(p) in t)
    && (forall p, q :: p in t && q in t && p != q ==> t[p] != t[q])
  }

  lemma {:induction false} Ancestor(t: Dirs, roots: set<string>, p: Path, k: nat)
    requires Forest(t, roots) && p in t && 1 <= k <= |p|
    ensures p[..k] in t
    decreases |p| - k
  {
    if k < |p| {
      Ancestor(t, roots, p, k + 1);
      assert p[..k + 1][..k] == p[..k];
    } else {
      assert p[..k] == p;
    }
  }

  lemma ForestUnder(t: Dirs, roots: set<string>, p: Path, q: Path)
    requires Forest(t, roots) && IsPath(p) && p[0] in roots && q in t
    ensures IsPath(q) && (Under(Join(p), Join(q)) <==> p <= q)
  {
    UnderIsPrefix(p, q);
  }

  // ---- The cache is exact ---------------------------------------------------

  ghost predicate InUse(c: seq<Slot>, of: map<nat, Path>) {
    && (forall j: nat :: j in of <==> j < |c| && c[j].wd != -1)
    && (forall j :: 0 <= j < |c| && c[j].wd == -1 ==> c[j] == UNUSED)
  }

  ghost predicate Entries(c: seq<Slot>, t: Dirs, k: Kernel, of: map<nat, Path>) {
    forall j :: j in of ==>
      && of[j] in t && of[j] != [] && t[of[j]] in k.watches
      && j < |c| && c[j] == Slot(k.watches[t[of[j]]], Join(of[j]))
  }

  ghost predicate Distinct(of: map<nat, Path>) {
    forall i, j :: i in of && j in of && i != j ==> of[i] != of[j]
  }

  ghost predicate Covers(of: map<nat, Path>, t: Dirs) {
    forall p :: p in t ==> exists j :: j in of && of[j] == p
  }

  /** Slot j is in use for directory of[j], and the slots in use are for exactly the
      directories of t, one each. */
  ghost predicate Tracks(c: seq<Slot>, t: Dirs, k: Kernel, of: map<nat, Path>) {
    InUse(c, of) && Entries(c, t, k, of) && Distinct(of) && Covers(of, t)
  }

  /** Exactly the directories of t are watched. */
  ghost predicate Watched(t: Dirs, k: Kernel) {
    && (forall p :: p in t ==> t[p] in k.watches)
    && (forall i :: i in k.watches ==> i in t.Values && 1 <= k.watches[i] < k.nextWd)
    && (forall i, j :: i in k.watches && j in k.watches && i != j ==> k.watches[i] != k.watches[j])
    && k.nextWd >= 1
  }

  ghost predicate Synced(c: seq<Slot>, t: Dirs, k: Kernel, of: map<nat, Path>, roots: set<string>) {
    Forest(t, roots) && Watched(t, k) && Tracks(c, t, k, of)
  }

  /** What being exact says without naming the directories of slots. */
  lemma Exact(c: seq<Slot>, t: Dirs, k: Kernel, of: map<nat, Path>, roots: set<string>)
    requires Synced(c, t, k, of, roots)
    ensures forall i, j :: 0 <= i < j < |c| && c[i].wd != -1 && c[j].wd != -1 ==>
      c[i].wd != c[j].wd && c[i].path != c[j].path
    ensures forall p :: p in t ==> exists j :: 0 <= j < |c| && c[j].wd == k.watches[t[p]] && c[j].path == Join(p)
    ensures forall j :: 0 <= j < |c| && c[j].wd != -1 ==>
      c[j].wd >= 1 && exists p :: p in t && c[j].path == Join(p) && c[j].wd == k.watches[t[p]]
  {
    forall i, j | 0 <= i < j < |c| && c[i].wd != -1 && c[j].wd != -1
      ensures c[i].wd != c[j].wd && c[i].path != c[j].path
    {
      assert i in of && j in of;
      if c[i].path == c[j].path {
        JoinInjective(of[i], of[j]);
      }
    }
    forall p | p in t
      ensures exists j :: 0 <= j < |c| && c[j].wd == k.watches[t[p]] && c[j].path == Join(p)
    {
      var j :| j in of && of[j] == p;
      assert c[j].wd == k.watches[t[p]];
    }
    forall j | 0 <= j < |c| && c[j].wd != -1
      ensures c[j].wd >= 1 && exists p :: p in t && c[j].path == Join(p) && c[j].wd == k.watches[t[p]]
    {
      assert j in of;
      assert of[j] in t;
    }
  }

  /** The slot of a watched directory. */
  lemma SlotOf(c: seq<Slot>, t: Dirs, k: Kernel, of: map<nat, Path>, roots: set<string>, p: Path, j: nat)
    requires Synced(c, t, k, of, roots) && p in t && j < |c| && c[j].wd == k.watches[t[p]]
    ensures j in of && of[j] == p && c[j].path == Join(p)
  {
    assert j in of;
  }

  // ---- Moving a directory ---------------------------------------------------

  ghost predicate CanMove(t: Dirs, roots: set<string>, from: Path, to: Path) {
    && from in t && |from| > 1 && to !in t
    && IsPath(to) && |to| > 1 && to[0] in roots && Parent(to) in t && !(from <= Parent(to))
  }

  lemma MovedApart(t: Dirs, roots: set<string>, from: Path, to: Path, p: Path, q: Path)
    requires Forest(t, roots) && CanMove(t, roots, from, to) && p in t && q in t && p != q
    ensures Moved(p, from, to) != Moved(q, from, to)
  {
    NothingIn(t, roots, to, p);
    NothingIn(t, roots, to, q);
    if from <= p && from <= q {
      assert p == from + p[|from|..] && q == from + q[|from|..];
      assert (to + p[|from|..])[|to|..] == p[|from|..] && (to + q[|from|..])[|to|..] == q[|from|..];
    }
  }

  /** Nothing is in a directory that is not there. */
  lemma NothingIn(t: Dirs, roots: set<string>, to: Path, q: Path)
    requires Forest(t, roots) && to !in t && to != [] && q in t
    ensures !(to <= q)
  {
    assert to <= q ==> q[..|to|] == to;
    if to <= q {
      Ancestor(t, roots, q, |to|);
    }
  }

  /** Directory from, and all in it, becomes to. */
  function MovedDirs(t: Dirs, ghost roots: set<string>, from: Path, to: Path): (r: Dirs)
    requires Forest(t, roots) && CanMove(t, roots, from, to)
    ensures forall p :: p in t ==> Moved(p, from, to) in r && r[Moved(p, from, to)] == t[p]
    ensures forall q :: q in r ==> exists p :: p in t && Moved(p, from, to) == q
  {
    forall p, q | p in t && q in t && p != q
      ensures Moved(p, from, to) != Moved(q, from, to)
    {
      MovedApart(t, roots, from, to, p, q);
    }
    map p | p in t :: Moved(p, from, to) := t[p]
  }

  lemma MovedPath(t: Dirs, roots: set<string>, from: Path, to: Path, p: Path)
    requires Forest(t, roots) && CanMove(t, roots, from, to) && p in t
    ensures var q := Moved(p, from, to);
      && IsPath(q) && q[0] in roots
      && (|q| > 1 ==> exists o :: o in t && Moved(o, from, to) == Parent(q))
  {
    var q := Moved(p, from, to);
    if from <= p {
      if p == from {
        assert q == to;
        assert Moved(Parent(to), from, to) == Parent(q);
      } else {
        var o := Parent(p);
        assert from <= o && o in t;
        assert Moved(o, from, to) == Parent(q);
      }
    } else if |p| > 1 {
      var o := Parent(p);
      assert o in t && Moved(o, from, to) == o;
    }
  }

  lemma MovedForest(t: Dirs, roots: set<string>, from: Path, to: Path)
    requires Forest(t, roots) && CanMove(t, roots, from, to)
    ensures Forest(MovedDirs(t, roots, from, to), roots)
  {
    var r := MovedDirs(t, roots, from, to);
    hide MovedDirs, CanMove, Moved;
    forall q | q in r
      ensures IsPath(q) && q[0] in roots && (|q| > 1 ==> Parent(q) in r)
    {
      hide Forest, IsPath;
      var p :| p in t && Moved(p, from, to) == q;
      MovedPath(t, roots, from, to, p);
    }
    forall p, q | p in r && q in r && p != q
      ensures r[p] != r[q]
    {
      hide IsPath, RootsOk;
      MovedInodes(t, roots, from, to, p, q);
    }
  }

  lemma MovedInodes(t: Dirs, roots: set<string>, from: Path, to: Path, p: Path, q: Path)
    requires Forest(t, roots) && CanMove(t, roots, from, to)
    requires p in MovedDirs(t, roots, from, to) && q in MovedDirs(t, roots, from, to) && p != q
    ensures MovedDirs(t, roots, from, to)[p] != MovedDirs(t, roots, from, to)[q]
  {
    hide MovedDirs, CanMove, Moved, RootsOk;
    var a :| a in t && Moved(a, from, to) == p;
    var b :| b in t && Moved(b, from, to) == q;
  }

  lemma MovedWatched(t: Dirs, roots: set<string>, k: Kernel, from: Path, to: Path)
    requires Forest(t, roots) && CanMove(t, roots, from, to) && Watched(t, k)
    ensures Watched(MovedDirs(t, roots, from, to), k)
  {
    hide MovedDirs, CanMove, Moved, Forest;
    var r := MovedDirs(t, roots, from, to);
    assert Watched(t, k);
    forall q | q in r
      ensures r[q] in k.watches
    {
      var p :| p in t && Moved(p, from, to) == q;
      assert r[q] == t[p];
    }
    forall i | i in k.watches
      ensures i in r.Values
    {
      var p :| p in t && t[p] == i;
      assert Moved(p, from, to) in r && r[Moved(p, from, to)] == i;
    }
  }

  /** rewriteCachedPaths, slot by slot. */
  function Rewritten(c: seq<Slot>, f: string, g: string): seq<Slot> {
    seq(|c|, j requires 0 <= j < |c| => c[j].(path := Rewrite(c[j].path, f, g)))
  }

  ghost function MovedOf(of: map<nat, Path>, from: Path, to: Path): map<nat, Path> {
    map j | j in of :: Moved(of[j], from, to)
  }

  /** Rewriting the paths in the cache is moving the directory in the tree. */
  lemma RewriteSyncs(c: seq<Slot>, t: Dirs, k: Kernel, of: map<nat, Path>, roots: set<string>, from: Path, to: Path)
    requires Synced(c, t, k, of, roots) && CanMove(t, roots, from, to)
    ensures Synced(Rewritten(c, Join(from), Join(to)), MovedDirs(t, roots, from, to), k, MovedOf(of, from, to), roots)
  {
    MovedForest(t, roots, from, to);
    MovedWatched(t, roots, k, from, to);
    forall j | j in of
      ensures of[j] in t && IsPath(of[j]) && (from[0] == of[j][0] || Apart(from[0], of[j][0]))
    {
    }
    hide Forest, Watched;
    RewriteTracks(c, t, k, of, roots, from, to);
  }

  lemma RewriteTracks(c: seq<Slot>, t: Dirs, k: Kernel, of: map<nat, Path>, roots: set<string>, from: Path, to: Path)
    requires Forest(t, roots) && Tracks(c, t, k, of) && CanMove(t, roots, from, to) && IsPath(from) && IsPath(to)
    requires forall j :: j in of ==> of[j] in t && IsPath(of[j]) && (from[0] == of[j][0] || Apart(from[0], of[j][0]))
    ensures Tracks(Rewritten(c, Join(from), Join(to)), MovedDirs(t, roots, from, to), k, MovedOf(of, from, to))
  {
    hide Forest, Tracks, CanMove;
    var d, r, of' := Rewritten(c, Join(from), Join(to)), MovedDirs(t, roots, from, to), MovedOf(of, from, to);
    assert InUse(c, of) && Entries(c, t, k, of) && Distinct(of) && Covers(of, t) by {
      TracksParts(c, t, k, of);
    }
    hide InUse, Entries, Distinct, Covers, MovedDirs, Rewritten, MovedOf;
    RewriteEntries(c, t, k, of, roots, from, to);
    MovedDistinct(t, of, roots, from, to);
    MovedCovers(t, of, roots, from, to);
    TracksWhole(d, r, k, of');
  }

  lemma TracksParts(c: seq<Slot>, t: Dirs, k: Kernel, of: map<nat, Path>)
    requires Tracks(c, t, k, of)
    ensures InUse(c, of) && Entries(c, t, k, of) && Distinct(of) && Covers(of, t)
  {
    hide InUse, Entries, Distinct, Covers;
  }

  lemma TracksWhole(c: seq<Slot>, t: Dirs, k: Kernel, of: map<nat, Path>)
    requires InUse(c, of) && Entries(c, t, k, of) && Distinct(of) && Covers(of, t)
    ensures Tracks(c, t, k, of)
  {
    hide InUse, Entries, Distinct, Covers;
  }

  lemma RewriteEntries(c: seq<Slot>, t: Dirs, k: Kernel, of: map<nat, Path>, roots: set<string>, from: Path, to: Path)
    requires Forest(t, roots) && InUse(c, of) && Entries(c, t, k, of) && CanMove(t, roots, from, to) && IsPath(from)
    requires forall j :: j in of ==> of[j] in t && IsPath(of[j]) && (from[0] == of[j][0] || Apart(from[0], of[j][0]))
    ensures InUse(Rewritten(c, Join(from), Join(to)), MovedOf(of, from, to))
    ensures Entries(Rewritten(c, Join(from), Join(to)), MovedDirs(t, roots, from, to), k, MovedOf(of, from, to))
  {
    hide Forest;
    RewriteSlots(c, t, k, of, from, to);
    hide MovedDirs, CanMove, Rewrite, Moved, IsPath, Join;
  }

  lemma MovedDistinct(t: Dirs, of: map<nat, Path>, roots: set<string>, from: Path, to: Path)
    requires Forest(t, roots) && CanMove(t, roots, from, to) && Distinct(of) && forall j :: j in of ==> of[j] in t
    ensures Distinct(MovedOf(of, from, to))
  {
    hide Forest, CanMove, Moved;
    var of' := MovedOf(of, from, to);
    forall i, j | i in of' && j in of' && i != j
      ensures of'[i] != of'[j]
    {
      MovedApart(t, roots, from, to, of[i], of[j]);
    }
  }

  lemma MovedCovers(t: Dirs, of: map<nat, Path>, roots: set<string>, from: Path, to: Path)
    requires Forest(t, roots) && CanMove(t, roots, from, to) && Covers(of, t)
    ensures Covers(MovedOf(of, from, to), MovedDirs(t, roots, from, to))
  {
    hide Forest, CanMove, Moved, MovedDirs;
    var of', r := MovedOf(of, from, to), MovedDirs(t, roots, from, to);
    forall q | q in r
      ensures exists j :: j in of' && of'[j] == q
    {
      var p :| p in t && Moved(p, from, to) == q;
      var j :| j in of && of[j] == p;
      assert of'[j] == q;
    }
  }

  lemma RewriteSlots(c: seq<Slot>, t: Dirs, k: Kernel, of: map<nat, Path>, from: Path, to: Path)
    requires InUse(c, of) && Entries(c, t, k, of) && IsPath(from) && IsPath(to)
    requires forall j :: j in of ==> IsPath(of[j]) && (from[0] == of[j][0] || Apart(from[0], of[j][0]))
    ensures forall j :: 0 <= j < |c| ==>
      if j in of then Moved(of[j], from, to) != [] &&
        Rewritten(c, Join(from), Join(to))[j] == Slot(c[j].wd, Join(Moved(of[j], from, to)))
      else Rewritten(c, Join(from), Join(to))[j] == c[j]
  {
    forall j | 0 <= j < |c|
      ensures if j in of then Moved(of[j], from, to) != [] &&
        Rewritten(c, Join(from), Join(to))[j] == Slot(c[j].wd, Join(Moved(of[j], from, to)))
              else Rewritten(c, Join(from), Join(to))[j] == c[j]
    {
      if j in of {
        RewriteIsMove(of[j], from, to);
      } else {
        JoinSome(from);
      }
    }
  }

  lemma JoinSome(p: Path)
    requires IsPath(p)
    ensures Join(p) != "" && !Under(Join(p), "")
  {
  }

  // ---- Directories that go --------------------------------------------------

  /** t without from and all in it. */
  function Outside(t: Dirs, from: Path): Dirs {
    map p | p in t && !(from <= p) :: t[p]
  }

  ghost function Dropped(t: Dirs, k: Kernel, from: Path): Kernel {
    k.(watches := map i | i in k.watches && i in Outside(t, from).Values :: k.watches[i])
  }

  lemma OutsideForest(t: Dirs, roots: set<string>, from: Path)
    requires Forest(t, roots)
    ensures Forest(Outside(t, from), roots)
  {
    var r := Outside(t, from);
    forall p | p in r && |p| > 1
      ensures Parent(p) in r
    {
      assert Parent(p) in t;
    }
  }

  lemma OutsideWatched(t: Dirs, roots: set<string>, k: Kernel, from: Path)
    requires Forest(t, roots) && Watched(t, k)
    ensures Watched(Outside(t, from), Dropped(t, k, from))
  {
    var r := Outside(t, from);
    forall p | p in r
      ensures r[p] in r.Values && t[p] in k.watches
    {
    }
  }

  /** zapSubtree, slot by slot. */
  function Zapped(c: seq<Slot>, f: string): seq<Slot> {
    seq(|c|, j requires 0 <= j < |c| => if c[j].wd >= 0 && Under(f, c[j].path) then UNUSED else c[j])
  }

  ghost function OutsideOf(of: map<nat, Path>, from: Path): map<nat, Path> {
    map j | j in of && !(from <= of[j]) :: of[j]
  }

  lemma ZapSyncs(c: seq<Slot>, t: Dirs, k: Kernel, of: map<nat, Path>, roots: set<string>, from: Path)
    requires Synced(c, t, k, of, roots) && IsPath(from) && from[0] in roots
    ensures Synced(Zapped(c, Join(from)), Outside(t, from), Dropped(t, k, from), OutsideOf(of, from), roots)
  {
    OutsideForest(t, roots, from);
    OutsideWatched(t, roots, k, from);
    forall j | 0 <= j < |c| && j in of
      ensures of[j] != [] && (Under(Join(from), Join(of[j])) <==> from <= of[j])
    {
      ForestUnder(t, roots, from, of[j]);
    }
    assert forall j :: j in of ==> j < |c| && c[j].wd >= 0;
    hide Forest, Watched, Outside, Dropped, Tracks, Join, Under;
    ZapTracks(c, t, k, of, from);
  }

  lemma ZapTracks(c: seq<Slot>, t: Dirs, k: Kernel, of: map<nat, Path>, from: Path)
    requires Tracks(c, t, k, of) && from != []
    requires forall j :: 0 <= j < |c| && j in of ==> of[j] != [] && (Under(Join(from), Join(of[j])) <==> from <= of[j])
    requires forall j :: j in of ==> j < |c| && c[j].wd >= 0
    ensures Tracks(Zapped(c, Join(from)), Outside(t, from), Dropped(t, k, from), OutsideOf(of, from))
  {
    assert forall j :: 0 <= j < |c| && j in of ==> c[j].path == Join(of[j]);
    hide Under, Join, Dropped, Zapped, InUse, Entries, Distinct, Covers;
    ZapInUse(c, of, from);
    ZapEntries(c, t, k, of, from);
    assert Distinct(OutsideOf(of, from)) by {
      OutsideDistinct(of, from);
    }
    OutsideCovers(of, t, from);
  }

  lemma OutsideDistinct(of: map<nat, Path>, from: Path)
    requires Distinct(of)
    ensures Distinct(OutsideOf(of, from))
  {
  }

  lemma OutsideCovers(of: map<nat, Path>, t: Dirs, from: Path)
    requires Covers(of, t)
    ensures Covers(OutsideOf(of, from), Outside(t, from))
  {
    var of' := OutsideOf(of, from);
    forall p | p in Outside(t, from)
      ensures exists j :: j in of' && of'[j] == p
    {
      var j :| j in of && of[j] == p;
      assert of'[j] == p;
    }
  }

  lemma ZapInUse(c: seq<Slot>, of: map<nat, Path>, from: Path)
    requires InUse(c, of) && from != [] && forall j :: j in of ==> j < |c| && c[j].wd >= 0
    requires forall j :: 0 <= j < |c| && j in of ==> of[j] != [] && (Under(Join(from), Join(of[j])) <==> from <= of[j])
    requires forall j :: 0 <= j < |c| && j in of ==> c[j].path == Join(of[j])
    ensures InUse(Zapped(c, Join(from)), OutsideOf(of, from))
  {
    hide Under, Join;
  }

  lemma ZapEntries(c: seq<Slot>, t: Dirs, k: Kernel, of: map<nat, Path>, from: Path)
    requires Entries(c, t, k, of) && from != []
    requires forall j :: 0 <= j < |c| && j in of ==> of[j] != [] && (Under(Join(from), Join(of[j])) <==> from <= of[j])
    ensures Entries(Zapped(c, Join(from)), Outside(t, from), Dropped(t, k, from), OutsideOf(of, from))
  {
    hide Under, Join, Dropped;
    forall j | j in of && !(from <= of[j])
      ensures t[of[j]] in Dropped(t, k, from).watches
           && Dropped(t, k, from).watches[t[of[j]]] == k.watches[t[of[j]]]
    {
      DroppedKeeps(t, k, from, of[j]);
    }
  }

  lemma DroppedKeeps(t: Dirs, k: Kernel, from: Path, p: Path)
    requires p in t && t[p] in k.watches && !(from <= p)
    ensures t[p] in Dropped(t, k, from).watches && Dropped(t, k, from).watches[t[p]] == k.watches[t[p]]
  {
    assert Outside(t, from)[p] == t[p];
  }

  // ---- Directories that come ------------------------------------------------

  /** inotify_add_watch on i-node i. */
  function AddWatch(k: Kernel, i: nat): (Kernel, int) {
    if i in k.watches then (k, k.watches[i])
    else (Kernel(k.watches[i := k.nextWd], k.nextWd + 1), k.nextWd)
  }

  lemma AddSyncs(c: seq<Slot>, t: Dirs, k: Kernel, of: map<nat, Path>, roots: set<string>, p: Path, i: nat, j: nat)
    requires Synced(c, t, k, of, roots) && Forest(t[p := i], roots) && p !in t
    requires j < |c| && c[j] == UNUSED
    ensures AddWatch(k, i).1 == k.nextWd && (forall x :: 0 <= x < |c| ==> c[x].wd != k.nextWd)
    ensures p != [] && Synced(c[j := Slot(k.nextWd, Join(p))], t[p := i], AddWatch(k, i).0, of[j := p], roots)
  {
    var u := t[p := i];
    assert p in u && IsPath(p);
    assert i !in t.Values by {
      assert forall q :: q in t ==> q in u && t[q] == u[q] && u[q] != u[p];
    }
    assert forall x :: 0 <= x < |c| ==> c[x].wd != k.nextWd by {
      forall x | 0 <= x < |c|
        ensures c[x].wd != k.nextWd
      {
        assert x in of || c[x].wd == -1;
      }
    }
    AddWatched(t, k, p, i);
    hide Forest, Watched;
    AddTracks(c, t, k, of, p, i, j);
  }

  lemma AddWatched(t: Dirs, k: Kernel, p: Path, i: nat)
    requires Watched(t, k) && i !in k.watches && p !in t
    ensures Watched(t[p := i], AddWatch(k, i).0)
  {
    var u := t[p := i];
    forall x | x in AddWatch(k, i).0.watches
      ensures x in u.Values
    {
      if x == i {
        assert u[p] == i;
      } else {
        var q :| q in t && t[q] == x;
        assert u[q] == x;
      }
    }
  }

  lemma AddTracks(c: seq<Slot>, t: Dirs, k: Kernel, of: map<nat, Path>, p: Path, i: nat, j: nat)
    requires Tracks(c, t, k, of) && i !in k.watches && p !in t && p != [] && k.nextWd >= 1 && j < |c| && c[j] == UNUSED
    ensures Tracks(c[j := Slot(k.nextWd, Join(p))], t[p := i], AddWatch(k, i).0, of[j := p])
  {
    hide Join;
    AddCovers(of, t, p, i, j);
    AddDistinct(of, t, p, j);
    hide Covers, Distinct;
  }

  lemma AddDistinct(of: map<nat, Path>, t: Dirs, p: Path, j: nat)
    requires Distinct(of) && p !in t && forall x :: x in of ==> of[x] in t
    ensures Distinct(of[j := p])
  {
  }

  lemma AddCovers(of: map<nat, Path>, t: Dirs, p: Path, i: nat, j: nat)
    requires Covers(of, t) && j !in of
    ensures Covers(of[j := p], t[p := i])
  {
    var of' := of[j := p];
    forall q {:trigger q in t[p := i]} | q in t[p := i]
      ensures exists x :: x in of' && of'[x] == q
    {
      if q == p {
        assert of'[j] == p;
      } else {
        var x :| x in of && of[x] == q;
        assert of'[x] == q;
      }
    }
  }

  /** More unused slots. */
  lemma GrowTracks(c: seq<Slot>, d: seq<Slot>, t: Dirs, k: Kernel, of: map<nat, Path>)
    requires Tracks(c, t, k, of) && c <= d && (forall j :: |c| <= j < |d| ==> d[j] == UNUSED)
    ensures Tracks(d, t, k, of)
  {
    assert forall j :: 0 <= j < |c| ==> d[j] == c[j];
  }
}
