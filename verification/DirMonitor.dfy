/** The monitor: a cache of watched directories kept up to date by inotify events. */
module DirMonitor {
  import opened Values
  import opened DirPath
  import opened DirCache

  const ALLOC_INCR := 200

  /** Slots 0 to n - 1 that zapSubtree has taken wd from. */
  ghost predicate ZapsWd(c: seq<Slot>, f: string, n: nat, wd: int)
    requires n <= |c|
  {
    wd >= 0 && exists j :: 0 <= j < n && c[j].wd == wd && Under(f, c[j].path)
  }

  /** The watches left after those. */
  ghost function Unwatched(k: Kernel, c: seq<Slot>, f: string, n: nat): Kernel
    requires n <= |c|
  {
    k.(watches := map i | i in k.watches && !ZapsWd(c, f, n, k.watches[i]) :: k.watches[i])
  }

  /** A slot to zap whose descriptor is not watched, or is zapped before. */
  ghost predicate CannotZap(k: Kernel, c: seq<Slot>, f: string) {
    exists j :: 0 <= j < |c| && c[j].wd >= 0 && Under(f, c[j].path)
             && (c[j].wd !in k.watches.Values || ZapsWd(c, f, j, c[j].wd))
  }

  // ---- Changes and their events ---------------------------------------------

  datatype Kind = Create | MovedFrom | MovedTo | DeleteSelf | MoveSelf | Ignored | Overflow

  datatype Event = Event(wd: int, kind: Kind, isDir: bool, cookie: nat, name: string)

  datatype Change =
    | Appear(parent: Path, name: string, moved: bool, sub: Dirs)  // mkdir or rename into the tree
    | Vanish(p: Path)                                             // rmdir
    | Rename(from: Path, to: Path, cookie: nat)                   // rename within the tree
    | Leave(from: Path, cookie: nat)                              // rename out of the tree
    | RootMoved(root: string)
    | Lost(t: Dirs)                                               // queue overflow

  ghost predicate Legal(c: Change, t: Dirs, roots: set<string>) {
    Forest(t, roots) &&
    match c
    case Appear(parent, name, _, sub) =>
      && parent in t && parent + [name] !in t && parent + [name] in sub && Forest(t + sub, roots)
      && forall q :: q in sub ==> parent + [name] <= q
    case Vanish(p) => p in t && forall q :: q in t && p <= q ==> q == p
    case Rename(from, to, _) => CanMove(t, roots, from, to)
    case Leave(from, _) => from in t && |from| > 1
    case RootMoved(root) => [root] in t
    case Lost(u) => Forest(u, roots)
  }

  function After(c: Change, t: Dirs, ghost roots: set<string>): Dirs
    requires Legal(c, t, roots)
  {
    match c
    case Appear(_, _, _, sub) => t + sub
    case Vanish(p) => Outside(t, p)
    case Rename(from, to, _) => MovedDirs(t, roots, from, to)
    case Leave(from, _) => Outside(t, from)
    case RootMoved(root) => Outside(t, [root])
    case Lost(u) => u
  }

  /** The kernel drops the watch of a directory that is removed. */
  function KernelAfter(c: Change, t: Dirs, k: Kernel): Kernel {
    if c.Vanish? && c.p in t then k.(watches := k.watches - {t[c.p]}) else k
  }

  function Last(p: Path): string
    requires p != []
  {
    p[|p| - 1]
  }

  ghost predicate Of(ev: Event, t: Dirs, k: Kernel, p: Path) {
    p in t && t[p] in k.watches && ev.wd == k.watches[t[p]]
  }

  /** The events of a change. */
  ghost predicate Announces(c: Change, t: Dirs, k: Kernel, ev: Event, next: Option<Event>) {
    match c
    case Appear(parent, name, moved, _) =>
      Of(ev, t, k, parent) && ev.isDir && ev.name == name && ev.kind == (if moved then MovedTo else Create)
    case Vanish(p) => Of(ev, t, k, p) && ev.kind == DeleteSelf
    case Rename(from, to, cookie) =>
      && from != [] && to != []
      && Of(ev, t, k, Parent(from)) && ev.isDir && ev.kind == MovedFrom && ev.cookie == cookie && ev.name == Last(from)
      && next.Some? && Of(next.value, t, k, Parent(to)) && next.value.kind == MovedTo && next.value.cookie == cookie
      && next.value.name == Last(to)
    case Leave(from, cookie) =>
      && from != [] && Of(ev, t, k, Parent(from)) && ev.isDir && ev.kind == MovedFrom && ev.cookie == cookie &&
           ev.name == Last(from)
      && (next.Some? ==> next.value.kind != MovedTo || next.value.cookie != cookie)
    case RootMoved(root) => Of(ev, t, k, [root]) && ev.kind == MoveSelf
    case Lost(_) => ev.wd == -1 && ev.kind == Overflow
  }

  /** An event that tells of no directory or one the cache has already, or whose
      descriptor is not in the cache. */
  ghost predicate Empty(ev: Event, c: seq<Slot>, t: Dirs, k: Kernel) {
    || ev.kind == Ignored
    || (ev.wd != -1 && !ev.isDir && (ev.kind == Create || ev.kind == MovedFrom || ev.kind == MovedTo))
    || (ev.isDir && (ev.kind == Create || ev.kind == MovedTo) && exists d :: Of(ev, t, k, d) && d + [ev.name] in t)
    || (ev.wd != -1 && forall j :: 0 <= j < |c| ==> c[j].wd != ev.wd)
  }

  const REST := 1000

  /** A root that is removed or moved is not monitored any more. */
  function RootsAfter(c: Change, roots: set<string>): set<string> {
    match c
    case Vanish(p) => if |p| == 1 then roots - {p[0]} else roots
    case RootMoved(root) => roots - {root}
    case _ => roots
  }

  // ---- The monitor -----------------------------------------------------------

  class Monitor {
    /** wlCache. */
    var cache: seq<Slot>
    /** rootDirPaths. */
    var roots: seq<Option<string>>
    /** The inotify instance. */
    var kernel: Kernel
    /** The directories under the roots, which others change. */
    var dirs: Dirs
    /** No roots are left. */
    var stopped: bool
    ghost var of: map<nat, Path>

    ghost function RootSet(): set<string>
      reads this
    {
      RootsUpTo(roots, |roots|)
    }

    /** findWatch: the first slot with this descriptor. */
    method FindWatch(wd: int) returns (slot: int)
      ensures -1 <= slot < |cache|
      ensures slot == -1 ==> forall j :: 0 <= j < |cache| ==> cache[j].wd != wd
      ensures slot >= 0 ==> cache[slot].wd == wd && forall j :: 0 <= j < slot ==> cache[j].wd != wd
    {
      var j := 0;
      while j < |cache|
        invariant 0 <= j <= |cache| && forall i :: 0 <= i < j ==> cache[i].wd != wd
      {
        if cache[j].wd == wd {
          return j;
        }
        j := j + 1;
      }
      return -1;
    }

    /** pathnameInCache. */
    method PathInCache(path: string) returns (b: bool)
      ensures b <==> exists j :: 0 <= j < |cache| && cache[j].wd >= 0 && cache[j].path == path
    {
      var j := 0;
      while j < |cache|
        invariant 0 <= j <= |cache| && forall i :: 0 <= i < j ==> !(cache[i].wd >= 0 && cache[i].path == path)
      {
        if cache[j].wd >= 0 && cache[j].path == path {
          return true;
        }
        j := j + 1;
      }
      return false;
    }

    /** findEmptyCacheSlot: the first unused slot, of a longer cache if there is none. */
    method FindEmptySlot() returns (slot: nat)
      requires forall j :: 0 <= j < |cache| && cache[j].wd == -1 ==> cache[j] == UNUSED
      modifies `cache
      ensures old(cache) <= cache && forall j :: |old(cache)| <= j < |cache| ==> cache[j] == UNUSED
      ensures slot < |cache| && cache[slot] == UNUSED && forall j :: 0 <= j < slot ==> cache[j].wd != -1
      ensures |cache| == |old(cache)| || (|cache| == |old(cache)| + ALLOC_INCR && slot == |old(cache)|)
    {
      var j := 0;
      while j < |cache|
        invariant 0 <= j <= |cache| && forall i :: 0 <= i < j ==> cache[i].wd != -1
      {
        if cache[j].wd == -1 {
          return j;
        }
        j := j + 1;
      }
      slot := |cache|;
      cache := cache + seq(ALLOC_INCR, _ => UNUSED);
    }

    /** isRootDirPath. */
    method IsRootPath(path: string) returns (b: bool)
      ensures b <==> path in RootSet()
    {
      var j := 0;
      while j < |roots|
        invariant 0 <= j <= |roots| && forall i :: 0 <= i < j ==> roots[i] != Some(path)
      {
        if roots[j] == Some(path) {
          return true;
        }
        j := j + 1;
      }
      return false;
    }

    /** The directories nftw walks over from p, in some order with each directory
        before those in it; none when p is not there. */
    method Nftw(p: Path) returns (listing: seq<Path>)
      requires p != [] && Forest(dirs, RootSet())
      ensures forall q :: q in listing <==> q in dirs && p <= q
      ensures forall i, j :: 0 <= i < j < |listing| ==> listing[i] != listing[j]
      ensures ParentsFirst(listing, p)
    {
      hide Forest, ParentsFirst, Parent;
      var todo := set q | q in dirs && p <= q;
      listing := [];
      assert ParentsFirst(listing, p) by {
        NoneFirst(p);
      }
      while todo != {}
        invariant forall q :: q in todo ==> q in dirs && p <= q && q !in listing
        invariant forall q :: q in listing ==> q in dirs && p <= q
        invariant forall q :: q in dirs && p <= q ==> q in todo || q in listing
        invariant forall i, j :: 0 <= i < j < |listing| ==> listing[i] != listing[j]
        invariant ParentsFirst(listing, p)
        decreases |todo|
      {
        ghost var x :| x in todo;
        ghost var y := Climb(dirs, RootSet(), p, todo, listing, x);
        var q :| q in todo && (q == p || Parent(q) in listing);
        ParentListed(listing, p, q);
        listing, todo := listing + [q], todo - {q};
      }
    }

    /** rewriteCachedPaths. */
    method RewriteCachedPaths(oldPrefix: string, oldName: string, newPrefix: string, newName: string)
      modifies `cache
      ensures cache == Rewritten(old(cache), oldPrefix + "/" + oldName, newPrefix + "/" + newName)
    {
      var fullPath := oldPrefix + "/" + oldName;
      var newPath := newPrefix + "/" + newName;
      var len := |fullPath|;
      var j := 0;
      ghost var done := Rewritten(cache, fullPath, newPath);
      while j < |cache|
        invariant 0 <= j <= |cache| == |old(cache)|
        invariant forall i :: 0 <= i < j ==> cache[i] == done[i]
        invariant forall i :: j <= i < |cache| ==> cache[i] == old(cache)[i]
      {
        var path := cache[j].path;
        if fullPath <= path && (len == |path| || path[len] == '/') {
          cache := cache[j := cache[j].(path := newPath + path[len..])];
        }
        j := j + 1;
      }
    }

    /** inotify_rm_watch. */
    method RmWatch(wd: int) returns (ok: bool)
      modifies `kernel
      ensures ok <==> wd in old(kernel).watches.Values
      ensures kernel == old(kernel).(watches := map i | i in old(kernel).watches &&
        old(kernel).watches[i] != wd :: old(kernel).watches[i])
    {
      ok := wd in kernel.watches.Values;
      kernel := kernel.(watches := map i | i in kernel.watches && kernel.watches[i] != wd :: kernel.watches[i]);
    }

    /** zapSubtree: it fails at the first slot whose descriptor is not watched. */
    method ZapSubtree(path: string) returns (cnt: int)
      modifies `cache, `kernel
      ensures cnt >= 0 ==> cache == Zapped(old(cache), path)
      ensures cnt >= 0 ==> kernel == Unwatched(old(kernel), old(cache), path, |old(cache)|)
      ensures cnt < 0 ==> cnt == -1 && CannotZap(old(kernel), old(cache), path)
    {
      cnt := 0;
      var j := 0;
      ghost var c := cache;
      assert Unwatched(kernel, c, path, 0).watches == kernel.watches;
      while j < |cache|
        invariant 0 <= j <= |cache| == |c| && cnt >= 0
        invariant forall i :: 0 <= i < j ==> cache[i] == Zapped(c, path)[i]
        invariant forall i :: j <= i < |c| ==> cache[i] == c[i]
        invariant kernel == Unwatched(old(kernel), c, path, j)
      {
        if cache[j].wd >= 0 && path <= cache[j].path && (|path| == |cache[j].path| || cache[j].path[|path|] == '/') {
          var wd := cache[j].wd;
          ghost var k := kernel;
          var ok := RmWatch(wd);
          if !ok {
            StillWatched(old(kernel), c, path, j, wd);
            return -1;
          }
          UnwatchOne(old(kernel), c, path, j);
          cache := cache[j := UNUSED];
          cnt := cnt + 1;
        } else {
          UnwatchNone(old(kernel), c, path, j);
        }
        j := j + 1;
      }
    }

    /** addWatchToCache. */
    method AddToCache(wd: int, path: string) returns (slot: nat)
      requires forall j :: 0 <= j < |cache| && cache[j].wd == -1 ==> cache[j] == UNUSED
      modifies `cache
      ensures slot < |cache| && exists grown: seq<Slot> ::
        && old(cache) <= grown && (forall j :: |old(cache)| <= j < |grown| ==> grown[j] == UNUSED)
        && slot < |grown| && grown[slot] == UNUSED && cache == grown[slot := Slot(wd, path)]
    {
      slot := FindEmptySlot();
      ghost var grown := cache;
      cache := cache[slot := Slot(wd, path)];
    }

    /** traverseTree for a directory the cache does not have yet. */
    method Traverse(p: Path, ghost t: Dirs)
      requires p in dirs && p !in t && Forest(t[p := dirs[p]], RootSet()) && Synced(cache, t, kernel, of, RootSet())
      modifies `cache, `kernel, `of
      ensures Synced(cache, t[p := dirs[p]], kernel, of, RootSet())
    {
      hide Synced, Forest, Join, RootsUpTo, AddWatch;
      PathSome(t, p, dirs[p], RootSet());
      var added := AddWatch(kernel, dirs[p]);
      var wd := added.1;
      ghost var k := kernel;
      var slot := FindWatch(wd);
      FreshWatch(cache, t, k, of, RootSet(), p, dirs[p]);
      kernel := added.0;
      if slot < 0 {
        var j := AddToCache(wd, Join(p));
        ghost var grown :| old(cache) <= grown && (forall j :: |old(cache)| <= j < |grown| ==> grown[j] == UNUSED)
                        && j < |grown| && grown[j] == UNUSED && cache == grown[j := Slot(wd, Join(p))];
        GrowSyncs(old(cache), grown, t, k, of, RootSet());
        AddSyncs(grown, t, k, of, RootSet(), p, dirs[p], j);
        of := of[j := p];
      }
    }

    /** watchSubtree: the cache gets all directories from p on. */
    method WatchSubtree(p: Path, ghost t: Dirs)
      requires p != [] && Forest(t, RootSet()) && Forest(dirs, RootSet())
      requires Synced(cache, Outside(t, p), kernel, of, RootSet())
      requires forall q :: p <= q ==> ((q in t <==> q in dirs) && (q in t ==> t[q] == dirs[q]))
      modifies `cache, `kernel, `of
      ensures Synced(cache, t, kernel, of, RootSet())
    {
      hide Forest, Synced, ParentsFirst, Parent;
      var listing := Nftw(p);
      var i := 0;
      assert Listed(t, p, []) == Outside(t, p);
      while i < |listing|
        invariant 0 <= i <= |listing| && RootSet() == old(RootSet())
        invariant Synced(cache, Listed(t, p, listing[..i]), kernel, of, RootSet())
      {
        var q := listing[i];
        assert q in listing;
        ListMore(t, p, listing, i);
        ListedForest(t, p, listing, i, RootSet());
        Traverse(q, Listed(t, p, listing[..i]));
        i := i + 1;
      }
      assert listing[..i] == listing;
      ListAll(t, p, listing);
    }

    /** reinitialize: a new inotify instance and a cache built from nothing. */
    method Reinitialize()
      requires Forest(dirs, RootSet()) && RootsOnce(roots)
      modifies `cache, `kernel, `of
      ensures Synced(cache, dirs, kernel, of, RootSet())
    {
      hide Forest, Synced;
      kernel, cache, of := Kernel(map[], 1), [], map[];
      var j := 0;
      StartSynced(dirs, RootSet());
      while j < |roots|
        invariant 0 <= j <= |roots| && RootSet() == old(RootSet())
        invariant Synced(cache, Rooted(dirs, RootsUpTo(roots, j)), kernel, of, RootSet())
      {
        if roots[j].Some? {
          ghost var t := Rooted(dirs, RootsUpTo(roots, j + 1));
          var r := roots[j].value;
          NextRoot(dirs, roots, j, RootSet());
          WatchSubtree([r], t);
        } else {
          assert RootsUpTo(roots, j + 1) == RootsUpTo(roots, j);
        }
        j := j + 1;
      }
      AllRooted(dirs, roots, RootSet());
    }

    // ---- Events -------------------------------------------------------------

    /** The event is news of ch, which took the directories from t to what they are;
        or, without a change, it is of no directory or of no known descriptor. */
    ghost predicate Ready(ev: Event, next: Option<Event>, ch: Option<Change>, t: Dirs, k: Kernel)
      reads this
    {
      && !stopped && RootsOnce(roots) && Synced(cache, t, k, of, RootSet())
      && Happened(cache, t, k, RootSet(), ch, dirs, kernel, ev, next)
    }

    /** The cache is exact again. */
    ghost predicate Exactly()
      reads this
    {
      RootsOnce(roots) && Synced(cache, dirs, kernel, of, RootSet())
    }

    /** A directory was created in directory d, or renamed into it: t becomes dirs,
        unless the cache has it already. */
    method OnAppear(slot: nat, name: string, ghost d: Path, ghost t: Dirs)
      requires Synced(cache, t, kernel, of, RootSet()) && RootsOnce(roots) && slot < |cache| && slot in of
      requires of[slot] == d
      requires Forest(dirs, RootSet()) && d + [name] in dirs && (dirs == t || Outside(dirs, d + [name]) == t)
      modifies `cache, `kernel, `of
      ensures Exactly()
    {
      hide Forest, Synced, Join, Outside;
      var fullPath := cache[slot].path + "/" + name;
      ghost var p := d + [name];
      ChildPath(cache, t, kernel, of, RootSet(), slot, name);
      var there := PathInCache(fullPath);
      if !there {
        MissIsNew(cache, t, kernel, of, RootSet(), dirs, p);
        var q := PathOf(fullPath, p);
        WatchSubtree(q, dirs);
      } else {
        CachedIsThere(cache, t, kernel, of, RootSet(), dirs, p);
      }
    }

    /** The directory a pathname names. */
    method PathOf(path: string, ghost p: Path) returns (q: Path)
      requires p in dirs && p != [] && Join(p) == path && Forest(dirs, RootSet())
      ensures q == p
    {
      q :| q in dirs && q != [] && Join(q) == path;
      JoinInjective(p, q);
    }

    /** zapRootDirPath: the program ends when it was the last root. */
    method ZapRoot(path: string)
      requires path in RootSet() && RootsOnce(roots)
      modifies `roots, `stopped
      ensures RootSet() == old(RootSet()) - {path} && RootsOnce(roots)
      ensures stopped <==> old(stopped) || RootSet() == {}
    {
      var j := 0;
      while roots[j] != Some(path)
        invariant 0 <= j < |roots| && exists i :: j <= i < |roots| && roots[i] == Some(path)
        decreases |roots| - j
      {
        j := j + 1;
      }
      ghost var rs := roots;
      roots := roots[j := None];
      RootGone(rs, j, path);
      var left := false;
      var i := 0;
      while i < |roots|
        invariant 0 <= i <= |roots| && (left <==> exists x :: 0 <= x < i && roots[x].Some?)
      {
        left := left || roots[i].Some?;
        i := i + 1;
      }
      NoRoots(roots);
      stopped := stopped || !left;
    }

    /** A directory was removed; of a root, the program stops watching. */
    method OnVanish(slot: nat, ghost p: Path, ghost t: Dirs, ghost k: Kernel)
      requires Synced(cache, t, k, of, RootSet()) && RootsOnce(roots) && slot in of && of[slot] == p
      requires (forall q :: q in t && p <= q ==> q == p) && dirs == Outside(t, p)
      requires p in t && kernel == k.(watches := k.watches - {t[p]})
      modifies `cache, `of, `roots, `stopped
      requires !stopped
      ensures RootSet() == old(RootSet()) - (if |p| == 1 then {Join(p)} else {})
      ensures (stopped <==> RootSet() == {} && old(RootSet()) != {}) && (!stopped ==> Exactly())
    {
      hide Synced, Forest, Join, Outside;
      VanishIsZap(cache, t, k, of, RootSet(), p, slot);
      SyncedForest(cache, t, k, of, RootSet());
      RootPath(t, RootSet(), p);
      ghost var c, o, rs := cache[slot := UNUSED], of - {slot}, RootSet();
      SlotPath(cache, t, k, of, RootSet(), slot);
      var isRoot := IsRootPath(cache[slot].path);
      if isRoot {
        RootOutside(t, p);
        RootsShrink(c, dirs, kernel, o, rs, Join(p));
        ZapRoot(cache[slot].path);
        if stopped {
          return;
        }
      }
      cache, of := cache[slot := UNUSED], of - {slot};
    }

    /** A directory was renamed within the tree. */
    method OnRename(slot: nat, name: string, slot2: nat, name2: string, ghost from: Path, ghost to: Path, ghost t: Dirs)
      requires Synced(cache, t, kernel, of, RootSet()) && RootsOnce(roots) && CanMove(t, RootSet(), from, to)
      requires slot in of && of[slot] == Parent(from) && slot2 in of && of[slot2] == Parent(to)
      requires from != [] && to != [] && name == Last(from) && name2 == Last(to)
      requires Forest(t, RootSet()) && dirs == MovedDirs(t, RootSet(), from, to)
      modifies `cache, `of
      ensures Exactly() && cache == Rewritten(old(cache), Join(from), Join(to))
    {
      hide Synced, Forest, CanMove, MovedDirs, Rewritten;
      SlotPath(cache, t, kernel, of, RootSet(), slot);
      SlotPath(cache, t, kernel, of, RootSet(), slot2);
      ParentJoin(from);
      ParentJoin(to);
      RewriteSyncs(cache, t, kernel, of, RootSet(), from, to);
      RewriteCachedPaths(cache[slot].path, name, cache[slot2].path, name2);
      of := MovedOf(of, from, to);
    }

    /** Zap a subtree the tree has lost, and start anew if a watch is missing. */
    method Forget(path: string, ghost from: Path, ghost t: Dirs, ghost rs: set<string>) returns (rebuilt: bool)
      requires Synced(cache, t, kernel, of, rs) && IsPath(from) && from[0] in rs && path == Join(from)
      requires RootsOnce(roots) && dirs == Outside(t, from) && Forest(dirs, RootSet())
      modifies `cache, `kernel, `of
      ensures !rebuilt && Synced(cache, dirs, kernel, of, rs)
    {
      hide Synced, Forest, IsPath, Outside, Join;
      ghost var c, k, o := cache, kernel, of;
      ZapSyncs(cache, t, kernel, of, rs, from);
      UnwatchDrops(cache, t, kernel, of, rs, from);
      var cnt := ZapSubtree(path);
      if cnt == -1 {
        Reinitialize();
        rebuilt := true;
        ZapSucceeds(c, t, k, o, rs, path);
        assert false;
      } else {
        rebuilt := false;
        of := OutsideOf(of, from);
      }
    }

    /** A root was moved away: it is not watched any more. */
    method OnRootMoved(slot: nat, ghost p: Path, ghost t: Dirs) returns (rebuilt: bool)
      requires Synced(cache, t, kernel, of, RootSet()) && RootsOnce(roots) && !stopped
      requires slot in of && of[slot] == p && |p| == 1 && dirs == Outside(t, p)
      modifies `cache, `kernel, `of, `roots, `stopped
      ensures RootSet() == old(RootSet()) - {Join(p)} && !rebuilt
      ensures (stopped <==> RootSet() == {} && old(RootSet()) != {}) && (!stopped ==> Exactly())
    {
      hide Synced, Forest, Join, Outside;
      ghost var rs := RootSet();
      SlotPath(cache, t, kernel, of, rs, slot);
      SyncedForest(cache, t, kernel, of, rs);
      RootPath(t, rs, p);
      ForestPath(t, rs, p);
      RootOutside(t, p);
      OutsideForest(t, rs, p);
      ForestShrink(dirs, rs, Join(p));
      rebuilt := false;
      ZapRoot(cache[slot].path);
      if stopped {
        return;
      }
      rebuilt := Forget(cache[slot].path, p, t, rs);
      RootsShrink(cache, dirs, kernel, of, rs, Join(p));
    }

    // ---- One event after another --------------------------------------------

    lemma ForestNow(ev: Event, next: Option<Event>, ch: Option<Change>, t: Dirs, k: Kernel)
      requires Ready(ev, next, ch, t, k)
      ensures Forest(dirs, RootSet())
    {
      if ch.Some? {
        ChangeTells(ch.value, t, k, ev, next, RootSet());
      }
    }

    /** A descriptor that is not in the cache: build it anew. */
    method Unknown(ev: Event, ghost next: Option<Event>, ghost ch: Option<Change>, ghost t: Dirs, ghost k: Kernel)
      returns (used: int)
      requires Ready(ev, next, ch, t, k) && ev.wd != -1 && ev.kind != Ignored
      requires forall j :: 0 <= j < |cache| ==> cache[j].wd != ev.wd
      modifies `cache, `kernel, `of
      ensures Exactly() && used == REST && ch.None?
    {
      hide Synced, Forest, Legal, After, KernelAfter, Announces, Empty;
      ForestNow(ev, next, ch, t, k);
      ghost var c, o := cache, of;
      if ch.Some? {
        ReadyTells(ev, next, ch.value, t, k);
        Found(c, t, k, o, RootSet(), Subject(ch.value));
        assert false;
      }
      Reinitialize();
      used := REST;
    }

    lemma ReadyTells(ev: Event, next: Option<Event>, c: Change, t: Dirs, k: Kernel)
      requires Ready(ev, next, Some(c), t, k)
      ensures Tells(c, t, k, dirs, kernel, ev, RootSet())
    {
      ChangeTells(c, t, k, ev, next, RootSet());
    }

    /** IN_CREATE or IN_MOVED_TO of a directory. */
    method Appeared(slot: int, ev: Event, ghost next: Option<Event>, ghost ch: Option<Change>, ghost t: Dirs,
        ghost k: Kernel)
      requires Ready(ev, next, ch, t, k) && Slotted(cache, ev, slot) && ev.isDir
      requires ev.kind == Create || ev.kind == MovedTo
      modifies `cache, `kernel, `of
      ensures Exactly()
    {
      hide Synced, Forest, Legal, After, KernelAfter, Announces, Empty;
      AppearSlot(cache, t, k, of, RootSet(), ch, dirs, kernel, ev, next, slot);
      OnAppear(slot, ev.name, of[slot], t);
    }

    /** IN_DELETE_SELF. */
    method Vanished(slot: int, ev: Event, ghost next: Option<Event>, ghost ch: Option<Change>, ghost t: Dirs,
        ghost k: Kernel)
      requires Ready(ev, next, ch, t, k) && Slotted(cache, ev, slot) && ev.kind == DeleteSelf
      modifies `cache, `of, `roots, `stopped
      ensures (stopped <==> RootSet() == {} && old(RootSet()) != {}) && (!stopped ==> Exactly())
      ensures ch.Some? && RootSet() == RootsAfter(ch.value, old(RootSet()))
    {
      hide Synced, Forest, Legal, After, KernelAfter, Announces, Empty, Join;
      Facts(cache, t, k, of, RootSet(), ch, dirs, kernel, ev, next, slot);
      SlotOf(cache, t, k, of, RootSet(), ch.value.p, slot);
      RootPath(t, RootSet(), ch.value.p);
      OnVanish(slot, ch.value.p, t, k);
    }

    /** IN_MOVED_FROM of a directory with its IN_MOVED_TO. */
    method Renamed(slot: int, ev: Event, next: Event, ghost ch: Option<Change>, ghost t: Dirs, ghost k: Kernel)
      returns (used: int)
      requires Ready(ev, Some(next), ch, t, k) && Slotted(cache, ev, slot) && ev.isDir && ev.kind == MovedFrom
      requires next.kind == MovedTo && next.cookie == ev.cookie
      modifies `cache, `kernel, `of
      ensures Exactly() && used == 2
    {
      hide Synced, Forest, Legal, After, KernelAfter, Announces, Empty, CanMove, MovedDirs, Tells, Happened, Of;
      hide Parent, Rewritten;
      ghost var c := ReadyRename(slot, ev, next, ch, t, k);
      var slot2 := FindWatch(next.wd);
      if slot2 == -1 {
        ghost var c0, o := cache, of;
        Reinitialize();
        used := REST;
        Found(c0, t, k, o, RootSet(), Parent(c.to));
        assert false;
      } else {
        SlotOf(cache, t, k, of, RootSet(), Parent(c.to), slot2);
        OnRename(slot, ev.name, slot2, next.name, c.from, c.to, t);
        used := 2;
      }
    }

    lemma ReadyRename(slot: int, ev: Event, next: Event, ch: Option<Change>, t: Dirs, k: Kernel) returns (c: Change)
      requires Ready(ev, Some(next), ch, t, k) && Slotted(cache, ev, slot) && ev.isDir && ev.kind == MovedFrom
      requires next.kind == MovedTo && next.cookie == ev.cookie
      ensures IsRename(c, t, k, RootSet(), dirs, ev, next) && Forest(dirs, RootSet()) && kernel == k
      ensures 0 <= slot < |cache| && slot in of && of[slot] == Parent(c.from)
    {
      hide Synced, Forest, Legal, After, KernelAfter, Announces, Empty, CanMove, MovedDirs;
      Facts(cache, t, k, of, RootSet(), ch, dirs, kernel, ev, Some(next), slot);
      c := ch.value;
      MoveFacts(c, t, k, ev, Some(next), RootSet());
      SlotOf(cache, t, k, of, RootSet(), Parent(c.from), slot);
    }

    /** IN_MOVED_FROM of a directory without an IN_MOVED_TO. */
    method Left(slot: int, ev: Event, ghost next: Option<Event>, ghost ch: Option<Change>, ghost t: Dirs,
        ghost k: Kernel) returns (rebuilt: bool)
      requires Ready(ev, next, ch, t, k) && Slotted(cache, ev, slot) && ev.isDir && ev.kind == MovedFrom
      requires next.Some? ==> next.value.kind != MovedTo || next.value.cookie != ev.cookie
      modifies `cache, `kernel, `of
      ensures Exactly() && !rebuilt
    {
      hide Synced, Forest, Legal, After, KernelAfter, Announces, Empty, Outside, Join, IsPath;
      Facts(cache, t, k, of, RootSet(), ch, dirs, kernel, ev, next, slot);
      ghost var c := ch.value;
      MoveFacts(c, t, k, ev, next, RootSet());
      SlotOf(cache, t, k, of, RootSet(), Parent(c.from), slot);
      ParentJoin(c.from);
      rebuilt := Forget(cache[slot].path + "/" + ev.name, c.from, t, RootSet());
    }

    /** IN_MOVE_SELF, which only roots are watched for. */
    method MovedAway(slot: int, ev: Event, ghost next: Option<Event>, ghost ch: Option<Change>, ghost t: Dirs,
        ghost k: Kernel) returns (rebuilt: bool)
      requires Ready(ev, next, ch, t, k) && Slotted(cache, ev, slot) && ev.kind == MoveSelf
      modifies `cache, `kernel, `of, `roots, `stopped
      ensures (stopped <==> RootSet() == {} && old(RootSet()) != {}) && (!stopped ==> Exactly()) && !rebuilt
      ensures ch.Some? && RootSet() == RootsAfter(ch.value, old(RootSet()))
    {
      hide Synced, Forest, Legal, After, KernelAfter, Announces, Empty, Join;
      Facts(cache, t, k, of, RootSet(), ch, dirs, kernel, ev, next, slot);
      ghost var p := [ch.value.root];
      SlotOf(cache, t, k, of, RootSet(), p, slot);
      RootPath(t, RootSet(), p);
      rebuilt := false;
      var isRoot := IsRootPath(cache[slot].path);
      if isRoot {
        rebuilt := OnRootMoved(slot, p, t);
      }
    }

    /** processNextInotifyEvent: how many of the events it has dealt with, or -1 to
        be called again when more have been read; REST if the cache was rebuilt. */
    method ProcessNext(ev: Event, next: Option<Event>, firstTry: bool, ghost ch: Option<Change>, ghost t: Dirs,
        ghost k: Kernel)
      returns (used: int)
      requires Ready(ev, next, ch, t, k)
      modifies this
      ensures dirs == old(dirs)
      ensures used == -1 ==>
        && firstTry && next.None? && ch.Some? && ch.value.Leave?
        && cache == old(cache) && kernel == old(kernel) && of == old(of) && roots == old(roots) && !stopped
      ensures used != -1 ==> (stopped <==> RootSet() == {} && old(RootSet()) != {}) && (!stopped ==> Exactly())
      ensures used != -1 ==> RootSet() == if ch.Some? then RootsAfter(ch.value, old(RootSet())) else old(RootSet())
      ensures ch.Some? && used == REST ==> ch.value.Lost?
    {
      hide Synced, Forest, Legal, After, KernelAfter, Announces;
      ForestNow(ev, next, ch, t, k);
      var slot := -1;
      if ev.wd != -1 && ev.kind != Ignored {
        slot := FindWatch(ev.wd);
        if slot == -1 {
          used := Unknown(ev, next, ch, t, k);
          return;
        }
      }
      Facts(cache, t, k, of, RootSet(), ch, dirs, kernel, ev, next, slot);
      var rebuilt := false;
      used := 1;
      if ev.isDir && (ev.kind == Create || ev.kind == MovedTo) {
        Appeared(slot, ev, next, ch, t, k);
      } else if ev.kind == DeleteSelf {
        Vanished(slot, ev, next, ch, t, k);
      } else if ev.isDir && ev.kind == MovedFrom {
        if next.Some? && next.value.kind == MovedTo && next.value.cookie == ev.cookie {
          used := Renamed(slot, ev, next.value, ch, t, k);
        } else if next.Some? || !firstTry {
          rebuilt := Left(slot, ev, next, ch, t, k);
        } else {
          Hanging(t, k, ch.value, ev);
          used := -1;
        }
      } else if ev.kind == Overflow {
        Reinitialize();
        rebuilt := true;
      } else if ev.kind == MoveSelf {
        rebuilt := MovedAway(slot, ev, next, ch, t, k);
      }
      if rebuilt {
        used := REST;
      }
    }

    constructor (paths: seq<string>, tree: Dirs)
      requires Forest(tree, set j | 0 <= j < |paths| :: paths[j])
      requires forall i, j :: 0 <= i < j < |paths| ==> paths[i] != paths[j]
      ensures Exactly() && dirs == tree && !stopped && RootSet() == (set j | 0 <= j < |paths| :: paths[j])
    {
      roots := seq(|paths|, j requires 0 <= j < |paths| => Some(paths[j]));
      dirs, stopped := tree, false;
      new;
      AllRoots(paths, roots);
      Reinitialize();
    }

    /** The events inotify sends of a change. */
    method Events(ch: Change) returns (ev: Event, next: Option<Event>)
      requires Exactly() && Legal(ch, dirs, RootSet())
      ensures Announces(ch, dirs, kernel, ev, next)
    {
      SubjectWatched(ch, dirs, kernel, RootSet());
      next := None;
      match ch
      case Appear(parent, name, moved, sub) =>
        ev := Event(kernel.watches[dirs[parent]], if moved then MovedTo else Create, true, 0, name);
      case Vanish(p) => ev := Event(kernel.watches[dirs[p]], DeleteSelf, false, 0, "");
      case Rename(from, to, cookie) =>
        ev := Event(kernel.watches[dirs[Parent(from)]], MovedFrom, true, cookie, Last(from));
        next := Some(Event(kernel.watches[dirs[Parent(to)]], MovedTo, true, cookie, Last(to)));
      case Leave(from, cookie) => ev := Event(kernel.watches[dirs[Parent(from)]], MovedFrom, true, cookie, Last(from));
      case RootMoved(root) => ev := Event(kernel.watches[dirs[[root]]], MoveSelf, false, 0, "");
      case Lost(u) => ev := Event(-1, Overflow, false, 0, "");
    }

    /** IN_IGNORED of each of these descriptors, whatever it once watched. */
    method Ignore(wds: seq<int>)
      requires Exactly() && !stopped
      modifies this
      ensures Exactly() && !stopped && dirs == old(dirs) && RootSet() == old(RootSet())
    {
      hide Synced, Forest, RootsUpTo;
      var i := 0;
      while i < |wds|
        invariant 0 <= i <= |wds| && Exactly() && !stopped && dirs == old(dirs) && RootSet() == old(RootSet())
      {
        var used := ProcessNext(Event(wds[i], Ignored, false, 0, ""), None, true, None, dirs, kernel);
        i := i + 1;
      }
    }

    /** A change of the tree, then its events, then those of the watches it ended. */
    method Witness(ch: Change, ignored: seq<int>)
      requires Exactly() && !stopped && Legal(ch, dirs, RootSet())
      modifies this
      ensures dirs == After(ch, old(dirs), old(RootSet()))
      ensures RootSet() == RootsAfter(ch, old(RootSet()))
      ensures (stopped <==> RootSet() == {} && old(RootSet()) != {}) && (!stopped ==> Exactly())
    {
      ghost var t, k, rs := dirs, kernel, RootSet();
      hide Synced, Forest, Legal, After, KernelAfter, Announces;
      var ev, next := Events(ch);
      dirs, kernel := After(ch, dirs, rs), KernelAfter(ch, dirs, kernel);
      var used := ProcessNext(ev, next, true, Some(ch), t, k);
      if used == -1 {
        used := ProcessNext(ev, next, false, Some(ch), t, k);
      }
      if !stopped {
        Ignore(ignored);
      }
    }
  }

  lemma SubjectWatched(c: Change, t: Dirs, k: Kernel, roots: set<string>)
    requires Legal(c, t, roots) && Watched(t, k)
    ensures !c.Lost? ==> Subject(c) in t && t[Subject(c)] in k.watches
    ensures c.Rename? ==> Parent(c.to) in t && t[Parent(c.to)] in k.watches && |c.to| > 1
    ensures c.Rename? || c.Leave? ==> |c.from| > 1
  {
  }

  /** The directory whose watch the event comes from. */
  ghost function Subject(c: Change): Path {
    match c
    case Appear(parent, _, _, _) => parent
    case Vanish(p) => p
    case Rename(from, _, _) => Parent(from)
    case Leave(from, _) => Parent(from)
    case RootMoved(root) => [root]
    case Lost(_) => []
  }

  lemma AppearFacts(c: Change, t: Dirs, k: Kernel, roots: set<string>)
    requires Legal(c, t, roots) && c.Appear?
    ensures var p := c.parent + [c.name];
      && c.parent != [] && p in After(c, t, roots) && Forest(After(c, t, roots), roots)
      && Outside(After(c, t, roots), p) == t && KernelAfter(c, t, k) == k
      && IsPath(p) && p[0] in roots && p !in t
  {
    var p, u := c.parent + [c.name], t + c.sub;
    forall q | q in t
      ensures !(p <= q)
    {
      NothingIn(t, roots, p, q);
    }
    assert p in u;
  }

  ghost predicate IsRename(c: Change, t: Dirs, k: Kernel, rs: set<string>, u: Dirs, ev: Event, next: Event) {
    && c.Rename? && |c.from| > 1 && |c.to| > 1 && Forest(t, rs)
    && CanMove(t, rs, c.from, c.to) && u == MovedDirs(t, rs, c.from, c.to)
    && ev.name == Last(c.from) && next.name == Last(c.to)
    && Parent(c.to) in t && t[Parent(c.to)] in k.watches && next.wd == k.watches[t[Parent(c.to)]]
  }

  /** What a change is known by. */
  ghost predicate Tells(c: Change, t: Dirs, k: Kernel, u: Dirs, k': Kernel, ev: Event, rs: set<string>) {
    && (c.Lost? <==> ev.wd == -1) && (c.Lost? <==> ev.kind == Overflow)
    && (!c.Lost? ==> Of(ev, t, k, Subject(c)) && ev.kind != Ignored && ev.wd >= 1)
    && (c.Appear? <==> ev.kind == Create || ev.kind == MovedTo) && (c.Vanish? <==> ev.kind == DeleteSelf)
    && (c.Rename? || c.Leave? <==> ev.kind == MovedFrom) && (c.RootMoved? <==> ev.kind == MoveSelf)
    && (c.Appear? || c.Rename? || c.Leave? ==> ev.isDir)
    && (c.Appear? ==> ev.name == c.name && c.parent + [c.name] in u && Outside(u, c.parent + [c.name]) == t)
    && (c.Vanish? ==> c.p in t && u == Outside(t, c.p) && k' == k.(watches := k.watches - {t[c.p]}))
    && (c.Vanish? ==> forall q :: q in t && c.p <= q ==> q == c.p)
    && (!c.Vanish? ==> k' == k)
    && (c.RootMoved? ==> u == Outside(t, [c.root]))
  }

  lemma ChangeTells(c: Change, t: Dirs, k: Kernel, ev: Event, next: Option<Event>, rs: set<string>)
    requires Watched(t, k) && Legal(c, t, rs) && Announces(c, t, k, ev, next)
    ensures Tells(c, t, k, After(c, t, rs), KernelAfter(c, t, k), ev, rs) && Forest(After(c, t, rs), rs)
  {
    hide Forest, Legal, After, KernelAfter, Announces, Tells, Watched;
    ForestAfter(c, t, rs);
    if c.Appear? {
      TellsAppear(c, t, k, ev, next, rs);
    } else if c.Vanish? {
      TellsVanish(c, t, k, ev, next, rs);
    } else {
      TellsRest(c, t, k, ev, next, rs);
    }
  }

  lemma TellsAppear(c: Change, t: Dirs, k: Kernel, ev: Event, next: Option<Event>, rs: set<string>)
    requires Watched(t, k) && Legal(c, t, rs) && Announces(c, t, k, ev, next) && c.Appear?
    ensures Tells(c, t, k, After(c, t, rs), KernelAfter(c, t, k), ev, rs)
  {
    hide Forest, Legal, After, KernelAfter, Outside;
    AppearFacts(c, t, k, rs);
  }

  lemma TellsVanish(c: Change, t: Dirs, k: Kernel, ev: Event, next: Option<Event>, rs: set<string>)
    requires Watched(t, k) && Legal(c, t, rs) && Announces(c, t, k, ev, next) && c.Vanish?
    ensures Tells(c, t, k, After(c, t, rs), KernelAfter(c, t, k), ev, rs)
  {
    hide Forest, Outside;
  }

  lemma TellsRest(c: Change, t: Dirs, k: Kernel, ev: Event, next: Option<Event>, rs: set<string>)
    requires Watched(t, k) && Legal(c, t, rs) && Announces(c, t, k, ev, next) && !c.Appear? && !c.Vanish?
    ensures Tells(c, t, k, After(c, t, rs), KernelAfter(c, t, k), ev, rs)
  {
    hide Forest, Outside, CanMove, MovedDirs;
  }

  /** A change leaves a tree. */
  lemma ForestAfter(c: Change, t: Dirs, rs: set<string>)
    requires Legal(c, t, rs)
    ensures Forest(After(c, t, rs), rs)
  {
    hide Forest, Outside, MovedDirs;
    match c
    case Appear(_, _, _, _) =>
    case Vanish(p) => OutsideForest(t, rs, p);
    case Rename(from, to, _) => MovedForest(t, rs, from, to);
    case Leave(from, _) => OutsideForest(t, rs, from);
    case RootMoved(root) => OutsideForest(t, rs, [root]);
    case Lost(_) =>
  }

  /** The slot of the event's descriptor, if it has one. */
  predicate Slotted(c: seq<Slot>, ev: Event, slot: int) {
    if ev.wd != -1 && ev.kind != Ignored then 0 <= slot < |c| && c[slot].wd == ev.wd else slot == -1
  }

  ghost predicate Happened(c: seq<Slot>, t: Dirs, k: Kernel, rs: set<string>,
                           ch: Option<Change>, u: Dirs, k': Kernel, ev: Event, next: Option<Event>) {
    match ch
    case None => u == t && k' == k && Empty(ev, c, t, k)
    case Some(x) =>
      Legal(x, t, rs) && u == After(x, t, rs) && k' == KernelAfter(x, t, k) && Announces(x, t, k, ev, next)
  }

  lemma Facts(c: seq<Slot>, t: Dirs, k: Kernel, of: map<nat, Path>, rs: set<string>,
              ch: Option<Change>, u: Dirs, k': Kernel, ev: Event, next: Option<Event>, slot: int)
    requires Synced(c, t, k, of, rs) && Slotted(c, ev, slot) && Happened(c, t, k, rs, ch, u, k', ev, next)
    ensures Forest(t, rs) && Forest(u, rs) && (ch.Some? ==> Tells(ch.value, t, k, u, k', ev, rs))
    ensures ev.kind == DeleteSelf || ev.kind == MoveSelf || ev.kind == Overflow ==> ch.Some?
    ensures ev.isDir && ev.kind == MovedFrom ==> ch.Some?
    ensures !ev.isDir && (ev.kind == Create || ev.kind == MovedFrom || ev.kind == MovedTo) ==> ch.None?
    ensures ev.kind == Ignored ==> ch.None?
  {
    hide Legal, After, KernelAfter, Announces, Forest, Outside, Tracks;
    if ch.Some? {
      ChangeTells(ch.value, t, k, ev, next, rs);
    }
  }

  lemma AppearSlot(c: seq<Slot>, t: Dirs, k: Kernel, of: map<nat, Path>, rs: set<string>,
                   ch: Option<Change>, u: Dirs, k': Kernel, ev: Event, next: Option<Event>, slot: int)
    requires Synced(c, t, k, of, rs) && Slotted(c, ev, slot) && Happened(c, t, k, rs, ch, u, k', ev, next)
    requires ev.isDir && (ev.kind == Create || ev.kind == MovedTo)
    ensures slot >= 0 && slot in of && k' == k && Forest(u, rs)
    ensures of[slot] + [ev.name] in u && (u == t || Outside(u, of[slot] + [ev.name]) == t)
  {
    Facts(c, t, k, of, rs, ch, u, k', ev, next, slot);
    hide Forest, Legal, After, KernelAfter, Announces, Synced;
    if ch.Some? {
      SlotOf(c, t, k, of, rs, ch.value.parent, slot);
    } else {
      var d :| Of(ev, t, k, d) && d + [ev.name] in t;
      WatchPositive(c, t, k, of, rs, d);
      SlotOf(c, t, k, of, rs, d, slot);
    }
  }

  lemma WatchPositive(c: seq<Slot>, t: Dirs, k: Kernel, of: map<nat, Path>, rs: set<string>, d: Path)
    requires Synced(c, t, k, of, rs) && d in t
    ensures t[d] in k.watches && k.watches[t[d]] >= 1
  {
  }

  /** Without the other event it is no rename within the tree. */
  lemma Hanging(t: Dirs, k: Kernel, c: Change, ev: Event)
    requires Announces(c, t, k, ev, None) && ev.kind == MovedFrom
    ensures c.Leave?
  {
  }

  /** A watched directory is in the cache. */
  lemma Found(c: seq<Slot>, t: Dirs, k: Kernel, of: map<nat, Path>, rs: set<string>, p: Path)
    requires Synced(c, t, k, of, rs) && p in t
    ensures t[p] in k.watches && exists j :: 0 <= j < |c| && c[j].wd == k.watches[t[p]]
  {
    var j :| j in of && of[j] == p;
    assert c[j].wd == k.watches[t[p]];
  }

  lemma MoveFacts(c: Change, t: Dirs, k: Kernel, ev: Event, next: Option<Event>, rs: set<string>)
    requires Legal(c, t, rs) && Announces(c, t, k, ev, next) && (c.Rename? || c.Leave?)
    ensures |c.from| > 1 && IsPath(c.from) && c.from[0] in rs && ev.name == Last(c.from) && Forest(After(c, t, rs), rs)
    ensures c.Rename? <==> next.Some? && next.value.kind == MovedTo && next.value.cookie == ev.cookie
    ensures c.Rename? ==>
      && CanMove(t, rs, c.from, c.to) && |c.to| > 1
      && Of(next.value, t, k, Parent(c.to)) && next.value.name == Last(c.to)
      && Forest(t, rs) && After(c, t, rs) == MovedDirs(t, rs, c.from, c.to)
    ensures c.Leave? ==> After(c, t, rs) == Outside(t, c.from)
    ensures KernelAfter(c, t, k) == k
  {
    if c.Rename? {
      MovedForest(t, rs, c.from, c.to);
    } else {
      OutsideForest(t, rs, c.from);
    }
  }

  lemma ForestShrink(t: Dirs, roots: set<string>, r: string)
    requires Forest(t, roots) && forall p :: p in t ==> !([r] <= p)
    ensures Forest(t, roots - {r})
  {
    assert forall p :: p in t && p != [] && p[0] == r ==> [r] <= p;
  }

  lemma ChildPath(c: seq<Slot>, t: Dirs, k: Kernel, of: map<nat, Path>, roots: set<string>, slot: nat, name: string)
    requires Synced(c, t, k, of, roots) && slot < |c| && slot in of
    ensures of[slot] != [] && c[slot].path + "/" + name == Join(of[slot] + [name])
  {
    JoinChild(of[slot], name);
  }

  lemma SlotPath(c: seq<Slot>, t: Dirs, k: Kernel, of: map<nat, Path>, roots: set<string>, slot: nat)
    requires Synced(c, t, k, of, roots) && slot in of
    ensures slot < |c| && of[slot] in t && of[slot] != [] && c[slot].path == Join(of[slot])
  {
  }

  lemma ParentJoin(p: Path)
    requires |p| > 1
    ensures Join(Parent(p)) + "/" + Last(p) == Join(p)
  {
    JoinChild(Parent(p), Last(p));
    assert Parent(p) + [Last(p)] == p;
  }

  /** A directory the cache has the pathname of is one it has. */
  lemma CachedIsThere(c: seq<Slot>, t: Dirs, k: Kernel, of: map<nat, Path>, roots: set<string>, u: Dirs, p: Path)
    requires Synced(c, t, k, of, roots) && Forest(u, roots) && p in u && p != [] && (u == t || Outside(u, p) == t)
    requires exists j :: 0 <= j < |c| && c[j].wd >= 0 && c[j].path == Join(p)
    ensures u == t
  {
    var j :| 0 <= j < |c| && c[j].wd >= 0 && c[j].path == Join(p);
    assert j in of;
    JoinInjective(of[j], p);
    assert p in t;
  }

  lemma MissIsNew(c: seq<Slot>, t: Dirs, k: Kernel, of: map<nat, Path>, roots: set<string>, u: Dirs, p: Path)
    requires Synced(c, t, k, of, roots) && p in u && p != [] && (u == t || Outside(u, p) == t)
    requires !exists j :: 0 <= j < |c| && c[j].wd >= 0 && c[j].path == Join(p)
    ensures Outside(u, p) == t
  {
    if p in t {
      HasSlot(c, t, k, of, roots, p);
    }
  }

  lemma HasSlot(c: seq<Slot>, t: Dirs, k: Kernel, of: map<nat, Path>, roots: set<string>, p: Path)
    requires Synced(c, t, k, of, roots) && p in t
    ensures p != [] && exists j :: 0 <= j < |c| && c[j].wd >= 0 && c[j].path == Join(p)
  {
    var j :| j in of && of[j] == p;
    assert c[j].path == Join(p);
  }

  // ---- Directories that go --------------------------------------------------

  /** Zapping a directory with nothing in it empties its slot. */
  lemma VanishIsZap(c: seq<Slot>, t: Dirs, k: Kernel, of: map<nat, Path>, roots: set<string>, p: Path, slot: nat)
    requires Synced(c, t, k, of, roots) && slot in of && of[slot] == p && (forall q :: q in t && p <= q ==> q == p)
    ensures p in t && slot < |c| && p != []
    ensures Synced(c[slot := UNUSED], Outside(t, p), k.(watches := k.watches - {t[p]}), of - {slot}, roots)
  {
    hide Tracks, Forest, Watched, Outside, Zapped, Dropped, IsPath;
    SlotPath(c, t, k, of, roots, slot);
    ForestPath(t, roots, p);
    ZapSyncs(c, t, k, of, roots, p);
    OutsideOne(c, t, k, of, roots, p, slot);
    ZapsOne(c, t, k, of, roots, p, slot);
    DropsOne(t, k, roots, p);
  }

  lemma SyncedForest(c: seq<Slot>, t: Dirs, k: Kernel, of: map<nat, Path>, roots: set<string>)
    requires Synced(c, t, k, of, roots)
    ensures Forest(t, roots)
  {
  }

  lemma RootOutside(t: Dirs, p: Path)
    requires |p| == 1
    ensures forall q :: q in Outside(t, p) ==> !([p[0]] <= q)
  {
    assert p == [p[0]];
  }

  lemma ForestPath(t: Dirs, roots: set<string>, p: Path)
    requires Forest(t, roots) && p in t
    ensures IsPath(p) && p[0] in roots
  {
  }

  lemma OutsideOne(c: seq<Slot>, t: Dirs, k: Kernel, of: map<nat, Path>, roots: set<string>, p: Path, slot: nat)
    requires Synced(c, t, k, of, roots) && slot in of && of[slot] == p && (forall q :: q in t && p <= q ==> q == p)
    ensures OutsideOf(of, p) == of - {slot}
  {
    hide Forest, Watched, InUse, Covers;
    OutsideSlot(of, t, p, slot);
  }

  lemma OutsideSlot(of: map<nat, Path>, t: Dirs, p: Path, slot: nat)
    requires slot in of && of[slot] == p && Distinct(of) && (forall j :: j in of ==> of[j] in t)
    requires forall q :: q in t && p <= q ==> q == p
    ensures OutsideOf(of, p) == of - {slot}
  {
    forall j | j in of
      ensures p <= of[j] <==> j == slot
    {
    }
  }

  lemma ZapsOne(c: seq<Slot>, t: Dirs, k: Kernel, of: map<nat, Path>, roots: set<string>, p: Path, slot: nat)
    requires Synced(c, t, k, of, roots) && slot in of && of[slot] == p && (forall q :: q in t && p <= q ==> q == p)
    ensures slot < |c| && p != [] && Zapped(c, Join(p)) == c[slot := UNUSED]
  {
    forall j | 0 <= j < |c|
      ensures Zapped(c, Join(p))[j] == c[slot := UNUSED][j]
    {
      if j in of {
        ForestUnder(t, roots, p, of[j]);
      }
    }
  }

  lemma DropsOne(t: Dirs, k: Kernel, roots: set<string>, p: Path)
    requires Forest(t, roots) && Watched(t, k) && p in t && (forall q :: q in t && p <= q ==> q == p)
    ensures Dropped(t, k, p) == k.(watches := k.watches - {t[p]})
  {
    forall i | i in k.watches
      ensures i in Outside(t, p).Values <==> i != t[p]
    {
      var q :| q in t && t[q] == i;
      if q != p {
        assert Outside(t, p)[q] == i;
      }
    }
  }

  /** The watches zapSubtree leaves are those of the directories that stay. */
  lemma UnwatchDrops(c: seq<Slot>, t: Dirs, k: Kernel, of: map<nat, Path>, roots: set<string>, p: Path)
    requires Synced(c, t, k, of, roots) && IsPath(p) && p[0] in roots
    ensures Unwatched(k, c, Join(p), |c|) == Dropped(t, k, p)
  {
    assert p != [];
    hide Synced, ZapsWd, Outside, Join, IsPath, Unwatched, Dropped;
    var u, d := Unwatched(k, c, Join(p), |c|), Dropped(t, k, p);
    UnwatchKeeps(k, c, Join(p), |c|, t, p);
    forall i
      ensures i in u.watches <==> i in d.watches
      ensures i in u.watches ==> u.watches[i] == d.watches[i]
    {
      DropsSame(c, t, k, of, roots, p, i);
    }
    SameMap(u.watches, d.watches);
  }

  lemma SameMap(a: map<nat, int>, b: map<nat, int>)
    requires forall i :: (i in a <==> i in b) && (i in a ==> a[i] == b[i])
    ensures a == b
  {
  }

  lemma UnwatchKeeps(k: Kernel, c: seq<Slot>, f: string, n: nat, t: Dirs, p: Path)
    requires n <= |c|
    ensures Unwatched(k, c, f, n) == k.(watches := Unwatched(k, c, f, n).watches)
    ensures Dropped(t, k, p) == k.(watches := Dropped(t, k, p).watches)
  {
  }

  lemma DropsSame(c: seq<Slot>, t: Dirs, k: Kernel, of: map<nat, Path>, roots: set<string>, p: Path, i: nat)
    requires Synced(c, t, k, of, roots) && IsPath(p) && p[0] in roots && p != []
    ensures var u, d := Unwatched(k, c, Join(p), |c|).watches, Dropped(t, k, p).watches;
      (i in u <==> i in d) && (i in u ==> u[i] == d[i])
  {
    hide Synced, ZapsWd, Outside, Join, IsPath;
    if i in k.watches {
      ZapsOrStays(c, t, k, of, roots, p, i);
    }
  }

  lemma ZapsOrStays(c: seq<Slot>, t: Dirs, k: Kernel, of: map<nat, Path>, roots: set<string>, p: Path, i: nat)
    requires Synced(c, t, k, of, roots) && IsPath(p) && p[0] in roots && i in k.watches
    ensures ZapsWd(c, Join(p), |c|, k.watches[i]) <==> i !in Outside(t, p).Values
  {
    var q :| q in t && t[q] == i;
    var j :| j in of && of[j] == q;
    assert c[j].wd == k.watches[i] && c[j].path == Join(q);
    ForestUnder(t, roots, p, q);
    if p <= q {
      assert ZapsWd(c, Join(p), |c|, k.watches[i]);
    } else {
      assert Outside(t, p)[q] == i;
      SlotsDiffer(c, t, k, of, roots, j);
    }
  }

  lemma SlotsDiffer(c: seq<Slot>, t: Dirs, k: Kernel, of: map<nat, Path>, roots: set<string>, j: nat)
    requires Synced(c, t, k, of, roots) && j in of
    ensures j < |c| && forall x :: 0 <= x < |c| && x != j ==> c[x].wd != c[j].wd
  {
    Exact(c, t, k, of, roots);
  }

  /** It never finds a descriptor that is not watched. */
  lemma ZapSucceeds(c: seq<Slot>, t: Dirs, k: Kernel, of: map<nat, Path>, roots: set<string>, f: string)
    requires Synced(c, t, k, of, roots)
    ensures !CannotZap(k, c, f)
  {
    forall j | 0 <= j < |c| && c[j].wd >= 0
      ensures c[j].wd in k.watches.Values && !ZapsWd(c, f, j, c[j].wd)
    {
      assert j in of;
      SlotsDiffer(c, t, k, of, roots, j);
    }
  }

  lemma RootsShrink(c: seq<Slot>, t: Dirs, k: Kernel, of: map<nat, Path>, roots: set<string>, r: string)
    requires Synced(c, t, k, of, roots) && forall p :: p in t ==> !([r] <= p)
    ensures Synced(c, t, k, of, roots - {r})
  {
    hide Forest, Watched, Tracks;
    ForestShrink(t, roots, r);
  }

  /** A directory other than a root has not the pathname of one. */
  lemma RootPath(t: Dirs, roots: set<string>, p: Path)
    requires Forest(t, roots) && p in t
    ensures p != [] && (Join(p) in roots <==> |p| == 1) && (|p| == 1 ==> Join(p) == p[0])
  {
    var r := Join(p);
    assert |p| == 1 ==> r == p[0] by {
      assert |p| == 1 ==> p[1..] == [] && p[0] + "" == p[0];
    }
    if r in roots {
      assert Join([r]) == r + Tail([]);
      JoinInjective([r], p);
    }
  }

  // ---- Roots ----------------------------------------------------------------

  ghost predicate RootsOnce(roots: seq<Option<string>>) {
    forall i, j :: 0 <= i < j < |roots| && roots[i].Some? ==> roots[i] != roots[j]
  }

  ghost function RootsUpTo(roots: seq<Option<string>>, n: nat): set<string>
    requires n <= |roots|
  {
    set j | 0 <= j < n && roots[j].Some? :: roots[j].value
  }

  /** The directories under some of the roots. */
  ghost function Rooted(t: Dirs, rs: set<string>): Dirs {
    map p | p in t && p != [] && p[0] in rs :: t[p]
  }

  lemma AllRoots(paths: seq<string>, roots: seq<Option<string>>)
    requires |roots| == |paths| && forall j :: 0 <= j < |paths| ==> roots[j] == Some(paths[j])
    ensures RootsUpTo(roots, |roots|) == set j | 0 <= j < |paths| :: paths[j]
  {
    var rs := set j | 0 <= j < |paths| :: paths[j];
    forall r | r in rs
      ensures r in RootsUpTo(roots, |roots|)
    {
      var j :| 0 <= j < |paths| && paths[j] == r;
      assert roots[j].value == r;
    }
    forall r | r in RootsUpTo(roots, |roots|)
      ensures r in rs
    {
      var j :| 0 <= j < |roots| && roots[j].Some? && roots[j].value == r;
      assert paths[j] == r;
    }
  }

  lemma RootGone(rs: seq<Option<string>>, j: nat, path: string)
    requires RootsOnce(rs) && j < |rs| && rs[j] == Some(path)
    ensures RootsOnce(rs[j := None]) && RootsUpTo(rs[j := None], |rs|) == RootsUpTo(rs, |rs|) - {path}
  {
    var us := rs[j := None];
    assert forall i :: 0 <= i < |rs| && i != j ==> us[i] == rs[i] && us[i] != Some(path);
    forall r | r in RootsUpTo(rs, |rs|) && r != path
      ensures r in RootsUpTo(us, |rs|)
    {
      var i :| 0 <= i < |rs| && rs[i] == Some(r);
      assert us[i] == Some(r);
    }
  }

  lemma NoRoots(rs: seq<Option<string>>)
    ensures RootsUpTo(rs, |rs|) == {} <==> forall i :: 0 <= i < |rs| ==> rs[i].None?
  {
    if i :| 0 <= i < |rs| && rs[i].Some? {
      assert rs[i].value in RootsUpTo(rs, |rs|);
    }
  }

  lemma RootedForest(t: Dirs, rs: set<string>, roots: set<string>)
    requires Forest(t, roots)
    ensures Forest(Rooted(t, rs), roots)
  {
    var r := Rooted(t, rs);
    forall p | p in r && |p| > 1
      ensures Parent(p) in r
    {
      assert Parent(p) in t;
    }
  }

  lemma StartSynced(t: Dirs, roots: set<string>)
    requires Forest(t, roots)
    ensures Synced([], Rooted(t, {}), Kernel(map[], 1), map[], roots)
  {
    RootedForest(t, {}, roots);
  }

  lemma NextRoot(t: Dirs, rs: seq<Option<string>>, j: nat, roots: set<string>)
    requires Forest(t, roots) && RootsOnce(rs) && j < |rs| && rs[j].Some?
    ensures var u, r := Rooted(t, RootsUpTo(rs, j + 1)), rs[j].value;
      && Forest(u, roots) && Outside(u, [r]) == Rooted(t, RootsUpTo(rs, j))
      && forall q :: [r] <= q ==> ((q in u <==> q in t) && (q in u ==> u[q] == t[q]))
  {
    var a, b, r := RootsUpTo(rs, j), RootsUpTo(rs, j + 1), rs[j].value;
    RootedForest(t, b, roots);
    assert forall q :: q in t ==> q != [];
    assert b == a + {r} && r !in a;
    hide Forest, RootsUpTo;
    OneMoreRoot(t, a, b, r);
  }

  lemma OneMoreRoot(t: Dirs, a: set<string>, b: set<string>, r: string)
    requires b == a + {r} && r !in a && forall q :: q in t ==> q != []
    ensures var u := Rooted(t, b);
      && Outside(u, [r]) == Rooted(t, a)
      && forall q :: [r] <= q ==> ((q in u <==> q in t) && (q in u ==> u[q] == t[q]))
  {
    forall q: Path | q != []
      ensures [r] <= q <==> q[0] == r
    {
    }
  }

  lemma AllRooted(t: Dirs, rs: seq<Option<string>>, roots: set<string>)
    requires Forest(t, roots) && roots == RootsUpTo(rs, |rs|)
    ensures Rooted(t, RootsUpTo(rs, |rs|)) == t
  {
  }

  // ---- Directories found so far ---------------------------------------------

  /** t as far as it is outside p or listed. */
  ghost function Listed(t: Dirs, p: Path, l: seq<Path>): Dirs {
    map q | q in t && (!(p <= q) || q in l) :: t[q]
  }

  lemma ListMore(t: Dirs, p: Path, l: seq<Path>, i: nat)
    requires i < |l| && l[i] in t && p <= l[i] && forall x, y :: 0 <= x < y < |l| ==> l[x] != l[y]
    ensures l[i] !in Listed(t, p, l[..i]) && Listed(t, p, l[..i])[l[i] := t[l[i]]] == Listed(t, p, l[..i + 1])
  {
    assert l[..i + 1] == l[..i] + [l[i]];
  }

  /** Each directory comes after the one it is in. */
  ghost predicate ParentsFirst(l: seq<Path>, p: Path) {
    forall i :: 0 <= i < |l| && l[i] != p ==> Parent(l[i]) in l[..i]
  }

  lemma NoneFirst(p: Path)
    ensures ParentsFirst([], p)
  {
  }

  lemma ParentListed(l: seq<Path>, p: Path, q: Path)
    requires ParentsFirst(l, p) && (q == p || Parent(q) in l)
    ensures ParentsFirst(l + [q], p)
  {
    var m := l + [q];
    forall i | 0 <= i < |m| && m[i] != p
      ensures Parent(m[i]) in m[..i]
    {
      assert m[..i] == l[..i];
    }
  }

  /** From any directory still to be listed, up to one whose turn it is. */
  lemma {:induction false} Climb(t: Dirs, roots: set<string>, p: Path, todo: set<Path>, l: seq<Path>, x: Path)
    returns (y: Path)
    requires Forest(t, roots) && p != [] && x in todo && (forall q :: q in todo ==> q in t && p <= q)
    requires forall q :: q in t && p <= q ==> q in todo || q in l
    ensures y in todo && (y == p || Parent(y) in l)
    decreases |x|
  {
    if x == p || Parent(x) in l {
      y := x;
    } else {
      assert Parent(x) in t && p <= Parent(x);
      y := Climb(t, roots, p, todo, l, Parent(x));
    }
  }

  lemma ListedForest(t: Dirs, p: Path, l: seq<Path>, i: nat, roots: set<string>)
    requires Forest(t, roots) && i < |l| && ParentsFirst(l, p)
    ensures Forest(Listed(t, p, l[..i + 1]), roots)
  {
    hide Forest, Listed, ParentsFirst, Parent;
    var r := Listed(t, p, l[..i + 1]);
    ListedIn(t, p, l[..i + 1]);
    forall q | q in r && |q| > 1
      ensures Parent(q) in r
    {
      ListedParent(t, p, l, i, roots, q);
    }
    PartForest(t, r, roots);
  }

  lemma ListedIn(t: Dirs, p: Path, l: seq<Path>)
    ensures forall q :: q in Listed(t, p, l) ==> q in t && Listed(t, p, l)[q] == t[q]
  {
  }

  /** A part of a forest that has the parents of its directories is one. */
  lemma PartForest(t: Dirs, r: Dirs, roots: set<string>)
    requires Forest(t, roots) && (forall q :: q in r ==> q in t && r[q] == t[q])
    requires forall q :: q in r && |q| > 1 ==> Parent(q) in r
    ensures Forest(r, roots)
  {
    hide IsPath, Parent, RootsOk;
  }

  lemma ListedParent(t: Dirs, p: Path, l: seq<Path>, i: nat, roots: set<string>, q: Path)
    requires Forest(t, roots) && i < |l| && ParentsFirst(l, p) && q in Listed(t, p, l[..i + 1]) && |q| > 1
    ensures Parent(q) in Listed(t, p, l[..i + 1])
  {
    assert Parent(q) in t;
    hide Forest, ParentsFirst;
    if p <= q && q != p {
      ParentIn(l, p, i, q);
    } else {
      NotAbove(p, q);
    }
  }

  lemma NotAbove(p: Path, q: Path)
    requires q != [] && (!(p <= q) || q == p)
    ensures !(p <= Parent(q))
  {
    assert Parent(q) <= q;
  }

  lemma ParentIn(l: seq<Path>, p: Path, i: nat, q: Path)
    requires ParentsFirst(l, p) && i < |l| && q in l[..i + 1] && q != p
    ensures Parent(q) in l[..i + 1]
  {
    var x :| 0 <= x < i + 1 && l[x] == q;
    assert Parent(q) in l[..x];
    assert l[..i + 1][..x] == l[..x];
  }

  lemma ListAll(t: Dirs, p: Path, l: seq<Path>)
    requires forall q :: q in t && p <= q ==> q in l
    ensures Listed(t, p, l) == t
  {
  }

  lemma PathSome(t: Dirs, p: Path, i: nat, roots: set<string>)
    requires Forest(t[p := i], roots)
    ensures p != []
  {
    assert p in t[p := i];
  }

  lemma GrowSyncs(c: seq<Slot>, d: seq<Slot>, t: Dirs, k: Kernel, of: map<nat, Path>, roots: set<string>)
    requires Synced(c, t, k, of, roots) && c <= d && (forall j :: |c| <= j < |d| ==> d[j] == UNUSED)
    ensures Synced(d, t, k, of, roots)
  {
    GrowTracks(c, d, t, k, of);
  }

  /** A directory that is not in the cache has no watch yet. */
  lemma FreshWatch(c: seq<Slot>, t: Dirs, k: Kernel, of: map<nat, Path>, roots: set<string>, p: Path, i: nat)
    requires Synced(c, t, k, of, roots) && Forest(t[p := i], roots) && p !in t
    ensures AddWatch(k, i).1 == k.nextWd && forall x :: 0 <= x < |c| ==> c[x].wd != k.nextWd
    ensures forall x :: 0 <= x < |c| && c[x].wd == -1 ==> c[x] == UNUSED
  {
    var d := c + [UNUSED];
    GrowSyncs(c, d, t, k, of, roots);
    AddSyncs(d, t, k, of, roots, p, i, |c|);
    assert forall x :: 0 <= x < |c| ==> d[x] == c[x];
  }

  // ---- Zapping --------------------------------------------------------------

  lemma StillWatched(k: Kernel, c: seq<Slot>, f: string, n: nat, wd: int)
    requires n <= |c| && wd !in Unwatched(k, c, f, n).watches.Values
    ensures wd !in k.watches.Values || ZapsWd(c, f, n, wd)
  {
    assert forall i :: i in k.watches && k.watches[i] == wd && !ZapsWd(c, f, n, wd) ==>
      i in Unwatched(k, c, f, n).watches && Unwatched(k, c, f, n).watches[i] == wd;
  }

  lemma UnwatchOne(k: Kernel, c: seq<Slot>, f: string, n: nat)
    requires n < |c| && c[n].wd >= 0 && Under(f, c[n].path)
    ensures var u := Unwatched(k, c, f, n);
      u.(watches := map i | i in u.watches && u.watches[i] != c[n].wd :: u.watches[i]) == Unwatched(k, c, f, n + 1)
  {
    forall wd
      ensures ZapsWd(c, f, n + 1, wd) <==> ZapsWd(c, f, n, wd) || wd == c[n].wd
    {
    }
    hide ZapsWd;
  }

  lemma UnwatchNone(k: Kernel, c: seq<Slot>, f: string, n: nat)
    requires n < |c| && !(c[n].wd >= 0 && Under(f, c[n].path))
    ensures Unwatched(k, c, f, n) == Unwatched(k, c, f, n + 1)
  {
    forall wd
      ensures ZapsWd(c, f, n + 1, wd) <==> ZapsWd(c, f, n, wd)
    {
    }
    hide ZapsWd;
  }

  // ---- Runs -----------------------------------------------------------------

  ghost predicate LegalRun(cs: seq<Change>, t: Dirs, roots: set<string>) {
    cs == [] || (Legal(cs[0], t, roots) && LegalRun(cs[1..], After(cs[0], t, roots), RootsAfter(cs[0], roots)))
  }

  /** The tree at the end. */
  ghost function Final(cs: seq<Change>, t: Dirs, roots: set<string>): Dirs
    requires LegalRun(cs, t, roots)
  {
    if cs == [] then t else Final(cs[1..], After(cs[0], t, roots), RootsAfter(cs[0], roots))
  }

  /** The roots left by a run of changes. */
  function RootsOver(cs: seq<Change>, roots: set<string>): set<string> {
    if cs == [] then roots else RootsAfter(cs[|cs| - 1], RootsOver(cs[..|cs| - 1], roots))
  }

  lemma {:induction false} RootsFewer(cs: seq<Change>, i: nat, roots: set<string>)
    requires i <= |cs|
    ensures RootsOver(cs, roots) <= RootsOver(cs[..i], roots)
    decreases |cs|
  {
    if i < |cs| {
      assert cs[..|cs| - 1][..i] == cs[..i];
      RootsFewer(cs[..|cs| - 1], i, roots);
    } else {
      assert cs[..i] == cs;
    }
  }

  /** Whatever happens to the tree, the cache is exact after each change and the roots
      are those no change has taken, until the change that takes the last one: there,
      and nowhere else, the program ends. Watches that are gone may send IN_IGNORED
      after any change. */
  method Run(paths: seq<string>, tree: Dirs, changes: seq<Change>, ignored: seq<seq<int>>)
    returns (m: Monitor, done: nat)
    requires forall i, j :: 0 <= i < j < |paths| ==> paths[i] != paths[j]
    requires Forest(tree, set j | 0 <= j < |paths| :: paths[j])
    requires LegalRun(changes, tree, set j | 0 <= j < |paths| :: paths[j])
    ensures var rs := set j | 0 <= j < |paths| :: paths[j];
      && m.RootSet() == RootsOver(changes, rs) && (m.stopped <==> rs != {} && RootsOver(changes, rs) == {})
      && (!m.stopped ==> m.Exactly() && m.dirs == Final(changes, tree, rs))
      && done <= |changes| && (m.stopped <==> rs != {} && RootsOver(changes[..done], rs) == {})
      && forall i :: 0 <= i < done && rs != {} ==> RootsOver(changes[..i], rs) != {}
  {
    hide Legal, Forest, After, RootsAfter;
    m := new Monitor(paths, tree);
    ghost var rs := m.RootSet();
    ghost var end := Final(changes, tree, rs);
    done := 0;
    assert changes[0..] == changes && changes[..0] == [];
    while done < |changes| && !m.stopped
      invariant 0 <= done <= |changes| && fresh(m)
      invariant m.RootSet() == RootsOver(changes[..done], rs)
      invariant m.stopped <==> rs != {} && m.RootSet() == {}
      invariant !m.stopped ==> m.Exactly()
      invariant LegalRun(changes[done..], m.dirs, m.RootSet()) && Final(changes[done..], m.dirs, m.RootSet()) == end
      invariant forall i :: 0 <= i < done && rs != {} ==> RootsOver(changes[..i], rs) != {}
    {
      assert changes[done..][0] == changes[done] && changes[done..][1..] == changes[done + 1..];
      assert changes[..done + 1][..done] == changes[..done];
      assert changes[..done][..0] == [];
      RootsFewer(changes[..done], 0, rs);
      m.Witness(changes[done], if done < |ignored| then ignored[done] else []);
      done := done + 1;
    }
    RootsFewer(changes, done, rs);
    assert changes[..|changes|] == changes;
  }
}
