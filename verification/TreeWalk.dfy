/** Descending a directory hierarchy with one path buffer that all levels share. */
module TreeWalk {
  const NAME_MAX := 255
  const NUL := 0 as char

  /** What lstat and opendir find: nothing, a file, a directory that cannot be read,
      or one and the names readdir returns for it, "." and ".." among them. */
  datatype Node = NoStat | File | Unreadable | Dir(entries: seq<Entry>)
  datatype Entry = Entry(name: string, node: Node)

  /** FTW_F, FTW_D, FTW_DNR and FTW_NS. */
  datatype Type = F | D | DNR | NS
  datatype Call = Call(path: string, kind: Type)

  predicate IsName(n: string) {
    NUL !in n && |n| <= NAME_MAX
  }

  predicate IsDot(n: string) {
    n == "." || n == ".."
  }

  ghost predicate Named(node: Node) {
    node.Dir? ==> forall i :: 0 <= i < |node.entries| ==> IsName(node.entries[i].name) && Named(node.entries[i].node)
  }

  // ---- The traversal --------------------------------------------------------

  /** The callbacks of a whole traversal, in pre-order. */
  ghost function PreOrder(node: Node, path: string): seq<Call>
    decreases node, 0, 0
  {
    match node
    case NoStat => [Call(path, NS)]
    case File => [Call(path, F)]
    case Unreadable => [Call(path, D), Call(path + "/", DNR)]
    case Dir(es) => [Call(path, D)] + Children(es, path + "/")
  }

  /** Those for the names of a directory. */
  ghost function Children(es: seq<Entry>, prefix: string): seq<Call>
    decreases es
  {
    if es == [] then []
    else
      var e := es[|es| - 1];
      Children(es[..|es| - 1], prefix) + if IsDot(e.name) then [] else PreOrder(e.node, prefix + e.name)
  }

  /** Make calls after those of the log until one returns something other than 0: the
      new log, and the last result. */
  ghost function Feed(log: seq<Call>, calls: seq<Call>, f: seq<Call> -> int): (seq<Call>, int)
    decreases |calls|
  {
    if calls == [] then (log, 0)
    else
      var l := log + [calls[0]];
      if f(l) != 0 then (l, f(l)) else Feed(l, calls[1..], f)
  }

  lemma {:induction false} FeedConcat(log: seq<Call>, a: seq<Call>, b: seq<Call>, f: seq<Call> -> int)
    ensures Feed(log, a + b, f) == var (l, r) := Feed(log, a, f); if r != 0 then (l, r) else Feed(l, b, f)
    decreases |a|
  {
    if a == [] {
      assert a + b == b;
    } else {
      var l := log + [a[0]];
      assert (a + b)[0] == a[0] && (a + b)[1..] == a[1..] + b;
      if f(l) == 0 {
        FeedConcat(l, a[1..], b, f);
      }
    }
  }

  /** The calls made are a prefix of the calls to make, complete unless the last one
      returned other than 0, as none before it did. */
  lemma {:induction false} FeedStops(log: seq<Call>, calls: seq<Call>, f: seq<Call> -> int)
    ensures var (l, r) := Feed(log, calls, f);
      && log <= l && l[|log|..] <= calls
      && (r == 0 ==> l == log + calls)
      && (r != 0 ==> |l| > |log| && r == f(l))
      && (forall k {:trigger l[..k]} :: |log| < k < |l| ==> f(l[..k]) == 0)
    decreases |calls|
  {
    if calls != [] {
      var m := log + [calls[0]];
      if f(m) == 0 {
        FeedStops(m, calls[1..], f);
        var (l, r) := Feed(log, calls, f);
        assert calls == [calls[0]] + calls[1..];
        assert l[|log|..] == [calls[0]] + l[|m|..];
        assert r == 0 ==> l == log + calls;
        forall k {:trigger l[..k]} | |log| < k < |l|
          ensures f(l[..k]) == 0
        {
          if k == |m| {
            assert l[..k] == m;
          }
        }
      }
    }
  }

  // ---- The shared buffer ----------------------------------------------------

  /** A C string at the start of a buffer. */
  ghost predicate Holds(a: array<char>, s: string)
    reads a
  {
    |s| < a.Length && a[..|s|] == s && a[|s|] == NUL && NUL !in s
  }

  method StrLen(a: array<char>, ghost s: string) returns (n: nat)
    requires Holds(a, s)
    ensures n == |s|
  {
    n := 0;
    assert forall i :: 0 <= i < |s| ==> a[i] == a[..|s|][i] == s[i];
    while a[n] != NUL
      invariant n <= |s| && forall i :: 0 <= i < n ==> a[i] == s[i]
      decreases |s| - n
    {
      n := n + 1;
    }
  }

  /** Doubling once makes room for a slash, a name and the null behind every path that
      fits the buffer exactly if the buffer is longer than NAME_MAX. */
  lemma DoublingSuffices(size: nat)
    requires size > 0
    ensures (forall n: nat :: n < size ==>
      NameFits(n, if NameFits(n, size) then size else size * 2)) <==> size > NAME_MAX
  {
    if size <= NAME_MAX {
      var n: nat := size - 1;
      assert !NameFits(n, size) && !NameFits(n, size * 2);
    }
  }

  /** A path of length n leaves room for a slash, a name and the null. */
  predicate NameFits(n: nat, size: nat) {
    n + NAME_MAX + 2 <= size
  }

  /** strcpy to offset n. */
  method StrCpy(a: array<char>, n: nat, s: string, ghost prefix: string)
    requires |prefix| == n && n + |s| < a.Length && a[..n] == prefix && NUL !in s && NUL !in prefix
    modifies a
    ensures Holds(a, prefix + s)
  {
    var i := 0;
    while i < |s|
      invariant 0 <= i <= |s| && a[..n] == prefix && a[n..n + i] == s[..i]
    {
      a[n + i] := s[i];
      i := i + 1;
    }
    a[n + i] := NUL;
    assert a[..n + i] == a[..n] + a[n..n + i];
  }

  method Realloc(a: array<char>, size: nat, ghost s: string) returns (b: array<char>)
    requires Holds(a, s) && size >= a.Length
    ensures fresh(b) && b.Length == size && Holds(b, s)
  {
    b := new char[size];
    var i := 0;
    while i < a.Length
      invariant 0 <= i <= a.Length && forall x :: 0 <= x < i ==> b[x] == a[x]
    {
      b[i] := a[i];
      i := i + 1;
    }
    assert b[..|s|] == a[..|s|];
  }

  /** What the first callback for a path decides. */
  lemma FirstCall(log: seq<Call>, node: Node, path: string, f: seq<Call> -> int)
    ensures node.NoStat? || node.File? ==>
      var l := log + [Call(path, if node.NoStat? then NS else F)]; Feed(log, PreOrder(node, path), f) == (l, f(l))
    ensures node.Unreadable? || node.Dir? ==>
      var l := log + [Call(path, D)];
      && Feed(log, [Call(path, D)], f) == (l, f(l))
      && (f(l) != 0 ==> Feed(log, PreOrder(node, path), f) == (l, f(l)))
      && (f(l) == 0 && node.Unreadable? ==>
            var m := l + [Call(path + "/", DNR)]; Feed(log, PreOrder(node, path), f) == (m, f(m)))
  {
    if node.Unreadable? {
      var l, c := log + [Call(path, D)], Call(path + "/", DNR);
      assert PreOrder(node, path)[1..] == [c];
      assert Feed(l, [c], f) == (l + [c], f(l + [c]));
    }
  }

  lemma NoNames(es: seq<Entry>, path: string)
    ensures [Call(path, D)] + Children(es[..0], path + "/") == [Call(path, D)]
  {
  }

  lemma AllNames(node: Node, path: string)
    requires node.Dir?
    ensures PreOrder(node, path) == [Call(path, D)] + Children(node.entries, path + "/")
  {
  }

  /** After one more name. */
  lemma NextName(log: seq<Call>, es: seq<Entry>, path: string, i: nat, f: seq<Call> -> int)
    requires i < |es| && Feed(log, [Call(path, D)] + Children(es[..i], path + "/"), f).1 == 0
    ensures var l := Feed(log, [Call(path, D)] + Children(es[..i], path + "/"), f).0;
      Feed(log, [Call(path, D)] + Children(es[..i + 1], path + "/"), f)
      == if IsDot(es[i].name) then (l, 0) else Feed(l, PreOrder(es[i].node, path + "/" + es[i].name), f)
  {
    var a, b := [Call(path, D)] + Children(es[..i], path + "/"), PreOrder(es[i].node, path + "/" + es[i].name);
    assert es[..i + 1][..i] == es[..i];
    assert IsDot(es[i].name) ==> [Call(path, D)] + (Children(es[..i], path + "/") + []) == a;
    assert !IsDot(es[i].name) ==> [Call(path, D)] + (Children(es[..i], path + "/") + b) == a + b;
    FeedConcat(log, a, b, f);
  }

  /** Once a callback has returned other than 0, later names do not count. */
  lemma {:induction false} StopsIn(log: seq<Call>, es: seq<Entry>, path: string, k: nat, f: seq<Call> -> int)
    requires k <= |es| && Feed(log, [Call(path, D)] + Children(es[..k], path + "/"), f).1 != 0
    ensures Feed(log, [Call(path, D)] + Children(es, path + "/"), f)
         == Feed(log, [Call(path, D)] + Children(es[..k], path + "/"), f)
    decreases |es| - k
  {
    if k == |es| {
      assert es[..k] == es;
    } else {
      var e, a := es[k], [Call(path, D)] + Children(es[..k], path + "/");
      var b := if IsDot(e.name) then [] else PreOrder(e.node, path + "/" + e.name);
      assert es[..k + 1][..k] == es[..k];
      assert [Call(path, D)] + (Children(es[..k], path + "/") + b) == a + b;
      FeedConcat(log, a, b, f);
      StopsIn(log, es, path, k + 1, f);
    }
  }

  /** The path of a directory is still there after one of its names. */
  lemma PathIntact(a: array<char>, prefix: string, name: string)
    requires Holds(a, prefix + name) || Holds(a, prefix + name + "/")
    ensures |prefix| <= a.Length && a[..|prefix|] == prefix
  {
    var s := if Holds(a, prefix + name) then prefix + name else prefix + name + "/";
    assert a[..|prefix|] == a[..|s|][..|prefix|] == s[..|prefix|];
  }

  class Walker {
    var fullpath: array<char>
    var log: seq<Call>
    /** What the callback returns when it is called for the last call of a log. */
    const func: seq<Call> -> int

    method Callback(kind: Type, ghost path: string) returns (ret: int)
      requires Holds(fullpath, path)
      modifies `log
      ensures log == old(log) + [Call(path, kind)] && ret == func(log)
    {
      var n := StrLen(fullpath, path);
      log := log + [Call(fullpath[..n], kind)];
      ret := func(log);
    }

    /** Put a slash behind the path, in a buffer of twice the size if a name might not
        fit after it. */
    method Slash(ghost path: string) returns (n: nat)
      requires Holds(fullpath, path) && fullpath.Length > NAME_MAX
      modifies `fullpath, fullpath
      ensures (fullpath == old(fullpath) || fresh(fullpath)) && fullpath.Length >= old(fullpath.Length)
      ensures n == |path| + 1 && n + NAME_MAX < fullpath.Length && Holds(fullpath, path + "/")
    {
      n := StrLen(fullpath, path);
      if n + NAME_MAX + 2 > fullpath.Length {
        fullpath := Realloc(fullpath, fullpath.Length * 2, path);
      }
      fullpath[n] := '/';
      n := n + 1;
      fullpath[n] := NUL;
      assert fullpath[..n] == fullpath[..n - 1] + [fullpath[n - 1]];
    }

    /** dopath. The buffer holds the path of node; afterwards it holds it again, with
        a slash behind it if the directory could not be read. */
    method DoPath(node: Node, ghost path: string) returns (ret: int)
      requires Holds(fullpath, path) && Named(node) && fullpath.Length > NAME_MAX
      modifies this, fullpath
      ensures (fullpath == old(fullpath) || fresh(fullpath)) && fullpath.Length >= old(fullpath.Length)
      ensures (log, ret) == Feed(old(log), PreOrder(node, path), func)
      ensures Holds(fullpath, path) || (node.Unreadable? && Holds(fullpath, path + "/"))
      decreases node, 1
    {
      FirstCall(old(log), node, path, func);
      if node.NoStat? {
        ret := Callback(NS, path);
        return;
      }
      if node.File? {
        ret := Callback(F, path);
        return;
      }
      ret := Callback(D, path);
      if ret != 0 {
        return;
      }
      var n := Slash(path);
      if node.Unreadable? {
        ret := Callback(DNR, path + "/");
        return;
      }
      ret := DoNames(node, path, n, old(log));
    }

    /** The loop over the names of a directory; the callback has had the directory. */
    method DoNames(node: Node, ghost path: string, n: nat, ghost log0: seq<Call>) returns (ret: int)
      requires node.Dir? && Named(node) && n == |path| + 1 && n + NAME_MAX < fullpath.Length
      requires Holds(fullpath, path + "/")
      requires (log, 0) == Feed(log0, [Call(path, D)], func)
      modifies this, fullpath
      ensures (fullpath == old(fullpath) || fresh(fullpath)) && fullpath.Length >= old(fullpath.Length)
      ensures (log, ret) == Feed(log0, PreOrder(node, path), func)
      ensures Holds(fullpath, path)
      decreases node, 0
    {
      hide Feed, PreOrder, Children;
      var i := 0;
      ret := 0;
      NoNames(node.entries, path);
      while i < |node.entries|
        invariant 0 <= i <= |node.entries|
        invariant (fullpath == old(fullpath) || fresh(fullpath)) && fullpath.Length >= old(fullpath.Length)
        invariant n + NAME_MAX < fullpath.Length && fullpath[..n] == path + "/"
        invariant ret == 0 && (log, 0) == Feed(log0, [Call(path, D)] + Children(node.entries[..i], path + "/"), func)
      {
        var e := node.entries[i];
        NextName(log0, node.entries, path, i, func);
        if !IsDot(e.name) {
          StrCpy(fullpath, n, e.name, path + "/");
          ret := DoPath(e.node, path + "/" + e.name);
          PathIntact(fullpath, path + "/", e.name);
          if ret != 0 {
            StopsIn(log0, node.entries, path, i + 1, func);
            break;
          }
        }
        i := i + 1;
      }
      AllNames(node, path);
      assert ret == 0 ==> node.entries[..i] == node.entries;
      fullpath[n - 1] := NUL;
      assert fullpath[..n - 1] == (path + "/")[..n - 1] == path;
    }

    constructor (f: seq<Call> -> int)
      ensures log == [] && func == f && fresh(fullpath)
    {
      func, log, fullpath := f, [], new char[1];
    }

    /** myftw: path_alloc gives a buffer of alloc bytes, at least _POSIX_PATH_MAX. The
        callbacks are those of the pre-order traversal, up to the first that returns
        other than 0. */
    method MyFtw(pathname: string, node: Node, alloc: nat) returns (ret: int)
      requires NUL !in pathname && Named(node) && alloc > NAME_MAX
      modifies this
      ensures (log, ret) == Feed(old(log), PreOrder(node, pathname), func)
    {
      var pathlen := alloc;
      fullpath := new char[pathlen];
      if pathlen <= |pathname| {
        pathlen := |pathname| * 2;
        fullpath := new char[pathlen];
      }
      assert fullpath[..0] == "";
      StrCpy(fullpath, 0, pathname, "");
      assert "" + pathname == pathname;
      ret := DoPath(node, pathname);
    }
  }
}
