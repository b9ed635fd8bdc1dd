/** Pathnames: a directory is the root it is under and the names from there on; its
    pathname joins them with slashes. */
module DirPath {
  type Path = seq<string>

  /** The directory p is in. */
  function Parent(p: Path): Path {
    if p == [] then [] else p[..|p| - 1]
  }

  predicate IsName(n: string) {
    n != "" && '/' !in n
  }

  predicate IsRoot(r: string) {
    r != "" && r[|r| - 1] != '/'
  }

  predicate IsPath(p: Path) {
    p != [] && IsRoot(p[0]) && forall i :: 1 <= i < |p| ==> IsName(p[i])
  }

  /** Each name with a slash before it. */
  function Tail(ns: seq<string>): string {
    if ns == [] then "" else "/" + ns[0] + Tail(ns[1..])
  }

  function Join(p: Path): string
    requires p != []
  {
    p[0] + Tail(p[1..])
  }

  /** The test of the cached paths: equal in the first strlen(s) characters, and then
      a slash or the end. */
  predicate Under(s: string, t: string) {
    s <= t && (|t| == |s| || t[|s|] == '/')
  }

  lemma {:induction false} TailConcat(a: seq<string>, b: seq<string>)
    ensures Tail(a + b) == Tail(a) + Tail(b)
  {
    if a == [] {
      assert a + b == b;
    } else {
      assert (a + b)[1..] == a[1..] + b;
      TailConcat(a[1..], b);
      assert "/" + a[0] + (Tail(a[1..]) + Tail(b)) == Tail(a) + Tail(b);
    }
  }

  lemma JoinConcat(p: Path, ns: seq<string>)
    requires p != []
    ensures p + ns != [] && Join(p + ns) == Join(p) + Tail(ns)
  {
    assert (p + ns)[1..] == p[1..] + ns;
    TailConcat(p[1..], ns);
  }

  /** The `"%s/%s"` of the source. */
  lemma JoinChild(p: Path, n: string)
    requires p != []
    ensures Join(p + [n]) == Join(p) + "/" + n
  {
    JoinConcat(p, [n]);
    assert Tail([n]) == "/" + n + Tail([]);
    assert Join(p) + ("/" + n) == Join(p) + "/" + n;
  }

  /** A tail starts with a slash. */
  lemma TailHead(ns: seq<string>)
    ensures Tail(ns) == "" <==> ns == []
    ensures ns != [] ==> Tail(ns)[0] == '/'
  {
  }

  /** Two names before a slash or the end are told apart by the characters. */
  lemma NamePrefix(m: string, n: string, x: string, y: string)
    requires '/' !in m && '/' !in n && m + x <= n + y && (x == "" ==> Under(m, n + y))
    requires x != "" ==> x[0] == '/'
    requires y != "" ==> y[0] == '/'
    ensures m == n
  {
    var s, t := m + x, n + y;
    assert forall i :: 0 <= i < |m| ==> t[i] == s[i] == m[i];
    assert forall i :: 0 <= i < |n| ==> t[i] == n[i];
    assert |m| < |t| ==> t[|m|] == '/' by {
      assert x != "" ==> s[|m|] == x[0];
    }
    assert |n| < |t| ==> t[|n|] == y[0];
    if |m| < |n| {
      assert false;
    } else if |n| < |m| {
      assert false;
    }
    assert m == t[..|m|];
  }

  lemma {:induction false} TailUnder(a: seq<string>, b: seq<string>)
    requires (forall i :: 0 <= i < |a| ==> IsName(a[i])) && (forall i :: 0 <= i < |b| ==> IsName(b[i]))
    ensures Under(Tail(a), Tail(b)) <==> a <= b
  {
    if a <= b {
      assert b == a + b[|a|..];
      TailConcat(a, b[|a|..]);
      TailHead(b[|a|..]);
    }
    if Under(Tail(a), Tail(b)) && a != [] {
      TailStep(a, b);
      TailUnder(a[1..], b[1..]);
      assert a == [a[0]] + a[1..] && b == [b[0]] + b[1..];
    }
  }

  lemma TailStep(a: seq<string>, b: seq<string>)
    requires (forall i :: 0 <= i < |a| ==> IsName(a[i])) && (forall i :: 0 <= i < |b| ==> IsName(b[i]))
    requires a != [] && Under(Tail(a), Tail(b))
    ensures b != [] && a[0] == b[0] && Under(Tail(a[1..]), Tail(b[1..]))
  {
    hide Tail, Under;
    TailCons(a);
    TailCons(b);
    SomeUnder(Tail(a), Tail(b));
    var x, y := Tail(a[1..]), Tail(b[1..]);
    var m, n := a[0], b[0];
    TailHead(a[1..]);
    TailHead(b[1..]);
    UnderParts(m, x, n + y);
    Peel('/', m + x, n + y);
    NamePrefix(m, n, x, y);
    Cut(m, x, y);
  }

  lemma TailCons(ns: seq<string>)
    ensures if ns == [] then Tail(ns) == "" else Tail(ns) == ['/'] + (ns[0] + Tail(ns[1..]))
  {
  }

  lemma SomeUnder(s: string, t: string)
    requires Under(s, t) && s != ""
    ensures t != ""
  {
  }

  lemma UnderParts(m: string, x: string, t: string)
    ensures Under(m + x, t) ==> m + x <= t && (x == "" ==> Under(m, t))
  {
    assert x == "" ==> m + x == m;
  }

  lemma Peel(c: char, s: string, t: string)
    requires Under([c] + s, [c] + t)
    ensures Under(s, t)
  {
    assert ([c] + s)[1..] == s && ([c] + t)[1..] == t;
    assert |t| > |s| ==> ([c] + t)[|s| + 1] == t[|s|];
  }

  lemma Cut(m: string, x: string, y: string)
    requires Under(m + x, m + y)
    ensures Under(x, y)
  {
    assert (m + x)[|m|..] == x && (m + y)[|m|..] == y;
    assert |y| > |x| ==> (m + y)[|m| + |x|] == y[|x|];
  }

  /** Neither root is inside the other. */
  predicate Apart(r: string, q: string) {
    !Under(r, q) && !Under(q, r)
  }

  /** The character test finds exactly the directories below: for directories under
      roots that are not nested. */
  lemma UnderIsPrefix(p: Path, q: Path)
    requires IsPath(p) && IsPath(q) && (p[0] == q[0] || Apart(p[0], q[0]))
    ensures Under(Join(p), Join(q)) <==> p <= q
  {
    var a, b := p[1..], q[1..];
    if p[0] == q[0] {
      TailUnder(a, b);
      if Under(Join(p), Join(q)) {
        Cut(p[0], Tail(a), Tail(b));
        assert p == [p[0]] + a && q == [q[0]] + b;
      }
      if p <= q {
        assert a <= b;
        Paste(p[0], Tail(a), Tail(b));
      }
    } else if Under(Join(p), Join(q)) {
      RootsMeet(p[0], q[0], a, b);
    }
  }

  lemma Paste(m: string, x: string, y: string)
    requires Under(x, y)
    ensures Under(m + x, m + y)
  {
    assert (m + x)[|m|..] == x;
    assert forall i :: 0 <= i < |m + x| ==> (m + x)[i] == (m + y)[i];
  }

  lemma RootsMeet(r: string, q: string, a: seq<string>, b: seq<string>)
    requires Under(r + Tail(a), q + Tail(b))
    ensures Under(r, q) || Under(q, r)
  {
    TailHead(a);
    TailHead(b);
    var s, t := r + Tail(a), q + Tail(b);
    assert s[..|r|] == r && t[..|q|] == q && t[..|s|] == s;
    if |r| <= |q| {
      assert t[..|r|] == s[..|r|];
      assert q[..|r|] == t[..|r|];
      if |r| < |q| {
        assert t[|r|] == q[|r|];
        assert a != [] ==> s[|r|] == Tail(a)[0];
      }
    } else {
      assert t[..|q|] == s[..|q|] == r[..|q|];
      assert r[|q|] == s[|q|] == t[|q|] == Tail(b)[0];
    }
  }

  lemma JoinInjective(p: Path, q: Path)
    requires IsPath(p) && IsPath(q) && (p[0] == q[0] || Apart(p[0], q[0])) && Join(p) == Join(q)
    ensures p == q
  {
    UnderIsPrefix(p, q);
    UnderIsPrefix(q, p);
  }

  // ---- Moving a subtree -----------------------------------------------------

  /** Where a directory is after from has become to. */
  function Moved(q: Path, from: Path, to: Path): Path {
    if from <= q then to + q[|from|..] else q
  }

  /** The string rewriting of rewriteCachedPaths. */
  function Rewrite(s: string, f: string, t: string): string {
    if Under(f, s) then t + s[|f|..] else s
  }

  /** Rewriting the prefix of a pathname moves the directory. */
  lemma RewriteIsMove(q: Path, from: Path, to: Path)
    requires IsPath(q) && IsPath(from) && IsPath(to) && (from[0] == q[0] || Apart(from[0], q[0]))
    ensures Moved(q, from, to) != [] && Rewrite(Join(q), Join(from), Join(to)) == Join(Moved(q, from, to))
  {
    UnderIsPrefix(from, q);
    if from <= q {
      assert q == from + q[|from|..];
      JoinConcat(from, q[|from|..]);
      JoinConcat(to, q[|from|..]);
      assert (Join(from) + Tail(q[|from|..]))[|Join(from)|..] == Tail(q[|from|..]);
    }
  }
}
