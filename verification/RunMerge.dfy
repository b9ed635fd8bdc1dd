/** Merging sorted runs of equal length, as the main thread does with the slices
    the worker threads have sorted. */
module RunMerge {
  const LONG_MAX := 0x7fff_ffff_ffff_ffff

  /** Where run i starts. */
  function At(i: nat, m: nat): nat {
    i * m
  }

  function End(i: nat, m: nat): nat {
    (i + 1) * m
  }

  /** A run is m long, and ends before the next one of a higher number starts. */
  lemma Span(i: nat, j: nat, m: nat)
    requires i < j
    ensures End(i, m) == At(i, m) + m == At(i + 1, m) <= At(j, m)
  {
    Distribute(i, 1, m);
    Distribute(i + 1, j - i - 1, m);
  }

  lemma Distribute(x: nat, y: nat, m: nat)
    ensures (x + y) * m == x * m + y * m && y * m >= 0
  {
  }

  lemma AtZero(m: nat)
    ensures At(0, m) == 0
  {
  }

  ghost predicate SortedRun(a: seq<int>, lo: nat, hi: nat) {
    lo <= hi <= |a| && forall x, y :: lo <= x < y < hi ==> a[x] <= a[y]
  }

  ghost predicate SortedRuns(a: seq<int>, k: nat, m: nat) {
    |a| == At(k, m) && forall i :: 0 <= i < k ==> SortedRun(a, At(i, m), End(i, m))
  }

  /** Position x comes before y: a smaller value, or an equal one further to the left,
      which is in a run of a lower number or earlier in the same. */
  predicate Before(a: seq<int>, x: nat, y: nat)
    requires x < |a| && y < |a|
  {
    a[x] < a[y] || (a[x] == a[y] && x < y)
  }

  /** idx[i] is how far run i has been taken. */
  ghost predicate Places(idx: seq<int>, k: nat, m: nat) {
    |idx| == k && forall i :: 0 <= i < k ==> At(i, m) <= idx[i] <= End(i, m)
  }

  /** What has been taken of the first n runs. */
  ghost function Taken(a: seq<int>, idx: seq<int>, m: nat, n: nat): multiset<int>
    requires n <= |idx| && forall i :: 0 <= i < n ==> At(i, m) <= idx[i] <= |a|
  {
    if n == 0 then multiset{} else Taken(a, idx, m, n - 1) + multiset(a[At(n - 1, m)..idx[n - 1]])
  }

  ghost function Count(idx: seq<int>, m: nat, n: nat): int
    requires n <= |idx|
  {
    if n == 0 then 0 else Count(idx, m, n - 1) + idx[n - 1] - At(n - 1, m)
  }

  lemma {:induction false} TakeOne(a: seq<int>, idx: seq<int>, m: nat, n: nat, j: nat)
    requires j < n <= |idx| && (forall i :: 0 <= i < n ==> At(i, m) <= idx[i] <= |a|) && idx[j] < |a|
    ensures forall i :: 0 <= i < n ==> At(i, m) <= idx[j := idx[j] + 1][i] <= |a|
    ensures Taken(a, idx[j := idx[j] + 1], m, n) == Taken(a, idx, m, n) + multiset{a[idx[j]]}
    ensures Count(idx[j := idx[j] + 1], m, n) == Count(idx, m, n) + 1
  {
    hide At;
    var u := idx[j := idx[j] + 1];
    if j == n - 1 {
      TakenSame(a, idx, u, m, j);
      TakeLast(a, At(j, m), idx[j]);
    } else {
      TakeOne(a, idx, m, n - 1, j);
      assert u[n - 1] == idx[n - 1];
    }
  }

  lemma TakeLast(a: seq<int>, lo: nat, hi: nat)
    requires lo <= hi < |a|
    ensures multiset(a[lo..hi + 1]) == multiset(a[lo..hi]) + multiset{a[hi]}
  {
    assert a[lo..hi + 1] == a[lo..hi] + [a[hi]];
  }

  lemma {:induction false} TakenSame(a: seq<int>, idx: seq<int>, u: seq<int>, m: nat, n: nat)
    requires n <= |idx| == |u| && (forall i :: 0 <= i < n ==> u[i] == idx[i] && At(i, m) <= idx[i] <= |a|)
    ensures Taken(a, u, m, n) == Taken(a, idx, m, n) && Count(u, m, n) == Count(idx, m, n)
  {
    if n > 0 {
      TakenSame(a, idx, u, m, n - 1);
    }
  }

  lemma {:induction false} TakenNone(a: seq<int>, idx: seq<int>, m: nat, n: nat)
    requires n <= |idx| && forall i :: 0 <= i < n ==> At(i, m) == idx[i] <= |a|
    ensures Taken(a, idx, m, n) == multiset{} && Count(idx, m, n) == 0
  {
    if n > 0 {
      TakenNone(a, idx, m, n - 1);
    }
  }

  /** All is taken exactly when every run is at its end. */
  lemma {:induction false} CountFull(idx: seq<int>, k: nat, m: nat, n: nat)
    requires Places(idx, k, m) && n <= k
    ensures Count(idx, m, n) <= At(n, m)
    ensures Count(idx, m, n) == At(n, m) <==> forall i :: 0 <= i < n ==> idx[i] == End(i, m)
  {
    hide At, End;
    AtZero(m);
    if n > 0 {
      CountFull(idx, k, m, n - 1);
      Span(n - 1, n, m);
    }
  }

  // ---- The merge ------------------------------------------------------------

  /** Run i is not at its end, and its next position is after x. */
  ghost predicate HeadAfter(a: seq<int>, idx: seq<int>, m: nat, i: nat, x: nat)
    requires i < |idx|
  {
    0 <= idx[i] < End(i, m) ==> idx[i] < |a| && x < |a| && Before(a, x, idx[i])
  }

  ghost predicate AllAfter(a: seq<int>, idx: seq<int>, m: nat, x: nat) {
    forall i :: 0 <= i < |idx| ==> HeadAfter(a, idx, m, i, x)
  }

  /** The positions taken so far, in the order they were taken. */
  ghost predicate Order(a: seq<int>, src: seq<nat>) {
    && (forall s :: 0 <= s < |src| ==> src[s] < |a|)
    && (forall s, t :: 0 <= s < t < |src| ==> Before(a, src[s], src[t]))
  }

  ghost predicate Pending(a: seq<int>, idx: seq<int>, m: nat, src: seq<nat>) {
    forall s :: 0 <= s < |src| ==> AllAfter(a, idx, m, src[s])
  }

  /** The next of run j is the next of all. */
  ghost predicate IsNext(a: seq<int>, idx: seq<int>, m: nat, j: nat) {
    && j < |idx| && 0 <= idx[j] < |a| && idx[j] < End(j, m)
    && forall i :: 0 <= i < |idx| && i != j ==> HeadAfter(a, idx, m, i, idx[j])
  }

  /** Of the runs before n, run j has the least next number if one is below LONG_MAX. */
  ghost predicate LeastOf(a: seq<int>, idx: seq<int>, m: nat, n: nat, j: int, num: int)
    requires n <= |idx|
  {
    && (num != LONG_MAX ==> 0 <= j < n && 0 <= idx[j] < |a| && idx[j] < End(j, m) && a[idx[j]] == num)
    && (forall i :: 0 <= i < n && 0 <= idx[i] < End(i, m) ==>
          idx[i] < |a| && (if num != LONG_MAX && i < j then num < a[idx[i]] else num <= a[idx[i]]))
  }

  /** The next number of some run is below LONG_MAX. */
  ghost predicate SomeBelow(a: seq<int>, idx: seq<int>, m: nat) {
    exists i :: 0 <= i < |idx| && 0 <= idx[i] < End(i, m) && idx[i] < |a| && a[idx[i]] < LONG_MAX
  }

  lemma LeastIsNext(a: seq<int>, idx: seq<int>, k: nat, m: nat, j: int, num: int)
    requires |idx| == k && LeastOf(a, idx, m, k, j, num) && num != LONG_MAX
    requires forall i :: 0 <= i < k ==> idx[i] >= At(i, m)
    ensures IsNext(a, idx, m, j)
  {
    hide At, End;
    forall i | 0 <= i < |idx| && i != j
      ensures HeadAfter(a, idx, m, i, idx[j])
    {
      if i > j {
        Span(j, i, m);
      }
    }
  }

  lemma Advance(a: seq<int>, idx: seq<int>, k: nat, m: nat, src: seq<nat>, j: nat)
    requires SortedRuns(a, k, m) && Places(idx, k, m) && IsNext(a, idx, m, j) && Order(a, src)
    requires Pending(a, idx, m, src)
    ensures Places(idx[j := idx[j] + 1], k, m)
    ensures Order(a, src + [idx[j]]) && Pending(a, idx[j := idx[j] + 1], m, src + [idx[j]])
  {
    hide At, End;
    var c, u := idx[j], idx[j := idx[j] + 1];
    assert SortedRun(a, At(j, m), End(j, m));
    assert c + 1 < End(j, m) ==> Before(a, c, c + 1);
    forall s | 0 <= s < |src|
      ensures AllAfter(a, u, m, src[s]) && Before(a, src[s], c)
    {
      assert AllAfter(a, idx, m, src[s]);
      assert HeadAfter(a, idx, m, j, src[s]);
      forall i | 0 <= i < |u|
        ensures HeadAfter(a, u, m, i, src[s])
      {
        assert HeadAfter(a, idx, m, i, src[s]);
      }
    }
    forall i | 0 <= i < |u|
      ensures HeadAfter(a, u, m, i, c)
    {
      if i != j {
        assert HeadAfter(a, idx, m, i, c);
      }
    }
  }

  /** The inner loop of merge: minidx stays what it was when no number is below
      LONG_MAX. */
  method Least(nums: array<int>, idx: array<int>, m: nat, last: int) returns (minidx: int)
    requires SortedRuns(nums[..], idx.Length, m) && forall i :: 0 <= i < idx.Length ==> idx[i] >= At(i, m)
    requires forall x :: 0 <= x < nums.Length ==> nums[x] <= LONG_MAX
    ensures SomeBelow(nums[..], idx[..], m) ==> minidx >= 0 && IsNext(nums[..], idx[..], m, minidx)
    ensures !SomeBelow(nums[..], idx[..], m) ==> minidx == last
  {
    var num := LONG_MAX;
    minidx := last;
    var i := 0;
    while i < idx.Length
      invariant 0 <= i <= idx.Length && LeastOf(nums[..], idx[..], m, i, minidx, num)
      invariant num <= LONG_MAX && (num == LONG_MAX ==> minidx == last)
    {
      assert SortedRun(nums[..], At(i, m), End(i, m));
      var end := (i + 1) * m;
      assert end == End(i, m);
      if idx[i] < end && nums[idx[i]] < num {
        num := nums[idx[i]];
        minidx := i;
      }
      i := i + 1;
    }
    if num != LONG_MAX {
      LeastIsNext(nums[..], idx[..], idx.Length, m, minidx, num);
    }
  }

  lemma NextIn(a: seq<int>, idx: seq<int>, m: nat, j: nat)
    requires IsNext(a, idx, m, j)
    ensures j < |idx| && 0 <= idx[j] < |a|
  {
  }

  ghost predicate InBounds(a: seq<int>, idx: seq<int>, m: nat) {
    forall i :: 0 <= i < |idx| ==> At(i, m) <= idx[i] <= |a|
  }

  /** What taking the next of run j does. */
  ghost predicate Moved(a: seq<int>, idx: seq<int>, k: nat, m: nat, src: seq<nat>, j: nat)
    requires |idx| == k && InBounds(a, idx, m) && IsNext(a, idx, m, j)
  {
    var u := idx[j := idx[j] + 1];
    && Places(u, k, m) && InBounds(a, u, m) && Order(a, src + [idx[j]]) && Pending(a, u, m, src + [idx[j]])
    && Taken(a, u, m, k) == Taken(a, idx, m, k) + multiset{a[idx[j]]} && Count(u, m, k) == Count(idx, m, k) + 1
  }

  lemma NextMoved(a: seq<int>, idx: seq<int>, k: nat, m: nat, src: seq<nat>, j: nat)
    requires SortedRuns(a, k, m) && Places(idx, k, m) && InBounds(a, idx, m) && IsNext(a, idx, m, j)
    requires Order(a, src) && Pending(a, idx, m, src)
    ensures Moved(a, idx, k, m, src, j)
  {
    hide At, End, Order, Pending, SortedRuns;
    Advance(a, idx, k, m, src, j);
    hide Places;
    TakeOne(a, idx, m, k, j);
  }

  // ---- Numbers below LONG_MAX, and the rest ---------------------------------

  predicate Sorted(a: seq<int>) {
    forall s, t :: 0 <= s < t < |a| ==> a[s] <= a[t]
  }

  /** The last of the largest numbers below LONG_MAX is at p. */
  ghost predicate LastBelow(a: seq<int>, p: nat) {
    p < |a| && a[p] < LONG_MAX && forall x :: 0 <= x < |a| && a[x] < LONG_MAX && x != p ==> Before(a, x, p)
  }

  /** The next n numbers behind p are LONG_MAX. */
  ghost predicate FollowedBy(a: seq<int>, p: nat, n: nat) {
    p + n < |a| && forall x :: p < x <= p + n ==> a[x] == LONG_MAX
  }

  /** What merge gets by with: LONG_MAX does not occur, or all of its occurrences come
      right behind the last of the largest other numbers. */
  ghost predicate Lucky(a: seq<int>) {
    var n := multiset(a)[LONG_MAX];
    n == 0 || exists p: nat :: LastBelow(a, p) && FollowedBy(a, p, n)
  }

  /** Every position taken of a run is in src. */
  ghost predicate AllIn(idx: seq<int>, m: nat, src: seq<nat>) {
    forall i: nat, x: nat :: i < |idx| && At(i, m) <= x < idx[i] ==> x in src
  }

  /** As long as there are numbers below LONG_MAX: out are the numbers at src, which
      are all that was taken, and j is the run the last one came from. */
  ghost predicate Merging(a: seq<int>, k: nat, m: nat, idx: seq<int>, src: seq<nat>, out: seq<int>, j: int) {
    && Places(idx, k, m) && InBounds(a, idx, m) && Order(a, src) && Pending(a, idx, m, src) && AllIn(idx, m, src)
    && |out| == |src| == Count(idx, m, k) && multiset(out) == Taken(a, idx, m, k)
    && (forall s :: 0 <= s < |src| ==> out[s] == a[src[s]] < LONG_MAX)
    && (if src == [] then j == -1 else 0 <= j < k && idx[j] == src[|src| - 1] + 1)
  }

  /** Nothing but LONG_MAX is left of the runs. */
  ghost predicate OnlyMax(a: seq<int>, idx: seq<int>, m: nat) {
    forall i, x :: 0 <= i < |idx| && 0 <= idx[i] <= x < End(i, m) && x < |a| ==> a[x] == LONG_MAX
  }

  /** src are the positions of all numbers below LONG_MAX, in their order. */
  ghost predicate AllBelow(a: seq<int>, src: seq<nat>) {
    && Order(a, src) && (forall s :: 0 <= s < |src| ==> a[src[s]] < LONG_MAX)
    && (forall x: nat :: x < |a| && a[x] < LONG_MAX ==> x in src)
    && multiset(a)[LONG_MAX] == |a| - |src| >= 0
  }

  /** After that merge goes on where it took the last number, past the end of the run
      if need be. */
  ghost predicate Stale(a: seq<int>, m: nat, idx: seq<int>, src: seq<nat>, out: seq<int>, j: int) {
    && AllBelow(a, src) && OnlyMax(a, idx, m) && (forall i :: 0 <= i < |idx| ==> idx[i] >= At(i, m))
    && src != [] && 0 <= j < |idx| && |src| <= |out|
    && idx[j] == src[|src| - 1] + 1 + |out| - |src| <= |a|
    && (forall s :: 0 <= s < |src| ==> out[s] == a[src[s]])
    && out[|src|..] == a[src[|src| - 1] + 1..idx[j]]
    && multiset(a) == multiset(out[..|src|])[LONG_MAX := |a| - |src|]
  }

  lemma {:induction false} AllSame(s: seq<int>, v: int)
    ensures multiset(s)[v] <= |s| && (multiset(s)[v] == |s| <==> forall x :: 0 <= x < |s| ==> s[x] == v)
  {
    if s != [] {
      var n := |s| - 1;
      AllSame(s[..n], v);
      assert s == s[..n] + [s[n]];
      assert forall x :: 0 <= x < n ==> s[..n][x] == s[x];
    }
  }

  /** What is left of the first n runs. */
  ghost function Left(a: seq<int>, idx: seq<int>, m: nat, n: nat): multiset<int>
    requires n <= |idx| && forall i :: 0 <= i < n ==> 0 <= idx[i] <= End(i, m) <= |a|
  {
    if n == 0 then multiset{} else Left(a, idx, m, n - 1) + multiset(a[idx[n - 1]..End(n - 1, m)])
  }

  lemma {:induction false} TakenLeft(a: seq<int>, idx: seq<int>, k: nat, m: nat, n: nat)
    requires n <= k && |a| == At(k, m) && Places(idx, k, m)
    ensures At(n, m) <= |a| && forall i :: 0 <= i < n ==> At(i, m) <= idx[i] <= End(i, m) <= |a|
    ensures Taken(a, idx, m, n) + Left(a, idx, m, n) == multiset(a[..At(n, m)])
  {
    hide At, End;
    AtZero(m);
    if n > 0 {
      TakenLeft(a, idx, k, m, n - 1);
      Span(n - 1, k, m);
      var lo, mid, hi := At(n - 1, m), idx[n - 1], End(n - 1, m);
      assert a[..hi] == a[..lo] + (a[lo..mid] + a[mid..hi]);
    }
  }

  lemma {:induction false} LeftMax(a: seq<int>, idx: seq<int>, k: nat, m: nat, n: nat)
    requires n <= k && Places(idx, k, m) && OnlyMax(a, idx, m)
    requires forall i :: 0 <= i < n ==> 0 <= idx[i] <= End(i, m) <= |a|
    ensures forall v :: v in Left(a, idx, m, n) ==> v == LONG_MAX
    ensures Left(a, idx, m, n)[LONG_MAX] == At(n, m) - Count(idx, m, n)
  {
    hide At, End, OnlyMax;
    AtZero(m);
    if n > 0 {
      LeftMax(a, idx, k, m, n - 1);
      Span(n - 1, n, m);
      RunLeft(a, idx, m, n - 1);
    }
  }

  lemma RunLeft(a: seq<int>, idx: seq<int>, m: nat, i: nat)
    requires i < |idx| && 0 <= idx[i] <= End(i, m) <= |a| && OnlyMax(a, idx, m)
    ensures var l := multiset(a[idx[i]..End(i, m)]);
      l[LONG_MAX] == End(i, m) - idx[i] && forall v :: v in l ==> v == LONG_MAX
  {
    hide End;
    var l := a[idx[i]..End(i, m)];
    assert forall x :: 0 <= x < |l| ==> l[x] == a[idx[i] + x] == LONG_MAX;
    AllSame(l, LONG_MAX);
  }

  /** Every position is in a run. */
  lemma RunOf(x: nat, k: nat, m: nat) returns (i: nat)
    requires x < At(k, m)
    ensures i < k && At(i, m) <= x < End(i, m)
  {
    i := 0;
    while x >= End(i, m)
      invariant i < k && At(i, m) <= x
      decreases k - i
    {
      Span(i, k, m);
      i := i + 1;
    }
  }

  lemma OnlyMaxLeft(a: seq<int>, idx: seq<int>, k: nat, m: nat)
    requires SortedRuns(a, k, m) && Places(idx, k, m) && !SomeBelow(a, idx, m)
    requires forall x :: 0 <= x < |a| ==> a[x] <= LONG_MAX
    ensures OnlyMax(a, idx, m)
  {
    hide At, End;
    forall i, x | 0 <= i < |idx| && 0 <= idx[i] <= x < End(i, m) && x < |a|
      ensures a[x] == LONG_MAX
    {
      assert SortedRun(a, At(i, m), End(i, m));
      assert a[idx[i]] <= a[x];
    }
  }

  /** When no next number is below LONG_MAX, all numbers below it have been taken. */
  lemma EndOfMerging(a: seq<int>, k: nat, m: nat, idx: seq<int>, src: seq<nat>, out: seq<int>, j: int)
    requires SortedRuns(a, k, m) && Merging(a, k, m, idx, src, out, j) && !SomeBelow(a, idx, m)
    requires forall x :: 0 <= x < |a| ==> a[x] <= LONG_MAX
    ensures OnlyMax(a, idx, m) && AllBelow(a, src) && multiset(a) == multiset(out)[LONG_MAX := |a| - |src|]
  {
    hide At, End, SomeBelow, SortedRun, Order, Pending, Taken, Count, Left;
    OnlyMaxLeft(a, idx, k, m);
    TakenLeft(a, idx, k, m, k);
    LeftMax(a, idx, k, m, k);
    assert a[..At(k, m)] == a;
    assert LONG_MAX !in out;
    assert multiset(a) == multiset(out)[LONG_MAX := |a| - |src|];
    forall x: nat | x < |a| && a[x] < LONG_MAX
      ensures x in src
    {
      var i := RunOf(x, k, m);
      assert x < idx[i];
    }
  }

  lemma OneLast(a: seq<int>, p: nat, q: nat)
    requires LastBelow(a, p) && LastBelow(a, q)
    ensures p == q
  {
  }

  lemma LastTaken(a: seq<int>, src: seq<nat>)
    requires AllBelow(a, src) && src != []
    ensures LastBelow(a, src[|src| - 1])
  {
    var n := |src| - 1;
    forall x | 0 <= x < |a| && a[x] < LONG_MAX && x != src[n]
      ensures Before(a, x, src[n])
    {
      var s :| 0 <= s < |src| && src[s] == x;
      assert Before(a, src[s], src[n]);
    }
  }

  /** Lucky, from what merge has taken. */
  lemma LuckyIff(a: seq<int>, src: seq<nat>)
    requires AllBelow(a, src) && src != []
    ensures Lucky(a) <==> |a| == |src| || FollowedBy(a, src[|src| - 1], |a| - |src|)
  {
    hide FollowedBy;
    var p, n := src[|src| - 1], |a| - |src|;
    LastTaken(a, src);
    if n > 0 && Lucky(a) {
      var q: nat :| LastBelow(a, q) && FollowedBy(a, q, n);
      OneLast(a, p, q);
    }
  }

  /** Where merge reads outside the numbers, or has taken none, it had no luck. */
  lemma Unlucky(a: seq<int>, m: nat, idx: seq<int>, src: seq<nat>, out: seq<int>, j: int)
    requires |out| < |a| && AllBelow(a, src)
    requires src == [] || (Stale(a, m, idx, src, out, j) && idx[j] == |a|)
    ensures !Lucky(a)
  {
    if src != [] {
      LuckyIff(a, src);
    } else {
      assert forall p: nat :: !LastBelow(a, p);
    }
  }

  lemma SortedOut(a: seq<int>, src: seq<nat>, out: seq<int>)
    requires AllBelow(a, src) && |src| <= |out| && (forall s :: 0 <= s < |src| ==> out[s] == a[src[s]])
    requires forall s :: |src| <= s < |out| ==> out[s] == LONG_MAX
    ensures Sorted(out)
  {
    assert forall s, t :: 0 <= s < t < |src| ==> Before(a, src[s], src[t]);
  }

  lemma TailIs(a: seq<int>, src: seq<nat>, out: seq<int>)
    requires src != [] && |src| <= |out| == |a| && src[|src| - 1] + 1 + |a| - |src| <= |a|
    requires out[|src|..] == a[src[|src| - 1] + 1..src[|src| - 1] + 1 + |a| - |src|]
    ensures (forall s :: |src| <= s < |out| ==> out[s] == LONG_MAX) <==>
      |a| == |src| || FollowedBy(a, src[|src| - 1], |a| - |src|)
  {
    var b, p, n := |src|, src[|src| - 1], |a| - |src|;
    assert forall s :: b <= s < |out| ==> out[s] == out[b..][s - b] == a[p + 1 + s - b];
    if forall s :: b <= s < |out| ==> out[s] == LONG_MAX {
      forall x | p < x <= p + n
        ensures a[x] == LONG_MAX
      {
        assert out[b + x - p - 1] == a[x];
      }
    }
  }

  /** The first b numbers are right, and n LONG_MAX are missing. */
  lemma TailCounts(a: seq<int>, out: seq<int>, b: nat)
    requires b <= |out| == |a| && LONG_MAX !in out[..b] && multiset(a) == multiset(out[..b])[LONG_MAX := |a| - b]
    ensures multiset(out) == multiset(a) <==> forall s :: b <= s < |out| ==> out[s] == LONG_MAX
  {
    var tail := out[b..];
    assert out == out[..b] + tail;
    AllSame(tail, LONG_MAX);
    assert multiset(out)[LONG_MAX] == multiset(tail)[LONG_MAX];
    assert forall s :: b <= s < |out| ==> out[s] == tail[s - b];
    assert multiset(a)[LONG_MAX] == |tail|;
    if forall s :: b <= s < |out| ==> out[s] == LONG_MAX {
      assert forall x :: 0 <= x < |tail| ==> tail[x] == out[b + x];
      assert forall v :: v in multiset(tail) ==> v == LONG_MAX;
      assert multiset(out) == multiset(a);
    }
  }

  /** The numbers merge has written are right if and only if it had luck. */
  lemma Verdict(a: seq<int>, m: nat, idx: seq<int>, src: seq<nat>, out: seq<int>, j: int)
    requires Stale(a, m, idx, src, out, j) && |out| == |a|
    requires LONG_MAX !in out[..|src|]
    ensures Sorted(out) && multiset(out) == multiset(a) <==> Lucky(a)
  {
    TailCounts(a, out, |src|);
    TailIs(a, src, out);
    LuckyIff(a, src);
    hide Lucky, OnlyMax, FollowedBy, AllBelow, Sorted;
    if forall s :: |src| <= s < |out| ==> out[s] == LONG_MAX {
      SortedOut(a, src, out);
    }
  }

  // ---- The whole merge ------------------------------------------------------

  lemma Continue(a: seq<int>, k: nat, m: nat, idx: seq<int>, src: seq<nat>, out: seq<int>, j: int, j': int)
    requires SortedRuns(a, k, m) && Merging(a, k, m, idx, src, out, j) && j' >= 0 && IsNext(a, idx, m, j')
    requires a[idx[j']] < LONG_MAX
    ensures Merging(a, k, m, idx[j' := idx[j'] + 1], src + [idx[j'] as nat], out + [a[idx[j']]], j')
  {
    hide At, End, Order, Pending, SortedRuns, Count, Taken, IsNext;
    NextIn(a, idx, m, j');
    NextMoved(a, idx, k, m, src, j');
    hide Places;
    AllInNext(idx, m, src, j');
  }

  lemma AllInNext(idx: seq<int>, m: nat, src: seq<nat>, j: nat)
    requires AllIn(idx, m, src) && j < |idx| && idx[j] >= 0
    ensures AllIn(idx[j := idx[j] + 1], m, src + [idx[j] as nat])
  {
    hide At;
  }

  lemma NextBelow(a: seq<int>, idx: seq<int>, m: nat, j: nat)
    requires IsNext(a, idx, m, j) && SomeBelow(a, idx, m)
    ensures a[idx[j]] < LONG_MAX
  {
    hide End;
    var i :| 0 <= i < |idx| && 0 <= idx[i] < End(i, m) && idx[i] < |a| && a[idx[i]] < LONG_MAX;
    if i != j {
      assert HeadAfter(a, idx, m, i, idx[j]);
    }
  }

  lemma GoOn(a: seq<int>, m: nat, idx: seq<int>, src: seq<nat>, out: seq<int>, j: int)
    requires Stale(a, m, idx, src, out, j) && idx[j] < |a|
    ensures Stale(a, m, idx[j := idx[j] + 1], src, out + [a[idx[j]]], j)
  {
    hide At, End, AllBelow;
    var u := idx[j := idx[j] + 1];
    assert a[src[|src| - 1] + 1..u[j]] == a[src[|src| - 1] + 1..idx[j]] + [a[idx[j]]];
    assert (out + [a[idx[j]]])[|src|..] == out[|src|..] + [a[idx[j]]];
    assert (out + [a[idx[j]]])[..|src|] == out[..|src|];
  }

  lemma StartsPlaced(a: seq<int>, idx: seq<int>, k: nat, m: nat)
    requires |a| == At(k, m) && |idx| == k && forall x :: 0 <= x < k ==> idx[x] == At(x, m)
    ensures Places(idx, k, m) && InBounds(a, idx, m) && Taken(a, idx, m, k) == multiset{} && Count(idx, m, k) == 0
  {
    hide At, End;
    forall i {:trigger idx[i]} | 0 <= i < k
      ensures At(i, m) <= idx[i] <= End(i, m) <= |a|
    {
      Span(i, k, m);
    }
    TakenNone(a, idx, m, k);
  }

  /** What every turn of the outer loop keeps. */
  ghost predicate Going(a: seq<int>, k: nat, m: nat, idx: seq<int>, src: seq<nat>, out: seq<int>, j: int) {
    && |idx| == k && -1 <= j < k && (forall i :: 0 <= i < k ==> idx[i] >= At(i, m))
    && (Merging(a, k, m, idx, src, out, j) || Stale(a, m, idx, src, out, j))
  }

  lemma StaleHasNone(a: seq<int>, m: nat, idx: seq<int>, src: seq<nat>, out: seq<int>, j: int)
    requires Stale(a, m, idx, src, out, j)
    ensures !SomeBelow(a, idx, m)
  {
    hide At, End, AllBelow;
  }

  lemma Enters(a: seq<int>, k: nat, m: nat, idx: seq<int>, src: seq<nat>, out: seq<int>, j: int)
    requires SortedRuns(a, k, m) && Merging(a, k, m, idx, src, out, j) && !SomeBelow(a, idx, m)
    requires forall x :: 0 <= x < |a| ==> a[x] <= LONG_MAX
    ensures AllBelow(a, src) && (src != [] ==> Stale(a, m, idx, src, out, j))
  {
    EndOfMerging(a, k, m, idx, src, out, j);
    hide At, End, SortedRuns, OnlyMax, AllBelow, SomeBelow, Count, Taken, Pending, InBounds;
    assert out[..|src|] == out;
    if src != [] {
      var p := src[|src| - 1] + 1;
      assert a[p..p] == [] == out[|src|..];
    }
  }

  /** One turn of the outer loop, with the run the inner loop has found. */
  lemma Turn(a: seq<int>, k: nat, m: nat, idx: seq<int>, src: seq<nat>, out: seq<int>, last: int, j: int)
      returns (next: seq<nat>)
    requires SortedRuns(a, k, m) && (forall x :: 0 <= x < |a| ==> a[x] <= LONG_MAX)
    requires Going(a, k, m, idx, src, out, last) && |out| < |a|
    requires if SomeBelow(a, idx, m) then j >= 0 && IsNext(a, idx, m, j) else j == last
    ensures j < k && (if 0 <= j && idx[j] < |a| then idx[j] >= 0
                      && Going(a, k, m, idx[j := idx[j] + 1], next, out + [a[idx[j]]], j) else !Lucky(a))
  {
    hide At, End, SortedRuns, Lucky;
    next := src;
    if SomeBelow(a, idx, m) {
      if Stale(a, m, idx, src, out, last) {
        StaleHasNone(a, m, idx, src, out, last);
      } else {
        NextBelow(a, idx, m, j);
        NextIn(a, idx, m, j);
        Continue(a, k, m, idx, src, out, last, j);
        next := src + [idx[j] as nat];
        hide Merging, Stale, IsNext, SomeBelow;
      }
    } else {
      if Merging(a, k, m, idx, src, out, j) {
        Enters(a, k, m, idx, src, out, j);
      }
      TurnStale(a, k, m, idx, src, out, j);
    }
  }

  lemma TurnStale(a: seq<int>, k: nat, m: nat, idx: seq<int>, src: seq<nat>, out: seq<int>, j: int)
    requires |idx| == k && -1 <= j < k && (forall i :: 0 <= i < k ==> idx[i] >= At(i, m)) && |out| < |a|
    requires AllBelow(a, src) && (if src == [] then j == -1 else Stale(a, m, idx, src, out, j))
    ensures if 0 <= j && idx[j] < |a| then Going(a, k, m, idx[j := idx[j] + 1], src, out + [a[idx[j]]], j)
            else !Lucky(a)
  {
    hide At, End, AllBelow, Lucky, OnlyMax;
    if 0 <= j && idx[j] < |a| {
      GoOn(a, m, idx, src, out, j);
      hide Merging, Stale;
    } else {
      Unlucky(a, m, idx, src, out, j);
    }
  }

  lemma Done(a: seq<int>, k: nat, m: nat, idx: seq<int>, src: seq<nat>, out: seq<int>, j: int)
    requires SortedRuns(a, k, m) && (forall x :: 0 <= x < |a| ==> a[x] <= LONG_MAX)
    requires Going(a, k, m, idx, src, out, j) && |out| == |a|
    ensures Sorted(out) && multiset(out) == multiset(a) <==> Lucky(a)
    ensures AllBelow(a, src) && forall s :: 0 <= s < |src| ==> out[s] == a[src[s]]
  {
    hide At, End, Sorted, Lucky, AllBelow;
    if Stale(a, m, idx, src, out, j) {
      NoMaxBefore(a, src, out);
      Verdict(a, m, idx, src, out, j);
    } else {
      Exhausted(a, k, m, idx, src, out, j);
    }
  }

  lemma NoMaxBefore(a: seq<int>, src: seq<nat>, out: seq<int>)
    requires AllBelow(a, src) && |src| <= |out| && forall s :: 0 <= s < |src| ==> out[s] == a[src[s]]
    ensures LONG_MAX !in out[..|src|]
  {
    assert forall s :: 0 <= s < |src| ==> out[..|src|][s] == out[s];
  }

  lemma Exhausted(a: seq<int>, k: nat, m: nat, idx: seq<int>, src: seq<nat>, out: seq<int>, j: int)
    requires SortedRuns(a, k, m) && Merging(a, k, m, idx, src, out, j) && |out| == |a|
    requires forall x :: 0 <= x < |a| ==> a[x] <= LONG_MAX
    ensures AllBelow(a, src) && Sorted(out) && multiset(out) == multiset(a) && Lucky(a)
  {
    CountFull(idx, k, m, k);
    assert !SomeBelow(a, idx, m);
    EndOfMerging(a, k, m, idx, src, out, j);
    assert LONG_MAX !in out;
    assert multiset(out)[LONG_MAX := 0] == multiset(out);
    SortedOut(a, src, out);
  }

  lemma Starts(a: seq<int>, idx: seq<int>, k: nat, m: nat)
    requires |a| == At(k, m) && |idx| == k && forall x :: 0 <= x < k ==> idx[x] == At(x, m)
    ensures Going(a, k, m, idx, [], [], -1)
  {
    StartsPlaced(a, idx, k, m);
  }

  /** merge: the output is a sorted permutation exactly for lucky input; the numbers
      below LONG_MAX always come out in order, equal ones in the order of their runs.
      Where the source would use minidx before it is set, or read behind nums, ok is
      false. */
  method Merge(nums: array<int>, snums: array<int>, k: nat, m: nat) returns (ok: bool, ghost src: seq<nat>)
    requires SortedRuns(nums[..], k, m) && snums.Length == nums.Length && snums != nums
    requires forall x :: 0 <= x < nums.Length ==> nums[x] <= LONG_MAX
    modifies snums
    ensures ok && Sorted(snums[..]) && multiset(snums[..]) == multiset(nums[..]) <==> Lucky(nums[..])
    ensures ok ==> AllBelow(nums[..], src) && forall s :: 0 <= s < |src| ==> snums[s] == nums[src[s]]
  {
    var idx := new int[k];
    var i := 0;
    while i < k
      invariant 0 <= i <= k && forall x :: 0 <= x < i ==> idx[x] == At(x, m)
      modifies idx
    {
      idx[i] := i * m;
      i := i + 1;
    }
    Starts(nums[..], idx[..], k, m);
    ok, src := MergeFrom(nums, snums, idx, m);
  }

  method MergeFrom(nums: array<int>, snums: array<int>, idx: array<int>, m: nat) returns (ok: bool, ghost src: seq<nat>)
    requires SortedRuns(nums[..], idx.Length, m) && (forall x :: 0 <= x < nums.Length ==> nums[x] <= LONG_MAX)
    requires snums.Length == nums.Length && snums != nums && idx != nums && idx != snums
    requires Going(nums[..], idx.Length, m, idx[..], [], [], -1)
    modifies snums, idx
    ensures ok && Sorted(snums[..]) && multiset(snums[..]) == multiset(nums[..]) <==> Lucky(nums[..])
    ensures ok ==> AllBelow(nums[..], src) && forall s :: 0 <= s < |src| ==> snums[s] == nums[src[s]]
  {
    hide At, End, SortedRuns, Merging, Stale, IsNext, SomeBelow, Lucky, Sorted;
    ghost var a := nums[..];
    src := [];
    var sidx, minidx := 0, -1;
    while sidx < nums.Length
      invariant 0 <= sidx <= nums.Length && Going(a, idx.Length, m, idx[..], src, snums[..sidx], minidx)
    {
      ghost var u, out := idx[..], snums[..sidx];
      var j := Least(nums, idx, m, minidx);
      src := Turn(a, idx.Length, m, u, src, out, minidx, j);
      minidx := j;
      if minidx < 0 || idx[minidx] >= nums.Length {
        return false, src;
      }
      snums[sidx] := nums[idx[minidx]];
      idx[minidx] := idx[minidx] + 1;
      assert snums[..sidx + 1] == out + [a[u[minidx]]];
      sidx := sidx + 1;
    }
    Done(a, idx.Length, m, idx[..], src, snums[..sidx], minidx);
    assert snums[..sidx] == snums[..];
    return true, src;
  }

  /** Two runs, of which the first has the largest of all numbers: not lucky. */
  lemma Stray()
    ensures var a := [1, LONG_MAX, 2, 3]; SortedRuns(a, 2, 2) && !Lucky(a)
  {
    var a := [1, LONG_MAX, 2, 3];
    assert SortedRun(a, 0, 2) && SortedRun(a, 2, 4);
    assert multiset(a) == multiset{1, LONG_MAX, 2, 3};
    assert !Before(a, 3, 0);
    forall p: nat
      ensures !(LastBelow(a, p) && FollowedBy(a, p, 1))
    {
      assert FollowedBy(a, p, 1) ==> a[p + 1] == LONG_MAX;
    }
  }
}
