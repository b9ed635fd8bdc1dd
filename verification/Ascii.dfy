/** Bytes, C strings and the decimal conversions of the C library that the
    on-disk formats rely on: `%lld`, `%*d` and `atol`. */
module Ascii {
  import opened Values

  const NUL: byte := 0
  const NEWLINE: byte := 10
  const SPACE: byte := 32
  const PLUS: byte := 43
  const MINUS: byte := 45
  const ZERO: byte := 48
  const SEP: byte := 58

  predicate IsDigit(c: byte) { ZERO <= c <= ZERO + 9 }

  /** `isspace` in the C locale. */
  predicate IsSpace(c: byte) { c == SPACE || 9 <= c <= 13 }

  /** A C string: no byte of it is the terminator. */
  ghost predicate CString(s: seq<byte>) { NUL !in s }

  function Blanks(n: nat): (s: seq<byte>)
    ensures |s| == n && forall i :: 0 <= i < n ==> s[i] == SPACE
  {
    seq(n, _ => SPACE)
  }

  // ---- Printing -----------------------------------------------------------

  /** `%lld` of a non-negative number. */
  function Digits(n: nat): (s: seq<byte>)
    ensures |s| >= 1 && forall i :: 0 <= i < |s| ==> IsDigit(s[i])
  {
    if n < 10 then [ZERO + n] else Digits(n / 10) + [ZERO + n % 10]
  }

  /** `%lld` of any number. */
  function Decimal(n: int): (s: seq<byte>)
    ensures |s| >= 1
  {
    if n < 0 then [MINUS] + Digits(-n) else Digits(n)
  }

  /** `%*lld` with field width w. */
  function Padded(n: int, w: nat): (s: seq<byte>)
    ensures |s| >= w && |s| >= 1
  {
    var d := Decimal(n);
    if |d| < w then Blanks(w - |d|) + d else d
  }

  function Pow10(k: nat): (p: nat)
    ensures p >= 1
  {
    if k == 0 then 1 else 10 * Pow10(k - 1)
  }

  lemma {:induction false} DigitsFit(n: nat, k: nat)
    requires k >= 1 && n < Pow10(k)
    ensures |Digits(n)| <= k
  {
    if n >= 10 {
      assert k != 1;
      DigitsFit(n / 10, k - 1);
    }
  }

  lemma PaddedFits(n: nat, w: nat)
    requires w >= 1 && n < Pow10(w)
    ensures |Padded(n, w)| == w
  {
    DigitsFit(n, w);
  }

  // ---- Parsing ------------------------------------------------------------

  function Value(ds: seq<byte>): (v: int)
    requires forall i :: 0 <= i < |ds| ==> IsDigit(ds[i])
    ensures v >= 0
  {
    if ds == [] then 0 else
      assert IsDigit(ds[|ds| - 1]);
      10 * Value(ds[..|ds| - 1]) + (ds[|ds| - 1] - ZERO)
  }

  function SkipSpaces(s: seq<byte>): seq<byte> {
    if s != [] && IsSpace(s[0]) then SkipSpaces(s[1..]) else s
  }

  function DigitPrefix(s: seq<byte>): (d: seq<byte>)
    ensures forall i :: 0 <= i < |d| ==> IsDigit(d[i])
  {
    if s != [] && IsDigit(s[0]) then [s[0]] + DigitPrefix(s[1..]) else []
  }

  /** `atol`: blanks, an optional sign, then the longest run of digits. */
  function Atol(s: seq<byte>): int {
    var t := SkipSpaces(s);
    if t != [] && t[0] == MINUS then -Value(DigitPrefix(t[1..]))
    else if t != [] && t[0] == PLUS then Value(DigitPrefix(t[1..]))
    else Value(DigitPrefix(t))
  }

  lemma {:induction false} ValueOfDigits(n: nat)
    ensures Value(Digits(n)) == n
  {
    if n >= 10 {
      ValueOfDigits(n / 10);
      assert Digits(n)[..|Digits(n)| - 1] == Digits(n / 10);
    } else {
      assert Digits(n)[..0] == [];
    }
  }

  lemma {:induction false} PrefixOfDigits(d: seq<byte>)
    requires forall i :: 0 <= i < |d| ==> IsDigit(d[i])
    ensures DigitPrefix(d) == d
  {
    if d != [] {
      PrefixOfDigits(d[1..]);
    }
  }

  lemma {:induction false} SkipBlanks(n: nat, s: seq<byte>)
    requires s == [] || !IsSpace(s[0])
    ensures SkipSpaces(Blanks(n) + s) == s
  {
    if n == 0 {
      assert Blanks(0) + s == s;
    } else {
      assert (Blanks(n) + s)[1..] == Blanks(n - 1) + s;
      SkipBlanks(n - 1, s);
    }
  }

  /** `atol` inverts the padded decimal conversion. */
  lemma AtolPadded(n: int, w: nat)
    ensures Atol(Padded(n, w)) == n
  {
    var d := Decimal(n);
    var m := if n < 0 then -n else n;
    assert !IsSpace(d[0]);
    ValueOfDigits(m);
    PrefixOfDigits(Digits(m));
    if |d| < w {
      SkipBlanks(w - |d|, d);
    }
    assert SkipSpaces(Padded(n, w)) == d;
    if n < 0 {
      assert d[1..] == Digits(m);
    }
  }

  // ---- C strings in a buffer ------------------------------------------------

  /** `strchr(s + from, c)` as an index into s, or -1; s ends at a null byte or
      at its length, whichever comes first. */
  function StrChr(s: seq<byte>, from: nat, c: byte): (k: int)
    requires from <= |s| && c != NUL
    ensures k == -1 || (from <= k < |s| && s[k] == c)
    decreases |s| - from
  {
    if from == |s| || s[from] == NUL then -1
    else if s[from] == c then from
    else StrChr(s, from + 1, c)
  }

  lemma {:induction false} StrChrAt(s: seq<byte>, from: nat, k: nat, c: byte)
    requires c != NUL && from <= k < |s| && s[k] == c
    requires forall i :: from <= i < k ==> s[i] != c && s[i] != NUL
    ensures StrChr(s, from, c) == k
    decreases k - from
  {
    if from < k {
      StrChrAt(s, from + 1, k, c);
    }
  }

  lemma {:induction false} StrChrNone(s: seq<byte>, from: nat, c: byte)
    requires c != NUL && from <= |s|
    requires forall i :: from <= i < |s| ==> s[i] != c
    ensures StrChr(s, from, c) == -1
    decreases |s| - from
  {
    if from < |s| {
      StrChrNone(s, from + 1, c);
    }
  }
}
