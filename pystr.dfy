/**
 * The Python string and list builtins the modelled code relies on, with Python's semantics:
 * `in`, `str.count`, `str.replace`, `str.split`, `str.join`, `str.strip`, `str.find` on one
 * character, slicing with negative and out-of-range bounds, and `str(n)` for naturals.
 */
module PyStr {

  function Min(a: int, b: int): int { if a <= b then a else b }

  /** Python's `p in s`. */
  predicate Contains(s: string, p: string)
    decreases |s|
  {
    p <= s || (|s| > 0 && Contains(s[1..], p))
  }

  lemma {:induction false} ContainsNeedsRoom(s: string, p: string)
    requires Contains(s, p)
    ensures |p| <= |s|
    decreases |s|
  {
    if !(p <= s) {
      ContainsNeedsRoom(s[1..], p);
    }
  }

  /** An occurrence at offset `k` makes `p in s` true. */
  lemma {:induction false} ContainsAt(s: string, p: string, k: nat)
    requires k + |p| <= |s| && s[k..k + |p|] == p
    ensures Contains(s, p)
    decreases k
  {
    if k > 0 {
      assert s[1..][k - 1..k - 1 + |p|] == s[k..k + |p|];
      ContainsAt(s[1..], p, k - 1);
    } else {
      assert s[..|p|] == p;
    }
  }

  /** `p in s` has an offset where `p` occurs. */
  lemma {:induction false} ContainsWitness(s: string, p: string) returns (k: nat)
    requires Contains(s, p)
    ensures k + |p| <= |s| && s[k..k + |p|] == p
    decreases |s|
  {
    if p <= s {
      k := 0;
    } else {
      var k' := ContainsWitness(s[1..], p);
      k := k' + 1;
      assert s[k..k + |p|] == s[1..][k'..k' + |p|];
    }
  }

  /** An occurrence inside a piece is an occurrence in any string the piece is embedded in. */
  lemma ContainsInfix(x: string, s: string, y: string, p: string)
    requires Contains(s, p)
    ensures Contains(x + s + y, p)
  {
    var k := ContainsWitness(s, p);
    var t := x + s + y;
    assert t[|x| + k..|x| + k + |p|] == s[k..k + |p|];
    ContainsAt(t, p, |x| + k);
  }

  /** `s.count(p)`: the non-overlapping occurrences of `p`, scanned from the left. */
  function Count(s: string, p: string): nat
    requires p != ""
    decreases |s|
  {
    if |s| < |p| then 0
    else if p <= s then 1 + Count(s[|p|..], p)
    else Count(s[1..], p)
  }

  /** `s.replace(p, r)`: every non-overlapping occurrence of `p`, scanned from the left, becomes `r`. */
  function ReplaceAll(s: string, p: string, r: string): string
    requires p != ""
    decreases |s|
  {
    if |s| < |p| then s
    else if p <= s then r + ReplaceAll(s[|p|..], p, r)
    else [s[0]] + ReplaceAll(s[1..], p, r)
  }

  /** `s.split(p)`: the pieces between the non-overlapping occurrences of `p`. */
  function Split(s: string, p: string): (parts: seq<string>)
    requires p != ""
    ensures |parts| >= 1
    decreases |s|
  {
    if |s| < |p| then [s]
    else if p <= s then [""] + Split(s[|p|..], p)
    else
      var t := Split(s[1..], p);
      [[s[0]] + t[0]] + t[1..]
  }

  /** `sep.join(parts)`. */
  function Join(parts: seq<string>, sep: string): string
  {
    if |parts| == 0 then ""
    else if |parts| == 1 then parts[0]
    else parts[0] + sep + Join(parts[1..], sep)
  }

  lemma JoinSnoc(parts: seq<string>, x: string)
    ensures Join(parts + [x], "") == Join(parts, "") + x
  {
    if |parts| > 1 {
      assert (parts + [x])[1..] == parts[1..] + [x];
      JoinSnoc(parts[1..], x);
    } else if |parts| == 1 {
      assert (parts + [x])[1..] == [x];
    }
  }

  /** `"".join` distributes over list concatenation. */
  lemma {:induction false} JoinAppend(a: seq<string>, b: seq<string>)
    ensures Join(a + b, "") == Join(a, "") + Join(b, "")
    decreases |b|
  {
    if |b| == 0 {
      assert a + b == a;
    } else {
      var b', x := b[..|b| - 1], b[|b| - 1];
      assert b == b' + [x];
      assert a + b == (a + b') + [x];
      JoinAppend(a, b');
      JoinSnoc(a + b', x);
      JoinSnoc(b', x);
    }
  }

  /** Extending the first piece by a character extends the joined string by it. */
  lemma JoinPrependChar(c: char, t: seq<string>, sep: string)
    requires |t| >= 1
    ensures Join([[c] + t[0]] + t[1..], sep) == [c] + Join(t, sep)
  {
    var parts := [[c] + t[0]] + t[1..];
    if |t| > 1 {
      assert parts[1..] == t[1..];
      calc {
        Join(parts, sep);
        ([c] + t[0]) + sep + Join(t[1..], sep);
        [c] + (t[0] + sep + Join(t[1..], sep));
      }
    }
  }

  /** Joining the pieces of a split with the separator gives back the string. */
  lemma {:induction false} JoinSplit(s: string, p: string)
    requires p != ""
    ensures Join(Split(s, p), p) == s
    decreases |s|
  {
    if |s| < |p| {
    } else if p <= s {
      var t := Split(s[|p|..], p);
      JoinSplit(s[|p|..], p);
      assert ([""] + t)[1..] == t;
      assert s == p + s[|p|..];
    } else {
      var t := Split(s[1..], p);
      JoinSplit(s[1..], p);
      JoinPrependChar(s[0], t, p);
      assert s == [s[0]] + s[1..];
    }
  }

  /** A split yields one piece more than there are occurrences. */
  lemma {:induction false} SplitCount(s: string, p: string)
    requires p != ""
    ensures |Split(s, p)| == Count(s, p) + 1
    decreases |s|
  {
    if |s| < |p| {
    } else if p <= s {
      SplitCount(s[|p|..], p);
    } else {
      SplitCount(s[1..], p);
    }
  }

  /** `s.replace(p, r) == r.join(s.split(p))`. */
  lemma {:induction false} ReplaceIsJoinOfSplit(s: string, p: string, r: string)
    requires p != ""
    ensures ReplaceAll(s, p, r) == Join(Split(s, p), r)
    decreases |s|
  {
    if |s| < |p| {
    } else if p <= s {
      var t := Split(s[|p|..], p);
      ReplaceIsJoinOfSplit(s[|p|..], p, r);
      assert ([""] + t)[1..] == t;
    } else {
      var t := Split(s[1..], p);
      ReplaceIsJoinOfSplit(s[1..], p, r);
      JoinPrependChar(s[0], t, r);
    }
  }

  lemma {:induction false} SplitFirstIsPrefix(s: string, p: string)
    requires p != ""
    ensures Split(s, p)[0] <= s
    decreases |s|
  {
    if |s| >= |p| && !(p <= s) {
      SplitFirstIsPrefix(s[1..], p);
      var t0 := Split(s[1..], p)[0];
      assert [s[0]] + t0 == s[..|t0| + 1];
    }
  }

  /** No piece of a split contains the separator: every occurrence was cut out. */
  lemma {:induction false} SplitPiecesAreFree(s: string, p: string)
    requires p != ""
    ensures forall i :: 0 <= i < |Split(s, p)| ==> !Contains(Split(s, p)[i], p)
    decreases |s|
  {
    if |s| < |p| {
      if Contains(s, p) { ContainsNeedsRoom(s, p); }
    } else if p <= s {
      SplitPiecesAreFree(s[|p|..], p);
      var t := Split(s[|p|..], p);
      assert Split(s, p) == [""] + t;
      if Contains("", p) { ContainsNeedsRoom("", p); }
    } else {
      SplitPiecesAreFree(s[1..], p);
      var t := Split(s[1..], p);
      var first := [s[0]] + t[0];
      assert Split(s, p) == [first] + t[1..];
      SplitFirstIsPrefix(s[1..], p);
      assert first == s[..|first|];
      assert first[1..] == t[0];
    }
  }

  /** A pattern that does not occur leaves the string unchanged under replacement. */
  lemma {:induction false} ReplaceAbsent(s: string, p: string, r: string)
    requires p != "" && !Contains(s, p)
    ensures ReplaceAll(s, p, r) == s
    decreases |s|
  {
    if |s| >= |p| {
      ReplaceAbsent(s[1..], p, r);
      assert s == [s[0]] + s[1..];
    }
  }

  /** `s.count(p) > 0` exactly when `p in s`. */
  lemma {:induction false} CountPositiveIffContains(s: string, p: string)
    requires p != ""
    ensures Count(s, p) > 0 <==> Contains(s, p)
    decreases |s|
  {
    if |s| < |p| {
      if Contains(s, p) { ContainsNeedsRoom(s, p); }
    } else if !(p <= s) {
      CountPositiveIffContains(s[1..], p);
    }
  }

  /** The characters `str.strip()` removes: those for which `str.isspace()` holds. */
  predicate IsSpace(c: char)
  {
    var n := c as int;
    n == 32 || 9 <= n <= 13 || 28 <= n <= 31 || n == 0x85 || n == 0xA0 || n == 0x1680
    || 0x2000 <= n <= 0x200A || n == 0x2028 || n == 0x2029 || n == 0x202F || n == 0x205F
    || n == 0x3000
  }

  /** `s.lstrip()`. */
  function LStrip(s: string): (r: string)
    ensures |r| <= |s| && r == s[|s| - |r|..]
    ensures forall k :: 0 <= k < |s| - |r| ==> IsSpace(s[k])
    ensures r != [] ==> !IsSpace(r[0])
    decreases |s|
  {
    if s != [] && IsSpace(s[0]) then LStrip(s[1..]) else s
  }

  /** `s.rstrip()`. */
  function RStrip(s: string): (r: string)
    ensures |r| <= |s| && r == s[..|r|]
    ensures forall k :: |r| <= k < |s| ==> IsSpace(s[k])
    ensures r != [] ==> !IsSpace(r[|r| - 1])
    decreases |s|
  {
    if s != [] && IsSpace(s[|s| - 1]) then RStrip(s[..|s| - 1]) else s
  }

  /** `s.strip()`. */
  function Strip(s: string): string
  {
    RStrip(LStrip(s))
  }

  /** `s.find(c)` for a one-character needle: the first index of `c`, or -1. */
  function FindChar(s: string, c: char): (i: int)
    ensures -1 <= i < |s|
    ensures i == -1 <==> c !in s
    ensures 0 <= i ==> s[i] == c && c !in s[..i]
    decreases |s|
  {
    if |s| == 0 then -1
    else if s[0] == c then 0
    else
      var j := FindChar(s[1..], c);
      assert s[1..][..j + 1] == s[1..j + 2];
      if j == -1 then -1 else j + 1
  }

  /** Where a Python slice bound `k` lands in a sequence of length `n`. */
  function SliceBound(k: int, n: nat): (b: nat)
    ensures b <= n
  {
    if k < 0 then (if n + k < 0 then 0 else n + k)
    else if k > n then n
    else k
  }

  /** `xs[k:]`. */
  function From<T>(xs: seq<T>, k: int): seq<T>
  {
    xs[SliceBound(k, |xs|)..]
  }

  /** `xs[:k]`. */
  function Upto<T>(xs: seq<T>, k: int): seq<T>
  {
    xs[..SliceBound(k, |xs|)]
  }

  /** `xs[-m:]`: the last `m` elements; since `-0 == 0`, `m == 0` keeps everything. */
  function KeepLast<T>(xs: seq<T>, m: int): (r: seq<T>)
    ensures 0 < m ==> |r| == Min(m, |xs|) && r == xs[|xs| - |r|..]
    ensures m == 0 ==> r == xs
    ensures m < 0 ==> r == xs[Min(-m, |xs|)..]
  {
    From(xs, -m)
  }

  /** `xs[:m]`: the first `m` elements; a negative `m` drops `-m` elements from the end. */
  function KeepFirst<T>(xs: seq<T>, m: int): (r: seq<T>)
    ensures 0 <= m ==> r == xs[..Min(m, |xs|)]
    ensures m < 0 ==> |r| == (if |xs| + m < 0 then 0 else |xs| + m) && r == xs[..|r|]
  {
    Upto(xs, m)
  }

  function DigitChar(d: nat): (c: char)
    requires d < 10
    ensures '0' <= c <= '9' && c as int - '0' as int == d
  {
    (d + '0' as int) as char
  }

  predicate IsDigits(s: string)
  {
    forall i :: 0 <= i < |s| ==> '0' <= s[i] <= '9'
  }

  /** `str(n)` for a natural number. */
  function NatToDecimal(n: nat): (s: string)
    ensures |s| >= 1 && IsDigits(s)
    ensures s[0] == '0' ==> n == 0
    decreases n
  {
    if n < 10 then [DigitChar(n)] else NatToDecimal(n / 10) + [DigitChar(n % 10)]
  }

  /** `int(s)` for a string of decimal digits. */
  function DecimalValue(s: string): nat
    requires IsDigits(s)
  {
    if s == [] then 0 else DecimalValue(s[..|s| - 1]) * 10 + (s[|s| - 1] as int - '0' as int)
  }

  /** `int(str(n)) == n`. */
  lemma {:induction false} DecimalRoundTrip(n: nat)
    ensures DecimalValue(NatToDecimal(n)) == n
    decreases n
  {
    if n >= 10 {
      var s := NatToDecimal(n);
      assert s[..|s| - 1] == NatToDecimal(n / 10);
      DecimalRoundTrip(n / 10);
    }
  }

  /** `str` is injective on naturals. */
  lemma DecimalInjective(m: nat, n: nat)
    requires NatToDecimal(m) == NatToDecimal(n)
    ensures m == n
  {
    DecimalRoundTrip(m);
    DecimalRoundTrip(n);
  }
}
