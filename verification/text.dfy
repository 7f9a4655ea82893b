/** String and list helpers: first occurrence of a character, splitting at
    it, decimal rendering of counters, and Python's list-comprehension filter. */
module Text {
  import opened Wrappers

  /** Index of the first occurrence of `c` in `s`. */
  function Find(s: string, c: char): (r: Option<nat>)
    ensures r.Some? ==> r.value < |s| && s[r.value] == c && c !in s[..r.value]
    ensures r.None? ==> c !in s
  {
    if |s| == 0 then None
    else if s[0] == c then Some(0)
    else
      match Find(s[1..], c)
      case None => None
      case Some(k) =>
        assert s[..k + 1] == [s[0]] + s[1..][..k];
        Some(k + 1)
  }

  /** The regular-expression step `([^c]+)c`: the non-empty text before the
      first `c`, and the text after it. */
  function SplitAt(s: string, c: char): (r: Option<(string, string)>)
    ensures r.Some? ==> s == r.value.0 + ([c] + r.value.1)
    ensures r.Some? ==> |r.value.0| > 0 && c !in r.value.0
    ensures r.None? <==> (c !in s || s[0] == c)
  {
    match Find(s, c)
    case None => None
    case Some(k) =>
      if k == 0 then None
      else
        assert s == s[..k] + ([c] + s[k + 1..]);
        Some((s[..k], s[k + 1..]))
  }

  /** SplitAt is determined by the pieces: a non-empty `c`-free head. */
  lemma {:induction false} SplitAtOf(a: string, c: char, b: string)
    requires |a| > 0 && c !in a
    ensures SplitAt(a + ([c] + b), c) == Some((a, b))
  {
    var s := a + ([c] + b);
    FindOf(a, c, b);
    assert s[..|a|] == a;
    assert s[|a| + 1..] == b;
  }

  lemma {:induction false} FindOf(a: string, c: char, b: string)
    requires c !in a
    ensures Find(a + ([c] + b), c) == Some(|a|)
    decreases |a|
  {
    var s := a + ([c] + b);
    if |a| == 0 {
      assert s[0] == c;
    } else {
      assert s[0] == a[0];
      assert s[1..] == a[1..] + ([c] + b);
      FindOf(a[1..], c, b);
    }
  }

  /** Index of the last occurrence of `c` in `s`. */
  function FindLast(s: string, c: char): (r: Option<nat>)
    ensures r.Some? ==> r.value < |s| && s[r.value] == c && c !in s[r.value + 1..]
    ensures r.None? ==> c !in s
  {
    if |s| == 0 then None
    else if s[|s| - 1] == c then Some(|s| - 1)
    else
      var r := FindLast(s[..|s| - 1], c);
      assert r.Some? ==> s[r.value + 1..] == s[..|s| - 1][r.value + 1..] + [s[|s| - 1]];
      r
  }

  /** The last `c` of `a + [c] + d`, when `d` holds none, follows `a`. */
  lemma {:induction false} FindLastOf(a: string, c: char, d: string)
    requires c !in d
    ensures FindLast(a + ([c] + d), c) == Some(|a|)
    decreases |d|
  {
    var s := a + ([c] + d);
    if |d| == 0 {
      assert s[|s| - 1] == c;
    } else {
      assert s[|s| - 1] == d[|d| - 1];
      assert s[..|s| - 1] == a + ([c] + d[..|d| - 1]);
      FindLastOf(a, c, d[..|d| - 1]);
    }
  }

  predicate IsDigit(c: char) {
    '0' <= c <= '9'
  }

  function DigitChar(d: nat): (c: char)
    requires d < 10
    ensures IsDigit(c)
  {
    (48 + d) as char
  }

  /** Python's `str(n)` for a natural number. */
  function NatToString(n: nat): (r: string)
    ensures |r| > 0
    decreases n
  {
    if n < 10 then [DigitChar(n)]
    else NatToString(n / 10) + [DigitChar(n % 10)]
  }

  /** The text of a counter is all digits. */
  lemma {:induction false} NatToStringDigits(n: nat)
    ensures forall i :: 0 <= i < |NatToString(n)| ==> IsDigit(NatToString(n)[i])
    decreases n
  {
    if n >= 10 {
      NatToStringDigits(n / 10);
    }
  }

  lemma {:induction false} DigitCharInjective(a: nat, b: nat)
    requires a < 10 && b < 10
    requires DigitChar(a) == DigitChar(b)
    ensures a == b
  {
  }

  /** Distinct counters render as distinct texts. */
  lemma {:induction false} NatToStringInjective(m: nat, n: nat)
    requires NatToString(m) == NatToString(n)
    ensures m == n
    decreases m
  {
    var sm, sn := NatToString(m), NatToString(n);
    NatToStringDigits(m);
    NatToStringDigits(n);
    if m < 10 && n < 10 {
      DigitCharInjective(m, n);
    } else if m < 10 || n < 10 {
      // one text has a single digit, the other at least two
      assert false;
    } else {
      assert sm[..|sm| - 1] == NatToString(m / 10);
      assert sn[..|sn| - 1] == NatToString(n / 10);
      NatToStringInjective(m / 10, n / 10);
      DigitCharInjective(m % 10, n % 10);
    }
  }

  /** Python's `[x for x in s if p(x)]`. */
  function Filter<T(!new)>(s: seq<T>, p: T -> bool): (r: seq<T>)
    ensures |r| <= |s|
    ensures forall x :: x in r <==> x in s && p(x)
    decreases |s|
  {
    if |s| == 0 then []
    else if p(s[0]) then [s[0]] + Filter(s[1..], p)
    else Filter(s[1..], p)
  }

  /** Every element kept passes the test. */
  lemma FilterHolds<T(!new)>(s: seq<T>, p: T -> bool)
    ensures forall i :: 0 <= i < |Filter(s, p)| ==> p(Filter(s, p)[i])
  {
    forall i | 0 <= i < |Filter(s, p)| ensures p(Filter(s, p)[i]) {
      assert Filter(s, p)[i] in Filter(s, p);
    }
  }

  /** The filter drops something exactly when some element fails the test. */
  lemma {:induction false} FilterShrinks<T(!new)>(s: seq<T>, p: T -> bool)
    ensures |Filter(s, p)| < |s| <==> exists x :: x in s && !p(x)
    decreases |s|
  {
    if |s| > 0 {
      FilterShrinks(s[1..], p);
      if !p(s[0]) {
        assert s[0] in s;
      } else {
        assert forall x :: x in s ==> x == s[0] || x in s[1..];
      }
    }
  }

  lemma {:induction false} FilterAppend<T(!new)>(a: seq<T>, b: seq<T>, p: T -> bool)
    ensures Filter(a + b, p) == Filter(a, p) + Filter(b, p)
    decreases |a|
  {
    if |a| == 0 {
      assert a + b == b;
    } else {
      assert (a + b)[1..] == a[1..] + b;
      FilterAppend(a[1..], b, p);
    }
  }
}
