/**
 * The string operations the two core files rely on: ASCII case mapping
 * (`str.lower`, `str.upper`), substring membership (`in`), decimal
 * rendering of naturals (`str(n)`) and left zero padding (`str.zfill`).
 */
module Strings {

  function LowerChar(c: char): char
  {
    if 'A' <= c <= 'Z' then (c as int + 32) as char else c
  }

  function UpperChar(c: char): char
  {
    if 'a' <= c <= 'z' then (c as int - 32) as char else c
  }

  /** `s.lower()`, for the ASCII letters. */
  function Lower(s: string): (r: string)
    ensures |r| == |s|
    ensures forall i :: 0 <= i < |s| ==> r[i] == LowerChar(s[i])
  {
    seq(|s|, i requires 0 <= i < |s| => LowerChar(s[i]))
  }

  /** `s.upper()`, for the ASCII letters. */
  function Upper(s: string): (r: string)
    ensures |r| == |s|
    ensures forall i :: 0 <= i < |s| ==> r[i] == UpperChar(s[i])
  {
    seq(|s|, i requires 0 <= i < |s| => UpperChar(s[i]))
  }

  /** Lower-casing forgets whatever upper-casing did, and the other way round. */
  lemma CaseMapsAbsorb(s: string)
    ensures Lower(Upper(s)) == Lower(s)
    ensures Upper(Lower(s)) == Upper(s)
    ensures Upper(Upper(s)) == Upper(s)
  {
  }

  /** Lower-casing changes exactly the capitals: a string without one is its own lower-cased form, and no other is. */
  lemma LowerFixesIffNoCapital(s: string)
    ensures Lower(s) == s <==> forall i :: 0 <= i < |s| ==> !('A' <= s[i] <= 'Z')
  {
    if Lower(s) == s {
      forall i | 0 <= i < |s| ensures !('A' <= s[i] <= 'Z') {
        assert Lower(s)[i] == s[i];
      }
    }
  }

  /** Two strings have the same upper-cased form exactly when they have the same lower-cased form. */
  lemma SameUpperIffSameLower(a: string, b: string)
    ensures Upper(a) == Upper(b) <==> Lower(a) == Lower(b)
  {
    if Upper(a) == Upper(b) {
      CaseMapsAbsorb(a);
      CaseMapsAbsorb(b);
      assert Lower(a) == Lower(Upper(a)) == Lower(Upper(b)) == Lower(b);
    }
    if Lower(a) == Lower(b) {
      CaseMapsAbsorb(a);
      CaseMapsAbsorb(b);
      assert Upper(a) == Upper(Lower(a)) == Upper(Lower(b)) == Upper(b);
    }
  }

  predicate IsPrefix(p: string, s: string)
  {
    |p| <= |s| && s[..|p|] == p
  }

  /** A string starts with whatever it was built from, followed by the rest. */
  lemma PrefixOfAppend(p: string, t: string)
    ensures IsPrefix(p, p + t) && (p + t)[|p|..] == t
  {
    assert (p + t)[..|p|] == p;
  }

  /** Python's `needle in hay` on strings: `needle` occurs as a contiguous block of `hay`. */
  predicate Contains(needle: string, hay: string)
    decreases |hay|
  {
    IsPrefix(needle, hay) || (|hay| > 0 && Contains(needle, hay[1..]))
  }

  /** `Contains` holds exactly when `needle` sits at some offset of `hay`. */
  lemma {:induction false} ContainsAt(needle: string, hay: string)
    ensures Contains(needle, hay) <==>
              exists k :: 0 <= k <= |hay| - |needle| && IsPrefix(needle, hay[k..])
    decreases |hay|
  {
    if IsPrefix(needle, hay) {
      assert hay[0..] == hay;
    } else if |hay| > 0 {
      ContainsAt(needle, hay[1..]);
      if Contains(needle, hay[1..]) {
        var k :| 0 <= k <= |hay[1..]| - |needle| && IsPrefix(needle, hay[1..][k..]);
        assert hay[1..][k..] == hay[k + 1..];
      }
      if exists k :: 0 <= k <= |hay| - |needle| && IsPrefix(needle, hay[k..]) {
        var k :| 0 <= k <= |hay| - |needle| && IsPrefix(needle, hay[k..]);
        assert k != 0 by { assert hay[0..] == hay; }
        assert hay[1..][k - 1..] == hay[k..];
      }
    }
  }

  /** The empty string is contained in every string. */
  lemma EmptyContained(hay: string)
    ensures Contains("", hay)
  {
  }

  predicate IsDigit(c: char)
  {
    '0' <= c <= '9'
  }

  predicate AllDigits(s: string)
  {
    forall i :: 0 <= i < |s| ==> IsDigit(s[i])
  }

  function DigitChar(d: nat): (c: char)
    requires d < 10
    ensures IsDigit(c)
  {
    ('0' as int + d) as char
  }

  function DigitOf(c: char): nat
    requires IsDigit(c)
  {
    c as int - '0' as int
  }

  function Pow10(k: nat): (r: nat)
    ensures r >= 1
  {
    if k == 0 then 1 else 10 * Pow10(k - 1)
  }

  /** The number a string of decimal digits denotes (leading zeros allowed). */
  function DigitsValue(s: string): nat
    requires AllDigits(s)
  {
    if s == [] then 0 else 10 * DigitsValue(s[..|s| - 1]) + DigitOf(s[|s| - 1])
  }

  /** `str(n)` for a natural `n`: its decimal digits, no leading zero. */
  function Decimal(n: nat): (r: string)
    ensures AllDigits(r) && |r| >= 1
    ensures |r| > 1 ==> r[0] != '0'
  {
    if n < 10 then [DigitChar(n)] else Decimal(n / 10) + [DigitChar(n % 10)]
  }

  function Zeros(k: nat): (r: string)
    ensures |r| == k && AllDigits(r)
    ensures forall i :: 0 <= i < k ==> r[i] == '0'
  {
    if k == 0 then [] else Zeros(k - 1) + ['0']
  }

  /** `s.zfill(w)` for a string without sign: pads `s` on the left with '0' up to width `w`. */
  function ZFill(s: string, w: nat): (r: string)
    ensures |r| == if |s| >= w then |s| else w
    ensures r[|r| - |s|..] == s
  {
    if |s| >= w then s else Zeros(w - |s|) + s
  }

  /** Reading digits back: the value of a concatenation is positional. */
  lemma {:induction false} DigitsValueAppend(a: string, b: string)
    requires AllDigits(a) && AllDigits(b)
    ensures AllDigits(a + b)
    ensures DigitsValue(a + b) == DigitsValue(a) * Pow10(|b|) + DigitsValue(b)
  {
    if b == [] {
      assert a + b == a;
    } else {
      var b' := b[..|b| - 1];
      var d := DigitOf(b[|b| - 1]);
      assert (a + b)[..|a + b| - 1] == a + b';
      assert (a + b)[|a + b| - 1] == b[|b| - 1];
      DigitsValueAppend(a, b');
      var va, vb, p := DigitsValue(a), DigitsValue(b'), Pow10(|b'|);
      assert DigitsValue(a + b) == 10 * (va * p + vb) + d;
      assert Pow10(|b|) == 10 * p;
      assert DigitsValue(b) == 10 * vb + d;
      assert 10 * (va * p) == va * (10 * p) by {
        MulAssociates(va, p);
      }
    }
  }

  lemma MulAssociates(x: nat, y: nat)
    ensures 10 * (x * y) == x * (10 * y)
  {
  }

  lemma {:induction false} ZerosValue(k: nat)
    ensures DigitsValue(Zeros(k)) == 0
  {
    if k > 0 {
      assert Zeros(k)[..k - 1] == Zeros(k - 1);
      ZerosValue(k - 1);
    }
  }

  /** Reading `str(n)` back as digits gives `n`. */
  lemma {:induction false} DecimalValue(n: nat)
    ensures DigitsValue(Decimal(n)) == n
  {
    if n >= 10 {
      var r := Decimal(n);
      assert r[..|r| - 1] == Decimal(n / 10);
      DecimalValue(n / 10);
    }
  }

  /** `str(n)` has at most `k` digits when `n < 10^k`. */
  lemma {:induction false} DecimalLength(n: nat, k: nat)
    requires k >= 1 && n < Pow10(k)
    ensures |Decimal(n)| <= k
  {
    if n >= 10 {
      assert k >= 2;
      assert n / 10 < Pow10(k - 1);
      DecimalLength(n / 10, k - 1);
    }
  }

  /** Zero padding does not change the value a digit string denotes. */
  lemma ZFillValue(s: string, w: nat)
    requires AllDigits(s)
    ensures AllDigits(ZFill(s, w))
    ensures DigitsValue(ZFill(s, w)) == DigitsValue(s)
  {
    if |s| < w {
      var z := Zeros(w - |s|);
      assert ZFill(s, w) == z + s;
      ZerosValue(w - |s|);
      DigitsValueAppend(z, s);
    }
  }

  /** `str(n).zfill(w)` is exactly `w` digits long and reads back as `n`, for `n < 10^w`. */
  lemma FixedWidthRoundTrip(n: nat, w: nat)
    requires w >= 1 && n < Pow10(w)
    ensures AllDigits(ZFill(Decimal(n), w))
    ensures |ZFill(Decimal(n), w)| == w
    ensures DigitsValue(ZFill(Decimal(n), w)) == n
  {
    DecimalLength(n, w);
    DecimalValue(n);
    ZFillValue(Decimal(n), w);
  }

  /** `", ".join(items)`. */
  function Join(sep: string, items: seq<string>): (r: string)
    ensures |items| == 1 ==> r == items[0]
  {
    if |items| == 0 then "" else if |items| == 1 then items[0]
    else Join(sep, items[..|items| - 1]) + sep + items[|items| - 1]
  }

  /** One more character read by `SplitOn`: a separator opens a new field, anything else extends the last one. */
  function SplitStep(fields: seq<string>, x: char, sep: char): (r: seq<string>)
    requires |fields| >= 1
    ensures |r| >= 1
  {
    if x == sep then fields + [""] else fields[..|fields| - 1] + [fields[|fields| - 1] + [x]]
  }

  /** `s.split(sep)` for a one-character separator. */
  function SplitOn(s: string, sep: char): (r: seq<string>)
    ensures |r| >= 1
  {
    if s == [] then [""] else SplitStep(SplitOn(s[..|s| - 1], sep), s[|s| - 1], sep)
  }

  lemma SplitOnSnoc(s: string, x: char, sep: char)
    ensures SplitOn(s + [x], sep) == SplitStep(SplitOn(s, sep), x, sep)
  {
    assert (s + [x])[..|s|] == s;
  }

  lemma SplitStepAppend(front: seq<string>, back: seq<string>, x: char, sep: char)
    requires |back| >= 1
    ensures SplitStep(front + back, x, sep) == front + SplitStep(back, x, sep)
  {
    var p := front + back;
    if x != sep {
      assert p[..|p| - 1] == front + back[..|back| - 1];
    }
  }

  /** A string free of the separator is a single field. */
  lemma {:induction false} SplitOnFree(s: string, sep: char)
    requires sep !in s
    ensures SplitOn(s, sep) == [s]
  {
    if s != [] {
      SplitOnFree(s[..|s| - 1], sep);
      assert s[..|s| - 1] + [s[|s| - 1]] == s;
    }
  }

  /** Splitting `a + sep + b` gives the fields of `a` followed by the fields of `b`. */
  lemma {:induction false} SplitOnAppend(a: string, b: string, sep: char)
    ensures SplitOn(a + [sep] + b, sep) == SplitOn(a, sep) + SplitOn(b, sep)
  {
    if b == [] {
      assert a + [sep] + b == a + [sep];
      SplitOnSnoc(a, sep, sep);
    } else {
      var b', x := b[..|b| - 1], b[|b| - 1];
      assert a + [sep] + b == (a + [sep] + b') + [x];
      SplitOnSnoc(a + [sep] + b', x, sep);
      SplitOnAppend(a, b', sep);
      SplitStepAppend(SplitOn(a, sep), SplitOn(b', sep), x, sep);
      assert b == b' + [x];
      SplitOnSnoc(b', x, sep);
    }
  }
}
