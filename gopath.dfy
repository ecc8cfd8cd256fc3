/**
 * The few Go standard-library helpers whose results the export task turns
 * into names: path/filepath.Base and Join on a host whose separator is '/',
 * and strconv.Itoa. On such a host filepath.ToSlash is the identity.
 */
module GoPath {

  const Separator: char := '/'

  /** `s` without its trailing separators. */
  function TrimTrailingSeparators(s: string): (r: string)
    ensures |r| <= |s| && r == s[..|r|]
    ensures r == [] || r[|r| - 1] != Separator
    ensures forall i :: |r| <= i < |s| ==> s[i] == Separator
    decreases |s|
  {
    if s != [] && s[|s| - 1] == Separator then TrimTrailingSeparators(s[..|s| - 1]) else s
  }

  /** The part of `s` after its last separator (all of `s` when it has none). */
  function LastElement(s: string): (r: string)
    ensures |r| <= |s| && r == s[|s| - |r|..]
    ensures Separator !in r
    ensures |r| < |s| ==> s[|s| - |r| - 1] == Separator
    decreases |s|
  {
    if s == [] then []
    else if s[|s| - 1] == Separator then []
    else
      var n := |s|;
      var init := LastElement(s[..n - 1]);
      assert init + [s[n - 1]] == s[n - 1 - |init|..] by {
        assert s[..n - 1][n - 1 - |init|..] == s[n - 1 - |init|..n - 1];
      }
      assert |init| < n - 1 ==> s[n - 1 - |init| - 1] == Separator by {
        if |init| < n - 1 {
          assert s[..n - 1][n - 1 - |init| - 1] == s[n - 1 - |init| - 1];
        }
      }
      init + [s[n - 1]]
  }

  /**
   * filepath.Base: the last element of `path`, after trailing separators are
   * dropped; "." for the empty path and "/" for a path of separators only.
   */
  function Base(path: string): (r: string)
    ensures r != []
    ensures Separator in r ==> r == [Separator]
  {
    if path == [] then "."
    else
      var e := LastElement(TrimTrailingSeparators(path));
      if e == [] then [Separator] else e
  }

  /**
   * filepath.Join of two elements: the non-empty ones joined by a separator.
   * Join also cleans the result lexically; that step is not modelled here.
   */
  function Join(dir: string, name: string): string
  {
    if dir == [] then name
    else if name == [] then dir
    else dir + [Separator] + name
  }

  /** The base name of a path that ends in a plain element is that element. */
  lemma {:induction false} BaseOfElement(dir: string, name: string)
    requires name != [] && Separator !in name
    ensures Base(dir + [Separator] + name) == name
    ensures Base(name) == name
  {
    var p := dir + [Separator] + name;
    assert TrimTrailingSeparators(p) == p by {
      assert p[|p| - 1] == name[|name| - 1];
    }
    LastElementAfterSeparator(dir + [Separator], name);
    LastElementAfterSeparator([], name);
    assert [] + name == name;
  }

  /** A separator-free suffix of `s` cannot reach back over the separator at `j`. */
  lemma SeparatorBoundsSuffix(s: string, r: string, j: int)
    requires |r| <= |s| && r == s[|s| - |r|..] && Separator !in r
    requires 0 <= j < |s| && s[j] == Separator
    ensures |r| < |s| - j
  {
  }

  /**
   * The element after the last separator is `name` when `name` holds no
   * separator and follows one (or starts the path). Follows from the
   * contract of LastElement alone: a longer result would take in the
   * separator, a shorter one would need a separator inside `name`.
   */
  lemma LastElementAfterSeparator(prefix: string, name: string)
    requires Separator !in name
    requires prefix == [] || prefix[|prefix| - 1] == Separator
    ensures LastElement(prefix + name) == name
  {
    var s := prefix + name;
    var r := LastElement(s);
    if prefix != [] {
      SeparatorBoundsSuffix(s, r, |prefix| - 1);
    }
    assert |r| <= |name|;
    assert |r| == |name|;
    assert s[|prefix|..] == name;
  }

  // ---------------------------------------------------------------- strconv

  function DigitChar(d: nat): char
    requires d < 10
  {
    ('0' as int + d) as char
  }

  predicate IsDigit(c: char)
  {
    '0' <= c <= '9'
  }

  /** The decimal digits of `n`, most significant first, without leading zeros. */
  function NatToDecimal(n: nat): (s: string)
    ensures s != []
    ensures forall i :: 0 <= i < |s| ==> IsDigit(s[i])
    ensures |s| > 1 ==> s[0] != '0'
    decreases n
  {
    if n < 10 then [DigitChar(n)] else NatToDecimal(n / 10) + [DigitChar(n % 10)]
  }

  /** strconv.Itoa: the decimal form of `n`, with a leading '-' when negative. */
  function Itoa(n: int): string
  {
    if n < 0 then "-" + NatToDecimal(-n) else NatToDecimal(n)
  }

  /** The value of a string of decimal digits; a reference decoder for Itoa. */
  function DecimalValue(s: string): int
    decreases |s|
  {
    if s == [] then 0 else DecimalValue(s[..|s| - 1]) * 10 + (s[|s| - 1] as int - '0' as int)
  }

  function ParseInt(s: string): int
  {
    if s != [] && s[0] == '-' then -DecimalValue(s[1..]) else DecimalValue(s)
  }

  lemma {:induction false} NatToDecimalRoundTrip(n: nat)
    ensures DecimalValue(NatToDecimal(n)) == n
    decreases n
  {
    if n >= 10 {
      var s := NatToDecimal(n);
      assert s[..|s| - 1] == NatToDecimal(n / 10);
      NatToDecimalRoundTrip(n / 10);
    }
  }

  /** Itoa loses nothing: parsing its output gives back the number. */
  lemma ItoaRoundTrip(n: int)
    ensures ParseInt(Itoa(n)) == n
  {
    if n < 0 {
      NatToDecimalRoundTrip(-n);
      assert Itoa(n)[1..] == NatToDecimal(-n);
    } else {
      NatToDecimalRoundTrip(n);
      assert IsDigit(Itoa(n)[0]);
    }
  }

  /** Distinct numbers have distinct decimal forms. */
  lemma ItoaInjective(a: int, b: int)
    requires a != b
    ensures Itoa(a) != Itoa(b)
  {
    ItoaRoundTrip(a);
    ItoaRoundTrip(b);
  }
}
