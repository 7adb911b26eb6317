/**
 * Text the downloader builds from numbers: Python's `str(n)` / `'%s' % n`
 * and `'%f' % n` of an integer, Python's `int(text)`, `str.startswith`,
 * and the cache file name `{name}_{west}_{south}{ext}`.
 */
module Text {
  import opened Wrappers

  predicate IsDigit(c: char) {
    '0' <= c <= '9'
  }

  function DigitChar(d: nat): (c: char)
    requires d < 10
    ensures IsDigit(c) && c as int - '0' as int == d
  {
    ('0' as int + d) as char
  }

  /** Decimal digits of `n`, most significant first, without leading zeros. */
  function Digits(n: nat): (r: string)
    ensures |r| >= 1
    ensures forall i :: 0 <= i < |r| ==> IsDigit(r[i])
    ensures |r| == 1 <==> n < 10
  {
    if n < 10 then [DigitChar(n)] else Digits(n / 10) + [DigitChar(n % 10)]
  }

  /** Python's `str(n)` for an integer `n`. */
  function IntText(n: int): (r: string)
    ensures |r| >= 1
    ensures forall i :: 0 <= i < |r| ==> r[i] == '-' || IsDigit(r[i])
  {
    if n < 0 then "-" + Digits(-n) else Digits(n)
  }

  /** Python's `'%f' % n` for an integer `n`: six zero decimals. */
  function FixedText(n: int): string {
    IntText(n) + ".000000"
  }

  predicate AllDigits(s: string) {
    forall i :: 0 <= i < |s| ==> IsDigit(s[i])
  }

  /** The value of a string of decimal digits. */
  function DigitsValue(s: string): nat
    requires AllDigits(s)
  {
    if s == [] then 0
    else DigitsValue(s[..|s| - 1]) * 10 + (s[|s| - 1] as int - '0' as int)
  }

  /**
   * Python's `int(text)`: an optional sign followed by at least one decimal
   * digit; anything else is a ValueError, here None.
   */
  function ParseInt(s: string): Option<int> {
    if |s| > 1 && (s[0] == '-' || s[0] == '+') && AllDigits(s[1..]) then
      Some(if s[0] == '-' then -(DigitsValue(s[1..]) as int) else DigitsValue(s[1..]))
    else if |s| > 0 && AllDigits(s) then
      Some(DigitsValue(s))
    else
      None
  }

  predicate StartsWith(s: string, prefix: string) {
    |prefix| <= |s| && s[..|prefix|] == prefix
  }

  /** The cache file name `'%(name)s_%(west)s_%(south)s%(extension)s'`. */
  function TileFile(name: string, ext: string, west: int, south: int): (f: string)
    ensures StartsWith(f, name)
  {
    name + "_" + IntText(west) + "_" + IntText(south) + ext
  }

  // ---------------------------------------------------------------------
  // Rendering numbers is injective and `int` reads back what `str` wrote.
  // ---------------------------------------------------------------------

  lemma {:induction false} DigitsInjective(m: nat, n: nat)
    requires Digits(m) == Digits(n)
    ensures m == n
  {
    if m >= 10 {
      var dm, dn := Digits(m), Digits(n);
      assert n >= 10;
      assert dm[|dm| - 1] == DigitChar(m % 10);
      assert dn[|dn| - 1] == DigitChar(n % 10);
      assert dm[..|dm| - 1] == Digits(m / 10);
      assert dn[..|dn| - 1] == Digits(n / 10);
      DigitsInjective(m / 10, n / 10);
    }
  }

  lemma IntTextInjective(a: int, b: int)
    requires IntText(a) == IntText(b)
    ensures a == b
  {
    assert IntText(a)[0] == '-' <==> a < 0;
    assert IntText(b)[0] == '-' <==> b < 0;
    if a < 0 {
      assert IntText(a)[1..] == Digits(-a);
      assert IntText(b)[1..] == Digits(-b);
      DigitsInjective(-a, -b);
    } else {
      DigitsInjective(a, b);
    }
  }

  lemma {:induction false} DigitsValueOfDigits(n: nat)
    ensures DigitsValue(Digits(n)) == n
  {
    var d := Digits(n);
    if n >= 10 {
      assert d[..|d| - 1] == Digits(n / 10);
      DigitsValueOfDigits(n / 10);
    }
  }

  /** `int(str(n)) == n`: the write-back of a total reads back as that total. */
  lemma ParseIntText(n: int)
    ensures ParseInt(IntText(n)) == Some(n)
  {
    var s := IntText(n);
    if n < 0 {
      assert s[1..] == Digits(-n);
      assert AllDigits(s[1..]);
      DigitsValueOfDigits(-n);
    } else {
      assert s == Digits(n) && AllDigits(s);
      DigitsValueOfDigits(n);
    }
  }

  /** Two cache file names of one output agree exactly when their origins do. */
  lemma TileFileInjective(name: string, ext: string, w1: int, s1: int, w2: int, s2: int)
    requires TileFile(name, ext, w1, s1) == TileFile(name, ext, w2, s2)
    ensures w1 == w2 && s1 == s2
  {
    var a1, b1, a2, b2 := IntText(w1), IntText(s1), IntText(w2), IntText(s2);
    var f1, f2 := TileFile(name, ext, w1, s1), TileFile(name, ext, w2, s2);
    var p := |name| + 1;
    var m1 := a1 + "_" + b1;
    var m2 := a2 + "_" + b2;
    assert f1 == name + "_" + m1 + ext;
    assert f2 == name + "_" + m2 + ext;
    assert |m1| == |m2|;
    assert m1 == f1[p..p + |m1|];
    assert m2 == f2[p..p + |m2|];
    assert m1 == m2;
    UnderscoreSplit(a1, b1, a2, b2);
    IntTextInjective(w1, w2);
    IntTextInjective(s1, s2);
  }

  /** Splitting at the only underscore recovers both parts. */
  lemma UnderscoreSplit(a1: string, b1: string, a2: string, b2: string)
    requires forall i :: 0 <= i < |a1| ==> a1[i] == '-' || IsDigit(a1[i])
    requires forall i :: 0 <= i < |a2| ==> a2[i] == '-' || IsDigit(a2[i])
    requires a1 + "_" + b1 == a2 + "_" + b2
    ensures a1 == a2 && b1 == b2
  {
    var m := a1 + "_" + b1;
    assert m[|a1|] == '_' && m[|a2|] == '_';
    assert forall i :: 0 <= i < |a1| ==> m[i] == a1[i];
    assert forall i :: 0 <= i < |a2| ==> m[i] == a2[i];
    assert |a1| == |a2|;
    assert a1 == m[..|a1|] == a2;
    assert b1 == m[|a1| + 1..] == b2;
  }
}
