/** Cleaning and validating a CNPJ (the Brazilian company tax ID). */
module Cnpj {
  import opened Text

  /** Every character outside the ASCII digits removed, the digits kept in order. */
  function CleanCnpj(s: string): (r: string)
    ensures AllDigits(r)
    ensures |r| <= |s|
  {
    if s == [] then []
    else (if IsDigit(s[0]) then [s[0]] else []) + CleanCnpj(s[1..])
  }

  /**
   * A CNPJ is valid when it has exactly 14 digits once cleaned: validity depends
   * only on how many digits the input holds, wherever they sit, and there is no
   * check-digit test.
   */
  predicate IsValidCnpj(s: string): (valid: bool)
    ensures valid <==> DigitCount(s) == 14
  {
    CleanLengthIsDigitCount(s);
    |CleanCnpj(s)| == 14
  }

  /** The number of positions of `s` holding a digit. */
  function DigitCount(s: string): nat {
    |set i | 0 <= i < |s| && IsDigit(s[i])|
  }

  /** Cleaning works character by character: it distributes over concatenation. */
  lemma {:induction false} CleanConcat(a: string, b: string)
    ensures CleanCnpj(a + b) == CleanCnpj(a) + CleanCnpj(b)
    decreases |a|
  {
    if a == [] {
      assert a + b == b;
    } else {
      assert (a + b)[1..] == a[1..] + b;
      CleanConcat(a[1..], b);
    }
  }

  /** A string of digits only is left as it is. */
  lemma {:induction false} CleanKeepsDigits(s: string)
    requires AllDigits(s)
    ensures CleanCnpj(s) == s
    decreases |s|
  {
    if s != [] {
      CleanKeepsDigits(s[1..]);
    }
  }

  /** Cleaning twice is cleaning once. */
  lemma CleanIdempotent(s: string)
    ensures CleanCnpj(CleanCnpj(s)) == CleanCnpj(s)
  {
    CleanKeepsDigits(CleanCnpj(s));
  }

  /** Cleaning keeps exactly as many characters as `s` has digits. */
  lemma {:induction false} CleanLengthIsDigitCount(s: string)
    ensures |CleanCnpj(s)| == DigitCount(s)
    decreases |s|
  {
    if s != [] {
      var n := |s| - 1;
      var init := s[..n];
      assert s == init + [s[n]];
      CleanConcat(init, [s[n]]);
      CleanLengthIsDigitCount(init);
      var before := set i | 0 <= i < n && IsDigit(init[i]);
      var all := set i | 0 <= i < |s| && IsDigit(s[i]);
      if IsDigit(s[n]) {
        assert all == before + {n};
        assert n !in before;
      } else {
        assert all == before;
      }
    }
  }

  /** A separator is dropped, whatever surrounds it. */
  lemma CleanDropsSeparator(x: string, p: char, y: string)
    requires !IsDigit(p)
    ensures CleanCnpj(x + [p] + y) == CleanCnpj(x) + CleanCnpj(y)
  {
    CleanConcat(x + [p], y);
    CleanConcat(x, [p]);
    assert CleanCnpj([p]) == [] + CleanCnpj([p][1..]);
    assert [p][1..] == [];
  }

  /** A separator followed by a run of digits: the separator goes, the digits stay. */
  lemma CleanSeparatorThenDigits(x: string, p: char, y: string)
    requires !IsDigit(p) && AllDigits(y)
    ensures CleanCnpj(x + [p] + y) == CleanCnpj(x) + y
  {
    CleanDropsSeparator(x, p, y);
    CleanKeepsDigits(y);
  }

  /** The first three groups of the mask, `DD.DDD.DDD`, clean to their digits. */
  lemma CleanMaskedHead(a: string, b: string, c: string)
    requires AllDigits(a) && AllDigits(b) && AllDigits(c)
    ensures CleanCnpj(a + ['.'] + b + ['.'] + c) == a + b + c
  {
    CleanKeepsDigits(a);
    CleanSeparatorThenDigits(a, '.', b);
    CleanSeparatorThenDigits(a + ['.'] + b, '.', c);
  }

  /** A CNPJ written in the mask `DD.DDD.DDD/DDDD-DD` cleans to its 14 digits. */
  lemma CleanMasked(a: string, b: string, c: string, d: string, e: string)
    requires AllDigits(a) && AllDigits(b) && AllDigits(c) && AllDigits(d) && AllDigits(e)
    ensures CleanCnpj(a + ['.'] + b + ['.'] + c + ['/'] + d + ['-'] + e) == a + b + c + d + e
  {
    var head := a + ['.'] + b + ['.'] + c;
    var headD := head + ['/'] + d;
    CleanMaskedHead(a, b, c);
    CleanSeparatorThenDigits(head, '/', d);
    assert CleanCnpj(headD) == a + b + c + d;
    CleanSeparatorThenDigits(headD, '-', e);
  }

  /** Such a masked CNPJ is valid. */
  lemma MaskedIsValid(a: string, b: string, c: string, d: string, e: string)
    requires AllDigits(a) && AllDigits(b) && AllDigits(c) && AllDigits(d) && AllDigits(e)
    requires |a| == 2 && |b| == 3 && |c| == 3 && |d| == 4 && |e| == 2
    ensures IsValidCnpj(a + ['.'] + b + ['.'] + c + ['/'] + d + ['-'] + e)
  {
    var digits := a + b + c + d + e;
    assert |digits| == 14;
    CleanMasked(a, b, c, d, e);
  }
}
