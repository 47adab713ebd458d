/** Reading a Number lexeme as a value: the model of Rust's `str::parse::<f64>`
    restricted to the plain decimal notation the scanner produces (digits with
    at most one decimal point). Values are exact reals. */
module Numbers {
  import opened Wrappers
  import opened Text

  predicate IsDigit(c: char)
  {
    '0' <= c <= '9'
  }

  predicate AllDigits(s: string)
  {
    forall k :: 0 <= k < |s| ==> IsDigit(s[k])
  }

  /** Value of a run of decimal digits, most significant first. */
  function DigitsValue(s: string): nat
    requires AllDigits(s)
  {
    if s == [] then 0 else DigitsValue(s[..|s| - 1]) * 10 + (s[|s| - 1] as int - '0' as int)
  }

  function Pow10(n: nat): (p: nat)
    ensures p > 0
  {
    if n == 0 then 1 else 10 * Pow10(n - 1)
  }

  /** Index of the first decimal point of `s`, or `|s|` when there is none. */
  function DotIndex(s: string): (d: nat)
    ensures d <= |s|
    ensures d < |s| ==> s[d] == '.'
    ensures forall k :: 0 <= k < d ==> s[k] != '.'
  {
    if s == [] then 0 else if s[0] == '.' then 0 else 1 + DotIndex(s[1..])
  }

  /** The whole-number part and the fraction part of a lexeme, split at its
      first decimal point. */
  function WholePart(s: string): string
  {
    s[..DotIndex(s)]
  }

  function FractionPart(s: string): string
  {
    var d := DotIndex(s);
    if d < |s| then s[d + 1..] else []
  }

  /** Plain decimal notation: only digits and points, at most one point, at
      least one digit. */
  predicate IsDecimal(s: string)
  {
    && (forall k :: 0 <= k < |s| ==> IsDigit(s[k]) || s[k] == '.')
    && Count(s, '.') <= 1
    && (exists k :: 0 <= k < |s| && IsDigit(s[k]))
  }

  /** `lexeme.parse::<f64>()`: the exact value of a plain decimal lexeme, and
      `None` for anything else. */
  function ParseFloat(s: string): Option<real>
  {
    var whole, fraction := WholePart(s), FractionPart(s);
    if AllDigits(whole) && AllDigits(fraction) && |whole| + |fraction| > 0 then
      Some(DigitsValue(whole) as real + DigitsValue(fraction) as real / Pow10(|fraction|) as real)
    else
      None
  }

  /** ParseFloat accepts exactly the plain decimal lexemes. */
  lemma ParseFloatAcceptsDecimals(s: string)
    ensures ParseFloat(s).Some? <==> IsDecimal(s)
  {
    var d := DotIndex(s);
    var whole, fraction := WholePart(s), FractionPart(s);
    if d < |s| {
      assert s == whole + [s[d]] + fraction;
      CountAbsent(whole, '.');
      CountConcat(whole + [s[d]], fraction, '.');
      CountConcat(whole, [s[d]], '.');
      assert Count([s[d]], '.') == 1;
      if ParseFloat(s).Some? {
        CountAbsent(fraction, '.');
        if |whole| > 0 {
          assert IsDigit(s[0]);
        } else {
          assert IsDigit(s[d + 1]);
        }
      }
      if IsDecimal(s) {
        forall k | 0 <= k < |fraction|
          ensures IsDigit(fraction[k])
        {
          assert s[d + 1 + k] == fraction[k];
          if fraction[k] == '.' {
            CountPositive(fraction, k, '.');
          }
        }
        var j :| 0 <= j < |s| && IsDigit(s[j]);
        assert j < d || j > d;
      }
    } else {
      assert whole == s;
      CountAbsent(s, '.');
      if IsDecimal(s) {
        var j :| 0 <= j < |s| && IsDigit(s[j]);
      }
    }
  }

  lemma {:induction false} CountPositive(s: string, k: nat, c: char)
    requires k < |s| && s[k] == c
    ensures Count(s, c) >= 1
  {
    if k > 0 {
      CountPositive(s[1..], k - 1, c);
    }
  }

  /** A run of digits reads as its integer value. */
  lemma ParseWholeNumber(s: string)
    requires |s| > 0 && AllDigits(s)
    ensures ParseFloat(s) == Some(DigitsValue(s) as real)
  {
    assert forall k :: 0 <= k < |s| ==> s[k] != '.' by {
      forall k | 0 <= k < |s|
        ensures s[k] != '.'
      {
        assert IsDigit(s[k]);
      }
    }
    assert DotIndex(s) == |s|;
    var whole, fraction := WholePart(s), FractionPart(s);
    assert whole == s && fraction == [];
    var numerator, denominator := DigitsValue(fraction) as real, Pow10(|fraction|) as real;
    assert numerator == 0.0 && denominator == 1.0;
    assert numerator / denominator == 0.0;
    assert ParseFloat(s) == Some(DigitsValue(whole) as real + numerator / denominator);
  }

  /** Digits, a point and digits read as the whole part plus the fraction
      scaled down by its length. */
  lemma ParsePointNumber(whole: string, fraction: string)
    requires AllDigits(whole) && AllDigits(fraction) && |whole| + |fraction| > 0
    ensures ParseFloat(whole + "." + fraction)
      == Some(DigitsValue(whole) as real + DigitsValue(fraction) as real / Pow10(|fraction|) as real)
  {
    var s := whole + "." + fraction;
    assert forall k :: 0 <= k < |whole| ==> s[k] != '.' by {
      forall k | 0 <= k < |whole|
        ensures s[k] != '.'
      {
        assert s[k] == whole[k] && IsDigit(whole[k]);
      }
    }
    assert s[|whole|] == '.';
    assert DotIndex(s) == |whole|;
    ParseFloatOfParts(s, whole, fraction);
  }

  /** ParseFloat reads the whole part and the fraction part of a lexeme. */
  lemma ParseFloatOfParts(s: string, whole: string, fraction: string)
    requires WholePart(s) == whole && FractionPart(s) == fraction
    requires AllDigits(whole) && AllDigits(fraction) && |whole| + |fraction| > 0
    ensures ParseFloat(s) == Some(DigitsValue(whole) as real + DigitsValue(fraction) as real / Pow10(|fraction|) as real)
  {
  }
}
