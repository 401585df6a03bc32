/**
  Relative luminance and contrast ratio as defined in the WCAG 2.0 glossary
  ("relative luminance", "contrast ratio"), and the AA / AAA verdicts for
  normal text. Arithmetic is exact over `real`.

  The power `x ** 2.4` of the gamma curve has no counterpart in Dafny, so it
  is a parameter of the model: any function that maps [0, 1] into [0, 1] and
  1 to 1. Nothing else about it is used.
*/
module Wcag {
  import opened Color

  /** `pow` behaves on [0, 1] as `x ** 2.4` does, as far as the model needs: it stays in [0, 1] and fixes 1. */
  ghost predicate IsGammaPower(pow: real -> real) {
    (forall x: real :: 0.0 <= x <= 1.0 ==> 0.0 <= pow(x) <= 1.0) && pow(1.0) == 1.0
  }

  /** Normalised channel values at or below this take the linear branch of the curve. */
  const LinearLimit: real := 0.03928

  /** A channel scaled into [0, 1]: `x / 255.0`. */
  function Normalize(c: Channel): (v: real)
    ensures 0.0 <= v <= 1.0
    ensures v == 0.0 <==> c == 0
    ensures v == 1.0 <==> c == 255
  {
    c as real / 255.0
  }

  /** The gamma expansion `adjust` of one normalised channel. */
  function Adjust(pow: real -> real, v: real): (a: real)
    requires IsGammaPower(pow)
    ensures 0.0 <= v <= 1.0 ==> 0.0 <= a <= 1.0
    ensures v == 0.0 ==> a == 0.0
    ensures v == 1.0 ==> a == 1.0
  {
    if v <= LinearLimit then v / 12.92 else pow((v + 0.055) / 1.055)
  }

  /** `relative_luminance`: the weighted sum of the three expanded channels. */
  function RelativeLuminance(pow: real -> real, c: Rgb): (l: real)
    requires IsGammaPower(pow)
    ensures 0.0 <= l <= 1.0
    ensures c == Black ==> l == 0.0
    ensures c == White ==> l == 1.0
  {
    var r, g, b := Adjust(pow, Normalize(c.r)), Adjust(pow, Normalize(c.g)), Adjust(pow, Normalize(c.b));
    0.2126 * r + 0.7152 * g + 0.0722 * b
  }

  function Max(x: real, y: real): real { if x >= y then x else y }
  function Min(x: real, y: real): real { if x >= y then y else x }

  /**
    The contrast of two luminances: (lighter + 0.05) / (darker + 0.05). The
    denominator is at least 0.05, so the division is always defined.
  */
  function LuminanceContrast(l1: real, l2: real): (ratio: real)
    requires 0.0 <= l1 && 0.0 <= l2
    ensures ratio >= 1.0
    ensures ratio == 1.0 <==> l1 == l2
    ensures l1 <= 1.0 && l2 <= 1.0 ==> ratio <= 21.0
  {
    var lighter, darker := Max(l1, l2), Min(l1, l2);
    assert darker + 0.05 >= 0.05;
    ContrastBounds(lighter, darker);
    (lighter + 0.05) / (darker + 0.05)
  }

  lemma ContrastBounds(lighter: real, darker: real)
    requires 0.0 <= darker <= lighter
    ensures (lighter + 0.05) / (darker + 0.05) >= 1.0
    ensures (lighter + 0.05) / (darker + 0.05) == 1.0 <==> lighter == darker
    ensures lighter <= 1.0 ==> (lighter + 0.05) / (darker + 0.05) <= 21.0
  {
    var n, d := lighter + 0.05, darker + 0.05;
    QuotientFacts(n, d, 21.0);
  }

  /** Division by a positive denominator, the three facts the contrast bounds rest on. */
  lemma QuotientFacts(n: real, d: real, c: real)
    requires 0.0 < d <= n
    ensures n / d >= 1.0
    ensures n / d == 1.0 <==> n == d
    ensures n <= c * d ==> n / d <= c
  {
    var q := n / d;
    assert q * d == n;
  }

  /** `contrast_ratio` of two colours. */
  function ContrastRatio(pow: real -> real, a: Rgb, b: Rgb): (ratio: real)
    requires IsGammaPower(pow)
    ensures 1.0 <= ratio <= 21.0
  {
    LuminanceContrast(RelativeLuminance(pow, a), RelativeLuminance(pow, b))
  }

  /** WCAG AA for normal text. */
  predicate MeetsAA(ratio: real) { ratio >= 4.5 }

  /** WCAG AAA for normal text. */
  predicate MeetsAAA(ratio: real) { ratio >= 7.0 }

  /** Foreground and background may be swapped: only the lighter and the darker luminance matter. */
  lemma ContrastSymmetric(pow: real -> real, a: Rgb, b: Rgb)
    requires IsGammaPower(pow)
    ensures ContrastRatio(pow, a, b) == ContrastRatio(pow, b, a)
  {
  }

  /** Two colours contrast at 1:1 exactly when their luminances are equal; a colour with itself always does. */
  lemma UnitContrastIff(pow: real -> real, a: Rgb, b: Rgb)
    requires IsGammaPower(pow)
    ensures ContrastRatio(pow, a, b) == 1.0 <==> RelativeLuminance(pow, a) == RelativeLuminance(pow, b)
    ensures ContrastRatio(pow, a, a) == 1.0
  {
  }

  /** Black on white is the largest ratio there is, 21:1. */
  lemma BlackOnWhite(pow: real -> real)
    requires IsGammaPower(pow)
    ensures ContrastRatio(pow, Black, White) == 21.0
    ensures MeetsAAA(ContrastRatio(pow, Black, White))
  {
  }

  /** Pure red on black is 5.252:1: it meets AA and not AAA. */
  lemma RedOnBlack(pow: real -> real)
    requires IsGammaPower(pow)
    ensures RelativeLuminance(pow, Rgb(255, 0, 0)) == 0.2126
    ensures ContrastRatio(pow, Rgb(255, 0, 0), Black) == 5.252
    ensures MeetsAA(ContrastRatio(pow, Rgb(255, 0, 0), Black))
    ensures !MeetsAAA(ContrastRatio(pow, Rgb(255, 0, 0), Black))
  {
  }

  /** AAA is the stricter level: a ratio that meets it also meets AA. */
  lemma AAAImpliesAA(ratio: real)
    ensures MeetsAAA(ratio) ==> MeetsAA(ratio)
  {
  }
}
