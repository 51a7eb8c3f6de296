/**
 * The text helpers shared by the export code: truncation with an ellipsis
 * and the percentage rendering. `toFixed(1)` is a parameter.
 */
module Formatters {

  /** The length `truncateText` cuts to when none is given. */
  const DefaultMaxLength: int := 25

  /** The ellipsis appended to a cut text. */
  const Ellipsis: string := "..."

  /** `text.substring(0, n)`: a negative end counts as 0 and an end past the text as its length. */
  function Substring(text: string, n: int): (r: string)
    ensures |r| == if n < 0 then 0 else if n > |text| then |text| else n
    ensures r <= text
  {
    if n < 0 then "" else if n > |text| then text else text[..n]
  }

  /** `truncateText(text, maxLength)`: the text when it fits, otherwise its first `maxLength - 3` characters and '...'. */
  function TruncateText(text: string, maxLength: int): string {
    if |text| <= maxLength then text else Substring(text, maxLength - 3) + Ellipsis
  }

  /**
   * A text that fits is returned as it is; a longer one keeps a prefix and
   * ends in '...'; for a limit of at least 3 the result is never longer
   * than the limit, and exactly that long when cut.
   */
  lemma TruncateTextSpec(text: string, maxLength: int)
    ensures |text| <= maxLength ==> TruncateText(text, maxLength) == text
    ensures |text| > maxLength ==>
      var r := TruncateText(text, maxLength);
      && |r| >= 3 && r[|r| - 3..] == Ellipsis && r[..|r| - 3] <= text
    ensures maxLength >= 3 ==> |TruncateText(text, maxLength)| <= maxLength
    ensures maxLength >= 3 && |text| > maxLength ==> |TruncateText(text, maxLength)| == maxLength
  {
    if |text| > maxLength {
      var r := TruncateText(text, maxLength);
      assert r[..|r| - 3] == Substring(text, maxLength - 3);
    }
  }

  /** With the default limit, every text longer than 25 characters becomes its first 22 characters and '...'. */
  lemma TruncateDefault(text: string)
    ensures |text| > DefaultMaxLength ==> TruncateText(text, DefaultMaxLength) == text[..22] + "..."
    ensures |text| <= DefaultMaxLength ==> TruncateText(text, DefaultMaxLength) == text
  {
  }

  /** Truncating twice with the same limit of at least 3 is truncating once. */
  lemma TruncateIdempotent(text: string, maxLength: int)
    requires maxLength >= 3
    ensures TruncateText(TruncateText(text, maxLength), maxLength) == TruncateText(text, maxLength)
  {
    TruncateTextSpec(text, maxLength);
  }

  /** `formatPercentage`: the fraction scaled by 100, rendered with one decimal, and '%'. */
  function FormatPercentage(value: real, toFixed1: real -> string): (r: string)
    ensures |r| >= 1 && r[|r| - 1] == '%'
    ensures r[..|r| - 1] == toFixed1(value * 100.0)
  {
    toFixed1(value * 100.0) + "%"
  }

  /**
   * Every fraction is rendered as its hundredfold with a '%' sign, so two
   * fractions read alike whenever their hundredfolds are rendered alike;
   * a fraction of 0.1 reads as 10 per cent.
   */
  lemma PercentageScales(value: real, other: real, toFixed1: real -> string)
    ensures FormatPercentage(value, toFixed1) == toFixed1(value * 100.0) + "%"
    ensures FormatPercentage(value, toFixed1) == FormatPercentage(other, toFixed1) <==>
      toFixed1(value * 100.0) == toFixed1(other * 100.0)
    ensures FormatPercentage(0.1, toFixed1) == toFixed1(10.0) + "%"
  {
    var a, b := toFixed1(value * 100.0), toFixed1(other * 100.0);
    if a + "%" == b + "%" {
      assert |a| == |b|;
      assert a == (a + "%")[..|a|];
    }
  }
}
