/**
 * The character filters the forms put on amount text, `^\d*\.?\d*$` (the
 * transaction form) and `^\d*(\.\d*)?$` (the recurring-payment form), and
 * what `toDoubleOrNull` makes of text they let through. In `Regex`, `\d`
 * is the ASCII digit class.
 */
module AmountText {
  import opened Wrappers
  import opened Text

  /** `^\d*\.?\d*$`: digits, at most one '.', more digits. */
  predicate MatchesDigitsDotDigits(s: string) {
    exists k :: 0 <= k <= |s| && AllDigits(s[..k])
      && (AllDigits(s[k..]) || (k < |s| && s[k] == '.' && AllDigits(s[k + 1..])))
  }

  /** `^\d*(\.\d*)?$`: digits, then optionally a '.' followed by digits. */
  predicate MatchesDigitsOptionalFraction(s: string) {
    exists k :: 0 <= k <= |s| && AllDigits(s[..k])
      && (k == |s| || (s[k] == '.' && AllDigits(s[k + 1..])))
  }

  /** A decision procedure for both patterns: split at the first '.'. */
  function IsAmountText(s: string): (b: bool)
    ensures b <==> MatchesDigitsDotDigits(s)
    ensures b <==> MatchesDigitsOptionalFraction(s)
  {
    match IndexOfChar(s, '.')
    case None =>
      assert s[..|s|] == s;
      AllDigits(s)
    case Some(k) =>
      var b := AllDigits(s[..k]) && AllDigits(s[k + 1..]);
      DotSplit(s, k);
      b
  }

  /** With the first '.' at `k`, both patterns hold exactly when the text around it is digits. */
  lemma DotSplit(s: string, k: nat)
    requires k < |s| && s[k] == '.' && forall j :: 0 <= j < k ==> s[j] != '.'
    ensures MatchesDigitsDotDigits(s) <==> AllDigits(s[..k]) && AllDigits(s[k + 1..])
    ensures MatchesDigitsOptionalFraction(s) <==> AllDigits(s[..k]) && AllDigits(s[k + 1..])
  {
    if AllDigits(s[..k]) && AllDigits(s[k + 1..]) {
      assert MatchesDigitsOptionalFraction(s) by {
        assert 0 <= k <= |s| && AllDigits(s[..k]) && s[k] == '.' && AllDigits(s[k + 1..]);
      }
      assert MatchesDigitsDotDigits(s) by {
        assert k < |s| && s[k] == '.' && AllDigits(s[k + 1..]);
      }
    }
  }

  /** Whether `s` holds at least one digit. */
  predicate HasDigit(s: string) {
    exists i :: 0 <= i < |s| && IsDigit(s[i])
  }

  /**
   * Text that passes the filter parses exactly when it holds a digit (so
   * "" and "." do not), and its value is never negative.
   */
  lemma AmountTextParses(s: string)
    requires IsAmountText(s)
    ensures ParseDecimal(s).Some? <==> HasDigit(s)
    ensures ParseDecimal(s).Some? ==> ParseDecimal(s).value >= 0.0
  {
    NoSign(s);
    assert ParseDecimal(s) == ParseUnsignedDecimal(s);
    match IndexOfChar(s, '.')
    case None =>
      HasDigitOfDigits(s);
    case Some(k) =>
      HasDigitAroundDot(s, k);
  }

  /** Text that passes the filter starts with neither sign. */
  lemma NoSign(s: string)
    requires IsAmountText(s)
    ensures |s| > 0 ==> s[0] != '-' && s[0] != '+'
  {
    if |s| > 0 {
      match IndexOfChar(s, '.')
      case None =>
        assert IsDigit(s[0]);
      case Some(k) =>
        if k > 0 { assert s[..k][0] == s[0]; }
    }
  }

  /** A digit string holds a digit exactly when it is not empty. */
  lemma HasDigitOfDigits(s: string)
    requires AllDigits(s)
    ensures HasDigit(s) <==> |s| > 0
  {
    if |s| > 0 { assert IsDigit(s[0]); }
  }

  /** Digits around one '.' hold a digit exactly when they are not both empty. */
  lemma HasDigitAroundDot(s: string, k: nat)
    requires k < |s| && s[k] == '.' && AllDigits(s[..k]) && AllDigits(s[k + 1..])
    ensures HasDigit(s) <==> |s[..k]| + |s[k + 1..]| > 0
  {
    if HasDigit(s) {
      var i :| 0 <= i < |s| && IsDigit(s[i]);
      assert i != k;
    }
    if k > 0 { assert IsDigit(s[..k][0]); }
    if k + 1 < |s| { assert IsDigit(s[k + 1..][0]); }
  }

  /** The text of a whole amount passes the filter. */
  lemma NatTextIsAmountText(n: nat)
    ensures IsAmountText(NatToString(n))
  {
    var s := NatToString(n);
    assert IndexOfChar(s, '.').None?;
  }
}
