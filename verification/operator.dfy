/** The operator classifier: which carrier, and which charge tier of it, a mobile
    number is topped up through, decided by the number's prefix and two flags. */
module Operators {
  import opened Wrappers
  import Decimal

  /** The seven operator codes the reseller accepts in `data[type]`. The `daemi`
      and `super` tiers carry a `#` or `!` before the carrier's tag. */
  datatype Operator = Mtn | MtnDaemi | MtnSuper | Mci | WiMax | Rtl | RtlSuper
  {
    /** The code as sent to the reseller. */
    function Code(): (s: string)
      ensures |s| > 0 && '-' !in s
    {
      match this
      case Mtn => "MTN"
      case MtnDaemi => "#MTN"
      case MtnSuper => "!MTN"
      case Mci => "MCI"
      case WiMax => "WiMax"
      case Rtl => "RTL"
      case RtlSuper => "!RTL"
    }
  }

  /** `x` is one of the ten code points of the digit block whose zero is `zero`. */
  predicate InBlock(x: int, zero: int) {
    zero <= x < zero + 10
  }

  /** What `\d` matches in a Python regular expression over `str`: any Unicode
      decimal digit (general category Nd), not only `0`-`9`. The blocks are those
      of Unicode 15.0, each named by the code point of its digit zero. */
  predicate IsDecimalDigit(c: char) {
    var x := c as int;
    InBlock(x, 0x0030) || InBlock(x, 0x0660) || InBlock(x, 0x06F0) || InBlock(x, 0x07C0)
    || InBlock(x, 0x0966) || InBlock(x, 0x09E6) || InBlock(x, 0x0A66) || InBlock(x, 0x0AE6)
    || InBlock(x, 0x0B66) || InBlock(x, 0x0BE6) || InBlock(x, 0x0C66) || InBlock(x, 0x0CE6)
    || InBlock(x, 0x0D66) || InBlock(x, 0x0DE6) || InBlock(x, 0x0E50) || InBlock(x, 0x0ED0)
    || InBlock(x, 0x0F20) || InBlock(x, 0x1040) || InBlock(x, 0x1090) || InBlock(x, 0x17E0)
    || InBlock(x, 0x1810) || InBlock(x, 0x1946) || InBlock(x, 0x19D0) || InBlock(x, 0x1A80)
    || InBlock(x, 0x1A90) || InBlock(x, 0x1B50) || InBlock(x, 0x1BB0) || InBlock(x, 0x1C40)
    || InBlock(x, 0x1C50) || InBlock(x, 0xA620) || InBlock(x, 0xA8D0) || InBlock(x, 0xA900)
    || InBlock(x, 0xA9D0) || InBlock(x, 0xA9F0) || InBlock(x, 0xAA50) || InBlock(x, 0xABF0)
    || InBlock(x, 0xFF10) || InBlock(x, 0x104A0) || InBlock(x, 0x10D30) || InBlock(x, 0x11066)
    || InBlock(x, 0x110F0) || InBlock(x, 0x11136) || InBlock(x, 0x111D0) || InBlock(x, 0x112F0)
    || InBlock(x, 0x11450) || InBlock(x, 0x114D0) || InBlock(x, 0x11650) || InBlock(x, 0x116C0)
    || InBlock(x, 0x11730) || InBlock(x, 0x118E0) || InBlock(x, 0x11950) || InBlock(x, 0x11C50)
    || InBlock(x, 0x11D50) || InBlock(x, 0x11DA0) || InBlock(x, 0x11F50) || InBlock(x, 0x16A60)
    || InBlock(x, 0x16AC0) || InBlock(x, 0x16B50) || InBlock(x, 0x1D7CE) || InBlock(x, 0x1D7D8)
    || InBlock(x, 0x1D7E2) || InBlock(x, 0x1D7EC) || InBlock(x, 0x1D7F6) || InBlock(x, 0x1E140)
    || InBlock(x, 0x1E2F0) || InBlock(x, 0x1E4F0) || InBlock(x, 0x1E950) || InBlock(x, 0x1FBF0)
  }

  lemma AsciiDigitIsDecimal(c: char)
    requires Decimal.IsAsciiDigit(c)
    ensures IsDecimalDigit(c)
  {
  }

  /** Every character from position `lo` to the end matches `\d`. */
  predicate DigitsFrom(p: string, lo: nat) {
    forall i :: lo <= i < |p| ==> IsDecimalDigit(p[i])
  }

  /** `09[03]\d{8}`, matched in full. */
  predicate IsMtnNumber(p: string) {
    |p| == 11 && p[0] == '0' && p[1] == '9' && (p[2] == '0' || p[2] == '3') && DigitsFrom(p, 3)
  }

  /** `09[19]\d{8}`, matched in full. */
  predicate IsMciNumber(p: string) {
    |p| == 11 && p[0] == '0' && p[1] == '9' && (p[2] == '1' || p[2] == '9') && DigitsFrom(p, 3)
  }

  /** `094\d{8}`, matched in full. */
  predicate IsWiMaxNumber(p: string) {
    |p| == 11 && p[0] == '0' && p[1] == '9' && p[2] == '4' && DigitsFrom(p, 3)
  }

  /** `092[0-2]\d{7}`, matched in full. */
  predicate IsRtlNumber(p: string) {
    |p| == 11 && p[0] == '0' && p[1] == '9' && p[2] == '2'
    && (p[3] == '0' || p[3] == '1' || p[3] == '2') && DigitsFrom(p, 4)
  }

  /** An eleven-character number of `\d` digits beginning with `09`. */
  predicate IsMobileNumber(p: string) {
    |p| == 11 && p[0] == '0' && p[1] == '9' && DigitsFrom(p, 0)
  }

  /** `_get_operator`: the rules in order, the first that matches decides. This is
      the only check the phone number gets; a number no rule matches gives None. */
  function GetOperator(phone: string, isSuper: bool, isDaemi: bool): (r: Option<Operator>)
    ensures r.Some? ==> IsMobileNumber(phone)
  {
    if IsMtnNumber(phone) then
      if isSuper then Some(MtnSuper) else if isDaemi then Some(MtnDaemi) else Some(Mtn)
    else if IsMciNumber(phone) then
      Some(Mci)
    else if IsWiMaxNumber(phone) then
      Some(WiMax)
    else if IsRtlNumber(phone) then
      if isSuper then Some(RtlSuper) else Some(Rtl)
    else
      None
  }

  /** No number falls in two prefix classes, so the order of the rules never
      decides the outcome. */
  lemma PrefixClassesDisjoint(p: string)
    ensures !(IsMtnNumber(p) && IsMciNumber(p))
    ensures !(IsMtnNumber(p) && IsWiMaxNumber(p))
    ensures !(IsMtnNumber(p) && IsRtlNumber(p))
    ensures !(IsMciNumber(p) && IsWiMaxNumber(p))
    ensures !(IsMciNumber(p) && IsRtlNumber(p))
    ensures !(IsWiMaxNumber(p) && IsRtlNumber(p))
  {
  }

  /** MTN numbers: `super` wins over `daemi`, and either picks its tier. */
  lemma MtnRule(p: string, isSuper: bool, isDaemi: bool)
    ensures GetOperator(p, isSuper, isDaemi) == Some(MtnSuper) <==> IsMtnNumber(p) && isSuper
    ensures GetOperator(p, isSuper, isDaemi) == Some(MtnDaemi) <==> IsMtnNumber(p) && !isSuper && isDaemi
    ensures GetOperator(p, isSuper, isDaemi) == Some(Mtn) <==> IsMtnNumber(p) && !isSuper && !isDaemi
  {
  }

  /** MCI and WiMax numbers are classified the same whatever the flags. */
  lemma MciAndWiMaxRules(p: string, isSuper: bool, isDaemi: bool)
    ensures GetOperator(p, isSuper, isDaemi) == Some(Mci) <==> IsMciNumber(p)
    ensures GetOperator(p, isSuper, isDaemi) == Some(WiMax) <==> IsWiMaxNumber(p)
  {
  }

  /** RTL numbers: `super` picks its tier, `daemi` is ignored. */
  lemma RtlRule(p: string, isSuper: bool, isDaemi: bool)
    ensures GetOperator(p, isSuper, isDaemi) == Some(RtlSuper) <==> IsRtlNumber(p) && isSuper
    ensures GetOperator(p, isSuper, isDaemi) == Some(Rtl) <==> IsRtlNumber(p) && !isSuper
  {
  }

  /** A number is rejected exactly when it is in none of the four prefix classes. */
  lemma NotFoundRule(p: string, isSuper: bool, isDaemi: bool)
    ensures GetOperator(p, isSuper, isDaemi) == None
        <==> !IsMtnNumber(p) && !IsMciNumber(p) && !IsWiMaxNumber(p) && !IsRtlNumber(p)
  {
  }

  /** Distinct operators send distinct codes: `data[type]` identifies the operator. */
  lemma CodeInjective(a: Operator, b: Operator)
    requires a.Code() == b.Code()
    ensures a == b
  {
  }

  /** `09123456789` is an MCI number, with or without flags. */
  lemma MciExample(isSuper: bool, isDaemi: bool)
    ensures GetOperator("09123456789", isSuper, isDaemi) == Some(Mci)
  {
    var p := "09123456789";
    forall i | 3 <= i < |p| ensures IsDecimalDigit(p[i]) {
      AsciiDigitIsDecimal(p[i]);
    }
  }

  /** `\d` also accepts non-ASCII digits: a number ending in the Persian digit nine
      (U+06F9) is an MCI number too. */
  lemma PersianDigitExample()
    ensures GetOperator("0912345678\U{06F9}", false, false) == Some(Mci)
  {
    var p := "0912345678\U{06F9}";
    forall i | 3 <= i < |p| ensures IsDecimalDigit(p[i]) {
      if i < 10 {
        AsciiDigitIsDecimal(p[i]);
      } else {
        assert InBlock(p[i] as int, 0x06F0);
      }
    }
  }
}
