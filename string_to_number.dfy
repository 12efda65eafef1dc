/** The two ways the overlay reads numbers from text: `Number(value)` with a
    fallback for `NaN` (`stringToNumber`), and `parseInt(value, 10)`.
    Only integers are modelled; `None` stands for `NaN`. */
module NumberParsing {
  import opened Js
  import opened Strings

  /** `Number(s)` on the integer texts the model covers: the empty text is 0,
      an optionally signed run of digits is its value, anything else `NaN`. */
  function JsNumber(s: string): (r: Option<int>)
    ensures s == "" ==> r == Some(0)
    ensures s != "" ==> r == ParseDecimal(s)
  {
    if s == "" then Some(0) else ParseDecimal(s)
  }

  /** `stringToNumber(value, fallback)`: `Number(value)` unless the value is
      `null` or does not parse, in which case the fallback. */
  function StringToNumber(value: Option<string>, fallback: int): (r: int)
    ensures value.None? ==> r == fallback
    ensures value.Some? && JsNumber(value.value).Some? ==> r == JsNumber(value.value).value
    ensures value.Some? && JsNumber(value.value).None? ==> r == fallback
  {
    var number := fallback;
    if value.Some? then
      var parsed := JsNumber(value.value);
      if parsed.None? then fallback else parsed.value
    else number
  }

  /** The text of an integer reads back as that integer, whatever the
      fallback. */
  lemma StringToNumberOfText(i: int, fallback: int)
    ensures StringToNumber(Some(IntToString(i)), fallback) == i
  {
    ParseIntToString(i);
  }

  /** The empty text is 0, not the fallback; a text that is not a number is
      the fallback. */
  lemma EmptyIsZero(fallback: int)
    ensures StringToNumber(Some(""), fallback) == 0
    ensures StringToNumber(Some("abc"), fallback) == fallback
  {
  }

  // ---------------------------------------------------------------------
  // parseInt(s, 10)

  /** The longest run of digits at the start of `s`. */
  function DigitPrefix(s: string): (d: string)
    ensures d <= s && AllDigits(d)
    ensures |d| < |s| ==> !IsDigit(s[|d|])
    decreases |s|
  {
    if |s| > 0 && IsDigit(s[0]) then [s[0]] + DigitPrefix(s[1..]) else []
  }

  /** `parseInt(s, 10)`: leading white space, an optional sign, then as many
      digits as there are; `NaN` when there is no digit. */
  function ParseInt(s: string): (r: Option<int>)
  {
    var t := TrimStart(s);
    var negative := |t| > 0 && t[0] == '-';
    var unsigned := if |t| > 0 && (t[0] == '-' || t[0] == '+') then t[1..] else t;
    var digits := DigitPrefix(unsigned);
    if |digits| == 0 then None
    else if negative then Some(-(DigitsValue(digits) as int))
    else Some(DigitsValue(digits))
  }

  lemma {:induction false} DigitPrefixOfDigits(s: string)
    requires AllDigits(s)
    ensures DigitPrefix(s) == s
    decreases |s|
  {
    if |s| > 0 {
      DigitPrefixOfDigits(s[1..]);
      assert s == [s[0]] + s[1..];
    }
  }

  /** On decimal integer text `parseInt` and `Number` agree. */
  lemma ParseIntAgreesWithNumber(s: string)
    requires ParseDecimal(s).Some?
    ensures ParseInt(s) == ParseDecimal(s)
  {
    var unsigned := if s[0] == '-' || s[0] == '+' then s[1..] else s;
    assert AllDigits(unsigned) && |unsigned| > 0;
    TrimStartUnchanged(s);
    DigitPrefixOfDigits(unsigned);
  }

  /** Text that does not start with white space is left as it is by
      `TrimStart`. */
  lemma TrimStartUnchanged(s: string)
    requires |s| > 0 && (IsDigit(s[0]) || s[0] == '-' || s[0] == '+')
    ensures TrimStart(s) == s
  {
    assert !IsSpace(s[0]);
  }

  /** `parseInt` reads the digits in front of a unit, where `Number` gives
      `NaN`. */
  lemma ParseIntStopsAtNonDigit()
    ensures ParseInt("12px") == Some(12)
    ensures JsNumber("12px") == None
  {
    var s := "12px";
    assert !IsSpace(s[0]);
    assert TrimStart(s) == s;
    assert DigitPrefix(s) == "12" by {
      assert s[1..] == "2px" && "2px"[1..] == "px";
      assert DigitPrefix("px") == "";
    }
    assert DigitsValue("12") == 12 by {
      assert "12"[..1] == "1";
    }
    assert !IsDigit(s[2]);
    assert !IsDigit(s[1..][1]);
  }

  /** Text without a leading digit is `NaN` for `parseInt`. */
  lemma ParseIntWithoutDigits()
    ensures ParseInt("px") == None
  {
    assert !IsSpace("px"[0]);
    assert TrimStart("px") == "px";
  }
}
