/**
 * The rupiah input helpers of the forms: a formatter that prefixes `Rp ` to the locale
 * rendering, and a parser that keeps only the digit characters. The `id-ID` locale
 * rendering is not modelled: it is passed in as a function.
 */
module Currency {
  import opened Wrappers
  import opened Text

  /** The text an input shows for the bare prefix, treated as empty by the parsers. */
  const PREFIX := "Rp "

  /** A formatter's value: `""` for `undefined`, otherwise `Rp ` and the locale rendering. */
  function FormatCurrency<V>(value: Option<V>, locale: V -> string): (t: string)
    ensures value.None? ==> t == ""
    ensures value.Some? ==> |t| >= 3 && t[..3] == PREFIX && t[3..] == locale(value.value)
  {
    if value.None? then "" else PREFIX + locale(value.value)
  }

  /** The detail page's formatter: as `FormatCurrency`, but `Rp 0` for `undefined`. */
  function FormatCurrencyOrZero<V>(value: Option<V>, locale: V -> string): (t: string)
    ensures value.None? ==> t == "Rp 0"
    ensures value.Some? ==> t == FormatCurrency(value, locale)
  {
    if value.None? then "Rp 0" else PREFIX + locale(value.value)
  }

  /** The text the parsers treat as no amount: `undefined`, `""` and the bare prefix. */
  predicate NoAmount(value: Option<string>) {
    value.None? || value.value == "" || value.value == PREFIX
  }

  /**
   * The parser of the quotation and bundle forms: 0 for no amount, otherwise the number
   * spelled by the digit characters, every other character being dropped.
   */
  function ParseCurrency(value: Option<string>): (r: nat)
    ensures NoAmount(value) ==> r == 0
    ensures !NoAmount(value) ==> r == DigitsValue(KeepDigits(value.value))
  {
    if NoAmount(value) then 0 else DigitsValue(KeepDigits(value.value))
  }

  /** The parser of the equipment form: `undefined` for no amount, otherwise as above. */
  function ParseOptionalCurrency(value: Option<string>): (r: Option<nat>)
    ensures r.None? <==> NoAmount(value)
  {
    if NoAmount(value) then None else Some(DigitsValue(KeepDigits(value.value)))
  }

  /** The two parsers agree except that one reports no amount as 0, the other as `undefined`. */
  lemma ParsersAgree(value: Option<string>)
    ensures ParseCurrency(value) == ParseOptionalCurrency(value).GetOr(0)
  {
  }

  /**
   * Whatever separators the locale puts between the digits, parsing what the formatter
   * shows gives the amount back.
   */
  lemma ParseFormatRoundTrip(n: nat, locale: nat -> string)
    requires KeepDigits(locale(n)) == NatText(n)
    ensures ParseCurrency(Some(FormatCurrency(Some(n), locale))) == n
    ensures ParseOptionalCurrency(Some(FormatCurrency(Some(n), locale))) == Some(n)
  {
    var shown := FormatCurrency(Some(n), locale);
    KeepDigitsAppend(PREFIX, locale(n));
    assert KeepDigits(PREFIX) == [] by {
      assert PREFIX == ['R'] + "p ";
      assert "p " == ['p'] + " ";
      assert " "[1..] == [];
    }
    assert KeepDigits(shown) == NatText(n);
    assert shown != "" && shown != PREFIX by {
      assert |locale(n)| >= |NatText(n)| >= 1;
    }
    DigitsValueOfNatText(n);
  }
}
