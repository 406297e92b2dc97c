/** A conversion in major units, with the decimals of both currencies (src/core/fx.ts:38-88). */
module FxMeaning {
  import opened Prelude
  import opened Fx
  import opened FxLaws

  /** Currencies without a minor unit, and those with a thousandth. */
  const WHOLE: seq<string> := ["JPY", "KRW", "CLP", "ISK", "VND", "XOF", "XAF", "XPF"]
  const THOUSANDTHS: seq<string> := ["BHD", "KWD", "OMR", "TND", "JOD", "IQD", "LYD"]

  /** The code with its small letters as capitals. */
  predicate IsUpper(code: string, s: string) {
    && |code| == |s|
    && forall i :: 0 <= i < |s| ==>
         code[i] as int == if 97 <= s[i] as int <= 122 then s[i] as int - 32 else s[i] as int
  }

  /** The operator's table comes first, whatever the standard says; a currency in neither has
   *  hundredths. */
  lemma DecimalsMean(currency: string, code: string, table: Option<map<string, int>>)
    requires IsUpper(code, currency)
    ensures MinorUnitExponent(currency, table) ==
            if table.Some? && code in table.value then table.value[code]
            else if code in WHOLE then 0
            else if code in THOUSANDTHS then 3
            else 2
  {
    assert Upper(currency) == code;
  }

  /** 10^n. */
  lemma TenToMeans(n: int)
    ensures TenTo(0) == 1.0 && TenTo(n + 1) == 10.0 * TenTo(n) && TenTo(n) > 0.0
  {
    TenToPositive(n);
    TenToPositive(n + 1);
  }

  lemma OverTen(a: int, b: int)
    ensures TenTo(b) > 0.0 && TenTo(a - b) == TenTo(a) / TenTo(b)
  {
    TenToPositive(b);
    TenToSum(a - b, b);
    assert (a - b) + b == a;
    hide TenTo;
  }

  /** An amount of minor units of one size, at a rate, in minor units of another size. */
  function Worth(amount: int, perMajor: real, rate: real, perMajorThere: real): real
    requires perMajor > 0.0
  {
    amount as real / perMajor * rate * perMajorThere
  }

  lemma Rescale(amount: int, rate: real, up: real, down: real, ratio: real) returns (x: real)
    requires down > 0.0 && ratio == up / down
    ensures x == amount as real * rate * ratio && x == Worth(amount, down, rate, up)
  {
    x := amount as real * rate * ratio;
    assert ratio * down == up;
    var major := amount as real / down;
    assert major * down == amount as real;
    assert amount as real * rate * ratio == (major * down) * rate * ratio;
    Regrouped(major, down, rate, ratio);
  }

  lemma Regrouped(a: real, b: real, c: real, d: real)
    ensures (a * b) * c * d == a * c * (d * b)
  {
  }

  lemma Converted(amount: int, rate: real, from: string, to: string, table: Option<map<string, int>>, x: real)
    requires x == amount as real * rate * TenTo(Shift(from, to, table))
    ensures ConvertMinorCrossDecimal(amount, rate, from, to, table) == Round(x)
  {
    hide TenTo, Shift;
  }

  /** CONVERSION. The amount in major units, at the rate, in minor units of the other currency,
   *  to the nearest one. */
  lemma ConversionMeans(amount: int, rate: real, from: string, to: string, table: Option<map<string, int>>)
    ensures TenTo(MinorUnitExponent(from, table)) > 0.0
    ensures ConvertMinorCrossDecimal(amount, rate, from, to, table) ==
            Round(Worth(amount, TenTo(MinorUnitExponent(from, table)), rate, TenTo(MinorUnitExponent(to, table))))
  {
    var a, b := MinorUnitExponent(to, table), MinorUnitExponent(from, table);
    hide TenTo, MinorUnitExponent, Round, Worth, ConvertMinorCrossDecimal;
    OverTen(a, b);
    assert Shift(from, to, table) == a - b;
    var x := Rescale(amount, rate, TenTo(a), TenTo(b), TenTo(Shift(from, to, table)));
    Converted(amount, rate, from, to, table, x);
  }
}
