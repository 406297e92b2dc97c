/** Currency conversion between minor-unit scales (src/core/fx.ts), over exact reals. */
module Fx {
  import opened Prelude

  type RateSource = (string, string) -> Option<real>

  function UpperChar(c: char): char {
    if 'a' <= c <= 'z' then ((c as int) - 32) as char else c
  }

  function Upper(s: string): string {
    seq(|s|, i requires 0 <= i < |s| => UpperChar(s[i]))
  }

  /** Decimals of a currency's minor unit: an operator's table first, then the ISO exceptions. */
  function MinorUnitExponent(currency: string, tokenDecimals: Option<map<string, int>>): int {
    var c := Upper(currency);
    if tokenDecimals.Some? && c in tokenDecimals.value then tokenDecimals.value[c]
    else if c in {"JPY", "KRW", "CLP", "ISK", "VND", "XOF", "XAF", "XPF"} then 0
    else if c in {"BHD", "KWD", "OMR", "TND", "JOD", "IQD", "LYD"} then 3
    else 2
  }

  function TenTo(n: int): real
    decreases if n < 0 then -n else n
  {
    if n == 0 then 1.0 else if n > 0 then 10.0 * TenTo(n - 1) else TenTo(n + 1) / 10.0
  }

  /** How far a conversion shifts the decimal point. */
  function Shift(from: string, to: string, table: Option<map<string, int>>): int {
    MinorUnitExponent(to, table) - MinorUnitExponent(from, table)
  }

  function ConvertMinorCrossDecimal(
    amount: int, rate: real, from: string, to: string, tokenDecimals: Option<map<string, int>>): int
  {
    Round(amount as real * rate * TenTo(Shift(from, to, tokenDecimals)))
  }
}
