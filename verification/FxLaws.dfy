/** When a decimals table changes a conversion. */
module FxLaws {
  import opened Prelude
  import opened Fx

  lemma TenToStep(n: int)
    ensures TenTo(n) == 10.0 * TenTo(n - 1)
  {
  }

  lemma {:induction false} TenToPositive(n: int)
    ensures TenTo(n) > 0.0
    decreases if n < 0 then -n else n
  {
    if n != 0 {
      TenToPositive(if n > 0 then n - 1 else n + 1);
    }
  }

  /** Ten times one factor is ten times the product. */
  lemma TimesTen(x: real, y: real, z: real, x': real, z': real)
    requires x' == 10.0 * x && z' == 10.0 * z
    ensures z == x * y <==> z' == x' * y
  {
    assert x' * y == 10.0 * (x * y);
  }

  /** The law of exponents for one pair. */
  predicate Adds(a: int, b: int) {
    TenTo(a + b) == TenTo(a) * TenTo(b)
  }

  /** One step of the exponent on the left is one on the right. */
  lemma AddsStep(a: int, b: int)
    ensures Adds(a, b) <==> Adds(a - 1, b)
  {
    TenToStep(a);
    TenToStep(a + b);
    hide TenTo;
    TimesTen(TenTo(a - 1), TenTo(b), TenTo(a - 1 + b), TenTo(a), TenTo(a + b));
  }

  lemma AddsZero(b: int)
    ensures Adds(0, b)
  {
    assert TenTo(0) == 1.0;
  }

  lemma {:induction false} TenToSum(a: int, b: int)
    ensures Adds(a, b)
    decreases if a < 0 then -a else a
  {
    hide Adds;
    if a > 0 {
      AddsStep(a, b);
      TenToSum(a - 1, b);
    } else if a < 0 {
      AddsStep(a + 1, b);
      TenToSum(a + 1, b);
    } else {
      AddsZero(b);
    }
  }

  lemma {:induction false} TenToGrows(n: nat)
    requires n > 0
    ensures TenTo(n) >= 10.0
  {
    if n > 1 {
      TenToGrows(n - 1);
    }
  }

  lemma Small(q: real, big: real)
    requires q > 0.0 && big >= 10.0 && q * big == 1.0
    ensures q <= 0.1
  {
    assert q * big >= q * 10.0;
  }

  /** No power of ten but the first is near one. */
  lemma FarFromOne(n: int)
    requires n != 0
    ensures Round(TenTo(n)) != 1
  {
    if n > 0 {
      TenToGrows(n);
    } else {
      TenToGrows(-n);
      TenToPositive(n);
      TenToSum(n, -n);
      assert TenTo(n + -n) == 1.0;
      hide TenTo;
      Small(TenTo(n), TenTo(-n));
    }
  }

  lemma ReciprocalOf(y: real, q: real, t: real) returns (r: real)
    requires y > 0.0 && t == y * q
    ensures r > 0.0 && r * t == q && r * y == 1.0
  {
    r := 1.0 / y;
    assert r * y == 1.0;
    assert r * (y * q) == (r * y) * q;
  }

  /** One minor unit, at the rate that makes it one minor unit at one shift, is something else
   *  at any other. */
  lemma ShiftShows(a: int, b: int) returns (rate: real, x: real, y: real)
    requires a != b
    ensures rate > 0.0 && x == rate * TenTo(a) && y == rate * TenTo(b)
    ensures Round(x) != 1 && Round(y) == 1
  {
    hide TenTo;
    TenToPositive(b);
    TenToSum(b, a - b);
    FarFromOne(a - b);
    assert b + (a - b) == a;
    rate := ReciprocalOf(TenTo(b), TenTo(a - b), TenTo(a));
    x, y := TenTo(a - b), 1.0;
  }

  lemma OneMinorUnit(rate: real, scaled: real, from: string, to: string, table: Option<map<string, int>>)
    requires scaled == rate * TenTo(Shift(from, to, table))
    ensures ConvertMinorCrossDecimal(1, rate, from, to, table) == Round(scaled)
  {
    hide TenTo, Shift;
    var x := 1 as real * rate * TenTo(Shift(from, to, table));
    assert 1 as real * rate == rate;
    assert x == scaled;
    assert ConvertMinorCrossDecimal(1, rate, from, to, table) == Round(x);
  }

  lemma SameShiftSameConversion(amount: int, rate: real, from: string, to: string, table: Option<map<string, int>>)
    requires Shift(from, to, table) == Shift(from, to, None)
    ensures ConvertMinorCrossDecimal(amount, rate, from, to, table) == ConvertMinorCrossDecimal(amount, rate, from, to, None)
  {
    hide TenTo, Shift;
  }

  /** A table leaves every conversion between two currencies alone if and only if it shifts the
   *  decimal point as the standard exponents do. */
  lemma ConversionsAgreeIff(from: string, to: string, table: Option<map<string, int>>)
    ensures (forall amount, rate :: amount > 0 && rate > 0.0 ==>
               ConvertMinorCrossDecimal(amount, rate, from, to, table) == ConvertMinorCrossDecimal(amount, rate, from, to, None))
            <==> Shift(from, to, table) == Shift(from, to, None)
  {
    hide ConvertMinorCrossDecimal, Shift, TenTo, Round;
    if Shift(from, to, table) != Shift(from, to, None) {
      var rate, x, y := ShiftShows(Shift(from, to, table), Shift(from, to, None));
      OneMinorUnit(rate, x, from, to, table);
      OneMinorUnit(rate, y, from, to, None);
      assert ConvertMinorCrossDecimal(1, rate, from, to, None) == 1;
      assert ConvertMinorCrossDecimal(1, rate, from, to, table) != 1;
    } else {
      forall amount, rate | amount > 0 && rate > 0.0
        ensures ConvertMinorCrossDecimal(amount, rate, from, to, table) == ConvertMinorCrossDecimal(amount, rate, from, to, None)
      {
        SameShiftSameConversion(amount, rate, from, to, table);
      }
    }
  }
}
