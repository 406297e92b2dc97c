/** How hex text is read and addresses are written (src/erc7710/index.ts:98-128). */
module AbiMeaning {
  import opened Prelude
  import opened AbiBytes
  import Gate

  /** The value of a hexadecimal digit in either case. */
  predicate IsHexOf(c: char, v: int) {
    || ('0' <= c <= '9' && v == c as int - 48)
    || ('a' <= c <= 'f' && v == c as int - 87)
    || ('A' <= c <= 'F' && v == c as int - 55)
  }

  predicate IsHexDigit(c: char) {
    '0' <= c <= '9' || 'a' <= c <= 'f' || 'A' <= c <= 'F'
  }

  /** Two digits are a byte. A single one is read with junk after it, unless the two are the
   *  start of a prefix, and after a space or a sign; a negative one wraps around. */
  lemma PairMeans(c: char, d: char, x: int, y: int)
    ensures IsHexOf(c, x) && IsHexOf(d, y) ==> ParsePair(c, d) == Some(16 * x + y)
    ensures IsHexOf(c, x) && !IsHexDigit(d) ==> ParsePair(c, d) == if c == '0' && (d == 'x' || d == 'X') then None else Some(x)
    ensures (Gate.IsSpace(c) || c == '+') && IsHexOf(d, y) ==> ParsePair(c, d) == Some(y)
    ensures c == '-' && IsHexOf(d, y) ==> ParsePair(c, d) == Some(if y == 0 then 0 else 256 - y)
    ensures !IsHexDigit(c) && !(IsHexDigit(d) && (Gate.IsSpace(c) || c == '+' || c == '-')) ==> ParsePair(c, d) == None
  {
  }

  function LowerHex(c: char): char {
    if 'A' <= c <= 'F' then (c as int + 32) as char else c
  }

  lemma DigitBack(c: char, v: nat)
    requires IsHexOf(c, v) && v < 16
    ensures LowerDigit(v) == LowerHex(c)
  {
    assert LowerDigit(v) as int == if v < 10 then 48 + v else 87 + v;
    assert LowerHex(c) as int == if v < 10 then 48 + v else 87 + v;
    assert LowerDigit(v) == (LowerDigit(v) as int) as char && LowerHex(c) == (LowerHex(c) as int) as char;
  }

  function ValueOf(c: char): (v: nat)
    requires IsHexDigit(c)
    ensures v < 16 && IsHexOf(c, v)
  {
    if c <= '9' then c as int - 48 else if c >= 'a' then c as int - 87 else c as int - 55
  }

  lemma PairBack(c: char, d: char)
    requires IsHexDigit(c) && IsHexDigit(d)
    ensures ParsePair(c, d).Some? && ByteText(ParsePair(c, d).value) == [LowerHex(c), LowerHex(d)]
  {
    hide ParsePair, LowerDigit, LowerHex, IsHexDigit, IsHexOf;
    var x, y := ValueOf(c), ValueOf(d);
    PairMeans(c, d, x, y);
    DigitBack(c, x);
    DigitBack(d, y);
    assert (16 * x + y) / 16 == x && (16 * x + y) % 16 == y;
  }

  /** Reading hex digits and writing them again lowers their case and changes nothing else. */
  lemma {:induction false} HexBack(h: string)
    requires |h| % 2 == 0 && forall i :: 0 <= i < |h| ==> IsHexDigit(h[i])
    ensures PairBytes(h).Some? && |PairBytes(h).value| == |h| / 2
    ensures var back := HexDigits(PairBytes(h).value); |back| == |h| && forall i :: 0 <= i < |h| ==> back[i] == LowerHex(h[i])
  {
    hide ParsePair, ByteText, IsHexDigit, LowerHex;
    if h != "" {
      var n := |h| - 2;
      HexBack(h[..n]);
      PairBack(h[n], h[n + 1]);
      var before := PairBytes(h[..n]).value;
      var b := ParsePair(h[n], h[n + 1]).value;
      assert PairBytes(h) == Some(before + [b]);
      assert (before + [b])[..|before|] == before;
    }
  }

  /** ADDRESSES. Forty hex digits after the prefix, in any case, are an address, and its normal
   *  form has them in lower case; other than twenty bytes are none. */
  lemma AddressMeans(a: string)
    ensures (|a| == 42 && a[..2] == "0x" && forall i :: 2 <= i < 42 ==> IsHexDigit(a[i])) ==>
              && NormalizeAddress(a).Some?
              && var n := NormalizeAddress(a).value;
                 |n| == 42 && n[..2] == "0x" && forall i :: 2 <= i < 42 ==> n[i] == LowerHex(a[i])
    ensures NormalizeAddress(a).Some? <==> HexToBytes(a).Some? && |HexToBytes(a).value| == 20
  {
    hide LowerHex, IsHexDigit, PairBytes, HexDigits;
    if |a| == 42 && a[..2] == "0x" && forall i :: 2 <= i < 42 ==> IsHexDigit(a[i]) {
      HexBack(a[2..]);
      assert Even(Unprefixed(a)) == a[2..];
    }
  }

  /** Lower case, letter by letter. */
  lemma {:induction false} LowerMeans(s: string)
    ensures |Lower(s)| == |s|
    ensures forall i :: 0 <= i < |s| ==> Lower(s)[i] as int == if 65 <= s[i] as int <= 90 then s[i] as int + 32 else s[i] as int
  {
    if s != "" {
      LowerMeans(s[..|s| - 1]);
    }
  }
}
