/** Bytes, hex text and 32-byte ABI words (src/erc7710/index.ts). */
module AbiBytes {
  import opened Prelude
  import Gate

  type byte = x: int | 0 <= x < 256

  // --- hex digits, as JavaScript's parseInt(pair, 16) reads them ---

  function DigitOf(c: char): Option<nat> {
    if '0' <= c <= '9' then Some(c as int - '0' as int)
    else if 'a' <= c <= 'f' then Some(c as int - 'a' as int + 10)
    else if 'A' <= c <= 'F' then Some(c as int - 'A' as int + 10)
    else None
  }

  /** Two characters, as stored in a byte: parseInt accepts a digit followed by junk, a
   *  leading space and a sign, and only an unreadable start is an error. */
  function ParsePair(c: char, d: char): Option<byte> {
    match (DigitOf(c), DigitOf(d))
    case (Some(x), Some(y)) => Some(16 * x + y)
    case (Some(x), None) => if c == '0' && (d == 'x' || d == 'X') then None else Some(x)
    case (None, Some(y)) =>
      if Gate.IsSpace(c) || c == '+' then Some(y)
      else if c == '-' then Some((256 - y) % 256)
      else None
    case (None, None) => None
  }

  /** The bytes of an even number of characters. */
  function PairBytes(h: string): Option<seq<byte>>
    requires |h| % 2 == 0
  {
    if h == "" then Some([])
    else
      match (PairBytes(h[..|h| - 2]), ParsePair(h[|h| - 2], h[|h| - 1]))
      case (Some(bs), Some(b)) => Some(bs + [b])
      case _ => None
  }

  function Even(h: string): string {
    if |h| % 2 == 0 then h else "0" + h
  }

  function Unprefixed(hex: string): string {
    if |hex| >= 2 && hex[..2] == "0x" then hex[2..] else hex
  }

  function HexToBytes(hex: string): Option<seq<byte>> {
    PairBytes(Even(Unprefixed(hex)))
  }

  function LowerDigit(n: nat): char
    requires n < 16
  {
    "0123456789abcdef"[n]
  }

  function ByteText(b: byte): string {
    [LowerDigit(b / 16), LowerDigit(b % 16)]
  }

  function HexDigits(bs: seq<byte>): (h: string)
    ensures |h| == 2 * |bs|
  {
    if bs == [] then "" else HexDigits(bs[..|bs| - 1]) + ByteText(bs[|bs| - 1])
  }

  function BytesToHex(bs: seq<byte>): string {
    "0x" + HexDigits(bs)
  }

  // --- numbers ---

  /** Big-endian. */
  function BytesValue(bs: seq<byte>): nat {
    if bs == [] then 0 else 256 * BytesValue(bs[..|bs| - 1]) + bs[|bs| - 1]
  }

  /** v.toString(16). */
  function HexText(v: nat): string {
    if v < 16 then [LowerDigit(v)] else HexText(v / 16) + [LowerDigit(v % 16)]
  }

  function Zeros(n: nat): (bs: seq<byte>)
    ensures |bs| == n
  {
    if n == 0 then [] else Zeros(n - 1) + [0]
  }

  /** Left-padded to 32 bytes; None for what does not fit. */
  function Padded(bs: seq<byte>): Option<seq<byte>> {
    if |bs| > 32 then None else Some(Zeros(32 - |bs|) + bs)
  }

  function NumberWord(v: int): Option<seq<byte>> {
    if v < 0 then None
    else
      match if v == 0 then Some([]) else HexToBytes(Even(HexText(v)))
      case None => None
      case Some(bs) => Padded(bs)
  }

  function NormalizeAddress(a: string): Option<string> {
    match HexToBytes(a)
    case None => None
    case Some(bs) => if |bs| != 20 then None else Some(BytesToHex(bs))
  }

  function Lower(s: string): string {
    if s == "" then ""
    else
      var c := s[|s| - 1];
      Lower(s[..|s| - 1]) + [if 'A' <= c <= 'Z' then (c as int + 32) as char else c]
  }

  // --- the loops ---

  /** Decode into a buffer, a pair at a time. */
  method DecodeHex(hex: string) returns (out: array?<byte>)
    ensures out == null <==> HexToBytes(hex).None?
    ensures out != null ==> fresh(out) && HexToBytes(hex) == Some(out[..])
  {
    var h := Unprefixed(hex);
    if |h| % 2 != 0 {
      h := "0" + h;
    }
    var buffer := new byte[|h| / 2];
    for i := 0 to |h| / 2
      invariant PairBytes(h[..2 * i]) == Some(buffer[..i])
    {
      hide ParsePair, PairBytes;
      var b := ParsePair(h[2 * i], h[2 * i + 1]);
      NextPair(h, i);
      if b.None? {
        NoBytesAfter(h, 2 * (i + 1));
        return null;
      }
      ghost var before := buffer[..i];
      buffer[i] := b.value;
      assert buffer[..i + 1] == before + [b.value];
    }
    assert h[..2 * (|h| / 2)] == h;
    assert buffer[..] == buffer[..|h| / 2];
    out := buffer;
  }

  lemma NextPair(h: string, i: nat)
    requires 2 * i + 1 < |h|
    ensures PairBytes(h[..2 * (i + 1)])
         == match (PairBytes(h[..2 * i]), ParsePair(h[2 * i], h[2 * i + 1])) {
              case (Some(bs), Some(b)) => Some(bs + [b])
              case _ => None
            }
  {
    var longer := h[..2 * (i + 1)];
    assert longer[..|longer| - 2] == h[..2 * i];
  }

  lemma {:induction false} NoBytesAfter(h: string, n: nat)
    requires |h| % 2 == 0 && n % 2 == 0 && n <= |h| && PairBytes(h[..n]).None?
    ensures PairBytes(h).None?
    decreases |h|
  {
    if n < |h| {
      assert h[..|h| - 2][..n] == h[..n];
      NoBytesAfter(h[..|h| - 2], n);
    } else {
      assert h[..n] == h;
    }
  }

  method EncodeHex(bs: seq<byte>) returns (hex: string)
    ensures hex == BytesToHex(bs)
  {
    var s := "";
    for i := 0 to |bs|
      invariant s == HexDigits(bs[..i])
    {
      assert bs[..i + 1][..i] == bs[..i];
      s := s + ByteText(bs[i]);
    }
    assert bs[..|bs|] == bs;
    hex := "0x" + s;
  }

  method BytesToBigint(bs: seq<byte>) returns (v: nat)
    ensures v == BytesValue(bs)
  {
    v := 0;
    for i := 0 to |bs|
      invariant v == BytesValue(bs[..i])
    {
      assert bs[..i + 1][..i] == bs[..i];
      v := 256 * v + bs[i];
    }
    assert bs[..|bs|] == bs;
  }

  // --- laws ---

  lemma PairReads(b: byte)
    ensures ParsePair(LowerDigit(b / 16), LowerDigit(b % 16)) == Some(b)
  {
    DigitReads(b / 16);
    DigitReads(b % 16);
  }

  lemma DigitReads(n: nat)
    requires n < 16
    ensures DigitOf(LowerDigit(n)) == Some(n)
  {
  }

  lemma {:induction false} DigitsDecode(bs: seq<byte>)
    ensures PairBytes(HexDigits(bs)) == Some(bs)
  {
    if bs != [] {
      var n := |bs| - 1;
      DigitsDecode(bs[..n]);
      var h := HexDigits(bs);
      assert h[..|h| - 2] == HexDigits(bs[..n]);
      assert h[|h| - 2] == LowerDigit(bs[n] / 16) && h[|h| - 1] == LowerDigit(bs[n] % 16);
      PairReads(bs[n]);
      assert bs == bs[..n] + [bs[n]];
    }
  }

  lemma PrefixDrops(h: string)
    ensures Unprefixed("0x" + h) == h
  {
    assert ("0x" + h)[..2] == "0x" && ("0x" + h)[2..] == h;
  }

  /** Hex text carries its bytes exactly. */
  lemma HexRoundTrip(bs: seq<byte>)
    ensures HexToBytes(BytesToHex(bs)) == Some(bs)
  {
    hide HexDigits, PairBytes, Unprefixed;
    DigitsDecode(bs);
    PrefixDrops(HexDigits(bs));
  }

  lemma NormalizedAddress(a: string)
    requires NormalizeAddress(a).Some?
    ensures NormalizeAddress(NormalizeAddress(a).value) == NormalizeAddress(a)
    ensures HexToBytes(NormalizeAddress(a).value) == HexToBytes(a)
    ensures Lower(NormalizeAddress(a).value) == NormalizeAddress(a).value
  {
    var bs := HexToBytes(a).value;
    HexRoundTrip(bs);
    LowerHex(bs);
  }

  lemma {:induction false} LowerConcat(s: string, t: string)
    ensures Lower(s + t) == Lower(s) + Lower(t)
  {
    if t == "" {
      assert s + t == s;
    } else {
      LowerConcat(s, t[..|t| - 1]);
      assert (s + t)[..|s + t| - 1] == s + t[..|t| - 1];
    }
  }

  lemma LowerByte(b: byte)
    ensures Lower(ByteText(b)) == ByteText(b)
  {
    LowerDigitIsLower(b / 16);
    LowerDigitIsLower(b % 16);
    LowerConcat([LowerDigit(b / 16)], [LowerDigit(b % 16)]);
    assert ByteText(b) == [LowerDigit(b / 16)] + [LowerDigit(b % 16)];
  }

  lemma LowerDigitIsLower(n: nat)
    requires n < 16
    ensures Lower([LowerDigit(n)]) == [LowerDigit(n)]
  {
    assert [LowerDigit(n)][..0] == "";
  }

  lemma {:induction false} LowerDigits(bs: seq<byte>)
    ensures Lower(HexDigits(bs)) == HexDigits(bs)
  {
    if bs != [] {
      LowerDigits(bs[..|bs| - 1]);
      LowerByte(bs[|bs| - 1]);
      LowerConcat(HexDigits(bs[..|bs| - 1]), ByteText(bs[|bs| - 1]));
    }
  }

  lemma LowerHex(bs: seq<byte>)
    ensures Lower(BytesToHex(bs)) == BytesToHex(bs)
  {
    LowerConcat("0x", HexDigits(bs));
    LowerConcat("0", "x");
    assert "0" + "x" == "0x" && "0"[..0] == "" && "x"[..0] == "";
    LowerDigits(bs);
  }

  function HexValue(h: string): nat {
    if h == "" then 0 else 16 * HexValue(h[..|h| - 1]) + DigitOf(h[|h| - 1]).GetOr(0)
  }

  predicate AllHex(h: string) {
    forall i :: 0 <= i < |h| ==> DigitOf(h[i]).Some?
  }

  lemma {:induction false} HexTextValue(v: nat)
    ensures HexText(v) != "" && AllHex(HexText(v)) && HexValue(HexText(v)) == v
  {
    DigitReads(v % 16);
    if v >= 16 {
      HexTextValue(v / 16);
      assert HexText(v)[..|HexText(v)| - 1] == HexText(v / 16);
    } else {
      assert HexText(v)[..0] == "";
    }
  }

  lemma {:induction false} LeadingZero(h: string)
    ensures HexValue("0" + h) == HexValue(h)
  {
    if h == "" {
      assert ("0" + h)[..0] == "";
    } else {
      LeadingZero(h[..|h| - 1]);
      assert ("0" + h)[..|h|] == "0" + h[..|h| - 1];
    }
  }

  lemma {:induction false} PairBytesValue(h: string)
    requires |h| % 2 == 0 && AllHex(h)
    ensures PairBytes(h).Some? && |PairBytes(h).value| == |h| / 2 && BytesValue(PairBytes(h).value) == HexValue(h)
  {
    if h != "" {
      var front := h[..|h| - 2];
      PairBytesValue(front);
      assert h[..|h| - 1][..|h| - 2] == front;
      assert PairBytes(h).value[..|front| / 2] == PairBytes(front).value;
    }
  }

  lemma {:induction false} PaddingKeepsValue(n: nat, bs: seq<byte>)
    ensures BytesValue(Zeros(n) + bs) == BytesValue(bs)
  {
    if bs != [] {
      PaddingKeepsValue(n, bs[..|bs| - 1]);
      assert (Zeros(n) + bs)[..n + |bs| - 1] == Zeros(n) + bs[..|bs| - 1];
    } else if n > 0 {
      PaddingKeepsValue(n - 1, []);
      assert Zeros(n) + [] == Zeros(n);
      assert Zeros(n)[..n - 1] == Zeros(n - 1) == Zeros(n - 1) + [];
    }
  }

  lemma {:induction false} EvenHex(h: string)
    requires AllHex(h)
    ensures AllHex(Even(h)) && HexValue(Even(h)) == HexValue(h) && |Even(h)| == (|h| + 1) / 2 * 2
  {
    LeadingZero(h);
    assert DigitOf('0').Some?;
    hide HexValue, DigitOf;
    assert |h| % 2 != 0 ==> forall i :: 0 < i <= |h| ==> ("0" + h)[i] == h[i - 1];
  }

  /** The digits of a number decode to bytes of the same value. */
  lemma TextBytes(v: nat) returns (bs: seq<byte>)
    ensures HexToBytes(Even(HexText(v))) == Some(bs)
    ensures BytesValue(bs) == v && |bs| == (|HexText(v)| + 1) / 2
  {
    hide PairBytes, HexText, HexValue, BytesValue, AllHex;
    var h := HexText(v);
    HexTextValue(v);
    EvenHex(h);
    NoPrefix(Even(h));
    PairBytesValue(Even(h));
    bs := PairBytes(Even(h)).value;
  }

  /** A word holds the number it was made from. */
  lemma WordValue(v: int)
    requires NumberWord(v).Some?
    ensures v >= 0 && |NumberWord(v).value| == 32 && BytesValue(NumberWord(v).value) == v
  {
    hide HexToBytes, BytesValue, Zeros, HexText;
    if v == 0 {
      PaddingKeepsValue(32, []);
      NoBytes();
    } else {
      var bs := TextBytes(v);
      PaddingKeepsValue(32 - |bs|, bs);
    }
  }

  lemma NoBytes()
    ensures BytesValue([]) == 0
  {
  }

  lemma NoPrefix(h: string)
    requires AllHex(h)
    ensures Unprefixed(h) == h
  {
    if |h| >= 2 {
      assert h[..2][1] == h[1];
      assert DigitOf('x').None?;
    }
  }

  function Pow256(n: nat): nat {
    if n == 0 then 1 else 256 * Pow256(n - 1)
  }

  lemma {:induction false} ValueBelow(bs: seq<byte>)
    ensures BytesValue(bs) < Pow256(|bs|)
  {
    if bs != [] {
      ValueBelow(bs[..|bs| - 1]);
    }
  }

  lemma Shift(x: nat, p: nat, y: nat, d: nat)
    ensures 256 * (x * p + y) + d == x * (256 * p) + (256 * y + d)
  {
    assert 256 * (x * p) == x * (256 * p);
  }

  lemma {:induction false} ValueConcat(a: seq<byte>, b: seq<byte>)
    ensures BytesValue(a + b) == BytesValue(a) * Pow256(|b|) + BytesValue(b)
  {
    if b == [] {
      assert a + b == a;
    } else {
      var n := |b| - 1;
      ValueConcat(a, b[..n]);
      assert (a + b)[..|a + b| - 1] == a + b[..n];
      assert BytesValue(a + b) == 256 * BytesValue(a + b[..n]) + b[n];
      assert BytesValue(b) == 256 * BytesValue(b[..n]) + b[n];
      assert Pow256(|b|) == 256 * Pow256(n);
      hide BytesValue, Pow256;
      Shift(BytesValue(a), Pow256(n), BytesValue(b[..n]), b[n]);
    }
  }

  /** The low bytes of a word hold a number that fits in them. */
  lemma LowBytes(bs: seq<byte>, n: nat)
    requires n <= |bs| && BytesValue(bs) < Pow256(n)
    ensures BytesValue(bs[|bs| - n..]) == BytesValue(bs)
  {
    hide BytesValue, Pow256;
    var a, b := bs[..|bs| - n], bs[|bs| - n..];
    assert bs == a + b;
    ValueConcat(a, b);
    NoMultiple(BytesValue(a), Pow256(n), BytesValue(b));
  }

  lemma NoMultiple(x: nat, p: nat, y: nat)
    requires x * p + y < p
    ensures x * p + y == y
  {
    assert x == 0 || x * p >= p;
  }

  lemma {:induction false} HexTextLength(v: nat, k: nat)
    requires k > 0
    ensures |HexText(v)| <= 2 * k <==> v < Pow256(k)
    decreases k
  {
    if v < 256 {
      assert v >= 16 ==> |HexText(v / 16)| == 1;
      PowGrows(k);
    } else {
      assert |HexText(v)| == |HexText(v / 16)| + 1 == |HexText(v / 16 / 16)| + 2;
      assert v / 16 / 16 == v / 256;
      if k > 1 {
        HexTextLength(v / 256, k - 1);
        assert v / 256 < Pow256(k - 1) <==> v < 256 * Pow256(k - 1);
      } else {
        assert Pow256(1) == 256 * Pow256(0) == 256;
      }
    }
  }

  lemma {:induction false} PowGrows(k: nat)
    requires k > 0
    ensures Pow256(k) >= 256
  {
    if k > 1 {
      PowGrows(k - 1);
    }
  }

  /** Exactly the numbers below 2^256 have a word. */
  lemma WordFits(v: int)
    ensures NumberWord(v).Some? <==> 0 <= v < Pow256(32)
  {
    hide HexToBytes, BytesValue, Zeros, HexText, Pow256;
    PowGrows(32);
    if v > 0 {
      var bs := TextBytes(v);
      HexTextLength(v, 32);
    }
  }
}
