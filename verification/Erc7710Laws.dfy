/** A mandate sent out as a delegation comes back with its bounds, and a redemption is
 *  judged as if under the mandate itself. */
module Erc7710Laws {
  import opened Prelude
  import opened Types
  import opened AbiBytes
  import opened Erc7710
  import Gate

  // --- terms ---

  lemma AddressLength(a: string)
    requires AddressBytes(a).Some?
    ensures |AddressBytes(a).value| == 20
    ensures BytesToHex(AddressBytes(a).value) == NormalizeAddress(a).value
  {
    NormalizedAddress(a);
  }

  lemma {:induction false} PowMonotone(m: nat, n: nat)
    requires m <= n
    ensures Pow256(m) <= Pow256(n)
    decreases n
  {
    if m < n {
      PowMonotone(m, n - 1);
    }
  }

  lemma DatesFit(seconds: int)
    requires 0 <= seconds <= LAST_DATE / 1000
    ensures seconds < Pow256(16) && ToNumber(seconds) == seconds
  {
    assert Pow256(1) == 256;
    assert Pow256(2) == 0x1_0000;
    assert Pow256(3) == 0x100_0000;
    assert Pow256(4) == 0x1_0000_0000;
    assert Pow256(5) == 0x100_0000_0000;
    assert Pow256(6) == 0x1_0000_0000_0000;
    PowMonotone(6, 16);
  }

  lemma TimestampSurvives(seconds: int)
    requires TimestampTerms(seconds, 0).Some? && seconds <= LAST_DATE / 1000
    ensures DecodeTimestamp(BytesToHex(TimestampTerms(seconds, 0).value)) == Some(seconds)
  {
    hide NumberWord, HexToBytes, BytesToHex, BytesValue, ToNumber, Pow256;
    var terms := TimestampTerms(seconds, 0).value;
    var after, before := NumberWord(0).value, NumberWord(seconds).value;
    WordValue(0);
    WordValue(seconds);
    HexRoundTrip(terms);
    DatesFit(seconds);
    assert terms == after[16..] + before[16..];
    assert terms[16..] == before[16..];
    LowBytes(before, 16);
  }

  lemma NativeAmountSurvives(v: int)
    requires NumberWord(v).Some?
    ensures v >= 0 && DecodeNativeAmount(BytesToHex(NumberWord(v).value)) == Some(ToNumber(v))
  {
    hide NumberWord, HexToBytes, BytesToHex, BytesValue, ToNumber;
    WordValue(v);
    HexRoundTrip(NumberWord(v).value);
  }

  lemma Erc20AmountSurvives(token: string, v: int)
    requires Erc20AmountTerms(token, v).Some?
    ensures v >= 0 && DecodeErc20Amount(BytesToHex(Erc20AmountTerms(token, v).value)) == Some(ToNumber(v))
  {
    hide NumberWord, HexToBytes, BytesToHex, BytesValue, ToNumber, AddressBytes;
    var terms := Erc20AmountTerms(token, v).value;
    AddressLength(token);
    WordValue(v);
    HexRoundTrip(terms);
    assert |AddressWord(token).value| == 32;
    assert terms[32..] == NumberWord(v).value;
  }

  lemma NativePeriodShape(amount: int, duration: int, start: int)
    requires NativePeriodTerms(amount, duration, start).Some?
    ensures amount >= 0 && duration > 0 && start >= 0
    ensures var terms := NativePeriodTerms(amount, duration, start).value;
            && |terms| == 96
            && BytesValue(terms[..32]) == amount
            && BytesValue(terms[32..64]) == duration
            && BytesValue(terms[64..]) == start
  {
    hide NumberWord, BytesValue;
    var terms := NativePeriodTerms(amount, duration, start).value;
    WordValue(amount);
    WordValue(duration);
    WordValue(start);
    var a, b, c := NumberWord(amount).value, NumberWord(duration).value, NumberWord(start).value;
    assert terms == a + b + c;
    assert terms[..32] == a && terms[32..64] == b && terms[64..] == c;
  }

  lemma NativePeriodSurvives(amount: int, duration: int, start: int)
    requires NativePeriodTerms(amount, duration, start).Some?
    ensures amount >= 0 && duration > 0 && start >= 0
    ensures DecodeNativePeriod(BytesToHex(NativePeriodTerms(amount, duration, start).value))
         == Some(Allowance(ToNumber(amount), ToNumber(duration), ToNumber(start)))
  {
    hide HexToBytes, BytesToHex, BytesValue, ToNumber, NativePeriodTerms;
    NativePeriodShape(amount, duration, start);
    HexRoundTrip(NativePeriodTerms(amount, duration, start).value);
  }

  lemma PeriodSurvives(token: string, amount: int, duration: int, start: int)
    requires PeriodTerms(token, amount, duration, start).Some?
    ensures amount >= 0 && duration > 0 && start >= 0
    ensures DecodePeriod(BytesToHex(PeriodTerms(token, amount, duration, start).value))
         == Some(Allowance(ToNumber(amount), ToNumber(duration), ToNumber(start)))
  {
    hide HexToBytes, BytesToHex, BytesValue, ToNumber, NativePeriodTerms, AddressBytes;
    var rest := NativePeriodTerms(amount, duration, start).value;
    var terms := PeriodTerms(token, amount, duration, start).value;
    AddressLength(token);
    NativePeriodShape(amount, duration, start);
    HexRoundTrip(terms);
    assert terms == AddressBytes(token).value + rest;
    assert terms[20..52] == rest[..32] && terms[52..84] == rest[32..64] && terms[84..] == rest[64..];
  }

  function NormalizedAll(xs: seq<string>): seq<string> {
    if xs == [] then [] else NormalizedAll(xs[..|xs| - 1]) + [NormalizeAddress(xs[|xs| - 1]).GetOr("")]
  }

  lemma {:induction false} PackedLength(xs: seq<string>)
    requires PackedAddresses(xs).Some?
    ensures |PackedAddresses(xs).value| == 20 * |xs|
  {
    if xs != [] {
      hide AddressBytes;
      PackedLength(xs[..|xs| - 1]);
      AddressLength(xs[|xs| - 1]);
    }
  }

  lemma WholeAddresses(n: nat)
    ensures 20 * n % 20 == 0
  {
  }

  lemma ChunksAppend(b: seq<byte>, last: seq<byte>)
    requires |b| % 20 == 0 && |last| == 20
    ensures Chunks(b + last) == Chunks(b) + [BytesToHex(last)]
  {
    assert (b + last)[..|b + last| - 20] == b && (b + last)[|b + last| - 20..] == last;
  }

  lemma {:induction false} PackedSurvive(xs: seq<string>)
    requires PackedAddresses(xs).Some? && |PackedAddresses(xs).value| % 20 == 0
    ensures Chunks(PackedAddresses(xs).value) == NormalizedAll(xs)
  {
    if xs != [] {
      hide AddressBytes, BytesToHex, NormalizeAddress, Chunks;
      var front, last := xs[..|xs| - 1], xs[|xs| - 1];
      PackedLength(front);
      WholeAddresses(|front|);
      PackedSurvive(front);
      AddressLength(last);
      ChunksAppend(PackedAddresses(front).value, AddressBytes(last).value);
    }
  }

  lemma {:induction false} NormalizedIsLower(xs: seq<string>)
    requires PackedAddresses(xs).Some?
    ensures LowerAll(NormalizedAll(xs)) == NormalizedAll(xs)
  {
    if xs != [] {
      hide AddressBytes, Lower;
      var n := |xs| - 1;
      NormalizedIsLower(xs[..n]);
      AddressLength(xs[n]);
      HasAddress(xs[n]);
      assert NormalizedAll(xs)[..n] == NormalizedAll(xs[..n]) by {
        NormalizedLength(xs[..n]);
      }
      NormalizedLength(xs);
    }
  }

  lemma HasAddress(a: string)
    requires AddressBytes(a).Some?
    ensures NormalizeAddress(a).Some? && Lower(NormalizeAddress(a).value) == NormalizeAddress(a).value
  {
    NormalizedAddress(a);
  }

  lemma {:induction false} NormalizedLength(xs: seq<string>)
    ensures |NormalizedAll(xs)| == |xs|
  {
    if xs != [] {
      NormalizedLength(xs[..|xs| - 1]);
    }
  }

  lemma TargetsSurvive(xs: seq<string>)
    requires AllowedTargetsTerms(xs).Some?
    ensures DecodeTargets(BytesToHex(AllowedTargetsTerms(xs).value)) == Some(NormalizedAll(xs))
    ensures LowerAll(NormalizedAll(xs)) == NormalizedAll(xs)
  {
    hide PackedAddresses, NormalizedAll, HexToBytes, BytesToHex, LowerAll;
    PackedLength(xs);
    WholeAddresses(|xs|);
    PackedSurvive(xs);
    NormalizedIsLower(xs);
    HexRoundTrip(PackedAddresses(xs).value);
  }

  /** Each period's length leads back to it. */
  lemma PeriodReturns(p: Period)
    ensures PeriodFromSeconds(PeriodSeconds(p)) == p && ToNumber(PeriodSeconds(p)) == PeriodSeconds(p)
  {
  }

  // --- when a mandate can be sent ---

  predicate FitsWord(v: int) {
    0 <= v < Pow256(32)
  }

  predicate ValidAddress(a: string) {
    NormalizeAddress(a).Some?
  }

  predicate ValidEnforcer(e: Option<string>) {
    Present(e).Some? && ValidAddress(e.value)
  }

  lemma WordOf(v: int)
    ensures NumberWord(v).Some? <==> FitsWord(v)
    ensures HalfWord(v).Some? <==> FitsWord(v)
  {
    WordFits(v);
    if NumberWord(v).Some? {
      WordValue(v);
    }
  }

  lemma AddressOf(a: string)
    ensures AddressBytes(a).Some? <==> ValidAddress(a)
    ensures AddressWord(a).Some? <==> ValidAddress(a)
  {
    if ValidAddress(a) {
      NormalizedAddress(a);
    }
  }

  predicate AllAddresses(xs: seq<string>) {
    forall i :: 0 <= i < |xs| ==> ValidAddress(xs[i])
  }

  lemma AllAddressesSnoc(xs: seq<string>)
    requires xs != []
    ensures AllAddresses(xs) <==> AllAddresses(xs[..|xs| - 1]) && ValidAddress(xs[|xs| - 1])
  {
    hide ValidAddress;
    var front := xs[..|xs| - 1];
    assert forall i :: 0 <= i < |front| ==> front[i] == xs[i];
  }

  lemma {:induction false} PackedIff(xs: seq<string>)
    ensures PackedAddresses(xs).Some? <==> AllAddresses(xs)
  {
    if xs != [] {
      hide ValidAddress, AddressBytes, AllAddresses;
      PackedIff(xs[..|xs| - 1]);
      AddressOf(xs[|xs| - 1]);
      AllAddressesSnoc(xs);
    }
  }

  /** What the encoders demand of a mandate and of the configuration. */
  predicate Encodable(m: Mandate, o: DelegationOpts) {
    var duration := o.periodSecondsOverride.GetOr(PeriodSeconds(m.period));
    && ValidAddress(o.delegate) && ValidAddress(o.delegator) && ValidAddress(o.enforcers.timestamp)
    && FitsWord(m.expiresAt / 1000) && FitsWord(m.grantedAt / 1000)
    && FitsWord(m.perTxCap) && FitsWord(m.perPeriodCap) && FitsWord(duration) && duration > 0
    && (if Present(o.token).Some? then
          ValidAddress(o.token.value) && ValidEnforcer(o.enforcers.erc20Amount) && ValidEnforcer(o.enforcers.erc20Period)
        else
          ValidEnforcer(o.enforcers.nativeAmount) && ValidEnforcer(o.enforcers.nativePeriod))
    && (m.scope.Allowlist? ==>
          m.scope.values != [] && ValidEnforcer(o.enforcers.allowedTargets) && AllAddresses(m.scope.values))
  }

  /** A mandate becomes a delegation if and only if its numbers fit a word, its allowlist is
   *  a non-empty list of addresses, and the enforcers it needs are configured. */
  lemma DelegationIff(m: Mandate, o: DelegationOpts)
    ensures ToDelegation(m, o).Some? <==> Encodable(m, o)
  {
    hide NumberWord, HalfWord, AddressBytes, AddressWord, PackedAddresses, FitsWord, NormalizeAddress, BytesToHex;
    WordOf(0);
    ZeroFits();
    WordOf(m.expiresAt / 1000);
    WordOf(m.grantedAt / 1000);
    WordOf(m.perTxCap);
    WordOf(m.perPeriodCap);
    WordOf(o.periodSecondsOverride.GetOr(PeriodSeconds(m.period)));
    NonNegative(m.expiresAt / 1000);
    NonNegative(m.grantedAt / 1000);
    NonNegative(m.perPeriodCap);
    if o.token.Some? {
      AddressOf(o.token.value);
    }
    if m.scope.Allowlist? {
      PackedIff(m.scope.values);
    }
  }

  lemma ZeroFits()
    ensures FitsWord(0)
  {
    PowGrows(32);
  }

  lemma NonNegative(v: int)
    ensures FitsWord(v) ==> v >= 0
  {
  }

  // --- finding the caveats again ---

  lemma CaveatKey(enforcer: Option<string>, terms: Option<seq<byte>>)
    requires MakeCaveat(Present(enforcer), terms).Some?
    ensures var c := MakeCaveat(Present(enforcer), terms).value;
            && Slot(enforcer) == Some(Some(c.enforcer))
            && Filed(c)
            && c.terms == BytesToHex(terms.value)
  {
    NormalizedAddress(Present(enforcer).value);
  }

  /** A caveat whose enforcer is written as it is looked up. */
  predicate Filed(c: Caveat) {
    NormalizeAddress(c.enforcer) == Some(c.enforcer) && Lower(c.enforcer) == c.enforcer
  }

  predicate DistinctEnforcers(cs: seq<Caveat>) {
    forall i, j :: 0 <= i < j < |cs| ==> cs[i].enforcer != cs[j].enforcer
  }

  predicate AllFiled(cs: seq<Caveat>) {
    forall i :: 0 <= i < |cs| ==> Filed(cs[i])
  }

  lemma DistinctPrefix(cs: seq<Caveat>, n: nat)
    requires DistinctEnforcers(cs) && AllFiled(cs) && n < |cs|
    ensures DistinctEnforcers(cs[..n]) && AllFiled(cs[..n])
    ensures Filed(cs[n]) && forall i :: 0 <= i < n ==> cs[..n][i].enforcer != cs[n].enforcer
  {
    hide Filed;
    forall i | 0 <= i < n
      ensures Filed(cs[..n][i])
    {
      assert Filed(cs[i]);
    }
  }

  lemma IndexStep(cs: seq<Caveat>, n: nat)
    requires n == |cs| - 1 && Filed(cs[n]) && ByAddress(cs[..n]).Some?
    ensures ByAddress(cs) == Some(ByAddress(cs[..n]).value[cs[n].enforcer := cs[n]])
  {
    IsFiled(cs[n]);
    hide Filed, NormalizeAddress, Lower;
  }

  lemma {:induction false} FindsCaveat(cs: seq<Caveat>, i: nat)
    requires DistinctEnforcers(cs) && AllFiled(cs) && i < |cs|
    ensures ByAddress(cs).Some? && At(ByAddress(cs).value, Some(cs[i].enforcer)) == Some(cs[i])
  {
    hide Filed, DistinctEnforcers, AllFiled, ByAddress;
    var n := |cs| - 1;
    DistinctPrefix(cs, n);
    Indexes(cs[..n]);
    IndexStep(cs, n);
    if i < n {
      assert cs[..n][i] == cs[i];
      FindsCaveat(cs[..n], i);
    }
  }

  lemma {:induction false} Indexes(cs: seq<Caveat>)
    requires AllFiled(cs)
    ensures ByAddress(cs).Some?
  {
    if cs != [] {
      hide Filed;
      Indexes(cs[..|cs| - 1]);
      IsFiled(cs[|cs| - 1]);
    }
  }

  lemma {:induction false} FindsNothingElse(cs: seq<Caveat>, slot: Option<string>)
    requires AllFiled(cs) && ByAddress(cs).Some?
    requires slot.Some? ==> forall i :: 0 <= i < |cs| ==> cs[i].enforcer != slot.value
    ensures At(ByAddress(cs).value, slot) == None
  {
    if cs != [] {
      hide Filed, ByAddress;
      Indexes(cs[..|cs| - 1]);
      IndexStep(cs, |cs| - 1);
      FindsNothingElse(cs[..|cs| - 1], slot);
    }
  }

  lemma IsFiled(c: Caveat)
    requires Filed(c)
    ensures NormalizeAddress(c.enforcer) == Some(c.enforcer) && Lower(c.enforcer) == c.enforcer
  {
  }

  // --- the bounds survive ---

  function SlotList(s: Slots): seq<Option<string>> {
    [s.timestamp, s.nativeAmount, s.erc20Amount, s.erc20Period, s.nativePeriod, s.allowedTargets]
  }

  /** Configured enforcers have valid and pairwise different addresses. */
  predicate DistinctAddresses(e: Enforcers) {
    && SlotsOf(e).Some?
    && forall i, j :: 0 <= i < j < 6 && SlotList(SlotsOf(e).value)[i].Some? ==>
         SlotList(SlotsOf(e).value)[i] != SlotList(SlotsOf(e).value)[j]
  }

  /** A number a double can hold, as every cap in the program is. */
  predicate IsDouble(v: int) {
    v < 0 || ToNumber(v) == v
  }

  /** What a mandate's caveats should say. */
  function BoundsFor(m: Mandate): Bounds {
    Bounds(
      Some(m.expiresAt / 1000), Some(m.perTxCap),
      Some(Allowance(m.perPeriodCap, PeriodSeconds(m.period), m.grantedAt / 1000)),
      match m.scope { case ClassScope(_) => None case Allowlist(values) => Some(NormalizedAll(values)) })
  }

  predicate Sendable(m: Mandate, o: DelegationOpts) {
    && ToDelegation(m, o).Some?
    && DistinctAddresses(o.enforcers)
    && o.periodSecondsOverride.None?
    && IsDouble(m.perTxCap) && IsDouble(m.perPeriodCap)
    && m.expiresAt <= LAST_DATE && m.grantedAt <= LAST_DATE
  }

  lemma ExpiryReturns(m: Mandate, o: DelegationOpts, s: Slots)
    requires Sendable(m, o) && SlotsOf(o.enforcers) == Some(s)
    ensures var c := ExpiryCaveat(m, o).value;
            && Filed(c) && s.timestamp == Some(c.enforcer)
            && DecodeTimestamp(c.terms) == Some(m.expiresAt / 1000)
  {
    var enforcer := Some(o.enforcers.timestamp);
    NoEmptyAddress();
    assert Present(enforcer) == enforcer;
    CaveatKey(enforcer, TimestampTerms(m.expiresAt / 1000, 0));
    TimestampSurvives(m.expiresAt / 1000);
  }

  lemma NoEmptyAddress()
    ensures NormalizeAddress("") == None
  {
  }

  lemma AmountReturns(m: Mandate, o: DelegationOpts, s: Slots)
    requires Sendable(m, o) && SlotsOf(o.enforcers) == Some(s)
    ensures var c := AmountCaveat(m, o).value;
            && Filed(c)
            && (if Present(o.token).Some? then s.erc20Amount == Some(c.enforcer) && DecodeErc20Amount(c.terms) == Some(m.perTxCap)
                else s.nativeAmount == Some(c.enforcer) && DecodeNativeAmount(c.terms) == Some(m.perTxCap))
  {
    hide NumberWord, Erc20AmountTerms, DecodeErc20Amount, DecodeNativeAmount, ToNumber, NormalizeAddress, BytesToHex;
    match Present(o.token) {
      case Some(token) =>
        CaveatKey(o.enforcers.erc20Amount, Erc20AmountTerms(token, m.perTxCap));
        Erc20AmountSurvives(token, m.perTxCap);
      case None =>
        CaveatKey(o.enforcers.nativeAmount, NumberWord(m.perTxCap));
        NativeAmountSurvives(m.perTxCap);
    }
  }

  lemma PeriodCaveatReturns(m: Mandate, o: DelegationOpts, s: Slots)
    requires Sendable(m, o) && SlotsOf(o.enforcers) == Some(s)
    ensures var c := PeriodCaveat(m, o).value;
            var allowance := Some(Allowance(m.perPeriodCap, PeriodSeconds(m.period), m.grantedAt / 1000));
            && Filed(c)
            && (if Present(o.token).Some? then s.erc20Period == Some(c.enforcer) && DecodePeriod(c.terms) == allowance
                else s.nativePeriod == Some(c.enforcer) && DecodeNativePeriod(c.terms) == allowance)
  {
    var amount, duration, start := m.perPeriodCap, PeriodSeconds(m.period), m.grantedAt / 1000;
    PeriodReturns(m.period);
    hide PeriodTerms, NativePeriodTerms, DecodePeriod, DecodeNativePeriod, NormalizeAddress, BytesToHex;
    match Present(o.token) {
      case Some(token) =>
        CaveatKey(o.enforcers.erc20Period, PeriodTerms(token, amount, duration, start));
        PeriodSurvives(token, amount, duration, start);
      case None =>
        CaveatKey(o.enforcers.nativePeriod, NativePeriodTerms(amount, duration, start));
        NativePeriodSurvives(amount, duration, start);
    }
    DatesFit(start);
  }

  lemma TargetsReturn(m: Mandate, o: DelegationOpts, s: Slots)
    requires Sendable(m, o) && SlotsOf(o.enforcers) == Some(s) && m.scope.Allowlist?
    ensures |TargetsCaveat(m, o).value| == 1
    ensures var c := TargetsCaveat(m, o).value[0];
            && Filed(c) && s.allowedTargets == Some(c.enforcer)
            && DecodeTargets(c.terms) == Some(NormalizedAll(m.scope.values))
  {
    hide DecodeTargets, AllowedTargetsTerms, NormalizeAddress, BytesToHex, NormalizedAll;
    CaveatKey(o.enforcers.allowedTargets, AllowedTargetsTerms(m.scope.values));
    TargetsSurvive(m.scope.values);
  }

  lemma DistinctEach(e: Enforcers)
    requires DistinctAddresses(e)
    ensures var s := SlotsOf(e).value;
            && (s.timestamp.Some? ==> s.timestamp !in [s.nativeAmount, s.erc20Amount, s.erc20Period, s.nativePeriod, s.allowedTargets])
            && (s.nativeAmount.Some? ==> s.nativeAmount !in [s.erc20Amount, s.erc20Period, s.nativePeriod, s.allowedTargets])
            && (s.erc20Amount.Some? ==> s.erc20Amount !in [s.erc20Period, s.nativePeriod, s.allowedTargets])
            && (s.erc20Period.Some? ==> s.erc20Period !in [s.nativePeriod, s.allowedTargets])
            && (s.nativePeriod.Some? ==> s.nativePeriod != s.allowedTargets)
  {
    hide SlotsOf;
    var list := SlotList(SlotsOf(e).value);
    assert forall j :: 0 < j < 6 ==> list[0].Some? ==> list[0] != list[j];
    assert forall j :: 1 < j < 6 ==> list[1].Some? ==> list[1] != list[j];
    assert forall j :: 2 < j < 6 ==> list[2].Some? ==> list[2] != list[j];
    assert forall j :: 3 < j < 6 ==> list[3].Some? ==> list[3] != list[j];
    assert list[4].Some? ==> list[4] != list[5];
    assert list[1] != list[2] || list[1].None?;
  }

  lemma CaveatsInOrder(m: Mandate, o: DelegationOpts)
    requires ToDelegation(m, o).Some?
    ensures var cs := ToDelegation(m, o).value.caveats;
            && |cs| == (if m.scope.Allowlist? then 4 else 3)
            && cs[0] == ExpiryCaveat(m, o).value && cs[1] == AmountCaveat(m, o).value && cs[2] == PeriodCaveat(m, o).value
            && (m.scope.Allowlist? ==> cs[3] == TargetsCaveat(m, o).value[0])
  {
    hide ExpiryCaveat, AmountCaveat, PeriodCaveat, NormalizeAddress, MakeCaveat;
  }

  /** The caveats of a mandate, found under the enforcers they were made for and no other. */
  ghost predicate Found(m: Mandate, o: DelegationOpts, s: Slots, index: map<string, Caveat>)
    requires ToDelegation(m, o).Some?
  {
    var cs := ToDelegation(m, o).value.caveats;
    && |cs| == (if m.scope.Allowlist? then 4 else 3)
    && At(index, s.timestamp) == Some(cs[0])
    && (if Present(o.token).Some? then
          At(index, s.erc20Amount) == Some(cs[1]) && At(index, s.erc20Period) == Some(cs[2])
        else
          && At(index, s.erc20Amount) == None && At(index, s.erc20Period) == None
          && At(index, s.nativeAmount) == Some(cs[1]) && At(index, s.nativePeriod) == Some(cs[2]))
    && At(index, s.allowedTargets) == (if m.scope.Allowlist? then Some(cs[3]) else None)
  }

  lemma CaveatsAreFiled(m: Mandate, o: DelegationOpts, s: Slots)
    requires Sendable(m, o) && SlotsOf(o.enforcers) == Some(s)
    ensures AllFiled(ToDelegation(m, o).value.caveats) && DistinctEnforcers(ToDelegation(m, o).value.caveats)
  {
    hide Filed, ByAddress, SlotsOf, ExpiryCaveat, AmountCaveat, PeriodCaveat, TargetsCaveat, ToDelegation, DistinctAddresses,
         DecodeTimestamp, DecodeErc20Amount, DecodeNativeAmount, DecodePeriod, DecodeNativePeriod, DecodeTargets, NormalizedAll;
    ExpiryReturns(m, o, s);
    AmountReturns(m, o, s);
    PeriodCaveatReturns(m, o, s);
    if m.scope.Allowlist? {
      TargetsReturn(m, o, s);
    }
    DistinctEach(o.enforcers);
    CaveatsInOrder(m, o);
  }

  lemma CaveatsAreFound(m: Mandate, o: DelegationOpts, s: Slots, index: map<string, Caveat>)
    requires Sendable(m, o) && SlotsOf(o.enforcers) == Some(s)
    requires ByAddress(ToDelegation(m, o).value.caveats) == Some(index)
    ensures Found(m, o, s, index)
  {
    hide Filed, ByAddress, SlotsOf, ExpiryCaveat, AmountCaveat, PeriodCaveat, TargetsCaveat, ToDelegation, DistinctAddresses,
         DecodeTimestamp, DecodeErc20Amount, DecodeNativeAmount, DecodePeriod, DecodeNativePeriod, DecodeTargets, NormalizedAll;
    var cs := ToDelegation(m, o).value.caveats;
    CaveatsAreFiled(m, o, s);
    CaveatsInOrder(m, o);
    ExpiryReturns(m, o, s);
    AmountReturns(m, o, s);
    PeriodCaveatReturns(m, o, s);
    DistinctEach(o.enforcers);
    FindsCaveat(cs, 0);
    FindsCaveat(cs, 1);
    FindsCaveat(cs, 2);
    if m.scope.Allowlist? {
      TargetsReturn(m, o, s);
      FindsCaveat(cs, 3);
    } else {
      FindsNothingElse(cs, s.allowedTargets);
    }
    if Present(o.token).None? {
      FindsNothingElse(cs, s.erc20Amount);
      FindsNothingElse(cs, s.erc20Period);
    }
  }

  /** Decoding the caveats of a mandate gives back its bounds. */
  lemma BoundsSurvive(m: Mandate, o: DelegationOpts)
    requires Sendable(m, o)
    ensures BoundsOf(ToDelegation(m, o).value, o.enforcers) == Some(BoundsFor(m))
  {
    hide ByAddress, SlotsOf, Slot, ExpiryCaveat, AmountCaveat, PeriodCaveat, TargetsCaveat, ToDelegation, NormalizedAll,
         DecodeTimestamp, DecodeErc20Amount, DecodeNativeAmount, DecodePeriod, DecodeNativePeriod, DecodeTargets, At, Filed;
    var s := SlotsOf(o.enforcers).value;
    CaveatsAreFiled(m, o, s);
    Indexes(ToDelegation(m, o).value.caveats);
    CaveatsInOrder(m, o);
    CaveatsAreFound(m, o, s, ByAddress(ToDelegation(m, o).value.caveats).value);
    ExpiryReturns(m, o, s);
    AmountReturns(m, o, s);
    PeriodCaveatReturns(m, o, s);
    if m.scope.Allowlist? {
      TargetsReturn(m, o, s);
    }
  }

  /** The mandate as it comes back: its caps and period as they were, its dates to the whole
   *  second, an allowlist in normal form; the rest is the redeemer's to say. */
  function Returned(m: Mandate, d: Delegation, r: RedemptionOpts): Mandate {
    m.(id := MandateIdOf(d, r),
       name := r.mandateLabel.GetOr("ERC-7710 delegation"),
       scope := match m.scope { case ClassScope(_) => ClassScope(ClassOf(r)) case Allowlist(xs) => Allowlist(NormalizedAll(xs)) },
       currency := r.currency,
       allowedRails := [RailOf(r)],
       grantedAt := m.grantedAt / 1000 * 1000,
       expiresAt := m.expiresAt / 1000 * 1000,
       status := Active)
  }

  /** A mandate sent as a delegation and decoded again keeps its caps, its period, its dates
   *  and its allowlist. */
  lemma MandateSurvives(m: Mandate, o: DelegationOpts, r: RedemptionOpts)
    requires Sendable(m, o) && r.enforcers == o.enforcers
    ensures DecodedMandate(ToDelegation(m, o).value, r) == Some(Returned(m, ToDelegation(m, o).value, r))
  {
    BoundsSurvive(m, o);
    hide BoundsOf, ToDelegation, NormalizedAll;
    PeriodReturns(m.period);
    if m.scope.Allowlist? {
      TargetsReturn(m, o, SlotsOf(o.enforcers).value);
      AllowlistIsPacked(m, o);
      NormalizedIsLower(m.scope.values);
    }
  }

  lemma AllowlistIsPacked(m: Mandate, o: DelegationOpts)
    requires ToDelegation(m, o).Some? && m.scope.Allowlist?
    ensures PackedAddresses(m.scope.values).Some?
  {
    hide PackedAddresses, NormalizeAddress, ExpiryCaveat, AmountCaveat, PeriodCaveat;
  }

  /** The gate reads of a mandate only its id, whether it is live, whether it covers the
   *  payment, its currency and its caps. */
  lemma {:induction false} GateReadsBounds(
    earlier: seq<Mandate>, a: Mandate, b: Mandate, intent: PaymentIntent, ctx: GateContext)
    requires a.id == b.id && a.currency == b.currency && a.perTxCap == b.perTxCap && a.perPeriodCap == b.perPeriodCap
    requires Gate.IsLive(a, ctx.now) <==> Gate.IsLive(b, ctx.now)
    requires Gate.Covers(a, intent, ctx.convert) <==> Gate.Covers(b, intent, ctx.convert)
    ensures Gate.Decide(intent, ctx.(mandates := earlier + [a])) == Gate.Decide(intent, ctx.(mandates := earlier + [b]))
  {
    hide Gate.Floor, Gate.SignalsOf;
    SameAuthority(earlier, a, b, intent, ctx);
    SameFloor(intent, ctx, earlier + [a], earlier + [b]);
  }

  lemma SameFloor(intent: PaymentIntent, ctx: GateContext, xs: seq<Mandate>, ys: seq<Mandate>)
    ensures Gate.Floor(intent, ctx.(mandates := xs)) == Gate.Floor(intent, ctx.(mandates := ys))
    ensures Gate.SignalsOf(intent, ctx.(mandates := xs)) == Gate.SignalsOf(intent, ctx.(mandates := ys))
  {
  }

  lemma {:induction false} SameAuthority(
    earlier: seq<Mandate>, a: Mandate, b: Mandate, intent: PaymentIntent, ctx: GateContext)
    requires Gate.IsLive(a, ctx.now) <==> Gate.IsLive(b, ctx.now)
    requires Gate.Covers(a, intent, ctx.convert) <==> Gate.Covers(b, intent, ctx.convert)
    ensures var x := Gate.Authority(earlier + [a], intent, ctx.now, ctx.convert);
            var y := Gate.Authority(earlier + [b], intent, ctx.now, ctx.convert);
            x == y || (x == Some(a) && y == Some(b))
  {
    if earlier == [] {
      assert [] + [a] == [a] && [] + [b] == [b];
      assert [a][1..] == [] && [b][1..] == [];
    } else {
      SameAuthority(earlier[1..], a, b, intent, ctx);
      assert (earlier + [a])[1..] == earlier[1..] + [a];
      assert (earlier + [b])[1..] == earlier[1..] + [b];
    }
  }

  /** The mandate a redemption should be judged under: the original, with its allowlist
   *  written the way on-chain addresses are. */
  function OnChain(m: Mandate): Mandate {
    match m.scope
    case ClassScope(_) => m
    case Allowlist(xs) => m.(scope := Allowlist(NormalizedAll(xs)))
  }

  /** A redemption that names the mandate's own id, currency, rail and class is judged
   *  exactly as a payment under the original mandate, at every instant except within the
   *  last fraction of a second before an expiry that is not on a whole second. */
  lemma RedemptionIsGatedAsMandate(m: Mandate, o: DelegationOpts, r: RedemptionOpts, ctx: GateContext)
    requires Sendable(m, o) && r.enforcers == o.enforcers && NormalizeAddress(r.target).Some?
    requires m.status == Active && r.mandateId == Some(m.id) && r.currency == m.currency && RailOf(r) in m.allowedRails
    requires m.scope.ClassScope? ==> m.scope.value == ClassOf(r)
    requires !(m.expiresAt / 1000 * 1000 <= ctx.now < m.expiresAt)
    ensures var d := ToDelegation(m, o).value;
            var out := GateRedemption(d, r, ctx);
            && out.Some?
            && out.value.decision == Gate.Decide(out.value.intent, ctx.(mandates := ctx.mandates + [OnChain(m)]))
  {
    MandateSurvives(m, o, r);
    var d := ToDelegation(m, o).value;
    var target := NormalizeAddress(r.target).value;
    hide ToDelegation, DecodedMandate, NormalizedAll, NormalizeAddress, Gate.Decide, Sendable, Lower, HexText;
    var intent := RedemptionIntent(d, r, target, m.scope.Allowlist?, ctx.now);
    GateReadsBounds(ctx.mandates, Returned(m, d, r), OnChain(m), intent, ctx);
  }
}
