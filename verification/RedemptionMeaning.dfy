/** What any delegation allows when it is redeemed through the gate, caveat by caveat
 *  (src/erc7710/index.ts:580-860). */
module RedemptionMeaning {
  import opened Prelude
  import opened Types
  import opened AbiBytes
  import opened Erc7710
  import opened Erc7710Laws
  import opened GateMeaning
  import Gate

  // --- what is sent ---

  /** The length of a period on chain; a month is thirty days. */
  lemma PeriodSecondsMean(p: Period)
    ensures PeriodSeconds(p) == (match p case Day => 24 case Week => 7 * 24 case Month => 30 * 24) * 3600
  {
  }

  /** The address of an enforcer that is configured, in normal form. */
  predicate IsFor(c: Caveat, enforcer: Option<string>) {
    enforcer.Some? && enforcer.value != "" && NormalizeAddress(enforcer.value) == Some(c.enforcer) && c.args == "0x"
  }

  /** A delegation's caveats: the timestamp, then the amount and the period of the token if there
   *  is one and of the native coin otherwise, then the targets of an allowlist; unsigned, under
   *  the root authority. */
  lemma DelegationMeans(m: Mandate, o: DelegationOpts)
    requires ToDelegation(m, o).Some?
    ensures var d := ToDelegation(m, o).value;
            var hasToken := o.token.Some? && o.token.value != "";
            && NormalizeAddress(o.delegate) == Some(d.delegate) && NormalizeAddress(o.delegator) == Some(d.delegator)
            && d.authority == "0xffffffffffffffffffffffffffffffffffffffffffffffffffffffffffffffff" && d.salt == o.salt && d.signature == "0x"
            && |d.caveats| == (if m.scope.Allowlist? then 4 else 3)
            && IsFor(d.caveats[0], Some(o.enforcers.timestamp))
            && IsFor(d.caveats[1], if hasToken then o.enforcers.erc20Amount else o.enforcers.nativeAmount)
            && IsFor(d.caveats[2], if hasToken then o.enforcers.erc20Period else o.enforcers.nativePeriod)
            && (m.scope.Allowlist? ==> IsFor(d.caveats[3], o.enforcers.allowedTargets))
  {
    NoEmptyAddress();
    hide NormalizeAddress, TimestampTerms, Erc20AmountTerms, NumberWord, PeriodTerms, NativePeriodTerms, AllowedTargetsTerms, BytesToHex;
  }

  // --- finding a caveat ---

  predicate IsAt(c: Caveat, address: string) {
    NormalizeAddress(c.enforcer).Some? && Lower(NormalizeAddress(c.enforcer).value) == address
  }

  /** One malformed address spoils all caveats. */
  lemma {:induction false} IndexMeans(caveats: seq<Caveat>)
    ensures ByAddress(caveats).Some? <==> forall i :: 0 <= i < |caveats| ==> NormalizeAddress(caveats[i].enforcer).Some?
  {
    hide NormalizeAddress, Lower;
    if caveats != [] {
      var n := |caveats| - 1;
      IndexMeans(caveats[..n]);
      assert forall i :: 0 <= i < n ==> caveats[..n][i] == caveats[i];
    }
  }

  /** The address an enforcer is looked up by, if it is configured. */
  function AddressFor(enforcer: Option<string>): Option<string> {
    if enforcer.None? || enforcer.value == "" || NormalizeAddress(enforcer.value).None? then None
    else Some(Lower(NormalizeAddress(enforcer.value).value))
  }

  /** Not configured, or a valid address. */
  predicate IsReadable(enforcer: Option<string>) {
    enforcer.Some? && enforcer.value != "" ==> NormalizeAddress(enforcer.value).Some?
  }

  lemma SlotMeans(enforcer: Option<string>)
    ensures Slot(enforcer) == if IsReadable(enforcer) then Some(AddressFor(enforcer)) else None
  {
    hide NormalizeAddress, Lower;
  }

  /** The terms of the last caveat for an enforcer. */
  function TermsFor(caveats: seq<Caveat>, enforcer: Option<string>): Option<string> {
    if caveats == [] || AddressFor(enforcer).None? then None
    else if IsAt(caveats[|caveats| - 1], AddressFor(enforcer).value) then Some(caveats[|caveats| - 1].terms)
    else TermsFor(caveats[..|caveats| - 1], enforcer)
  }

  /** Caveats are found by their enforcer's address, and the last one counts. */
  lemma {:induction false} LookupMeans(caveats: seq<Caveat>, enforcer: Option<string>)
    requires ByAddress(caveats).Some?
    ensures var found := At(ByAddress(caveats).value, AddressFor(enforcer));
            TermsFor(caveats, enforcer) == if found.Some? then Some(found.value.terms) else None
  {
    hide NormalizeAddress, Lower, AddressFor;
    if caveats != [] && AddressFor(enforcer).Some? {
      LookupMeans(caveats[..|caveats| - 1], enforcer);
    }
  }

  function Read<T>(terms: Option<string>, decode: string -> Option<T>): Option<T> {
    if terms.Some? then decode(terms.value) else None
  }

  predicate Reads<T>(terms: Option<string>, decode: string -> Option<T>) {
    terms.Some? ==> decode(terms.value).Some?
  }

  predicate AllReadable(e: Enforcers) {
    && IsReadable(Some(e.timestamp)) && IsReadable(e.nativeAmount) && IsReadable(e.erc20Amount)
    && IsReadable(e.erc20Period) && IsReadable(e.nativePeriod) && IsReadable(e.allowedTargets)
  }

  /** Every caveat that counts can be decoded; the token's come before the native coin's. */
  predicate AllDecode(cs: seq<Caveat>, e: Enforcers) {
    && Reads(TermsFor(cs, Some(e.timestamp)), DecodeTimestamp)
    && (if TermsFor(cs, e.erc20Amount).Some? then Reads(TermsFor(cs, e.erc20Amount), DecodeErc20Amount)
        else Reads(TermsFor(cs, e.nativeAmount), DecodeNativeAmount))
    && (if TermsFor(cs, e.erc20Period).Some? then Reads(TermsFor(cs, e.erc20Period), DecodePeriod)
        else Reads(TermsFor(cs, e.nativePeriod), DecodeNativePeriod))
    && Reads(TermsFor(cs, e.allowedTargets), DecodeTargets)
  }

  lemma DecodeMeans<T>(caveats: seq<Caveat>, enforcer: Option<string>, decode: string -> Option<T>)
    requires ByAddress(caveats).Some?
    ensures var found := At(ByAddress(caveats).value, AddressFor(enforcer));
            && (found.Some? <==> TermsFor(caveats, enforcer).Some?)
            && Decode(found, decode) ==
               if Reads(TermsFor(caveats, enforcer), decode) then Some(Read(TermsFor(caveats, enforcer), decode)) else None
  {
    LookupMeans(caveats, enforcer);
    hide ByAddress, TermsFor, AddressFor, At;
  }

  lemma SlotsMean(e: Enforcers)
    ensures SlotsOf(e) ==
            if !AllReadable(e) then None
            else Some(Slots(AddressFor(Some(e.timestamp)), AddressFor(e.nativeAmount), AddressFor(e.erc20Amount),
                            AddressFor(e.erc20Period), AddressFor(e.nativePeriod), AddressFor(e.allowedTargets)))
  {
    SlotMeans(Some(e.timestamp));
    SlotMeans(e.nativeAmount);
    SlotMeans(e.erc20Amount);
    SlotMeans(e.erc20Period);
    SlotMeans(e.nativePeriod);
    SlotMeans(e.allowedTargets);
    hide Slot, IsReadable, AddressFor;
  }

  /** WHAT A DELEGATION SAYS: the decoded terms of the last caveat for each enforcer; an error if
   *  an address is malformed or terms that count cannot be decoded. */
  lemma BoundsMean(d: Delegation, e: Enforcers)
    ensures var cs := d.caveats;
            BoundsOf(d, e) ==
            if !AllReadable(e) || ByAddress(cs).None? || !AllDecode(cs, e) then None
            else Some(Bounds(
              Read(TermsFor(cs, Some(e.timestamp)), DecodeTimestamp),
              if TermsFor(cs, e.erc20Amount).Some? then Read(TermsFor(cs, e.erc20Amount), DecodeErc20Amount)
              else Read(TermsFor(cs, e.nativeAmount), DecodeNativeAmount),
              if TermsFor(cs, e.erc20Period).Some? then Read(TermsFor(cs, e.erc20Period), DecodePeriod)
              else Read(TermsFor(cs, e.nativePeriod), DecodeNativePeriod),
              Read(TermsFor(cs, e.allowedTargets), DecodeTargets)))
  {
    SlotsMean(e);
    if ByAddress(d.caveats).Some? {
      DecodeMeans(d.caveats, Some(e.timestamp), DecodeTimestamp);
      DecodeMeans(d.caveats, e.nativeAmount, DecodeNativeAmount);
      DecodeMeans(d.caveats, e.erc20Amount, DecodeErc20Amount);
      DecodeMeans(d.caveats, e.erc20Period, DecodePeriod);
      DecodeMeans(d.caveats, e.nativePeriod, DecodeNativePeriod);
      DecodeMeans(d.caveats, e.allowedTargets, DecodeTargets);
    }
    hide AllReadable, ByAddress, SlotsOf, TermsFor, AddressFor, DecodeTimestamp, DecodeErc20Amount, DecodeNativeAmount, DecodePeriod,
         DecodeNativePeriod, DecodeTargets, At, Decode, Read, Reads;
  }

  // --- reading terms ---

  predicate HasBytes(terms: string, n: nat) {
    HexToBytes(terms).Some? && |HexToBytes(terms).value| == n
  }

  /** The nearest double to a big-endian number. */
  function NumberAt(terms: string, from: nat, to: nat): int
    requires HexToBytes(terms).Some? && from <= to <= |HexToBytes(terms).value|
  {
    ToNumber(BytesValue(HexToBytes(terms).value[from..to]))
  }

  /** Terms are read at fixed offsets of a fixed length; anything else is an error. */
  lemma TermsMean(terms: string)
    ensures DecodeTimestamp(terms) == if HasBytes(terms, 32) then Some(NumberAt(terms, 16, 32)) else None
    ensures DecodeNativeAmount(terms) == if HasBytes(terms, 32) then Some(NumberAt(terms, 0, 32)) else None
    ensures DecodeErc20Amount(terms) == if HasBytes(terms, 64) then Some(NumberAt(terms, 32, 64)) else None
    ensures DecodeNativePeriod(terms) ==
            if HasBytes(terms, 96) then Some(Allowance(NumberAt(terms, 0, 32), NumberAt(terms, 32, 64), NumberAt(terms, 64, 96))) else None
    ensures DecodePeriod(terms) ==
            if HasBytes(terms, 116) then Some(Allowance(NumberAt(terms, 20, 52), NumberAt(terms, 52, 84), NumberAt(terms, 84, 116))) else None
    ensures DecodeTargets(terms).Some? <==> exists n: nat :: n > 0 && HasBytes(terms, 20 * n)
  {
    hide HexToBytes, ToNumber, BytesValue, Chunks;
    if HexToBytes(terms).Some? {
      var b := HexToBytes(terms).value;
      assert |b| == 32 ==> b[16..] == b[16..32] && b == b[0..32];
      assert |b| == 64 ==> b[32..] == b[32..64];
      assert |b| == 96 ==> b[..32] == b[0..32] && b[64..] == b[64..96];
      assert |b| == 116 ==> b[84..] == b[84..116];
      if |b| > 0 && |b| % 20 == 0 {
        assert HasBytes(terms, 20 * (|b| / 20));
      }
      if n: nat :| n > 0 && HasBytes(terms, 20 * n) {
        Twentieths(n);
      }
    }
  }

  lemma Twentieths(n: nat)
    ensures 20 * n % 20 == 0
  {
  }

  // --- numbers ---

  predicate IsPowerOfTwo(u: nat) {
    u == 1 || (u > 1 && u % 2 == 0 && IsPowerOfTwo(u / 2))
  }

  /** Doubles around n are a power of two apart, one up to 2^53, and fifty-three bits reach. */
  lemma {:induction false} SpacingMeans(n: nat)
    ensures var u := Spacing(n);
            IsPowerOfTwo(u) && n < 0x20_0000_0000_0000 * u && (u > 1 ==> n >= 0x10_0000_0000_0000 * u)
  {
    if n >= TWO_53 {
      SpacingMeans(n / 2);
      var u := Spacing(n / 2);
      assert (2 * u) / 2 == u && (2 * u) % 2 == 0;
    }
  }

  /** A big-endian number becomes the nearest double, and on a tie the one with an even
   *  significand. */
  lemma ToNumberMeans(n: nat) returns (q: nat)
    ensures var u: int, v: int := Spacing(n), ToNumber(n);
            && v == q * u
            && -u <= 2 * (v - n) <= u
            && (2 * (v - n) == u || 2 * (v - n) == -u ==> q % 2 == 0)
  {
    var u := Spacing(n);
    var below, r := n / u, n % u;
    Division(n, u);
    Distributes(below, u);
    q := if 2 * r < u || (2 * r == u && below % 2 == 0) then below else below + 1;
    hide Spacing;
  }

  lemma Division(n: int, u: int)
    requires u > 0
    ensures (n / u) * u + n % u == n && 0 <= n % u < u
  {
  }

  lemma Distributes(q: int, u: int)
    ensures (q + 1) * u == q * u + u
  {
  }

  /** A period length on chain becomes the closest period, the shorter one half-way. */
  lemma PeriodMeans(seconds: int)
    ensures PeriodFromSeconds(seconds) == if seconds <= 4 * 86_400 then Day else if seconds <= 1_598_400 then Week else Month
  {
  }

  // --- what a redemption is judged by ---

  predicate IsTarget(targets: seq<string>, target: string) {
    exists k :: 0 <= k < |targets| && Lower(targets[k]) == Lower(target)
  }

  /** The delegation's own conditions on a redemption: it must carry an amount caveat that the
   *  amount does not exceed; before its expiry, if it has one; to one of its targets, if it
   *  lists them; and within its allowance together with what was spent under it this period, or
   *  within its amount cap if it has no allowance. */
  predicate WithinCaveats(b: Bounds, target: string, amount: int, spent: int, now: Instant) {
    && b.txCap.Some? && amount <= b.txCap.value
    && (b.expires.Some? ==> now < 1000 * b.expires.value)
    && (b.expires.None? ==> now < 32_503_680_000_000)
    && (b.targets.Some? ==> IsTarget(b.targets.value, target))
    && spent + amount <= (if b.allowance.Some? then b.allowance.value.amount else b.txCap.value)
  }

  lemma {:induction false} LowerAllMeans(xs: seq<string>, x: string)
    ensures x in LowerAll(xs) <==> exists k :: 0 <= k < |xs| && Lower(xs[k]) == x
  {
    hide Lower;
    if xs != [] {
      var n := |xs| - 1;
      LowerAllMeans(xs[..n], x);
      if k :| 0 <= k < |xs| && Lower(xs[k]) == x && k < n {
        assert xs[..n][k] == xs[k];
      }
      if k :| 0 <= k < n && Lower(xs[..n][k]) == x {
        assert xs[k] == xs[..n][k];
      }
    }
  }

  /** The payment that stands for a redemption. */
  lemma RedemptionIntentMeans(d: Delegation, o: RedemptionOpts, ctx: GateContext)
    requires GateRedemption(d, o, ctx).Some?
    ensures var p := GateRedemption(d, o, ctx).value.intent;
            && p.amount == o.amount && p.currency == o.currency && p.rationale == o.rationale && p.createdAt == ctx.now
            && p.rail == (if o.rail.Some? then o.rail.value else Onchain)
            && p.payeeClass == (if o.payeeClass.Some? then o.payeeClass.value else "delegated-spend")
            && BoundsOf(d, o.enforcers).Some? && NormalizeAddress(o.target).Some?
            && var target := NormalizeAddress(o.target).value;
               && p.payee == (if BoundsOf(d, o.enforcers).value.targets.Some? then Lower(target) else target)
               && p.id == if o.intentId.Some? then o.intentId.value
                          else (if o.mandateId.Some? then o.mandateId.value else "0x" + HexText(d.salt)) + ":" + target
  {
    hide NormalizeAddress, BoundsOf, Gate.Decide, HexText, LowerAll, Lower, PeriodFromSeconds;
  }

  /** A redemption is judged if and only if its target is an address, the delegation can be read,
   *  and its dates are ones the Date type has. */
  lemma JudgedMeans(d: Delegation, o: RedemptionOpts, ctx: GateContext)
    ensures GateRedemption(d, o, ctx).Some? <==>
              && NormalizeAddress(o.target).Some? && BoundsOf(d, o.enforcers).Some?
              && var b := BoundsOf(d, o.enforcers).value;
                 && (b.allowance.Some? ==> 1000 * b.allowance.value.start <= 8_640_000_000_000_000)
                 && (b.expires.Some? ==> 1000 * b.expires.value <= 8_640_000_000_000_000)
  {
    hide NormalizeAddress, BoundsOf, Gate.Decide, HexText, LowerAll, Lower, PeriodFromSeconds;
  }

  /** The mandate a redemption is judged under when no other one is at hand. */
  lemma DelegatedMeans(d: Delegation, o: RedemptionOpts, ctx: GateContext)
    requires GateRedemption(d, o, ctx).Some? && ctx.mandates == []
    ensures DecodedMandate(d, o).Some? && BoundsOf(d, o.enforcers).Some?
    ensures var r := GateRedemption(d, o, ctx).value;
            var m := DecodedMandate(d, o).value;
            var b := BoundsOf(d, o.enforcers).value;
            && r.decision == Gate.Decide(r.intent, ctx.(mandates := [m]))
            && m.status == Active && m.currency == r.intent.currency && m.allowedRails == [r.intent.rail]
            && m.id == (if o.mandateId.Some? then o.mandateId.value else "0x" + HexText(d.salt))
            && m.perTxCap == (if b.txCap.Some? then b.txCap.value else 0)
            && m.perPeriodCap == (if b.allowance.Some? then b.allowance.value.amount else m.perTxCap)
            && m.period == (if b.allowance.Some? then PeriodFromSeconds(b.allowance.value.seconds) else Month)
            && m.grantedAt == (if b.allowance.Some? then 1000 * b.allowance.value.start else 0)
            && m.expiresAt == (if b.expires.Some? then 1000 * b.expires.value else 32_503_680_000_000)
            && m.scope == (if b.targets.Some? then Allowlist(LowerAll(b.targets.value)) else ClassScope(r.intent.payeeClass))
  {
    hide NormalizeAddress, BoundsOf, Gate.Decide, HexText, LowerAll, Lower, PeriodFromSeconds;
    assert ctx.mandates + [DecodedMandate(d, o).value] == [DecodedMandate(d, o).value];
  }

  /** THE REDEMPTION, exactly, under the delegation alone: it runs unattended if and only if it
   *  clears the floor, keeps within every caveat, and leaves the operator no doubt. */
  lemma RedemptionMeans(d: Delegation, o: RedemptionOpts, ctx: GateContext)
    requires GateRedemption(d, o, ctx).Some? && ctx.mandates == []
    ensures BoundsOf(d, o.enforcers).Some? && NormalizeAddress(o.target).Some? && DecodedMandate(d, o).Some?
    ensures var r := GateRedemption(d, o, ctx).value;
            var m := DecodedMandate(d, o).value;
            r.decision.outcome == AutoExecute <==>
              && ClearsFloor(r.intent, ctx)
              && WithinCaveats(BoundsOf(d, o.enforcers).value, NormalizeAddress(o.target).value, o.amount,
                               Sum(ctx.periodSpend(m.id), Paid()), ctx.now)
              && Doubts(m, r.intent, ctx) == []
  {
    DelegatedMeans(d, o, ctx);
    RedemptionIntentMeans(d, o, ctx);
    var r := GateRedemption(d, o, ctx).value;
    var m := DecodedMandate(d, o).value;
    var b := BoundsOf(d, o.enforcers).value;
    AloneMeans(m, r.intent, ctx);
    DelegatedAllows(d, o, ctx);
    DelegatedRoom(d, o, ctx);
    hide GateRedemption, DecodedMandate, BoundsOf, NormalizeAddress, ClearsFloor, Gate.Decide, Lower, Doubts, Allows,
         Price, Room, Sum, Paid, IsTarget;
  }

  lemma DelegatedRoom(d: Delegation, o: RedemptionOpts, ctx: GateContext)
    requires GateRedemption(d, o, ctx).Some? && ctx.mandates == []
    ensures DecodedMandate(d, o).Some? && BoundsOf(d, o.enforcers).Some?
    ensures var b := BoundsOf(d, o.enforcers).value;
            var m := DecodedMandate(d, o).value;
            var p := GateRedemption(d, o, ctx).value.intent;
            var cap := if b.txCap.Some? then b.txCap.value else 0;
            && Price(m, p, ctx) == o.amount && m.perTxCap == cap
            && Room(m, p, ctx) == (if b.allowance.Some? then b.allowance.value.amount else cap) - Sum(ctx.periodSpend(m.id), Paid()) - o.amount
  {
    DelegatedMeans(d, o, ctx);
    RedemptionIntentMeans(d, o, ctx);
    hide GateRedemption, DecodedMandate, BoundsOf, NormalizeAddress, Gate.Decide, LowerAll, Lower, Sum, Paid;
  }

  lemma DelegatedAllows(d: Delegation, o: RedemptionOpts, ctx: GateContext)
    requires GateRedemption(d, o, ctx).Some? && ctx.mandates == []
    ensures DecodedMandate(d, o).Some? && BoundsOf(d, o.enforcers).Some? && NormalizeAddress(o.target).Some?
    ensures var b := BoundsOf(d, o.enforcers).value;
            var target := NormalizeAddress(o.target).value;
            Allows(DecodedMandate(d, o).value, GateRedemption(d, o, ctx).value.intent, ctx) <==>
              && (b.expires.Some? ==> ctx.now < 1000 * b.expires.value)
              && (b.expires.None? ==> ctx.now < 32_503_680_000_000)
              && (b.targets.Some? ==> IsTarget(b.targets.value, target))
  {
    DelegatedMeans(d, o, ctx);
    RedemptionIntentMeans(d, o, ctx);
    var b := BoundsOf(d, o.enforcers).value;
    if b.targets.Some? {
      LowerAllMeans(b.targets.value, Lower(NormalizeAddress(o.target).value));
    }
    hide GateRedemption, DecodedMandate, BoundsOf, NormalizeAddress, Gate.Decide, LowerAll, Lower;
  }

  /** Under a single mandate, by itself. */
  lemma AloneMeans(m: Mandate, intent: PaymentIntent, ctx: GateContext)
    ensures Gate.Decide(intent, ctx.(mandates := [m])).outcome == AutoExecute <==>
              && ClearsFloor(intent, ctx) && Allows(m, intent, ctx)
              && Price(m, intent, ctx) <= m.perTxCap && Room(m, intent, ctx) >= 0 && Doubts(m, intent, ctx) == []
  {
    var alone := ctx.(mandates := [m]);
    UnattendedMeans(intent, alone);
    FloorIgnoresMandates(intent, ctx, m);
    DoubtsIgnoreMandates(m, intent, ctx);
    assert Allows(m, intent, alone) == Allows(m, intent, ctx);
    assert Price(m, intent, alone) == Price(m, intent, ctx) && Room(m, intent, alone) == Room(m, intent, ctx);
    hide ClearsFloor, Gate.Decide, TrustIn, Recent, Points, Price, Room, Allows, Doubts;
    assert FirstToAllow(intent, alone, 0) <==> Allows(m, intent, alone);
  }

  lemma FloorIgnoresMandates(intent: PaymentIntent, ctx: GateContext, m: Mandate)
    ensures ClearsFloor(intent, ctx.(mandates := [m])) <==> ClearsFloor(intent, ctx)
  {
    hide HasRationale;
    var alone := ctx.(mandates := [m]);
    assert forall rule :: Matches(rule, intent, alone) <==> Matches(rule, intent, ctx);
    hide Matches;
  }

  lemma DoubtsIgnoreMandates(m: Mandate, intent: PaymentIntent, ctx: GateContext)
    ensures var alone := ctx.(mandates := [m]);
            Doubts(m, intent, ctx) == [] <==>
              TrustIn(intent, alone) != New && Recent(m, alone) < ctx.config.velocityMaxCount && Points(m, intent, alone) < 4
  {
    hide IsOutlier, Sum;
  }
}
