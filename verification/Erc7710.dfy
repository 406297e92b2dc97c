/** Mandates as ERC-7710 delegations, and delegations through the gate
 *  (src/erc7710/index.ts). A thrown error is None. */
module Erc7710 {
  import opened Prelude
  import opened Types
  import opened AbiBytes
  import Gate

  datatype Caveat = Caveat(enforcer: string, terms: string, args: string)

  datatype Delegation = Delegation(delegate: string, delegator: string, authority: string,
                                   caveats: seq<Caveat>, salt: nat, signature: string)

  datatype Enforcers = Enforcers(
    timestamp: string,
    nativeAmount: Option<string>,
    erc20Amount: Option<string>,
    erc20Period: Option<string>,
    nativePeriod: Option<string>,
    allowedTargets: Option<string>)

  datatype DelegationOpts = DelegationOpts(delegate: string, delegator: string, enforcers: Enforcers,
                                           token: Option<string>, salt: nat, periodSecondsOverride: Option<int>)

  function PeriodSeconds(p: Period): int {
    match p
    case Day => 86400
    case Week => 604800
    case Month => 2592000
  }

  /** An empty string counts as missing. */
  function Present(s: Option<string>): Option<string> {
    if s == Some("") then None else s
  }

  // --- encoders ---

  function Both(a: Option<seq<byte>>, b: Option<seq<byte>>): Option<seq<byte>> {
    if a.Some? && b.Some? then Some(a.value + b.value) else None
  }

  function AddressBytes(a: string): Option<seq<byte>> {
    match NormalizeAddress(a)
    case None => None
    case Some(n) => HexToBytes(n)
  }

  function AddressWord(a: string): Option<seq<byte>> {
    match AddressBytes(a)
    case None => None
    case Some(bs) => Padded(bs)
  }

  /** The low sixteen bytes of a word: a uint128. */
  function HalfWord(v: int): Option<seq<byte>> {
    match NumberWord(v)
    case None => None
    case Some(w) => if |w| < 16 then None else Some(w[16..])
  }

  function TimestampTerms(beforeUnix: int, afterUnix: int): Option<seq<byte>> {
    if beforeUnix < 0 || afterUnix < 0 then None else Both(HalfWord(afterUnix), HalfWord(beforeUnix))
  }

  function Erc20AmountTerms(token: string, allowance: int): Option<seq<byte>> {
    Both(AddressWord(token), NumberWord(allowance))
  }

  function NativePeriodTerms(amount: int, duration: int, start: int): Option<seq<byte>> {
    if amount < 0 || duration <= 0 || start < 0 then None
    else Both(Both(NumberWord(amount), NumberWord(duration)), NumberWord(start))
  }

  function PeriodTerms(token: string, amount: int, duration: int, start: int): Option<seq<byte>> {
    Both(AddressBytes(token), NativePeriodTerms(amount, duration, start))
  }

  function PackedAddresses(addresses: seq<string>): Option<seq<byte>> {
    if addresses == [] then Some([])
    else Both(PackedAddresses(addresses[..|addresses| - 1]), AddressBytes(addresses[|addresses| - 1]))
  }

  function AllowedTargetsTerms(addresses: seq<string>): Option<seq<byte>> {
    if addresses == [] then None else PackedAddresses(addresses)
  }

  // --- mandate to delegation ---

  /** A caveat needs a configured enforcer with a valid address, and encodable terms. */
  function MakeCaveat(enforcer: Option<string>, terms: Option<seq<byte>>): Option<Caveat> {
    if enforcer.None? || NormalizeAddress(enforcer.value).None? || terms.None? then None
    else Some(Caveat(NormalizeAddress(enforcer.value).value, BytesToHex(terms.value), "0x"))
  }

  function ExpiryCaveat(m: Mandate, o: DelegationOpts): Option<Caveat> {
    MakeCaveat(Some(o.enforcers.timestamp), TimestampTerms(m.expiresAt / 1000, 0))
  }

  function AmountCaveat(m: Mandate, o: DelegationOpts): Option<Caveat> {
    match Present(o.token)
    case Some(token) => MakeCaveat(Present(o.enforcers.erc20Amount), Erc20AmountTerms(token, m.perTxCap))
    case None => MakeCaveat(Present(o.enforcers.nativeAmount), NumberWord(m.perTxCap))
  }

  function PeriodCaveat(m: Mandate, o: DelegationOpts): Option<Caveat> {
    var duration := o.periodSecondsOverride.GetOr(PeriodSeconds(m.period));
    var start := m.grantedAt / 1000;
    match Present(o.token)
    case Some(token) => MakeCaveat(Present(o.enforcers.erc20Period), PeriodTerms(token, m.perPeriodCap, duration, start))
    case None => MakeCaveat(Present(o.enforcers.nativePeriod), NativePeriodTerms(m.perPeriodCap, duration, start))
  }

  function TargetsCaveat(m: Mandate, o: DelegationOpts): Option<seq<Caveat>> {
    match m.scope
    case ClassScope(_) => Some([])
    case Allowlist(values) =>
      match MakeCaveat(Present(o.enforcers.allowedTargets), AllowedTargetsTerms(values))
      case None => None
      case Some(c) => Some([c])
  }

  const ROOT_AUTHORITY: string := "0xffffffffffffffffffffffffffffffffffffffffffffffffffffffffffffffff"

  function ToDelegation(m: Mandate, o: DelegationOpts): Option<Delegation> {
    var expiry, amount, period, targets := ExpiryCaveat(m, o), AmountCaveat(m, o), PeriodCaveat(m, o), TargetsCaveat(m, o);
    var delegate, delegator := NormalizeAddress(o.delegate), NormalizeAddress(o.delegator);
    if expiry.None? || amount.None? || period.None? || targets.None? || delegate.None? || delegator.None? then None
    else
      Some(Delegation(delegate.value, delegator.value, ROOT_AUTHORITY,
                      [expiry.value, amount.value, period.value] + targets.value, o.salt, "0x"))
  }

  // --- decoders ---

  const TWO_53: nat := 0x20_0000_0000_0000

  /** The spacing of doubles around a magnitude. */
  function Spacing(n: nat): (u: nat)
    ensures u >= 1
    ensures n < TWO_53 ==> u == 1
  {
    if n < TWO_53 then 1 else 2 * Spacing(n / 2)
  }

  /** Number(bigint): the nearest double, ties to even. */
  function ToNumber(n: nat): (v: nat)
    ensures n < TWO_53 ==> v == n
  {
    var u := Spacing(n);
    var q, r := n / u, n % u;
    if 2 * r < u || (2 * r == u && q % 2 == 0) then q * u else (q + 1) * u
  }

  function DecodeTimestamp(terms: string): Option<int> {
    match HexToBytes(terms)
    case None => None
    case Some(b) => if |b| != 32 then None else Some(ToNumber(BytesValue(b[16..])))
  }

  function DecodeNativeAmount(terms: string): Option<int> {
    match HexToBytes(terms)
    case None => None
    case Some(b) => if |b| != 32 then None else Some(ToNumber(BytesValue(b)))
  }

  function DecodeErc20Amount(terms: string): Option<int> {
    match HexToBytes(terms)
    case None => None
    case Some(b) => if |b| != 64 then None else Some(ToNumber(BytesValue(b[32..])))
  }

  datatype Allowance = Allowance(amount: int, seconds: int, start: int)

  function DecodeNativePeriod(terms: string): Option<Allowance> {
    match HexToBytes(terms)
    case None => None
    case Some(b) =>
      if |b| != 96 then None
      else Some(Allowance(ToNumber(BytesValue(b[..32])), ToNumber(BytesValue(b[32..64])), ToNumber(BytesValue(b[64..]))))
  }

  function DecodePeriod(terms: string): Option<Allowance> {
    match HexToBytes(terms)
    case None => None
    case Some(b) =>
      if |b| != 116 then None
      else Some(Allowance(ToNumber(BytesValue(b[20..52])), ToNumber(BytesValue(b[52..84])), ToNumber(BytesValue(b[84..]))))
  }

  function Chunks(b: seq<byte>): seq<string>
    requires |b| % 20 == 0
  {
    if b == [] then [] else Chunks(b[..|b| - 20]) + [BytesToHex(b[|b| - 20..])]
  }

  function DecodeTargets(terms: string): Option<seq<string>> {
    match HexToBytes(terms)
    case None => None
    case Some(b) => if |b| == 0 || |b| % 20 != 0 then None else Some(Chunks(b))
  }

  function Distance(p: Period, seconds: int): int {
    var d := PeriodSeconds(p) - seconds;
    if d < 0 then -d else d
  }

  /** The closest period; the shorter one on a tie. */
  function PeriodFromSeconds(seconds: int): Period {
    var best := if Distance(Week, seconds) < Distance(Day, seconds) then Week else Day;
    if Distance(Month, seconds) < Distance(best, seconds) then Month else best
  }

  method ClosestPeriod(seconds: int) returns (best: Period)
    ensures best == PeriodFromSeconds(seconds)
    ensures forall p :: Distance(best, seconds) <= Distance(p, seconds)
  {
    var periods := [Day, Week, Month];
    best := Day;
    var bestDiff: Option<int> := None;
    for i := 0 to 3
      invariant i == 0 ==> bestDiff.None?
      invariant i > 0 ==> bestDiff == Some(Distance(best, seconds))
      invariant i == 1 ==> best == Day
      invariant i == 2 ==> best == if Distance(Week, seconds) < Distance(Day, seconds) then Week else Day
      invariant i == 3 ==> best == PeriodFromSeconds(seconds)
      invariant forall k :: 0 <= k < i ==> Distance(best, seconds) <= Distance(periods[k], seconds)
    {
      var diff := Distance(periods[i], seconds);
      if bestDiff.None? || diff < bestDiff.value {
        bestDiff := Some(diff);
        best := periods[i];
      }
    }
    assert periods[0] == Day && periods[1] == Week && periods[2] == Month;
  }

  // --- a redemption through the gate ---

  datatype RedemptionOpts = RedemptionOpts(
    target: string, amount: int, currency: string, rail: Option<RailKind>, rationale: string,
    payeeClass: Option<string>, intentId: Option<string>, enforcers: Enforcers,
    mandateId: Option<string>, mandateLabel: Option<string>)

  function RailOf(o: RedemptionOpts): RailKind { o.rail.GetOr(Onchain) }

  function ClassOf(o: RedemptionOpts): string { o.payeeClass.GetOr("delegated-spend") }

  /** The address of a configured enforcer, as caveats are looked up; None when the address
   *  is malformed. */
  function Slot(enforcer: Option<string>): Option<Option<string>> {
    match Present(enforcer)
    case None => Some(None)
    case Some(a) => match NormalizeAddress(a) { case None => None case Some(n) => Some(Some(Lower(n))) }
  }

  datatype Slots = Slots(
    timestamp: Option<string>, nativeAmount: Option<string>, erc20Amount: Option<string>,
    erc20Period: Option<string>, nativePeriod: Option<string>, allowedTargets: Option<string>)

  function SlotsOf(e: Enforcers): Option<Slots> {
    var a, b, c := Slot(Some(e.timestamp)), Slot(e.nativeAmount), Slot(e.erc20Amount);
    var d, f, g := Slot(e.erc20Period), Slot(e.nativePeriod), Slot(e.allowedTargets);
    if a.None? || b.None? || c.None? || d.None? || f.None? || g.None? then None
    else Some(Slots(a.value, b.value, c.value, d.value, f.value, g.value))
  }

  /** Caveats by enforcer; a later one replaces an earlier one. */
  function ByAddress(caveats: seq<Caveat>): Option<map<string, Caveat>> {
    if caveats == [] then Some(map[])
    else
      var c := caveats[|caveats| - 1];
      match (ByAddress(caveats[..|caveats| - 1]), NormalizeAddress(c.enforcer))
      case (Some(m), Some(a)) => Some(m[Lower(a) := c])
      case _ => None
  }

  function At(index: map<string, Caveat>, slot: Option<string>): Option<Caveat> {
    if slot.Some? && slot.value in index then Some(index[slot.value]) else None
  }

  /** Decode a caveat if it is there. */
  function Decode<T>(c: Option<Caveat>, f: string -> Option<T>): Option<Option<T>> {
    match c
    case None => Some(None)
    case Some(x) => match f(x.terms) { case None => None case Some(v) => Some(Some(v)) }
  }

  /** What a delegation's caveats say. */
  datatype Bounds = Bounds(expires: Option<int>, txCap: Option<int>, allowance: Option<Allowance>, targets: Option<seq<string>>)

  function BoundsOf(d: Delegation, e: Enforcers): Option<Bounds> {
    match (SlotsOf(e), ByAddress(d.caveats))
    case (Some(s), Some(index)) =>
      var expires := Decode(At(index, s.timestamp), DecodeTimestamp);
      var txCap := if At(index, s.erc20Amount).Some? then Decode(At(index, s.erc20Amount), DecodeErc20Amount)
                   else Decode(At(index, s.nativeAmount), DecodeNativeAmount);
      var allowance := if At(index, s.erc20Period).Some? then Decode(At(index, s.erc20Period), DecodePeriod)
                       else Decode(At(index, s.nativePeriod), DecodeNativePeriod);
      var targets := Decode(At(index, s.allowedTargets), DecodeTargets);
      if expires.None? || txCap.None? || allowance.None? || targets.None? then None
      else Some(Bounds(expires.value, txCap.value, allowance.value, targets.value))
    case _ => None
  }

  function LowerAll(xs: seq<string>): seq<string> {
    if xs == [] then [] else LowerAll(xs[..|xs| - 1]) + [Lower(xs[|xs| - 1])]
  }

  const LAST_DATE: int := 8_640_000_000_000_000

  const FAR_FUTURE: int := 32_503_680_000

  function MandateIdOf(d: Delegation, o: RedemptionOpts): string {
    o.mandateId.GetOr("0x" + HexText(d.salt))
  }

  /** The mandate the caveats amount to. Without an amount cap it allows nothing; without a
   *  period cap the transaction cap stands in; without an expiry it is far off. */
  function MandateOf(b: Bounds, d: Delegation, o: RedemptionOpts): Option<Mandate> {
    var granted := (match b.allowance case None => 0 case Some(a) => a.start) * 1000;
    var expires := b.expires.GetOr(FAR_FUTURE) * 1000;
    if granted > LAST_DATE || expires > LAST_DATE then None
    else
      Some(Mandate(
        MandateIdOf(d, o), o.mandateLabel.GetOr("ERC-7710 delegation"),
        match b.targets { case None => ClassScope(ClassOf(o)) case Some(xs) => Allowlist(LowerAll(xs)) },
        o.currency, [RailOf(o)],
        b.txCap.GetOr(0),
        match b.allowance { case None => b.txCap.GetOr(0) case Some(a) => a.amount },
        match b.allowance { case None => Month case Some(a) => PeriodFromSeconds(a.seconds) },
        granted, expires, Active))
  }

  function DecodedMandate(d: Delegation, o: RedemptionOpts): Option<Mandate> {
    match BoundsOf(d, o.enforcers)
    case None => None
    case Some(b) => MandateOf(b, d, o)
  }

  function RedemptionIntent(d: Delegation, o: RedemptionOpts, target: string, listed: bool, now: Instant): PaymentIntent {
    PaymentIntent(
      o.intentId.GetOr(MandateIdOf(d, o) + ":" + target),
      if listed then Lower(target) else target,
      ClassOf(o), o.amount, o.currency, RailOf(o), o.rationale, now)
  }

  datatype Redemption = Redemption(intent: PaymentIntent, decision: GateDecision)

  /** The redemption, judged under the context's mandates and then the delegation's own. */
  function GateRedemption(d: Delegation, o: RedemptionOpts, ctx: GateContext): Option<Redemption> {
    match (NormalizeAddress(o.target), DecodedMandate(d, o))
    case (Some(target), Some(m)) =>
      var intent := RedemptionIntent(d, o, target, m.scope.Allowlist?, ctx.now);
      Some(Redemption(intent, Gate.Decide(intent, ctx.(mandates := ctx.mandates + [m]))))
    case _ => None
  }

  // --- the programs ---

  method MandateToDelegation(m: Mandate, o: DelegationOpts) returns (d: Option<Delegation>)
    ensures d == ToDelegation(m, o)
  {
    hide NormalizeAddress, MakeCaveat;
    var caveats: seq<Caveat> := [];
    var expiry := MakeCaveat(Some(o.enforcers.timestamp), TimestampTerms(m.expiresAt / 1000, 0));
    if expiry.None? {
      return None;
    }
    caveats := caveats + [expiry.value];
    var amount := AmountCaveat(m, o);
    if amount.None? {
      return None;
    }
    caveats := caveats + [amount.value];
    var period := PeriodCaveat(m, o);
    if period.None? {
      return None;
    }
    caveats := caveats + [period.value];
    if m.scope.Allowlist? {
      var targets := MakeCaveat(Present(o.enforcers.allowedTargets), AllowedTargetsTerms(m.scope.values));
      if targets.None? {
        return None;
      }
      caveats := caveats + [targets.value];
    }
    var delegate, delegator := NormalizeAddress(o.delegate), NormalizeAddress(o.delegator);
    if delegate.None? || delegator.None? {
      return None;
    }
    assert caveats == [expiry.value, amount.value, period.value] + TargetsCaveat(m, o).value;
    d := Some(Delegation(delegate.value, delegator.value, ROOT_AUTHORITY, caveats, o.salt, "0x"));
  }

  method IndexCaveats(caveats: seq<Caveat>) returns (index: Option<map<string, Caveat>>)
    ensures index == ByAddress(caveats)
  {
    var byAddr: map<string, Caveat> := map[];
    for i := 0 to |caveats|
      invariant ByAddress(caveats[..i]) == Some(byAddr)
    {
      assert caveats[..i + 1][..i] == caveats[..i];
      var a := NormalizeAddress(caveats[i].enforcer);
      if a.None? {
        NoIndexAfter(caveats, i + 1);
        return None;
      }
      byAddr := byAddr[Lower(a.value) := caveats[i]];
    }
    assert caveats[..|caveats|] == caveats;
    index := Some(byAddr);
  }

  lemma {:induction false} NoIndexAfter(caveats: seq<Caveat>, n: nat)
    requires n <= |caveats| && ByAddress(caveats[..n]).None?
    ensures ByAddress(caveats).None?
    decreases |caveats|
  {
    if n < |caveats| {
      assert caveats[..|caveats| - 1][..n] == caveats[..n];
      NoIndexAfter(caveats[..|caveats| - 1], n);
    } else {
      assert caveats[..n] == caveats;
    }
  }

  method GateDelegationRedemption(d: Delegation, o: RedemptionOpts, ctx: GateContext) returns (r: Option<Redemption>)
    ensures r == GateRedemption(d, o, ctx)
  {
    hide NormalizeAddress, ByAddress, Slot, LowerAll, HexText, Lower, Gate.Decide;
    var target := NormalizeAddress(o.target);
    if target.None? {
      return None;
    }
    var index := IndexCaveats(d.caveats);
    var slots := SlotsOf(o.enforcers);
    if index.None? || slots.None? {
      return None;
    }
    var s := slots.value;
    var expires := Decode(At(index.value, s.timestamp), DecodeTimestamp);
    var erc20Amount := At(index.value, s.erc20Amount);
    var txCap := if erc20Amount.Some? then Decode(erc20Amount, DecodeErc20Amount)
                 else Decode(At(index.value, s.nativeAmount), DecodeNativeAmount);
    var erc20Period := At(index.value, s.erc20Period);
    var allowance := if erc20Period.Some? then Decode(erc20Period, DecodePeriod)
                     else Decode(At(index.value, s.nativePeriod), DecodeNativePeriod);
    var targets := Decode(At(index.value, s.allowedTargets), DecodeTargets);
    if expires.None? || txCap.None? || allowance.None? || targets.None? {
      return None;
    }
    var m := MandateOf(Bounds(expires.value, txCap.value, allowance.value, targets.value), d, o);
    if m.None? {
      return None;
    }
    var intent := RedemptionIntent(d, o, target.value, m.value.scope.Allowlist?, ctx.now);
    var decision := Gate.EvaluateGate(intent, ctx.(mandates := ctx.mandates + [m.value]));
    r := Some(Redemption(intent, decision));
  }
}
