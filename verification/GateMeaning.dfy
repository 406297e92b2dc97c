/** What the gate decides, in terms of the payment, the context and the mandates' fields alone
 *  (src/core/gate.ts:29-215, src/core/risk.ts, src/core/denyList.ts). */
module GateMeaning {
  import opened Prelude
  import opened Types
  import Gate
  import Risk
  import DenyList

  // --- the floor ---

  /** White space and line ends, as String.prototype.trim removes them. */
  const WHITE: set<char> :=
    {'\t', '\n', '\U{000B}', '\U{000C}', '\r', ' ', '\U{00A0}', '\U{1680}',
     '\U{2000}', '\U{2001}', '\U{2002}', '\U{2003}', '\U{2004}', '\U{2005}', '\U{2006}', '\U{2007}', '\U{2008}', '\U{2009}', '\U{200A}',
     '\U{2028}', '\U{2029}', '\U{202F}', '\U{205F}', '\U{3000}', '\U{FEFF}'}

  /** The text between the white ends. */
  predicate IsCore(text: string, a: nat, b: nat) {
    && a <= b <= |text|
    && (forall i :: 0 <= i < a ==> text[i] in WHITE)
    && (forall i :: b <= i < |text| ==> text[i] in WHITE)
    && (a < b ==> text[a] !in WHITE && text[b - 1] !in WHITE)
  }

  ghost predicate HasRationale(text: string, least: int) {
    exists a: nat, b: nat :: IsCore(text, a, b) && b - a >= least
  }

  function RailDefault(rail: RailKind): Reversibility {
    if rail == Onchain then Irreversible else Reversible
  }

  function SettlesAs(intent: PaymentIntent, ctx: GateContext): Reversibility {
    if ctx.reversibility.Some? then ctx.reversibility.value else RailDefault(intent.rail)
  }

  predicate Matches(rule: DenyRule, intent: PaymentIntent, ctx: GateContext) {
    rule.matches(intent, ctx.knownPayees, SettlesAs(intent, ctx))
  }

  predicate NotDenied(intent: PaymentIntent, ctx: GateContext) {
    forall i :: 0 <= i < |ctx.denyRules| ==> !Matches(ctx.denyRules[i], intent, ctx)
  }

  ghost predicate ClearsFloor(intent: PaymentIntent, ctx: GateContext) {
    intent.amount > 0 && HasRationale(intent.rationale, ctx.config.minRationaleChars) && NotDenied(intent, ctx)
  }

  // --- authority ---

  /** Everything a mandate must say for it to authorize a payment. */
  predicate Allows(m: Mandate, intent: PaymentIntent, ctx: GateContext) {
    && m.status == Active && ctx.now < m.expiresAt
    && intent.rail in m.allowedRails
    && (match m.scope {
          case ClassScope(c) => intent.payeeClass == c
          case Allowlist(payees) => intent.payee in payees
        })
    && (intent.currency == m.currency
        || (ctx.convert.Some? && ctx.convert.value(intent.amount, intent.currency, m.currency).Some?))
  }

  predicate FirstOf(mandates: seq<Mandate>, intent: PaymentIntent, ctx: GateContext, i: nat) {
    && i < |mandates| && Allows(mandates[i], intent, ctx)
    && forall j :: 0 <= j < i ==> !Allows(mandates[j], intent, ctx)
  }

  predicate FirstToAllow(intent: PaymentIntent, ctx: GateContext, i: nat) {
    FirstOf(ctx.mandates, intent, ctx, i)
  }

  predicate NoneAllows(intent: PaymentIntent, ctx: GateContext) {
    forall i :: 0 <= i < |ctx.mandates| ==> !Allows(ctx.mandates[i], intent, ctx)
  }

  // --- caps, ceiling and risk ---

  /** The amount in the mandate's currency. */
  function Price(m: Mandate, intent: PaymentIntent, ctx: GateContext): int {
    if intent.currency != m.currency && ctx.convert.Some? && ctx.convert.value(intent.amount, intent.currency, m.currency).Some?
    then ctx.convert.value(intent.amount, intent.currency, m.currency).value
    else intent.amount
  }

  function Paid(): PriorSpend -> int {
    (s: PriorSpend) => s.amount
  }

  function PaidWithin(now: Instant, minutes: int): PriorSpend -> int {
    (s: PriorSpend) => if now - s.at <= minutes * 60 * 1000 then 1 else 0
  }

  function Room(m: Mandate, intent: PaymentIntent, ctx: GateContext): int {
    m.perPeriodCap - Sum(ctx.periodSpend(m.id), Paid()) - Price(m, intent, ctx)
  }

  function Recent(m: Mandate, ctx: GateContext): int {
    Sum(ctx.periodSpend(m.id), PaidWithin(ctx.now, ctx.config.velocityWindowMinutes))
  }

  function TrustIn(intent: PaymentIntent, ctx: GateContext): TrustLevel {
    if ctx.trustOf.Some? then ctx.trustOf.value(intent.payee)
    else if intent.payee in ctx.knownPayees then Seen
    else New
  }

  function ReputationIn(intent: PaymentIntent, ctx: GateContext): Option<Reputation> {
    if ctx.reputationOf.Some? then ctx.reputationOf.value(intent.payee) else None
  }

  function Below(v: int): int -> int {
    (x: int) => if x < v then 1 else 0
  }

  function UpTo(v: int): int -> int {
    (x: int) => if x <= v then 1 else 0
  }

  /** v is the value with k values before it, were they sorted. */
  predicate HasRank(values: seq<int>, k: int, v: int) {
    Sum(values, Below(v)) <= k < Sum(values, UpTo(v))
  }

  predicate AreMiddle(values: seq<int>, lo: int, hi: int) {
    HasRank(values, |values| / 2 - 1, lo) && HasRank(values, |values| / 2, hi)
  }

  /** The middle value, or the mean of the two in the middle with a half rounded up. */
  ghost predicate IsMiddle(values: seq<int>, v: int) {
    if |values| % 2 == 1 then HasRank(values, |values| / 2, v)
    else exists lo, hi :: AreMiddle(values, lo, hi) && v == (lo + hi + 1) / 2
  }

  function Values(spend: seq<PriorSpend>): seq<int> {
    seq(|spend|, i requires 0 <= i < |spend| => spend[i].amount)
  }

  predicate Exceeds(amount: int, v: int, multiple: real) {
    amount as real > v as real * multiple
  }

  /** The amount exceeds a multiple of the period's middle payment. */
  ghost predicate IsOutlier(amount: int, spend: seq<PriorSpend>, multiple: real) {
    && spend != []
    && exists v :: IsMiddle(Values(spend), v) && v > 0 && Exceeds(amount, v, multiple)
  }

  /** The points of the risk score. */
  ghost function Points(m: Mandate, intent: PaymentIntent, ctx: GateContext): int {
    var trust := TrustIn(intent, ctx);
    var reputation := ReputationIn(intent, ctx);
    (if reputation == Some(Flagged) then 2 else if reputation == Some(Good) then -1 else 0)
    + (if ctx.attestation == Some(Unattested) then 1 else if ctx.attestation == Some(RegistryAttested) then -1 else 0)
    + (if trust == New then 2 else if trust == Trusted then -1 else 0)
    + (if IsOutlier(intent.amount, ctx.periodSpend(m.id), ctx.config.anomalyMultiple) then 2 else 0)
    + (if SettlesAs(intent, ctx) == Irreversible && trust == New then 1 else 0)
  }

  ghost function RiskIn(m: Mandate, intent: PaymentIntent, ctx: GateContext): SpendRisk {
    var points := Points(m, intent, ctx);
    SpendRisk(if points >= 4 then High else if points >= 2 then Medium else if points >= 1 then Low else NoRisk, points)
  }

  /** Why a payment within its caps waits for the operator. */
  ghost function Doubts(m: Mandate, intent: PaymentIntent, ctx: GateContext): seq<Reason> {
    (if TrustIn(intent, ctx) == New then [NewPayee] else [])
    + (if Recent(m, ctx) >= ctx.config.velocityMaxCount then [VelocityCeiling(Recent(m, ctx))] else [])
    + (if Points(m, intent, ctx) >= 4 then [ElevatedRisk] else [])
  }

  // --- the decision ---

  /** The floor, reason by reason: no mandate is looked at, and the first rule that matches is
   *  the one named. */
  lemma FloorMeans(intent: PaymentIntent, ctx: GateContext)
    ensures intent.amount <= 0 ==> Gate.Decide(intent, ctx) == GateDecision(Block, [BadAmount], None, SpendRisk(NoRisk, 0), None)
    ensures intent.amount > 0 && !HasRationale(intent.rationale, ctx.config.minRationaleChars) ==>
              Gate.Decide(intent, ctx) == GateDecision(Block, [ShortRationale], None, SpendRisk(NoRisk, 0), None)
    ensures intent.amount > 0 && HasRationale(intent.rationale, ctx.config.minRationaleChars) ==>
              forall i :: 0 <= i < |ctx.denyRules| && Matches(ctx.denyRules[i], intent, ctx)
                          && (forall j :: 0 <= j < i ==> !Matches(ctx.denyRules[j], intent, ctx)) ==>
                Gate.Decide(intent, ctx) == GateDecision(Block, [DenyListed(ctx.denyRules[i].id)], None, SpendRisk(NoRisk, 0), None)
  {
    RationaleMeans(intent.rationale, ctx.config.minRationaleChars);
    forall i | 0 <= i < |ctx.denyRules| && Matches(ctx.denyRules[i], intent, ctx)
               && (forall j :: 0 <= j < i ==> !Matches(ctx.denyRules[j], intent, ctx))
      ensures Gate.FirstDenied(ctx.denyRules, intent, ctx.knownPayees, Gate.ReversibilityOf(intent, ctx)) == Some(ctx.denyRules[i].id)
    {
      FirstRuleMeans(ctx.denyRules, intent, ctx, i);
    }
    hide Gate.Trim, Gate.FirstDenied, HasRationale;
  }

  /** A payment that no mandate allows waits for the operator, and names no mandate. */
  lemma UncoveredMeans(intent: PaymentIntent, ctx: GateContext)
    requires ClearsFloor(intent, ctx)
    ensures NoneAllows(intent, ctx) <==>
              Gate.Decide(intent, ctx) == GateDecision(ConfirmOperator, [NoLiveMandate], None, SpendRisk(NoRisk, 0), None)
    ensures NoneAllows(intent, ctx) <==> Gate.Decide(intent, ctx).mandateId.None?
  {
    ClearFloorMeans(intent, ctx);
    AuthorityMeans(intent, ctx);
    hide Gate.Floor, Gate.Authority, Gate.SignalsOf, Gate.AmountIn, ClearsFloor, Allows, Risk.ClassifySpendRisk;
    var found := Gate.Authority(ctx.mandates, intent, ctx.now, ctx.convert);
    if found.Some? {
      var i: nat :| FirstToAllow(intent, ctx, i) && ctx.mandates[i] == found.value;
      assert Allows(ctx.mandates[i], intent, ctx);
    }
  }

  /** The verdict under the first mandate in the list that allows the payment: its caps, then
   *  the doubts in order, with the risk it was given and what it leaves of the budget. */
  lemma CoveredMeans(intent: PaymentIntent, ctx: GateContext, i: nat)
    requires ClearsFloor(intent, ctx) && FirstToAllow(intent, ctx, i)
    ensures var m := ctx.mandates[i];
            var doubts := Doubts(m, intent, ctx);
            Gate.Decide(intent, ctx) ==
            if Price(m, intent, ctx) > m.perTxCap then GateDecision(Block, [OverTransactionCap], Some(m.id), RiskIn(m, intent, ctx), None)
            else if Room(m, intent, ctx) < 0 then GateDecision(Block, [OverPeriodCap], Some(m.id), RiskIn(m, intent, ctx), None)
            else if doubts != [] then GateDecision(ConfirmOperator, doubts, Some(m.id), RiskIn(m, intent, ctx), Some(Room(m, intent, ctx)))
            else GateDecision(AutoExecute, [WithinMandate], Some(m.id), RiskIn(m, intent, ctx), Some(Room(m, intent, ctx)))
  {
    var m := ctx.mandates[i];
    ClearFloorMeans(intent, ctx);
    FirstIsAuthority(ctx.mandates, intent, ctx, i);
    SumEq(ctx.periodSpend(m.id), Gate.SpendAmount(), Paid());
    SumEq(ctx.periodSpend(m.id), Gate.SpentSince(Gate.WindowStart(ctx.now, ctx.config)),
          PaidWithin(ctx.now, ctx.config.velocityWindowMinutes));
    RiskMeans(m, intent, ctx);
    assert Gate.AmountIn(m, intent, ctx.convert) == Price(m, intent, ctx);
    assert Gate.SignalsOf(intent, ctx).trust == TrustIn(intent, ctx);
    hide Gate.Floor, Gate.Authority, Gate.SignalsOf, Gate.AmountIn, ClearsFloor, Allows, Risk.ClassifySpendRisk, Price, TrustIn, Points;
  }

  /** THE GATE, exactly. A payment runs unattended if and only if it is positive, explained, and
   *  matches no deny rule; the first mandate in the list that is active, not expired, on its
   *  rail, for its payee and in its currency or a convertible one admits it under both caps; its
   *  payee is not new, the ceiling is not reached, and the risk stays below four points. */
  lemma UnattendedMeans(intent: PaymentIntent, ctx: GateContext)
    ensures Gate.Decide(intent, ctx).outcome == AutoExecute <==>
              && ClearsFloor(intent, ctx)
              && exists i: nat :: && FirstToAllow(intent, ctx, i)
                                  && var m := ctx.mandates[i];
                                     && Price(m, intent, ctx) <= m.perTxCap && Room(m, intent, ctx) >= 0
                                     && TrustIn(intent, ctx) != New
                                     && Recent(m, ctx) < ctx.config.velocityMaxCount
                                     && Points(m, intent, ctx) < 4
  {
    hide Gate.Decide, HasRationale, Price, Room, TrustIn, Recent, Points;
    if !ClearsFloor(intent, ctx) {
      NotClearedIsBlocked(intent, ctx);
    } else if NoneAllows(intent, ctx) {
      UncoveredMeans(intent, ctx);
    } else {
      var i := FindFirst(intent, ctx);
      CoveredMeans(intent, ctx, i);
      forall j: nat | FirstToAllow(intent, ctx, j)
        ensures j == i
      {
        OneFirst(ctx.mandates, intent, ctx, i, j);
      }
    }
  }

  // --- the pieces ---

  lemma WhiteIsSpace(c: char)
    ensures c in WHITE <==> Gate.IsSpace(c)
  {
    assert c == (c as int) as char;
    if 0x2000 <= c as int <= 0x200a {
      assert '\U{2000}' as int == 0x2000 && '\U{2001}' as int == 0x2001 && '\U{2002}' as int == 0x2002 && '\U{2003}' as int == 0x2003;
      assert '\U{2004}' as int == 0x2004 && '\U{2005}' as int == 0x2005 && '\U{2006}' as int == 0x2006 && '\U{2007}' as int == 0x2007;
      assert '\U{2008}' as int == 0x2008 && '\U{2009}' as int == 0x2009 && '\U{200A}' as int == 0x200a;
    }
  }

  lemma {:induction false} TrimIsCore(text: string) returns (a: nat, b: nat)
    ensures IsCore(text, a, b) && Gate.Trim(text) == text[a..b]
    decreases |text|
  {
    hide Gate.IsSpace;
    if text != [] && Gate.IsSpace(text[0]) {
      WhiteIsSpace(text[0]);
      var c, d := TrimIsCore(text[1..]);
      a, b := c + 1, d + 1;
      assert text[a..b] == text[1..][c..d];
      assert forall i :: 0 < i < |text| ==> text[i] == text[1..][i - 1];
    } else if text != [] && Gate.IsSpace(text[|text| - 1]) {
      WhiteIsSpace(text[|text| - 1]);
      a, b := TrimIsCore(text[..|text| - 1]);
      assert text[a..b] == text[..|text| - 1][a..b];
    } else {
      a, b := 0, |text|;
      if text != [] {
        WhiteIsSpace(text[0]);
        WhiteIsSpace(text[|text| - 1]);
      }
      assert text[0..|text|] == text;
    }
  }

  lemma CoresAgree(text: string, a: nat, b: nat, c: nat, d: nat)
    requires IsCore(text, a, b) && IsCore(text, c, d)
    ensures b - a == d - c
  {
    if a < b {
      assert c <= a < d && c <= b - 1 < d;
    }
  }

  lemma RationaleMeans(text: string, least: int)
    ensures HasRationale(text, least) <==> |Gate.Trim(text)| >= least
  {
    var a, b := TrimIsCore(text);
    if HasRationale(text, least) {
      var c: nat, d: nat :| IsCore(text, c, d) && d - c >= least;
      CoresAgree(text, a, b, c, d);
    }
    hide Gate.Trim;
  }

  lemma {:induction false} FirstRuleMeans(rules: seq<DenyRule>, intent: PaymentIntent, ctx: GateContext, i: nat)
    requires i < |rules| && Matches(rules[i], intent, ctx) && forall j :: 0 <= j < i ==> !Matches(rules[j], intent, ctx)
    ensures Gate.FirstDenied(rules, intent, ctx.knownPayees, Gate.ReversibilityOf(intent, ctx)) == Some(rules[i].id)
  {
    if i > 0 {
      assert !Matches(rules[0], intent, ctx);
      FirstRuleMeans(rules[1..], intent, ctx, i - 1);
    }
  }

  lemma {:induction false} NoRuleMeans(rules: seq<DenyRule>, intent: PaymentIntent, ctx: GateContext)
    requires forall i :: 0 <= i < |rules| ==> !Matches(rules[i], intent, ctx)
    ensures Gate.FirstDenied(rules, intent, ctx.knownPayees, Gate.ReversibilityOf(intent, ctx)) == None
  {
    if rules != [] {
      assert !Matches(rules[0], intent, ctx);
      NoRuleMeans(rules[1..], intent, ctx);
    }
  }

  lemma ClearFloorMeans(intent: PaymentIntent, ctx: GateContext)
    requires ClearsFloor(intent, ctx)
    ensures Gate.Floor(intent, ctx).None?
  {
    RationaleMeans(intent.rationale, ctx.config.minRationaleChars);
    NoRuleMeans(ctx.denyRules, intent, ctx);
    hide Gate.Trim, HasRationale;
  }

  lemma FirstMatch(intent: PaymentIntent, ctx: GateContext, n: nat) returns (i: nat)
    requires n < |ctx.denyRules| && Matches(ctx.denyRules[n], intent, ctx)
    ensures i < |ctx.denyRules| && Matches(ctx.denyRules[i], intent, ctx)
    ensures forall j :: 0 <= j < i ==> !Matches(ctx.denyRules[j], intent, ctx)
  {
    i := 0;
    while !Matches(ctx.denyRules[i], intent, ctx)
      invariant i <= n && forall j :: 0 <= j < i ==> !Matches(ctx.denyRules[j], intent, ctx)
      decreases n - i
    {
      i := i + 1;
    }
  }

  lemma NotClearedIsBlocked(intent: PaymentIntent, ctx: GateContext)
    requires !ClearsFloor(intent, ctx)
    ensures Gate.Decide(intent, ctx).outcome == Block
  {
    hide Gate.Decide, HasRationale;
    FloorMeans(intent, ctx);
    if intent.amount > 0 && HasRationale(intent.rationale, ctx.config.minRationaleChars) {
      var n :| 0 <= n < |ctx.denyRules| && Matches(ctx.denyRules[n], intent, ctx);
      var i := FirstMatch(intent, ctx, n);
    }
  }

  lemma AllowsIsCover(m: Mandate, intent: PaymentIntent, ctx: GateContext)
    ensures Allows(m, intent, ctx) <==> Gate.IsLive(m, ctx.now) && Gate.Covers(m, intent, ctx.convert)
  {
  }

  lemma AuthorityIn(mandates: seq<Mandate>, intent: PaymentIntent, ctx: GateContext)
    ensures var found := Gate.Authority(mandates, intent, ctx.now, ctx.convert);
            if found.None? then forall i :: 0 <= i < |mandates| ==> !Allows(mandates[i], intent, ctx)
            else exists i: nat :: FirstOf(mandates, intent, ctx, i) && mandates[i] == found.value
  {
    Gate.AuthorityIsFirst(mandates, intent, ctx.now, ctx.convert);
    forall m ensures Allows(m, intent, ctx) <==> Gate.IsLive(m, ctx.now) && Gate.Covers(m, intent, ctx.convert) {
      AllowsIsCover(m, intent, ctx);
    }
    hide Gate.Authority, Gate.IsLive, Gate.Covers, Allows;
  }

  lemma AuthorityMeans(intent: PaymentIntent, ctx: GateContext)
    ensures var found := Gate.Authority(ctx.mandates, intent, ctx.now, ctx.convert);
            if found.None? then NoneAllows(intent, ctx)
            else exists i: nat :: FirstToAllow(intent, ctx, i) && ctx.mandates[i] == found.value
  {
    hide Gate.Authority, Allows;
    AuthorityIn(ctx.mandates, intent, ctx);
  }

  lemma OneFirst(mandates: seq<Mandate>, intent: PaymentIntent, ctx: GateContext, i: nat, j: nat)
    requires FirstOf(mandates, intent, ctx, i) && FirstOf(mandates, intent, ctx, j)
    ensures i == j
  {
    hide Allows;
  }

  lemma FirstIsAuthority(mandates: seq<Mandate>, intent: PaymentIntent, ctx: GateContext, i: nat)
    requires FirstOf(mandates, intent, ctx, i)
    ensures Gate.Authority(mandates, intent, ctx.now, ctx.convert) == Some(mandates[i])
  {
    hide Gate.Authority, Allows;
    AuthorityIn(mandates, intent, ctx);
    var found := Gate.Authority(mandates, intent, ctx.now, ctx.convert);
    if found.Some? {
      var j: nat :| FirstOf(mandates, intent, ctx, j) && mandates[j] == found.value;
      OneFirst(mandates, intent, ctx, i, j);
    }
  }

  lemma FindFirst(intent: PaymentIntent, ctx: GateContext) returns (i: nat)
    requires !NoneAllows(intent, ctx)
    ensures FirstToAllow(intent, ctx, i)
  {
    hide Allows;
    AuthorityMeans(intent, ctx);
    i :| FirstToAllow(intent, ctx, i);
  }

  // --- risk ---

  lemma SortedRanks(sorted: seq<int>, k: nat)
    requires Risk.IsSorted(sorted) && k < |sorted|
    ensures HasRank(sorted, k, sorted[k])
  {
    CountsBelow(sorted, k);
    CountsUpTo(sorted, k);
  }

  lemma CountsBelow(s: seq<int>, k: nat)
    requires Risk.IsSorted(s) && k < |s|
    ensures Sum(s, Below(s[k])) <= k
  {
    var v := s[k];
    assert s == s[..k] + s[k..];
    forall x | x in s[k..] ensures Below(v)(x) <= 0 {
      var i :| 0 <= i < |s[k..]| && s[k..][i] == x;
      assert x == s[k + i];
    }
    hide Sum, Risk.IsSorted;
    SumConcat(s[..k], s[k..], Below(v));
    SumBound(s[..k], Below(v), 1);
    SumBound(s[k..], Below(v), 0);
  }

  lemma CountsUpTo(s: seq<int>, k: nat)
    requires Risk.IsSorted(s) && k < |s|
    ensures k < Sum(s, UpTo(s[k]))
  {
    var v := s[k];
    assert s == s[..k + 1] + s[k + 1..];
    forall x | x in s[..k + 1] ensures UpTo(v)(x) >= 1 {
      var i :| 0 <= i < k + 1 && s[..k + 1][i] == x;
      assert x == s[i];
    }
    hide Sum, Risk.IsSorted;
    SumConcat(s[..k + 1], s[k + 1..], UpTo(v));
    AllCounted(s[..k + 1], UpTo(v));
    SumNonNegative(s[k + 1..], UpTo(v));
  }

  lemma {:induction false} AllCounted<T>(xs: seq<T>, f: T -> int)
    requires forall x :: x in xs ==> f(x) >= 1
    ensures Sum(xs, f) >= |xs|
  {
    if xs != [] {
      AllCounted(xs[..|xs| - 1], f);
    }
  }

  lemma RankIsOne(values: seq<int>, k: int, v: int, w: int)
    requires HasRank(values, k, v) && HasRank(values, k, w)
    ensures v == w
  {
    if v < w {
      SumLe(values, UpTo(v), Below(w));
    } else if w < v {
      SumLe(values, UpTo(w), Below(v));
    }
  }

  lemma RankOfSorted(values: seq<int>, k: nat)
    requires k < |values|
    ensures |Risk.Sorted(values)| == |values| && HasRank(values, k, Risk.Sorted(values)[k])
  {
    var sorted := Risk.Sorted(values);
    Risk.SortedSorts(values);
    Risk.SortedLength(values);
    SortedRanks(sorted, k);
    SumIgnoresOrder(values, sorted, Below(sorted[k]));
    SumIgnoresOrder(values, sorted, UpTo(sorted[k]));
  }

  /** The median is the middle value. */
  lemma MedianMeans(values: seq<int>, v: int)
    requires values != []
    ensures IsMiddle(values, v) <==> v == Risk.Median(values)
  {
    hide HasRank;
    var sorted, n := Risk.Sorted(values), |values|;
    Risk.SortedLength(values);
    RankOfSorted(values, n / 2);
    if n % 2 == 1 {
      if IsMiddle(values, v) {
        RankIsOne(values, n / 2, v, sorted[n / 2]);
      }
    } else {
      RankOfSorted(values, n / 2 - 1);
      HalfUp(sorted[n / 2 - 1], sorted[n / 2]);
      assert AreMiddle(values, sorted[n / 2 - 1], sorted[n / 2]);
      if IsMiddle(values, v) {
        var lo, hi :| AreMiddle(values, lo, hi) && v == (lo + hi + 1) / 2;
        RankIsOne(values, n / 2 - 1, lo, sorted[n / 2 - 1]);
        RankIsOne(values, n / 2, hi, sorted[n / 2]);
      }
    }
  }

  lemma HalfUp(a: int, b: int)
    ensures Round((a + b) as real / 2.0) == (a + b + 1) / 2
  {
  }

  lemma AnomalousMeans(amount: int, spend: seq<PriorSpend>, config: GateConfig)
    ensures var baseline := Risk.Median(Values(spend));
            Risk.Anomalous(amount, spend, config) <==> baseline > 0 && Exceeds(amount, baseline, config.anomalyMultiple)
  {
    hide Risk.Median;
    assert Values(spend) == Risk.Amounts(spend);
  }

  lemma OutlierMeans(amount: int, spend: seq<PriorSpend>, config: GateConfig)
    ensures IsOutlier(amount, spend, config.anomalyMultiple) <==> Risk.Anomalous(amount, spend, config)
  {
    hide Exceeds, IsMiddle, Values, Risk.Sorted, Risk.Anomalous;
    var values := Values(spend);
    AnomalousMeans(amount, spend, config);
    ValuesLength(spend);
    if spend != [] {
      MedianMeans(values, Risk.Median(values));
      if IsOutlier(amount, spend, config.anomalyMultiple) {
        var v :| IsMiddle(values, v) && v > 0 && Exceeds(amount, v, config.anomalyMultiple);
        MedianMeans(values, v);
      }
    }
  }

  lemma ValuesLength(spend: seq<PriorSpend>)
    ensures Values(spend) == [] <==> spend == []
  {
  }

  lemma RiskMeans(m: Mandate, intent: PaymentIntent, ctx: GateContext)
    ensures Risk.ClassifySpendRisk(intent.amount, ctx.periodSpend(m.id), Gate.SignalsOf(intent, ctx), ctx.config) == RiskIn(m, intent, ctx)
  {
    OutlierMeans(intent.amount, ctx.periodSpend(m.id), ctx.config);
    hide IsOutlier, Risk.Anomalous;
  }

  // --- the default deny rules ---

  /** Control and format characters. */
  predicate IsHidden(c: char) {
    || c <= '\U{001F}' || '\U{007F}' <= c <= '\U{009F}' || c == '\U{00AD}' || '\U{200B}' <= c <= '\U{200F}'
    || '\U{202A}' <= c <= '\U{202E}' || '\U{2060}' <= c <= '\U{206F}' || c == '\U{FEFF}'
  }

  /** What the default rules refuse: an irreversible payment of fifty or more, in hundredths, to
   *  a payee never paid, and a payee identifier with a hidden character. */
  lemma DefaultRulesMean(intent: PaymentIntent, ctx: GateContext)
    requires ctx.denyRules == DenyList.DefaultDenyRules()
    ensures |ctx.denyRules| == 2
            && ctx.denyRules[0].id == "irreversible_to_unknown_payee" && ctx.denyRules[1].id == "spoofed_payee_identifier"
    ensures NotDenied(intent, ctx) <==>
              && !(SettlesAs(intent, ctx) == Irreversible && intent.payee !in ctx.knownPayees && intent.amount >= 5000)
              && forall i :: 0 <= i < |intent.payee| ==> !IsHidden(intent.payee[i])
  {
    forall c: char ensures IsHidden(c) <==> DenyList.IsInvisible(c) {
      HiddenIsInvisible(c);
    }
    hide IsHidden, DenyList.IsInvisible;
    assert Matches(ctx.denyRules[0], intent, ctx) <==>
             SettlesAs(intent, ctx) == Irreversible && intent.payee !in ctx.knownPayees && intent.amount >= 5000;
    assert Matches(ctx.denyRules[1], intent, ctx) <==> exists i :: 0 <= i < |intent.payee| && DenyList.IsInvisible(intent.payee[i]);
  }

  lemma HiddenIsInvisible(c: char)
    ensures IsHidden(c) <==> DenyList.IsInvisible(c)
  {
  }
}
