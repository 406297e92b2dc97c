/** When each session alert is due, in terms of the entries of the trail alone
 *  (src/core/riskChain.ts:29-156). */
module RiskChainMeaning {
  import opened Prelude
  import opened Types
  import opened Trail
  import RiskChain

  const QUARTER_HOUR: int := 900_000
  const HOUR: int := 3_600_000

  predicate IsRecent(e: Event, now: Instant) {
    e.AgentDecision? && now - e.ts <= QUARTER_HOUR
  }

  /** A recent decision that let a payment to this payee run unattended. */
  predicate PaysPayee(e: Event, payee: string, now: Instant) {
    IsRecent(e, now) && e.verdict.outcome == AutoExecute && e.intent.payee == payee
  }

  /** A recent decision that did not. */
  predicate TurnsAway(e: Event, now: Instant) {
    IsRecent(e, now) && (e.verdict.outcome == ConfirmOperator || e.verdict.outcome == Block)
  }

  function Paying(payee: string, now: Instant): Event -> int {
    (e: Event) => if PaysPayee(e, payee, now) then 1 else 0
  }

  function Turning(now: Instant): Event -> int {
    (e: Event) => if TurnsAway(e, now) then 1 else 0
  }

  /** Three unattended payments to the payee already. */
  predicate SlicingDue(intent: PaymentIntent, trail: seq<Event>, now: Instant) {
    Sum(trail, Paying(intent.payee, now)) >= 3
  }

  /** Two unattended payments to the payee already, one of them on another rail. */
  predicate SplittingDue(intent: PaymentIntent, trail: seq<Event>, now: Instant) {
    && Sum(trail, Paying(intent.payee, now)) >= 2
    && exists i :: 0 <= i < |trail| && PaysPayee(trail[i], intent.payee, now) && trail[i].intent.rail != intent.rail
  }

  /** Four payments turned away, one of them for another payee. */
  predicate ProbingDue(intent: PaymentIntent, trail: seq<Event>, now: Instant) {
    && Sum(trail, Turning(now)) >= 4
    && exists i :: 0 <= i < |trail| && TurnsAway(trail[i], now) && trail[i].intent.payee != intent.payee
  }

  /** The mandate was granted no later than the instant, and within the hour before it. */
  predicate JustGranted(trail: seq<Event>, id: string, at: Instant) {
    exists k :: 0 <= k < |trail| && trail[k].MandateGranted? && trail[k].mandateId == id && 0 <= at - trail[k].ts <= HOUR
  }

  /** A recent decision for four fifths of what its mandate had left, the mandate just granted. */
  predicate Drains(e: Event, trail: seq<Event>, now: Instant) {
    && IsRecent(e, now)
    && e.verdict.mandateId.Some? && e.verdict.mandateId.value != ""
    && e.verdict.remaining.Some?
    && e.intent.amount + e.verdict.remaining.value > 0
    && 5 * e.intent.amount >= 4 * (e.intent.amount + e.verdict.remaining.value)
    && JustGranted(trail, e.verdict.mandateId.value, e.ts)
  }

  predicate DrainDue(trail: seq<Event>, now: Instant) {
    exists i :: 0 <= i < |trail| && Drains(trail[i], trail, now)
  }

  /** Due for this payee, unless the payment streams. */
  predicate PayeeAlertDue(intent: PaymentIntent, trail: seq<Event>, isStreaming: bool, now: Instant) {
    !isStreaming && (SlicingDue(intent, trail, now) || SplittingDue(intent, trail, now))
  }

  predicate AnyDue(intent: PaymentIntent, trail: seq<Event>, isStreaming: bool, now: Instant) {
    PayeeAlertDue(intent, trail, isStreaming, now) || ProbingDue(intent, trail, now) || DrainDue(trail, now)
  }

  /** THE DETECTORS, exactly: each alert's condition, the earlier ones first. */
  lemma AlertsMean(intent: PaymentIntent, trail: seq<Event>, isStreaming: bool, now: Instant)
    ensures var alert := RiskChain.ChainVerdict(intent, trail, isStreaming, now);
            && (alert == Smurfing <==> !isStreaming && SlicingDue(intent, trail, now))
            && (alert == Splitting <==> !isStreaming && !SlicingDue(intent, trail, now) && SplittingDue(intent, trail, now))
            && (alert == Probing <==> !PayeeAlertDue(intent, trail, isStreaming, now) && ProbingDue(intent, trail, now))
            && (alert == DrainAfterGrant <==>
                  !PayeeAlertDue(intent, trail, isStreaming, now) && !ProbingDue(intent, trail, now) && DrainDue(trail, now))
            && (alert == NoAlert <==> !AnyDue(intent, trail, isStreaming, now))
  {
    PayeeAlertMeans(intent, trail, now);
    ProbingMeans(intent, trail, now);
    DrainMeans(trail, now);
    hide SlicingDue, SplittingDue, ProbingDue, DrainDue, RiskChain.AnyDrain;
  }

  // --- the pieces ---

  lemma PayeeAlertMeans(intent: PaymentIntent, trail: seq<Event>, now: Instant)
    ensures var same := RiskChain.RecentAuto(trail, intent.payee, now);
            && (SlicingDue(intent, trail, now) <==> |same| >= 3)
            && (SplittingDue(intent, trail, now) <==> |same| >= 2 && |RiskChain.Rails(same) + {intent.rail}| >= 2)
  {
    var same := RiskChain.RecentAuto(trail, intent.payee, now);
    RiskChain.RecentAutoMembers(trail, intent.payee, now);
    SumEq(trail, RiskChain.RecentAutoCount(intent.payee, now), Paying(intent.payee, now));
    OtherMember(RiskChain.Rails(same), intent.rail);
    hide Sum;
    if i :| 0 <= i < |trail| && PaysPayee(trail[i], intent.payee, now) && trail[i].intent.rail != intent.rail {
      assert trail[i] in same;
      assert trail[i].intent.rail in RiskChain.Rails(same);
    }
  }

  lemma {:induction false} RefusedMembers(trail: seq<Event>, now: Instant)
    ensures forall e :: e in RiskChain.Refused(trail, now) <==> e in trail && TurnsAway(e, now)
    ensures |RiskChain.Refused(trail, now)| == Sum(trail, Turning(now))
  {
    if trail != [] {
      RefusedMembers(trail[..|trail| - 1], now);
    }
  }

  lemma ProbingMeans(intent: PaymentIntent, trail: seq<Event>, now: Instant)
    ensures var refused := RiskChain.Refused(trail, now);
            ProbingDue(intent, trail, now) <==> |refused| >= 4 && |RiskChain.Payees(refused) + {intent.payee}| >= 2
  {
    var refused := RiskChain.Refused(trail, now);
    RefusedMembers(trail, now);
    OtherMember(RiskChain.Payees(refused), intent.payee);
    hide Sum;
    if i :| 0 <= i < |trail| && TurnsAway(trail[i], now) && trail[i].intent.payee != intent.payee {
      assert trail[i] in refused;
      assert trail[i].intent.payee in RiskChain.Payees(refused);
    }
  }

  /** A set with one more member has two exactly when it had another one. */
  lemma OtherMember<T>(s: set<T>, x: T)
    ensures |s + {x}| >= 2 <==> exists y :: y in s && y != x
  {
    if y :| y in s && y != x {
      assert {x, y} <= s + {x};
      assert s + {x} == {x, y} + (s + {x} - {x, y});
    } else {
      assert s + {x} == {x};
    }
  }

  lemma {:induction false} LatestIsAGrant(trail: seq<Event>, id: string, before: Instant)
    ensures var latest := RiskChain.LatestGrant(trail, id, before);
            && (latest.Some? ==> exists k :: && 0 <= k < |trail| && trail[k].MandateGranted? && trail[k].mandateId == id
                                             && trail[k].ts == latest.value && latest.value <= before)
            && forall k :: 0 <= k < |trail| && trail[k].MandateGranted? && trail[k].mandateId == id && trail[k].ts <= before
                           ==> latest.Some? && trail[k].ts <= latest.value
  {
    if trail != [] {
      var n := |trail| - 1;
      LatestIsAGrant(trail[..n], id, before);
      assert forall k :: 0 <= k < n ==> trail[..n][k] == trail[k];
      assert trail[n] == trail[|trail| - 1];
    }
  }

  lemma JustGrantedMeans(trail: seq<Event>, id: string, at: Instant)
    ensures var latest := RiskChain.LatestGrant(trail, id, at);
            JustGranted(trail, id, at) <==> latest.Some? && at - latest.value <= HOUR
  {
    LatestIsAGrant(trail, id, at);
    hide RiskChain.LatestGrant;
  }

  lemma FourFifths(amount: int, before: int)
    requires before > 0
    ensures amount as real / before as real >= 0.8 <==> 5 * amount >= 4 * before
  {
    var x := amount as real / before as real;
    assert x * before as real == amount as real;
  }

  lemma DrainMeans(trail: seq<Event>, now: Instant)
    ensures DrainDue(trail, now) <==> RiskChain.AnyDrain(trail, trail, now)
  {
    hide JustGranted, RiskChain.LatestGrant;
    forall i | 0 <= i < |trail|
      ensures Drains(trail[i], trail, now) <==> RiskChain.IsDrain(trail[i], trail, now)
    {
      var e := trail[i];
      if IsRecent(e, now) && Given(e.verdict.mandateId) && e.verdict.remaining.Some? {
        var before := e.intent.amount + e.verdict.remaining.value;
        if before > 0 {
          FourFifths(e.intent.amount, before);
        }
        JustGrantedMeans(trail, e.verdict.mandateId.value, e.ts);
      }
    }
    hide Drains, RiskChain.IsDrain;
  }
}
