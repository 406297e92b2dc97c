/** Session-level detectors over the recent audit trail (src/core/riskChain.ts). */
module RiskChain {
  import opened Prelude
  import opened Types
  import opened Trail

  const WINDOW: int := 15 * MINUTE
  const DRAIN_AFTER_GRANT: int := 60 * MINUTE

  predicate InWindow(e: Event, now: Instant) {
    e.AgentDecision? && e.ts >= now - WINDOW
  }

  /** Recent unattended payments to one payee. */
  predicate IsRecentAuto(e: Event, payee: string, now: Instant) {
    InWindow(e, now) && e.intent.payee == payee && e.verdict.outcome == AutoExecute
  }

  function RecentAuto(entries: seq<Event>, payee: string, now: Instant): seq<Event> {
    if entries == [] then []
    else
      var n := |entries| - 1;
      RecentAuto(entries[..n], payee, now) + (if IsRecentAuto(entries[n], payee, now) then [entries[n]] else [])
  }

  function Rails(decisions: seq<Event>): set<RailKind> {
    set e | e in decisions && e.AgentDecision? :: e.intent.rail
  }

  function Refused(entries: seq<Event>, now: Instant): seq<Event> {
    if entries == [] then []
    else
      var n := |entries| - 1;
      Refused(entries[..n], now)
      + (if InWindow(entries[n], now) && entries[n].verdict.outcome != AutoExecute then [entries[n]] else [])
  }

  function Payees(decisions: seq<Event>): set<string> {
    set e | e in decisions && e.AgentDecision? :: e.intent.payee
  }

  /** The latest grant of a mandate recorded no later than an instant. */
  function LatestGrant(entries: seq<Event>, mandateId: string, before: Instant): Option<Instant> {
    if entries == [] then None
    else
      var n := |entries| - 1;
      var latest := LatestGrant(entries[..n], mandateId, before);
      var e := entries[n];
      if e.MandateGranted? && e.mandateId == mandateId && e.ts <= before && (latest.None? || e.ts > latest.value)
      then Some(e.ts)
      else latest
  }

  /** A recent decision that used at least four fifths of the budget its mandate had
   *  left, within an hour of the mandate's grant. */
  predicate IsDrain(e: Event, entries: seq<Event>, now: Instant) {
    && InWindow(e, now)
    && Given(e.verdict.mandateId)
    && e.verdict.remaining.Some?
    && var budgetBefore := e.intent.amount + e.verdict.remaining.value;
       && budgetBefore > 0
       && e.intent.amount as real / budgetBefore as real >= 0.8
       && var grant := LatestGrant(entries, e.verdict.mandateId.value, e.ts);
          grant.Some? && e.ts - grant.value <= DRAIN_AFTER_GRANT
  }

  predicate AnyDrain(scanned: seq<Event>, entries: seq<Event>, now: Instant) {
    exists i :: 0 <= i < |scanned| && IsDrain(scanned[i], entries, now)
  }

  function ChainVerdict(intent: PaymentIntent, entries: seq<Event>, isStreaming: bool, now: Instant): ChainAlert {
    var same := RecentAuto(entries, intent.payee, now);
    var refused := Refused(entries, now);
    if !isStreaming && |same| >= 3 then Smurfing
    else if !isStreaming && |same| >= 2 && |Rails(same) + {intent.rail}| >= 2 then Splitting
    else if |refused| >= 4 && |Payees(refused) + {intent.payee}| >= 2 then Probing
    else if AnyDrain(entries, entries, now) then DrainAfterGrant
    else NoAlert
  }

  /** The detectors as the program runs them. */
  method EvaluateRiskChain(intent: PaymentIntent, entries: seq<Event>, isStreaming: bool, now: Instant) returns (alert: ChainAlert)
    ensures alert == ChainVerdict(intent, entries, isStreaming, now)
  {
    var same, refused := [], [];
    for i := 0 to |entries|
      invariant same == RecentAuto(entries[..i], intent.payee, now)
      invariant refused == Refused(entries[..i], now)
    {
      assert entries[..i + 1][..i] == entries[..i];
      if IsRecentAuto(entries[i], intent.payee, now) {
        same := same + [entries[i]];
      }
      if InWindow(entries[i], now) && entries[i].verdict.outcome != AutoExecute {
        refused := refused + [entries[i]];
      }
    }
    assert entries[..|entries|] == entries;
    if !isStreaming && |same| >= 3 {
      return Smurfing;
    }
    if !isStreaming && |same| >= 2 && |Rails(same) + {intent.rail}| >= 2 {
      return Splitting;
    }
    if |refused| >= 4 && |Payees(refused) + {intent.payee}| >= 2 {
      return Probing;
    }
    for i := 0 to |entries|
      invariant forall j :: 0 <= j < i ==> !IsDrain(entries[j], entries, now)
    {
      if InWindow(entries[i], now) && Given(entries[i].verdict.mandateId) && entries[i].verdict.remaining.Some? {
        var budgetBefore := entries[i].intent.amount + entries[i].verdict.remaining.value;
        if budgetBefore > 0 && entries[i].intent.amount as real / budgetBefore as real >= 0.8 {
          var grant := FindLatestGrant(entries, entries[i].verdict.mandateId.value, entries[i].ts);
          if grant.Some? && entries[i].ts - grant.value <= DRAIN_AFTER_GRANT {
            return DrainAfterGrant;
          }
        }
      }
    }
    return NoAlert;
  }

  method FindLatestGrant(entries: seq<Event>, mandateId: string, before: Instant) returns (latest: Option<Instant>)
    ensures latest == LatestGrant(entries, mandateId, before)
  {
    latest := None;
    for i := 0 to |entries|
      invariant latest == LatestGrant(entries[..i], mandateId, before)
    {
      assert entries[..i + 1][..i] == entries[..i];
      var e := entries[i];
      if e.MandateGranted? && e.mandateId == mandateId && e.ts <= before && (latest.None? || e.ts > latest.value) {
        latest := Some(e.ts);
      }
    }
    assert entries[..|entries|] == entries;
  }

  lemma {:induction false} RecentAutoMembers(entries: seq<Event>, payee: string, now: Instant)
    ensures forall e :: e in RecentAuto(entries, payee, now) <==> e in entries && IsRecentAuto(e, payee, now)
    ensures |RecentAuto(entries, payee, now)| == Sum(entries, RecentAutoCount(payee, now))
  {
    if entries != [] {
      RecentAutoMembers(entries[..|entries| - 1], payee, now);
    }
  }

  function RecentAutoCount(payee: string, now: Instant): Event -> int {
    (e: Event) => if IsRecentAuto(e, payee, now) then 1 else 0
  }
}
