/** The session detectors over whole runs: bursts to one payee stay small. */
module BurstLimit {
  import opened Prelude
  import opened Types
  import opened Trail
  import opened RiskChain
  import opened Executor
  import opened Effects
  import opened Invariants

  /** An unattended agent-phase decision for a payee within a quarter of an hour from `first`. */
  predicate InBurst(e: Event, payee: string, first: Instant) {
    && e.AgentDecision? && e.verdict.outcome == AutoExecute
    && e.intent.payee == payee
    && first <= e.ts <= first + WINDOW
  }

  function BurstCount(payee: string, first: Instant): Event -> int {
    (e: Event) => if InBurst(e, payee, first) then 1 else 0
  }

  /** An unattended decision was clear of alerts given what was recorded before it. */
  ghost predicate ChainVerdictAt(audit: seq<Event>, n: nat)
    requires n < |audit|
  {
    (audit[n].AgentDecision? && audit[n].verdict.outcome == AutoExecute) ==>
      ChainVerdict(audit[n].intent, audit[..n], false, audit[n].ts) == NoAlert
  }

  ghost predicate ChainClear(audit: seq<Event>) {
    forall n :: 0 <= n < |audit| ==> ChainVerdictAt(audit, n)
  }

  ghost predicate OneRail(audit: seq<Event>, payee: string, first: Instant) {
    forall i, j :: 0 <= i < |audit| && 0 <= j < |audit| && InBurst(audit[i], payee, first) && InBurst(audit[j], payee, first)
      ==> audit[i].intent.rail == audit[j].intent.rail
  }

  /** Whatever the clock did, the last decision of a burst had the others in its window. */
  lemma BurstIsRecent(audit: seq<Event>, payee: string, first: Instant, now: Instant)
    requires first <= now <= first + WINDOW
    ensures Sum(audit, BurstCount(payee, first)) <= |RecentAuto(audit, payee, now)|
    ensures forall e :: e in audit && InBurst(e, payee, first) ==> e in RecentAuto(audit, payee, now)
  {
    RecentAutoMembers(audit, payee, now);
    SumLe(audit, BurstCount(payee, first), RecentAutoCount(payee, now));
  }

  lemma TwoRails(rails: set<RailKind>, r: RailKind, s: RailKind)
    requires r in rails && s in rails && r != s
    ensures |rails| >= 2
  {
    var rest := rails - {r, s};
    assert rails == {r, s} + rest;
    assert |rails| == |{r, s}| + |rest|;
  }

  /** A decision clear of alerts joins at most two others, both on its own rail. */
  lemma BurstGrowsBy(before: seq<Event>, e: Event, first: Instant)
    requires e.AgentDecision? && InBurst(e, e.intent.payee, first)
    requires ChainVerdict(e.intent, before, false, e.ts) == NoAlert
    ensures Sum(before, BurstCount(e.intent.payee, first)) <= 2
    ensures Sum(before, BurstCount(e.intent.payee, first)) == 2 ==>
              forall d :: d in before && InBurst(d, e.intent.payee, first) ==> d.intent.rail == e.intent.rail
  {
    var payee := e.intent.payee;
    var same := RecentAuto(before, payee, e.ts);
    BurstIsRecent(before, payee, first, e.ts);
    if Sum(before, BurstCount(payee, first)) == 2 {
      forall d | d in before && InBurst(d, payee, first) ensures d.intent.rail == e.intent.rail {
        assert d in same;
        if d.intent.rail != e.intent.rail {
          TwoRails(Rails(same) + {e.intent.rail}, d.intent.rail, e.intent.rail);
        }
      }
    }
  }

  /** A trail clear of alerts holds at most three unattended decisions for one payee in any
   *  quarter of an hour, and three only if they are all on one rail. */
  lemma {:induction false} ClearTrailHasSmallBursts(audit: seq<Event>, payee: string, first: Instant)
    requires ChainClear(audit)
    ensures Sum(audit, BurstCount(payee, first)) <= 3
    ensures Sum(audit, BurstCount(payee, first)) == 3 ==> OneRail(audit, payee, first)
  {
    if audit != [] {
      var n := |audit| - 1;
      var before, e := audit[..n], audit[n];
      ChainClearPrefix(audit);
      assert ChainVerdictAt(audit, n);
      hide ChainVerdict, ChainClear, ChainVerdictAt;
      ClearTrailHasSmallBursts(before, payee, first);
      assert audit == before + [e];
      if InBurst(e, payee, first) {
        BurstGrowsBy(before, e, first);
        assert forall d :: d in audit <==> d in before || d == e;
      }
    }
  }

  lemma ChainClearPrefix(audit: seq<Event>)
    requires ChainClear(audit) && audit != []
    ensures ChainClear(audit[..|audit| - 1])
  {
    hide ChainVerdict;
    var before := audit[..|audit| - 1];
    assert forall k :: 0 <= k < |before| ==> before[k] == audit[k] && before[..k] == audit[..k];
    forall k | 0 <= k < |before| ensures ChainVerdictAt(before, k) {
      assert ChainVerdictAt(audit, k);
    }
  }

  // --- runs ---

  predicate NoDailyMandate(mandates: seq<Mandate>) {
    forall i :: 0 <= i < |mandates| ==> mandates[i].period != Day
  }

  /** The step introduces no mandate with a daily period. */
  predicate NoDailyStep(step: Step) {
    && (step.GrantIt? ==> step.mandate.period != Day)
    && (step.AmendIt? ==> step.patch.period != Some(Day))
  }

  ghost predicate NonStreamingRun(start: World, steps: seq<Step>) {
    && start.audit == []
    && NoDailyMandate(start.ledger.mandates)
    && forall step :: step in steps ==> NoDailyStep(step)
  }

  lemma BeginIsClear(env: Env, w: World, step: Step)
    requires NoDailyMandate(w.ledger.mandates)
    requires step.Begin? && HaltReason(env, w.ledger).None?
    ensures Next(env, w, step).audit == w.audit + [DecisionEvent(env, w, step.intent, step.attestation, step.now)]
    ensures ChainVerdictAt(Next(env, w, step).audit, |w.audit|)
  {
    var audit := Next(env, w, step).audit;
    assert audit[..|w.audit|] == w.audit;
    if Verdict(env, w, step.intent, step.attestation, step.now).outcome == AutoExecute {
      AutoVerdict(env, w, step.intent, step.attestation, step.now);
      assert !IsStreaming(w.ledger.mandates, GateVerdict(env, w.ledger, step.intent, step.attestation, step.now));
    }
  }

  /** Only a launch records an unattended decision, and the detectors cleared it. */
  lemma StepKeepsChainClear(env: Env, w: World, step: Step)
    requires ChainClear(w.audit) && NoDailyMandate(w.ledger.mandates)
    ensures ChainClear(Next(env, w, step).audit)
  {
    hide Next, ChainVerdict, DecisionEvent;
    if step.Begin? && HaltReason(env, w.ledger).None? {
      BeginIsClear(env, w, step);
    } else {
      QuietStep(env, w, step);
    }
    ChainClearExtend(w.audit, Next(env, w, step).audit);
  }

  lemma ChainClearExtend(audit: seq<Event>, more: seq<Event>)
    requires ChainClear(audit) && audit <= more
    requires forall k :: |audit| <= k < |more| ==> ChainVerdictAt(more, k)
    ensures ChainClear(more)
  {
    hide ChainVerdict;
    forall k | 0 <= k < |more| ensures ChainVerdictAt(more, k) {
      if k < |audit| {
        assert more[k] == audit[k] && more[..k] == audit[..k];
        assert ChainVerdictAt(audit, k);
      }
    }
  }

  lemma {:induction false} NonStreamingRunIsClear(env: Env, start: World, steps: seq<Step>)
    requires NonStreamingRun(start, steps)
    ensures ChainClear(Run(env, start, steps).audit)
    ensures NoDailyMandate(Run(env, start, steps).ledger.mandates)
  {
    hide Next;
    if steps != [] {
      var n := |steps| - 1;
      NonStreamingRunIsClear(env, start, steps[..n]);
      var w := Run(env, start, steps[..n]);
      assert steps[n] in steps;
      StepKeepsChainClear(env, w, steps[n]);
      NextMandates(env, w, steps[n]);
    }
  }

  /** BURSTS. In every run, executions overlapping or not, without daily mandates: any
   *  quarter of an hour holds at most three unattended decisions for one payee, and if
   *  there are three they are all on one rail. */
  lemma BurstsStaySmall(env: Env, start: World, steps: seq<Step>, payee: string, first: Instant)
    requires NonStreamingRun(start, steps)
    ensures var audit := Run(env, start, steps).audit;
            && Sum(audit, BurstCount(payee, first)) <= 3
            && (Sum(audit, BurstCount(payee, first)) == 3 ==> OneRail(audit, payee, first))
  {
    hide Next;
    NonStreamingRunIsClear(env, start, steps);
    ClearTrailHasSmallBursts(Run(env, start, steps).audit, payee, first);
  }
}
