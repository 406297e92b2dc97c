/** The counterfactual simulator (src/obs/replaySim.ts), and its fixpoint: replayed against
 *  the policy that was in force, a session reports no change. */
module ReplaySim {
  import opened Prelude
  import opened Types
  import opened Calendar
  import opened Risk
  import opened Gate
  import opened DenyList
  import opened Store
  import opened Trail
  import opened RiskChain
  import opened Executor
  import opened Invariants

  datatype Candidate = Candidate(mandates: seq<Mandate>, config: GateConfig, denyRules: seq<DenyRule>)

  datatype ReplayRecord = ReplayRecord(intentId: string, original: Outcome, replayed: Outcome)

  /** What the candidate policy has let through so far, by mandate. */
  type Reconstructed = map<string, seq<PriorSpend>>

  function Spent(settled: Reconstructed, id: string): seq<PriorSpend> {
    if id in settled then settled[id] else []
  }

  function From(spend: seq<PriorSpend>, start: Instant): seq<PriorSpend> {
    if spend == [] then []
    else
      var n := |spend| - 1;
      From(spend[..n], start) + (if spend[n].at >= start then [spend[n]] else [])
  }

  function CandidateSpend(c: Candidate, settled: Reconstructed, now: Instant): string -> seq<PriorSpend> {
    (id: string) =>
      match GetMandate(c.mandates, id) {
        case None => []
        case Some(m) => From(Spent(settled, id), PeriodStart(now, m.period))
      }
  }

  /** The recorded inputs, the candidate's policy, and the reconstructed spend. */
  function CandidateContext(c: Candidate, e: Event, settled: Reconstructed): GateContext
    requires e.AgentDecision?
  {
    var trust, reputation := e.inputs.trust, e.inputs.reputation;
    GateContext(
      e.intent.createdAt,
      c.mandates,
      CandidateSpend(c, settled, e.intent.createdAt),
      if trust == New then {} else {e.intent.payee},
      Some((payee: string) => trust),
      None,
      e.inputs.attestation,
      if reputation.Some? then Some((payee: string) => reputation) else None,
      c.denyRules,
      c.config,
      Some(e.inputs.reversibility))
  }

  function Replayed(c: Candidate, e: Event, settled: Reconstructed): GateDecision
    requires e.AgentDecision?
  {
    Decide(e.intent, CandidateContext(c, e, settled))
  }

  function Absorb(settled: Reconstructed, e: Event, decision: GateDecision): Reconstructed
    requires e.AgentDecision?
  {
    if decision.outcome == AutoExecute && Given(decision.mandateId) then
      var id := decision.mandateId.value;
      settled[id := Spent(settled, id) + [PriorSpend(e.intent.amount, e.intent.createdAt)]]
    else settled
  }

  datatype Replay = Replay(settled: Reconstructed, records: seq<ReplayRecord>)

  function ReplayOf(entries: seq<Event>, c: Candidate): Replay {
    if entries == [] then Replay(map[], [])
    else
      var n := |entries| - 1;
      var before := ReplayOf(entries[..n], c);
      var e := entries[n];
      if !e.AgentDecision? then before
      else
        var decision := Replayed(c, e, before.settled);
        Replay(Absorb(before.settled, e, decision),
               before.records + [ReplayRecord(e.intent.id, e.verdict.outcome, decision.outcome)])
  }

  function IsChange(): ReplayRecord -> int {
    (r: ReplayRecord) => if r.original != r.replayed then 1 else 0
  }

  /** The number of changes: none exactly when every outcome stays, and one for each record at
   *  most and exactly when every outcome changes. */
  lemma {:induction false} ChangesMean(records: seq<ReplayRecord>)
    ensures 0 <= Sum(records, IsChange()) <= |records|
    ensures Sum(records, IsChange()) == 0 <==> forall r :: r in records ==> r.original == r.replayed
    ensures Sum(records, IsChange()) == |records| <==> forall r :: r in records ==> r.original != r.replayed
  {
    if records != [] {
      var n := |records| - 1;
      ChangesMean(records[..n]);
      assert records == records[..n] + [records[n]];
    }
  }

  /** The simulator: a loop over the decisions with the spend rebuilt on the way. */
  method ReplayAudit(entries: seq<Event>, c: Candidate) returns (records: seq<ReplayRecord>, changed: int)
    ensures records == ReplayOf(entries, c).records
    ensures changed == Sum(records, IsChange())
  {
    var settled: Reconstructed := map[];
    records, changed := [], 0;
    for i := 0 to |entries|
      invariant Replay(settled, records) == ReplayOf(entries[..i], c)
      invariant changed == Sum(records, IsChange())
    {
      assert entries[..i + 1][..i] == entries[..i];
      var e := entries[i];
      if e.AgentDecision? {
        var ctx := CandidateContext(c, e, settled);
        var decision := EvaluateGate(e.intent, ctx);
        if decision.outcome == AutoExecute && Given(decision.mandateId) {
          var id := decision.mandateId.value;
          settled := settled[id := Spent(settled, id) + [PriorSpend(e.intent.amount, e.intent.createdAt)]];
        }
        var r := ReplayRecord(e.intent.id, e.verdict.outcome, decision.outcome);
        SumAppend(records, r, IsChange());
        records := records + [r];
        changed := changed + (if e.verdict.outcome != decision.outcome then 1 else 0);
      }
    }
    assert entries[..|entries|] == entries;
  }

  // --- the trail's own account of what ran unattended ---

  /** The recorded verdicts, absorbed. */
  function Unattended(entries: seq<Event>): Reconstructed {
    if entries == [] then map[]
    else
      var n := |entries| - 1;
      var before := Unattended(entries[..n]);
      if entries[n].AgentDecision? then Absorb(before, entries[n], entries[n].verdict) else before
  }

  function TrailSpend(w: World, id: string, now: Instant): seq<PriorSpend> {
    match GetMandate(w.ledger.mandates, id)
    case None => []
    case Some(m) => From(Spent(Unattended(w.audit), id), PeriodStart(now, m.period))
  }

  predicate OverCap(m: Mandate, spend: seq<PriorSpend>, amount: int) {
    Sum(spend, SpendAmount()) + amount > m.perPeriodCap
  }

  /** A payment within its caps that still needs the operator. */
  predicate Asks(intent: PaymentIntent, spend: seq<PriorSpend>, signals: Signals, config: GateConfig) {
    || signals.trust == New
    || RecentCount(spend, intent.createdAt, config) >= config.velocityMaxCount
    || ClassifySpendRisk(intent.amount, spend, signals, config).tier == High
  }

  predicate Alerted(env: Env, w: World, intent: PaymentIntent, att: Option<Attestation>) {
    var now := intent.createdAt;
    ChainVerdict(intent, w.audit, IsStreaming(w.ledger.mandates, GateVerdict(env, w.ledger, intent, att, now)), now) != NoAlert
  }

  /** Two accounts of prior spend make no difference to a payment under its caps: it is over
   *  the period cap on both or on neither, and if on neither, the second asks for the
   *  operator exactly when the first, or an alert, does. */
  predicate Alike(m: Mandate, intent: PaymentIntent, first: seq<PriorSpend>, second: seq<PriorSpend>,
                  alerted: bool, signals: Signals, config: GateConfig) {
    if OverCap(m, first, intent.amount) || OverCap(m, second, intent.amount) then
      OverCap(m, first, intent.amount) && OverCap(m, second, intent.amount)
    else
      Asks(intent, second, signals, config) <==> Asks(intent, first, signals, config) || alerted
  }

  /** The mandate whose prior spend the gate will weigh, if it comes to that. */
  function Weighed(env: Env, w: World, intent: PaymentIntent, att: Option<Attestation>): Option<Mandate> {
    var pick := Authority(w.ledger.mandates, intent, intent.createdAt, None);
    if Floor(intent, Context(env, w.ledger, intent, att, intent.createdAt)).Some? then None
    else if pick.Some? && intent.amount > pick.value.perTxCap then None
    else pick
  }

  /** What the trail says ran unattended is, for this payment, as good as the ledger. */
  predicate Steady(env: Env, w: World, intent: PaymentIntent, att: Option<Attestation>) {
    var m := Weighed(env, w, intent, att);
    m.Some? ==>
      Alike(m.value, intent, PeriodSpend(w.ledger, m.value.id, intent.createdAt), TrailSpend(w, m.value.id, intent.createdAt),
            Alerted(env, w, intent, att), SignalsOf(intent, Context(env, w.ledger, intent, att, intent.createdAt)), env.config)
  }

  /** Deny rules that ask of the known payees only whether this one is among them. */
  ghost predicate LocalRules(rules: seq<DenyRule>) {
    forall r: DenyRule, i: PaymentIntent, k: set<string>, k': set<string>, rev ::
      r in rules && (i.payee in k <==> i.payee in k') ==> r.matches(i, k, rev) == r.matches(i, k', rev)
  }

  lemma DefaultRulesAreLocal()
    ensures LocalRules(DefaultDenyRules())
  {
  }

  lemma {:induction false} SameDenial(rules: seq<DenyRule>, intent: PaymentIntent, k: set<string>, k': set<string>, rev: Reversibility)
    requires LocalRules(rules) && (intent.payee in k <==> intent.payee in k')
    ensures FirstDenied(rules, intent, k, rev) == FirstDenied(rules, intent, k', rev)
  {
    if rules != [] {
      assert rules[0] in rules;
      assert forall r :: r in rules[1..] ==> r in rules;
      SameDenial(rules[1..], intent, k, k', rev);
    }
  }

  lemma JudgedOutcome(intent: PaymentIntent, m: Mandate, spend: seq<PriorSpend>, signals: Signals, config: GateConfig)
    ensures Judge(intent, m, intent.amount, spend, signals, intent.createdAt, config).outcome
         == if intent.amount > m.perTxCap || OverCap(m, spend, intent.amount) then Block
            else if Asks(intent, spend, signals, config) then ConfirmOperator
            else AutoExecute
  {
    hide ClassifySpendRisk, RecentCount, Sum;
  }

  /** The simulated gate sees what the live gate saw, but for the spend. */
  lemma SimulatedVerdict(env: Env, w: World, intent: PaymentIntent, att: Option<Attestation>)
    requires env.fx.None? && LocalRules(env.denyRules)
    ensures var live := Context(env, w.ledger, intent, att, intent.createdAt);
            var e := DecisionEvent(env, w, intent, att, intent.createdAt);
            var d := Replayed(Candidate(w.ledger.mandates, env.config, env.denyRules), e, Unattended(w.audit));
            var pick := Authority(w.ledger.mandates, intent, intent.createdAt, None);
            if Floor(intent, live).Some? then
              d == Refusal(Floor(intent, live).value) == GateVerdict(env, w.ledger, intent, att, intent.createdAt)
            else if pick.None? then
              d == UNCOVERED == GateVerdict(env, w.ledger, intent, att, intent.createdAt)
            else
              && d == Judge(intent, pick.value, intent.amount, TrailSpend(w, pick.value.id, intent.createdAt),
                            SignalsOf(intent, live), intent.createdAt, env.config)
              && GateVerdict(env, w.ledger, intent, att, intent.createdAt)
                 == Judge(intent, pick.value, intent.amount, PeriodSpend(w.ledger, pick.value.id, intent.createdAt),
                          SignalsOf(intent, live), intent.createdAt, env.config)
  {
    var c := Candidate(w.ledger.mandates, env.config, env.denyRules);
    var e := DecisionEvent(env, w, intent, att, intent.createdAt);
    var live := Context(env, w.ledger, intent, att, intent.createdAt);
    var sim := CandidateContext(c, e, Unattended(w.audit));
    KnownIffCounted(w.ledger.intents, intent.payee);
    SameDenial(env.denyRules, intent, live.knownPayees, sim.knownPayees, ReversibilityOf(intent, live));
    ActiveAuthority(w.ledger.mandates, intent, intent.createdAt, None);
    assert Floor(intent, live) == Floor(intent, sim);
    assert SignalsOf(intent, live) == SignalsOf(intent, sim);
    hide Verdict, Authority, Judge, Floor, SignalsOf, From, Unattended;
  }

  /** The recorded outcome is the replayed one exactly when the payment was steady, and then
   *  both accounts take in the same spend. */
  lemma RecordedOutcome(env: Env, w: World, intent: PaymentIntent, att: Option<Attestation>)
    requires env.fx.None? && LocalRules(env.denyRules)
    ensures var e := DecisionEvent(env, w, intent, att, intent.createdAt);
            var d := Replayed(Candidate(w.ledger.mandates, env.config, env.denyRules), e, Unattended(w.audit));
            && (e.verdict.outcome == d.outcome <==> Steady(env, w, intent, att))
            && (e.verdict.outcome == d.outcome ==>
                  Absorb(Unattended(w.audit), e, d) == Absorb(Unattended(w.audit), e, e.verdict))
  {
    hide Judge, Floor, SignalsOf, Authority, Replayed, GateVerdict, OverCap, Asks, Context, InputsOf, ChainVerdict, IsStreaming,
         TrailSpend, PeriodSpend, Unattended, Refusal, LocalRules;
    var live := Context(env, w.ledger, intent, att, intent.createdAt);
    var pick := Authority(w.ledger.mandates, intent, intent.createdAt, None);
    SimulatedVerdict(env, w, intent, att);
    if Floor(intent, live).None? && pick.Some? {
      JudgedOutcome(intent, pick.value, TrailSpend(w, pick.value.id, intent.createdAt), SignalsOf(intent, live), env.config);
      JudgedOutcome(intent, pick.value, PeriodSpend(w.ledger, pick.value.id, intent.createdAt), SignalsOf(intent, live), env.config);
      JudgeNames(intent, pick.value, TrailSpend(w, pick.value.id, intent.createdAt), SignalsOf(intent, live), env.config);
      JudgeNames(intent, pick.value, PeriodSpend(w.ledger, pick.value.id, intent.createdAt), SignalsOf(intent, live), env.config);
    } else {
      RefusalOutcome(if Floor(intent, live).Some? then Floor(intent, live).value else BadAmount);
    }
  }

  lemma RefusalOutcome(reason: Reason)
    ensures Refusal(reason).outcome == Block && Refusal(reason).mandateId.None?
  {
  }

  lemma JudgeNames(intent: PaymentIntent, m: Mandate, spend: seq<PriorSpend>, signals: Signals, config: GateConfig)
    ensures Judge(intent, m, intent.amount, spend, signals, intent.createdAt, config).mandateId == Some(m.id)
  {
  }

  lemma ReplayAppend(entries: seq<Event>, e: Event, c: Candidate)
    ensures ReplayOf(entries + [e], c) ==
            var before := ReplayOf(entries, c);
            if !e.AgentDecision? then before
            else
              var decision := Replayed(c, e, before.settled);
              Replay(Absorb(before.settled, e, decision), before.records + [ReplayRecord(e.intent.id, e.verdict.outcome, decision.outcome)])
  {
    assert (entries + [e])[..|entries|] == entries;
  }

  lemma {:induction false} ReplayGrows(entries: seq<Event>, more: seq<Event>, c: Candidate)
    ensures forall r :: r in ReplayOf(entries, c).records ==> r in ReplayOf(entries + more, c).records
  {
    hide Replayed;
    if more == [] {
      assert entries + more == entries;
    } else {
      var n := |more| - 1;
      ReplayGrows(entries, more[..n], c);
      assert entries + more == (entries + more[..n]) + [more[n]];
      ReplayAppend(entries + more[..n], more[n], c);
    }
  }

  lemma {:induction false} NoChangesIff(records: seq<ReplayRecord>)
    ensures Sum(records, IsChange()) == 0 <==> forall r :: r in records ==> r.original == r.replayed
  {
    if records != [] {
      var n := |records| - 1;
      NoChangesIff(records[..n]);
      SumNonNegative(records[..n], IsChange());
      assert forall r :: r in records <==> r in records[..n] || r == records[n];
    }
  }

  // --- whole runs ---

  /** The policy in force never changes, payments are judged at the instant they were made,
   *  and nothing is converted. Executions may overlap, rails may fail, refunds and approvals
   *  may come in between; the ledger may start with whatever it holds, and the trail with
   *  anything but decisions, such as the grants of the mandates. */
  ghost predicate FixedPolicy(env: Env, start: World, steps: seq<Step>) {
    && (forall e :: e in start.audit ==> !e.AgentDecision?)
    && env.fx.None? && LocalRules(env.denyRules)
    && forall step :: step in steps ==> KeepsPolicy(step)
  }

  predicate KeepsPolicy(step: Step) {
    && !step.GrantIt? && !step.AmendIt? && !step.RevokeIt?
    && (step.Begin? ==> step.now == step.intent.createdAt)
  }

  /** If the step is judged, the trail's own account of earlier payments would not have
   *  judged it differently. */
  predicate SteadyStep(env: Env, w: World, step: Step) {
    (step.Begin? && HaltReason(env, w.ledger).None?) ==> Steady(env, w, step.intent, step.attestation)
  }

  ghost predicate SteadyRun(env: Env, start: World, steps: seq<Step>) {
    forall n {:trigger steps[n]} :: 0 <= n < |steps| ==> SteadyStep(env, Run(env, start, steps[..n]), steps[n])
  }

  lemma SteadyPrefix(env: Env, start: World, steps: seq<Step>)
    requires steps != []
    ensures SteadyRun(env, start, steps) <==>
              SteadyRun(env, start, steps[..|steps| - 1])
              && SteadyStep(env, Run(env, start, steps[..|steps| - 1]), steps[|steps| - 1])
  {
    hide Run, SteadyStep;
    var n := |steps| - 1;
    var fewer := steps[..n];
    assert forall i {:trigger steps[i]} :: 0 <= i < n ==> fewer[i] == steps[i] && fewer[..i] == steps[..i];
    assert forall i {:trigger fewer[i]} :: 0 <= i < n ==> fewer[i] == steps[i] && fewer[..i] == steps[..i];
  }

  /** Events without an agent-phase decision concern neither account. */
  lemma {:induction false} QuietTail(entries: seq<Event>, more: seq<Event>, c: Candidate)
    requires forall e :: e in more ==> !e.AgentDecision?
    ensures ReplayOf(entries + more, c) == ReplayOf(entries, c)
    ensures Unattended(entries + more) == Unattended(entries)
  {
    if more == [] {
      assert entries + more == entries;
    } else {
      hide Replayed;
      var n := |more| - 1;
      QuietTail(entries, more[..n], c);
      assert entries + more == (entries + more[..n]) + [more[n]];
      ReplayAppend(entries + more[..n], more[n], c);
      UnattendedAppend(entries + more[..n], more[n]);
    }
  }

  lemma UnattendedAppend(entries: seq<Event>, e: Event)
    ensures Unattended(entries + [e]) == if e.AgentDecision? then Absorb(Unattended(entries), e, e.verdict) else Unattended(entries)
  {
    assert (entries + [e])[..|entries|] == entries;
  }

  /** Either the two accounts agree and nothing has been reported, or something has. */
  ghost predicate InStep(audit: seq<Event>, c: Candidate, steady: bool) {
    if steady then
      && ReplayOf(audit, c).settled == Unattended(audit)
      && forall r :: r in ReplayOf(audit, c).records ==> r.original == r.replayed
    else
      exists r :: r in ReplayOf(audit, c).records && r.original != r.replayed
  }

  lemma DecisionKeepsStep(env: Env, w: World, intent: PaymentIntent, att: Option<Attestation>, steady: bool)
    requires env.fx.None? && LocalRules(env.denyRules)
    requires InStep(w.audit, Candidate(w.ledger.mandates, env.config, env.denyRules), steady)
    ensures var e := DecisionEvent(env, w, intent, att, intent.createdAt);
            InStep(w.audit + [e], Candidate(w.ledger.mandates, env.config, env.denyRules), steady && Steady(env, w, intent, att))
  {
    var c := Candidate(w.ledger.mandates, env.config, env.denyRules);
    var e := DecisionEvent(env, w, intent, att, intent.createdAt);
    RecordedOutcome(env, w, intent, att);
    hide Verdict, InputsOf, Replayed, Steady, Absorb;
    ReplayAppend(w.audit, e, c);
    UnattendedAppend(w.audit, e);
    hide ReplayOf, Unattended;
    var d := Replayed(c, e, ReplayOf(w.audit, c).settled);
    var r := ReplayRecord(e.intent.id, e.verdict.outcome, d.outcome);
    assert ReplayOf(w.audit + [e], c).records == ReplayOf(w.audit, c).records + [r];
    if !steady {
      var bad :| bad in ReplayOf(w.audit, c).records && bad.original != bad.replayed;
      assert bad in ReplayOf(w.audit + [e], c).records;
    } else if !Steady(env, w, intent, att) {
      assert r in ReplayOf(w.audit + [e], c).records;
    }
  }

  lemma StepKeepsStep(env: Env, w: World, step: Step, steady: bool)
    requires env.fx.None? && LocalRules(env.denyRules) && KeepsPolicy(step)
    requires InStep(w.audit, Candidate(w.ledger.mandates, env.config, env.denyRules), steady)
    ensures InStep(Next(env, w, step).audit, Candidate(w.ledger.mandates, env.config, env.denyRules), steady && SteadyStep(env, w, step))
  {
    var c := Candidate(w.ledger.mandates, env.config, env.denyRules);
    if step.Begin? && HaltReason(env, w.ledger).None? {
      DecisionKeepsStep(env, w, step.intent, step.attestation, steady);
      DecisionIsRecorded(env, w, step);
    } else {
      QuietStep(env, w, step);
      hide Next, ReplayOf, Unattended;
      var more := Next(env, w, step).audit[|w.audit|..];
      assert Next(env, w, step).audit == w.audit + more;
      QuietTail(w.audit, more, c);
    }
  }

  lemma DecisionIsRecorded(env: Env, w: World, step: Step)
    requires step.Begin? && HaltReason(env, w.ledger).None?
    ensures Next(env, w, step).audit == w.audit + [DecisionEvent(env, w, step.intent, step.attestation, step.now)]
  {
    hide Verdict, DecisionEvent;
  }

  lemma NoDecisionsYet(audit: seq<Event>, c: Candidate)
    requires forall e :: e in audit ==> !e.AgentDecision?
    ensures ReplayOf(audit, c) == Replay(map[], []) && Unattended(audit) == map[]
  {
    QuietTail([], audit, c);
    assert [] + audit == audit;
  }

  lemma {:induction false} RunInStep(env: Env, start: World, steps: seq<Step>)
    requires FixedPolicy(env, start, steps)
    ensures Run(env, start, steps).ledger.mandates == start.ledger.mandates
    ensures InStep(Run(env, start, steps).audit, Candidate(start.ledger.mandates, env.config, env.denyRules), SteadyRun(env, start, steps))
  {
    hide Next, LocalRules, SteadyStep;
    if steps != [] {
      hide InStep, SteadyRun;
      var n := |steps| - 1;
      var w := Run(env, start, steps[..n]);
      RunInStep(env, start, steps[..n]);
      SteadyPrefix(env, start, steps);
      assert steps[n] in steps;
      NextMandates(env, w, steps[n]);
      StepKeepsStep(env, w, steps[n], SteadyRun(env, start, steps[..n]));
    } else {
      NoDecisionsYet(start.audit, Candidate(start.ledger.mandates, env.config, env.denyRules));
    }
  }

  /** FIXPOINT, exactly. For every run under a fixed policy, replaying its trail against that
   *  policy reports no change if and only if every judged payment was steady: neither an
   *  alert nor the difference between the ledger and the trail's unattended payments tipped
   *  a cap, the velocity ceiling or the risk tier. */
  lemma ReplayFixpointIff(env: Env, start: World, steps: seq<Step>)
    requires FixedPolicy(env, start, steps)
    ensures var c := Candidate(start.ledger.mandates, env.config, env.denyRules);
            Sum(ReplayOf(Run(env, start, steps).audit, c).records, IsChange()) == 0 <==> SteadyRun(env, start, steps)
  {
    hide Run, FixedPolicy, SteadyRun, ReplayOf, Unattended;
    RunInStep(env, start, steps);
    NoChangesIff(ReplayOf(Run(env, start, steps).audit, Candidate(start.ledger.mandates, env.config, env.denyRules)).records);
  }
}
