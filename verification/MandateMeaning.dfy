/** What granting, amending and revoking do to the mandates, field by field, and that a revoked
 *  mandate authorizes nothing (src/store/memoryStore.ts:31-46, src/sdk/index.ts:181-230). */
module MandateMeaning {
  import opened Prelude
  import opened Types
  import opened Store
  import opened Trail
  import opened Executor
  import ExecutorObject
  import Invariants
  import Gate

  /** The mandate may authorize payments at the instant. */
  predicate Lives(m: Mandate, at: Instant) {
    m.status == Active && at < m.expiresAt
  }

  predicate Known(mandates: seq<Mandate>, id: string) {
    exists i :: 0 <= i < |mandates| && mandates[i].id == id
  }

  /** The list is the same but for the mandate with the id. */
  predicate SameButOne(before: seq<Mandate>, after: seq<Mandate>, id: string) {
    && |after| == |before|
    && forall i :: 0 <= i < |before| ==> after[i].id == before[i].id && (before[i].id != id ==> after[i] == before[i])
  }

  // --- revoking ---

  /** REVOCATION. Only the mandate's status changes, to revoked; nothing else in the world does,
   *  but for the entry in the trail. */
  lemma RevokeMeans(w: World, id: string, now: Instant)
    requires DistinctMandates(w.ledger.mandates)
    ensures var w' := Revoke(w, id, now);
            && SameButOne(w.ledger.mandates, w'.ledger.mandates, id)
            && (forall i :: 0 <= i < |w.ledger.mandates| && w.ledger.mandates[i].id == id ==>
                  w'.ledger.mandates[i] == w.ledger.mandates[i].(status := Revoked))
            && (forall m, t: Instant :: m in w'.ledger.mandates && m.id == id ==> !Lives(m, t))
            && w' == World(w.ledger.(mandates := w'.ledger.mandates), w.audit + [MandateRevoked(now, id)], w.flights)
  {
  }

  /** The mandate a verdict names was live when the verdict was given. */
  lemma VerdictNamesLive(env: Env, ledger: Ledger, intent: PaymentIntent, attestation: Option<Attestation>, now: Instant, id: string)
    requires GateVerdict(env, ledger, intent, attestation, now).mandateId == Some(id)
    ensures exists m :: m in ledger.mandates && m.id == id && Lives(m, now)
  {
    var ctx := Context(env, ledger, intent, attestation, now);
    Gate.AuthorityIsFirst(ctx.mandates, intent, now, ctx.convert);
    ActiveAreStored(ledger.mandates, now);
    hide Gate.Authority, Gate.Floor, Gate.AmountIn, Gate.SignalsOf, Gate.Covers, ActiveMandates;
    var m := Gate.Authority(ctx.mandates, intent, now, ctx.convert).value;
    assert m in ledger.mandates && m.id == id && Lives(m, now);
  }

  ghost predicate NoneLives(mandates: seq<Mandate>, id: string) {
    forall m :: m in mandates && m.id == id ==> m.status != Active
  }

  /** After a revocation no verdict names the mandate, whatever the payment and the instant, and
   *  whether or not there was a mandate to revoke. */
  lemma RevokedNamesNothing(env: Env, w: World, id: string, now: Instant,
                            intent: PaymentIntent, attestation: Option<Attestation>, later: Instant)
    requires DistinctMandates(w.ledger.mandates)
    ensures GateVerdict(env, Revoke(w, id, now).ledger, intent, attestation, later).mandateId != Some(id)
    ensures Verdict(env, Revoke(w, id, now), intent, attestation, later).mandateId != Some(id)
  {
    RevokeMeans(w, id, now);
    hide Revoke, GateVerdict, RiskChain.ChainVerdict, DistinctMandates;
    var ledger := Revoke(w, id, now).ledger;
    if GateVerdict(env, ledger, intent, attestation, later).mandateId == Some(id) {
      VerdictNamesLive(env, ledger, intent, attestation, later, id);
    }
  }

  /** A step that can make the mandate live again. */
  predicate Revives(step: Step, id: string) {
    || (step.AmendIt? && step.id == id && step.patch.status == Some(Active))
    || (step.GrantIt? && step.mandate.id == id)
  }

  /** The events after the first n charge nothing to the mandate. */
  ghost predicate NothingCharged(trail: seq<Event>, n: nat, id: string) {
    forall k :: n <= k < |trail| ==>
      && (trail[k].AgentDecision? ==> trail[k].verdict.mandateId != Some(id))
      && (trail[k].OperatorDecision? ==> trail[k].authority != Some(id))
  }

  lemma BeginNamesNothing(env: Env, w: World, step: Step, id: string)
    requires NoneLives(w.ledger.mandates, id) && step.Begin?
    ensures w.audit <= Next(env, w, step).audit
    ensures NothingCharged(Next(env, w, step).audit, |w.audit|, id)
  {
    hide GateVerdict, RiskChain.ChainVerdict, InputsOf, Filed;
    if GateVerdict(env, w.ledger, step.intent, step.attestation, step.now).mandateId == Some(id) {
      VerdictNamesLive(env, w.ledger, step.intent, step.attestation, step.now, id);
    }
  }

  lemma ApprovalNamesNothing(env: Env, w: World, step: Step, id: string)
    requires NoneLives(w.ledger.mandates, id) && step.ApproveIt?
    ensures w.audit <= Next(env, w, step).audit
    ensures NothingCharged(Next(env, w, step).audit, |w.audit|, id)
  {
    hide GateVerdict, RequiresChallenge, PayOut;
    var i := IntentIndex(w.ledger.intents, step.id);
    if i >= 0 {
      if GateVerdict(env, w.ledger, w.ledger.intents[i].intent, None, step.now).mandateId == Some(id) {
        VerdictNamesLive(env, w.ledger, w.ledger.intents[i].intent, None, step.now, id);
      }
      forall w: World, answer: RailAnswer | i < |w.ledger.intents|
        ensures w.audit <= PayOut(env, w, i, step.now, answer).audit
        ensures forall k :: |w.audit| <= k < |PayOut(env, w, i, step.now, answer).audit| ==>
                  var e := PayOut(env, w, i, step.now, answer).audit[k];
                  !e.AgentDecision? && !e.OperatorDecision?
      {
        PayOutDecidesNothing(env, w, i, step.now, answer);
      }
    }
  }

  lemma PayOutDecidesNothing(env: Env, w: World, i: nat, now: Instant, answer: RailAnswer)
    requires i < |w.ledger.intents|
    ensures var trail := PayOut(env, w, i, now, answer).audit;
            && w.audit <= trail
            && forall k :: |w.audit| <= k < |trail| ==> !trail[k].AgentDecision? && !trail[k].OperatorDecision?
  {
  }

  lemma StepNamesNothing(env: Env, w: World, step: Step, id: string)
    requires NoneLives(w.ledger.mandates, id)
    ensures w.audit <= Next(env, w, step).audit
    ensures NothingCharged(Next(env, w, step).audit, |w.audit|, id)
  {
    if step.Begin? {
      BeginNamesNothing(env, w, step, id);
    } else if step.ApproveIt? {
      ApprovalNamesNothing(env, w, step, id);
    } else {
      hide NoneLives, BeginExecute, Approve, RefundAmount;
    }
  }

  lemma StepKeepsDead(env: Env, w: World, step: Step, id: string)
    requires NoneLives(w.ledger.mandates, id) && !Revives(step, id)
    ensures NoneLives(Next(env, w, step).ledger.mandates, id)
  {
    Invariants.NextMandates(env, w, step);
    hide Next;
  }

  /** REVOKED MEANS REVOKED. From a revocation on, in every run that does not grant the mandate
   *  anew or amend its status to active, no decision of either phase names it: nothing is
   *  launched or approved on its authority. */
  lemma {:induction false} RevocationHolds(env: Env, w: World, id: string, now: Instant, steps: seq<Step>)
    requires DistinctMandates(w.ledger.mandates)
    requires forall step :: step in steps ==> !Revives(step, id)
    ensures var end := Run(env, Revoke(w, id, now), steps);
            && NothingCharged(end.audit, |w.audit|, id)
            && (forall m, t: Instant :: m in end.ledger.mandates && m.id == id ==> !Lives(m, t))
            && NoneLives(end.ledger.mandates, id)
            && |w.audit| <= |end.audit|
    decreases |steps|
  {
    hide Next, Revives;
    RevokeMeans(w, id, now);
    if steps != [] {
      var n := |steps| - 1;
      RevocationHolds(env, w, id, now, steps[..n]);
      var mid := Run(env, Revoke(w, id, now), steps[..n]);
      hide Revoke;
      assert steps[n] in steps;
      StepNamesNothing(env, mid, steps[n], id);
      StepKeepsDead(env, mid, steps[n], id);
    }
  }

  // --- amending ---

  predicate Takes<T(==)>(now: T, was: T, asked: Option<T>) {
    now == if asked.Some? then asked.value else was
  }

  /** Each field takes the value it was asked to, or keeps its own. The id is never asked for. */
  predicate AmendedBy(was: Mandate, m: Mandate, p: MandatePatch) {
    && m.id == was.id
    && Takes(m.name, was.name, p.name) && Takes(m.scope, was.scope, p.scope)
    && Takes(m.currency, was.currency, p.currency) && Takes(m.allowedRails, was.allowedRails, p.allowedRails)
    && Takes(m.perTxCap, was.perTxCap, p.perTxCap) && Takes(m.perPeriodCap, was.perPeriodCap, p.perPeriodCap)
    && Takes(m.period, was.period, p.period) && Takes(m.grantedAt, was.grantedAt, p.grantedAt)
    && Takes(m.expiresAt, was.expiresAt, p.expiresAt) && Takes(m.status, was.status, p.status)
  }

  /** An amendment changes the mandate it names, in the fields it names, and nothing else. */
  lemma AmendMeans(w: World, id: string, patch: MandatePatch, now: Instant)
    requires DistinctMandates(w.ledger.mandates)
    ensures var w' := Amend(w, id, patch, now);
            && SameButOne(w.ledger.mandates, w'.ledger.mandates, id)
            && (forall i :: 0 <= i < |w.ledger.mandates| && w.ledger.mandates[i].id == id ==>
                  AmendedBy(w.ledger.mandates[i], w'.ledger.mandates[i], patch))
            && w' == World(w.ledger.(mandates := w'.ledger.mandates), w.audit + [MandateAmended(now, id)], w.flights)
  {
  }

  const EXTENSION: MandatePatch := MandatePatch(None, None, None, None, None, None, None, None, None, None)

  /** Extending an active mandate: it is listed as live up to the new instant, and no longer. */
  lemma ExtensionMeans(w: World, i: nat, until: Instant, now: Instant, at: Instant)
    requires DistinctMandates(w.ledger.mandates) && i < |w.ledger.mandates| && w.ledger.mandates[i].status == Active
    ensures var id := w.ledger.mandates[i].id;
            var w' := Amend(w, id, EXTENSION.(expiresAt := Some(until)), now);
            && w'.ledger.mandates[i] == w.ledger.mandates[i].(expiresAt := until)
            && (at < until <==> w'.ledger.mandates[i] in ActiveMandates(w'.ledger.mandates, at))
  {
    var id := w.ledger.mandates[i].id;
    var w' := Amend(w, id, EXTENSION.(expiresAt := Some(until)), now);
    ActiveAreStored(w'.ledger.mandates, at);
    hide ActiveMandates;
  }

  // --- granting ---

  /** A mandate whose id is free is put at the end of the list, and recorded; a taken id leaves
   *  everything as it is. */
  lemma GrantMeans(w: World, m: Mandate, now: Instant)
    ensures var w' := Grant(w, m, now);
            w' == if Known(w.ledger.mandates, m.id) then w
                  else World(w.ledger.(mandates := w.ledger.mandates + [m]), w.audit + [MandateGranted(now, m.id)], w.flights)
  {
  }

  const A_DAY: int := 86_400_000

  /** What an operator's wish becomes: an active mandate from now on, until the instant asked
   *  for, or for the number of days asked for, or for thirty days. */
  lemma GrantedTermMeans(input: ExecutorObject.GrantInput, freshId: string, now: Instant, at: Instant)
    ensures var m := ExecutorObject.MandateFor(input, freshId, now);
            && m.id == (if input.id.Some? then input.id.value else freshId)
            && m.name == input.name && m.scope == input.scope && m.currency == input.currency && m.allowedRails == input.allowedRails
            && m.perTxCap == input.perTxCap && m.perPeriodCap == input.perPeriodCap && m.period == input.period && m.grantedAt == now
            && (Lives(m, at) <==>
                  match (input.expiresAt, input.expiresInDays) {
                    case (Some(t), _) => at < t
                    case (None, Some(days)) => at - now < days * A_DAY
                    case (None, None) => at - now < 30 * A_DAY
                  })
  {
  }

  /** What is listed as live: the stored mandates that are active and not expired. */
  lemma ListedMeans(mandates: seq<Mandate>, at: Instant)
    ensures forall m :: m in ActiveMandates(mandates, at) <==> m in mandates && Lives(m, at)
  {
    ActiveAreStored(mandates, at);
    hide ActiveMandates;
  }
}
