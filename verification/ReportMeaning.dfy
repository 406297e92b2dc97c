/** What the oversight report counts and what the process checker reports, straight from the
 *  entries (src/compliance/oversight.ts, src/evals/process.ts). */
module ReportMeaning {
  import opened Prelude
  import opened Types
  import opened Trail
  import opened Oversight
  import opened Trajectory

  // --- the report ---

  predicate Within(e: Event, period: ReportPeriod) {
    e.ts >= period.start && e.ts < period.end
  }

  /** Unattended decisions; operator decisions the gate would have let run unattended; blocks of
   *  either phase; payments made. */
  predicate Belongs(e: Event, d: Disposition) {
    match d
    case AutoExecuted => e.AgentDecision? && e.verdict.outcome == AutoExecute
    case OperatorConfirmed => e.OperatorDecision? && e.outcome == AutoExecute
    case Refused => (e.AgentDecision? && e.verdict.outcome == Block) || (e.OperatorDecision? && e.outcome == Block)
    case Paid => e.PaymentSettled?
  }

  function Counting(period: ReportPeriod, d: Disposition): Event -> int {
    (e: Event) => if Within(e, period) && Belongs(e, d) then 1 else 0
  }

  /** Operator decisions name no money. */
  function Totalling(period: ReportPeriod, d: Disposition, currency: string): Event -> int {
    (e: Event) =>
      if !Within(e, period) || !Belongs(e, d) then 0
      else if e.AgentDecision? && e.intent.currency == currency then e.intent.amount
      else if e.PaymentSettled? && e.currency == currency then e.amount
      else 0
  }

  lemma BucketMeans(b: Bucket, audit: seq<Event>, period: ReportPeriod, d: Disposition)
    ensures Holds(b, audit, period, d) <==>
              && b.count == Sum(audit, Counting(period, d))
              && forall currency :: (if currency in b.totals then b.totals[currency] else 0) == Sum(audit, Totalling(period, d, currency))
  {
    SumEq(audit, CountIn(period, d), Counting(period, d));
    forall currency
      ensures Sum(audit, MoneyIn(period, d, currency)) == Sum(audit, Totalling(period, d, currency))
    {
      SumEq(audit, MoneyIn(period, d, currency), Totalling(period, d, currency));
    }
    hide Sum;
  }

  lemma {:induction false} DenyHitsCount(reasons: seq<Reason>)
    ensures DenyHits(reasons) == Sum(reasons, IsDenied())
  {
    if reasons != [] {
      DenyHitsCount(reasons[1..]);
      SumConcat([reasons[0]], reasons[1..], IsDenied());
      SumOfOne(reasons[0], IsDenied());
      assert reasons == [reasons[0]] + reasons[1..];
    }
  }

  function IsDenied(): Reason -> int {
    (r: Reason) => if r.DenyListed? then 1 else 0
  }

  function DenialsOf(period: ReportPeriod): Event -> int {
    (e: Event) =>
      if !Within(e, period) then 0
      else if e.AgentDecision? && e.verdict.outcome == Block then Sum(e.verdict.reasons, IsDenied())
      else if e.OperatorDecision? && e.outcome == Block then Sum(e.reasons, IsDenied())
      else 0
  }

  function InWindow(period: ReportPeriod): Event -> int {
    (e: Event) => if Within(e, period) then 1 else 0
  }

  /** The report's other two numbers. */
  lemma HitsMean(audit: seq<Event>, period: ReportPeriod)
    ensures Sum(audit, DenyHitsIn(period)) == Sum(audit, DenialsOf(period))
    ensures Sum(audit, EntriesIn(period)) == Sum(audit, InWindow(period))
  {
    forall e: Event
      ensures DenyHitsIn(period)(e) == DenialsOf(period)(e)
    {
      match e {
        case AgentDecision(_, _, verdict, _, _) => DenyHitsCount(verdict.reasons);
        case OperatorDecision(_, _, _, reasons, _, _) => DenyHitsCount(reasons);
        case _ =>
      }
    }
    SumEq(audit, DenyHitsIn(period), DenialsOf(period));
    SumEq(audit, EntriesIn(period), InWindow(period));
  }

  // --- the process checker ---

  predicate IsPaid(trace: seq<Event>, id: string) {
    exists i :: 0 <= i < |trace| && trace[i].PaymentSettled? && trace[i].intentId == id
  }

  predicate IsHalted(trace: seq<Event>, id: string) {
    exists i :: 0 <= i < |trace| && trace[i].PaymentHalted? && trace[i].intentId == id
  }

  predicate HasFailed(trace: seq<Event>, id: string) {
    exists i :: 0 <= i < |trace| && trace[i].PaymentFailed? && trace[i].intentId == id
  }

  /** The outcome a decision of either phase says about an intent. */
  function OutcomeFor(e: Event, id: string): Option<Outcome> {
    if e.AgentDecision? && e.intent.id == id then Some(e.verdict.outcome)
    else if e.OperatorDecision? && e.intentId == id then Some(e.outcome)
    else None
  }

  predicate IsDecided(trace: seq<Event>, id: string) {
    exists i :: 0 <= i < |trace| && OutcomeFor(trace[i], id).Some?
  }

  predicate IsLet(trace: seq<Event>, id: string) {
    exists i :: 0 <= i < |trace| && (OutcomeFor(trace[i], id) == Some(AutoExecute) || OutcomeFor(trace[i], id) == Some(ConfirmOperator))
  }

  predicate IsAuto(trace: seq<Event>, id: string) {
    exists i :: 0 <= i < |trace| && OutcomeFor(trace[i], id) == Some(AutoExecute)
  }

  /** Blocked attempts alike: agent-phase ones in payee, amount and rail; operator-phase ones
   *  are all alike. */
  function Blocking(fp: Fingerprint): Event -> int {
    (e: Event) =>
      match fp {
        case Of(payee, amount, rail) =>
          if e.AgentDecision? && e.verdict.outcome == Block && e.intent.id != ""
             && e.intent.payee == payee && e.intent.amount == amount && e.intent.rail == rail then 1 else 0
        case Unspecified =>
          if e.OperatorDecision? && e.outcome == Block && e.intentId != "" then 1 else 0
      }
  }

  predicate Breaks(trace: seq<Event>, v: Violation) {
    match v
    case SettleWithoutGateDecision(id) => id != "" && IsPaid(trace, id) && !IsDecided(trace, id)
    case SettleBlockedIntent(id) => id != "" && IsPaid(trace, id) && IsDecided(trace, id) && !IsLet(trace, id)
    case SettleWhileHalted(id) => id != "" && IsPaid(trace, id) && IsDecided(trace, id) && IsHalted(trace, id)
    case DoomLoop(fp) => Sum(trace, Blocking(fp)) >= 3
    case IncompleteAutoExecute(id) => id != "" && IsAuto(trace, id) && !IsPaid(trace, id) && !HasFailed(trace, id)
  }

  /** The five rules: paid without a decision; paid though every decision blocked it; paid though
   *  halted; three blocked attempts alike; let run unattended and neither paid nor failed. Entries
   *  with an empty id are passed over. */
  lemma RulesMean(trace: seq<Event>, v: Violation)
    ensures Broken(trace, v) <==> Breaks(trace, v)
  {
    match v {
      case SettleWithoutGateDecision(id) => FactsMean(trace, id);
      case SettleBlockedIntent(id) => FactsMean(trace, id);
      case SettleWhileHalted(id) => FactsMean(trace, id);
      case IncompleteAutoExecute(id) => FactsMean(trace, id);
      case DoomLoop(fp) => SumEq(trace, BlocksOf(fp), Blocking(fp));
    }
    hide Sum, Said, IsPaid, IsDecided, IsLet, IsHalted, IsAuto, HasFailed;
  }

  lemma FactsMean(trace: seq<Event>, id: string)
    ensures Said(trace, PaidOut, id) <==> id != "" && IsPaid(trace, id)
    ensures Said(trace, Decided, id) <==> id != "" && IsDecided(trace, id)
    ensures Said(trace, LetThrough, id) <==> id != "" && IsLet(trace, id)
    ensures Said(trace, RanUnattended, id) <==> id != "" && IsAuto(trace, id)
    ensures Said(trace, Halted, id) <==> id != "" && IsHalted(trace, id)
    ensures Said(trace, RailFailed, id) <==> id != "" && HasFailed(trace, id)
  {
    forall i | 0 <= i < |trace|
      ensures Says(trace[i], PaidOut) == Some(id) <==> id != "" && trace[i].PaymentSettled? && trace[i].intentId == id
      ensures Says(trace[i], Decided) == Some(id) <==> id != "" && OutcomeFor(trace[i], id).Some?
      ensures Says(trace[i], LetThrough) == Some(id) <==>
                id != "" && (OutcomeFor(trace[i], id) == Some(AutoExecute) || OutcomeFor(trace[i], id) == Some(ConfirmOperator))
      ensures Says(trace[i], RanUnattended) == Some(id) <==> id != "" && OutcomeFor(trace[i], id) == Some(AutoExecute)
      ensures Says(trace[i], Halted) == Some(id) <==> id != "" && trace[i].PaymentHalted? && trace[i].intentId == id
      ensures Says(trace[i], RailFailed) == Some(id) <==> id != "" && trace[i].PaymentFailed? && trace[i].intentId == id
    {
    }
    hide Says, OutcomeFor;
  }
}
