/** The deployer-oversight report (src/compliance/oversight.ts): a fold of the trail into
 *  per-currency totals, and its agreement with the ledger. */
module Oversight {
  import opened Prelude
  import opened Types
  import opened Trail
  import opened Executor
  import opened Conservation

  /** Half-open: from start, before end. */
  datatype ReportPeriod = ReportPeriod(start: Instant, end: Instant)

  datatype Bucket = Bucket(count: int, totals: map<string, int>)

  datatype Report = Report(
    autoExecuted: Bucket,
    operatorConfirmed: Bucket,
    blocked: Bucket,
    settled: Bucket,
    denyListHits: int,
    entriesInPeriod: int)

  datatype Disposition = AutoExecuted | OperatorConfirmed | Refused | Paid

  predicate InPeriod(e: Event, period: ReportPeriod) {
    period.start <= e.ts < period.end
  }

  /** The bucket an event belongs to. */
  function DispositionOf(e: Event): Option<Disposition> {
    match e
    case PaymentSettled(_, _, _, _, _, _) => Some(Paid)
    case AgentDecision(_, _, verdict, _, _) =>
      (match verdict.outcome
       case Block => Some(Refused)
       case AutoExecute => Some(AutoExecuted)
       case ConfirmOperator => None)
    case OperatorDecision(_, _, outcome, _, _, _) =>
      (match outcome
       case Block => Some(Refused)
       case AutoExecute => Some(OperatorConfirmed)
       case ConfirmOperator => None)
    case _ => None
  }

  /** The money an event names, if it names any: operator decisions do not. */
  function MoneyOf(e: Event): Option<(int, string)> {
    match e
    case PaymentSettled(_, _, _, amount, currency, _) => Some((amount, currency))
    case AgentDecision(_, intent, _, _, _) => Some((intent.amount, intent.currency))
    case _ => None
  }

  function CountIn(period: ReportPeriod, d: Disposition): Event -> int {
    (e: Event) => if InPeriod(e, period) && DispositionOf(e) == Some(d) then 1 else 0
  }

  function MoneyIn(period: ReportPeriod, d: Disposition, currency: string): Event -> int {
    (e: Event) =>
      if InPeriod(e, period) && DispositionOf(e) == Some(d) && MoneyOf(e).Some? && MoneyOf(e).value.1 == currency
      then MoneyOf(e).value.0 else 0
  }

  predicate IsDenyListing(r: Reason) {
    r.DenyListed?
  }

  function DenyHits(reasons: seq<Reason>): int {
    if reasons == [] then 0 else (if IsDenyListing(reasons[0]) then 1 else 0) + DenyHits(reasons[1..])
  }

  function DenyHitsOf(e: Event): int {
    match e
    case AgentDecision(_, _, verdict, _, _) => if verdict.outcome == Block then DenyHits(verdict.reasons) else 0
    case OperatorDecision(_, _, outcome, reasons, _, _) => if outcome == Block then DenyHits(reasons) else 0
    case _ => 0
  }

  function DenyHitsIn(period: ReportPeriod): Event -> int {
    (e: Event) => if InPeriod(e, period) then DenyHitsOf(e) else 0
  }

  function EntriesIn(period: ReportPeriod): Event -> int {
    (e: Event) => if InPeriod(e, period) then 1 else 0
  }

  function TotalOf(b: Bucket, currency: string): int {
    if currency in b.totals then b.totals[currency] else 0
  }

  function AddToBucket(b: Bucket, money: Option<(int, string)>): Bucket {
    match money
    case None => b.(count := b.count + 1)
    case Some((amount, currency)) => Bucket(b.count + 1, b.totals[currency := TotalOf(b, currency) + amount])
  }

  /** The bucket holds exactly what the entries put in it. */
  ghost predicate Holds(b: Bucket, entries: seq<Event>, period: ReportPeriod, d: Disposition) {
    && b.count == Sum(entries, CountIn(period, d))
    && forall currency :: TotalOf(b, currency) == Sum(entries, MoneyIn(period, d, currency))
  }

  function NextBucket(b: Bucket, e: Event, period: ReportPeriod, d: Disposition): Bucket {
    if InPeriod(e, period) && DispositionOf(e) == Some(d) then AddToBucket(b, MoneyOf(e)) else b
  }

  lemma HoldsNext(b: Bucket, entries: seq<Event>, e: Event, period: ReportPeriod, d: Disposition)
    requires Holds(b, entries, period, d)
    ensures Holds(NextBucket(b, e, period, d), entries + [e], period, d)
  {
    var b' := NextBucket(b, e, period, d);
    SumAppend(entries, e, CountIn(period, d));
    forall currency ensures TotalOf(b', currency) == Sum(entries + [e], MoneyIn(period, d, currency)) {
      SumAppend(entries, e, MoneyIn(period, d, currency));
    }
  }

  const EMPTY_BUCKET: Bucket := Bucket(0, map[])

  method DeployerOversightReport(audit: seq<Event>, period: ReportPeriod) returns (report: Report)
    ensures Holds(report.autoExecuted, audit, period, AutoExecuted)
    ensures Holds(report.operatorConfirmed, audit, period, OperatorConfirmed)
    ensures Holds(report.blocked, audit, period, Refused)
    ensures Holds(report.settled, audit, period, Paid)
    ensures report.denyListHits == Sum(audit, DenyHitsIn(period))
    ensures report.entriesInPeriod == Sum(audit, EntriesIn(period))
  {
    var auto, confirmed, blocked, settled := EMPTY_BUCKET, EMPTY_BUCKET, EMPTY_BUCKET, EMPTY_BUCKET;
    var hits, entries := 0, 0;
    for i := 0 to |audit|
      invariant Holds(auto, audit[..i], period, AutoExecuted)
      invariant Holds(confirmed, audit[..i], period, OperatorConfirmed)
      invariant Holds(blocked, audit[..i], period, Refused)
      invariant Holds(settled, audit[..i], period, Paid)
      invariant hits == Sum(audit[..i], DenyHitsIn(period))
      invariant entries == Sum(audit[..i], EntriesIn(period))
    {
      var e := audit[i];
      assert audit[..i + 1] == audit[..i] + [e];
      hide Holds;
      HoldsNext(auto, audit[..i], e, period, AutoExecuted);
      HoldsNext(confirmed, audit[..i], e, period, OperatorConfirmed);
      HoldsNext(blocked, audit[..i], e, period, Refused);
      HoldsNext(settled, audit[..i], e, period, Paid);
      SumAppend(audit[..i], e, DenyHitsIn(period));
      SumAppend(audit[..i], e, EntriesIn(period));
      if InPeriod(e, period) {
        entries := entries + 1;
        hits := hits + DenyHitsOf(e);
        match DispositionOf(e) {
          case Some(Paid) => settled := AddToBucket(settled, MoneyOf(e));
          case Some(Refused) => blocked := AddToBucket(blocked, MoneyOf(e));
          case Some(AutoExecuted) => auto := AddToBucket(auto, MoneyOf(e));
          case Some(OperatorConfirmed) => confirmed := AddToBucket(confirmed, MoneyOf(e));
          case None =>
        }
      }
    }
    assert audit[..|audit|] == audit;
    report := Report(auto, confirmed, blocked, settled, hits, entries);
  }

  ghost predicate Covers(period: ReportPeriod, audit: seq<Event>) {
    forall e :: e in audit ==> InPeriod(e, period)
  }

  /** AGREEMENT. For any run and any window that covers it, the report's settled bucket has
   *  the ledger's number of settled payments and its gross total in every currency. */
  lemma ReportAgreesWithLedger(env: Env, start: World, steps: seq<Step>, period: ReportPeriod, settled: Bucket, currency: string)
    requires IsFresh(start) && FreshIds(env, start, steps)
    requires Covers(period, Run(env, start, steps).audit)
    requires Holds(settled, Run(env, start, steps).audit, period, Paid)
    ensures settled.count == Sum(Run(env, start, steps).ledger.intents, InLedger(Payments))
    ensures TotalOf(settled, currency) == Sum(Run(env, start, steps).ledger.intents, InLedger(PaidIn(currency)))
  {
    hide Next, Run, IsFresh, FreshIds;
    var audit := Run(env, start, steps).audit;
    BooksBalance(env, start, steps, PaidIn(currency));
    BooksBalance(env, start, steps, Payments);
    SumEq(audit, MoneyIn(period, Paid, currency), InTrail(PaidIn(currency)));
    SumEq(audit, CountIn(period, Paid), InTrail(Payments));
  }

  /** A report window can be cut anywhere: adjacent windows add up to the whole. */
  lemma {:induction false} WindowsAddUp(audit: seq<Event>, start: Instant, mid: Instant, end: Instant, d: Disposition, currency: string)
    requires start <= mid <= end
    ensures Sum(audit, MoneyIn(ReportPeriod(start, end), d, currency))
         == Sum(audit, MoneyIn(ReportPeriod(start, mid), d, currency)) + Sum(audit, MoneyIn(ReportPeriod(mid, end), d, currency))
    ensures Sum(audit, CountIn(ReportPeriod(start, end), d))
         == Sum(audit, CountIn(ReportPeriod(start, mid), d)) + Sum(audit, CountIn(ReportPeriod(mid, end), d))
  {
    if audit != [] {
      WindowsAddUp(audit[..|audit| - 1], start, mid, end, d, currency);
    }
  }
}
