/** Matching settled payments to statement lines (src/finance/reconcile.ts): greedy first
 *  fit, in payment order, over the lines not yet taken. */
module Reconcile {
  import opened Prelude
  import opened Types

  datatype StatementLine = StatementLine(amount: int, currency: string, descriptor: string, at: Instant)

  datatype SettledPayment = SettledPayment(intentId: string, payee: string, amount: int, currency: string, at: Instant)

  datatype Match = Match(payment: SettledPayment, line: StatementLine)

  datatype ReconResult = ReconResult(
    matched: seq<Match>,
    unmatchedPayments: seq<SettledPayment>,
    unmatchedStatement: seq<StatementLine>)

  predicate Compatible(p: SettledPayment, l: StatementLine, window: int) {
    l.currency == p.currency && l.amount == p.amount && -window <= l.at - p.at <= window
  }

  // --- what first fit means, on positions ---

  /** A choice of at most one line for each payment. */
  type Choice = map<nat, nat>

  /** Line j is compatible with payment i and no earlier payment took it. */
  predicate Open(payments: seq<SettledPayment>, lines: seq<StatementLine>, window: int, m: Choice, i: nat, j: nat)
    requires i < |payments| && j < |lines|
  {
    && Compatible(payments[i], lines[j], window)
    && forall k :: 0 <= k < i && k in m ==> m[k] != j
  }

  /** Payment i takes the first open line, and goes without only when none is open. */
  predicate FitsFirst(payments: seq<SettledPayment>, lines: seq<StatementLine>, window: int, m: Choice, i: nat)
    requires i < |payments|
  {
    if i in m then
      && m[i] < |lines|
      && Open(payments, lines, window, m, i, m[i])
      && forall j :: 0 <= j < m[i] ==> !Open(payments, lines, window, m, i, j)
    else
      forall j :: 0 <= j < |lines| ==> !Open(payments, lines, window, m, i, j)
  }

  predicate FirstFit(payments: seq<SettledPayment>, lines: seq<StatementLine>, window: int, m: Choice) {
    && (forall i :: i in m ==> i < |payments|)
    && forall i :: 0 <= i < |payments| ==> FitsFirst(payments, lines, window, m, i)
  }

  /** Any way of pairing compatible payments and lines, each at most once. */
  predicate IsMatching(payments: seq<SettledPayment>, lines: seq<StatementLine>, window: int, m: Choice) {
    && (forall i :: i in m ==> i < |payments| && m[i] < |lines| && Compatible(payments[i], lines[m[i]], window))
    && forall i, k :: i in m && k in m && i != k ==> m[i] != m[k]
  }

  // --- the report of a choice ---

  function Matched(payments: seq<SettledPayment>, lines: seq<StatementLine>, m: Choice): seq<Match>
    requires forall i :: i in m ==> m[i] < |lines|
  {
    if payments == [] then []
    else
      var n := |payments| - 1;
      Matched(payments[..n], lines, m) + (if n in m then [Match(payments[n], lines[m[n]])] else [])
  }

  function WithoutLine(payments: seq<SettledPayment>, m: Choice): seq<SettledPayment> {
    if payments == [] then []
    else
      var n := |payments| - 1;
      WithoutLine(payments[..n], m) + (if n in m then [] else [payments[n]])
  }

  /** The positions below n that are not taken, in order. */
  ghost predicate Untaken(js: seq<nat>, taken: set<nat>, n: nat) {
    && (forall a, b :: 0 <= a < b < |js| ==> js[a] < js[b])
    && (forall k :: 0 <= k < |js| ==> js[k] < n && js[k] !in taken)
    && (forall j :: 0 <= j < n && j !in taken ==> j in js)
  }

  function Pick(lines: seq<StatementLine>, js: seq<nat>): (picked: seq<StatementLine>)
    requires forall k :: 0 <= k < |js| ==> js[k] < |lines|
    ensures |picked| == |js| && forall k :: 0 <= k < |js| ==> picked[k] == lines[js[k]]
  {
    if js == [] then [] else [lines[js[0]]] + Pick(lines, js[1..])
  }

  /** The report of a choice `m` that leaves the lines at positions `free`. */
  ghost predicate Reports(payments: seq<SettledPayment>, lines: seq<StatementLine>, m: Choice, free: seq<nat>, r: ReconResult) {
    && (forall i :: i in m ==> m[i] < |lines|)
    && Untaken(free, m.Values, |lines|)
    && r.matched == Matched(payments, lines, m)
    && r.unmatchedPayments == WithoutLine(payments, m)
    && r.unmatchedStatement == Pick(lines, free)
  }

  // --- the algorithm ---

  lemma SpliceAt(js: seq<nat>, k: nat, i: nat)
    requires k < |js| && i < |js| - 1
    ensures (js[..k] + js[k + 1..])[i] == js[if i < k then i else i + 1]
  {
  }

  lemma TakeUntaken(js: seq<nat>, taken: set<nat>, n: nat, k: nat)
    requires Untaken(js, taken, n) && k < |js|
    ensures Untaken(js[..k] + js[k + 1..], taken + {js[k]}, n)
  {
    var rest := js[..k] + js[k + 1..];
    assert |rest| == |js| - 1;
    forall i | 0 <= i < |rest|
      ensures rest[i] == js[if i < k then i else i + 1]
    {
      SpliceAt(js, k, i);
    }
    forall j | 0 <= j < n && j !in taken && j != js[k]
      ensures j in rest
    {
      assert j in js;
      var i :| 0 <= i < |js| && js[i] == j;
      assert rest[if i < k then i else i - 1] == j;
    }
  }

  lemma NothingTaken(js: seq<nat>, n: nat)
    requires |js| == n && forall j :: 0 <= j < n ==> js[j] == j
    ensures Untaken(js, {}, n)
  {
    forall j | 0 <= j < n
      ensures j in js
    {
      assert js[j] == j;
    }
  }

  lemma ValuesGrow(m: Choice, n: nat, j: nat)
    requires n !in m
    ensures m[n := j].Values == m.Values + {j}
  {
    var later := m[n := j];
    assert later[n] == j;
    forall v | v in m.Values
      ensures v in later.Values
    {
      var i :| i in m && m[i] == v;
      assert later[i] == v;
    }
  }

  lemma PickSplice(lines: seq<StatementLine>, js: seq<nat>, k: nat)
    requires k < |js| && forall i :: 0 <= i < |js| ==> js[i] < |lines|
    ensures Pick(lines, js[..k] + js[k + 1..]) == Pick(lines, js)[..k] + Pick(lines, js)[k + 1..]
  {
  }

  /** The first remaining line that fits, or the number of lines. */
  method FindIndex(p: SettledPayment, lines: seq<StatementLine>, window: int) returns (idx: nat)
    ensures idx <= |lines|
    ensures idx < |lines| ==> Compatible(p, lines[idx], window)
    ensures forall k :: 0 <= k < idx ==> !Compatible(p, lines[k], window)
  {
    idx := 0;
    while idx < |lines| && !Compatible(p, lines[idx], window)
      invariant idx <= |lines|
      invariant forall k :: 0 <= k < idx ==> !Compatible(p, lines[k], window)
    {
      idx := idx + 1;
    }
  }

  /** Adding a choice for the last payment leaves the earlier ones as they were. */
  lemma {:induction false} EarlierMatched(payments: seq<SettledPayment>, lines: seq<StatementLine>, m: Choice, n: nat, j: nat)
    requires (forall i :: i in m ==> m[i] < |lines|) && j < |lines| && |payments| <= n
    ensures Matched(payments, lines, m[n := j]) == Matched(payments, lines, m)
    ensures WithoutLine(payments, m[n := j]) == WithoutLine(payments, m)
  {
    if payments != [] {
      EarlierMatched(payments[..|payments| - 1], lines, m, n, j);
    }
  }

  /** Only the choices of earlier payments close a line to payment i. */
  lemma OpenIgnoresLater(payments: seq<SettledPayment>, lines: seq<StatementLine>, window: int, m: Choice, later: Choice,
                         n: nat, i: nat, j: nat)
    requires i <= n && i < |payments| && j < |lines| && n !in m && n in later && later == m[n := later[n]]
    ensures Open(payments, lines, window, later, i, j) <==> Open(payments, lines, window, m, i, j)
  {
    assert forall k :: k in m ==> k in later && later[k] == m[k];
    assert forall k :: k in later && k != n ==> k in m;
  }

  lemma EarlierFit(payments: seq<SettledPayment>, lines: seq<StatementLine>, window: int, m: Choice, later: Choice, n: nat)
    requires n <= |payments| && n !in m && n in later && later == m[n := later[n]]
    requires forall i :: 0 <= i < n ==> FitsFirst(payments, lines, window, m, i)
    ensures forall i :: 0 <= i < n ==> FitsFirst(payments, lines, window, later, i)
  {
    forall i | 0 <= i < n
      ensures FitsFirst(payments, lines, window, later, i)
    {
      assert FitsFirst(payments, lines, window, m, i);
      assert i in m <==> i in later;
      forall l | 0 <= l < |lines|
        ensures Open(payments, lines, window, later, i, l) <==> Open(payments, lines, window, m, i, l)
      {
        OpenIgnoresLater(payments, lines, window, m, later, n, i, l);
      }
    }
  }

  /** The open lines of the next payment are the compatible ones among those left. */
  lemma OpenIsLeft(payments: seq<SettledPayment>, lines: seq<StatementLine>, window: int, m: Choice, free: seq<nat>, n: nat, j: nat)
    requires n < |payments| && j < |lines| && (forall i :: i in m ==> i < n) && Untaken(free, m.Values, |lines|)
    ensures Open(payments, lines, window, m, n, j) <==> j in free && Compatible(payments[n], lines[j], window)
  {
    if j in m.Values {
      var i :| i in m && m[i] == j;
    }
  }

  lemma LastFits(payments: seq<SettledPayment>, lines: seq<StatementLine>, window: int, m: Choice, later: Choice,
                 free: seq<nat>, n: nat, idx: nat)
    requires n < |payments| && (forall i :: i in m ==> i < n) && Untaken(free, m.Values, |lines|)
    requires idx < |free| && later == m[n := free[idx]]
    requires Compatible(payments[n], lines[free[idx]], window)
    requires forall k :: 0 <= k < idx ==> !Compatible(payments[n], lines[free[k]], window)
    ensures FitsFirst(payments, lines, window, later, n)
  {
    hide Compatible;
    forall l | 0 <= l < |lines|
      ensures Open(payments, lines, window, later, n, l) <==> l in free && Compatible(payments[n], lines[l], window)
    {
      OpenIsLeft(payments, lines, window, m, free, n, l);
      OpenIgnoresLater(payments, lines, window, m, later, n, n, l);
    }
    hide Open;
    forall l | 0 <= l < free[idx] && l in free
      ensures !Compatible(payments[n], lines[l], window)
    {
      var k :| 0 <= k < |free| && free[k] == l;
      assert k < idx;
    }
  }

  lemma SkipFits(payments: seq<SettledPayment>, lines: seq<StatementLine>, window: int, m: Choice, free: seq<nat>, n: nat)
    requires n < |payments| && (forall i :: i in m ==> i < n) && Untaken(free, m.Values, |lines|)
    requires forall k :: 0 <= k < |free| ==> !Compatible(payments[n], lines[free[k]], window)
    ensures FitsFirst(payments, lines, window, m, n)
  {
    forall l | 0 <= l < |lines|
      ensures !Open(payments, lines, window, m, n, l)
    {
      OpenIsLeft(payments, lines, window, m, free, n, l);
    }
  }

  /** The choice made for the first n payments, and the positions it leaves. */
  ghost predicate Settled(payments: seq<SettledPayment>, lines: seq<StatementLine>, window: int, m: Choice, free: seq<nat>, n: nat) {
    && n <= |payments|
    && (forall i :: i in m ==> i < n && m[i] < |lines|)
    && (forall i :: 0 <= i < n ==> FitsFirst(payments, lines, window, m, i))
    && (forall k :: 0 <= k < |free| ==> free[k] < |lines|)
    && Untaken(free, m.Values, |lines|)
  }

  lemma TakeStep(payments: seq<SettledPayment>, lines: seq<StatementLine>, window: int, m: Choice, free: seq<nat>, n: nat, idx: nat)
    requires Settled(payments, lines, window, m, free, n) && n < |payments| && idx < |free|
    requires Compatible(payments[n], lines[free[idx]], window)
    requires forall k :: 0 <= k < idx ==> !Compatible(payments[n], lines[free[k]], window)
    ensures Settled(payments, lines, window, m[n := free[idx]], free[..idx] + free[idx + 1..], n + 1)
  {
    hide FitsFirst, Open, Compatible;
    var later := m[n := free[idx]];
    ValuesGrow(m, n, free[idx]);
    LastFits(payments, lines, window, m, later, free, n, idx);
    EarlierFit(payments, lines, window, m, later, n);
    TakeUntaken(free, m.Values, |lines|, idx);
  }

  lemma TakeMatched(payments: seq<SettledPayment>, lines: seq<StatementLine>, m: Choice, later: Choice, n: nat, j: nat)
    requires n < |payments| && (forall i :: i in m ==> i < n && m[i] < |lines|) && j < |lines| && later == m[n := j]
    ensures forall i :: i in later ==> later[i] < |lines|
    ensures Matched(payments[..n + 1], lines, later) == Matched(payments[..n], lines, m) + [Match(payments[n], lines[j])]
    ensures WithoutLine(payments[..n + 1], later) == WithoutLine(payments[..n], m)
  {
    assert payments[..n + 1][..n] == payments[..n];
    EarlierMatched(payments[..n], lines, m, n, j);
  }

  /** What the report becomes when payment n takes the line at `free[idx]`. */
  lemma TakeReport(payments: seq<SettledPayment>, lines: seq<StatementLine>, m: Choice, free: seq<nat>, n: nat, idx: nat, r: ReconResult)
    requires n < |payments| && idx < |free| && (forall i :: i in m ==> i < n)
    requires Reports(payments[..n], lines, m, free, r)
    ensures Reports(payments[..n + 1], lines, m[n := free[idx]], free[..idx] + free[idx + 1..],
                    ReconResult(r.matched + [Match(payments[n], lines[free[idx]])], r.unmatchedPayments,
                                r.unmatchedStatement[..idx] + r.unmatchedStatement[idx + 1..]))
  {
    hide Matched, WithoutLine, Pick;
    TakeMatched(payments, lines, m, m[n := free[idx]], n, free[idx]);
    ValuesGrow(m, n, free[idx]);
    TakeUntaken(free, m.Values, |lines|, idx);
    PickSplice(lines, free, idx);
  }

  lemma SkipReport(payments: seq<SettledPayment>, lines: seq<StatementLine>, m: Choice, free: seq<nat>, n: nat, r: ReconResult)
    requires n < |payments| && (forall i :: i in m ==> i < n)
    requires Reports(payments[..n], lines, m, free, r)
    ensures Reports(payments[..n + 1], lines, m, free, r.(unmatchedPayments := r.unmatchedPayments + [payments[n]]))
  {
    assert payments[..n + 1][..n] == payments[..n];
  }

  function PaymentsOf(matched: seq<Match>): seq<SettledPayment> {
    if matched == [] then [] else PaymentsOf(matched[..|matched| - 1]) + [matched[|matched| - 1].payment]
  }

  function LinesOf(matched: seq<Match>): seq<StatementLine> {
    if matched == [] then [] else LinesOf(matched[..|matched| - 1]) + [matched[|matched| - 1].line]
  }

  lemma MatchAppend(matched: seq<Match>, x: Match)
    ensures PaymentsOf(matched + [x]) == PaymentsOf(matched) + [x.payment]
    ensures LinesOf(matched + [x]) == LinesOf(matched) + [x.line]
  {
    assert (matched + [x])[..|matched|] == matched;
  }

  lemma Snoc<T>(xs: seq<T>, x: T)
    ensures multiset(xs + [x]) == multiset(xs) + multiset{x}
  {
  }

  /** Every line is matched or left, none lost and none counted twice. */
  ghost predicate LinesSplit(lines: seq<StatementLine>, matched: seq<Match>, left: seq<StatementLine>) {
    multiset(lines) == multiset(LinesOf(matched)) + multiset(left)
  }

  lemma TakeLine(lines: seq<StatementLine>, matched: seq<Match>, left: seq<StatementLine>, idx: nat, p: SettledPayment)
    requires LinesSplit(lines, matched, left) && idx < |left|
    ensures LinesSplit(lines, matched + [Match(p, left[idx])], left[..idx] + left[idx + 1..])
  {
    MatchAppend(matched, Match(p, left[idx]));
    Snoc(LinesOf(matched), left[idx]);
    Without(left, idx);
  }

  /** Every payment is matched or unmatched, none lost and none counted twice. */
  ghost predicate PaymentsSplit(payments: seq<SettledPayment>, matched: seq<Match>, left: seq<SettledPayment>) {
    multiset(payments) == multiset(PaymentsOf(matched)) + multiset(left)
  }

  lemma SplitMatched(payments: seq<SettledPayment>, matched: seq<Match>, left: seq<SettledPayment>, x: Match)
    requires PaymentsSplit(payments, matched, left)
    ensures PaymentsSplit(payments + [x.payment], matched + [x], left)
  {
    MatchAppend(matched, x);
    Snoc(payments, x.payment);
    Snoc(PaymentsOf(matched), x.payment);
  }

  lemma SplitUnmatched(payments: seq<SettledPayment>, matched: seq<Match>, left: seq<SettledPayment>, p: SettledPayment)
    requires PaymentsSplit(payments, matched, left)
    ensures PaymentsSplit(payments + [p], matched, left + [p])
  {
    Snoc(payments, p);
    Snoc(left, p);
  }

  lemma LeftLines(payments: seq<SettledPayment>, lines: seq<StatementLine>, m: Choice, free: seq<nat>, r: ReconResult)
    requires Reports(payments, lines, m, free, r)
    ensures |r.unmatchedStatement| == |free|
    ensures forall k :: 0 <= k < |free| ==> free[k] < |lines| && r.unmatchedStatement[k] == lines[free[k]]
  {
  }

  /** What holds once the first n payments have been looked at. */
  ghost predicate Progress(payments: seq<SettledPayment>, lines: seq<StatementLine>, window: int, m: Choice, free: seq<nat>,
                           n: nat, r: ReconResult) {
    && Settled(payments, lines, window, m, free, n)
    && Reports(payments[..n], lines, m, free, r)
    && PaymentsSplit(payments[..n], r.matched, r.unmatchedPayments)
    && LinesSplit(lines, r.matched, r.unmatchedStatement)
  }

  lemma StartProgress(payments: seq<SettledPayment>, lines: seq<StatementLine>, window: int, free: seq<nat>)
    requires |free| == |lines| && forall j :: 0 <= j < |lines| ==> free[j] == j
    ensures Progress(payments, lines, window, map[], free, 0, ReconResult([], [], lines))
  {
    var m: Choice := map[];
    NothingTaken(free, |lines|);
    assert m.Values == {};
    assert payments[..0] == [];
  }

  lemma TakeProgress(payments: seq<SettledPayment>, lines: seq<StatementLine>, window: int, m: Choice, free: seq<nat>,
                     n: nat, r: ReconResult, idx: nat)
    requires Progress(payments, lines, window, m, free, n, r) && n < |payments| && idx < |r.unmatchedStatement|
    requires Compatible(payments[n], r.unmatchedStatement[idx], window)
    requires forall k :: 0 <= k < idx ==> !Compatible(payments[n], r.unmatchedStatement[k], window)
    ensures |free| == |r.unmatchedStatement|
    ensures Progress(payments, lines, window, m[n := free[idx]], free[..idx] + free[idx + 1..], n + 1,
                     ReconResult(r.matched + [Match(payments[n], r.unmatchedStatement[idx])], r.unmatchedPayments,
                                 r.unmatchedStatement[..idx] + r.unmatchedStatement[idx + 1..]))
  {
    hide Reports, PaymentsSplit, LinesSplit, FitsFirst, Untaken, Compatible;
    LeftLines(payments[..n], lines, m, free, r);
    TakeStep(payments, lines, window, m, free, n, idx);
    TakeReport(payments, lines, m, free, n, idx, r);
    SplitMatched(payments[..n], r.matched, r.unmatchedPayments, Match(payments[n], lines[free[idx]]));
    TakeLine(lines, r.matched, r.unmatchedStatement, idx, payments[n]);
    assert payments[..n + 1] == payments[..n] + [payments[n]];
  }

  lemma SkipProgress(payments: seq<SettledPayment>, lines: seq<StatementLine>, window: int, m: Choice, free: seq<nat>,
                     n: nat, r: ReconResult)
    requires Progress(payments, lines, window, m, free, n, r) && n < |payments|
    requires forall k :: 0 <= k < |r.unmatchedStatement| ==> !Compatible(payments[n], r.unmatchedStatement[k], window)
    ensures Progress(payments, lines, window, m, free, n + 1, r.(unmatchedPayments := r.unmatchedPayments + [payments[n]]))
  {
    hide Reports, PaymentsSplit, LinesSplit, FitsFirst, Untaken, Compatible;
    LeftLines(payments[..n], lines, m, free, r);
    SkipFits(payments, lines, window, m, free, n);
    SkipReport(payments, lines, m, free, n, r);
    SplitUnmatched(payments[..n], r.matched, r.unmatchedPayments, payments[n]);
    assert payments[..n + 1] == payments[..n] + [payments[n]];
  }

  /** Greedy first fit, with the choice it made and the positions it left. Payments and
   *  lines are each split into matched and unmatched without loss or duplication. */
  method ReconcileStatement(payments: seq<SettledPayment>, lines: seq<StatementLine>, window: int)
    returns (r: ReconResult, ghost m: Choice, ghost free: seq<nat>)
    ensures FirstFit(payments, lines, window, m)
    ensures Reports(payments, lines, m, free, r)
    ensures PaymentsSplit(payments, r.matched, r.unmatchedPayments)
    ensures LinesSplit(lines, r.matched, r.unmatchedStatement)
  {
    hide Compatible, FitsFirst, Reports, PaymentsSplit, LinesSplit;
    var remaining := lines;
    var matched: seq<Match> := [];
    var unmatched: seq<SettledPayment> := [];
    m := map[];
    free := seq(|lines|, (i: nat) => i);
    StartProgress(payments, lines, window, free);
    for n := 0 to |payments|
      invariant Progress(payments, lines, window, m, free, n, ReconResult(matched, unmatched, remaining))
    {
      hide Progress;
      var p := payments[n];
      var idx := FindIndex(p, remaining, window);
      if idx < |remaining| {
        TakeProgress(payments, lines, window, m, free, n, ReconResult(matched, unmatched, remaining), idx);
        matched := matched + [Match(p, remaining[idx])];
        remaining := remaining[..idx] + remaining[idx + 1..];
        m, free := m[n := free[idx]], free[..idx] + free[idx + 1..];
      } else {
        SkipProgress(payments, lines, window, m, free, n, ReconResult(matched, unmatched, remaining));
        unmatched := unmatched + [p];
      }
    }
    assert payments[..|payments|] == payments;
    r := ReconResult(matched, unmatched, remaining);
  }

  // --- what the report promises ---

  lemma FirstFitIsMatching(payments: seq<SettledPayment>, lines: seq<StatementLine>, window: int, m: Choice)
    requires FirstFit(payments, lines, window, m)
    ensures IsMatching(payments, lines, window, m)
  {
    forall i | i in m
      ensures m[i] < |lines| && Compatible(payments[i], lines[m[i]], window)
    {
      assert FitsFirst(payments, lines, window, m, i);
    }
    forall i, k | i in m && k in m && i < k
      ensures m[i] != m[k]
    {
      assert FitsFirst(payments, lines, window, m, k);
    }
  }

  /** Of any compatible pair, first fit used the payment or the line. */
  lemma NoPairIsLeft(payments: seq<SettledPayment>, lines: seq<StatementLine>, window: int, m: Choice, i: nat, j: nat)
    requires FirstFit(payments, lines, window, m)
    requires i < |payments| && j < |lines| && Compatible(payments[i], lines[j], window)
    ensures i in m || j in m.Values
  {
    assert FitsFirst(payments, lines, window, m, i);
    assert Open(payments, lines, window, m, i, j) || j in m.Values;
  }

  lemma {:induction false} WithoutLineAt(payments: seq<SettledPayment>, m: Choice, p: SettledPayment)
    requires p in WithoutLine(payments, m)
    ensures exists i :: 0 <= i < |payments| && payments[i] == p && i !in m
  {
    var n := |payments| - 1;
    if n in m || payments[n] != p {
      WithoutLineAt(payments[..n], m, p);
      var i :| 0 <= i < n && payments[..n][i] == p && i !in m;
      assert payments[i] == p;
    }
  }

  /** No compatible pair is left between the two unmatched lists. */
  lemma ReportIsMaximal(payments: seq<SettledPayment>, lines: seq<StatementLine>, window: int, m: Choice, free: seq<nat>, r: ReconResult)
    requires FirstFit(payments, lines, window, m) && Reports(payments, lines, m, free, r)
    ensures forall p, l :: p in r.unmatchedPayments && l in r.unmatchedStatement ==> !Compatible(p, l, window)
  {
    forall p, l | p in r.unmatchedPayments && l in r.unmatchedStatement && Compatible(p, l, window)
      ensures false
    {
      WithoutLineAt(payments, m, p);
      var i :| 0 <= i < |payments| && payments[i] == p && i !in m;
      var k :| 0 <= k < |r.unmatchedStatement| && r.unmatchedStatement[k] == l;
      NoPairIsLeft(payments, lines, window, m, i, free[k]);
    }
  }

  lemma {:induction false} MatchedAt(payments: seq<SettledPayment>, lines: seq<StatementLine>, m: Choice, x: Match)
    requires (forall i :: i in m ==> m[i] < |lines|) && x in Matched(payments, lines, m)
    ensures exists i :: 0 <= i < |payments| && i in m && x == Match(payments[i], lines[m[i]])
  {
    var n := |payments| - 1;
    if !(n in m && x == Match(payments[n], lines[m[n]])) {
      MatchedAt(payments[..n], lines, m, x);
      var i :| 0 <= i < n && i in m && x == Match(payments[..n][i], lines[m[i]]);
      assert payments[..n][i] == payments[i];
    }
  }

  /** Line j agrees with payment i, and no earlier payment took it. */
  predicate IsFree(payments: seq<SettledPayment>, lines: seq<StatementLine>, window: int, m: Choice, i: nat, j: nat)
    requires i < |payments| && j < |lines|
  {
    var p, l := payments[i], lines[j];
    && p.currency == l.currency && p.amount == l.amount && p.at - l.at <= window && l.at - p.at <= window
    && forall k :: 0 <= k < i && k in m ==> m[k] != j
  }

  /** FIRST FIT. Each payment takes the first line of the statement that agrees with it and that
   *  no earlier payment took, and goes without only when there is none. */
  lemma FirstFitMeans(payments: seq<SettledPayment>, lines: seq<StatementLine>, window: int, m: Choice, i: nat)
    requires FirstFit(payments, lines, window, m) && i < |payments|
    ensures i in m ==> && m[i] < |lines| && IsFree(payments, lines, window, m, i, m[i])
                       && forall j :: 0 <= j < m[i] ==> !IsFree(payments, lines, window, m, i, j)
    ensures i !in m ==> forall j :: 0 <= j < |lines| ==> !IsFree(payments, lines, window, m, i, j)
  {
    assert FitsFirst(payments, lines, window, m, i);
    forall j | 0 <= j < |lines|
      ensures IsFree(payments, lines, window, m, i, j) <==> Open(payments, lines, window, m, i, j)
    {
    }
    hide Open, IsFree;
  }

  /** What a report says of payments and lines: matched ones agree in currency, amount and, to
   *  within the window, in time; no two unmatched ones do. */
  lemma ReportMeans(payments: seq<SettledPayment>, lines: seq<StatementLine>, window: int, m: Choice, free: seq<nat>, r: ReconResult)
    requires FirstFit(payments, lines, window, m) && Reports(payments, lines, m, free, r)
    ensures forall x :: x in r.matched ==>
              && x.payment in payments && x.line in lines
              && x.payment.currency == x.line.currency && x.payment.amount == x.line.amount
              && x.payment.at - x.line.at <= window && x.line.at - x.payment.at <= window
    ensures forall p, l :: p in r.unmatchedPayments && l in r.unmatchedStatement ==>
              || p.currency != l.currency || p.amount != l.amount || p.at - l.at > window || l.at - p.at > window
  {
    FirstFitIsMatching(payments, lines, window, m);
    ReportIsMaximal(payments, lines, window, m, free, r);
    forall x | x in r.matched
      ensures x.payment in payments && x.line in lines && Compatible(x.payment, x.line, window)
    {
      MatchedAt(payments, lines, m, x);
    }
  }

  // --- counting ---

  /** Sending a set injectively into another needs room for it. */
  lemma {:induction false} InjectionBound(s: set<nat>, f: Choice, t: set<nat>)
    requires forall x :: x in s ==> x in f && f[x] in t
    requires forall x, y :: x in s && y in s && x != y ==> f[x] != f[y]
    ensures |s| <= |t|
    decreases |s|
  {
    if s != {} {
      var x :| x in s;
      InjectionBound(s - {x}, f, t - {f[x]});
    }
  }

  lemma {:induction false} FewValues(m: Choice)
    ensures |m.Values| <= |m|
    decreases |m|
  {
    if m != map[] {
      var k :| k in m;
      var rest := m - {k};
      assert rest.Keys == m.Keys - {k};
      FewValues(rest);
      forall v | v in m.Values
        ensures v in rest.Values + {m[k]}
      {
        var i :| i in m && m[i] == v;
        if i != k {
          assert rest[i] == v;
        }
      }
      assert m.Values <= rest.Values + {m[k]};
      Subset(m.Values, rest.Values + {m[k]});
    } else {
      assert m.Values == {};
    }
  }

  lemma {:induction false} Subset(s: set<nat>, t: set<nat>)
    requires s <= t
    ensures |s| <= |t|
    decreases |s|
  {
    if s != {} {
      var x :| x in s;
      Subset(s - {x}, t - {x});
    }
  }

  /** First fit finds at least half as many matches as any way of matching could. */
  lemma HalfOfAnyMatching(payments: seq<SettledPayment>, lines: seq<StatementLine>, window: int, m: Choice, other: Choice)
    requires FirstFit(payments, lines, window, m) && IsMatching(payments, lines, window, other)
    ensures |other| <= 2 * |m|
  {
    var shared := other.Keys * m.Keys;
    var rest := other.Keys - m.Keys;
    Subset(shared, m.Keys);
    forall i | i in rest
      ensures i in other && other[i] in m.Values
    {
      NoPairIsLeft(payments, lines, window, m, i, other[i]);
    }
    InjectionBound(rest, other, m.Values);
    FewValues(m);
    assert other.Keys == shared + rest;
  }

  /** The bound is reached: the first payment takes the only line the second could. */
  lemma HalfIsReached()
    returns (payments: seq<SettledPayment>, lines: seq<StatementLine>, window: int, m: Choice, other: Choice)
    ensures FirstFit(payments, lines, window, m) && IsMatching(payments, lines, window, other)
    ensures |m| == 1 && |other| == 2
  {
    payments := [SettledPayment("a", "shop", 100, "USD", 0), SettledPayment("b", "shop", 100, "USD", -1)];
    lines := [StatementLine(100, "USD", "SHOP", 0), StatementLine(100, "USD", "SHOP", 1)];
    window := 1;
    m := map[0 := 0];
    other := map[0 := 1, 1 := 0];
    assert FitsFirst(payments, lines, window, m, 0);
    assert FitsFirst(payments, lines, window, m, 1);
    assert m.Keys == {0} && other.Keys == {0, 1};
  }
}
