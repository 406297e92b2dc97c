/** The spend-risk classifier (src/core/risk.ts). */
module Risk {
  import opened Prelude
  import opened Types

  function Insert(x: int, sorted: seq<int>): seq<int> {
    if sorted == [] || x <= sorted[0] then [x] + sorted
    else [sorted[0]] + Insert(x, sorted[1..])
  }

  /** A sorted copy. */
  function Sorted(values: seq<int>): seq<int> {
    if values == [] then [] else Insert(values[0], Sorted(values[1..]))
  }

  /** The middle value; the rounded mean of the two middle ones for an even count. */
  function Median(values: seq<int>): int {
    var sorted := Sorted(values);
    var mid := |values| / 2;
    SortedLength(values);
    if values == [] then 0
    else if |values| % 2 == 0 then Round((sorted[mid - 1] + sorted[mid]) as real / 2.0)
    else sorted[mid]
  }

  lemma {:induction false} InsertLength(x: int, sorted: seq<int>)
    ensures |Insert(x, sorted)| == |sorted| + 1
  {
    if sorted != [] {
      InsertLength(x, sorted[1..]);
    }
  }

  lemma {:induction false} SortedLength(values: seq<int>)
    ensures |Sorted(values)| == |values|
  {
    if values != [] {
      SortedLength(values[1..]);
      InsertLength(values[0], Sorted(values[1..]));
    }
  }

  /** What the classifier knows about the payee, the agent and the rail. */
  datatype Signals = Signals(
    trust: TrustLevel,
    attestation: Option<Attestation>,
    reputation: Option<Reputation>,
    reversibility: Reversibility)

  function Amounts(spend: seq<PriorSpend>): (amounts: seq<int>)
    ensures |amounts| == |spend|
    ensures forall i :: 0 <= i < |spend| ==> amounts[i] == spend[i].amount
  {
    seq(|spend|, i requires 0 <= i < |spend| => spend[i].amount)
  }

  /** A positive period median exists and the amount exceeds a multiple of it. */
  predicate Anomalous(amount: int, spend: seq<PriorSpend>, config: GateConfig) {
    var baseline := Median(Amounts(spend));
    baseline > 0 && amount as real > baseline as real * config.anomalyMultiple
  }

  function ReputationScore(reputation: Option<Reputation>): int {
    if reputation == Some(Flagged) then 2 else if reputation == Some(Good) then -1 else 0
  }

  function AttestationScore(attestation: Option<Attestation>): int {
    if attestation == Some(Unattested) then 1 else if attestation == Some(RegistryAttested) then -1 else 0
  }

  function TrustScore(trust: TrustLevel): int {
    match trust
    case New => 2
    case Trusted => -1
    case Seen => 0
  }

  function Tier(score: int): RiskTier {
    if score >= 4 then High else if score >= 2 then Medium else if score >= 1 then Low else NoRisk
  }

  function ClassifySpendRisk(amount: int, spend: seq<PriorSpend>, signals: Signals, config: GateConfig): SpendRisk {
    var score :=
      ReputationScore(signals.reputation)
      + AttestationScore(signals.attestation)
      + TrustScore(signals.trust)
      + (if Anomalous(amount, spend, config) then 2 else 0)
      + (if signals.reversibility == Irreversible && signals.trust == New then 1 else 0);
    SpendRisk(Tier(score), score)
  }

  // Sorting removes every trace of order, so the median does too.

  ghost predicate IsSorted(s: seq<int>) {
    forall i, j :: 0 <= i < j < |s| ==> s[i] <= s[j]
  }

  lemma {:induction false} InsertKeepsElements(x: int, sorted: seq<int>)
    ensures multiset(Insert(x, sorted)) == multiset(sorted) + multiset{x}
  {
    if sorted != [] && x > sorted[0] {
      InsertKeepsElements(x, sorted[1..]);
      HeadAndTail(sorted);
    }
  }

  lemma SortedPrepend(x: int, s: seq<int>)
    requires IsSorted(s)
    requires s != [] ==> x <= s[0]
    ensures IsSorted([x] + s)
  {
  }

  lemma {:induction false} InsertSorts(x: int, sorted: seq<int>)
    requires IsSorted(sorted)
    ensures IsSorted(Insert(x, sorted))
    ensures Insert(x, sorted)[0] == if sorted == [] || x <= sorted[0] then x else sorted[0]
  {
    if sorted == [] || x <= sorted[0] {
      SortedPrepend(x, sorted);
    } else {
      InsertSorts(x, sorted[1..]);
      SortedPrepend(sorted[0], Insert(x, sorted[1..]));
    }
  }

  lemma {:induction false} SortedSorts(values: seq<int>)
    ensures IsSorted(Sorted(values))
    ensures multiset(Sorted(values)) == multiset(values)
  {
    if values != [] {
      SortedSorts(values[1..]);
      InsertSorts(values[0], Sorted(values[1..]));
      InsertKeepsElements(values[0], Sorted(values[1..]));
      HeadAndTail(values);
    }
  }

  /** The head of a sorted sequence is its least element, however it is spelt. */
  lemma SortedHead(a: seq<int>, b: seq<int>)
    requires IsSorted(a) && a != [] && b != [] && multiset(a) == multiset(b)
    ensures a[0] <= b[0]
  {
    assert b[0] in multiset(b);
    assert b[0] in a;
  }

  lemma {:induction false} SortedIsUnique(a: seq<int>, b: seq<int>)
    requires IsSorted(a) && IsSorted(b) && multiset(a) == multiset(b)
    ensures a == b
  {
    assert |multiset(a)| == |a| && |multiset(b)| == |b|;
    if a != [] {
      SortedHead(a, b);
      SortedHead(b, a);
      SameTails(a, b);
      SortedIsUnique(a[1..], b[1..]);
      assert a == [a[0]] + a[1..] && b == [b[0]] + b[1..];
    }
  }

  lemma SameTails(a: seq<int>, b: seq<int>)
    requires a != [] && b != [] && a[0] == b[0] && multiset(a) == multiset(b)
    ensures multiset(a[1..]) == multiset(b[1..])
  {
    HeadAndTail(a);
    HeadAndTail(b);
    forall x ensures multiset(a[1..])[x] == multiset(b[1..])[x] {
      assert multiset(a)[x] == multiset{a[0]}[x] + multiset(a[1..])[x];
      assert multiset(b)[x] == multiset{b[0]}[x] + multiset(b[1..])[x];
    }
  }

  lemma MedianIgnoresOrder(a: seq<int>, b: seq<int>)
    requires multiset(a) == multiset(b)
    ensures Median(a) == Median(b)
  {
    SortedSorts(a);
    SortedSorts(b);
    SortedIsUnique(Sorted(a), Sorted(b));
    SortedLength(a);
    SortedLength(b);
  }
}
