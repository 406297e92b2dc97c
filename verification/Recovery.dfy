/** What a restart does to the gate. The tables hold no order of mandates and intents, so the
 *  reloaded mirror lists them in any; exactly when that cannot change a verdict. */
module Recovery {
  import opened Prelude
  import opened Types
  import opened Calendar
  import opened Gate
  import opened GateLaws
  import opened Store
  import opened PostgresStore
  import Executor

  // --- which mandate is charged ---

  lemma OnlyOnePick(xs: seq<Mandate>, ys: seq<Mandate>, intent: PaymentIntent, now: Instant, convert: Option<Converter>)
    requires AtMostOneAuthorizes(ys, intent, now, convert)
    requires forall m :: m in xs <==> m in ys
    ensures Authority(xs, intent, now, convert) == Authority(ys, intent, now, convert)
  {
    AuthorityIsFirst(xs, intent, now, convert);
    AuthorityIsFirst(ys, intent, now, convert);
    hide Authority, Covers, IsLive;
    var p, q := Authority(xs, intent, now, convert), Authority(ys, intent, now, convert);
    if p.Some? {
      assert p.value in ys && Authorizes(p.value, intent, now, convert);
    }
    if q.Some? {
      assert q.value in xs && Authorizes(q.value, intent, now, convert);
    }
  }

  /** Another order of the same mandates puts another one first. */
  function MovedFirst(mandates: seq<Mandate>, i: nat): seq<Mandate>
    requires i < |mandates|
  {
    [mandates[i]] + mandates[..i] + mandates[i + 1..]
  }

  lemma SameTable<K, T>(xs: seq<T>, ys: seq<T>, key: T -> K)
    requires Keyed(xs, key) && Keyed(ys, key)
    requires forall x :: x in xs <==> x in ys
    ensures Rows(xs, key) == Rows(ys, key)
  {
    RowsMembers(xs, key);
    RowsMembers(ys, key);
    hide Rows, Keyed;
    forall k
      ensures k in Rows(xs, key) <==> k in Rows(ys, key)
      ensures k in Rows(xs, key) && k in Rows(ys, key) ==> Rows(xs, key)[k] == Rows(ys, key)[k]
    {
      if k in Rows(xs, key) {
        assert Rows(xs, key)[k] in ys;
      }
      if k in Rows(ys, key) {
        assert Rows(ys, key)[k] in xs;
      }
    }
  }

  lemma MovedFirstAt(mandates: seq<Mandate>, i: nat, j: nat)
    requires i < |mandates| && j < |mandates|
    ensures |MovedFirst(mandates, i)| == |mandates|
    ensures MovedFirst(mandates, i)[j] == mandates[if j == 0 then i else if j <= i then j - 1 else j]
    ensures mandates[j] == MovedFirst(mandates, i)[if j == i then 0 else if j < i then j + 1 else j]
  {
  }

  lemma MovedFirstIsSame(mandates: seq<Mandate>, i: nat)
    requires Keyed(mandates, MandateKey) && i < |mandates|
    ensures Keyed(MovedFirst(mandates, i), MandateKey)
    ensures Rows(MovedFirst(mandates, i), MandateKey) == Rows(mandates, MandateKey)
  {
    hide MovedFirst, Rows, MandateKey;
    var moved := MovedFirst(mandates, i);
    MovedFirstAt(mandates, i, i);
    forall j, k | 0 <= j < k < |moved|
      ensures MandateKey(moved[j]) != MandateKey(moved[k])
    {
      MovedFirstAt(mandates, i, j);
      MovedFirstAt(mandates, i, k);
    }
    forall m
      ensures m in moved <==> m in mandates
    {
      if m in moved {
        var j :| 0 <= j < |moved| && moved[j] == m;
        MovedFirstAt(mandates, i, j);
      }
      if m in mandates {
        var j :| 0 <= j < |mandates| && mandates[j] == m;
        MovedFirstAt(mandates, i, j);
      }
    }
    SameTable(moved, mandates, MandateKey);
  }

  /** With two of them, some reload charges the one that was not charged before. */
  lemma OtherPick(saved: Mirror, intent: PaymentIntent, now: Instant, convert: Option<Converter>) returns (m: Mirror)
    requires WellFormed(saved) && !AtMostOneAuthorizes(saved.mandates, intent, now, convert)
    ensures Loads(Image(saved), m) && m.intents == saved.intents
    ensures var p, q := Authority(saved.mandates, intent, now, convert), Authority(m.mandates, intent, now, convert);
            p.Some? && q.Some? && p.value.id != q.value.id
  {
    AuthorityIsFirst(saved.mandates, intent, now, convert);
    var p := Authority(saved.mandates, intent, now, convert);
    assert p.Some?;
    var i :| 0 <= i < |saved.mandates| && saved.mandates[i] != p.value && Authorizes(saved.mandates[i], intent, now, convert);
    m := saved.(mandates := MovedFirst(saved.mandates, i));
    MovedFirstIsSame(saved.mandates, i);
    assert m.mandates[0] == saved.mandates[i];
    hide Rows, Covers, IsLive;
  }

  /** Recovery keeps the mandate a payment is charged to, whatever order the rows arrive in,
   *  if and only if at most one live mandate covers it. */
  lemma PickSurvivesIff(saved: Mirror, intent: PaymentIntent, now: Instant, convert: Option<Converter>)
    requires WellFormed(saved)
    ensures (forall m :: Loads(Image(saved), m) ==> Authority(m.mandates, intent, now, convert) == Authority(saved.mandates, intent, now, convert))
       <==> AtMostOneAuthorizes(saved.mandates, intent, now, convert)
  {
    hide Image, Authority;
    if AtMostOneAuthorizes(saved.mandates, intent, now, convert) {
      forall m | Loads(Image(saved), m)
        ensures Authority(m.mandates, intent, now, convert) == Authority(saved.mandates, intent, now, convert)
      {
        ReloadRestores(m, saved);
        OnlyOnePick(m.mandates, saved.mandates, intent, now, convert);
      }
    } else {
      var m := OtherPick(saved, intent, now, convert);
    }
  }

  // --- the whole verdict ---

  /** The ledger of a mirror; the halt switches come back from the meta table as they were. */
  function LedgerOf(m: Mirror, killed: bool, failures: int): Ledger {
    Ledger(m.mandates, m.intents, m.receipts, killed, failures)
  }

  lemma {:induction false} DistinctElements<T>(xs: seq<T>, x: T)
    requires forall i, j :: 0 <= i < j < |xs| ==> xs[i] != xs[j]
    ensures multiset(xs)[x] == if x in xs then 1 else 0
  {
    if xs != [] {
      var n := |xs| - 1;
      DistinctElements(xs[..n], x);
      assert xs == xs[..n] + [xs[n]];
    }
  }

  /** Two lists of the same distinct elements are permutations of each other. */
  lemma SameElements<T>(xs: seq<T>, ys: seq<T>)
    requires forall i, j :: 0 <= i < j < |xs| ==> xs[i] != xs[j]
    requires forall i, j :: 0 <= i < j < |ys| ==> ys[i] != ys[j]
    requires forall x :: x in xs <==> x in ys
    ensures multiset(xs) == multiset(ys)
  {
    forall x
      ensures multiset(xs)[x] == multiset(ys)[x]
    {
      DistinctElements(xs, x);
      DistinctElements(ys, x);
    }
  }

  function PaidTo(payee: string): StoredIntent -> int {
    (s: StoredIntent) => if s.status == Settled && s.intent.payee == payee then 1 else 0
  }

  lemma {:induction false} SettledCountIsSum(intents: seq<StoredIntent>, payee: string)
    ensures SettledCount(intents, payee) == Sum(intents, PaidTo(payee))
  {
    if intents != [] {
      SettledCountIsSum(intents[..|intents| - 1], payee);
    }
  }

  function SpendsAs(v: PriorSpend, id: string, start: Instant): StoredIntent -> int {
    (s: StoredIntent) => if CountsFrom(s, id, start) && PriorSpend(s.Net(), s.settledAt.value) == v then 1 else 0
  }

  lemma {:induction false} SpendIsSum(intents: seq<StoredIntent>, v: PriorSpend, id: string, start: Instant)
    ensures multiset(SpendFrom(intents, id, start))[v] == Sum(intents, SpendsAs(v, id, start))
  {
    if intents != [] {
      SpendIsSum(intents[..|intents| - 1], v, id, start);
    }
  }

  lemma SpendIgnoresOrder(xs: seq<StoredIntent>, ys: seq<StoredIntent>, id: string, start: Instant)
    requires multiset(xs) == multiset(ys)
    ensures multiset(SpendFrom(xs, id, start)) == multiset(SpendFrom(ys, id, start))
  {
    forall v
      ensures multiset(SpendFrom(xs, id, start))[v] == multiset(SpendFrom(ys, id, start))[v]
    {
      SpendIsSum(xs, v, id, start);
      SpendIsSum(ys, v, id, start);
      SumIgnoresOrder(xs, ys, SpendsAs(v, id, start));
    }
  }

  lemma CountIgnoresOrder(xs: seq<StoredIntent>, ys: seq<StoredIntent>)
    requires multiset(xs) == multiset(ys)
    ensures forall payee :: SettledCount(xs, payee) == SettledCount(ys, payee)
    ensures KnownPayees(xs) == KnownPayees(ys)
  {
    forall payee
      ensures SettledCount(xs, payee) == SettledCount(ys, payee)
      ensures payee in KnownPayees(xs) <==> payee in KnownPayees(ys)
    {
      SettledCountIsSum(xs, payee);
      SettledCountIsSum(ys, payee);
      SumIgnoresOrder(xs, ys, PaidTo(payee));
      KnownIffCounted(xs, payee);
      KnownIffCounted(ys, payee);
    }
  }

  lemma SameMandate(xs: seq<Mandate>, ys: seq<Mandate>, id: string)
    requires Keyed(xs, MandateKey) && Keyed(ys, MandateKey) && forall m :: m in xs <==> m in ys
    ensures GetMandate(xs, id) == GetMandate(ys, id)
  {
    var i, j := MandateIndex(xs, id), MandateIndex(ys, id);
    if i >= 0 {
      assert xs[i] in ys;
      var k :| 0 <= k < |ys| && ys[k] == xs[i];
      assert MandateKey(ys[k]) == id;
    }
    if j >= 0 {
      assert ys[j] in xs;
      var k :| 0 <= k < |xs| && xs[k] == ys[j];
      assert MandateKey(xs[k]) == id;
    }
  }

  /** A reloaded ledger gives the gate the same floor, the same signals, and the same spend
   *  up to its order. */
  lemma ReloadedContext(
    env: Executor.Env, m: Mirror, saved: Mirror, killed: bool, failures: int, intent: PaymentIntent, att: Option<Attestation>, now: Instant)
    requires WellFormed(saved) && Loads(Image(saved), m)
    ensures var a, b := Executor.Context(env, LedgerOf(m, killed, failures), intent, att, now), Executor.Context(env, LedgerOf(saved, killed, failures), intent, att, now);
            && Floor(intent, a) == Floor(intent, b)
            && SignalsOf(intent, a) == SignalsOf(intent, b)
            && forall id :: multiset(a.periodSpend(id)) == multiset(b.periodSpend(id))
  {
    ReloadRestores(m, saved);
    PermutedIntents(m.intents, saved.intents);
    CountIgnoresOrder(m.intents, saved.intents);
    hide Rows, Image, SpendFrom, SettledCount, KnownPayees, FirstDenied, Trim, PeriodStart;
    var a, b := Executor.Context(env, LedgerOf(m, killed, failures), intent, att, now), Executor.Context(env, LedgerOf(saved, killed, failures), intent, att, now);
    forall id
      ensures multiset(a.periodSpend(id)) == multiset(b.periodSpend(id))
    {
      SameMandate(m.mandates, saved.mandates, id);
      var found := GetMandate(saved.mandates, id);
      if found.Some? {
        SpendIgnoresOrder(m.intents, saved.intents, id, PeriodStart(now, found.value.period));
      }
    }
  }

  lemma PermutedIntents(xs: seq<StoredIntent>, ys: seq<StoredIntent>)
    requires Keyed(xs, IntentKey) && Keyed(ys, IntentKey) && forall s :: s in xs <==> s in ys
    ensures multiset(xs) == multiset(ys)
  {
    forall i, j | 0 <= i < j < |xs| ensures xs[i] != xs[j] {
      assert IntentKey(xs[i]) != IntentKey(xs[j]);
    }
    forall i, j | 0 <= i < j < |ys| ensures ys[i] != ys[j] {
      assert IntentKey(ys[i]) != IntentKey(ys[j]);
    }
    SameElements(xs, ys);
  }

  /** The same pick, the same verdict. */
  lemma ReloadedVerdict(
    env: Executor.Env, m: Mirror, saved: Mirror, killed: bool, failures: int, intent: PaymentIntent, att: Option<Attestation>, now: Instant)
    requires WellFormed(saved) && Loads(Image(saved), m)
    ensures var a, b := LedgerOf(m, killed, failures), LedgerOf(saved, killed, failures);
            var p, q := Authority(m.mandates, intent, now, Executor.LiveConvert(env)), Authority(saved.mandates, intent, now, Executor.LiveConvert(env));
            var floor := Floor(intent, Executor.Context(env, b, intent, att, now));
            && (floor.Some? || p == q ==> Executor.GateVerdict(env, a, intent, att, now) == Executor.GateVerdict(env, b, intent, att, now))
            && (floor.None? && IdOf(p) != IdOf(q) ==> Executor.GateVerdict(env, a, intent, att, now) != Executor.GateVerdict(env, b, intent, att, now))
  {
    var a, b := Executor.Context(env, LedgerOf(m, killed, failures), intent, att, now), Executor.Context(env, LedgerOf(saved, killed, failures), intent, att, now);
    ReloadedContext(env, m, saved, killed, failures, intent, att, now);
    ActiveAuthority(m.mandates, intent, now, Executor.LiveConvert(env));
    ActiveAuthority(saved.mandates, intent, now, Executor.LiveConvert(env));
    var p, q := Authority(m.mandates, intent, now, Executor.LiveConvert(env)), Authority(saved.mandates, intent, now, Executor.LiveConvert(env));
    assert Authority(a.mandates, intent, a.now, a.convert) == p && Authority(b.mandates, intent, b.now, b.convert) == q;
    assert a.now == b.now && a.config == b.config && a.convert == b.convert;
    hide Floor, Authority, SignalsOf, Decide, Image, Loads, WellFormed, Executor.LiveConvert, AmountIn;
    if Floor(intent, b).Some? || p == q {
      SamePickSameVerdict(intent, a, b);
    } else {
      VerdictNamesPick(intent, a);
      VerdictNamesPick(intent, b);
    }
  }

  /** RECOVERY, exactly. Every reload of a saved mirror gives a payment the gate's verdict
   *  before the crash if and only if the floor refuses it anyway or at most one live mandate
   *  covers it. */
  lemma VerdictSurvivesIff(
    env: Executor.Env, saved: Mirror, killed: bool, failures: int, intent: PaymentIntent, att: Option<Attestation>, now: Instant)
    requires WellFormed(saved)
    ensures var before := LedgerOf(saved, killed, failures);
            (forall m :: Loads(Image(saved), m) ==>
               Executor.GateVerdict(env, LedgerOf(m, killed, failures), intent, att, now) == Executor.GateVerdict(env, before, intent, att, now))
            <==> Floor(intent, Executor.Context(env, before, intent, att, now)).Some?
                 || AtMostOneAuthorizes(saved.mandates, intent, now, Executor.LiveConvert(env))
  {
    hide Image, Authority, Executor.GateVerdict, Floor, Executor.Context, Executor.LiveConvert, AtMostOneAuthorizes, Loads, WellFormed;
    var before := LedgerOf(saved, killed, failures);
    PickSurvivesIff(saved, intent, now, Executor.LiveConvert(env));
    if Floor(intent, Executor.Context(env, before, intent, att, now)).Some? || AtMostOneAuthorizes(saved.mandates, intent, now, Executor.LiveConvert(env)) {
      forall m | Loads(Image(saved), m)
        ensures Executor.GateVerdict(env, LedgerOf(m, killed, failures), intent, att, now) == Executor.GateVerdict(env, before, intent, att, now)
      {
        ReloadedVerdict(env, m, saved, killed, failures, intent, att, now);
      }
    } else {
      var m := OtherPick(saved, intent, now, Executor.LiveConvert(env));
      ReloadedVerdict(env, m, saved, killed, failures, intent, att, now);
    }
  }
}
