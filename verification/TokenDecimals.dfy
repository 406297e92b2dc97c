/** A recorded decision that does not replay, for the sake of the operator's decimals table. */
module TokenDecimals {
  import opened Prelude
  import opened Types
  import opened Store
  import opened Fx
  import opened Enforcement
  import opened Executor
  import opened EnforcementLaws
  import opened Scenario
  import Gate

  function AtPar(from: string, to: string): Option<real> {
    Some(1.0)
  }

  /** Five of a token with six decimals. */
  const FIVE: PaymentIntent := Invoice("1", "tools", 5_000_000, "USDC")

  lemma TokenConversions()
    ensures ConvertMinorCrossDecimal(5_000_000, 1.0, "USDC", "USD", Some(map["USDC" := 6])) == 500
    ensures ConvertMinorCrossDecimal(5_000_000, 1.0, "USDC", "USD", None) == 5_000_000
  {
    var table: Option<map<string, int>> := Some(map["USDC" := 6]);
    assert Upper("USDC") == "USDC" && Upper("USD") == "USD";
    assert TenTo(-4) == 0.0001 by {
      assert TenTo(-1) == 0.1;
      assert TenTo(-2) == 0.01;
      assert TenTo(-3) == 0.001;
    }
    assert Shift("USDC", "USD", table) == -4;
  }

  lemma Measured(env: Env)
    requires env.fx == Some(AtPar) && (env.tokenDecimals == Some(map["USDC" := 6]) || env.tokenDecimals == None)
    ensures Gate.Covers(DOLLARS, FIVE, LiveConvert(env))
    ensures Gate.AmountIn(DOLLARS, FIVE, LiveConvert(env)) == if env.tokenDecimals.Some? then 500 else 5_000_000
  {
    TokenConversions();
    assert |"USDC"| != |"USD"|;
    assert env.fx.value("USDC", "USD") == AtPar("USDC", "USD") == Some(1.0);
    hide ConvertMinorCrossDecimal;
    assert LiveConvert(env).value(5_000_000, "USDC", "USD") == Some(if env.tokenDecimals.Some? then 500 else 5_000_000);
  }

  /** A new payee: nothing runs unattended, so nothing is escalated, and the only mandate is the
   *  first by id. */
  lemma OnlyDecimalsMatter(env: Env)
    requires IsInstallation(env) && env.fx == Some(AtPar)
    requires env.tokenDecimals == Some(map["USDC" := 6]) || env.tokenDecimals == None
    ensures !WasEscalated(env, Start(DOLLARS), FIVE, None, 0) && PickHasLeastId(env, Start(DOLLARS).ledger, FIVE, None, 0)
    ensures MeasuredAlike(env, Start(DOLLARS).ledger, FIVE, None, 0) <==> env.tokenDecimals == None
  {
    var ledger := Start(DOLLARS).ledger;
    var ctx := Context(env, ledger, FIVE, None, 0);
    Measured(env);
    Measured(env.(tokenDecimals := None));
    assert env.tokenDecimals == None ==> env.(tokenDecimals := None) == env;
    assert ActiveMandates([DOLLARS], 0) == [DOLLARS];
    assert Gate.Authority([DOLLARS], FIVE, 0, LiveConvert(env)) == Some(DOLLARS);
    assert Gate.Floor(FIVE, ctx) == None;
    assert Gate.SignalsOf(FIVE, ctx).trust == New;
    Gate.AutoExecuteIff(FIVE, ctx);
    assert ctx.periodSpend("m") == [];
    hide LiveConvert, Gate.Covers, Gate.AmountIn, Gate.Authority, Gate.Floor, Gate.Decide, Gate.SignalsOf, Verdict;
  }

  /** The same payment, ledger and policy: with the table in force the decision does not
   *  replay, without it it does. */
  lemma TokenDecimalsAreNotReplayed() returns (env: Env, w: World, intent: PaymentIntent)
    ensures IsFresh(w)
    ensures var e := DecisionEvent(env, w, intent, None, 0);
            !ReplayMatches(e, e.policy, env.denyRules)
    ensures var plain := env.(tokenDecimals := None);
            var e := DecisionEvent(plain, w, intent, None, 0);
            ReplayMatches(e, e.policy, plain.denyRules)
  {
    env := Installation(Some(AtPar), Some(map["USDC" := 6]), 10);
    w, intent := Start(DOLLARS), FIVE;
    hide ReplayMatches, WasEscalated, PickHasLeastId, MeasuredAlike, DecisionEvent;
    OnlyDecimalsMatter(env);
    OnlyDecimalsMatter(env.(tokenDecimals := None));
    ReplayMatchesIff(env, w, intent, None, 0);
    ReplayMatchesIff(env.(tokenDecimals := None), w, intent, None, 0);
  }
}
