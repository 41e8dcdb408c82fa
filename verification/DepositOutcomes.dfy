/** What a paid deposit comes to: the transaction reads as completed when, and only when, its money has been credited. */
module DepositOutcomes {
  import opened Wrappers
  import opened Sums
  import opened Fees
  import opened Deposits

  /** A deposit on its way: its row is pending, or missing but known from the transaction, which is pending or processing. */
  predicate OnItsWay(dep: Option<DepositRow>, txn: TxnRow)
  {
    && txn.isDeposit && txn.status in {TxnPending, TxnProcessing}
    && (dep.Some? ==> dep.value.status == DepositPending)
    && (dep.None? ==> txn.amount != 0 && txn.hasUser)
  }

  predicate ReadSettled(dep: Option<DepositRow>) { dep.Some? && dep.value.status == DepositSuccess }

  /** What a call has read was true once, and a settlement is for ever. */
  predicate CallTold(s: State, c: Call)
  {
    match c.stage
    case DepositRead(dep) => ReadSettled(dep) ==> s.settlements != []
    case BothRead(dep, txn) => (ReadSettled(dep) || txn.status == TxnCompleted ==> s.settlements != [])
    case Chosen(route, dep, txn) =>
      && (route == CompleteTxn || txn.status == TxnCompleted ==> s.settlements != [])
      && route in {MerchantQr, PendingBoth, PendingDeposit, CompleteTxn}
    case Reread(txn) => txn.status == TxnCompleted ==> s.settlements != []
    case _ => true
  }

  ghost predicate Told(s: State)
  {
    && (s.txn.status == TxnCompleted ==> s.settlements != [])
    && (ReadSettled(s.dep) ==> s.settlements != [])
    && forall c :: 0 <= c < |s.calls| ==> CallTold(s, s.calls[c])
  }

  lemma ToldCommit(s: State, k: nat, found: bool, rule: FeeRule)
    requires Told(s)
    ensures Told(DoCommit(s, k, found, rule))
  {
    if At(s, k) {
      assert CallTold(s, s.calls[k]);
      var r := DoCommit(s, k, found, rule);
      forall c | 0 <= c < |r.calls|
        ensures CallTold(r, r.calls[c])
      {
        assert CallTold(s, s.calls[c]);
      }
    }
  }

  lemma ToldOther(s: State, e: Event)
    requires Told(s) && !e.Commit?
    ensures Told(Step(s, e))
  {
    var r := Step(s, e);
    forall c | 0 <= c < |r.calls|
      ensures CallTold(r, r.calls[c])
    {
      assert c < |s.calls| ==> CallTold(s, s.calls[c]);
    }
  }

  lemma {:induction false} ToldRun(s: State, es: seq<Event>)
    requires Fresh(s) && OnItsWay(s.dep, s.txn)
    ensures Told(Run(s, es))
  {
    if es == [] {
    } else {
      ToldRun(s, es[..|es| - 1]);
      ToldStep(Run(s, es[..|es| - 1]), es[|es| - 1]);
    }
  }

  lemma ToldStep(s: State, e: Event)
    requires Told(s)
    ensures Told(Step(s, e))
  {
    match e
    case Commit(k, found, rule) => ToldCommit(s, k, found, rule);
    case _ => ToldOther(s, e);
  }

  // ---------- without unguarded failures ----------

  predicate CallSteady(s: State, c: Call)
  {
    match c.stage
    case BothRead(_, txn) => txn.status == TxnCompleted ==> s.txn.status == TxnCompleted
    case Chosen(_, _, txn) => txn.status == TxnCompleted ==> s.txn.status == TxnCompleted
    case _ => true
  }

  ghost predicate Steady(s: State)
  {
    && (s.settlements != [] ==> s.txn.status == TxnCompleted)
    && forall c :: 0 <= c < |s.calls| ==> CallSteady(s, s.calls[c])
  }

  lemma SteadyStep(s: State, e: Event)
    requires Steady(s) && !e.CommitFailure?
    ensures Steady(Step(s, e))
  {
    var r := Step(s, e);
    if e.Commit? && At(s, e.call) {
      assert CallSteady(s, s.calls[e.call]);
    }
    forall c | 0 <= c < |r.calls|
      ensures CallSteady(r, r.calls[c])
    {
      assert c < |s.calls| ==> CallSteady(s, s.calls[c]);
    }
  }

  ghost predicate NoFailureWritten(es: seq<Event>) { forall i :: 0 <= i < |es| ==> !es[i].CommitFailure? }

  lemma {:induction false} SteadyRun(s: State, es: seq<Event>)
    requires Fresh(s) && NoFailureWritten(es)
    ensures Steady(Run(s, es))
  {
    if es == [] {
    } else {
      SteadyRun(s, es[..|es| - 1]);
      SteadyStep(Run(s, es[..|es| - 1]), es[|es| - 1]);
    }
  }

  // ---------- what is credited ----------

  function AmountOf(dep: Option<DepositRow>, txn: TxnRow): int { if dep.Some? then dep.value.amount else txn.amount }

  /** The amount stays what it was, also when a missing row is rebuilt, and every settlement is of the deposit row. */
  ghost predicate SameAmount(s: State, amount: int)
  {
    && AmountOf(s.dep, s.txn) == amount
    && (forall c :: 0 <= c < |s.calls| && s.calls[c].stage.BothRead? ==> s.calls[c].stage.txn.amount == s.txn.amount)
    && forall i :: 0 <= i < |s.settlements| ==> s.settlements[i].route != PendingTxn
  }

  lemma AmountCommit(s: State, k: nat, found: bool, rule: FeeRule, amount: int)
    requires Safe(s) && Amounts(s) && SameAmount(s, amount)
    ensures SameAmount(DoCommit(s, k, found, rule), amount)
  {
    if At(s, k) {
      assert CallSafe(s, s.calls[k]) && CallAmounts(s, s.calls[k]);
    }
  }

  lemma AmountOther(s: State, e: Event, amount: int)
    requires Safe(s) && SameAmount(s, amount) && !e.Commit?
    ensures SameAmount(Step(s, e), amount)
  {
    if e.Rebuild? && At(s, e.call) {
      assert CallSafe(s, s.calls[e.call]);
    }
  }

  lemma AmountStep(s: State, e: Event, amount: int)
    requires Safe(s) && Amounts(s) && SameAmount(s, amount)
    ensures SameAmount(Step(s, e), amount)
  {
    match e
    case Commit(k, found, rule) => AmountCommit(s, k, found, rule, amount);
    case _ => AmountOther(s, e, amount);
  }

  lemma {:induction false} AmountRun(s: State, es: seq<Event>)
    requires Fresh(s) && OnItsWay(s.dep, s.txn)
    ensures Safe(Run(s, es)) && Amounts(Run(s, es)) && SameAmount(Run(s, es), AmountOf(s.dep, s.txn))
  {
    if es == [] {
    } else {
      AmountRun(s, es[..|es| - 1]);
      AmountStep(Run(s, es[..|es| - 1]), es[|es| - 1], AmountOf(s.dep, s.txn));
      StepKeepsSafe(Run(s, es[..|es| - 1]), es[|es| - 1]);
      StepKeepsAmounts(Run(s, es[..|es| - 1]), es[|es| - 1]);
    }
  }

  /**
   * In every run a deposit on its way is credited once at most, and then in full. If its transaction reads as completed it
   * has been credited; unless a failure was written from a stale read, it reads so exactly when it has.
   */
  lemma CompletedExactlyWhenCredited(s: State, es: seq<Event>)
    requires Fresh(s) && OnItsWay(s.dep, s.txn)
    ensures var r := Run(s, es);
            && |r.settlements| <= 1
            && (r.settlements != [] ==> Total(Credit(), r.settlements[0].credits) == ToCents(AmountOf(s.dep, s.txn)))
            && (r.txn.status == TxnCompleted ==> |r.settlements| == 1)
            && (NoFailureWritten(es) ==> (r.txn.status == TxnCompleted <==> |r.settlements| == 1))
  {
    var r := Run(s, es);
    ToldRun(s, es);
    AmountRun(s, es);
    if r.settlements != [] {
      assert PaysInFull(r, r.settlements[0]);
    }
    if NoFailureWritten(es) {
      SteadyRun(s, es);
    }
  }

  /** A failing call that read the rows before they were settled overwrites the completed transaction. */
  lemma StaleFailureHidesCredit(s: State, rule: FeeRule) returns (es: seq<Event>)
    requires Fresh(s) && OnItsWay(s.dep, s.txn) && s.dep.Some? && !s.txn.guest
    ensures var r := Run(s, es); |r.settlements| == 1 && r.txn.status == TxnFailed
  {
    var r: State;
    es, r := CreditedBesideFailing(s, rule);
    es, r := Then(s, es, r, CommitFailure(0));
  }

  lemma CreditedBesideFailing(s: State, rule: FeeRule) returns (es: seq<Event>, r: State)
    requires Fresh(s) && OnItsWay(s.dep, s.txn) && s.dep.Some? && !s.txn.guest
    ensures Run(s, es) == r && |r.settlements| == 1 && |r.calls| == 2
    ensures r.calls[0] == Call(Failing, BothRead(s.dep, s.txn))
  {
    es, r := BothReading(s);
    es, r := Then(s, es, r, Decide(1));
    assert r.calls[1].stage == Chosen(PendingBoth, s.dep.value, s.txn);
    es, r := Then(s, es, r, Commit(1, true, rule));
  }

  lemma BothReading(s: State) returns (es: seq<Event>, r: State)
    requires Fresh(s)
    ensures Run(s, es) == r == s.(calls := [Call(Failing, BothRead(s.dep, s.txn)), Call(Finalizing, BothRead(s.dep, s.txn))])
  {
    es, r := Then(s, [], s, Begin(Failing));
    es, r := Then(s, es, r, ReadTxn(0));
    es, r := Then(s, es, r, Begin(Finalizing));
    es, r := Then(s, es, r, ReadTxn(1));
  }

  /** A payment that the provider reports as failed fails what is still open, each row under its own guard, and nothing else. */
  lemma ExpiresExactly(s: State)
    ensures Step(s, Expire)
         == s.(dep := if s.dep.Some? && s.dep.value.status == DepositPending
                      then Some(DepositRow(s.dep.value.amount, DepositFailed)) else s.dep,
               txn := if s.txn.status in {TxnPending, TxnProcessing} then s.txn.(status := TxnFailed) else s.txn)
  {
  }

  // ---------- the parts of a sale ----------

  /** Of a sale the first credit is the merchant's and the second the platform's: its percentage of the amount, to the cent. */
  lemma SaleSplit(p: real, amount: int)
    requires 0.0 <= p <= 100.0 && ToCents(amount) > 0
    ensures var credits, sale := CreditsOf(MerchantQr, amount, Percent(p)), ToCents(amount);
            && |credits| == 2 && credits[0] + credits[1] == sale
            && credits[1] as real - HALF_CENT as real - 0.5 <= sale as real * p / 100.0 <= credits[1] as real + HALF_CENT as real + 0.5
  {
    EightPlaces(p, ToCents(amount));
    SplitNear(Percent(p), amount, ToCents(amount) as real * p / 100.0);
  }

  lemma SplitNear(rule: FeeRule, amount: int, exact: real)
    requires Nearest(FeeSteps(rule, ToCents(amount) as real / FARM as real, 8), exact)
    ensures var credits := CreditsOf(MerchantQr, amount, rule);
            && |credits| == 2 && credits[0] + credits[1] == ToCents(amount)
            && credits[1] as real - HALF_CENT as real - 0.5 <= exact <= credits[1] as real + HALF_CENT as real + 0.5
  {
    var fee := ToCents(FeeSteps(rule, ToCents(amount) as real / FARM as real, 8));
    NearToCents(FeeSteps(rule, ToCents(amount) as real / FARM as real, 8), exact);
    WholeLeft(ToCents(amount), fee);
  }

  lemma WholeLeft(a: int, b: int)
    requires WholeCents(a) && WholeCents(b)
    ensures ToCents(a - b) == a - b
  {
  }

  lemma EightPlaces(p: real, sale: int)
    requires 0.0 <= p && sale > 0
    ensures Nearest(FeeSteps(Percent(p), sale as real / FARM as real, 8), sale as real * p / 100.0)
  {
    assert Scale(8) == FARM by {
      assert Scale(4) == 10_000;
    }
    var exact := sale as real / FARM as real * p / 100.0;
    SaleShare(p, sale, exact);
    FeeFollowsRule(Percent(p), sale as real / FARM as real, 8, exact);
  }

  lemma NearToCents(steps: int, exact: real)
    requires Nearest(steps, exact)
    ensures ToCents(steps) as real - HALF_CENT as real - 0.5 <= exact <= ToCents(steps) as real + HALF_CENT as real + 0.5
  {
  }

  lemma SaleShare(p: real, sale: int, exact: real)
    requires 0.0 <= p && sale > 0 && exact == sale as real / FARM as real * p / 100.0
    ensures exact >= 0.0 && exact * FARM as real == sale as real * p / 100.0
  {
    ProductMonotone(0.0, sale as real, p);
    assert exact * FARM as real == sale as real * p / 100.0;
  }
}
