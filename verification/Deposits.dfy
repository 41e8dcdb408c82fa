/**
 * One deposit reference: its deposit row, its transaction row and every call that settles or fails it. Reads and commits
 * of different calls interleave freely; what a call read may be stale when it commits.
 */
module Deposits {
  import opened Wrappers
  import opened Sums
  import opened Fees

  datatype DepositStatus = DepositPending | DepositProcessing | DepositSuccess | DepositFailed

  datatype DepositRow = DepositRow(amount: int, status: DepositStatus)

  datatype TxnStatus = TxnPending | TxnProcessing | TxnCompleted | TxnFailed | TxnCancelled | TxnReversed | NoStatus

  /**
   * `hasUser`: the metadata names a user. `hasWallet`: a receiver wallet is recorded. `guest`: a QR guest payment.
   * `sale`: the metadata records a settled merchant sale.
   */
  datatype TxnRow = TxnRow(
    amount: int, status: TxnStatus, isDeposit: bool, hasUser: bool, hasWallet: bool, guest: bool, sale: bool)

  datatype Route = Refused | Already | MerchantQr | PendingBoth | PendingDeposit | CompleteTxn | PendingTxn

  /** One wallet settlement and the ledger credits it wrote. */
  datatype Settlement = Settlement(route: Route, credits: seq<int>)

  datatype Job = Finalizing | Failing

  datatype Stage =
    | DepositRead(dep: Option<DepositRow>)
    | BothRead(dep: Option<DepositRow>, txn: TxnRow)
    | Chosen(route: Route, deposit: DepositRow, txn: TxnRow)
    | ToReread
    | Reread(txn: TxnRow)
    | Done(ok: bool)

  datatype Call = Call(job: Job, stage: Stage)

  datatype State = State(dep: Option<DepositRow>, txn: TxnRow, settlements: seq<Settlement>, calls: seq<Call>)

  datatype Event =
    | Begin(job: Job)                                    // read the deposit
    | ReadTxn(call: nat)
    | Abort(call: nat)                                   // provider says no, a throw, or a crash
    | Rebuild(call: nat)                                 // create a missing deposit row from the transaction
    | Decide(call: nat)
    | ReadAgain(call: nat)
    | Commit(call: nat, merchantFound: bool, rule: FeeRule)
    | CommitFailure(call: nat)
    | Expire                                             // the provider reports failure: guarded update of both rows

  // ---------- the decision table ----------

  predicate Waiting(status: TxnStatus) { status == TxnPending || status == TxnProcessing }

  predicate Is(dep: Option<DepositRow>, status: DepositStatus) { dep.Some? && dep.value.status == status }

  predicate Rebuildable(txn: TxnRow) { txn.amount != 0 && txn.hasUser }

  predicate WalletKnown(txn: TxnRow) { txn.hasWallet || txn.hasUser }

  function RouteOf(dep: Option<DepositRow>, txn: TxnRow): (r: Route)
    ensures r == MerchantQr || r == PendingBoth || r == PendingDeposit ==> Is(dep, DepositPending)
  {
    var waiting := txn.isDeposit && Waiting(txn.status);
    var complete := txn.isDeposit && txn.status == TxnCompleted;
    if txn.isDeposit && !waiting && !complete then Refused
    else if txn.guest then
      if txn.status == TxnCompleted && (txn.sale || Is(dep, DepositSuccess)) then Already
      else if !Is(dep, DepositPending) || (!waiting && !complete) then Refused
      else MerchantQr
    else if Is(dep, DepositSuccess) && complete then Already
    else if Is(dep, DepositPending) && waiting then PendingBoth
    else if Is(dep, DepositPending) then if txn.status == TxnPending then PendingDeposit else Refused
    else if Is(dep, DepositSuccess) && waiting then CompleteTxn
    else if waiting then PendingTxn
    else Refused
  }

  // ---------- steps ----------

  predicate At(s: State, call: nat) { call < |s.calls| }

  function Go(s: State, call: nat, stage: Stage): State
    requires At(s, call)
  {
    s.(calls := s.calls[call := s.calls[call].(stage := stage)])
  }

  function DoReadTxn(s: State, call: nat): State
  {
    if At(s, call) && s.calls[call].stage.DepositRead?
    then Go(s, call, BothRead(s.calls[call].stage.dep, s.txn))
    else s
  }

  predicate MustRebuild(dep: Option<DepositRow>, txn: TxnRow) { dep.None? && Rebuildable(txn) }

  predicate ReadyToDecide(s: State, call: nat)
  {
    At(s, call) && s.calls[call].job == Finalizing && s.calls[call].stage.BothRead?
  }

  /** The reference is unique, so a second row cannot be created. */
  function DoRebuild(s: State, call: nat): State
  {
    if ReadyToDecide(s, call) && MustRebuild(s.calls[call].stage.dep, s.calls[call].stage.txn) then
      var txn := s.calls[call].stage.txn;
      var rebuilt := Some(DepositRow(txn.amount, DepositPending));
      if s.dep.None? then Go(s.(dep := rebuilt), call, BothRead(rebuilt, txn)) else Go(s, call, Done(false))
    else s
  }

  function DoDecide(s: State, call: nat): State
  {
    if !ReadyToDecide(s, call) || MustRebuild(s.calls[call].stage.dep, s.calls[call].stage.txn) then s
    else
      var dep, txn := s.calls[call].stage.dep, s.calls[call].stage.txn;
      match RouteOf(dep, txn)
      case Refused => Go(s, call, Done(false))
      case Already => Go(s, call, Done(true))
      case PendingTxn => Go(s, call, ToReread)
      case route => Go(s, call, Chosen(route, dep.value, txn))
  }

  function DoReadAgain(s: State, call: nat): State
  {
    if !At(s, call) || s.calls[call].stage != ToReread then s
    else if s.txn.isDeposit && Waiting(s.txn.status) then Go(s, call, Reread(s.txn))
    else Go(s, call, Done(s.txn.isDeposit && s.txn.status == TxnCompleted))
  }

  /** A sale is split into the merchant's part and the platform's fee; anything else is credited whole. */
  function CreditsOf(route: Route, amount: int, rule: FeeRule): seq<int>
  {
    var whole := ToCents(amount);
    if route == MerchantQr then
      var fee := ToCents(FeeSteps(rule, whole as real / FARM as real, 8));
      [ToCents(whole - fee), fee]
    else [whole]
  }

  /** Compare-and-set of the deposit row, then the credits and the transaction row in the same database transaction. */
  function SettleDeposit(s: State, route: Route, deposit: DepositRow, txn: TxnRow, rule: FeeRule): State
    requires Is(s.dep, DepositPending)
  {
    var after :=
      if route == MerchantQr then s.txn.(status := TxnCompleted, isDeposit := false, sale := true, hasWallet := true)
      else if txn.status != TxnCompleted then s.txn.(status := TxnCompleted, hasWallet := true)
      else s.txn;
    s.(dep := Some(s.dep.value.(status := DepositSuccess)), txn := after,
       settlements := s.settlements + [Settlement(route, CreditsOf(route, deposit.amount, rule))])
  }

  function SettleTxn(s: State, txn: TxnRow, rule: FeeRule): State
  {
    s.(txn := s.txn.(status := TxnCompleted, hasWallet := true),
       settlements := s.settlements + [Settlement(PendingTxn, CreditsOf(PendingTxn, txn.amount, rule))])
  }

  function DoCommit(s: State, call: nat, merchantFound: bool, rule: FeeRule): State
  {
    if !At(s, call) then s
    else
      match s.calls[call].stage
      case Chosen(CompleteTxn, _, _) => Go(s.(txn := s.txn.(status := TxnCompleted)), call, Done(true))
      case Chosen(route, deposit, txn) =>
        if (route == MerchantQr && !merchantFound) || !Is(s.dep, DepositPending) then Go(s, call, Done(false))
        else Go(SettleDeposit(s, route, deposit, txn, rule), call, Done(true))
      case Reread(txn) =>
        if !WalletKnown(txn) || s.txn.status == TxnCompleted then Go(s, call, Done(false))
        else Go(SettleTxn(s, txn, rule), call, Done(true))
      case _ => s
  }

  /** The failure transaction decides on what was read and writes unconditionally. */
  function Failure(s: State, dep: Option<DepositRow>, txn: TxnRow): State
  {
    var failed := if Is(dep, DepositPending) && s.dep.Some? then Some(s.dep.value.(status := DepositFailed)) else s.dep;
    var final := txn.status == TxnFailed || txn.status == TxnCancelled || txn.status == TxnCompleted;
    s.(dep := failed, txn := if final then s.txn else s.txn.(status := TxnFailed, sale := txn.sale))
  }

  function DoCommitFailure(s: State, call: nat): State
  {
    if At(s, call) && s.calls[call].job == Failing && s.calls[call].stage.BothRead?
    then Go(Failure(s, s.calls[call].stage.dep, s.calls[call].stage.txn), call, Done(true))
    else s
  }

  function DoExpire(s: State): State
  {
    s.(dep := if Is(s.dep, DepositPending) then Some(s.dep.value.(status := DepositFailed)) else s.dep,
       txn := if Waiting(s.txn.status) then s.txn.(status := TxnFailed) else s.txn)
  }

  function Step(s: State, e: Event): State
  {
    match e
    case Begin(job) => s.(calls := s.calls + [Call(job, DepositRead(s.dep))])
    case ReadTxn(call) => DoReadTxn(s, call)
    case Abort(call) => if At(s, call) then Go(s, call, Done(false)) else s
    case Rebuild(call) => DoRebuild(s, call)
    case Decide(call) => DoDecide(s, call)
    case ReadAgain(call) => DoReadAgain(s, call)
    case Commit(call, merchantFound, rule) => DoCommit(s, call, merchantFound, rule)
    case CommitFailure(call) => DoCommitFailure(s, call)
    case Expire => DoExpire(s)
  }

  function Run(s: State, es: seq<Event>): State
  {
    if es == [] then s else Step(Run(s, es[..|es| - 1]), es[|es| - 1])
  }

  predicate Fresh(s: State) { s.settlements == [] && s.calls == [] }

  // ---------- settled at most once ----------

  predicate Creditable(txn: TxnRow) { txn.isDeposit && !txn.guest && Waiting(txn.status) && WalletKnown(txn) }

  /** The transaction can be credited and no pending deposit row can ever guard it. */
  predicate Unguarded(dep: Option<DepositRow>, txn: TxnRow)
  {
    && Creditable(txn)
    && !(dep.None? && Rebuildable(txn)) && !Is(dep, DepositPending) && !Is(dep, DepositSuccess)
  }

  /** What a call still holds is as old as the rows, never newer: a creditable row was creditable when it was read. */
  predicate CallSafe(s: State, c: Call)
  {
    match c.stage
    case DepositRead(dep) => !Unguarded(dep, s.txn)
    case BothRead(dep, txn) => !Unguarded(dep, txn) && Older(txn, s.txn)
    case Chosen(_, _, txn) => Older(txn, s.txn)
    case ToReread => !s.txn.guest && !Creditable(s.txn)
    case Reread(txn) => !WalletKnown(txn)
    case Done(_) => true
  }

  predicate Older(was: TxnRow, now: TxnRow)
  {
    && was.amount == now.amount && was.hasUser == now.hasUser && was.guest == now.guest
    && (Waiting(now.status) ==> Waiting(was.status))
    && (now.isDeposit ==> was.isDeposit)
    && (WalletKnown(now) && Waiting(now.status) ==> WalletKnown(was))
  }

  ghost predicate Safe(s: State)
  {
    && !Unguarded(s.dep, s.txn)
    && (s.dep.None? || Is(s.dep, DepositPending) ==> s.settlements == [])
    && |s.settlements| <= 1
    && forall c :: 0 <= c < |s.calls| ==> CallSafe(s, s.calls[c])
  }

  /** What every step does to the two rows. */
  predicate RowsMove(s: State, r: State)
  {
    && Older(s.txn, r.txn)
    && (s.dep.Some? ==> r.dep.Some? && r.dep.value.amount == s.dep.value.amount)
    && (Is(r.dep, DepositPending) ==> s.dep.None? || Is(s.dep, DepositPending))
  }

  lemma SettleDepositMovesRows(s: State, route: Route, deposit: DepositRow, txn: TxnRow, rule: FeeRule)
    requires Is(s.dep, DepositPending) && Older(txn, s.txn)
    ensures RowsMove(s, SettleDeposit(s, route, deposit, txn, rule))
  {
  }

  lemma CommitMovesRows(s: State, k: nat, found: bool, rule: FeeRule)
    requires At(s, k) ==> CallSafe(s, s.calls[k])
    ensures RowsMove(s, DoCommit(s, k, found, rule))
  {
    if At(s, k) && s.calls[k].stage.Chosen? && Is(s.dep, DepositPending) {
      var stage := s.calls[k].stage;
      SettleDepositMovesRows(s, stage.route, stage.deposit, stage.txn, rule);
    }
  }

  lemma StepMovesRows(s: State, e: Event)
    requires forall c :: 0 <= c < |s.calls| ==> CallSafe(s, s.calls[c])
    ensures RowsMove(s, Step(s, e))
  {
    match e
    case Commit(k, found, rule) => CommitMovesRows(s, k, found, rule);
    case _ =>
  }

  lemma CallStaysSafe(s: State, r: State, c: Call)
    requires CallSafe(s, c) && Older(s.txn, r.txn)
    ensures CallSafe(r, c)
  {
  }

  lemma OthersStaySafe(s: State, r: State, k: nat)
    requires Safe(s) && RowsMove(s, r) && k < |s.calls| && |r.calls| == |s.calls|
    requires forall c :: 0 <= c < |s.calls| && c != k ==> r.calls[c] == s.calls[c]
    requires CallSafe(r, r.calls[k])
    ensures forall c :: 0 <= c < |r.calls| ==> CallSafe(r, r.calls[c])
  {
  }

  lemma CommitKeepsSafe(s: State, k: nat, found: bool, rule: FeeRule)
    requires Safe(s)
    ensures Safe(DoCommit(s, k, found, rule))
  {
    if At(s, k) && (s.calls[k].stage.Chosen? || s.calls[k].stage.Reread?) {
      var r := DoCommit(s, k, found, rule);
      assert CallSafe(s, s.calls[k]);
      StepMovesRows(s, Commit(k, found, rule));
      OthersStaySafe(s, r, k);
    }
  }

  lemma FailureKeepsSafe(s: State, k: nat)
    requires Safe(s)
    ensures Safe(DoCommitFailure(s, k))
  {
  }

  lemma RebuildKeepsSafe(s: State, k: nat)
    requires Safe(s)
    ensures Safe(DoRebuild(s, k))
  {
  }

  /** Reading and deciding change only the call. */
  lemma ThinkingKeepsSafe(s: State, k: nat, e: Event)
    requires Safe(s) && (e == ReadTxn(k) || e == Abort(k) || e == Decide(k) || e == ReadAgain(k))
    ensures Safe(Step(s, e))
  {
    if At(s, k) {
      assert CallSafe(s, s.calls[k]);
      OthersStaySafe(s, Step(s, e), k);
    }
  }

  lemma StepKeepsSafe(s: State, e: Event)
    requires Safe(s)
    ensures Safe(Step(s, e))
  {
    match e
    case Begin(_) =>
      var r := Step(s, e);
      forall c | 0 <= c < |r.calls|
        ensures CallSafe(r, r.calls[c])
      {
        assert c < |s.calls| ==> CallSafe(s, s.calls[c]);
      }
    case Rebuild(k) => RebuildKeepsSafe(s, k);
    case Commit(k, found, rule) => CommitKeepsSafe(s, k, found, rule);
    case CommitFailure(k) => FailureKeepsSafe(s, k);
    case Expire =>
      StepMovesRows(s, Expire);
      forall c | 0 <= c < |s.calls|
        ensures CallSafe(DoExpire(s), s.calls[c])
      {
        CallStaysSafe(s, DoExpire(s), s.calls[c]);
      }
    case ReadTxn(k) => ThinkingKeepsSafe(s, k, e);
    case Abort(k) => ThinkingKeepsSafe(s, k, e);
    case Decide(k) => ThinkingKeepsSafe(s, k, e);
    case ReadAgain(k) => ThinkingKeepsSafe(s, k, e);
  }

  lemma {:induction false} RunKeepsSafe(s: State, es: seq<Event>)
    requires Safe(s)
    ensures Safe(Run(s, es))
  {
    if es == [] {
    } else {
      RunKeepsSafe(s, es[..|es| - 1]);
      StepKeepsSafe(Run(s, es[..|es| - 1]), es[|es| - 1]);
    }
  }

  // ---------- exactly when it can fail ----------

  lemma Then(start: State, es: seq<Event>, s: State, e: Event) returns (more: seq<Event>, next: State)
    requires Run(start, es) == s
    ensures Run(start, more) == next == Step(s, e)
  {
    more, next := es + [e], Step(s, e);
    assert more[..|more| - 1] == es;
  }

  /** A finalizing call that has read the creditable transaction twice and is about to credit it. */
  lemma AboutToCredit(start: State, es: seq<Event>, s: State) returns (more: seq<Event>, next: State)
    requires Run(start, es) == s && Unguarded(s.dep, s.txn)
    ensures Run(start, more) == next == s.(calls := s.calls + [Call(Finalizing, Reread(s.txn))])
  {
    var k := |s.calls|;
    more, next := Then(start, es, s, Begin(Finalizing));
    more, next := Then(start, more, next, ReadTxn(k));
    assert next.calls[k] == Call(Finalizing, BothRead(s.dep, s.txn));
    more, next := Then(start, more, next, Decide(k));
    more, next := Then(start, more, next, ReadAgain(k));
  }

  lemma AboutToFail(start: State, es: seq<Event>, s: State) returns (more: seq<Event>, next: State)
    requires Run(start, es) == s
    ensures Run(start, more) == next == s.(calls := s.calls + [Call(Failing, BothRead(s.dep, s.txn))])
  {
    more, next := Then(start, es, s, Begin(Failing));
    more, next := Then(start, more, next, ReadTxn(|s.calls|));
  }

  lemma ThreeWaiting(s: State) returns (es: seq<Event>, r: State)
    requires Fresh(s) && Unguarded(s.dep, s.txn)
    ensures Run(s, es) == r && r.dep == s.dep && r.txn == s.txn && r.settlements == []
    ensures |r.calls| == 3 && r.calls[0].stage == r.calls[1].stage == Reread(s.txn)
    ensures r.calls[2] == Call(Failing, BothRead(s.dep, s.txn))
  {
    es, r := AboutToCredit(s, [], s);
    es, r := AboutToCredit(s, es, r);
    es, r := AboutToFail(s, es, r);
  }

  /** Two calls about to credit, and a stale failure between their commits: the failure hides the first credit. */
  lemma CreditedTwice(s: State, rule: FeeRule) returns (es: seq<Event>)
    requires Fresh(s) && Unguarded(s.dep, s.txn)
    ensures |Run(s, es).settlements| == 2
  {
    var r: State;
    es, r := ThreeWaiting(s);
    es, r := Then(s, es, r, Commit(0, true, rule));
    es, r := Then(s, es, r, CommitFailure(2));
    es, r := Then(s, es, r, Commit(1, true, rule));
  }

  /**
   * Any number of finalizing and failing calls settle a reference at most once, exactly when the rows do not start out
   * as a creditable transaction without a deposit row that can guard it.
   */
  lemma SettledAtMostOnceIff(s: State)
    requires Fresh(s)
    ensures (forall es :: |Run(s, es).settlements| <= 1) <==> !Unguarded(s.dep, s.txn)
  {
    if Unguarded(s.dep, s.txn) {
      var es := CreditedTwice(s, Percent(0.0));
      assert |Run(s, es).settlements| == 2;
    } else {
      forall es: seq<Event>
        ensures |Run(s, es).settlements| <= 1
      {
        RunKeepsSafe(s, es);
      }
    }
  }

  // ---------- without failing calls ----------

  /** No pending deposit row exists or can appear. */
  predicate Parked(s: State) { s.dep.None? ==> !Rebuildable(s.txn) }

  predicate CallParked(s: State, c: Call)
  {
    && c.job == Finalizing
    && match c.stage
       case DepositRead(dep) => dep == s.dep
       case BothRead(dep, txn) => dep == s.dep && Older(txn, s.txn)
       case Chosen(_, _, _) => false
       case _ => true
  }

  ghost predicate Unfailed(s: State)
  {
    && Parked(s) && !Is(s.dep, DepositPending) && !Is(s.dep, DepositSuccess)
    && |s.settlements| <= 1
    && (s.settlements != [] ==> s.txn.status == TxnCompleted)
    && forall c :: 0 <= c < |s.calls| ==> CallParked(s, s.calls[c])
  }

  ghost predicate NoFailures(es: seq<Event>)
  {
    forall i :: 0 <= i < |es| ==> es[i] != Begin(Failing)
  }

  lemma UnfailedCommit(s: State, k: nat, found: bool, rule: FeeRule)
    requires Unfailed(s)
    ensures Unfailed(DoCommit(s, k, found, rule))
  {
  }

  lemma UnfailedStep(s: State, e: Event)
    requires Unfailed(s) && e != Begin(Failing)
    ensures Unfailed(Step(s, e))
  {
    if e.Commit? {
      UnfailedCommit(s, e.call, e.merchantFound, e.rule);
    } else {
      var r := Step(s, e);
      forall c | 0 <= c < |r.calls|
        ensures CallParked(r, r.calls[c])
      {
        assert c < |s.calls| ==> CallParked(s, s.calls[c]);
      }
    }
  }

  lemma {:induction false} UnfailedRun(s: State, es: seq<Event>)
    requires Unfailed(s) && NoFailures(es)
    ensures Unfailed(Run(s, es))
  {
    if es == [] {
    } else {
      UnfailedRun(s, es[..|es| - 1]);
      UnfailedStep(Run(s, es[..|es| - 1]), es[|es| - 1]);
    }
  }

  /** Guarded writes alone are safe: without failing calls, every reference is settled at most once, from any rows. */
  lemma SettledOnceWithoutFailures(s: State, es: seq<Event>)
    requires Fresh(s) && NoFailures(es)
    ensures |Run(s, es).settlements| <= 1
  {
    if Unguarded(s.dep, s.txn) {
      UnfailedRun(s, es);
    } else {
      RunKeepsSafe(s, es);
    }
  }

  // ---------- amounts ----------

  function Credit(): int -> int { (x: int) => x }

  predicate AmountKnown(s: State, dep: DepositRow) { s.dep.Some? && s.dep.value.amount == dep.amount }

  predicate CallAmounts(s: State, c: Call)
  {
    match c.stage
    case DepositRead(dep) => dep.Some? ==> AmountKnown(s, dep.value)
    case BothRead(dep, txn) => (dep.Some? ==> AmountKnown(s, dep.value)) && txn.amount == s.txn.amount
    case Chosen(route, deposit, _) => AmountKnown(s, deposit) && route != PendingTxn
    case Reread(txn) => txn.amount == s.txn.amount
    case _ => true
  }

  /** What a settlement must credit in total. */
  predicate PaysInFull(s: State, x: Settlement)
  {
    if x.route == PendingTxn then Total(Credit(), x.credits) == ToCents(s.txn.amount)
    else s.dep.Some? && Total(Credit(), x.credits) == ToCents(s.dep.value.amount)
  }

  ghost predicate Amounts(s: State)
  {
    && (forall c :: 0 <= c < |s.calls| ==> CallAmounts(s, s.calls[c]))
    && (forall i :: 0 <= i < |s.settlements| ==> PaysInFull(s, s.settlements[i]))
  }

  lemma TotalOfOne(a: int)
    ensures Total(Credit(), [a]) == a
  {
  }

  lemma TotalOfTwo(a: int, b: int)
    ensures Total(Credit(), [a, b]) == a + b
  {
    TotalOfOne(a);
    TotalAppend(Credit(), [a], b);
    assert [a] + [b] == [a, b];
  }

  /** Splitting a sale loses nothing, whatever the rule. */
  lemma CreditsInFull(route: Route, amount: int, rule: FeeRule)
    ensures Total(Credit(), CreditsOf(route, amount, rule)) == ToCents(amount)
  {
    var credits := CreditsOf(route, amount, rule);
    if route == MerchantQr {
      TotalOfTwo(credits[0], credits[1]);
    } else {
      TotalOfOne(credits[0]);
    }
  }

  lemma CommitKeepsAmounts(s: State, k: nat, found: bool, rule: FeeRule)
    requires Amounts(s)
    ensures Amounts(DoCommit(s, k, found, rule))
  {
    if At(s, k) {
      assert CallAmounts(s, s.calls[k]);
      var r, stage := DoCommit(s, k, found, rule), s.calls[k].stage;
      if stage.Chosen? {
        CreditsInFull(stage.route, stage.deposit.amount, rule);
      } else if stage.Reread? {
        CreditsInFull(PendingTxn, stage.txn.amount, rule);
      }
      forall c | 0 <= c < |r.calls|
        ensures CallAmounts(r, r.calls[c])
      {
        assert CallAmounts(s, s.calls[c]);
      }
      forall i | 0 <= i < |r.settlements|
        ensures PaysInFull(r, r.settlements[i])
      {
        assert i < |s.settlements| ==> PaysInFull(s, s.settlements[i]);
      }
    }
  }

  lemma StepKeepsAmounts(s: State, e: Event)
    requires Amounts(s)
    ensures Amounts(Step(s, e))
  {
    if e.Commit? {
      CommitKeepsAmounts(s, e.call, e.merchantFound, e.rule);
    } else {
      var r := Step(s, e);
      forall c | 0 <= c < |r.calls|
        ensures CallAmounts(r, r.calls[c])
      {
        assert c < |s.calls| ==> CallAmounts(s, s.calls[c]);
      }
      forall i | 0 <= i < |r.settlements|
        ensures PaysInFull(r, r.settlements[i])
      {
        assert PaysInFull(s, s.settlements[i]);
      }
    }
  }

  /** In every run, each settlement credits the deposit's amount to the cent, or the transaction's where no row guards it. */
  lemma {:induction false} SettlementsPayInFull(s: State, es: seq<Event>)
    requires Amounts(s)
    ensures Amounts(Run(s, es))
  {
    if es == [] {
    } else {
      SettlementsPayInFull(s, es[..|es| - 1]);
      StepKeepsAmounts(Run(s, es[..|es| - 1]), es[|es| - 1]);
    }
  }
}
