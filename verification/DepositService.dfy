/** The deposit service in its own form. Every method is a run of the protocol in Deposits, recorded in `trace`. */
module DepositService {
  import opened Wrappers
  import opened Sums
  import opened Fees
  import opened Deposits
  import opened DepositOutcomes

  /** The deposit row a call works with: the one stored, or the one it creates. */
  function Working(dep: Option<DepositRow>, txn: TxnRow): Option<DepositRow>
  {
    if MustRebuild(dep, txn) then Some(DepositRow(txn.amount, DepositPending)) else dep
  }

  /** A deposit row that is pending, or missing but known from the transaction. */
  predicate ToCredit(dep: Option<DepositRow>, txn: TxnRow)
  {
    if dep.Some? then dep.value.status == DepositPending else txn.amount != 0 && txn.hasUser
  }

  /**
   * A verified call credits: a sale to a merchant that is found, not settled yet; a deposit row to credit, while its
   * transaction is on its way; or a waiting transaction without such a row, if its wallet is known.
   */
  predicate Credits(dep: Option<DepositRow>, txn: TxnRow, merchantFound: bool)
  {
    var waiting := txn.status in {TxnPending, TxnProcessing};
    if ToCredit(dep, txn) then
      if txn.guest then merchantFound && txn.isDeposit && (waiting || (txn.status == TxnCompleted && !txn.sale))
      else if txn.isDeposit then waiting
      else txn.status == TxnPending
    else
      && !txn.guest && txn.isDeposit && waiting && (txn.hasWallet || txn.hasUser)
      && (dep.Some? ==> dep.value.status != DepositSuccess)
  }

  /** It answers without a credit: what has been credited is recorded as completed, or is already. */
  predicate AnswersDone(dep: Option<DepositRow>, txn: TxnRow)
  {
    var credited := dep.Some? && dep.value.status == DepositSuccess;
    if txn.guest then txn.status == TxnCompleted && (txn.sale || credited)
    else credited && txn.isDeposit && txn.status in {TxnPending, TxnProcessing, TxnCompleted}
  }

  predicate Succeeds(route: Route, txn: TxnRow, merchantFound: bool)
  {
    match route
    case Refused => false
    case MerchantQr => merchantFound
    case PendingTxn => WalletKnown(txn)
    case _ => true
  }

  /** The settlement an uninterrupted call adds. */
  function Added(dep: Option<DepositRow>, txn: TxnRow, merchantFound: bool, rule: FeeRule): seq<Settlement>
  {
    var route := RouteOf(dep, txn);
    if !Succeeds(route, txn, merchantFound) || route == Already || route == CompleteTxn then []
    else if route == PendingTxn then [Settlement(route, CreditsOf(route, txn.amount, rule))]
    else [Settlement(route, CreditsOf(route, dep.value.amount, rule))]
  }

  function DepositAfter(route: Route, dep: Option<DepositRow>, ok: bool): Option<DepositRow>
  {
    if ok && route in {MerchantQr, PendingBoth, PendingDeposit} && dep.Some? then Some(dep.value.(status := DepositSuccess)) else dep
  }

  /** The routes come to exactly that. */
  lemma RoutesCredit(dep: Option<DepositRow>, txn: TxnRow, merchantFound: bool, rule: FeeRule)
    ensures var route := RouteOf(Working(dep, txn), txn);
            && Succeeds(route, txn, merchantFound) == (Credits(dep, txn, merchantFound) || AnswersDone(dep, txn))
            && |Added(Working(dep, txn), txn, merchantFound, rule)| == (if Credits(dep, txn, merchantFound) then 1 else 0)
  {
  }

  lemma RoutesPay(dep: Option<DepositRow>, txn: TxnRow, merchantFound: bool, rule: FeeRule)
    requires Credits(dep, txn, merchantFound)
    ensures var added, working := Added(Working(dep, txn), txn, merchantFound, rule), Working(dep, txn);
            && |added| == 1
            && Total(Credit(), added[0].credits) == ToCents(if ToCredit(dep, txn) then AmountOf(dep, txn) else txn.amount)
            && (ToCredit(dep, txn) ==> DepositAfter(RouteOf(working, txn), working, true)
                                       == Some(DepositRow(AmountOf(dep, txn), DepositSuccess)))
  {
    RoutesCredit(dep, txn, merchantFound, rule);
    var working := Working(dep, txn);
    CreditsInFull(RouteOf(working, txn), if working.Some? then working.value.amount else txn.amount, rule);
    CreditsInFull(PendingTxn, txn.amount, rule);
  }

  class DepositRecords {
    var dep: Option<DepositRow>
    var txn: TxnRow
    var settlements: seq<Settlement>
    ghost var calls: seq<Call>
    ghost var start: State
    ghost var trace: seq<Event>

    ghost function Now(): State
      reads this
    {
      State(dep, txn, settlements, calls)
    }

    ghost predicate Valid()
      reads this
    {
      Fresh(start) && Run(start, trace) == Now()
    }

    constructor (dep: Option<DepositRow>, txn: TxnRow)
      ensures Valid() && start == Now() == State(dep, txn, [], [])
    {
      this.dep, this.txn, settlements, calls := dep, txn, [], [];
      start, trace := State(dep, txn, [], []), [];
    }

    /** Notes that the rows have just taken step e. */
    ghost method Note(before: State, e: Event)
      requires Fresh(start) && Run(start, trace) == before
      requires Step(before, e) == Now().(calls := Step(before, e).calls)
      modifies this`calls, this`trace
      ensures Valid() && Now() == Step(before, e) && trace == old(trace) + [e]
    {
      calls, trace := Step(before, e).calls, trace + [e];
      assert trace[..|trace| - 1] == old(trace);
    }

    ghost predicate Grew(was: State, past: seq<Event>)
      reads this
    {
      Valid() && start == was && past <= trace
    }

    method SplitSale(total: int, rule: FeeRule) returns (credits: seq<int>)
      ensures credits == CreditsOf(MerchantQr, total, rule)
    {
      var amount := ToCents(total);
      var fee := ToCents(FeeSteps(rule, amount as real / FARM as real, 8));
      credits := [ToCents(amount - fee), fee];
    }

    method FinalizeMerchantQrDeposit(ghost k: nat, deposit: DepositRow, transaction: TxnRow, merchantFound: bool, rule: FeeRule)
      returns (ok: bool)
      requires Valid() && At(Now(), k) && calls[k].stage == Chosen(MerchantQr, deposit, transaction)
      modifies this
      ensures Grew(old(start), old(trace))
      ensures ok == (merchantFound && Is(old(dep), DepositPending)) && (ok ==> txn.status == TxnCompleted)
      ensures dep == if ok then Some(old(dep).value.(status := DepositSuccess)) else old(dep)
      ensures settlements == old(settlements)
                + if ok then [Settlement(MerchantQr, CreditsOf(MerchantQr, deposit.amount, rule))] else []
    {
      ghost var before := Now();
      if !merchantFound || dep.None? || dep.value.status != DepositPending {
        Note(before, Commit(k, merchantFound, rule));
        return false;
      }
      var credits := SplitSale(deposit.amount, rule);
      dep := Some(dep.value.(status := DepositSuccess));
      txn := txn.(isDeposit := false, status := TxnCompleted, hasWallet := true, sale := true);
      settlements := settlements + [Settlement(MerchantQr, credits)];
      Note(before, Commit(k, merchantFound, rule));
      return true;
    }

    method FinalizePendingDepositWithTransaction(ghost k: nat, deposit: DepositRow, transaction: TxnRow, ghost rule: FeeRule)
      returns (ok: bool)
      requires Valid() && At(Now(), k) && calls[k].stage == Chosen(PendingBoth, deposit, transaction)
      requires txn.status == TxnCompleted || transaction.status != TxnCompleted
      modifies this
      ensures Grew(old(start), old(trace))
      ensures ok == Is(old(dep), DepositPending) && (ok ==> txn.status == TxnCompleted)
      ensures dep == if ok then Some(old(dep).value.(status := DepositSuccess)) else old(dep)
      ensures settlements == old(settlements) + if ok then [Settlement(PendingBoth, [ToCents(deposit.amount)])] else []
    {
      ghost var before := Now();
      if dep.None? || dep.value.status != DepositPending {
        Note(before, Commit(k, true, rule));
        return false;
      }
      dep := Some(dep.value.(status := DepositSuccess));
      settlements := settlements + [Settlement(PendingBoth, [ToCents(deposit.amount)])];
      if transaction.status != TxnCompleted {
        txn := txn.(status := TxnCompleted, hasWallet := true);
      }
      Note(before, Commit(k, true, rule));
      return true;
    }

    method CreditPendingDepositWithWallet(ghost k: nat, deposit: DepositRow, transaction: TxnRow, ghost rule: FeeRule)
      returns (ok: bool)
      requires Valid() && At(Now(), k) && calls[k].stage == Chosen(PendingDeposit, deposit, transaction)
      requires txn.status == TxnCompleted || transaction.status != TxnCompleted
      modifies this
      ensures Grew(old(start), old(trace))
      ensures ok == Is(old(dep), DepositPending) && (ok ==> txn.status == TxnCompleted)
      ensures dep == if ok then Some(old(dep).value.(status := DepositSuccess)) else old(dep)
      ensures settlements == old(settlements) + if ok then [Settlement(PendingDeposit, [ToCents(deposit.amount)])] else []
    {
      ghost var before := Now();
      if dep.None? || dep.value.status != DepositPending {
        Note(before, Commit(k, true, rule));
        return false;
      }
      dep := Some(dep.value.(status := DepositSuccess));
      settlements := settlements + [Settlement(PendingDeposit, [ToCents(deposit.amount)])];
      if transaction.status != TxnCompleted {
        txn := txn.(status := TxnCompleted, hasWallet := true);
      }
      Note(before, Commit(k, true, rule));
      return true;
    }

    method CompletePendingTransaction(ghost k: nat, ghost rule: FeeRule)
      requires Valid() && At(Now(), k) && calls[k].stage.Chosen? && calls[k].stage.route == CompleteTxn
      modifies this
      ensures Grew(old(start), old(trace)) && settlements == old(settlements) && txn.status == TxnCompleted && dep == old(dep)
    {
      ghost var before := Now();
      txn := txn.(status := TxnCompleted);
      Note(before, Commit(k, true, rule));
    }

    method CreditPendingTransactionDeposit(ghost k: nat, ghost rule: FeeRule) returns (ok: bool)
      requires Valid() && At(Now(), k) && calls[k].stage == ToReread
      modifies this
      ensures Grew(old(start), old(trace)) && dep == old(dep)
      ensures ok == (txn.isDeposit && (old(txn).status == TxnCompleted || (Waiting(old(txn).status) && WalletKnown(old(txn)))))
      ensures settlements == old(settlements)
                + if ok && Waiting(old(txn).status) then [Settlement(PendingTxn, [ToCents(old(txn).amount)])] else []
      ensures ok ==> txn.status == TxnCompleted
      ensures !ok ==> txn == old(txn)
    {
      var transaction := txn;
      Note(Now(), ReadAgain(k));
      if !transaction.isDeposit {
        return false;
      }
      if transaction.status == TxnCompleted {
        return true;
      }
      if !Waiting(transaction.status) {
        return false;
      }
      ghost var before := Now();
      if !WalletKnown(transaction) {
        Note(before, Commit(k, true, rule));
        return false;
      }
      txn := txn.(status := TxnCompleted, hasWallet := true);
      settlements := settlements + [Settlement(PendingTxn, [ToCents(transaction.amount)])];
      Note(before, Commit(k, true, rule));
      return true;
    }

    /** The part of a call before its decision: both reads, the provider's answer, and a missing deposit row rebuilt. */
    method ReadReference(ghost k: nat, verified: bool) returns (deposit: Option<DepositRow>, transaction: TxnRow)
      requires Valid() && k == |calls|
      modifies this
      ensures Grew(old(start), old(trace)) && settlements == old(settlements) && txn == old(txn) == transaction
      ensures verified ==> deposit == dep == Working(old(dep), txn) && k < |calls|
                           && calls[k] == Call(Finalizing, BothRead(deposit, transaction))
      ensures !verified ==> dep == old(dep)
    {
      deposit := dep;
      Note(Now(), Begin(Finalizing));
      transaction := txn;
      Note(Now(), ReadTxn(k));
      if !verified {
        Note(Now(), Abort(k));
      } else if deposit.None? && transaction.amount != 0 && transaction.hasUser {
        ghost var before := Now();
        deposit := Some(DepositRow(transaction.amount, DepositPending));
        dep := deposit;
        Note(before, Rebuild(k));
      }
    }

    /**
     * One uninterrupted call. A deposit on its way is credited in full and ends as successful; what else is credited, and
     * what is answered as done without a credit, is said by Credits and AnswersDone over the statuses alone.
     */
    method FinalizeSuccessfulDeposit(verified: bool, merchantFound: bool, rule: FeeRule) returns (ok: bool)
      requires Valid()
      modifies this
      ensures Grew(old(start), old(trace))
      ensures !verified ==> !ok && dep == old(dep) && txn == old(txn) && settlements == old(settlements)
      ensures |settlements| == |old(settlements)| + (if verified && Credits(old(dep), old(txn), merchantFound) then 1 else 0)
      ensures settlements[..|old(settlements)|] == old(settlements)
      ensures verified ==> ok == (Credits(old(dep), old(txn), merchantFound) || AnswersDone(old(dep), old(txn)))
      ensures verified && Credits(old(dep), old(txn), merchantFound) ==>
                Total(Credit(), settlements[|old(settlements)|].credits)
                == ToCents(if ToCredit(old(dep), old(txn)) then AmountOf(old(dep), old(txn)) else old(txn).amount)
      ensures verified && Credits(old(dep), old(txn), merchantFound) && ToCredit(old(dep), old(txn)) ==>
                dep == Some(DepositRow(AmountOf(old(dep), old(txn)), DepositSuccess))
      ensures verified && OnItsWay(old(dep), old(txn)) && (!old(txn).guest || merchantFound) ==>
                && ok && |settlements| == |old(settlements)| + 1
                && Total(Credit(), settlements[|old(settlements)|].credits) == ToCents(AmountOf(old(dep), old(txn)))
                && dep == Some(DepositRow(AmountOf(old(dep), old(txn)), DepositSuccess))
      ensures ok ==> txn.status == TxnCompleted
    {
      ghost var k := |calls|;
      var deposit, transaction := ReadReference(k, verified);
      if !verified {
        return false;
      }
      RoutesCredit(old(dep), transaction, merchantFound, rule);
      if Credits(old(dep), transaction, merchantFound) {
        RoutesPay(old(dep), transaction, merchantFound, rule);
      }
      ok := FollowRoute(k, deposit, transaction, merchantFound, rule);
    }

    /** From the decision on. */
    method FollowRoute(ghost k: nat, deposit: Option<DepositRow>, transaction: TxnRow, merchantFound: bool, rule: FeeRule)
      returns (ok: bool)
      requires Valid() && At(Now(), k) && calls[k] == Call(Finalizing, BothRead(deposit, transaction))
      requires deposit == dep && transaction == txn && !MustRebuild(deposit, transaction)
      modifies this
      ensures Grew(old(start), old(trace)) && ok == Succeeds(RouteOf(deposit, transaction), transaction, merchantFound)
      ensures settlements == old(settlements) + Added(deposit, transaction, merchantFound, rule)
      ensures dep == DepositAfter(RouteOf(deposit, transaction), old(dep), ok)
      ensures ok ==> txn.status == TxnCompleted
    {
      var route := RouteOf(deposit, transaction);
      Note(Now(), Decide(k));
      match route
      case Refused => ok := false;
      case Already => ok := true;
      case MerchantQr => ok := FinalizeMerchantQrDeposit(k, deposit.value, transaction, merchantFound, rule);
      case PendingBoth => ok := FinalizePendingDepositWithTransaction(k, deposit.value, transaction, rule);
      case PendingDeposit => ok := CreditPendingDepositWithWallet(k, deposit.value, transaction, rule);
      case CompleteTxn =>
        CompletePendingTransaction(k, rule);
        ok := true;
      case PendingTxn => ok := CreditPendingTransactionDeposit(k, rule);
    }

    method FailDeposit()
      requires Valid()
      modifies this
      ensures Grew(old(start), old(trace))
      ensures settlements == old(settlements)
      ensures dep == if Is(old(dep), DepositPending) then Some(old(dep).value.(status := DepositFailed)) else old(dep)
      ensures txn == if old(txn).status in {TxnFailed, TxnCancelled, TxnCompleted} then old(txn)
                     else old(txn).(status := TxnFailed)
    {
      ghost var k := |calls|;
      var deposit := dep;
      Note(Now(), Begin(Failing));
      var transaction := txn;
      Note(Now(), ReadTxn(k));
      ghost var before := Now();
      if deposit.Some? && deposit.value.status == DepositPending {
        dep := Some(dep.value.(status := DepositFailed));
      }
      if transaction.status !in {TxnFailed, TxnCancelled, TxnCompleted} {
        txn := txn.(status := TxnFailed, sale := transaction.sale);
      }
      Note(before, CommitFailure(k));
    }
  }
}
