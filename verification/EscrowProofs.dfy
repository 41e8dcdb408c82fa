/** What every run of the escrow transactions keeps: locks, solvency, conservation, and closed contracts staying closed. */
module EscrowProofs {
  import opened Wrappers
  import opened Sums
  import opened Fees
  import opened Ledger

  // ---------- what is kept ----------

  /** The part of wallet w's lock that contract c explains. */
  function LockOf(w: nat): Contract -> int
  {
    (c: Contract) => if c.buyer == w && Open(c) then c.amount - c.released else 0
  }

  function BalanceOf(): Wallet -> int { (w: Wallet) => w.balance }

  /** `held` is what other services (withdrawals, say) keep locked in each wallet. */
  ghost predicate LocksMatch(db: Db, held: seq<int>)
  {
    |held| == |db.wallets|
    && forall w :: 0 <= w < |held| ==> db.wallets[w].locked == held[w] + Total(LockOf(w), db.contracts)
  }

  predicate ContractOk(c: Contract)
  {
    && c.amount > 0 && 0 <= c.released <= c.amount
    && c.status != Pending && c.status != Cancelled
    && (c.status != Completed ==> c.released < c.amount)
  }

  ghost predicate ContractsOk(db: Db)
  {
    forall i :: 0 <= i < |db.contracts| ==> ContractOk(db.contracts[i])
  }

  datatype Flow = ToSeller | ToPlatform | ToBuyer

  /** How much of a ledger row is money of contract `id` going each way. */
  function FlowOf(flow: Flow, id: nat): Txn -> int
  {
    (t: Txn) =>
      if t.escrow != Some(id) then 0
      else match flow
        case ToSeller => if t.kind == EscrowRelease then t.net else 0
        case ToPlatform => if t.kind == EscrowRelease then t.fee else 0
        case ToBuyer => if t.kind == EscrowRefund then t.amount else 0
  }

  function Moved(db: Db, flow: Flow, id: nat): int { Total(FlowOf(flow, id), db.txns) }

  function StillLocked(c: Contract): int { if Open(c) then c.amount - c.released else 0 }

  /** Every unit of a contract is with the seller, the platform, the buyer again, or still locked. */
  ghost predicate Conserved(db: Db, id: nat)
    requires id < |db.contracts|
  {
    var c := db.contracts[id];
    && Moved(db, ToSeller, id) + Moved(db, ToPlatform, id) + Moved(db, ToBuyer, id) + StillLocked(c) == c.amount
    && (c.status != Completed ==> Moved(db, ToSeller, id) + Moved(db, ToPlatform, id) == c.released)
    && (c.status != Refunded ==> Moved(db, ToBuyer, id) == 0)
  }

  ghost predicate FlowsMatch(db: Db)
  {
    forall id :: 0 <= id < |db.contracts| ==> Conserved(db, id)
  }

  ghost predicate Solvent(db: Db)
  {
    forall w :: 0 <= w < |db.wallets| ==> 0 <= db.wallets[w].locked <= db.wallets[w].balance
  }

  ghost predicate Inv(db: Db, held: seq<int>)
  {
    WellFormed(db) && LocksMatch(db, held) && ContractsOk(db) && FlowsMatch(db)
  }

  /** Before the first escrow, every lock belongs to other services. */
  lemma OpeningInv(db: Db, held: seq<int>)
    requires WellFormed(db) && db.contracts == [] && |held| == |db.wallets|
    ensures Inv(db, held) <==> forall w :: 0 <= w < |held| ==> db.wallets[w].locked == held[w]
  {
  }

  // ---------- effects ----------

  function At(w: nat, place: nat, amount: int): int { if w == place then amount else 0 }

  function AtPlatform(db: Db, w: nat, fee: int): int
  {
    if fee > 0 && db.admin == Some(w) then fee else 0
  }

  lemma PayOutEffect(db: Db, id: nat, part: int, fee: int)
    requires WellFormed(db) && id < |db.contracts| && FeeWalletFound(db, fee)
    ensures var c, r := db.contracts[id], PayOut(db, id, part, fee);
            && r.contracts == db.contracts && r.deposits == db.deposits
            && r.txns == db.txns + [Txn(EscrowRelease, Some(c.buyer), Some(c.seller), Some(id), part, fee, part - fee, false, false)]
            && forall w :: 0 <= w < |db.wallets| ==>
                 && r.wallets[w].account == db.wallets[w].account
                 && r.wallets[w].locked == db.wallets[w].locked - At(w, c.buyer, part)
                 && r.wallets[w].balance
                      == db.wallets[w].balance - At(w, c.buyer, part) + At(w, c.seller, part - fee) + AtPlatform(db, w, fee)
  {
  }

  lemma CreateEffect(db: Db, buyer: nat, seller: nat, amount: int, rule: FeeRule)
    requires WellFormed(db) && CanCreate(db, buyer, seller, amount, rule)
    ensures var r, fee := Create(db, buyer, seller, amount, rule), FeeUnits(rule, amount);
            && r.contracts == db.contracts + [Contract(buyer, seller, amount, 0, Active)] && r.deposits == db.deposits
            && r.txns == db.txns + [Txn(EscrowLock, Some(buyer), None, Some(|db.contracts|), amount, fee, amount, false, false)]
            && forall w :: 0 <= w < |db.wallets| ==>
                 && r.wallets[w].account == db.wallets[w].account
                 && r.wallets[w].locked == db.wallets[w].locked + At(w, buyer, amount)
                 && r.wallets[w].balance == db.wallets[w].balance - At(w, buyer, fee) + AtPlatform(db, w, fee)
  {
  }

  // ---------- locks ----------

  lemma LockChange(db: Db, id: nat, c: Contract, w: nat)
    requires id < |db.contracts|
    ensures Total(LockOf(w), SetContract(db, id, c).contracts)
         == Total(LockOf(w), db.contracts) - LockOf(w)(db.contracts[id]) + LockOf(w)(c)
  {
    TotalUpdate(LockOf(w), db.contracts, id, c);
  }

  /** Paying a part out while taking it off the contract keeps every wallet's lock explained. */
  lemma PayOutLocks(db: Db, held: seq<int>, id: nat, c: Contract, part: int, fee: int)
    requires Inv(db, held) && id < |db.contracts| && FeeWalletFound(db, fee)
    requires Open(db.contracts[id]) && c.buyer == db.contracts[id].buyer && c.seller == db.contracts[id].seller
    requires StillLocked(c) == StillLocked(db.contracts[id]) - part
    ensures LocksMatch(PayOut(SetContract(db, id, c), id, part, fee), held)
  {
    var next := SetContract(db, id, c);
    PayOutEffect(next, id, part, fee);
    forall w | 0 <= w < |held|
      ensures PayOut(next, id, part, fee).wallets[w].locked == held[w] + Total(LockOf(w), PayOut(next, id, part, fee).contracts)
    {
      LockChange(db, id, c, w);
    }
  }

  lemma CreateLocks(db: Db, held: seq<int>, buyer: nat, seller: nat, amount: int, rule: FeeRule)
    requires Inv(db, held) && CanCreate(db, buyer, seller, amount, rule)
    ensures LocksMatch(Create(db, buyer, seller, amount, rule), held)
  {
  }

  lemma ReleasePartLocks(db: Db, held: seq<int>, id: nat, asked: int, rule: FeeRule)
    requires Inv(db, held)
    ensures LocksMatch(ReleasePart(db, id, asked, rule), held)
  {
    var part := ToCents(asked);
    if CanReleasePart(db, id, part, rule) {
      PayOutLocks(db, held, id, AfterPart(db.contracts[id], part), part, FeeUnits(rule, part));
    }
  }

  lemma ReleaseLocks(db: Db, held: seq<int>, id: nat, byAdmin: bool, rule: FeeRule)
    requires Inv(db, held)
    ensures LocksMatch(Release(db, id, byAdmin, rule), held)
  {
    if CanRelease(db, id, byAdmin, rule) {
      var c := db.contracts[id];
      assert ContractOk(c);
      PayOutLocks(db, held, id, c.(status := Completed), Remaining(c), FeeUnits(rule, Remaining(c)));
    }
  }

  /** Disputing, cancelling and refunding: one contract changes, and the buyer's lock by as much as its share of it. */
  lemma StatusLocks(db: Db, held: seq<int>, e: Event)
    requires Inv(db, held) && (e.DoDispute? || e.DoCancel? || e.DoRefund?)
    ensures LocksMatch(Step(db, e), held)
  {
    var id := e.id;
    var r := Step(db, e);
    if id < |db.contracts| {
      var c := db.contracts[id];
      assert ContractOk(c);
      assert r.contracts == db.contracts || r.contracts == SetContract(db, id, r.contracts[id]).contracts;
      forall w | 0 <= w < |held|
        ensures r.wallets[w].locked == held[w] + Total(LockOf(w), r.contracts)
      {
        LockChange(db, id, r.contracts[id], w);
        assert r.wallets[w].locked == db.wallets[w].locked - LockOf(w)(c) + LockOf(w)(r.contracts[id]);
      }
    }
  }

  lemma StepLocks(db: Db, held: seq<int>, e: Event)
    requires Inv(db, held)
    ensures LocksMatch(Step(db, e), held)
  {
    match e
    case DoCreate(buyer, seller, amount, rule) =>
      if CanCreate(db, buyer, seller, amount, rule) {
        CreateLocks(db, held, buyer, seller, amount, rule);
      }
    case DoDispute(_) => StatusLocks(db, held, e);
    case DoCancel(_) => StatusLocks(db, held, e);
    case DoRefund(_, _) => StatusLocks(db, held, e);
    case DoReleasePart(id, asked, rule) => ReleasePartLocks(db, held, id, asked, rule);
    case DoRelease(id, byAdmin, rule) => ReleaseLocks(db, held, id, byAdmin, rule);
    case _ =>
      assert Step(db, e).contracts == db.contracts;
  }

  // ---------- conservation per contract ----------

  /** A row about one contract leaves every other contract's flows alone. */
  lemma FlowsAppend(db: Db, t: Txn, id: nat)
    ensures forall flow :: Total(FlowOf(flow, id), db.txns + [t]) == Moved(db, flow, id) + FlowOf(flow, id)(t)
  {
  }

  lemma PayOutFlows(db: Db, id: nat, c: Contract, part: int, fee: int)
    requires WellFormed(db) && FlowsMatch(db) && id < |db.contracts| && FeeWalletFound(db, fee)
    requires Open(db.contracts[id])
    requires c.buyer == db.contracts[id].buyer && c.seller == db.contracts[id].seller && c.amount == db.contracts[id].amount
    requires StillLocked(c) == StillLocked(db.contracts[id]) - part
    requires c.status != Refunded && (c.status != Completed ==> c.released == db.contracts[id].released + part)
    ensures FlowsMatch(PayOut(SetContract(db, id, c), id, part, fee))
  {
    var next := SetContract(db, id, c);
    PayOutEffect(next, id, part, fee);
    var t := Txn(EscrowRelease, Some(c.buyer), Some(c.seller), Some(id), part, fee, part - fee, false, false);
    forall i | 0 <= i < |db.contracts|
      ensures Conserved(PayOut(next, id, part, fee), i)
    {
      assert Conserved(db, i);
      FlowsAppend(db, t, i);
    }
  }

  lemma CreateFlows(db: Db, buyer: nat, seller: nat, amount: int, rule: FeeRule)
    requires WellFormed(db) && FlowsMatch(db) && CanCreate(db, buyer, seller, amount, rule)
    ensures FlowsMatch(Create(db, buyer, seller, amount, rule))
  {
    CreateEffect(db, buyer, seller, amount, rule);
    var r := Create(db, buyer, seller, amount, rule);
    var t := r.txns[|db.txns|];
    forall i | 0 <= i < |r.contracts|
      ensures Conserved(r, i)
    {
      FlowsAppend(db, t, i);
      if i < |db.contracts| {
        assert Conserved(db, i);
      } else {
        forall flow
          ensures Moved(db, flow, i) == 0
        {
          TotalZero(FlowOf(flow, i), db.txns);
        }
      }
    }
  }

  lemma RefundFlows(db: Db, id: nat, byAdmin: bool)
    requires WellFormed(db) && FlowsMatch(db) && ContractsOk(db) && Closable(db, id, byAdmin)
    ensures FlowsMatch(Refund(db, id, byAdmin))
  {
    var r := Refund(db, id, byAdmin);
    var t := r.txns[|db.txns|];
    forall i | 0 <= i < |r.contracts|
      ensures Conserved(r, i)
    {
      assert Conserved(db, i) && ContractOk(db.contracts[i]);
      FlowsAppend(db, t, i);
    }
  }

  /** A transaction that records nothing, or one row about another contract, leaves contract id's flows alone. */
  lemma OtherFlows(db: Db, r: Db, id: nat)
    requires r.txns == db.txns || (|r.txns| == |db.txns| + 1 && r.txns[..|db.txns|] == db.txns && r.txns[|db.txns|].escrow != Some(id))
    ensures forall flow :: Moved(r, flow, id) == Moved(db, flow, id)
  {
  }

  predicate Outside(e: Event)
  {
    e.DoDispute? || e.DoCancel? || e.DoSendBack? || e.DoDetect? || e.DoCreditDeposit?
  }

  lemma OutsideRows(db: Db, e: Event, id: nat)
    requires WellFormed(db) && ContractsOk(db) && Outside(e) && id < |db.contracts|
    ensures var r := Step(db, e);
            && |r.contracts| == |db.contracts|
            && (r.contracts[id] == db.contracts[id]
                || (db.contracts[id].status == Active && r.contracts[id] == db.contracts[id].(status := Disputed)))
            && (r.txns == db.txns
                || (|r.txns| == |db.txns| + 1 && r.txns[..|db.txns|] == db.txns && r.txns[|db.txns|].escrow == None))
  {
  }

  lemma OutsideFlows(db: Db, e: Event)
    requires WellFormed(db) && FlowsMatch(db) && ContractsOk(db) && Outside(e)
    ensures FlowsMatch(Step(db, e))
  {
    var r := Step(db, e);
    if |db.contracts| > 0 {
      OutsideRows(db, e, 0);
    } else {
      assert |r.contracts| == 0;
    }
    forall id | 0 <= id < |r.contracts|
      ensures Conserved(r, id)
    {
      assert Conserved(db, id);
      OutsideRows(db, e, id);
      OtherFlows(db, r, id);
    }
  }

  lemma StepFlows(db: Db, held: seq<int>, e: Event)
    requires Inv(db, held)
    ensures FlowsMatch(Step(db, e))
  {
    match e
    case DoCreate(buyer, seller, amount, rule) =>
      if CanCreate(db, buyer, seller, amount, rule) {
        CreateFlows(db, buyer, seller, amount, rule);
      }
    case DoReleasePart(id, asked, rule) =>
      var part := ToCents(asked);
      if CanReleasePart(db, id, part, rule) {
        PayOutFlows(db, id, AfterPart(db.contracts[id], part), part, FeeUnits(rule, part));
      }
    case DoRelease(id, byAdmin, rule) =>
      if CanRelease(db, id, byAdmin, rule) {
        var c := db.contracts[id];
        assert ContractOk(c);
        PayOutFlows(db, id, c.(status := Completed), Remaining(c), FeeUnits(rule, Remaining(c)));
      }
    case DoRefund(id, byAdmin) =>
      if Closable(db, id, byAdmin) {
        RefundFlows(db, id, byAdmin);
      }
    case _ => OutsideFlows(db, e);
  }

  /** The contract table after a transaction, without the money. */
  function ContractsAfter(db: Db, e: Event): seq<Contract>
  {
    var cs := db.contracts;
    match e
    case DoCreate(buyer, seller, amount, rule) =>
      if CanCreate(db, buyer, seller, amount, rule) then cs + [Contract(buyer, seller, amount, 0, Active)] else cs
    case DoDispute(id) => if id < |cs| && cs[id].status == Active then cs[id := cs[id].(status := Disputed)] else cs
    case DoCancel(id) => if id < |cs| && cs[id].status == Pending then cs[id := cs[id].(status := Cancelled)] else cs
    case DoReleasePart(id, asked, rule) =>
      if CanReleasePart(db, id, ToCents(asked), rule) then cs[id := AfterPart(cs[id], ToCents(asked))] else cs
    case DoRelease(id, byAdmin, rule) =>
      if CanRelease(db, id, byAdmin, rule) then cs[id := cs[id].(status := Completed)] else cs
    case DoRefund(id, byAdmin) => if Closable(db, id, byAdmin) then cs[id := cs[id].(status := Refunded)] else cs
    case _ => cs
  }

  lemma StepContracts(db: Db, e: Event)
    requires WellFormed(db)
    ensures Step(db, e).contracts == ContractsAfter(db, e)
  {
  }

  lemma StepContractsOk(db: Db, e: Event)
    requires WellFormed(db) && ContractsOk(db)
    ensures ContractsOk(Step(db, e))
  {
  }

  lemma StepKeepsInv(db: Db, held: seq<int>, e: Event)
    requires Inv(db, held)
    ensures Inv(Step(db, e), held)
  {
    StepLocks(db, held, e);
    StepFlows(db, held, e);
    StepContractsOk(db, e);
  }

  /** In every interleaving, each wallet's lock is what its open contracts still hold, and every contract is conserved. */
  lemma {:induction false} RunKeepsInv(db: Db, held: seq<int>, es: seq<Event>)
    requires Inv(db, held)
    ensures Inv(Run(db, es), held)
  {
    if es == [] {
    } else {
      RunKeepsInv(db, held, es[..|es| - 1]);
      StepKeepsInv(Run(db, es[..|es| - 1]), held, es[|es| - 1]);
    }
  }

  // ---------- consequences ----------

  lemma PaidWithin(db: Db, id: nat)
    requires ContractsOk(db) && FlowsMatch(db) && id < |db.contracts|
    ensures var paid := Moved(db, ToSeller, id) + Moved(db, ToPlatform, id);
            paid <= db.contracts[id].amount && (db.contracts[id].status == Completed <==> paid == db.contracts[id].amount)
  {
    assert Conserved(db, id) && ContractOk(db.contracts[id]);
  }

  /** Parts and fees paid out of a contract never exceed it, whatever was released twice, lost or raced. */
  lemma PaidWithinAmount(db: Db, held: seq<int>, es: seq<Event>, id: nat)
    requires Inv(db, held) && id < |Run(db, es).contracts|
    ensures var r := Run(db, es);
            var paid := Moved(r, ToSeller, id) + Moved(r, ToPlatform, id);
            paid <= r.contracts[id].amount && (r.contracts[id].status == Completed <==> paid == r.contracts[id].amount)
  {
    RunKeepsInv(db, held, es);
    PaidWithin(Run(db, es), id);
  }

  /** An active contract completes exactly when a part reaches what is left, or the buyer releases the rest. */
  lemma CompletesIff(db: Db, held: seq<int>, e: Event, id: nat)
    requires Inv(db, held) && id < |db.contracts| && db.contracts[id].status == Active
    ensures Step(db, e).contracts[id].status == Completed
       <==> || (e.DoReleasePart? && e.id == id && CanReleasePart(db, id, ToCents(e.asked), e.rule)
                && ToCents(e.asked) == db.contracts[id].amount - db.contracts[id].released)
            || (e.DoRelease? && e.id == id && CanRelease(db, id, e.byAdmin, e.rule))
  {
    assert ContractOk(db.contracts[id]);
    StepContracts(db, e);
  }

  /** Creation funds a contract at once, so a cancellation never finds one to cancel. */
  lemma CancelNeverApplies(db: Db, held: seq<int>, es: seq<Event>, id: nat)
    requires Inv(db, held)
    ensures Cancel(Run(db, es), id) == Run(db, es)
    ensures id < |Run(db, es).contracts| ==> Run(db, es).contracts[id].status !in {Pending, Cancelled}
  {
    RunKeepsInv(db, held, es);
    if id < |Run(db, es).contracts| {
      assert ContractOk(Run(db, es).contracts[id]);
    }
  }

  predicate Closed(c: Contract) { c.status == Completed || c.status == Refunded }

  /** The new ledger row of a transaction, if any, is about an open contract or about none. */
  lemma NewRowElsewhere(db: Db, e: Event, id: nat)
    requires WellFormed(db) && id < |db.contracts| && Closed(db.contracts[id])
    ensures var r := Step(db, e);
            || r.txns == db.txns
            || (|r.txns| == |db.txns| + 1 && r.txns[..|db.txns|] == db.txns && r.txns[|db.txns|].escrow != Some(id))
  {
  }

  /** After completion or refund a contract's row never changes and none of its money moves again. */
  lemma ClosedStaysStep(db: Db, e: Event, id: nat)
    requires WellFormed(db) && id < |db.contracts| && Closed(db.contracts[id])
    ensures Step(db, e).contracts[id] == db.contracts[id]
    ensures forall flow :: Moved(Step(db, e), flow, id) == Moved(db, flow, id)
  {
    StepContracts(db, e);
    NewRowElsewhere(db, e, id);
    OtherFlows(db, Step(db, e), id);
  }

  lemma {:induction false} ClosedStays(db: Db, held: seq<int>, es: seq<Event>, id: nat)
    requires Inv(db, held) && id < |db.contracts| && Closed(db.contracts[id])
    ensures id < |Run(db, es).contracts| && Run(db, es).contracts[id] == db.contracts[id]
    ensures forall flow :: Moved(Run(db, es), flow, id) == Moved(db, flow, id)
  {
    if es == [] {
    } else {
      var before := es[..|es| - 1];
      RunKeepsInv(db, held, before);
      ClosedStays(db, held, before, id);
      ClosedStaysStep(Run(db, before), es[|es| - 1], id);
    }
  }

  // ---------- total balance ----------

  lemma MoveTotal(ws: seq<Wallet>, w: nat, balance: int, locked: int)
    requires w < |ws|
    ensures Total(BalanceOf(), Move(ws, w, balance, locked)) == Total(BalanceOf(), ws) + balance
  {
    TotalUpdate(BalanceOf(), ws, w, Move(ws, w, balance, locked)[w]);
  }

  lemma TwoMovesTotal(ws: seq<Wallet>, from: nat, debit: int, unlock: int, to: nat, credit: int)
    requires from < |ws| && to < |ws|
    ensures Total(BalanceOf(), Move(Move(ws, from, debit, unlock), to, credit, 0)) == Total(BalanceOf(), ws) + debit + credit
  {
    MoveTotal(ws, from, debit, unlock);
    MoveTotal(Move(ws, from, debit, unlock), to, credit, 0);
  }

  lemma PlatformTotal(ws: seq<Wallet>, admin: Option<nat>, fee: int)
    requires fee > 0 ==> admin.Some? && admin.value < |ws|
    requires fee >= 0
    ensures Total(BalanceOf(), CreditPlatform(ws, admin, fee)) == Total(BalanceOf(), ws) + fee
  {
    if fee > 0 {
      MoveTotal(ws, admin.value, fee, 0);
    }
  }

  lemma PayOutTotal(ws: seq<Wallet>, buyer: nat, seller: nat, part: int, fee: int, admin: Option<nat>)
    requires buyer < |ws| && seller < |ws| && fee >= 0
    requires fee > 0 ==> admin.Some? && admin.value < |ws|
    ensures Total(BalanceOf(), CreditPlatform(Move(Move(ws, buyer, -part, -part), seller, part - fee, 0), admin, fee))
         == Total(BalanceOf(), ws)
  {
    TwoMovesTotal(ws, buyer, -part, -part, seller, part - fee);
    PlatformTotal(Move(Move(ws, buyer, -part, -part), seller, part - fee, 0), admin, fee);
  }

  lemma PayOutConserves(db: Db, id: nat, part: int, fee: int)
    requires WellFormed(db) && id < |db.contracts| && FeeWalletFound(db, fee) && fee >= 0
    ensures Total(BalanceOf(), PayOut(db, id, part, fee).wallets) == Total(BalanceOf(), db.wallets)
  {
    PayOutTotal(db.wallets, db.contracts[id].buyer, db.contracts[id].seller, part, fee, db.admin);
  }

  lemma CreateTotal(ws: seq<Wallet>, buyer: nat, amount: int, fee: int, admin: Option<nat>)
    requires buyer < |ws| && fee >= 0
    requires fee > 0 ==> admin.Some? && admin.value < |ws|
    ensures Total(BalanceOf(), CreditPlatform(Move(ws, buyer, -fee, amount), admin, fee)) == Total(BalanceOf(), ws)
  {
    MoveTotal(ws, buyer, -fee, amount);
    PlatformTotal(Move(ws, buyer, -fee, amount), admin, fee);
  }

  lemma CreateConserves(db: Db, buyer: nat, seller: nat, amount: int, rule: FeeRule)
    requires WellFormed(db)
    ensures Total(BalanceOf(), Create(db, buyer, seller, amount, rule).wallets) == Total(BalanceOf(), db.wallets)
  {
    if CanCreate(db, buyer, seller, amount, rule) {
      CreateTotal(db.wallets, buyer, amount, FeeUnits(rule, amount), db.admin);
    }
  }

  lemma ReleasesConserve(db: Db, e: Event)
    requires WellFormed(db) && (e.DoReleasePart? || e.DoRelease?)
    ensures Total(BalanceOf(), Step(db, e).wallets) == Total(BalanceOf(), db.wallets)
  {
    if e.DoReleasePart? && CanReleasePart(db, e.id, ToCents(e.asked), e.rule) {
      var part := ToCents(e.asked);
      PayOutConserves(SetContract(db, e.id, AfterPart(db.contracts[e.id], part)), e.id, part, FeeUnits(e.rule, part));
    } else if e.DoRelease? && CanRelease(db, e.id, e.byAdmin, e.rule) && Remaining(db.contracts[e.id]) > 0 {
      var c := db.contracts[e.id];
      PayOutConserves(SetContract(db, e.id, c.(status := Completed)), e.id, Remaining(c), FeeUnits(e.rule, Remaining(c)));
    }
  }

  lemma RefundConserves(db: Db, id: nat, byAdmin: bool)
    requires WellFormed(db)
    ensures Total(BalanceOf(), Refund(db, id, byAdmin).wallets) == Total(BalanceOf(), db.wallets)
  {
    if Closable(db, id, byAdmin) {
      MoveTotal(db.wallets, db.contracts[id].buyer, 0, -Remaining(db.contracts[id]));
    }
  }

  lemma SendBackConserves(db: Db, from: nat, to: nat, amount: int)
    ensures Total(BalanceOf(), SendBack(db, from, to, amount).wallets) == Total(BalanceOf(), db.wallets)
  {
    if from < |db.wallets| && to < |db.wallets| {
      TwoMovesTotal(db.wallets, from, -amount, 0, to, amount);
    }
  }

  /** No escrow transaction, and no agent refund, creates or destroys money. */
  lemma StepConservesMoney(db: Db, e: Event)
    requires WellFormed(db) && !e.DoCreditDeposit?
    ensures Total(BalanceOf(), Step(db, e).wallets) == Total(BalanceOf(), db.wallets)
  {
    match e
    case DoReleasePart(_, _, _) => ReleasesConserve(db, e);
    case DoRelease(_, _, _) => ReleasesConserve(db, e);
    case DoCreate(buyer, seller, amount, rule) => CreateConserves(db, buyer, seller, amount, rule);
    case DoRefund(id, byAdmin) => RefundConserves(db, id, byAdmin);
    case DoSendBack(from, to, amount) => SendBackConserves(db, from, to, amount);
    case _ =>
  }

  // ---------- solvency ----------

  /** Rules as the fee editor writes them, and amounts in whole cents. */
  predicate Regular(e: Event)
  {
    match e
    case DoCreate(_, _, amount, rule) => WholeCents(amount) && EditedRule(rule.percent) == Some(rule)
    case DoReleasePart(_, _, rule) => EditedRule(rule.percent) == Some(rule)
    case DoRelease(_, _, rule) => EditedRule(rule.percent) == Some(rule)
    case DoDetect(_, farm, _) => WholeCents(farm)
    case DoSendBack(_, _, amount) => WholeCents(amount)
    case _ => true
  }

  predicate CentContract(c: Contract) { WholeCents(c.amount) && WholeCents(c.released) }

  ghost predicate InCents(db: Db)
  {
    forall i :: 0 <= i < |db.contracts| ==> CentContract(db.contracts[i])
  }

  lemma FeeFitsCents(rule: FeeRule, units: int)
    requires EditedRule(rule.percent) == Some(rule) && units >= 0 && WholeCents(units)
    ensures FeeUnits(rule, units) <= units
  {
    var c := units / CENT;
    assert Scale(2) == 100;
    assert units as real / FARM as real == c as real / 100.0;
    FeeAtMostAmount(rule.percent, c, 2);
  }

  lemma ContractsAfterInCents(db: Db, e: Event)
    requires InCents(db) && Regular(e)
    ensures forall i :: 0 <= i < |ContractsAfter(db, e)| ==> CentContract(ContractsAfter(db, e)[i])
  {
  }

  lemma StepInCents(db: Db, e: Event)
    requires WellFormed(db) && InCents(db) && Regular(e)
    ensures InCents(Step(db, e))
  {
    StepContracts(db, e);
    ContractsAfterInCents(db, e);
  }

  ghost predicate HeldOk(held: seq<int>)
  {
    forall w :: 0 <= w < |held| ==> held[w] >= 0
  }

  /** A wallet's lock covers each open contract it pays for. */
  lemma LockCovers(db: Db, held: seq<int>, id: nat)
    requires Inv(db, held) && HeldOk(held) && id < |db.contracts|
    ensures db.wallets[db.contracts[id].buyer].locked >= StillLocked(db.contracts[id])
  {
    var w := db.contracts[id].buyer;
    assert forall i :: 0 <= i < |db.contracts| ==> ContractOk(db.contracts[i]);
    TotalAtLeast(LockOf(w), db.contracts, id);
  }

  lemma PayOutSolvent(db: Db, held: seq<int>, id: nat, c: Contract, part: int, fee: int)
    requires Inv(db, held) && HeldOk(held) && Solvent(db) && id < |db.contracts| && FeeWalletFound(db, fee)
    requires c.buyer == db.contracts[id].buyer && c.seller == db.contracts[id].seller
    requires 0 <= fee <= part <= StillLocked(db.contracts[id])
    ensures Solvent(PayOut(SetContract(db, id, c), id, part, fee))
  {
    LockCovers(db, held, id);
    PayOutEffect(SetContract(db, id, c), id, part, fee);
  }

  /** No escrow step and no deposit takes a lock below zero or above its balance, even when the wallets involved coincide. */
  lemma StepSolvent(db: Db, held: seq<int>, e: Event)
    requires Inv(db, held) && HeldOk(held) && InCents(db) && Solvent(db)
    requires Regular(e) && !e.DoSendBack?
    ensures Solvent(Step(db, e))
  {
    match e
    case DoCreate(buyer, seller, amount, rule) =>
      if CanCreate(db, buyer, seller, amount, rule) {
        CreateEffect(db, buyer, seller, amount, rule);
      }
    case DoReleasePart(id, asked, rule) =>
      var part := ToCents(asked);
      if CanReleasePart(db, id, part, rule) {
        FeeFitsCents(rule, part);
        PayOutSolvent(db, held, id, AfterPart(db.contracts[id], part), part, FeeUnits(rule, part));
      }
    case DoRelease(id, byAdmin, rule) =>
      if CanRelease(db, id, byAdmin, rule) {
        var c := db.contracts[id];
        assert ContractOk(c) && CentContract(c);
        FeeFitsCents(rule, Remaining(c));
        PayOutSolvent(db, held, id, c.(status := Completed), Remaining(c), FeeUnits(rule, Remaining(c)));
      }
    case DoRefund(id, byAdmin) =>
      if Closable(db, id, byAdmin) {
        assert ContractOk(db.contracts[id]);
        LockCovers(db, held, id);
      }
    case _ =>
  }

  /**
   * An agent-payment refund is guarded on the whole balance, so it can eat into a lock: it keeps the business wallet
   * solvent exactly when the amount was available.
   */
  lemma SendBackSolventIff(db: Db, from: nat, to: nat, amount: int)
    requires WellFormed(db) && Solvent(db) && from < |db.wallets| && to < |db.wallets| && from != to
    requires 0 < amount <= db.wallets[from].balance
    ensures Solvent(SendBack(db, from, to, amount)) <==> amount <= Available(db.wallets[from])
  {
    var r := SendBack(db, from, to, amount);
    assert r.wallets[from].balance == db.wallets[from].balance - amount;
    if amount <= Available(db.wallets[from]) {
      forall w | 0 <= w < |r.wallets|
        ensures 0 <= r.wallets[w].locked <= r.wallets[w].balance
      {
        assert 0 <= db.wallets[w].locked <= db.wallets[w].balance;
      }
    }
  }

  /** An agent refund between two wallets that goes through was available. */
  predicate Backed(db: Db, e: Event)
  {
    match e
    case DoSendBack(from, to, amount) =>
      from < |db.wallets| && to < |db.wallets| && from != to && 0 < amount <= db.wallets[from].balance
      ==> amount <= Available(db.wallets[from])
    case _ => true
  }

  lemma StepSolventIff(db: Db, held: seq<int>, e: Event)
    requires Inv(db, held) && HeldOk(held) && InCents(db) && Solvent(db) && Regular(e)
    ensures Solvent(Step(db, e)) <==> Backed(db, e)
  {
    if !e.DoSendBack? {
      StepSolvent(db, held, e);
    } else {
      SendBackStepSolventIff(db, e.from, e.to, e.amount);
    }
  }

  lemma SendBackStepSolventIff(db: Db, from: nat, to: nat, amount: int)
    requires WellFormed(db) && Solvent(db)
    ensures Solvent(SendBack(db, from, to, amount)) <==> Backed(db, DoSendBack(from, to, amount))
  {
    if from < |db.wallets| && to < |db.wallets| && 0 < amount <= db.wallets[from].balance {
      if from != to {
        SendBackSolventIff(db, from, to, amount);
      }
    }
  }

  /** Along a regular run every state is solvent exactly when every agent refund took an amount that was available. */
  lemma {:induction false} RunSolventIff(db: Db, held: seq<int>, es: seq<Event>)
    requires Inv(db, held) && HeldOk(held) && InCents(db) && Solvent(db)
    requires forall i :: 0 <= i < |es| ==> Regular(es[i])
    ensures InCents(Run(db, es))
    ensures AlwaysSolvent(db, es) <==> AlwaysBacked(db, es)
  {
    if es == [] {
    } else {
      var before := es[..|es| - 1];
      RunSolventIff(db, held, before);
      RunKeepsInv(db, held, before);
      StepInCents(Run(db, before), es[|es| - 1]);
      if AlwaysSolvent(db, before) {
        StepSolventIff(Run(db, before), held, es[|es| - 1]);
      }
    }
  }

  ghost predicate AlwaysSolvent(db: Db, es: seq<Event>)
    requires WellFormed(db)
  {
    Solvent(Run(db, es)) && (es != [] ==> AlwaysSolvent(db, es[..|es| - 1]))
  }

  ghost predicate AlwaysBacked(db: Db, es: seq<Event>)
    requires WellFormed(db)
  {
    es == [] || (AlwaysBacked(db, es[..|es| - 1]) && Backed(Run(db, es[..|es| - 1]), es[|es| - 1]))
  }
}
