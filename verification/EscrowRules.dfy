/** Who may do what with an escrow, in which state, and what it does to every wallet. */
module EscrowRules {
  import opened Wrappers
  import opened Sums
  import opened Fees
  import opened Ledger
  import opened EscrowProofs

  /** A fee is credited to the platform wallet; without one only what costs nothing goes through. */
  predicate Affordable(db: Db, rule: FeeRule, amount: int) { FeeUnits(rule, amount) > 0 ==> db.admin.Some? }

  /** Every wallet's change: the buyer's, the seller's and the platform's, which may be one and the same. */
  ghost predicate Moves(db: Db, r: Db, buyer: nat, spent: int, unlocked: int, seller: nat, earned: int, fee: int)
  {
    && |r.wallets| == |db.wallets|
    && forall w :: 0 <= w < |db.wallets| ==>
         && r.wallets[w].locked == db.wallets[w].locked - (if w == buyer then unlocked else 0)
         && r.wallets[w].balance
              == db.wallets[w].balance - (if w == buyer then spent else 0) + (if w == seller then earned else 0)
                 + (if fee > 0 && db.admin == Some(w) then fee else 0)
  }

  /**
   * An escrow between two wallets is created exactly for a positive amount that the buyer has unlocked together with the
   * fee. It is active at once; the amount is locked and the fee paid.
   */
  lemma CreatesExactly(db: Db, buyer: nat, seller: nat, amount: int, rule: FeeRule)
    requires WellFormed(db)
    ensures var r, fee := Step(db, DoCreate(buyer, seller, amount, rule)), FeeUnits(rule, amount);
            if buyer < |db.wallets| && seller < |db.wallets| && buyer != seller && amount > 0
               && db.wallets[buyer].balance - db.wallets[buyer].locked >= amount + fee && Affordable(db, rule, amount)
            then r.contracts == db.contracts + [Contract(buyer, seller, amount, 0, Active)]
                 && Moves(db, r, buyer, fee, -amount, seller, 0, fee)
            else r == db
  {
    if CanCreate(db, buyer, seller, amount, rule) {
      CreateEffect(db, buyer, seller, amount, rule);
    }
  }

  /** A part, to the cent, is paid exactly out of an active contract that has it left, and completes it exactly when nothing remains. */
  lemma PaysPartExactly(db: Db, id: nat, asked: int, rule: FeeRule)
    requires WellFormed(db)
    ensures var r, part, fee := Step(db, DoReleasePart(id, asked, rule)), ToCents(asked), FeeUnits(rule, ToCents(asked));
            if id < |db.contracts| && db.contracts[id].status == Active && part > 0
               && part <= db.contracts[id].amount - db.contracts[id].released && Affordable(db, rule, part)
            then var c := db.contracts[id];
                 && r.contracts == db.contracts[id := Contract(c.buyer, c.seller, c.amount, c.released + part,
                                                               if c.released + part == c.amount then Completed else Active)]
                 && Moves(db, r, c.buyer, part, part, c.seller, part - fee, fee)
            else r == db
  {
    var part := ToCents(asked);
    if CanReleasePart(db, id, part, rule) {
      PayOutEffect(SetContract(db, id, AfterPart(db.contracts[id], part)), id, part, FeeUnits(rule, part));
    }
  }

  /** The whole rest of a contract. */
  function Rest(c: Contract): int { if c.released < c.amount then c.amount - c.released else 0 }

  /** A release pays the rest out: for an active contract when a party asks, for a disputed one when an administrator does. */
  lemma ReleasesExactly(db: Db, id: nat, byAdmin: bool, rule: FeeRule)
    requires WellFormed(db)
    ensures var r := Step(db, DoRelease(id, byAdmin, rule));
            if id < |db.contracts| && db.contracts[id].status == (if byAdmin then Disputed else Active)
               && Affordable(db, rule, Rest(db.contracts[id]))
            then var c, rest, fee := db.contracts[id], Rest(db.contracts[id]), FeeUnits(rule, Rest(db.contracts[id]));
                 && r.contracts == db.contracts[id := Contract(c.buyer, c.seller, c.amount, c.released, Completed)]
                 && Moves(db, r, c.buyer, rest, rest, c.seller, rest - fee, fee)
            else r == db
  {
    if CanRelease(db, id, byAdmin, rule) && Remaining(db.contracts[id]) > 0 {
      var c := db.contracts[id];
      PayOutEffect(SetContract(db, id, c.(status := Completed)), id, Remaining(c), FeeUnits(rule, Remaining(c)));
    }
  }

  /** A refund unlocks the rest for the buyer, under the same rule, and costs nothing. */
  lemma RefundsExactly(db: Db, id: nat, byAdmin: bool)
    requires WellFormed(db)
    ensures var r := Step(db, DoRefund(id, byAdmin));
            if id < |db.contracts| && db.contracts[id].status == (if byAdmin then Disputed else Active)
            then var c := db.contracts[id];
                 && r.contracts == db.contracts[id := Contract(c.buyer, c.seller, c.amount, c.released, Refunded)]
                 && Moves(db, r, c.buyer, 0, Rest(c), c.seller, 0, 0)
            else r == db
  {
  }

  lemma DisputesExactly(db: Db, id: nat)
    requires WellFormed(db)
    ensures Step(db, DoDispute(id))
         == if id < |db.contracts| && db.contracts[id].status == Active
            then db.(contracts := db.contracts[id := db.contracts[id].(status := Disputed)]) else db
  {
  }

  // ---------- disputes ----------

  /** An administrator's decision on a contract. */
  predicate Decides(e: Event, id: nat)
  {
    match e
    case DoRelease(i, byAdmin, _) => i == id && byAdmin
    case DoRefund(i, byAdmin) => i == id && byAdmin
    case _ => false
  }

  /** A ledger row about a disputed contract is written only by such a decision. */
  lemma DisputedRows(db: Db, e: Event, id: nat)
    requires WellFormed(db) && id < |db.contracts| && db.contracts[id].status == Disputed && !Decides(e, id)
    ensures var r := Step(db, e);
            || r.txns == db.txns
            || (|r.txns| == |db.txns| + 1 && r.txns[..|db.txns|] == db.txns && r.txns[|db.txns|].escrow != Some(id))
  {
  }

  lemma DisputedStep(db: Db, e: Event, id: nat)
    requires WellFormed(db) && id < |db.contracts| && db.contracts[id].status == Disputed && !Decides(e, id)
    ensures id < |Step(db, e).contracts| && Step(db, e).contracts[id] == db.contracts[id]
    ensures forall flow :: Moved(Step(db, e), flow, id) == Moved(db, flow, id)
  {
    StepContracts(db, e);
    DisputedRows(db, e, id);
    OtherFlows(db, Step(db, e), id);
  }

  /** In every run a disputed contract stays as it is, and none of its money moves, until an administrator decides. */
  lemma {:induction false} DisputeWaits(db: Db, es: seq<Event>, id: nat)
    requires WellFormed(db) && id < |db.contracts| && db.contracts[id].status == Disputed
    requires forall i :: 0 <= i < |es| ==> !Decides(es[i], id)
    ensures id < |Run(db, es).contracts| && Run(db, es).contracts[id] == db.contracts[id]
    ensures forall flow :: Moved(Run(db, es), flow, id) == Moved(db, flow, id)
  {
    if es == [] {
    } else {
      var before := es[..|es| - 1];
      DisputeWaits(db, before, id);
      DisputedStep(Run(db, before), es[|es| - 1], id);
    }
  }

  /** The decision ends it, whichever way: completed with the rest paid out, or refunded with the rest unlocked. */
  lemma DecisionEnds(db: Db, id: nat, rule: FeeRule)
    requires WellFormed(db) && id < |db.contracts| && db.contracts[id].status == Disputed && db.admin.Some?
    ensures Step(db, DoRelease(id, true, rule)).contracts[id].status == Completed
    ensures Step(db, DoRefund(id, true)).contracts[id].status == Refunded
  {
    ReleasesExactly(db, id, true, rule);
    RefundsExactly(db, id, true);
  }

  /** An administrator decides nothing else: no contract in any other state changes, nor any wallet. */
  lemma DecidesDisputesOnly(db: Db, e: Event, id: nat)
    requires WellFormed(db) && Decides(e, id) && (id < |db.contracts| ==> db.contracts[id].status != Disputed)
    ensures Step(db, e) == db
  {
  }

  // ---------- other movements ----------

  /** An agent refund goes through exactly when the business has the amount, locked or not, and moves it. */
  lemma SendsBackExactly(db: Db, from: nat, to: nat, amount: int)
    requires WellFormed(db)
    ensures var r := Step(db, DoSendBack(from, to, amount));
            if from < |db.wallets| && to < |db.wallets| && 0 < amount <= db.wallets[from].balance
            then r.contracts == db.contracts && Moves(db, r, from, amount, 0, to, amount, 0)
            else r == db
  {
  }

  /** A deposit from the chain is credited in full, once. */
  lemma CreditsExactly(db: Db, id: nat)
    requires WellFormed(db)
    ensures var r := Step(db, DoCreditDeposit(id));
            if id < |db.deposits| && !db.deposits[id].credited && db.deposits[id].farm > 0
            then var d := db.deposits[id];
                 && r.deposits == db.deposits[id := d.(credited := true)] && r.contracts == db.contracts
                 && Moves(db, r, d.wallet, 0, 0, d.wallet, d.farm, 0)
            else r == db
  {
  }
}
