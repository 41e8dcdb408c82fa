/** The escrow service in its own form: each method is one database transaction over the rows, write by write. */
module EscrowService {
  import opened Wrappers
  import opened Sums
  import opened Fees
  import opened Ledger
  import opened EscrowProofs

  /** Releases every listed contract in turn; a failure leaves the rows as they were and the loop goes on. */
  function ReleaseAll(db: Db, ids: seq<nat>, rule: FeeRule): (r: Db)
    requires WellFormed(db)
    ensures Kept(db, r)
  {
    if ids == [] then db else Release(ReleaseAll(db, ids[..|ids| - 1], rule), ids[|ids| - 1], false, rule)
  }

  function ReleasedCount(db: Db, ids: seq<nat>, rule: FeeRule): nat
    requires WellFormed(db)
  {
    if ids == [] then 0
    else
      var before, last := ids[..|ids| - 1], ids[|ids| - 1];
      ReleasedCount(db, before, rule) + if CanRelease(ReleaseAll(db, before, rule), last, false, rule) then 1 else 0
  }

  predicate Distinct(ids: seq<nat>)
  {
    forall i, j :: 0 <= i < j < |ids| ==> ids[i] != ids[j]
  }

  lemma ReleaseStatus(db: Db, id: nat, rule: FeeRule, other: nat)
    requires WellFormed(db) && other < |db.contracts|
    ensures Release(db, id, false, rule).contracts[other]
         == if other == id && CanRelease(db, id, false, rule)
            then db.contracts[other].(status := Completed) else db.contracts[other]
  {
  }

  ghost predicate AllActive(db: Db, ids: seq<nat>)
  {
    Distinct(ids) && forall i :: 0 <= i < |ids| ==> ids[i] < |db.contracts| && db.contracts[ids[i]].status == Active
  }

  /** The sweep completes exactly the listed contracts, when the query listed active ones. */
  lemma {:induction false} SweepCompletesListed(db: Db, ids: seq<nat>, rule: FeeRule, c: nat)
    requires WellFormed(db) && db.admin.Some? && AllActive(db, ids) && c < |db.contracts|
    ensures ReleaseAll(db, ids, rule).contracts[c]
         == if c in ids then db.contracts[c].(status := Completed) else db.contracts[c]
  {
    if ids == [] {
    } else {
      var before, last := ids[..|ids| - 1], ids[|ids| - 1];
      assert ids == before + [last];
      SweepCompletesListed(db, before, rule, c);
      SweepCompletesListed(db, before, rule, last);
      ReleaseStatus(ReleaseAll(db, before, rule), last, rule, c);
    }
  }

  /** Every listed contract is counted, once. */
  lemma {:induction false} SweepCountsListed(db: Db, ids: seq<nat>, rule: FeeRule)
    requires WellFormed(db) && db.admin.Some? && AllActive(db, ids)
    ensures ReleasedCount(db, ids, rule) == |ids|
  {
    if ids == [] {
    } else {
      var before, last := ids[..|ids| - 1], ids[|ids| - 1];
      SweepCountsListed(db, before, rule);
      SweepCompletesListed(db, before, rule, last);
      assert last !in before;
    }
  }

  class Escrows {
    var wallets: seq<Wallet>
    var contracts: seq<Contract>
    var txns: seq<Txn>
    var deposits: seq<ChainDeposit>
    var admin: Option<nat>

    function Rows(): Db
      reads this
    {
      Db(wallets, contracts, txns, deposits, admin)
    }

    constructor (db: Db)
      requires WellFormed(db)
      ensures Rows() == db
    {
      wallets, contracts, txns, deposits, admin := db.wallets, db.contracts, db.txns, db.deposits, db.admin;
    }

    /** Undoes a transaction that threw. */
    method Rollback(db: Db)
      modifies this
      ensures Rows() == db
    {
      wallets, contracts, txns, deposits, admin := db.wallets, db.contracts, db.txns, db.deposits, db.admin;
    }

    method CreditSuperadminWalletInTx(amount: int) returns (found: bool)
      requires WellFormed(Rows())
      modifies this`wallets
      ensures found == FeeWalletFound(old(Rows()), amount)
      ensures wallets == if found then CreditPlatform(old(wallets), admin, amount) else old(wallets)
    {
      if amount <= 0 {
        return true;
      }
      match admin
      case None => found := false;
      case Some(w) =>
        wallets := wallets[w := wallets[w].(balance := wallets[w].balance + amount)];
        found := true;
    }

    method CreateEscrow(buyer: nat, seller: nat, amount: int, rule: FeeRule) returns (contract: Option<nat>)
      requires WellFormed(Rows())
      modifies this
      ensures Rows() == Create(old(Rows()), buyer, seller, amount, rule)
      ensures contract == if CanCreate(old(Rows()), buyer, seller, amount, rule) then Some(|old(contracts)|) else None
    {
      if amount <= 0 || buyer >= |wallets| || seller >= |wallets| || buyer == seller {
        return None;
      }
      var before := Rows();
      var fee := FeeUnits(rule, amount);
      if wallets[buyer].balance - wallets[buyer].locked < amount + fee {
        return None;
      }
      var id := |contracts|;
      contracts := contracts + [Contract(buyer, seller, amount, 0, Pending)];
      var w := wallets[buyer];
      wallets := wallets[buyer := w.(balance := w.balance - fee, locked := w.locked + amount)];
      contracts := contracts[id := contracts[id].(status := Active)];
      txns := txns + [Txn(EscrowLock, Some(buyer), None, Some(id), amount, fee, amount, false, false)];
      assert WellFormed(Rows());
      var found := CreditSuperadminWalletInTx(fee);
      if !found {
        Rollback(before);
        return None;
      }
      assert contracts == before.contracts + [Contract(buyer, seller, amount, 0, Active)];
      return Some(id);
    }

    method RaiseDispute(id: nat) returns (ok: bool)
      modifies this`contracts
      ensures Rows() == Dispute(old(Rows()), id)
      ensures ok <==> Rows() != old(Rows())
    {
      ok := id < |contracts| && contracts[id].status == Active;
      if ok {
        contracts := contracts[id := contracts[id].(status := Disputed)];
        assert contracts[id] != old(contracts)[id];
      }
    }

    method CancelEscrow(id: nat) returns (ok: bool)
      modifies this`contracts
      ensures Rows() == Cancel(old(Rows()), id)
    {
      if id >= |contracts| || contracts[id].status != Pending {
        return false;
      }
      contracts := contracts[id := contracts[id].(status := Cancelled)];
      ok := true;
    }

    /** The writes that a partial and a full release share. */
    method PayOutInTx(id: nat, part: int, fee: int, ghost closed: Db) returns (found: bool)
      requires WellFormed(Rows()) && id < |contracts| && closed == Rows()
      modifies this
      ensures found == FeeWalletFound(closed, fee)
      ensures found ==> Rows() == PayOut(closed, id, part, fee)
    {
      var c := contracts[id];
      var b := wallets[c.buyer];
      wallets := wallets[c.buyer := b.(locked := b.locked - part, balance := b.balance - part)];
      var s := wallets[c.seller];
      wallets := wallets[c.seller := s.(balance := s.balance + part - fee)];
      txns := txns + [Txn(EscrowRelease, Some(c.buyer), Some(c.seller), Some(id), part, fee, part - fee, false, false)];
      assert WellFormed(Rows());
      found := CreditSuperadminWalletInTx(fee);
    }

    method ReleasePartial(id: nat, asked: int, rule: FeeRule) returns (ok: bool, completed: bool)
      requires WellFormed(Rows())
      modifies this
      ensures Rows() == ReleasePart(old(Rows()), id, asked, rule)
      ensures ok == CanReleasePart(old(Rows()), id, ToCents(asked), rule)
      ensures completed == (ok && old(contracts)[id].released + ToCents(asked) == old(contracts)[id].amount)
    {
      var part := ToCents(asked);
      if part <= 0 || id >= |contracts| || contracts[id].status != Active {
        return false, false;
      }
      var before := Rows();
      var fee := FeeUnits(rule, part);
      var c := contracts[id];
      if c.released + part > c.amount {
        return false, false;
      }
      contracts := contracts[id := c.(released := c.released + part)];
      completed := Remaining(contracts[id]) <= 0;
      if completed {
        contracts := contracts[id := contracts[id].(status := Completed)];
      }
      assert contracts == SetContract(before, id, AfterPart(c, part)).contracts;
      ok := PayOutInTx(id, part, fee, Rows());
      if !ok {
        Rollback(before);
        completed := false;
      }
    }

    method ExecuteRelease(id: nat, byAdmin: bool, rule: FeeRule) returns (ok: bool)
      requires WellFormed(Rows())
      modifies this
      ensures Rows() == Release(old(Rows()), id, byAdmin, rule)
      ensures ok == CanRelease(old(Rows()), id, byAdmin, rule)
    {
      var before := Rows();
      if id >= |contracts| || contracts[id].status != (if byAdmin then Disputed else Active) {
        return false;
      }
      contracts := contracts[id := contracts[id].(status := Completed)];
      var locked := Remaining(contracts[id]);
      var fee := FeeUnits(rule, locked);
      if locked <= 0 {
        assert FeeUnits(rule, locked) == 0;
        return true;
      }
      ok := PayOutInTx(id, locked, fee, Rows());
      if !ok {
        Rollback(before);
      }
    }

    method ExecuteRefund(id: nat, byAdmin: bool) returns (ok: bool)
      requires WellFormed(Rows())
      modifies this
      ensures Rows() == Refund(old(Rows()), id, byAdmin)
      ensures ok == Closable(old(Rows()), id, byAdmin)
    {
      if id >= |contracts| || contracts[id].status != (if byAdmin then Disputed else Active) {
        return false;
      }
      contracts := contracts[id := contracts[id].(status := Refunded)];
      var amount := Remaining(contracts[id]);
      var w := contracts[id].buyer;
      wallets := wallets[w := wallets[w].(locked := wallets[w].locked - amount)];
      txns := txns + [Txn(EscrowRefund, None, Some(w), Some(id), amount, 0, amount, false, false)];
      ok := true;
    }

    /** `expired` is what the query for active contracts past their release date returned. */
    method ProcessAutoReleases(expired: seq<nat>, rule: FeeRule) returns (released: nat)
      requires WellFormed(Rows())
      modifies this
      ensures WellFormed(old(Rows())) && Rows() == ReleaseAll(old(Rows()), expired, rule)
      ensures released == ReleasedCount(old(Rows()), expired, rule)
    {
      released := 0;
      var i := 0;
      while i < |expired|
        invariant 0 <= i <= |expired|
        invariant WellFormed(Rows())
        invariant Rows() == ReleaseAll(old(Rows()), expired[..i], rule)
        invariant released == ReleasedCount(old(Rows()), expired[..i], rule)
      {
        assert expired[..i + 1][..i] == expired[..i];
        var ok := ExecuteRelease(expired[i], false, rule);
        if ok {
          released := released + 1;
        }
        i := i + 1;
      }
      assert expired[..i] == expired;
    }
  }
}
