/**
 * The ledger rows that escrow, agent refunds and chain deposits share, and what each database transaction does to them.
 * Each function below is one transaction: it either commits all of its writes or, when a guard fails, changes nothing.
 * Wallet, contract and transaction ids are positions in their tables.
 */
module Ledger {
  import opened Wrappers
  import opened Sums
  import opened Fees

  /** Where a wallet's FARM sits on chain: in its user's custodial account, or in the common reserve. */
  datatype Account = Reserve | User(id: nat)

  datatype Wallet = Wallet(balance: int, locked: int, account: Account)

  datatype EscrowStatus = Pending | Active | Completed | Disputed | Refunded | Cancelled

  datatype Contract = Contract(buyer: nat, seller: nat, amount: int, released: int, status: EscrowStatus)

  datatype TxnKind = EscrowLock | EscrowRelease | EscrowRefund | Transfer | Deposit

  /** A completed ledger transaction. `settled` marks FARM that already moved on chain, `enqueued` one handed to the outbox. */
  datatype Txn = Txn(
    kind: TxnKind, sender: Option<nat>, receiver: Option<nat>, escrow: Option<nat>,
    amount: int, fee: int, net: int, settled: bool, enqueued: bool)

  /** A transfer seen on chain for a custodial account, worth `farm` once credited. */
  datatype ChainDeposit = ChainDeposit(wallet: nat, farm: int, isFarm: bool, credited: bool)

  datatype Db = Db(
    wallets: seq<Wallet>, contracts: seq<Contract>, txns: seq<Txn>, deposits: seq<ChainDeposit>, admin: Option<nat>)

  predicate InRange(w: Option<nat>, n: nat) { w.Some? ==> w.value < n }

  predicate WellFormed(db: Db)
  {
    && (forall c <- db.contracts :: c.buyer < |db.wallets| && c.seller < |db.wallets|)
    && (forall t <- db.txns ::
          InRange(t.sender, |db.wallets|) && InRange(t.receiver, |db.wallets|) && InRange(t.escrow, |db.contracts|))
    && (forall d <- db.deposits :: d.wallet < |db.wallets|)
    && InRange(db.admin, |db.wallets|)
  }

  /** What every transaction keeps about the shape of the tables. */
  predicate Kept(db: Db, r: Db)
  {
    && WellFormed(r)
    && |r.wallets| == |db.wallets| && r.admin == db.admin
    && |r.contracts| >= |db.contracts|
  }

  predicate Open(c: Contract) { c.status == Active || c.status == Disputed }

  /** What milestone releases have not paid out yet. */
  function Remaining(c: Contract): int
  {
    if c.amount - c.released > 0 then c.amount - c.released else 0
  }

  function Available(w: Wallet): int { w.balance - w.locked }

  function Move(ws: seq<Wallet>, w: nat, balance: int, locked: int): (r: seq<Wallet>)
    requires w < |ws|
    ensures |r| == |ws|
  {
    ws[w := ws[w].(balance := ws[w].balance + balance, locked := ws[w].locked + locked)]
  }

  /** The platform wallet is looked up only when there is a fee to credit. */
  predicate FeeWalletFound(db: Db, fee: int) { fee <= 0 || db.admin.Some? }

  function CreditPlatform(ws: seq<Wallet>, admin: Option<nat>, fee: int): seq<Wallet>
    requires fee > 0 ==> admin.Some? && admin.value < |ws|
  {
    if fee <= 0 then ws else Move(ws, admin.value, fee, 0)
  }

  function Record(db: Db, kind: TxnKind, sender: Option<nat>, receiver: Option<nat>, escrow: Option<nat>,
                  amount: int, fee: int, net: int, settled: bool := false): Db
  {
    db.(txns := db.txns + [Txn(kind, sender, receiver, escrow, amount, fee, net, settled, false)])
  }

  // ---------- escrow ----------

  predicate CanCreate(db: Db, buyer: nat, seller: nat, amount: int, rule: FeeRule)
  {
    && buyer < |db.wallets| && seller < |db.wallets| && buyer != seller
    && amount > 0
    && Available(db.wallets[buyer]) >= amount + FeeUnits(rule, amount)
    && FeeWalletFound(db, FeeUnits(rule, amount))
  }

  function Create(db: Db, buyer: nat, seller: nat, amount: int, rule: FeeRule): (r: Db)
    requires WellFormed(db)
    ensures Kept(db, r)
  {
    if !CanCreate(db, buyer, seller, amount, rule) then db
    else
      var fee := FeeUnits(rule, amount);
      var id := |db.contracts|;
      var locked := Move(db.wallets, buyer, -fee, amount);
      Record(db.(wallets := CreditPlatform(locked, db.admin, fee),
                 contracts := db.contracts + [Contract(buyer, seller, amount, 0, Active)]),
             EscrowLock, Some(buyer), None, Some(id), amount, fee, amount)
  }

  function SetContract(db: Db, id: nat, c: Contract): Db
    requires id < |db.contracts|
  {
    db.(contracts := db.contracts[id := c])
  }

  function Dispute(db: Db, id: nat): (r: Db)
    ensures WellFormed(db) ==> Kept(db, r)
  {
    if id < |db.contracts| && db.contracts[id].status == Active
    then SetContract(db, id, db.contracts[id].(status := Disputed))
    else db
  }

  /** Only an unfunded request can be cancelled. */
  function Cancel(db: Db, id: nat): (r: Db)
    ensures WellFormed(db) ==> Kept(db, r)
  {
    if id < |db.contracts| && db.contracts[id].status == Pending
    then SetContract(db, id, db.contracts[id].(status := Cancelled))
    else db
  }

  /** `part` leaves the buyer's lock and balance, `fee` of it goes to the platform and the rest to the seller. */
  function PayOut(db: Db, id: nat, part: int, fee: int): (r: Db)
    requires WellFormed(db) && id < |db.contracts| && FeeWalletFound(db, fee)
    ensures Kept(db, r)
  {
    var c := db.contracts[id];
    var paid := Move(Move(db.wallets, c.buyer, -part, -part), c.seller, part - fee, 0);
    Record(db.(wallets := CreditPlatform(paid, db.admin, fee)),
           EscrowRelease, Some(c.buyer), Some(c.seller), Some(id), part, fee, part - fee)
  }

  predicate CanReleasePart(db: Db, id: nat, part: int, rule: FeeRule)
  {
    && id < |db.contracts| && part > 0
    && db.contracts[id].status == Active
    && db.contracts[id].released + part <= db.contracts[id].amount
    && FeeWalletFound(db, FeeUnits(rule, part))
  }

  /** The last part completes the contract. */
  function AfterPart(c: Contract, part: int): Contract
  {
    var paid := c.(released := c.released + part);
    if Remaining(paid) <= 0 then paid.(status := Completed) else paid
  }

  function ReleasePart(db: Db, id: nat, asked: int, rule: FeeRule): (r: Db)
    requires WellFormed(db)
    ensures Kept(db, r)
  {
    var part := ToCents(asked);
    if !CanReleasePart(db, id, part, rule) then db
    else
      PayOut(SetContract(db, id, AfterPart(db.contracts[id], part)), id, part, FeeUnits(rule, part))
  }

  /** A buyer closes an active contract; an administrator closes a disputed one. */
  predicate Closable(db: Db, id: nat, byAdmin: bool)
  {
    id < |db.contracts| && db.contracts[id].status == if byAdmin then Disputed else Active
  }

  predicate CanRelease(db: Db, id: nat, byAdmin: bool, rule: FeeRule)
  {
    Closable(db, id, byAdmin) && FeeWalletFound(db, FeeUnits(rule, Remaining(db.contracts[id])))
  }

  function Release(db: Db, id: nat, byAdmin: bool, rule: FeeRule): (r: Db)
    requires WellFormed(db)
    ensures Kept(db, r)
  {
    if !CanRelease(db, id, byAdmin, rule) then db
    else
      var c := db.contracts[id];
      var left := Remaining(c);
      var closed := SetContract(db, id, c.(status := Completed));
      if left <= 0 then closed else PayOut(closed, id, left, FeeUnits(rule, left))
  }

  function Refund(db: Db, id: nat, byAdmin: bool): (r: Db)
    requires WellFormed(db)
    ensures Kept(db, r)
  {
    if !Closable(db, id, byAdmin) then db
    else
      var c := db.contracts[id];
      var left := Remaining(c);
      var closed := SetContract(db, id, c.(status := Refunded));
      Record(closed.(wallets := Move(closed.wallets, c.buyer, 0, -left)),
             EscrowRefund, None, Some(c.buyer), Some(id), left, 0, left)
  }

  // ---------- other movements of the same rows ----------

  /** The money part of an agent-payment refund: guarded on the whole balance, not on what is unlocked. */
  function SendBack(db: Db, from: nat, to: nat, amount: int): (r: Db)
    ensures WellFormed(db) ==> Kept(db, r)
  {
    if from < |db.wallets| && to < |db.wallets| && amount > 0 && db.wallets[from].balance >= amount
    then Record(db.(wallets := Move(Move(db.wallets, from, -amount, 0), to, amount, 0)),
                Transfer, Some(from), Some(to), None, amount, 0, amount)
    else db
  }

  /** The deposit poller records a transfer to a custodial account. */
  function Detect(db: Db, wallet: nat, farm: int, isFarm: bool): (r: Db)
    ensures WellFormed(db) ==> Kept(db, r)
  {
    if wallet < |db.wallets| then db.(deposits := db.deposits + [ChainDeposit(wallet, farm, isFarm, false)]) else db
  }

  function CreditDeposit(db: Db, id: nat): (r: Db)
    requires WellFormed(db)
    ensures Kept(db, r)
  {
    if id >= |db.deposits| || db.deposits[id].credited || db.deposits[id].farm <= 0 then db
    else
      var d := db.deposits[id];
      Record(db.(wallets := Move(db.wallets, d.wallet, d.farm, 0), deposits := db.deposits[id := d.(credited := true)]),
             Deposit, None, Some(d.wallet), None, d.farm, 0, d.farm, d.isFarm)
  }

  // ---------- runs ----------

  /** One committed transaction. Any interleaving of service calls is a sequence of these. */
  datatype Event =
    | DoCreate(buyer: nat, seller: nat, amount: int, rule: FeeRule)
    | DoDispute(id: nat)
    | DoCancel(id: nat)
    | DoReleasePart(id: nat, asked: int, rule: FeeRule)
    | DoRelease(id: nat, byAdmin: bool, rule: FeeRule)
    | DoRefund(id: nat, byAdmin: bool)
    | DoSendBack(from: nat, to: nat, amount: int)
    | DoDetect(wallet: nat, farm: int, isFarm: bool)
    | DoCreditDeposit(deposit: nat)

  function Step(db: Db, e: Event): (r: Db)
    requires WellFormed(db)
    ensures Kept(db, r)
  {
    match e
    case DoCreate(buyer, seller, amount, rule) => Create(db, buyer, seller, amount, rule)
    case DoDispute(id) => Dispute(db, id)
    case DoCancel(id) => Cancel(db, id)
    case DoReleasePart(id, asked, rule) => ReleasePart(db, id, asked, rule)
    case DoRelease(id, byAdmin, rule) => Release(db, id, byAdmin, rule)
    case DoRefund(id, byAdmin) => Refund(db, id, byAdmin)
    case DoSendBack(from, to, amount) => SendBack(db, from, to, amount)
    case DoDetect(wallet, farm, isFarm) => Detect(db, wallet, farm, isFarm)
    case DoCreditDeposit(deposit) => CreditDeposit(db, deposit)
  }

  function Run(db: Db, es: seq<Event>): (r: Db)
    requires WellFormed(db)
    ensures WellFormed(r) && |r.wallets| == |db.wallets|
  {
    if es == [] then db
    else
      Step(Run(db, es[..|es| - 1]), es[|es| - 1])
  }
}
