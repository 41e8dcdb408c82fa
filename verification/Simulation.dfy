/**
 * The account of ledger and chain: for every user whose wallets are not the platform's, what the chain holds plus what is
 * on its way is what the ledger says is available, plus the fees of releases to that user that took the whole part.
 */
module Simulation {
  import opened Wrappers
  import opened Sums
  import opened Fees
  import opened Ledger
  import opened EscrowProofs
  import opened OutboxRows

  function Here(u: nat, a: Account): int { if a == User(u) then 1 else 0 }

  /** What one outbox row does to user u's on-chain FARM, in cents. */
  function Effect(u: nat): Row -> int
  {
    (row: Row) => row.units * (Here(u, row.to) - Here(u, row.from))
  }

  function AtLeastZero(n: int): int { if n > 0 then n else 0 }

  /** What a completed transaction will do to user u's on-chain FARM once its legs are sent, in cents. */
  function TxnEffect(accounts: seq<Account>, u: nat, t: Txn): int
  {
    if t.settled then 0
    else AtLeastZero(NetUnits(t)) * (Here(u, AccountAt(accounts, t.receiver)) - Here(u, Source(accounts, t)))
         - AtLeastZero(ChargedUnits(t)) * Here(u, Source(accounts, t))
  }

  /** Completed transactions that no scan has handed over yet. */
  function Waiting(accounts: seq<Account>, u: nat): Txn -> int
  {
    (t: Txn) => if t.enqueued then 0 else TxnEffect(accounts, u, t)
  }

  function AvailableTo(u: nat): Wallet -> int
  {
    (w: Wallet) => if w.account == User(u) then w.balance - w.locked else 0
  }

  /** FARM that reached user u's account from outside and has been credited in the ledger. */
  function CreditedFarm(accounts: seq<Account>, u: nat): ChainDeposit -> int
  {
    (d: ChainDeposit) => if d.isFarm && d.credited && AccountAt(accounts, Some(d.wallet)) == User(u) then d.farm else 0
  }

  /** Everything the ledger has already accounted for on chain, sent or not, starting from `base` cents at go-live. */
  function Owed(s: Sync, u: nat, base: int): int
  {
    var accounts := Accounts(s.db.wallets);
    CENT * (base + Total(Effect(u), s.outbox) + Total(Waiting(accounts, u), s.db.txns))
    + Total(CreditedFarm(accounts, u), s.db.deposits)
  }

  /** Ledger and chain agree for u. */
  ghost predicate Agrees(s: Sync, u: nat, base: int)
  {
    Owed(s, u, base) == Total(AvailableTo(u), s.db.wallets)
  }

  /** A release whose fee takes the whole part still sends all of it to the seller: the chain is ahead by the fee. */
  function Overpaid(accounts: seq<Account>, u: nat): Txn -> int
  {
    (t: Txn) =>
      if t.kind == EscrowRelease && !t.settled && t.net <= 0 && AccountAt(accounts, t.receiver) == User(u) then t.fee else 0
  }

  /** The transactions the outbox has to answer for. */
  function Live(s: Sync): seq<Txn>
    requires s.live <= |s.db.txns|
  {
    s.db.txns[s.live..]
  }

  /** The chain is ahead for u by exactly the fees of such releases. */
  ghost predicate Tracks(s: Sync, u: nat, base: int)
  {
    && s.live <= |s.db.txns|
    && Owed(s, u, base) == Total(AvailableTo(u), s.db.wallets) + Total(Overpaid(Accounts(s.db.wallets), u), Live(s))
  }

  // ---------- enqueueing ----------

  lemma Kept1Effect(u: nat, row: Row)
    ensures Total(Effect(u), Kept1(row)) == AtLeastZero(row.units) * (Here(u, row.to) - Here(u, row.from))
  {
  }

  lemma TwoLegsEffect(u: nat, main: Row, fee: Row)
    ensures Total(Effect(u), Kept1(main) + Kept1(fee))
         == AtLeastZero(main.units) * (Here(u, main.to) - Here(u, main.from))
            + AtLeastZero(fee.units) * (Here(u, fee.to) - Here(u, fee.from))
  {
    Kept1Effect(u, main);
    Kept1Effect(u, fee);
    TotalConcat(Effect(u), Kept1(main), Kept1(fee));
  }

  lemma LegsEffect(accounts: seq<Account>, u: nat, id: nat, t: Txn)
    ensures Total(Effect(u), LegsOf(accounts, id, t)) == TxnEffect(accounts, u, t)
  {
    if !t.settled {
      var from, to := Source(accounts, t), AccountAt(accounts, t.receiver);
      TwoLegsEffect(u, Row(id, MainLeg, from, to, NetUnits(t)), Row(id, FeeLeg, from, Reserve, ChargedUnits(t)));
    }
  }

  lemma EnqueueOneTracks(s: Sync, u: nat, base: int, id: nat)
    requires KeysOk(s) && s.live <= id < |s.db.txns|
    ensures Owed(EnqueueOne(s, id), u, base) == Owed(s, u, base)
  {
    EnqueueOneRows(s, id);
    var accounts := Accounts(s.db.wallets);
    var t := s.db.txns[id];
    TotalUpdate(Waiting(accounts, u), s.db.txns, id, t.(enqueued := true));
    if !t.enqueued {
      LegsEffect(accounts, u, id, t);
      TotalConcat(Effect(u), s.outbox, LegsOf(accounts, id, t));
    }
  }

  /** A scan moves amounts from waiting to outbox and changes no total. */
  lemma {:induction false} EnqueueTracks(s: Sync, u: nat, base: int, ids: seq<nat>)
    requires KeysOk(s) && Scannable(s, ids)
    ensures Owed(Enqueue(s, ids), u, base) == Owed(s, u, base)
  {
    if ids == [] {
    } else {
      var before := ids[..|ids| - 1];
      EnqueueSplit(s, ids);
      EnqueueKeys(s, before);
      EnqueueTracks(s, u, base, before);
      EnqueueOneTracks(Enqueue(s, before), u, base, ids[|ids| - 1]);
    }
  }

  lemma ScanTracks(s: Sync, u: nat, base: int, ids: seq<nat>)
    requires KeysOk(s) && Scannable(s, ids) && Tracks(s, u, base)
    ensures Tracks(Enqueue(s, ids), u, base)
  {
    EnqueueTracks(s, u, base, ids);
    TotalEqual(Overpaid(Accounts(s.db.wallets), u), Live(s), Live(Enqueue(s, ids)));
  }

  // ---------- ledger transactions ----------

  lemma MoveAvailable(ws: seq<Wallet>, u: nat, w: nat, balance: int, locked: int)
    requires w < |ws|
    ensures Total(AvailableTo(u), Move(ws, w, balance, locked))
         == Total(AvailableTo(u), ws) + (balance - locked) * Here(u, ws[w].account)
  {
    TotalUpdate(AvailableTo(u), ws, w, Move(ws, w, balance, locked)[w]);
  }

  lemma TwoMovesAvailable(ws: seq<Wallet>, u: nat, from: nat, debit: int, unlock: int, to: nat, credit: int)
    requires from < |ws| && to < |ws|
    ensures Total(AvailableTo(u), Move(Move(ws, from, debit, unlock), to, credit, 0))
         == Total(AvailableTo(u), ws) + (debit - unlock) * Here(u, ws[from].account) + credit * Here(u, ws[to].account)
  {
    MoveAvailable(ws, u, from, debit, unlock);
    MoveAvailable(Move(ws, from, debit, unlock), u, to, credit, 0);
  }

  predicate OffPlatform(ws: seq<Wallet>, admin: Option<nat>, u: nat)
  {
    admin.Some? && admin.value < |ws| ==> ws[admin.value].account != User(u)
  }

  lemma PlatformAvailable(ws: seq<Wallet>, u: nat, admin: Option<nat>, fee: int)
    requires (fee > 0 ==> admin.Some? && admin.value < |ws|) && OffPlatform(ws, admin, u)
    ensures Total(AvailableTo(u), CreditPlatform(ws, admin, fee)) == Total(AvailableTo(u), ws)
  {
    if fee > 0 {
      MoveAvailable(ws, u, admin.value, fee, 0);
    }
  }

  lemma PayOutWalletsAvailable(ws: seq<Wallet>, u: nat, buyer: nat, seller: nat, part: int, fee: int, admin: Option<nat>)
    requires buyer < |ws| && seller < |ws|
    requires (fee > 0 ==> admin.Some? && admin.value < |ws|) && OffPlatform(ws, admin, u)
    ensures Total(AvailableTo(u), CreditPlatform(Move(Move(ws, buyer, -part, -part), seller, part - fee, 0), admin, fee))
         == Total(AvailableTo(u), ws) + (part - fee) * Here(u, ws[seller].account)
  {
    TwoMovesAvailable(ws, u, buyer, -part, -part, seller, part - fee);
    PlatformAvailable(Move(Move(ws, buyer, -part, -part), seller, part - fee, 0), u, admin, fee);
  }

  lemma CreateWalletsAvailable(ws: seq<Wallet>, u: nat, buyer: nat, amount: int, fee: int, admin: Option<nat>)
    requires buyer < |ws|
    requires (fee > 0 ==> admin.Some? && admin.value < |ws|) && OffPlatform(ws, admin, u)
    ensures Total(AvailableTo(u), CreditPlatform(Move(ws, buyer, -fee, amount), admin, fee))
         == Total(AvailableTo(u), ws) - (fee + amount) * Here(u, ws[buyer].account)
  {
    MoveAvailable(ws, u, buyer, -fee, amount);
    PlatformAvailable(Move(ws, buyer, -fee, amount), u, admin, fee);
  }

  lemma SameAccounts(a: seq<Wallet>, b: seq<Wallet>)
    requires |a| == |b| && forall w :: 0 <= w < |a| ==> a[w].account == b[w].account
    ensures Accounts(a) == Accounts(b)
  {
  }

  /** One new ledger row: the chain is ahead by those fees afterwards exactly when the wallets moved by what the row will do. */
  lemma RecordedTracksIff(s: Sync, r: Db, t: Txn, u: nat, base: int)
    requires Tracks(s, u, base)
    requires Accounts(r.wallets) == Accounts(s.db.wallets)
    requires r.txns == s.db.txns + [t] && !t.enqueued
    ensures var accounts := Accounts(s.db.wallets);
            var moved := Total(AvailableTo(u), r.wallets) - Total(AvailableTo(u), s.db.wallets);
            var credited := Total(CreditedFarm(accounts, u), r.deposits) - Total(CreditedFarm(accounts, u), s.db.deposits);
            Tracks(s.(db := r), u, base) <==> moved + Overpaid(accounts, u)(t) == CENT * TxnEffect(accounts, u, t) + credited
  {
    TotalAppend(Waiting(Accounts(s.db.wallets), u), s.db.txns, t);
    TotalAppend(Overpaid(Accounts(s.db.wallets), u), Live(s), t);
    assert r.txns[s.live..] == Live(s) + [t];
  }

  lemma RowTracks(s: Sync, r: Db, t: Txn, u: nat, base: int, moved: int, credited: int)
    requires Tracks(s, u, base)
    requires Accounts(r.wallets) == Accounts(s.db.wallets)
    requires r.txns == s.db.txns + [t] && !t.enqueued
    requires Total(AvailableTo(u), r.wallets) == Total(AvailableTo(u), s.db.wallets) + moved
    requires var credits := CreditedFarm(Accounts(s.db.wallets), u);
             Total(credits, r.deposits) == Total(credits, s.db.deposits) + credited
    requires moved + Overpaid(Accounts(s.db.wallets), u)(t) == CENT * TxnEffect(Accounts(s.db.wallets), u, t) + credited
    ensures Tracks(s.(db := r), u, base)
  {
    RecordedTracksIff(s, r, t, u, base);
  }

  /** What a payout row will do on chain is the net amount for the seller, plus the fee when that took everything. */
  lemma PayOutRowEffect(accounts: seq<Account>, u: nat, t: Txn)
    requires t.kind == EscrowRelease && !t.settled && t.net == t.amount - t.fee
    requires t.amount > 0 && WholeCents(t.amount) && t.fee >= 0 && WholeCents(t.fee)
    ensures CENT * TxnEffect(accounts, u, t)
         == (t.amount - t.fee) * Here(u, AccountAt(accounts, t.receiver)) + Overpaid(accounts, u)(t)
  {
  }

  lemma PayOutMoved(db: Db, u: nat, id: nat, part: int, fee: int)
    requires WellFormed(db) && OffPlatform(db.wallets, db.admin, u) && id < |db.contracts| && FeeWalletFound(db, fee)
    ensures var r, c := PayOut(db, id, part, fee), db.contracts[id];
            && Accounts(r.wallets) == Accounts(db.wallets) && r.deposits == db.deposits
            && r.txns == db.txns + [Txn(EscrowRelease, Some(c.buyer), Some(c.seller), Some(id), part, fee, part - fee, false, false)]
            && Total(AvailableTo(u), r.wallets)
               == Total(AvailableTo(u), db.wallets) + (part - fee) * Here(u, db.wallets[c.seller].account)
  {
    var c := db.contracts[id];
    PayOutEffect(db, id, part, fee);
    SameAccounts(PayOut(db, id, part, fee).wallets, db.wallets);
    PayOutWalletsAvailable(db.wallets, u, c.buyer, c.seller, part, fee, db.admin);
  }

  /** Paying part of an escrow out, whatever the fee, keeps the account exact. */
  lemma PayOutTracks(s: Sync, u: nat, base: int, id: nat, part: int, fee: int)
    requires WellFormed(s.db) && OffPlatform(s.db.wallets, s.db.admin, u) && Tracks(s, u, base)
    requires id < |s.db.contracts| && FeeWalletFound(s.db, fee)
    requires part > 0 && WholeCents(part) && fee >= 0 && WholeCents(fee)
    ensures Tracks(s.(db := PayOut(s.db, id, part, fee)), u, base)
  {
    var c := s.db.contracts[id];
    var r := PayOut(s.db, id, part, fee);
    var t := Txn(EscrowRelease, Some(c.buyer), Some(c.seller), Some(id), part, fee, part - fee, false, false);
    PayOutMoved(s.db, u, id, part, fee);
    RecordedTracksIff(s, r, t, u, base);
    PayOutRowEffect(Accounts(s.db.wallets), u, t);
  }

  /** Replacing a contract row does not touch anything the agreement is about. */
  lemma ContractRowTracks(s: Sync, u: nat, base: int, contracts: seq<Contract>)
    ensures Owed(s.(db := s.db.(contracts := contracts)), u, base) == Owed(s, u, base)
  {
  }

  lemma LockRowEffect(ws: seq<Wallet>, u: nat, t: Txn, buyer: nat)
    requires t.kind != EscrowRelease && !t.settled && t.receiver.None? && t.sender == Some(buyer) && t.net == t.amount
    requires buyer < |ws| && t.amount > 0 && WholeCents(t.amount) && t.fee >= 0 && WholeCents(t.fee)
    ensures -(t.fee + t.amount) * Here(u, ws[buyer].account) + Overpaid(Accounts(ws), u)(t)
         == CENT * TxnEffect(Accounts(ws), u, t)
  {
  }

  lemma CreateMoved(db: Db, u: nat, buyer: nat, seller: nat, amount: int, rule: FeeRule)
    requires WellFormed(db) && OffPlatform(db.wallets, db.admin, u) && CanCreate(db, buyer, seller, amount, rule)
    ensures var r, fee := Create(db, buyer, seller, amount, rule), FeeUnits(rule, amount);
            && Accounts(r.wallets) == Accounts(db.wallets) && r.deposits == db.deposits
            && r.txns == db.txns + [Txn(EscrowLock, Some(buyer), None, Some(|db.contracts|), amount, fee, amount, false, false)]
            && Total(AvailableTo(u), r.wallets)
               == Total(AvailableTo(u), db.wallets) - (fee + amount) * Here(u, db.wallets[buyer].account)
  {
    CreateEffect(db, buyer, seller, amount, rule);
    SameAccounts(Create(db, buyer, seller, amount, rule).wallets, db.wallets);
    CreateWalletsAvailable(db.wallets, u, buyer, amount, FeeUnits(rule, amount), db.admin);
  }

  lemma CreateTracks(s: Sync, u: nat, base: int, buyer: nat, seller: nat, amount: int, rule: FeeRule)
    requires WellFormed(s.db) && OffPlatform(s.db.wallets, s.db.admin, u) && Tracks(s, u, base) && WholeCents(amount)
    requires CanCreate(s.db, buyer, seller, amount, rule)
    ensures Tracks(s.(db := Create(s.db, buyer, seller, amount, rule)), u, base)
  {
    var fee := FeeUnits(rule, amount);
    var r := Create(s.db, buyer, seller, amount, rule);
    var t := Txn(EscrowLock, Some(buyer), None, Some(|s.db.contracts|), amount, fee, amount, false, false);
    CreateMoved(s.db, u, buyer, seller, amount, rule);
    LockRowEffect(s.db.wallets, u, t, buyer);
    RowTracks(s, r, t, u, base, -(fee + amount) * Here(u, s.db.wallets[buyer].account), 0);
  }

  lemma TransferRowEffect(accounts: seq<Account>, u: nat, t: Txn)
    requires t.kind != EscrowRelease && !t.settled && t.fee == 0 && t.net == t.amount && t.amount >= 0 && WholeCents(t.amount)
    ensures t.amount * (Here(u, AccountAt(accounts, t.receiver)) - Here(u, Source(accounts, t))) + Overpaid(accounts, u)(t)
         == CENT * TxnEffect(accounts, u, t)
  {
  }

  lemma RefundMoved(db: Db, u: nat, id: nat, byAdmin: bool)
    requires WellFormed(db) && Closable(db, id, byAdmin)
    ensures var r, c, left := Refund(db, id, byAdmin), db.contracts[id], Remaining(db.contracts[id]);
            && Accounts(r.wallets) == Accounts(db.wallets) && r.deposits == db.deposits
            && r.txns == db.txns + [Txn(EscrowRefund, None, Some(c.buyer), Some(id), left, 0, left, false, false)]
            && Total(AvailableTo(u), r.wallets) == Total(AvailableTo(u), db.wallets) + left * Here(u, db.wallets[c.buyer].account)
  {
    var c := db.contracts[id];
    MoveAvailable(db.wallets, u, c.buyer, 0, -Remaining(c));
    SameAccounts(Refund(db, id, byAdmin).wallets, db.wallets);
  }

  lemma RefundTracks(s: Sync, u: nat, base: int, id: nat, byAdmin: bool)
    requires WellFormed(s.db) && Tracks(s, u, base)
    requires Closable(s.db, id, byAdmin) && CentContract(s.db.contracts[id])
    ensures Tracks(s.(db := Refund(s.db, id, byAdmin)), u, base)
  {
    var c := s.db.contracts[id];
    var left := Remaining(c);
    var r := Refund(s.db, id, byAdmin);
    var t := Txn(EscrowRefund, None, Some(c.buyer), Some(id), left, 0, left, false, false);
    RefundMoved(s.db, u, id, byAdmin);
    TransferRowEffect(Accounts(s.db.wallets), u, t);
    RowTracks(s, r, t, u, base, left * Here(u, s.db.wallets[c.buyer].account), 0);
  }

  lemma SendBackMoved(db: Db, u: nat, from: nat, to: nat, amount: int)
    requires from < |db.wallets| && to < |db.wallets| && 0 < amount <= db.wallets[from].balance
    ensures var r := SendBack(db, from, to, amount);
            && Accounts(r.wallets) == Accounts(db.wallets) && r.deposits == db.deposits
            && r.txns == db.txns + [Txn(Transfer, Some(from), Some(to), None, amount, 0, amount, false, false)]
            && Total(AvailableTo(u), r.wallets)
               == Total(AvailableTo(u), db.wallets) + amount * (Here(u, db.wallets[to].account) - Here(u, db.wallets[from].account))
  {
    TwoMovesAvailable(db.wallets, u, from, -amount, 0, to, amount);
    SameAccounts(SendBack(db, from, to, amount).wallets, db.wallets);
  }

  lemma SendBackTracks(s: Sync, u: nat, base: int, from: nat, to: nat, amount: int)
    requires Tracks(s, u, base) && WholeCents(amount)
    requires from < |s.db.wallets| && to < |s.db.wallets| && 0 < amount <= s.db.wallets[from].balance
    ensures Tracks(s.(db := SendBack(s.db, from, to, amount)), u, base)
  {
    var r := SendBack(s.db, from, to, amount);
    var t := Txn(Transfer, Some(from), Some(to), None, amount, 0, amount, false, false);
    SendBackMoved(s.db, u, from, to, amount);
    TransferRowEffect(Accounts(s.db.wallets), u, t);
    RowTracks(s, r, t, u, base, amount * (Here(u, s.db.wallets[to].account) - Here(u, s.db.wallets[from].account)), 0);
  }

  ghost predicate DepositsInCents(db: Db)
  {
    forall i :: 0 <= i < |db.deposits| ==> WholeCents(db.deposits[i].farm)
  }

  predicate CanCredit(db: Db, id: nat)
  {
    id < |db.deposits| && !db.deposits[id].credited && db.deposits[id].farm > 0
  }

  lemma CreditMoved(db: Db, u: nat, id: nat)
    requires WellFormed(db) && CanCredit(db, id)
    ensures var r, d, accounts := CreditDeposit(db, id), db.deposits[id], Accounts(db.wallets);
            && Accounts(r.wallets) == accounts
            && r.txns == db.txns + [Txn(Deposit, None, Some(d.wallet), None, d.farm, 0, d.farm, d.isFarm, false)]
            && Total(CreditedFarm(accounts, u), r.deposits)
               == Total(CreditedFarm(accounts, u), db.deposits) + (if d.isFarm then d.farm * Here(u, db.wallets[d.wallet].account) else 0)
            && Total(AvailableTo(u), r.wallets) == Total(AvailableTo(u), db.wallets) + d.farm * Here(u, db.wallets[d.wallet].account)
  {
    var d := db.deposits[id];
    MoveAvailable(db.wallets, u, d.wallet, d.farm, 0);
    SameAccounts(CreditDeposit(db, id).wallets, db.wallets);
    TotalUpdate(CreditedFarm(Accounts(db.wallets), u), db.deposits, id, d.(credited := true));
  }

  lemma CreditTracks(s: Sync, u: nat, base: int, id: nat)
    requires WellFormed(s.db) && Tracks(s, u, base)
    requires CanCredit(s.db, id) && WholeCents(s.db.deposits[id].farm)
    ensures Tracks(s.(db := CreditDeposit(s.db, id)), u, base)
  {
    var d := s.db.deposits[id];
    var t := Txn(Deposit, None, Some(d.wallet), None, d.farm, 0, d.farm, d.isFarm, false);
    CreditMoved(s.db, u, id);
    RecordedTracksIff(s, CreditDeposit(s.db, id), t, u, base);
    if !d.isFarm {
      TransferRowEffect(Accounts(s.db.wallets), u, t);
    }
  }

  /** A release row as payouts write it. */
  predicate ReleaseRowOk(t: Txn)
  {
    t.kind == EscrowRelease ==> t.amount > 0 && t.fee >= 0 && t.net == t.amount - t.fee
  }

  ghost predicate ReleaseRowsOk(s: Sync)
  {
    forall i :: s.live <= i < |s.db.txns| ==> ReleaseRowOk(s.db.txns[i])
  }

  ghost predicate SimInv(s: Sync, held: seq<int>)
  {
    Inv(s.db, held) && InCents(s.db) && DepositsInCents(s.db) && ReleaseRowsOk(s) && KeysOk(s)
  }

  lemma ReleasePartTracks(s: Sync, u: nat, base: int, id: nat, part: int, rule: FeeRule)
    requires WellFormed(s.db) && OffPlatform(s.db.wallets, s.db.admin, u) && Tracks(s, u, base)
    requires CanReleasePart(s.db, id, part, rule) && WholeCents(part)
    ensures Tracks(s.(db := PayOut(SetContract(s.db, id, AfterPart(s.db.contracts[id], part)), id, part, FeeUnits(rule, part))), u, base)
  {
    var next := SetContract(s.db, id, AfterPart(s.db.contracts[id], part));
    ContractRowTracks(s, u, base, next.contracts);
    PayOutTracks(s.(db := next), u, base, id, part, FeeUnits(rule, part));
  }

  lemma ReleaseTracks(s: Sync, u: nat, base: int, id: nat, byAdmin: bool, rule: FeeRule)
    requires WellFormed(s.db) && OffPlatform(s.db.wallets, s.db.admin, u) && Tracks(s, u, base)
    requires CanRelease(s.db, id, byAdmin, rule)
    requires ContractOk(s.db.contracts[id]) && CentContract(s.db.contracts[id])
    ensures Tracks(s.(db := Release(s.db, id, byAdmin, rule)), u, base)
  {
    var c := s.db.contracts[id];
    if Remaining(c) > 0 {
      var next := SetContract(s.db, id, c.(status := Completed));
      ContractRowTracks(s, u, base, next.contracts);
      PayOutTracks(s.(db := next), u, base, id, Remaining(c), FeeUnits(rule, Remaining(c)));
    }
  }

  lemma QuietStepTracks(s: Sync, u: nat, base: int, e: Event)
    requires WellFormed(s.db) && Tracks(s, u, base)
    requires e.DoDispute? || e.DoCancel? || e.DoDetect?
    ensures Tracks(s.(db := Step(s.db, e)), u, base)
  {
  }

  lemma ReleasePartStepTracks(s: Sync, u: nat, base: int, id: nat, asked: int, rule: FeeRule)
    requires WellFormed(s.db) && OffPlatform(s.db.wallets, s.db.admin, u) && Tracks(s, u, base)
    ensures Tracks(s.(db := ReleasePart(s.db, id, asked, rule)), u, base)
  {
    if CanReleasePart(s.db, id, ToCents(asked), rule) {
      ReleasePartTracks(s, u, base, id, ToCents(asked), rule);
    }
  }

  lemma ReleaseStepTracks(s: Sync, u: nat, base: int, id: nat, byAdmin: bool, rule: FeeRule)
    requires WellFormed(s.db) && OffPlatform(s.db.wallets, s.db.admin, u) && Tracks(s, u, base)
    requires id < |s.db.contracts| ==> ContractOk(s.db.contracts[id]) && CentContract(s.db.contracts[id])
    ensures Tracks(s.(db := Release(s.db, id, byAdmin, rule)), u, base)
  {
    if CanRelease(s.db, id, byAdmin, rule) {
      ReleaseTracks(s, u, base, id, byAdmin, rule);
    }
  }

  lemma RefundStepTracks(s: Sync, held: seq<int>, u: nat, base: int, id: nat, byAdmin: bool)
    requires SimInv(s, held) && OffPlatform(s.db.wallets, s.db.admin, u) && Tracks(s, u, base)
    ensures Tracks(s.(db := Refund(s.db, id, byAdmin)), u, base)
  {
    if Closable(s.db, id, byAdmin) {
      RefundTracks(s, u, base, id, byAdmin);
    }
  }

  lemma CreditStepTracks(s: Sync, held: seq<int>, u: nat, base: int, id: nat)
    requires SimInv(s, held) && Tracks(s, u, base)
    ensures Tracks(s.(db := CreditDeposit(s.db, id)), u, base)
  {
    if CanCredit(s.db, id) {
      CreditTracks(s, u, base, id);
    }
  }

  lemma SendBackStepTracks(s: Sync, u: nat, base: int, from: nat, to: nat, amount: int)
    requires WellFormed(s.db) && Tracks(s, u, base) && (amount > 0 ==> WholeCents(amount))
    ensures Tracks(s.(db := SendBack(s.db, from, to, amount)), u, base)
  {
    if from < |s.db.wallets| && to < |s.db.wallets| && 0 < amount <= s.db.wallets[from].balance {
      SendBackTracks(s, u, base, from, to, amount);
    }
  }

  /** Each committed ledger transaction keeps the account exact for everyone but the platform. */
  lemma LedgerStepTracks(s: Sync, held: seq<int>, u: nat, base: int, e: Event)
    requires SimInv(s, held) && OffPlatform(s.db.wallets, s.db.admin, u) && Tracks(s, u, base)
    requires Regular(e)
    ensures Tracks(s.(db := Step(s.db, e)), u, base)
  {
    match e
    case DoCreate(buyer, seller, amount, rule) =>
      if CanCreate(s.db, buyer, seller, amount, rule) {
        CreateTracks(s, u, base, buyer, seller, amount, rule);
      }
    case DoReleasePart(id, asked, rule) => ReleasePartStepTracks(s, u, base, id, asked, rule);
    case DoRelease(id, byAdmin, rule) => ReleaseStepTracks(s, u, base, id, byAdmin, rule);
    case DoRefund(id, byAdmin) => RefundStepTracks(s, held, u, base, id, byAdmin);
    case DoSendBack(from, to, amount) => SendBackStepTracks(s, u, base, from, to, amount);
    case DoCreditDeposit(id) => CreditStepTracks(s, held, u, base, id);
    case _ => QuietStepTracks(s, u, base, e);
  }

  // ---------- when ledger and chain agree ----------

  predicate FeeTookAll(accounts: seq<Account>, u: nat, t: Txn)
  {
    t.kind == EscrowRelease && !t.settled && t.fee >= t.amount && AccountAt(accounts, t.receiver) == User(u)
  }

  ghost predicate NoFeeTookAll(s: Sync, u: nat)
  {
    forall i :: s.live <= i < |s.db.txns| ==> !FeeTookAll(Accounts(s.db.wallets), u, s.db.txns[i])
  }

  /** They agree for u exactly when the outbox had no release to pay to u whose fee took the whole part. */
  lemma AgreesIff(s: Sync, u: nat, base: int)
    requires Tracks(s, u, base) && ReleaseRowsOk(s)
    ensures Agrees(s, u, base) <==> NoFeeTookAll(s, u)
  {
    var f, rows := Overpaid(Accounts(s.db.wallets), u), Live(s);
    forall k | 0 <= k < |rows|
      ensures f(rows[k]) >= 0 && (f(rows[k]) > 0 <==> FeeTookAll(Accounts(s.db.wallets), u, s.db.txns[s.live + k]))
    {
      assert ReleaseRowOk(s.db.txns[s.live + k]);
    }
    if i :| s.live <= i < |s.db.txns| && FeeTookAll(Accounts(s.db.wallets), u, s.db.txns[i]) {
      TotalAtLeast(f, rows, i - s.live);
      assert f(rows[i - s.live]) > 0;
    } else {
      TotalZero(f, rows);
    }
  }

  /** A buyer with ten cents, a seller, and the platform wallet. */
  function SmallShop(): Db
  {
    Db([Wallet(10 * CENT, 0, User(0)), Wallet(0, 0, User(1)), Wallet(0, 0, Reserve)], [], [], [], Some(2))
  }

  /** Sixty percent of one cent is a cent. */
  lemma SixtyPercentTakesAll()
    ensures EditedRule(60.0) == Some(Percent(60.0)) && FeeUnits(Percent(60.0), CENT) == CENT
  {
  }

  lemma EscrowOpened(db: Db)
    requires db == SmallShop()
    ensures var r := Create(db, 0, 1, 2 * CENT, Percent(0.0));
            && r.contracts == [Contract(0, 1, 2 * CENT, 0, Active)] && r.admin == Some(2)
            && r.wallets == [Wallet(10 * CENT, 2 * CENT, User(0)), Wallet(0, 0, User(1)), Wallet(0, 0, Reserve)]
            && |r.txns| == 1 && r.txns[0].kind == EscrowLock
    ensures Tracks(Sync(Create(db, 0, 1, 2 * CENT, Percent(0.0)), [], 0), 1, 0)
  {
    assert FeeUnits(Percent(0.0), 2 * CENT) == 0 by {
      assert HalfUp(0.0) == 0;
    }
    assert Total(AvailableTo(1), db.wallets) == 0 by {
      TotalZero(AvailableTo(1), db.wallets);
    }
    CreateTracks(Sync(db, [], 0), 1, 0, 0, 1, 2 * CENT, Percent(0.0));
  }

  lemma OneCentReleased(mid: Db)
    requires WellFormed(mid) && mid.contracts == [Contract(0, 1, 2 * CENT, 0, Active)] && mid.admin == Some(2)
    requires |mid.wallets| == 3 && mid.wallets[1].account == User(1) && mid.wallets[2].account == Reserve
    requires |mid.txns| == 1 && mid.txns[0].kind == EscrowLock && Tracks(Sync(mid, [], 0), 1, 0)
    ensures !Agrees(Sync(ReleasePart(mid, 0, CENT, Percent(60.0)), [], 0), 1, 0)
  {
    SixtyPercentTakesAll();
    assert ToCents(CENT) == CENT;
    ReleasePartStepTracks(Sync(mid, [], 0), 1, 0, 0, CENT, Percent(60.0));
    var paid := SetContract(mid, 0, AfterPart(mid.contracts[0], CENT));
    PayOutMoved(paid, 1, 0, CENT, CENT);
    var r := ReleasePart(mid, 0, CENT, Percent(60.0));
    assert r.txns == mid.txns + [Txn(EscrowRelease, Some(0), Some(1), Some(0), CENT, CENT, 0, false, false)];
    AgreesIff(Sync(r, [], 0), 1, 0);
    assert FeeTookAll(Accounts(r.wallets), 1, r.txns[1]);
  }

  lemma ShopAgrees(db: Db)
    requires db == SmallShop()
    ensures WellFormed(db) && Agrees(Sync(db, [], 0), 1, 0)
  {
    TotalZero(AvailableTo(1), db.wallets);
  }

  lemma RunLast(db: Db, es: seq<Event>, e: Event)
    requires WellFormed(db)
    ensures Run(db, es + [e]) == Step(Run(db, es), e)
  {
  }

  lemma RunOfTwo(db: Db, a: Event, b: Event)
    requires WellFormed(db)
    ensures Run(db, [a, b]) == Step(Step(db, a), b)
  {
    RunLast(db, [], a);
    assert [] + [a] == [a];
    RunLast(db, [a], b);
    assert [a] + [b] == [a, b];
  }

  /**
   * An escrow and the release of one cent, both with rules the fee editor writes: the fee is the cent, the cent goes to the
   * seller as well, and ledger and chain no longer agree.
   */
  lemma OneCentReleaseDisagrees(db: Db) returns (es: seq<Event>)
    requires db == SmallShop()
    ensures forall i :: 0 <= i < |es| ==> Regular(es[i])
    ensures WellFormed(db) && Agrees(Sync(db, [], 0), 1, 0) && !Agrees(Sync(Run(db, es), [], 0), 1, 0)
  {
    var lock, pay := DoCreate(0, 1, 2 * CENT, Percent(0.0)), DoReleasePart(0, CENT, Percent(60.0));
    es := [lock, pay];
    RegularPair(lock, pay);
    ShopAgrees(db);
    RunOfTwo(db, lock, pay);
    LockAndPay(db, lock, pay);
  }

  lemma RegularPair(lock: Event, pay: Event)
    requires lock == DoCreate(0, 1, 2 * CENT, Percent(0.0)) && pay == DoReleasePart(0, CENT, Percent(60.0))
    ensures Regular(lock) && Regular(pay)
  {
  }

  lemma LockAndPay(db: Db, lock: Event, pay: Event)
    requires WellFormed(db) && db == SmallShop()
    requires lock == DoCreate(0, 1, 2 * CENT, Percent(0.0)) && pay == DoReleasePart(0, CENT, Percent(60.0))
    ensures !Agrees(Sync(Step(Step(db, lock), pay), [], 0), 1, 0)
  {
    EscrowOpened(db);
    OneCentReleased(Step(db, lock));
  }
}
