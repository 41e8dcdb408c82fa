/** How completed ledger transactions become on-chain legs, each exactly once. */
module OutboxRows {
  import opened Wrappers
  import opened Sums
  import opened Fees
  import opened Ledger

  datatype Leg = MainLeg | FeeLeg

  /** One row of the outbox: FARM cents to move between two custodial accounts, or to or from the reserve. */
  datatype Row = Row(txn: nat, leg: Leg, from: Account, to: Account, units: int)

  function Accounts(ws: seq<Wallet>): (a: seq<Account>)
    ensures |a| == |ws| && forall w :: 0 <= w < |ws| ==> a[w] == ws[w].account
  {
    seq(|ws|, w requires 0 <= w < |ws| => ws[w].account)
  }

  /** The account behind a wallet; a missing wallet stands for the reserve. */
  function AccountAt(accounts: seq<Account>, w: Option<nat>): Account
  {
    if w.Some? && w.value < |accounts| then accounts[w.value] else Reserve
  }

  /** FARM has two decimals on chain; anything finer is dropped. */
  function ToUnits(v: int): int { v / CENT }

  /** Whole cents move on chain; what is less than a cent stays behind. */
  lemma WholeCentsMove(v: int)
    ensures CENT * ToUnits(v) <= v < CENT * (ToUnits(v) + 1)
  {
  }

  /** A released escrow was locked into the reserve, so it is paid out of the reserve. */
  function Source(accounts: seq<Account>, t: Txn): Account
  {
    if t.kind == EscrowRelease then Reserve else AccountAt(accounts, t.sender)
  }

  function NetUnits(t: Txn): int { ToUnits(if t.net > 0 then t.net else t.amount) }

  function ChargedUnits(t: Txn): int { if ToUnits(t.fee) > 0 && t.sender.Some? then ToUnits(t.fee) else 0 }

  function Kept1(row: Row): seq<Row>
  {
    if row.units <= 0 || row.from == row.to then [] else [row]
  }

  function LegsOf(accounts: seq<Account>, id: nat, t: Txn): seq<Row>
  {
    if t.settled then []
    else
      var from, to := Source(accounts, t), AccountAt(accounts, t.receiver);
      Kept1(Row(id, MainLeg, from, to, NetUnits(t))) + Kept1(Row(id, FeeLeg, from, Reserve, ChargedUnits(t)))
  }

  predicate AllBelow(ids: seq<nat>, n: nat)
  {
    forall k :: 0 <= k < |ids| ==> ids[k] < n
  }

  function RowsFor(accounts: seq<Account>, txns: seq<Txn>, ids: seq<nat>): seq<Row>
    requires AllBelow(ids, |txns|)
  {
    if ids == [] then []
    else RowsFor(accounts, txns, ids[..|ids| - 1]) + LegsOf(accounts, ids[|ids| - 1], txns[ids[|ids| - 1]])
  }

  predicate SameKey(a: Row, b: Row) { a.txn == b.txn && a.leg == b.leg }

  predicate HasKey(outbox: seq<Row>, row: Row)
  {
    exists i :: 0 <= i < |outbox| && SameKey(outbox[i], row)
  }

  ghost predicate AllHaveKeys(outbox: seq<Row>, rows: seq<Row>)
  {
    forall k :: 0 <= k < |rows| ==> HasKey(outbox, rows[k])
  }

  function Insert(outbox: seq<Row>, row: Row): seq<Row>
  {
    if HasKey(outbox, row) then outbox else outbox + [row]
  }

  /** Insertion that skips rows whose (transaction, leg) is already there. */
  function InsertAll(outbox: seq<Row>, rows: seq<Row>): seq<Row>
  {
    if rows == [] then outbox else Insert(InsertAll(outbox, rows[..|rows| - 1]), rows[|rows| - 1])
  }

  function Mark(txns: seq<Txn>, id: nat): seq<Txn>
    requires id < |txns|
  {
    txns[id := txns[id].(enqueued := true)]
  }

  function MarkAll(txns: seq<Txn>, ids: seq<nat>): (r: seq<Txn>)
    requires AllBelow(ids, |txns|)
    ensures |r| == |txns|
    ensures forall i :: 0 <= i < |txns| ==> r[i] == if i in ids then txns[i].(enqueued := true) else txns[i]
  {
    if ids == [] then txns
    else
      assert ids == ids[..|ids| - 1] + [ids[|ids| - 1]];
      Mark(MarkAll(txns, ids[..|ids| - 1]), ids[|ids| - 1])
  }

  /** Ledger rows and outbox rows. Transactions before `live` were already on chain when the outbox was switched on. */
  datatype Sync = Sync(db: Db, outbox: seq<Row>, live: nat)

  predicate Scannable(s: Sync, ids: seq<nat>)
  {
    AllBelow(ids, |s.db.txns|) && forall k :: 0 <= k < |ids| ==> s.live <= ids[k]
  }

  /** The commit of one scan: `ids` are what the scan read as unmarked, perhaps marked by another scan since. */
  function Enqueue(s: Sync, ids: seq<nat>): Sync
    requires Scannable(s, ids)
  {
    s.(outbox := InsertAll(s.outbox, RowsFor(Accounts(s.db.wallets), s.db.txns, ids)),
       db := s.db.(txns := MarkAll(s.db.txns, ids)))
  }

  // ---------- one row per leg ----------

  ghost predicate KeysOk(s: Sync)
  {
    && s.live <= |s.db.txns|
    && (forall i :: 0 <= i < |s.outbox| ==> s.live <= s.outbox[i].txn < |s.db.txns| && s.db.txns[s.outbox[i].txn].enqueued)
    && (forall i, j :: 0 <= i < j < |s.outbox| ==> !SameKey(s.outbox[i], s.outbox[j]))
    && (forall id :: s.live <= id < |s.db.txns| && s.db.txns[id].enqueued ==> Covered(s, id))
  }

  ghost predicate Covered(s: Sync, id: nat)
    requires id < |s.db.txns|
  {
    AllHaveKeys(s.outbox, LegsOf(Accounts(s.db.wallets), id, s.db.txns[id]))
  }

  lemma {:induction false} InsertAllConcat(outbox: seq<Row>, a: seq<Row>, b: seq<Row>)
    ensures InsertAll(outbox, a + b) == InsertAll(InsertAll(outbox, a), b)
  {
    if b == [] {
      assert a + b == a;
    } else {
      assert (a + b)[..|a + b| - 1] == a + b[..|b| - 1];
      InsertAllConcat(outbox, a, b[..|b| - 1]);
    }
  }

  function EnqueueOne(s: Sync, id: nat): Sync
    requires s.live <= id < |s.db.txns|
  {
    s.(outbox := InsertAll(s.outbox, LegsOf(Accounts(s.db.wallets), id, s.db.txns[id])),
       db := s.db.(txns := Mark(s.db.txns, id)))
  }

  /** Committing a scan is committing its transactions one by one. */
  lemma EnqueueSplit(s: Sync, ids: seq<nat>)
    requires Scannable(s, ids) && ids != []
    ensures var before, last := ids[..|ids| - 1], ids[|ids| - 1];
            Scannable(s, before) && Enqueue(s, ids) == EnqueueOne(Enqueue(s, before), last)
  {
    var before, last := ids[..|ids| - 1], ids[|ids| - 1];
    var accounts := Accounts(s.db.wallets);
    var mid := Enqueue(s, before);
    InsertAllConcat(s.outbox, RowsFor(accounts, s.db.txns, before), LegsOf(accounts, last, s.db.txns[last]));
    assert mid.db.txns[last] == s.db.txns[last] || mid.db.txns[last] == s.db.txns[last].(enqueued := true);
    assert LegsOf(accounts, last, mid.db.txns[last]) == LegsOf(accounts, last, s.db.txns[last]);
  }

  lemma InsertNew(outbox: seq<Row>, rows: seq<Row>)
    requires |rows| <= 2 && (|rows| == 2 ==> !SameKey(rows[0], rows[1]))
    requires forall k :: 0 <= k < |rows| ==> !HasKey(outbox, rows[k])
    ensures InsertAll(outbox, rows) == outbox + rows
  {
  }

  lemma {:induction false} InsertOld(outbox: seq<Row>, rows: seq<Row>)
    requires AllHaveKeys(outbox, rows)
    ensures InsertAll(outbox, rows) == outbox
  {
    if rows == [] {
    } else {
      InsertOld(outbox, rows[..|rows| - 1]);
    }
  }

  lemma LegsShape(accounts: seq<Account>, id: nat, t: Txn)
    ensures var rows := LegsOf(accounts, id, t);
            && |rows| <= 2 && (forall k :: 0 <= k < |rows| ==> rows[k].txn == id)
            && (|rows| == 2 ==> rows[0].leg == MainLeg && rows[1].leg == FeeLeg)
  {
  }

  /** A transaction already marked adds no row; one not marked adds exactly its legs. */
  lemma EnqueueOneRows(s: Sync, id: nat)
    requires KeysOk(s) && s.live <= id < |s.db.txns|
    ensures EnqueueOne(s, id).outbox
         == if s.db.txns[id].enqueued then s.outbox
            else s.outbox + LegsOf(Accounts(s.db.wallets), id, s.db.txns[id])
  {
    var legs := LegsOf(Accounts(s.db.wallets), id, s.db.txns[id]);
    LegsShape(Accounts(s.db.wallets), id, s.db.txns[id]);
    if s.db.txns[id].enqueued {
      assert Covered(s, id);
      InsertOld(s.outbox, legs);
    } else {
      forall k | 0 <= k < |legs|
        ensures !HasKey(s.outbox, legs[k])
      {
        forall i | 0 <= i < |s.outbox|
          ensures !SameKey(s.outbox[i], legs[k])
        {
          assert s.db.txns[s.outbox[i].txn].enqueued;
        }
      }
      InsertNew(s.outbox, legs);
    }
  }

  lemma HasKeyBefore(outbox: seq<Row>, more: seq<Row>, row: Row)
    requires HasKey(outbox, row)
    ensures HasKey(outbox + more, row)
  {
    var i :| 0 <= i < |outbox| && SameKey(outbox[i], row);
    assert SameKey((outbox + more)[i], row);
  }

  lemma OldKeysStay(outbox: seq<Row>, added: seq<Row>, rows: seq<Row>)
    requires AllHaveKeys(outbox, rows)
    ensures AllHaveKeys(outbox + added, rows)
  {
    forall k | 0 <= k < |rows|
      ensures HasKey(outbox + added, rows[k])
    {
      HasKeyBefore(outbox, added, rows[k]);
    }
  }

  lemma AddedKeysFound(outbox: seq<Row>, added: seq<Row>)
    ensures AllHaveKeys(outbox + added, added)
  {
    forall k | 0 <= k < |added|
      ensures HasKey(outbox + added, added[k])
    {
      assert (outbox + added)[|outbox| + k] == added[k];
      assert SameKey((outbox + added)[|outbox| + k], added[k]);
    }
  }

  lemma MarkKeepsLegs(accounts: seq<Account>, txns: seq<Txn>, id: nat, k: nat)
    requires id < |txns| && k < |txns|
    ensures LegsOf(accounts, k, Mark(txns, id)[k]) == LegsOf(accounts, k, txns[k])
  {
  }

  lemma CoveredAfter(s: Sync, id: nat, k: nat)
    requires s.live <= id < |s.db.txns| && s.live <= k < |s.db.txns|
    requires EnqueueOne(s, id).outbox == s.outbox + LegsOf(Accounts(s.db.wallets), id, s.db.txns[id])
    requires k == id || Covered(s, k)
    ensures Covered(EnqueueOne(s, id), k)
  {
    var accounts := Accounts(s.db.wallets);
    MarkKeepsLegs(accounts, s.db.txns, id, k);
    if k == id {
      AddedKeysFound(s.outbox, LegsOf(accounts, id, s.db.txns[id]));
    } else {
      OldKeysStay(s.outbox, LegsOf(accounts, id, s.db.txns[id]), LegsOf(accounts, k, s.db.txns[k]));
    }
  }

  lemma FreshKeys(s: Sync, id: nat)
    requires KeysOk(s) && s.live <= id < |s.db.txns| && !s.db.txns[id].enqueued
    ensures forall i :: 0 <= i < |s.outbox| ==> s.outbox[i].txn != id
  {
  }

  lemma EnqueueOneKeys(s: Sync, id: nat)
    requires KeysOk(s) && s.live <= id < |s.db.txns|
    ensures KeysOk(EnqueueOne(s, id))
  {
    EnqueueOneRows(s, id);
    var r := EnqueueOne(s, id);
    if s.db.txns[id].enqueued {
      assert r.db.txns == s.db.txns;
      assert r == s;
    } else {
      LegsShape(Accounts(s.db.wallets), id, s.db.txns[id]);
      FreshKeys(s, id);
      forall k | r.live <= k < |r.db.txns| && r.db.txns[k].enqueued
        ensures Covered(r, k)
      {
        CoveredAfter(s, id, k);
      }
    }
  }

  /** However often and however late scans commit, the outbox has at most one row per transaction and leg. */
  lemma {:induction false} EnqueueKeys(s: Sync, ids: seq<nat>)
    requires KeysOk(s) && Scannable(s, ids)
    ensures KeysOk(Enqueue(s, ids))
  {
    if ids == [] {
    } else {
      EnqueueSplit(s, ids);
      EnqueueKeys(s, ids[..|ids| - 1]);
      EnqueueOneKeys(Enqueue(s, ids[..|ids| - 1]), ids[|ids| - 1]);
    }
  }
}
