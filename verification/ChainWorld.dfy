/** Ledger, scans, senders and chain together, in any interleaving. */
module ChainWorld {
  import opened Wrappers
  import opened Sums
  import opened Fees
  import opened Ledger
  import opened EscrowProofs
  import opened OutboxRows
  import opened Simulation
  import D = Delivery

  datatype World = World(sync: Sync, delivery: D.State)

  datatype WorldEvent =
    | Commit(ledger: Event)       // a ledger transaction
    | Scan(ids: seq<nat>)         // the commit of a scan that read these transactions as unmarked
    | Deliver(delivery: D.Event)  // a step of some sender, or of the chain

  function RowsOf(entries: seq<D.Entry>): (rows: seq<Row>)
    ensures |rows| == |entries| && forall i :: 0 <= i < |rows| ==> rows[i] == entries[i].row
  {
    seq(|entries|, i requires 0 <= i < |entries| => entries[i].row)
  }

  function AppendAll(s: D.State, rows: seq<Row>): D.State
  {
    if rows == [] then s else D.Step(AppendAll(s, rows[..|rows| - 1]), D.Append(rows[|rows| - 1]))
  }

  function Next(w: World, e: WorldEvent): World
  {
    match e
    case Commit(ledger) =>
      if WellFormed(w.sync.db) then w.(sync := w.sync.(db := Step(w.sync.db, ledger))) else w
    case Scan(ids) =>
      if !Scannable(w.sync, ids) then w
      else
        var scanned := Enqueue(w.sync, ids);
        var added := if |scanned.outbox| >= |w.sync.outbox| then scanned.outbox[|w.sync.outbox|..] else [];
        World(scanned, AppendAll(w.delivery, added))
    case Deliver(delivery) =>
      if delivery.Append? then w else w.(delivery := D.Step(w.delivery, delivery))
  }

  /** What the argument assumes of each step: regular amounts and fees, safe claims and safe answers. */
  predicate Proper(w: World, e: WorldEvent)
  {
    match e
    case Commit(ledger) => Regular(ledger)
    case Scan(_) => true
    case Deliver(delivery) => D.SafeClaim(w.delivery, delivery) && D.SafeAnswer(w.delivery, delivery)
  }

  ghost predicate WorldInv(w: World, held: seq<int>)
  {
    SimInv(w.sync, held) && D.Inv(w.delivery) && RowsOf(w.delivery.entries) == w.sync.outbox
  }

  // ---------- a ledger transaction ----------

  predicate NewRowOk(t: Txn) { !t.enqueued && ReleaseRowOk(t) }

  /** A ledger transaction adds at most one unmarked row and moves no wallet to another account. */
  ghost predicate LedgerGrows(db: Db, r: Db)
  {
    && Accounts(r.wallets) == Accounts(db.wallets)
    && (r.txns == db.txns || (|r.txns| == |db.txns| + 1 && r.txns[..|db.txns|] == db.txns && NewRowOk(r.txns[|db.txns|])))
  }

  lemma ReleasePartGrows(db: Db, i: nat, asked: int, rule: FeeRule)
    requires WellFormed(db)
    ensures LedgerGrows(db, ReleasePart(db, i, asked, rule))
  {
  }

  lemma ReleaseGrows(db: Db, i: nat, byAdmin: bool, rule: FeeRule)
    requires WellFormed(db)
    ensures LedgerGrows(db, Release(db, i, byAdmin, rule))
  {
  }

  lemma StepGrows(db: Db, e: Event)
    requires WellFormed(db)
    ensures LedgerGrows(db, Step(db, e))
  {
    if e.DoReleasePart? {
      ReleasePartGrows(db, e.id, e.asked, e.rule);
    } else if e.DoRelease? {
      ReleaseGrows(db, e.id, e.byAdmin, e.rule);
    } else {
      if e.DoCreate? && CanCreate(db, e.buyer, e.seller, e.amount, e.rule) {
        CreateEffect(db, e.buyer, e.seller, e.amount, e.rule);
      }
      SameAccounts(Step(db, e).wallets, db.wallets);
    }
  }

  lemma GrowthKeepsKeys(s: Sync, r: Db)
    requires KeysOk(s) && LedgerGrows(s.db, r)
    ensures KeysOk(s.(db := r))
  {
  }

  lemma StepDepositsInCents(db: Db, e: Event)
    requires WellFormed(db) && DepositsInCents(db) && Regular(e)
    ensures DepositsInCents(Step(db, e))
  {
  }

  lemma CommitKeepsReleaseRows(s: Sync, e: Event)
    requires WellFormed(s.db) && ReleaseRowsOk(s) && LedgerGrows(s.db, Step(s.db, e))
    ensures ReleaseRowsOk(s.(db := Step(s.db, e)))
  {
    var r := Step(s.db, e);
    forall i | s.live <= i < |r.txns|
      ensures ReleaseRowOk(r.txns[i])
    {
      assert i < |s.db.txns| ==> r.txns[..|s.db.txns|][i] == s.db.txns[i];
    }
  }

  lemma CommitKeepsInv(w: World, held: seq<int>, e: Event)
    requires WorldInv(w, held) && Regular(e)
    ensures WorldInv(Next(w, Commit(e)), held)
  {
    StepKeepsInv(w.sync.db, held, e);
    StepInCents(w.sync.db, e);
    StepDepositsInCents(w.sync.db, e);
    StepGrows(w.sync.db, e);
    CommitKeepsReleaseRows(w.sync, e);
    GrowthKeepsKeys(w.sync, Step(w.sync.db, e));
  }

  // ---------- a scan ----------

  lemma {:induction false} AppendAllRows(s: D.State, rows: seq<Row>)
    requires D.Inv(s)
    ensures D.Inv(AppendAll(s, rows))
    ensures RowsOf(AppendAll(s, rows).entries) == RowsOf(s.entries) + rows
  {
    if rows == [] {
    } else {
      AppendAllRows(s, rows[..|rows| - 1]);
      D.StepKeepsInv(AppendAll(s, rows[..|rows| - 1]), D.Append(rows[|rows| - 1]));
    }
  }

  lemma {:induction false} InsertAllGrows(outbox: seq<Row>, rows: seq<Row>)
    ensures |InsertAll(outbox, rows)| >= |outbox| && InsertAll(outbox, rows)[..|outbox|] == outbox
  {
    if rows == [] {
    } else {
      InsertAllGrows(outbox, rows[..|rows| - 1]);
    }
  }

  lemma MarkKeepsLedgerInv(db: Db, held: seq<int>, ids: seq<nat>)
    requires Inv(db, held) && AllBelow(ids, |db.txns|)
    ensures Inv(db.(txns := MarkAll(db.txns, ids)), held)
  {
    var r := db.(txns := MarkAll(db.txns, ids));
    assert WellFormed(r) by {
      forall t | t in r.txns
        ensures InRange(t.sender, |r.wallets|) && InRange(t.receiver, |r.wallets|) && InRange(t.escrow, |r.contracts|)
      {
        var i :| 0 <= i < |r.txns| && r.txns[i] == t;
        assert db.txns[i] in db.txns;
      }
    }
    forall id | 0 <= id < |r.contracts|
      ensures Conserved(r, id)
    {
      assert Conserved(db, id);
      MarkKeepsFlow(db, ids, ToSeller, id);
      MarkKeepsFlow(db, ids, ToPlatform, id);
      MarkKeepsFlow(db, ids, ToBuyer, id);
    }
  }

  lemma {:induction false} MarkKeepsFlow(db: Db, ids: seq<nat>, flow: Flow, id: nat)
    requires AllBelow(ids, |db.txns|)
    ensures Total(FlowOf(flow, id), MarkAll(db.txns, ids)) == Moved(db, flow, id)
  {
    if ids == [] {
    } else {
      var before, last := ids[..|ids| - 1], ids[|ids| - 1];
      MarkKeepsFlow(db, before, flow, id);
      var mid := MarkAll(db.txns, before);
      TotalUpdate(FlowOf(flow, id), mid, last, mid[last].(enqueued := true));
    }
  }

  lemma ScanKeepsSimInv(s: Sync, held: seq<int>, ids: seq<nat>)
    requires SimInv(s, held) && Scannable(s, ids)
    ensures SimInv(Enqueue(s, ids), held)
  {
    EnqueueKeys(s, ids);
    MarkKeepsLedgerInv(s.db, held, ids);
  }

  lemma ScanKeepsRows(w: World, ids: seq<nat>)
    requires D.Inv(w.delivery) && RowsOf(w.delivery.entries) == w.sync.outbox && Scannable(w.sync, ids)
    ensures D.Inv(Next(w, Scan(ids)).delivery)
    ensures RowsOf(Next(w, Scan(ids)).delivery.entries) == Enqueue(w.sync, ids).outbox
  {
    var before, after := w.sync.outbox, Enqueue(w.sync, ids).outbox;
    InsertAllGrows(before, RowsFor(Accounts(w.sync.db.wallets), w.sync.db.txns, ids));
    assert after == before + after[|before|..];
    AppendAllRows(w.delivery, after[|before|..]);
    assert Next(w, Scan(ids)).delivery == AppendAll(w.delivery, after[|before|..]);
  }

  lemma ScanKeepsInv(w: World, held: seq<int>, ids: seq<nat>)
    requires WorldInv(w, held)
    ensures WorldInv(Next(w, Scan(ids)), held)
  {
    if Scannable(w.sync, ids) {
      ScanKeepsSimInv(w.sync, held, ids);
      ScanKeepsRows(w, ids);
    }
  }

  // ---------- a delivery step ----------

  lemma DeliverKeepsRows(s: D.State, e: D.Event)
    requires !e.Append?
    ensures RowsOf(D.Step(s, e).entries) == RowsOf(s.entries)
  {
  }

  lemma NextKeepsInv(w: World, held: seq<int>, e: WorldEvent)
    requires WorldInv(w, held) && Proper(w, e)
    ensures WorldInv(Next(w, e), held)
  {
    match e
    case Commit(ledger) => CommitKeepsInv(w, held, ledger);
    case Scan(ids) => ScanKeepsInv(w, held, ids);
    case Deliver(delivery) =>
      if !delivery.Append? {
        D.StepKeepsInv(w.delivery, delivery);
        DeliverKeepsRows(w.delivery, delivery);
      }
  }

  // ---------- going live ----------

  /** The outbox is switched on: every earlier transaction counts as handled, and nothing is queued. */
  ghost predicate GoesLive(w: World, held: seq<int>)
  {
    && Inv(w.sync.db, held) && InCents(w.sync.db) && DepositsInCents(w.sync.db)
    && w.sync.live == |w.sync.db.txns| && w.sync.outbox == [] && w.delivery == D.INITIAL
    && forall t :: 0 <= t < |w.sync.db.txns| ==> w.sync.db.txns[t].enqueued
  }

  /** The chain holds for u what the ledger says is available and credited. */
  ghost predicate Matched(w: World, u: nat, base: int)
  {
    CENT * base + Total(CreditedFarm(Accounts(w.sync.db.wallets), u), w.sync.db.deposits)
    == Total(AvailableTo(u), w.sync.db.wallets)
  }

  /** From there everything the runs need holds, and the account is exact when and only when chain and ledger were matched first. */
  lemma GoLiveTracksIff(w: World, held: seq<int>, u: nat, base: int)
    requires GoesLive(w, held)
    ensures WorldInv(w, held) && (Tracks(w.sync, u, base) <==> Matched(w, u, base))
  {
    TotalZero(Waiting(Accounts(w.sync.db.wallets), u), w.sync.db.txns);
    assert Total(Effect(u), w.sync.outbox) == 0;
  }

  // ---------- agreement in every run ----------

  /** FARM the chain holds for u, in ledger units: the opening amount, confirmed transfers, and transfers from outside. */
  function ChainFarm(w: World, u: nat, base: int): int
  {
    CENT * (base + Total(D.OnChain(Effect(u), w.delivery.entries), w.delivery.log))
    + Total(Arrived(Accounts(w.sync.db.wallets), u), w.sync.db.deposits)
  }

  function Unsent(w: World, u: nat): int
  {
    CENT * Total(D.Undelivered(Effect(u), w.delivery.log), w.delivery.entries)
  }

  function Unscanned(w: World, u: nat): int
  {
    CENT * Total(Waiting(Accounts(w.sync.db.wallets), u), w.sync.db.txns)
  }

  function Arrived(accounts: seq<Account>, u: nat): ChainDeposit -> int
  {
    (d: ChainDeposit) => if d.isFarm && AccountAt(accounts, Some(d.wallet)) == User(u) then d.farm else 0
  }

  function Uncredited(accounts: seq<Account>, u: nat): ChainDeposit -> int
  {
    (d: ChainDeposit) => if d.isFarm && !d.credited && AccountAt(accounts, Some(d.wallet)) == User(u) then d.farm else 0
  }

  lemma {:induction false} RowWeights(f: Row -> int, entries: seq<D.Entry>)
    ensures Total(D.RowWeight(f), entries) == Total(f, RowsOf(entries))
  {
    if entries == [] {
    } else {
      RowWeights(f, entries[..|entries| - 1]);
      assert RowsOf(entries)[..|entries| - 1] == RowsOf(entries[..|entries| - 1]);
    }
  }

  lemma NextTracks(w: World, held: seq<int>, u: nat, base: int, e: WorldEvent)
    requires WorldInv(w, held) && Proper(w, e)
    requires OffPlatform(w.sync.db.wallets, w.sync.db.admin, u) && Tracks(w.sync, u, base)
    ensures Tracks(Next(w, e).sync, u, base)
    ensures OffPlatform(Next(w, e).sync.db.wallets, Next(w, e).sync.db.admin, u)
  {
    match e
    case Commit(ledger) =>
      LedgerStepTracks(w.sync, held, u, base, ledger);
      StepGrows(w.sync.db, ledger);
      var ws, next := w.sync.db.wallets, Step(w.sync.db, ledger).wallets;
      assert forall i :: 0 <= i < |ws| ==> next[i].account == Accounts(next)[i] == Accounts(ws)[i] == ws[i].account;
    case Scan(ids) =>
      if Scannable(w.sync, ids) {
        ScanTracks(w.sync, u, base, ids);
      }
    case Deliver(_) =>
  }

  function After(w: World, es: seq<WorldEvent>): World
  {
    if es == [] then w else Next(After(w, es[..|es| - 1]), es[|es| - 1])
  }

  ghost predicate ProperRun(w: World, es: seq<WorldEvent>)
  {
    es == [] || (ProperRun(w, es[..|es| - 1]) && Proper(After(w, es[..|es| - 1]), es[|es| - 1]))
  }

  lemma {:induction false} RunTracks(w: World, held: seq<int>, u: nat, base: int, es: seq<WorldEvent>)
    requires WorldInv(w, held) && ProperRun(w, es)
    requires OffPlatform(w.sync.db.wallets, w.sync.db.admin, u) && Tracks(w.sync, u, base)
    ensures WorldInv(After(w, es), held) && Tracks(After(w, es).sync, u, base)
    ensures OffPlatform(After(w, es).sync.db.wallets, After(w, es).sync.db.admin, u)
  {
    if es == [] {
    } else {
      var before := After(w, es[..|es| - 1]);
      RunTracks(w, held, u, base, es[..|es| - 1]);
      NextKeepsInv(before, held, es[|es| - 1]);
      NextTracks(before, held, u, base, es[|es| - 1]);
    }
  }

  /** The fees of releases to u that took the whole part, and were paid to u as well. */
  function Overrun(w: World, u: nat): int
    requires w.sync.live <= |w.sync.db.txns|
  {
    Total(Overpaid(Accounts(w.sync.db.wallets), u), Live(w.sync))
  }

  /**
   * In every proper run, for every user off the platform wallet: what the chain holds, plus what is queued, plus what is
   * not scanned yet, is what the ledger says is available, plus FARM received and not credited yet, plus the overrun.
   */
  lemma LedgerMatchesChain(w: World, held: seq<int>, u: nat, base: int, es: seq<WorldEvent>)
    requires WorldInv(w, held) && ProperRun(w, es)
    requires OffPlatform(w.sync.db.wallets, w.sync.db.admin, u) && Tracks(w.sync, u, base)
    ensures var r := After(w, es);
            && r.sync.live <= |r.sync.db.txns|
            && ChainFarm(r, u, base) + Unsent(r, u) + Unscanned(r, u)
               == Total(AvailableTo(u), r.sync.db.wallets)
                  + Total(Uncredited(Accounts(r.sync.db.wallets), u), r.sync.db.deposits) + Overrun(r, u)
  {
    RunTracks(w, held, u, base, es);
    Reconciled(After(w, es), held, u, base);
  }

  lemma Reconciled(w: World, held: seq<int>, u: nat, base: int)
    requires WorldInv(w, held) && Tracks(w.sync, u, base)
    ensures ChainFarm(w, u, base) + Unsent(w, u) + Unscanned(w, u)
         == Total(AvailableTo(u), w.sync.db.wallets)
            + Total(Uncredited(Accounts(w.sync.db.wallets), u), w.sync.db.deposits) + Overrun(w, u)
  {
    var accounts := Accounts(w.sync.db.wallets);
    D.ChainPlusUndelivered(w.delivery, Effect(u));
    RowWeights(Effect(u), w.delivery.entries);
    TotalPlus(CreditedFarm(accounts, u), Uncredited(accounts, u), Arrived(accounts, u), w.sync.db.deposits);
  }

  /** After every proper run, ledger and chain agree for u exactly when no fee of a release to u took the whole part. */
  lemma RunAgreesIff(w: World, held: seq<int>, u: nat, base: int, es: seq<WorldEvent>)
    requires WorldInv(w, held) && ProperRun(w, es)
    requires OffPlatform(w.sync.db.wallets, w.sync.db.admin, u) && Tracks(w.sync, u, base)
    ensures Agrees(After(w, es).sync, u, base) <==> NoFeeTookAll(After(w, es).sync, u)
  {
    RunTracks(w, held, u, base, es);
    AgreesIff(After(w, es).sync, u, base);
  }
}
