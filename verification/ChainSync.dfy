/**
 * The chain sync service in its own form. Scanning turns ledger transactions into outbox rows in loops; processing sends
 * the rows that are due, one after another. Every step on a row is a step of the protocol in Delivery, kept in `trace`.
 */
module ChainSync {
  import opened Wrappers
  import opened Sums
  import opened Fees
  import L = Ledger
  import opened OutboxRows
  import opened Delivery
  import W = ChainWorld

  /** What the outside world answers while one row is processed. */
  datatype Weather = Weather(
    stillPending: bool,   // an unconfirmed previous transfer is reported as pending
    internal: bool,       // the destination is a FARM account
    funded: bool,         // the sender holds enough on chain
    signer: bool,         // the sender's key is available
    lastValid: nat,       // of the transfer to be signed
    reaches: bool,        // the submission reaches the network
    confirms: bool,       // the network takes it while it is waited for
    notified: bool)       // and the wait returns

  class Worker {
    var db: L.Db
    const live: nat
    var entries: seq<Entry>
    var log: seq<Signed>
    var round: nat
    var busy: bool
    ghost var attempts: seq<Attempt>
    ghost var trace: seq<Event>

    ghost function Now(): State
      reads this
    {
      State(entries, attempts, log, round)
    }

    /** The outbox is a run of the protocol in which every claim and every answer was safe. */
    ghost predicate Valid()
      reads this
    {
      Run(INITIAL, trace) == Now() && SafeRun(INITIAL, trace)
    }

    /** The outbox is switched on with every earlier transaction counted as handled. */
    constructor (db: L.Db)
      ensures Valid() && Now() == INITIAL && this.db == db && live == |db.txns| && !busy
    {
      this.db, live := db, |db.txns|;
      entries, log, round, busy, attempts, trace := [], [], 0, false, [], [];
    }

    ghost method Note(before: State, e: Event)
      requires Run(INITIAL, trace) == before && SafeRun(INITIAL, trace)
      requires SafeClaim(before, e) && SafeAnswer(before, e)
      requires Step(before, e) == Now().(attempts := Step(before, e).attempts)
      modifies this`attempts, this`trace
      ensures Valid() && Now() == Step(before, e) && trace == old(trace) + [e]
    {
      attempts, trace := Step(before, e).attempts, trace + [e];
      assert trace[..|trace| - 1] == old(trace);
    }

    // ---------- ledger to outbox ----------

    /** The oldest unmarked transactions, `limit` at most. */
    method FindUnmarked(limit: nat) returns (ids: seq<nat>)
      ensures AllBelow(ids, |db.txns|) && |ids| <= limit
      ensures forall k :: 0 <= k < |ids| ==> live <= ids[k] && !db.txns[ids[k]].enqueued
      ensures forall i :: live <= i < |db.txns| && !db.txns[i].enqueued && NotCut(ids, limit, i) ==> i in ids
    {
      ids := [];
      var i := live;
      while i < |db.txns| && |ids| < limit
        invariant live <= i && (i <= |db.txns| || ids == []) && |ids| <= limit
        invariant AllBelow(ids, |db.txns|)
        invariant forall k :: 0 <= k < |ids| ==> live <= ids[k] < i && !db.txns[ids[k]].enqueued
        invariant forall j :: live <= j < i && j < |db.txns| && !db.txns[j].enqueued ==> j in ids
      {
        if !db.txns[i].enqueued {
          ids := ids + [i];
        }
        i := i + 1;
      }
    }

    /** The legs of one transaction: net amount to the receiver, fee to the reserve. */
    method BuildLegs(accounts: seq<L.Account>, id: nat, t: L.Txn) returns (rows: seq<Row>)
      ensures rows == LegsOf(accounts, id, t)
    {
      rows := [];
      if t.settled {
        return;
      }
      var from := if t.kind == L.EscrowRelease then L.Reserve else AccountAt(accounts, t.sender);
      var to := AccountAt(accounts, t.receiver);
      var net := ToUnits(if t.net > 0 then t.net else t.amount);
      var fee := ToUnits(t.fee);
      if net > 0 && from != to {
        rows := rows + [Row(id, MainLeg, from, to, net)];
      }
      if fee > 0 && t.sender.Some? && from != L.Reserve {
        rows := rows + [Row(id, FeeLeg, from, L.Reserve, fee)];
      }
    }

    method BuildRows(ids: seq<nat>) returns (rows: seq<Row>)
      requires AllBelow(ids, |db.txns|)
      ensures rows == RowsFor(Accounts(db.wallets), db.txns, ids)
    {
      rows := [];
      var accounts := Accounts(db.wallets);
      for k := 0 to |ids|
        invariant rows == RowsFor(accounts, db.txns, ids[..k])
      {
        assert ids[..k + 1][..k] == ids[..k];
        var legs := BuildLegs(accounts, ids[k], db.txns[ids[k]]);
        rows := rows + legs;
      }
      assert ids[..|ids|] == ids;
    }

    method AppendRow(row: Row)
      requires Valid()
      modifies this`entries, this`attempts, this`trace
      ensures Valid() && attempts == old(attempts) && entries == old(entries) + [Entry(row, Queued, None, 0, 0)]
      ensures W.RowsOf(entries) == W.RowsOf(old(entries)) + [row]
    {
      ghost var before := Now();
      entries := entries + [Entry(row, Queued, None, 0, 0)];
      Note(before, Append(row));
    }

    /** Insertion that skips rows whose transaction and leg are already there. */
    method CreateMany(rows: seq<Row>) returns (count: nat)
      requires Valid()
      modifies this`entries, this`attempts, this`trace
      ensures Valid() && attempts == old(attempts)
      ensures W.RowsOf(entries) == InsertAll(W.RowsOf(old(entries)), rows)
      ensures |entries| == |old(entries)| + count && Added(entries, old(entries))
    {
      count := 0;
      for j := 0 to |rows|
        invariant Valid() && attempts == old(attempts)
        invariant W.RowsOf(entries) == InsertAll(W.RowsOf(old(entries)), rows[..j])
        invariant |entries| == |old(entries)| + count && Added(entries, old(entries))
      {
        assert rows[..j + 1][..j] == rows[..j];
        var known := HasKey(W.RowsOf(entries), rows[j]);
        if !known {
          AppendRow(rows[j]);
          count := count + 1;
        }
      }
      assert rows[..|rows|] == rows;
    }

    method MarkEnqueued(ids: seq<nat>)
      requires AllBelow(ids, |db.txns|)
      modifies this`db
      ensures db == old(db).(txns := MarkAll(old(db).txns, ids))
    {
      for j := 0 to |ids|
        invariant db == old(db).(txns := MarkAll(old(db).txns, ids[..j]))
      {
        assert ids[..j + 1][..j] == ids[..j];
        db := db.(txns := db.txns[ids[j] := db.txns[ids[j]].(enqueued := true)]);
      }
      assert ids[..|ids|] == ids;
    }

    /** One scan: its rows and its marks are committed together. */
    method EnqueueScan(limit: nat) returns (count: nat, ghost ids: seq<nat>)
      requires Valid()
      modifies this`db, this`entries, this`attempts, this`trace
      ensures Valid() && attempts == old(attempts) && |entries| == |old(entries)| + count && Added(entries, old(entries))
      ensures old(Scannable(Sync(db, W.RowsOf(entries), live), ids))
      ensures Sync(db, W.RowsOf(entries), live) == Enqueue(Sync(old(db), W.RowsOf(old(entries)), live), ids)
      ensures |ids| < limit ==> forall i :: live <= i < |db.txns| ==> db.txns[i].enqueued
    {
      var found := FindUnmarked(limit);
      ids := found;
      var rows := BuildRows(found);
      count := CreateMany(rows);
      MarkEnqueued(found);
    }

    // ---------- outbox to chain ----------

    /** Only row i and attempt k have moved, and what was signed before is still on the log. */
    twostate predicate OnlyMoved(i: nat, k: nat)
      reads this
    {
      && |entries| == |old(entries)| && |attempts| == |old(attempts)| && i < |entries| && k < |attempts|
      && entries == old(entries)[i := entries[i]] && attempts == old(attempts)[k := attempts[k]]
      && entries[i].row == old(entries)[i].row
    }

    /** The outcome of an attempt, written to its row. */
    method Finish(i: nat, status: Status, ghost k: nat, ghost e: Event)
      requires Valid() && k < |attempts| && attempts[k].entry == i && i < |entries|
      requires e == Refuse(k, status) || (e == MarkSent(k) && status == Sent) || (e == Acknowledge(k, false) && status == Failed)
      requires e.Refuse? ==> attempts[k].stage == Checked && (status == Failed || status == Blocked)
      requires e.MarkSent? ==> attempts[k].stage == Acknowledged
      requires e.Acknowledge? ==> InStored(Now(), k)
      modifies this`entries, this`attempts, this`trace
      ensures Valid() && OnlyMoved(i, k) && entries[i] == old(entries)[i].(status := status) && attempts[k].stage == Done
    {
      ghost var before := Now();
      entries := entries[i := entries[i].(status := status)];
      Note(before, e);
    }

    /** The compare-and-set: the row must still have the status that was read. */
    method ClaimRow(i: nat, seen: Entry, ghost k: nat) returns (claimed: bool)
      requires Valid() && i < |entries| && k < |attempts|
      requires attempts[k] == Attempt(i, seen.status, seen.txId, seen.lastValid, Read)
      requires entries[i].status == seen.status ==> entries[i].txId == seen.txId
      modifies this`entries, this`attempts, this`trace
      ensures Valid() && OnlyMoved(i, k)
      ensures claimed == (old(entries)[i].status == seen.status)
      ensures claimed ==> attempts[k] == Attempt(i, seen.status, seen.txId, seen.lastValid, Claimed)
                          && entries[i] == old(entries)[i].(status := Sending, tries := old(entries)[i].tries + 1)
      ensures !claimed ==> entries == old(entries)
    {
      ghost var before := Now();
      claimed := entries[i].status == seen.status;
      if claimed {
        entries := entries[i := entries[i].(status := Sending, tries := entries[i].tries + 1)];
      }
      Note(before, Claim(k));
    }

    /** What the network says of a transfer. */
    method TxStatus(tx: nat, stillPending: bool) returns (answer: Answer)
      ensures answer == IsConfirmed <==> tx < |log| && log[tx].fate == Confirmed
      ensures answer == IsPending <==> stillPending && !(tx < |log| && log[tx].fate == Confirmed)
    {
      if tx < |log| && log[tx].fate == Confirmed {
        return IsConfirmed;
      }
      answer := if stillPending then IsPending else IsUnknown;
    }

    /** A previous attempt may have reached the chain: nothing is resent before it has confirmed or expired. */
    method CheckPrevious(i: nat, seen: Entry, stillPending: bool, ghost k: nat) returns (settled: bool, sent: bool)
      requires Valid() && i < |entries| && k < |attempts| && entries[i].txId == seen.txId
      requires attempts[k] == Attempt(i, seen.status, seen.txId, seen.lastValid, Claimed)
      modifies this`entries, this`attempts, this`trace
      ensures Valid() && OnlyMoved(i, k)
      ensures settled ==> entries[i] == old(entries)[i].(status := if sent then Sent else Failed)
      ensures !settled ==> !sent && entries == old(entries) && At(Now(), k, Checked) && attempts[k].entry == i
      ensures sent <==> Landed(seen, log)
      ensures settled <==> !Clear(seen, log, stillPending, round)
    {
      if seen.txId.None? {
        Note(Now(), Ask(k, IsUnknown));
        return false, false;
      }
      var answer := AskStatus(i, seen, stillPending, k);
      settled, sent := answer != IsUnknown, answer == IsConfirmed;
      if !settled {
        settled := RoundToWaitFor(i, seen, k);
      }
    }

    /** The network is asked for the status of the stored transfer. */
    method AskStatus(i: nat, seen: Entry, stillPending: bool, ghost k: nat) returns (answer: Answer)
      requires Valid() && i < |entries| && k < |attempts| && entries[i].txId == seen.txId && seen.txId.Some?
      requires attempts[k] == Attempt(i, seen.status, seen.txId, seen.lastValid, Claimed)
      modifies this`entries, this`attempts, this`trace
      ensures Valid() && OnlyMoved(i, k)
      ensures answer == IsConfirmed <==> Landed(seen, log)
      ensures answer == IsPending <==> stillPending && !Landed(seen, log)
      ensures answer != IsUnknown ==> entries[i] == old(entries)[i].(status := if answer == IsConfirmed then Sent else Failed)
      ensures answer == IsUnknown ==> entries == old(entries) && attempts[k] == old(attempts)[k].(stage := Asked)
    {
      ghost var before := Now();
      answer := TxStatus(seen.txId.value, stillPending);
      if answer != IsUnknown {
        entries := entries[i := entries[i].(status := if answer == IsConfirmed then Sent else Failed)];
      }
      Note(before, Ask(k, answer));
    }

    /** The round is asked for after the status: a transfer that is still valid is waited for. */
    method RoundToWaitFor(i: nat, seen: Entry, ghost k: nat) returns (wait: bool)
      requires Valid() && i < |entries| && seen.txId.Some?
      requires seen.txId.value < |log| ==> log[seen.txId.value].fate != Confirmed
      requires At(Now(), k, Asked) && attempts[k].entry == i && entries[i].txId == seen.txId
      requires attempts[k].txId == seen.txId && attempts[k].lastValid == seen.lastValid
      modifies this`entries, this`attempts, this`trace
      ensures Valid() && OnlyMoved(i, k) && wait == (round <= seen.lastValid)
      ensures wait ==> entries[i] == old(entries)[i].(status := Failed)
      ensures !wait ==> entries == old(entries) && At(Now(), k, Checked) && attempts[k].entry == i
    {
      RunKeepsInv(INITIAL, trace);
      assert AttemptOk(Now(), attempts[k]);
      ghost var before := Now();
      wait := round <= seen.lastValid;
      if wait {
        entries := entries[i := entries[i].(status := Failed)];
      }
      Note(before, SeeRound(k, round));
    }

    /** Signs the transfer and keeps its id and last valid round on the row before anything is submitted. */
    method PrepareTransfer(i: nat, lastValid: nat, ghost k: nat)
      requires Valid() && i < |entries| && At(Now(), k, Checked) && attempts[k].entry == i
      modifies this`entries, this`log, this`attempts, this`trace
      ensures Valid() && OnlyMoved(i, k) && log == old(log) + [Signed(i, lastValid, Built)]
      ensures entries[i] == old(entries)[i].(txId := Some(|old(log)|), lastValid := lastValid)
      ensures attempts[k] == old(attempts)[k].(stage := Stored(|old(log)|))
    {
      ghost var before := Now();
      var tx := |log|;
      log := log + [Signed(i, lastValid, Built)];
      Note(before, Prepare(k, lastValid));
      before := Now();
      entries := entries[i := entries[i].(txId := Some(tx), lastValid := lastValid)];
      Note(before, Store(k));
    }

    /** Submits the stored transfer; while it is waited for, the network may take it. */
    method SendTransfer(tx: nat, reaches: bool, confirms: bool, ghost k: nat)
      requires Valid() && InStored(Now(), k) && attempts[k].stage.tx == tx && log[tx].fate == Built
      modifies this`log, this`attempts, this`trace
      ensures Valid() && attempts == old(attempts)
      ensures var fate := if !reaches then Built else if confirms && round <= old(log)[tx].lastValid then Confirmed else Broadcast;
              log == old(log)[tx := old(log)[tx].(fate := fate)]
    {
      ghost var before := Now();
      if reaches {
        log := log[tx := log[tx].(fate := Broadcast)];
      }
      Note(before, Send(k, reaches));
      before := Now();
      if confirms {
        if reaches && round <= log[tx].lastValid {
          log := log[tx := log[tx].(fate := Confirmed)];
        }
        Note(before, Event.Confirm(tx));
      }
    }

    /** Waiting returns only for a confirmed transfer; only then is the row marked as sent. */
    method AwaitTransfer(i: nat, tx: nat, notified: bool, ghost k: nat) returns (sent: bool)
      requires Valid() && i < |entries| && InStored(Now(), k) && attempts[k].stage.tx == tx && attempts[k].entry == i
      modifies this`entries, this`attempts, this`trace
      ensures Valid() && OnlyMoved(i, k) && sent == (notified && log[tx].fate == Confirmed)
      ensures entries[i] == old(entries)[i].(status := if sent then Sent else Failed)
    {
      sent := notified && log[tx].fate == Confirmed;
      if !sent {
        Finish(i, Failed, k, Event.Acknowledge(k, false));
        return;
      }
      Note(Now(), Event.Acknowledge(k, true));
      Finish(i, Sent, k, MarkSent(k));
    }

    /** Everything after the checks on earlier attempts. */
    method SendRow(i: nat, w: Weather, ghost k: nat) returns (sent: bool)
      requires Valid() && i < |entries| && At(Now(), k, Checked) && attempts[k].entry == i
      modifies this`entries, this`log, this`attempts, this`trace
      ensures Valid() && OnlyMoved(i, k) && |old(log)| <= |log| && log[..|old(log)|] == old(log)
      ensures sent == (w.internal && w.funded && w.signer && w.reaches && w.confirms && w.notified && round <= w.lastValid)
      ensures entries[i].status == if sent then Sent else if w.internal && !w.funded then Blocked else Failed
      ensures entries[i].tries == old(entries)[i].tries
      ensures var signs := w.internal && w.funded && w.signer;
              && |log| == |old(log)| + (if signs then 1 else 0)
              && entries[i].txId == (if signs then Some(|old(log)|) else old(entries)[i].txId)
              && entries[i].lastValid == (if signs then w.lastValid else old(entries)[i].lastValid)
      ensures sent ==> Delivered(Now(), entries[i])
    {
      if !w.internal {
        Finish(i, Failed, k, Refuse(k, Failed));
        return false;
      }
      if !w.funded {
        Finish(i, Blocked, k, Refuse(k, Blocked));
        return false;
      }
      if !w.signer {
        Finish(i, Failed, k, Refuse(k, Failed));
        return false;
      }
      var tx := |log|;
      PrepareTransfer(i, w.lastValid, k);
      SendTransfer(tx, w.reaches, w.confirms, k);
      sent := AwaitTransfer(i, tx, w.notified, k);
    }

    /**
     * One row, from what was read of it: one more try, with the outcome that the row and the world outside decide (Tried).
     * It answers true exactly when the row ends up sent, and then its stored transfer is confirmed.
     */
    method ProcessOne(i: nat, seen: Entry, w: Weather, ghost k: nat) returns (sent: bool)
      requires Valid() && i < |entries| && k < |attempts| && seen.status != Sent
      requires attempts[k] == Attempt(i, seen.status, seen.txId, seen.lastValid, Read)
      requires entries[i].status == seen.status ==> entries[i].txId == seen.txId && entries[i].lastValid == seen.lastValid
      modifies this`entries, this`log, this`attempts, this`trace
      ensures Valid() && OnlyMoved(i, k) && |old(log)| <= |log| && log[..|old(log)|] == old(log)
      ensures old(entries)[i].status != seen.status ==> !sent && entries == old(entries) && log == old(log)
      ensures old(entries)[i].status == seen.status ==> Tried(old(entries)[i], entries[i], old(log), round, w)
      ensures old(entries)[i].status == seen.status ==> (sent <==> entries[i].status == Sent)
      ensures old(entries)[i].status == seen.status ==>
                |log| == |old(log)| + if Clear(seen, old(log), w.stillPending, round) && w.internal && w.funded && w.signer then 1 else 0
      ensures sent ==> Delivered(Now(), entries[i])
    {
      var claimed := ClaimRow(i, seen, k);
      if !claimed {
        return false;
      }
      var settled: bool;
      settled, sent := CheckPrevious(i, seen, w.stillPending, k);
      if !settled {
        sent := SendRow(i, w, k);
      }
    }

    /** The oldest rows that are due and may be tried, `limit` at most. */
    method FindDue(limit: nat, due: set<nat>) returns (rows: seq<nat>)
      ensures |rows| <= limit && Distinct(rows, |entries|) && Oldest(entries, due, rows, limit)
    {
      rows := [];
      var i := 0;
      while i < |entries| && |rows| < limit
        invariant i <= |entries| && |rows| <= limit && Distinct(rows, i)
        invariant forall j :: 0 <= j < |rows| ==> rows[j] in due && Retryable(entries[rows[j]].status)
        invariant forall e :: 0 <= e < i && e in due && Retryable(entries[e].status) ==> e in rows
      {
        var status := entries[i].status;
        if i in due && (status == Queued || status == Failed || status == Blocked) {
          rows := rows + [i];
        }
        i := i + 1;
      }
    }

    /** An attempt begins for each of them, with what was read. */
    ghost method BeginAll(rows: seq<nat>)
      requires Valid() && forall j :: 0 <= j < |rows| ==> rows[j] < |entries| && Retryable(entries[rows[j]].status)
      modifies this`attempts, this`trace
      ensures Valid() && |attempts| == |old(attempts)| + |rows|
      ensures forall j :: 0 <= j < |rows| ==> attempts[|old(attempts)| + j] == Snapshot(entries, rows[j])
    {
      for k := 0 to |rows|
        invariant Valid() && |attempts| == |old(attempts)| + k
        invariant forall j :: 0 <= j < k ==> attempts[|old(attempts)| + j] == Snapshot(entries, rows[j])
      {
        BeginOne(rows[k]);
      }
    }

    ghost method BeginOne(i: nat)
      requires Valid() && i < |entries| && Retryable(entries[i].status)
      modifies this`attempts, this`trace
      ensures Valid() && attempts == old(attempts) + [Snapshot(entries, i)]
    {
      Note(Now(), Event.Begin(i));
    }

    /** One round of the loop: row j of those found, while the later ones wait as they were read. */
    method ProcessNext(found: seq<nat>, read: seq<Entry>, j: nat, w: Weather, ghost base: nat) returns (ok: bool)
      requires Valid() && j < |found|
      requires Waiting(entries, attempts, read, found, base, j) && Elsewhere(entries, read, found[..j])
      modifies this`entries, this`log, this`attempts, this`trace
      ensures Valid() && |old(log)| <= |log| && log[..|old(log)|] == old(log)
      ensures Waiting(entries, attempts, read, found, base, j + 1) && Elsewhere(entries, read, found[..j + 1])
      ensures Total(IsSent(entries), found[..j + 1]) == Total(IsSent(old(entries)), found[..j]) + if ok then 1 else 0
      ensures entries == old(entries)[found[j] := entries[found[j]]]
      ensures Tried(read[found[j]], entries[found[j]], old(log), round, w)
    {
      ghost var before, had := entries, attempts;
      assert entries[found[j]] == read[found[j]];
      ok := ProcessOne(found[j], read[found[j]], w, base + j);
      OthersWait(before, entries, had, attempts, read, found, base, j);
      CountOne(before, entries, found, j);
    }

    /** Sends the due rows one after another, each from what was read of it at the start, and counts those that went out. */
    method Process(limit: nat, due: set<nat>, weather: seq<Weather>) returns (processed: nat, sent: nat, ghost rows: seq<nat>)
      requires Valid() && |weather| >= limit
      modifies this`entries, this`log, this`attempts, this`trace
      ensures Valid() && processed == |rows| <= limit
      ensures |old(log)| <= |log| && log[..|old(log)|] == old(log)
      ensures Distinct(rows, |entries|) && Elsewhere(entries, old(entries), rows)
      ensures Oldest(old(entries), due, rows, limit) && sent == Total(IsSent(entries), rows)
      ensures AllTried(old(entries), entries, rows, |rows|, old(log), round, weather)
    {
      var found := FindDue(limit, due);
      ghost var base := |attempts|;
      BeginAll(found);
      rows, processed := found, |found|;
      sent := ProcessAll(found, entries, weather, base);
    }

    method ProcessAll(found: seq<nat>, read: seq<Entry>, weather: seq<Weather>, ghost base: nat) returns (sent: nat)
      requires Valid() && |weather| >= |found| && read == entries && Waiting(entries, attempts, read, found, base, 0)
      modifies this`entries, this`log, this`attempts, this`trace
      ensures Valid() && |old(log)| <= |log| && log[..|old(log)|] == old(log)
      ensures Elsewhere(entries, read, found) && sent == Total(IsSent(entries), found)
      ensures AllTried(read, entries, found, |found|, old(log), round, weather)
    {
      sent := 0;
      StoredInLog();
      for j := 0 to |found|
        invariant Valid() && |old(log)| <= |log| && log[..|old(log)|] == old(log)
        invariant Waiting(entries, attempts, read, found, base, j) && Elsewhere(entries, read, found[..j])
        invariant sent == Total(IsSent(entries), found[..j])
        invariant AllTried(read, entries, found, j, old(log), round, weather)
      {
        ghost var before, reached := entries, log;
        var ok := ProcessNext(found, read, j, weather[j], base);
        OneMoreTried(read, before, entries, found, j, old(log), reached, round, weather);
        if ok {
          sent := sent + 1;
        }
      }
      assert found[..|found|] == found;
    }

    /** A stored transfer is one of the log. */
    lemma StoredInLog()
      requires Valid()
      ensures StoredBelow(entries, |log|)
    {
      RunKeepsInv(INITIAL, trace);
      forall i | 0 <= i < |entries| && entries[i].txId.Some?
        ensures entries[i].txId.value < |log|
      {
        assert Now().entries == entries && EntryOk(Now(), i);
      }
    }

    /**
     * A tick that finds another one under way does nothing. Otherwise it commits one scan, which leaves old rows as they
     * stood and queues new ones, and tries the oldest twenty of them that are due, and no others.
     */
    method Tick(due: set<nat>, weather: seq<Weather>)
      returns (ghost ids: seq<nat>, ghost scanned: seq<Entry>, ghost rows: seq<nat>)
      requires Valid() && |weather| >= 20
      modifies this`db, this`entries, this`log, this`busy, this`attempts, this`trace
      ensures Valid() && busy == old(busy)
      ensures old(busy) ==> Now() == old(Now()) && db == old(db)
      ensures !old(busy) ==>
                && old(Scannable(Sync(db, W.RowsOf(entries), live), ids))
                && Sync(db, W.RowsOf(entries), live) == Enqueue(Sync(old(db), W.RowsOf(old(entries)), live), ids)
                && |old(log)| <= |log| && log[..|old(log)|] == old(log)
                && (|ids| < 200 ==> forall i :: live <= i < |db.txns| ==> db.txns[i].enqueued)
                && Added(scanned, old(entries)) && W.RowsOf(scanned) == W.RowsOf(entries) && Elsewhere(entries, scanned, rows)
                && |rows| <= 20 && Distinct(rows, |entries|) && Oldest(scanned, due, rows, 20)
                && AllTried(scanned, entries, rows, |rows|, old(log), round, weather)
    {
      ids, scanned, rows := [], [], [];
      if busy {
        return;
      }
      busy := true;
      var count, processed, sent;
      count, ids := EnqueueScan(200);
      scanned := entries;
      processed, sent, rows := Process(20, due, weather);
      assert W.RowsOf(entries) == W.RowsOf(scanned);
      busy := false;
    }

    /** Whatever this worker has done, no row has reached the chain twice, and a sent row has reached it once. */
    lemma NeverSentTwice(i: nat)
      requires Valid()
      ensures Total(ConfirmedOf(i), log) <= 1
      ensures i < |entries| && entries[i].status == Sent ==> Total(ConfirmedOf(i), log) == 1
    {
      AtMostOnce(trace, i);
    }
  }

  // ---------- what becomes of a row that is tried ----------

  /** Its stored transfer has reached the chain. */
  predicate Landed(e: Entry, log: seq<Signed>) { e.txId.Some? && e.txId.value < |log| && log[e.txId.value].fate == Confirmed }

  /** None is stored, or the one that is can no longer be taken, as far as the network knows. */
  predicate Clear(e: Entry, log: seq<Signed>, stillPending: bool, round: nat)
  {
    e.txId.None? || (!Landed(e, log) && !stillPending && e.lastValid < round)
  }

  /** A transfer signed now reaches the chain in time, and its sender hears of it. */
  predicate GoesOut(w: Weather, round: nat)
  {
    w.internal && w.funded && w.signer && w.reaches && w.confirms && w.notified && round <= w.lastValid
  }

  /**
   * The outcome of a try. The row is sent exactly when its transfer had landed, or it was clear and a new one goes out; a
   * clear row short of funds is blocked; any other has failed. A new transfer is stored exactly when one was signed.
   */
  predicate Tried(was: Entry, now: Entry, log: seq<Signed>, round: nat, w: Weather)
  {
    var clear := Clear(was, log, w.stillPending, round);
    && now.row == was.row && now.tries == was.tries + 1
    && now.status == (if Landed(was, log) || (clear && GoesOut(w, round)) then Sent
                      else if clear && w.internal && !w.funded then Blocked else Failed)
    && if clear && w.internal && w.funded && w.signer
       then now.txId.Some? && now.txId.value >= |log| && now.lastValid == w.lastValid
       else now.txId == was.txId && now.lastValid == was.lastValid
  }

  predicate StoredBelow(entries: seq<Entry>, n: nat)
  {
    forall i :: 0 <= i < |entries| && entries[i].txId.Some? ==> entries[i].txId.value < n
  }

  ghost predicate AllTried(
    was: seq<Entry>, now: seq<Entry>, rows: seq<nat>, n: nat, log: seq<Signed>, round: nat, weather: seq<Weather>)
  {
    && n <= |rows| && n <= |weather| && |now| == |was| && (forall j :: 0 <= j < |rows| ==> rows[j] < |was|)
    && forall j :: 0 <= j < n ==> Tried(was[rows[j]], now[rows[j]], log, round, weather[j])
  }

  /** Transfers signed for earlier rows change nothing about the stored transfer of this one. */
  lemma TriedFromStart(was: Entry, now: Entry, start: seq<Signed>, log: seq<Signed>, round: nat, w: Weather)
    requires |start| <= |log| && log[..|start|] == start && (was.txId.Some? ==> was.txId.value < |start|)
    requires Tried(was, now, log, round, w)
    ensures Tried(was, now, start, round, w)
  {
    if was.txId.Some? {
      assert log[..|start|][was.txId.value] == log[was.txId.value];
    }
  }

  lemma OneMoreTried(
    read: seq<Entry>, before: seq<Entry>, after: seq<Entry>, rows: seq<nat>, j: nat, start: seq<Signed>, log: seq<Signed>,
    round: nat, weather: seq<Weather>)
    requires j < |rows| && j < |weather| && Distinct(rows, |read|) && AllTried(read, before, rows, j, start, round, weather)
    requires |after| == |before| && after == before[rows[j] := after[rows[j]]]
    requires StoredBelow(read, |start|) && |start| <= |log| && log[..|start|] == start
    requires Tried(read[rows[j]], after[rows[j]], log, round, weather[j])
    ensures AllTried(read, after, rows, j + 1, start, round, weather)
  {
    TriedFromStart(read[rows[j]], after[rows[j]], start, log, round, weather[j]);
    forall m | 0 <= m < j
      ensures Tried(read[rows[m]], after[rows[m]], start, round, weather[m])
    {
      assert rows[m] != rows[j];
    }
  }

  function Snapshot(entries: seq<Entry>, i: nat): Attempt
    requires i < |entries|
  {
    Attempt(i, entries[i].status, entries[i].txId, entries[i].lastValid, Read)
  }

  predicate NewEntry(e: Entry) { e == Entry(e.row, Queued, None, 0, 0) }

  /** Entries outside `rows` are as they were, or queued now. */
  ghost predicate AddedExcept(entries: seq<Entry>, was: seq<Entry>, rows: seq<nat>)
  {
    && |was| <= |entries|
    && forall e :: 0 <= e < |entries| && e !in rows ==> if e < |was| then entries[e] == was[e] else NewEntry(entries[e])
  }

  ghost predicate Added(entries: seq<Entry>, was: seq<Entry>) { AddedExcept(entries, was, []) }

  function IsSent(entries: seq<Entry>): nat -> int
  {
    (i: nat) => if i < |entries| && entries[i].status == Sent then 1 else 0
  }

  ghost predicate Distinct(rows: seq<nat>, n: nat)
  {
    (forall j :: 0 <= j < |rows| ==> rows[j] < n) && forall j, m :: 0 <= j < m < |rows| ==> rows[j] < rows[m]
  }

  /** A list of `limit` at most, in order, was not full before it came to e. */
  predicate NotCut(rows: seq<nat>, limit: nat, e: nat) { |rows| < limit || (rows != [] && e < rows[|rows| - 1]) }

  /** The first rows that are due and may be tried, `limit` at most. */
  ghost predicate Oldest(entries: seq<Entry>, due: set<nat>, rows: seq<nat>, limit: nat)
  {
    && (forall j :: 0 <= j < |rows| ==> rows[j] < |entries| && rows[j] in due && entries[rows[j]].status in {Queued, Failed, Blocked})
    && forall e :: 0 <= e < |entries| && e in due && entries[e].status in {Queued, Failed, Blocked} && NotCut(rows, limit, e) ==> e in rows
  }

  /** Rows from position j on are as they were read, and their attempts have not moved. */
  ghost predicate Waiting(entries: seq<Entry>, attempts: seq<Attempt>, read: seq<Entry>, rows: seq<nat>, base: nat, j: nat)
  {
    && Distinct(rows, |read|) && |entries| == |read| && |attempts| == base + |rows|
    && forall m :: j <= m < |rows| ==>
         && Retryable(read[rows[m]].status)
         && attempts[base + m] == Snapshot(read, rows[m]) && entries[rows[m]] == read[rows[m]]
  }

  /** Rows not listed are untouched, and no row changes what it is to move. */
  ghost predicate Elsewhere(entries: seq<Entry>, read: seq<Entry>, rows: seq<nat>)
  {
    && |entries| == |read|
    && forall e :: 0 <= e < |entries| ==> entries[e].row == read[e].row && (e !in rows ==> entries[e] == read[e])
  }

  lemma OthersWait(
    before: seq<Entry>, after: seq<Entry>, had: seq<Attempt>, has: seq<Attempt>, read: seq<Entry>, rows: seq<nat>, base: nat, j: nat)
    requires j < |rows| && Waiting(before, had, read, rows, base, j) && Elsewhere(before, read, rows[..j])
    requires |after| == |before| && after == before[rows[j] := after[rows[j]]] && after[rows[j]].row == before[rows[j]].row
    requires |has| == |had| && has == had[base + j := has[base + j]]
    ensures Waiting(after, has, read, rows, base, j + 1) && Elsewhere(after, read, rows[..j + 1])
  {
  }

  lemma CountOne(before: seq<Entry>, after: seq<Entry>, rows: seq<nat>, j: nat)
    requires j < |rows| && Distinct(rows, |before|) && |after| == |before| && after == before[rows[j] := after[rows[j]]]
    ensures Total(IsSent(after), rows[..j + 1]) == Total(IsSent(before), rows[..j]) + IsSent(after)(rows[j])
  {
    assert rows[..j + 1] == rows[..j] + [rows[j]];
    TotalSame(IsSent(before), IsSent(after), rows[..j]);
    TotalAppend(IsSent(after), rows[..j], rows[j]);
  }
}
