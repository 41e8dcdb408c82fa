/**
 * The deposit poller in its own form: one scan per asset, each page filtered, inserted and counted in a loop. Its polls run
 * one at a time, each the four steps of a poll in DepositScan.
 */
module DepositPoller {
  import opened Wrappers
  import opened Sums
  import opened DepositScan

  function Records(): State -> int { (s: State) => |s.recorded| }

  class Poller {
    var nets: seq<Net>
    var scans: seq<State>
    const limit: nat
    var polling: bool

    ghost predicate Valid()
      reads this
    {
      |nets| == |scans| && forall a :: 0 <= a < |scans| ==> ChainOk(scans[a])
    }

    /** A cursor starts at the chain's current round. */
    constructor (nets: seq<Net>, logs: seq<seq<Transfer>>, heads: seq<nat>, limit: nat)
      requires |nets| == |logs| == |heads|
      requires forall a :: 0 <= a < |logs| ==> Ascending(logs[a]) && forall i :: 0 <= i < |logs[a]| ==> logs[a][i].round <= heads[a]
      ensures Valid() && this.nets == nets && this.limit == limit && !polling
      ensures forall a :: 0 <= a < |scans| ==> GoLive(scans[a]) && scans[a].log == logs[a]
    {
      this.nets, this.limit, polling := nets, limit, false;
      scans := seq(|logs|, a requires 0 <= a < |logs| && |heads| == |logs| =>
                     State(logs[a], heads[a], heads[a], [], First(logs[a], heads[a]), []));
    }

    /** Keeps the page's deposits, in order. */
    method Filter(net: Net, log: seq<Transfer>, lo: nat, hi: nat) returns (rows: seq<nat>)
      requires lo <= hi <= |log|
      ensures rows == FullScan(net, log, lo, hi)
    {
      rows := [];
      for k := lo to hi
        invariant rows == FullScan(net, log, lo, k)
      {
        var t := log[k];
        if t.receiver in net.custodial && t.units > 0 && t.sender != t.receiver
           && !(net.isFarm && (t.sender == net.reserve || t.sender in net.custodial)) {
          rows := rows + [k];
        }
      }
    }

    /** Insertion that skips duplicates, and how many rows it added. */
    method CreateMany(recorded: seq<nat>, rows: seq<nat>) returns (all: seq<nat>, count: nat)
      ensures all == AddNew(recorded, rows) && |all| == |recorded| + count
    {
      all, count := recorded, 0;
      for j := 0 to |rows|
        invariant all == AddNew(recorded, rows[..j]) && |all| == |recorded| + count
      {
        assert rows[..j + 1][..j] == rows[..j];
        if rows[j] !in all {
          all, count := all + [rows[j]], count + 1;
        }
      }
      assert rows[..|rows|] == rows;
    }

    method MaxRound(log: seq<Transfer>, cursor: nat, lo: nat, hi: nat) returns (round: nat)
      requires lo <= hi <= |log| && Ascending(log) && (lo < |log| ==> log[lo].round >= cursor)
      ensures round == if hi > lo then log[hi - 1].round else cursor
    {
      round := cursor;
      for k := lo to hi
        invariant round == if k > lo then log[k - 1].round else cursor
      {
        if log[k].round > round {
          round := log[k].round;
        }
      }
    }

    method PollAsset(a: nat) returns (seen: nat, recorded: nat)
      requires Valid() && a < |scans|
      modifies this`scans
      ensures Valid() && scans == old(scans)[a := DoPoll(nets[a], limit, old(scans)[a])]
      ensures |scans[a].recorded| == |old(scans)[a].recorded| + recorded
    {
      var s, net := scans[a], nets[a];
      var lo, hi := First(s.log, s.cursor), PageEnd(s.log, s.cursor, limit);
      seen := hi - lo;
      var rows := Filter(net, s.log, lo, hi);
      var all: seq<nat>;
      all, recorded := CreateMany(s.recorded, rows);
      var maxRound := MaxRound(s.log, s.cursor, lo, hi);
      var cursor := if maxRound > s.cursor then maxRound else s.cursor;
      scans := scans[a := State(s.log, s.head, cursor, all, Max(hi, s.covered), s.calls + [Over])];
    }

    /** Every asset is polled once; together they record exactly what the polls add. */
    method PollDeposits() returns (seen: nat, recorded: nat)
      requires Valid()
      modifies this`scans
      ensures Valid() && |scans| == |old(scans)|
      ensures forall a :: 0 <= a < |scans| ==> scans[a] == DoPoll(nets[a], limit, old(scans)[a])
      ensures Total(Records(), scans) == Total(Records(), old(scans)) + recorded
    {
      seen, recorded := 0, 0;
      for a := 0 to |scans|
        invariant Valid() && |scans| == |old(scans)|
        invariant forall b :: 0 <= b < a ==> scans[b] == DoPoll(nets[b], limit, old(scans)[b])
        invariant forall b :: a <= b < |scans| ==> scans[b] == old(scans)[b]
        invariant Total(Records(), scans) == Total(Records(), old(scans)) + recorded
      {
        ghost var before := scans;
        var s, r := PollAsset(a);
        TotalUpdate(Records(), before, a, scans[a]);
        seen, recorded := seen + s, recorded + r;
      }
    }

    /** A tick that finds another one under way does nothing. */
    method Tick()
      requires Valid()
      modifies this`scans, this`polling
      ensures Valid() && polling == old(polling)
      ensures old(polling) ==> scans == old(scans)
      ensures !old(polling) ==>
                |scans| == |old(scans)| && forall a :: 0 <= a < |scans| ==> scans[a] == DoPoll(nets[a], limit, old(scans)[a])
    {
      if polling {
        return;
      }
      polling := true;
      var seen, recorded := PollDeposits();
      polling := false;
    }
  }
}
