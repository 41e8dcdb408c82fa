/**
 * The deposit poller of one asset: it reads the chain page by page from a round cursor and records the transfers that
 * count as deposits. Polls may overlap: each reads the cursor, reads a page, inserts, and writes the cursor in separate
 * steps. A transfer's id is its position on the chain.
 */
module DepositScan {
  import opened Wrappers

  datatype Transfer = Transfer(sender: nat, receiver: nat, units: int, round: nat)

  /** Custodial addresses, the reserve's address, and whether the asset is FARM. */
  datatype Net = Net(custodial: set<nat>, reserve: nat, isFarm: bool)

  predicate Internal(net: Net, address: nat) { address == net.reserve || address in net.custodial }

  predicate Qualifies(net: Net, t: Transfer)
  {
    t.receiver in net.custodial && t.units > 0 && t.sender != t.receiver && !(net.isFarm && Internal(net, t.sender))
  }

  /** One poll under way: `from` is the cursor it read, `next` the one its page leads to. */
  datatype Call =
    | Started(from: nat)
    | Paged(from: nat, lo: nat, hi: nat, next: nat)
    | Inserted(from: nat, next: nat)
    | Over

  /** `head` is the chain's newest round. `covered` is no column; it only says how far pages have been inserted. */
  datatype State = State(log: seq<Transfer>, head: nat, cursor: nat, recorded: seq<nat>, covered: nat, calls: seq<Call>)

  datatype Event =
    | Grow(transfer: Transfer)
    | Begin
    | ReadPage(call: nat)
    | Insert(call: nat)
    | Store(call: nat)

  ghost predicate Ascending(log: seq<Transfer>)
  {
    forall i, j :: 0 <= i <= j < |log| ==> log[i].round <= log[j].round
  }

  /** The first position at or after a round. */
  function First(log: seq<Transfer>, round: nat): (k: nat)
    ensures k <= |log|
    ensures k < |log| ==> log[k].round >= round
    ensures k > 0 ==> log[k - 1].round < round
  {
    FirstIn(log, round, |log|)
  }

  function FirstIn(log: seq<Transfer>, round: nat, hi: nat): (k: nat)
    requires hi <= |log|
    ensures k <= hi
    ensures k < hi ==> log[k].round >= round
    ensures k > 0 ==> log[k - 1].round < round
  {
    if hi == 0 then 0
    else if log[hi - 1].round < round then hi
    else FirstIn(log, round, hi - 1)
  }

  /** The reference: every qualifying transfer from lo up to hi, in order. */
  function FullScan(net: Net, log: seq<Transfer>, lo: nat, hi: nat): seq<nat>
    requires hi <= |log|
    decreases hi
  {
    if hi <= lo then []
    else FullScan(net, log, lo, hi - 1) + if Qualifies(net, log[hi - 1]) then [hi - 1] else []
  }

  /** Insertion that skips ids already there. */
  function AddNew(recorded: seq<nat>, ids: seq<nat>): seq<nat>
  {
    if ids == [] then recorded
    else
      var r, last := AddNew(recorded, ids[..|ids| - 1]), ids[|ids| - 1];
      if last in r then r else r + [last]
  }

  function PageEnd(log: seq<Transfer>, cursor: nat, limit: nat): (hi: nat)
    ensures First(log, cursor) <= hi <= |log|
  {
    var lo := First(log, cursor);
    if lo + limit < |log| then lo + limit else |log|
  }

  predicate At(s: State, call: nat) { call < |s.calls| }

  function Go(s: State, call: nat, stage: Call): State
    requires At(s, call)
  {
    s.(calls := s.calls[call := stage])
  }

  /** The page from a cursor, and the round of its newest transfer. */
  function PageOf(log: seq<Transfer>, from: nat, limit: nat): Call
  {
    var lo, hi := First(log, from), PageEnd(log, from, limit);
    Paged(from, lo, hi, if hi > lo then log[hi - 1].round else from)
  }

  function Max(a: nat, b: nat): nat { if a > b then a else b }

  function DoInsert(net: Net, s: State, call: nat): State
  {
    if At(s, call) && s.calls[call].Paged? && s.calls[call].hi <= |s.log| then
      var c := s.calls[call];
      Go(s.(recorded := AddNew(s.recorded, FullScan(net, s.log, c.lo, c.hi)), covered := Max(c.hi, s.covered)),
         call, Inserted(c.from, c.next))
    else s
  }

  /** The cursor is written only by a page that got past the cursor its poll read, whatever it reads now. */
  function DoStore(s: State, call: nat): State
  {
    if At(s, call) && s.calls[call].Inserted? then
      var c := s.calls[call];
      Go(if c.next > c.from then s.(cursor := c.next) else s, call, Over)
    else s
  }

  /** The chain only grows at its newest round or later. */
  function DoGrow(s: State, t: Transfer): State
  {
    if t.round >= s.head then s.(log := s.log + [t], head := t.round) else s
  }

  function Step(net: Net, limit: nat, s: State, e: Event): State
  {
    match e
    case Grow(t) => DoGrow(s, t)
    case Begin => s.(calls := s.calls + [Started(s.cursor)])
    case ReadPage(call) =>
      if At(s, call) && s.calls[call].Started? then Go(s, call, PageOf(s.log, s.calls[call].from, limit)) else s
    case Insert(call) => DoInsert(net, s, call)
    case Store(call) => DoStore(s, call)
  }

  function Run(net: Net, limit: nat, s: State, es: seq<Event>): State
  {
    if es == [] then s else Step(net, limit, Run(net, limit, s, es[..|es| - 1]), es[|es| - 1])
  }

  ghost predicate ChainOk(s: State)
  {
    Ascending(s.log) && s.cursor <= s.head && forall i :: 0 <= i < |s.log| ==> s.log[i].round <= s.head
  }

  /** Switched on at a round: nothing before it is backfilled. */
  ghost predicate GoLive(s: State)
  {
    ChainOk(s) && s.recorded == [] && s.covered == First(s.log, s.cursor) && s.calls == []
  }

  // ---------- what has been recorded ----------

  /** A round no earlier than go-live, and with everything before it inserted. */
  predicate Reached(s: State, base: nat, round: nat)
  {
    round <= s.head && base <= First(s.log, round) <= s.covered
  }

  predicate CallOk(s: State, base: nat, c: Call)
  {
    match c
    case Started(from) => Reached(s, base, from)
    case Paged(from, lo, hi, next) =>
      base <= lo <= s.covered && lo <= hi <= |s.log| && next <= s.head && base <= First(s.log, next) <= hi
    case Inserted(from, next) => Reached(s, base, next)
    case Over => true
  }

  ghost predicate Inv(net: Net, s: State, base: nat)
  {
    && ChainOk(s) && Reached(s, base, s.cursor) && s.covered <= |s.log|
    && s.recorded == FullScan(net, s.log, base, s.covered)
    && CallsOk(s, base)
  }

  ghost predicate CallsOk(s: State, base: nat)
  {
    forall c :: 0 <= c < |s.calls| ==> CallOk(s, base, s.calls[c])
  }

  /** A step of one call. */
  lemma CallMoved(s: State, r: State, base: nat, call: nat)
    requires CallsOk(s, base) && At(s, call) && At(r, call) && r.calls == s.calls[call := r.calls[call]]
    requires r.log == s.log && r.head == s.head && r.covered >= s.covered && CallOk(r, base, r.calls[call])
    ensures CallsOk(r, base)
  {
  }

  lemma {:induction false} ScanMembers(net: Net, log: seq<Transfer>, lo: nat, hi: nat, id: nat)
    requires hi <= |log|
    ensures id in FullScan(net, log, lo, hi) <==> lo <= id < hi && Qualifies(net, log[id])
    decreases hi
  {
    if hi <= lo {
    } else {
      ScanMembers(net, log, lo, hi - 1, id);
    }
  }

  lemma AddNewLast(recorded: seq<nat>, ids: seq<nat>, id: nat)
    ensures var r := AddNew(recorded, ids);
            AddNew(recorded, ids + [id]) == if id in r then r else r + [id]
  {
    assert (ids + [id])[..|ids|] == ids;
  }

  lemma ScanLast(net: Net, log: seq<Transfer>, lo: nat, hi: nat)
    requires lo <= hi < |log|
    ensures FullScan(net, log, lo, hi + 1)
         == if Qualifies(net, log[hi]) then FullScan(net, log, lo, hi) + [hi] else FullScan(net, log, lo, hi)
  {
  }

  /** Reading a stretch that overlaps what is recorded adds exactly the rest. */
  lemma {:induction false} OverlapAdds(net: Net, log: seq<Transfer>, base: nat, covered: nat, lo: nat, hi: nat, recorded: seq<nat>)
    requires base <= lo <= covered <= |log| && lo <= hi <= |log| && recorded == FullScan(net, log, base, covered)
    ensures AddNew(recorded, FullScan(net, log, lo, hi)) == FullScan(net, log, base, Max(hi, covered))
    decreases hi
  {
    if hi <= lo {
    } else {
      var id, reached := hi - 1, Max(hi - 1, covered);
      OverlapAdds(net, log, base, covered, lo, id, recorded);
      ScanLast(net, log, lo, id);
      if Qualifies(net, log[id]) {
        AddNewLast(recorded, FullScan(net, log, lo, id), id);
        ScanMembers(net, log, base, reached, id);
      }
      if covered <= id {
        ScanLast(net, log, base, id);
      }
    }
  }

  lemma {:induction false} ScanOfPrefix(net: Net, log: seq<Transfer>, more: seq<Transfer>, lo: nat, hi: nat)
    requires hi <= |log|
    ensures FullScan(net, log + more, lo, hi) == FullScan(net, log, lo, hi)
    decreases hi
  {
    if hi <= lo {
    } else {
      ScanOfPrefix(net, log, more, lo, hi - 1);
    }
  }

  /** In an ascending log the first position splits earlier rounds from later ones. */
  lemma FirstSplits(log: seq<Transfer>, round: nat, k: nat)
    requires Ascending(log) && k < |log|
    ensures k < First(log, round) <==> log[k].round < round
  {
  }

  lemma FirstMonotone(log: seq<Transfer>, a: nat, b: nat)
    requires Ascending(log) && a <= b
    ensures First(log, a) <= First(log, b)
  {
  }

  lemma FirstAtOwnRound(log: seq<Transfer>, k: nat)
    requires Ascending(log) && k < |log|
    ensures First(log, log[k].round) <= k
  {
  }

  lemma FirstGrows(log: seq<Transfer>, t: Transfer, round: nat)
    requires round <= t.round
    ensures First(log + [t], round) == First(log, round)
  {
    FirstInPrefix(log, t, round, |log|);
  }

  lemma {:induction false} FirstInPrefix(log: seq<Transfer>, t: Transfer, round: nat, hi: nat)
    requires hi <= |log|
    ensures FirstIn(log + [t], round, hi) == FirstIn(log, round, hi)
  {
    if hi == 0 {
    } else {
      FirstInPrefix(log, t, round, hi - 1);
    }
  }

  lemma PageReached(s: State, base: nat, from: nat, limit: nat)
    requires ChainOk(s) && Reached(s, base, from)
    ensures CallOk(s, base, PageOf(s.log, from, limit))
  {
  }

  lemma ReadPageKeepsInv(net: Net, limit: nat, s: State, base: nat, call: nat)
    requires Inv(net, s, base)
    ensures Inv(net, Step(net, limit, s, ReadPage(call)), base)
  {
    if At(s, call) && s.calls[call].Started? {
      assert CallOk(s, base, s.calls[call]);
      PageReached(s, base, s.calls[call].from, limit);
      CallMoved(s, Step(net, limit, s, ReadPage(call)), base, call);
    }
  }

  lemma InsertKeepsInv(net: Net, s: State, base: nat, call: nat)
    requires Inv(net, s, base)
    ensures Inv(net, DoInsert(net, s, call), base)
  {
    if At(s, call) && s.calls[call].Paged? {
      var c := s.calls[call];
      assert CallOk(s, base, c);
      OverlapAdds(net, s.log, base, s.covered, c.lo, c.hi, s.recorded);
      CallMoved(s, DoInsert(net, s, call), base, call);
    }
  }

  lemma StoreKeepsInv(net: Net, s: State, base: nat, call: nat)
    requires Inv(net, s, base)
    ensures Inv(net, DoStore(s, call), base)
  {
    if At(s, call) && s.calls[call].Inserted? {
      assert CallOk(s, base, s.calls[call]);
      CallMoved(s, DoStore(s, call), base, call);
    }
  }

  lemma GrowKeepsCall(s: State, base: nat, t: Transfer, c: Call)
    requires CallOk(s, base, c)
    ensures CallOk(DoGrow(s, t), base, c)
  {
    if t.round >= s.head && (c.Started? || c.Paged? || c.Inserted?) {
      FirstGrows(s.log, t, if c.Started? then c.from else c.next);
    }
  }

  lemma GrowKeepsInv(net: Net, s: State, base: nat, t: Transfer)
    requires Inv(net, s, base)
    ensures Inv(net, DoGrow(s, t), base)
  {
    if t.round >= s.head {
      FirstGrows(s.log, t, s.cursor);
      ScanOfPrefix(net, s.log, [t], base, s.covered);
    }
    forall c | 0 <= c < |s.calls|
      ensures CallOk(DoGrow(s, t), base, s.calls[c])
    {
      assert CallOk(s, base, s.calls[c]);
      GrowKeepsCall(s, base, t, s.calls[c]);
    }
  }

  lemma StepKeepsInv(net: Net, limit: nat, s: State, base: nat, e: Event)
    requires Inv(net, s, base)
    ensures Inv(net, Step(net, limit, s, e), base)
  {
    match e
    case Grow(t) => GrowKeepsInv(net, s, base, t);
    case Begin =>
    case ReadPage(call) => ReadPageKeepsInv(net, limit, s, base, call);
    case Insert(call) => InsertKeepsInv(net, s, base, call);
    case Store(call) => StoreKeepsInv(net, s, base, call);
  }

  /** In every run, however polls overlap, the records are those of one full scan from go-live to as far as pages have reached. */
  lemma {:induction false} PollsRefineFullScan(net: Net, limit: nat, s: State, es: seq<Event>)
    requires GoLive(s)
    ensures Inv(net, Run(net, limit, s, es), s.covered)
  {
    if es == [] {
    } else {
      PollsRefineFullScan(net, limit, s, es[..|es| - 1]);
      StepKeepsInv(net, limit, Run(net, limit, s, es[..|es| - 1]), s.covered, es[|es| - 1]);
    }
  }

  ghost predicate Increasing(ids: seq<nat>)
  {
    forall i, j :: 0 <= i < j < |ids| ==> ids[i] < ids[j]
  }

  lemma {:induction false} ScanIncreasing(net: Net, log: seq<Transfer>, lo: nat, hi: nat)
    requires hi <= |log|
    ensures Increasing(FullScan(net, log, lo, hi))
    decreases hi
  {
    if hi <= lo {
    } else {
      ScanIncreasing(net, log, lo, hi - 1);
      var before := FullScan(net, log, lo, hi - 1);
      forall i | 0 <= i < |before|
        ensures before[i] < hi - 1
      {
        ScanMembers(net, log, lo, hi - 1, before[i]);
      }
    }
  }

  /**
   * A transfer is recorded exactly when it moves something to a custodial address from another one, which for FARM is none
   * of the service's own, and pages have reached it since go-live; every earlier round is reached.
   */
  lemma RecordedIff(net: Net, limit: nat, s: State, es: seq<Event>, id: nat)
    requires GoLive(s) && id < |Run(net, limit, s, es).log|
    ensures var r := Run(net, limit, s, es);
            var t := r.log[id];
            && (id in r.recorded <==>
                  && s.covered <= id < r.covered
                  && t.receiver in net.custodial && t.units > 0 && t.sender != t.receiver
                  && (net.isFarm ==> t.sender != net.reserve && t.sender !in net.custodial))
            && (r.log[id].round < r.cursor ==> id < r.covered)
  {
    PollsRefineFullScan(net, limit, s, es);
    var r := Run(net, limit, s, es);
    ScanMembers(net, r.log, s.covered, r.covered, id);
    FirstSplits(r.log, r.cursor, id);
  }

  /** Nothing is recorded twice, and every record is a transfer on the chain. */
  lemma RecordedOnce(net: Net, limit: nat, s: State, es: seq<Event>)
    requires GoLive(s)
    ensures var r := Run(net, limit, s, es);
            && (forall i, j :: 0 <= i < j < |r.recorded| ==> r.recorded[i] != r.recorded[j])
            && (forall i :: 0 <= i < |r.recorded| ==> r.recorded[i] < |r.log|)
  {
    PollsRefineFullScan(net, limit, s, es);
    var r := Run(net, limit, s, es);
    ScanIncreasing(net, r.log, s.covered, r.covered);
    forall i | 0 <= i < |r.recorded|
      ensures r.recorded[i] < |r.log|
    {
      ScanMembers(net, r.log, s.covered, r.covered, r.recorded[i]);
    }
  }

  /** A FARM transfer that the reserve or a custodial address sent, as the outbox does, is never taken for a deposit. */
  lemma OwnTransfersIgnored(net: Net, limit: nat, s: State, es: seq<Event>, id: nat)
    requires GoLive(s) && net.isFarm && id < |Run(net, limit, s, es).log|
    requires Internal(net, Run(net, limit, s, es).log[id].sender)
    ensures id !in Run(net, limit, s, es).recorded
  {
    RecordedIff(net, limit, s, es, id);
  }

  lemma RunThen(net: Net, limit: nat, s: State, es: seq<Event>, e: Event)
    ensures Run(net, limit, s, es + [e]) == Step(net, limit, Run(net, limit, s, es), e)
  {
  }

  lemma Then(net: Net, limit: nat, s: State, es: seq<Event>, r: State, e: Event) returns (more: seq<Event>, next: State)
    requires Run(net, limit, s, es) == r
    ensures Run(net, limit, s, more) == next == Step(net, limit, r, e)
  {
    more, next := es + [e], Step(net, limit, r, e);
    RunThen(net, limit, s, es, e);
  }

  /** Two transfers nobody counts, each read by a poll of its own; the second poll is done, the first has inserted. */
  lemma TwoPollsOverlap(net: Net, limit: nat, t: Transfer, later: Transfer) returns (es: seq<Event>, s: State)
    requires limit >= 2 && t.round == 1 && later.round == 2 && !Qualifies(net, t) && !Qualifies(net, later)
    ensures Run(net, limit, EMPTY, es) == s == State([t, later], 2, 2, [], 2, [Inserted(0, 1), Over])
  {
    es, s := Then(net, limit, EMPTY, [], EMPTY, Grow(t));
    es, s := Then(net, limit, EMPTY, es, s, Begin);
    es, s := Then(net, limit, EMPTY, es, s, ReadPage(0));
    assert s == State([t], 1, 0, [], 0, [Paged(0, 0, 1, 1)]);
    es, s := Then(net, limit, EMPTY, es, s, Insert(0));
    es, s := Then(net, limit, EMPTY, es, s, Grow(later));
    es, s := SecondPoll(net, limit, es, s, t, later);
  }

  lemma SecondPoll(net: Net, limit: nat, before: seq<Event>, start: State, t: Transfer, later: Transfer)
    returns (es: seq<Event>, s: State)
    requires limit >= 2 && t.round == 1 && later.round == 2 && !Qualifies(net, t) && !Qualifies(net, later)
    requires Run(net, limit, EMPTY, before) == start == State([t, later], 2, 0, [], 1, [Inserted(0, 1)])
    ensures Run(net, limit, EMPTY, es) == s == State([t, later], 2, 2, [], 2, [Inserted(0, 1), Over])
  {
    es, s := Then(net, limit, EMPTY, before, start, Begin);
    es, s := Then(net, limit, EMPTY, es, s, ReadPage(1));
    assert s.calls == [Inserted(0, 1), Paged(0, 0, 2, 2)];
    es, s := Then(net, limit, EMPTY, es, s, Insert(1));
    es, s := Then(net, limit, EMPTY, es, s, Store(1));
  }

  const EMPTY := State([], 0, 0, [], 0, [])

  /** A poll that ends late moves the cursor back behind what another has stored. */
  lemma LateStoreMovesBack(net: Net, limit: nat, t: Transfer, later: Transfer) returns (es: seq<Event>)
    requires limit >= 2 && t.round == 1 && later.round == 2 && !Qualifies(net, t) && !Qualifies(net, later)
    ensures Run(net, limit, EMPTY, es).cursor == 2 && Run(net, limit, EMPTY, es + [Store(0)]).cursor == 1
  {
    var s: State;
    es, s := TwoPollsOverlap(net, limit, t, later);
    RunThen(net, limit, EMPTY, es, Store(0));
  }

  // ---------- one poll after another ----------

  /** What a poll that nothing interleaves with does. */
  function DoPoll(net: Net, limit: nat, s: State): State
  {
    var page := PageOf(s.log, s.cursor, limit);
    State(s.log, s.head, Max(page.next, s.cursor), AddNew(s.recorded, FullScan(net, s.log, page.lo, page.hi)),
          Max(page.hi, s.covered), s.calls + [Over])
  }

  /** Polls one after another, as the calls from `first` on. */
  function Polls(first: nat, n: nat): seq<Event>
  {
    if n == 0 then []
    else
      Polls(first, n - 1) + PollSteps(first + n - 1)
  }

  function PollSteps(call: nat): seq<Event> { [Begin, ReadPage(call), Insert(call), Store(call)] }

  lemma FourSteps(net: Net, limit: nat, s: State, call: nat)
    requires call == |s.calls|
    ensures var read := Step(net, limit, Step(net, limit, s, Begin), ReadPage(call));
            DoStore(DoInsert(net, read, call), call) == DoPoll(net, limit, s)
  {
  }

  lemma StepsInTurn(es: seq<Event>, call: nat)
    ensures es + PollSteps(call) == es + [Begin] + [ReadPage(call)] + [Insert(call)] + [Store(call)]
  {
  }

  lemma OnePoll(net: Net, limit: nat, s: State, es: seq<Event>, last: State)
    requires Run(net, limit, s, es) == last
    ensures Run(net, limit, s, es + PollSteps(|last.calls|)) == DoPoll(net, limit, last)
  {
    var call := |last.calls|;
    RunThen(net, limit, s, es, Begin);
    RunThen(net, limit, s, es + [Begin], ReadPage(call));
    RunThen(net, limit, s, es + [Begin] + [ReadPage(call)], Insert(call));
    RunThen(net, limit, s, es + [Begin] + [ReadPage(call)] + [Insert(call)], Store(call));
    FourSteps(net, limit, last, call);
    StepsInTurn(es, call);
  }

  /** What holds at first and survives each poll holds after any number of polls. */
  lemma {:induction false} AfterPolls(net: Net, limit: nat, s: State, n: nat, p: (nat, State) -> bool)
    requires p(0, s)
    requires forall k: nat, t: State :: p(k, t) ==> p(k + 1, DoPoll(net, limit, t))
    ensures var r := Run(net, limit, s, Polls(|s.calls|, n)); p(n, r) && |r.calls| == |s.calls| + n
  {
    if n == 0 {
    } else {
      AfterPolls(net, limit, s, n - 1, p);
      var es := Polls(|s.calls|, n - 1);
      var last := Run(net, limit, s, es);
      PollsGrow(|s.calls|, n);
      OnePoll(net, limit, s, es, last);
    }
  }

  lemma PollsGrow(first: nat, n: nat)
    requires n > 0
    ensures Polls(first, n) == Polls(first, n - 1) + PollSteps(first + n - 1)
  {
  }

  lemma PollKeepsInv(net: Net, limit: nat, s: State, base: nat)
    requires Inv(net, s, base)
    ensures Inv(net, DoPoll(net, limit, s), base)
  {
    var call := |s.calls|;
    var begun := Step(net, limit, s, Begin);
    var read := Step(net, limit, begun, ReadPage(call));
    StepKeepsInv(net, limit, s, base, Begin);
    ReadPageKeepsInv(net, limit, begun, base, call);
    InsertKeepsInv(net, read, base, call);
    StoreKeepsInv(net, DoInsert(net, read, call), base, call);
    FourSteps(net, limit, s, call);
  }

  // ---------- when it catches up ----------

  /** `limit` transfers of one round, with more of the chain behind them. */
  predicate CrowdedAt(log: seq<Transfer>, limit: nat, i: nat)
  {
    limit > 0 && i + limit < |log| && log[i].round == log[i + limit - 1].round
  }

  ghost predicate Crowded(log: seq<Transfer>, limit: nat, from: nat)
  {
    exists i: nat :: from <= i && CrowdedAt(log, limit, i)
  }

  /** A page that neither reaches the end nor leaves the cursor's round would come back for ever; otherwise it advances. */
  lemma PollAdvances(net: Net, limit: nat, s: State, base: nat)
    requires Inv(net, s, base) && limit > 0 && !Crowded(s.log, limit, First(s.log, s.cursor))
    ensures var r := DoPoll(net, limit, s);
            && (r.covered == |s.log| || First(s.log, s.cursor) < First(s.log, r.cursor))
            && First(s.log, s.cursor) <= First(s.log, r.cursor)
  {
    var lo := First(s.log, s.cursor);
    FirstMonotone(s.log, s.cursor, DoPoll(net, limit, s).cursor);
    if lo + limit < |s.log| {
      assert !CrowdedAt(s.log, limit, lo);
      assert s.log[lo].round < s.log[lo + limit - 1].round;
      FirstSplits(s.log, s.log[lo + limit - 1].round, lo);
    }
  }

  /** After k polls: everything is read, or the cursor is k transfers further. */
  ghost predicate Advanced(net: Net, s: State, base: nat, k: nat, t: State)
  {
    && Inv(net, t, base) && t.log == s.log
    && First(s.log, s.cursor) <= First(s.log, t.cursor)
    && (t.covered == |s.log| || First(s.log, t.cursor) >= First(s.log, s.cursor) + k)
  }

  lemma StaysAdvanced(net: Net, limit: nat, s: State, base: nat, k: nat, t: State)
    requires limit > 0 && !Crowded(s.log, limit, First(s.log, s.cursor)) && Advanced(net, s, base, k, t)
    ensures Advanced(net, s, base, k + 1, DoPoll(net, limit, t))
  {
    StillUncrowded(s.log, limit, First(s.log, s.cursor), First(s.log, t.cursor));
    PollKeepsInv(net, limit, t, base);
    PollAdvances(net, limit, t, base);
  }

  lemma StillUncrowded(log: seq<Transfer>, limit: nat, from: nat, later: nat)
    requires !Crowded(log, limit, from) && from <= later
    ensures !Crowded(log, limit, later)
  {
  }

  /** A crowded round, from its first transfer k, that the cursor has not passed. */
  ghost predicate Stuck(s: State, limit: nat, k: nat)
  {
    CrowdedAt(s.log, limit, k) && k == First(s.log, s.log[k].round) && First(s.log, s.cursor) <= k
  }

  /** A page from a cursor that is not past it ends within it. */
  lemma PageHeld(log: seq<Transfer>, from: nat, limit: nat, k: nat)
    requires Ascending(log) && CrowdedAt(log, limit, k) && k == First(log, log[k].round) && First(log, from) <= k
    ensures PageOf(log, from, limit).hi <= k + limit && First(log, PageOf(log, from, limit).next) <= k
  {
  }

  ghost predicate Behind(s: State, limit: nat, k: nat, t: State)
  {
    ChainOk(t) && t.log == s.log && Stuck(t, limit, k) && t.covered < |t.log|
  }

  lemma StaysBehind(net: Net, limit: nat, s: State, k: nat, t: State)
    requires Behind(s, limit, k, t)
    ensures Behind(s, limit, k, DoPoll(net, limit, t))
  {
  }

  /** Neither the cursor nor a poll under way has got past it, and no page past its first `limit` transfers. */
  ghost predicate HeldBack(s: State, limit: nat, k: nat)
  {
    Stuck(s, limit, k) && s.covered <= k + limit && forall c :: 0 <= c < |s.calls| ==> CallHeld(s, limit, k, s.calls[c])
  }

  predicate CallHeld(s: State, limit: nat, k: nat, c: Call)
  {
    match c
    case Started(from) => First(s.log, from) <= k
    case Paged(_, _, hi, next) => hi <= k + limit && First(s.log, next) <= k
    case Inserted(_, next) => First(s.log, next) <= k
    case Over => true
  }

  lemma GrowHeldBack(net: Net, limit: nat, s: State, base: nat, k: nat, t: Transfer)
    requires Inv(net, s, base) && HeldBack(s, limit, k)
    ensures HeldBack(DoGrow(s, t), limit, k)
  {
    if t.round >= s.head {
      FirstGrows(s.log, t, s.cursor);
      FirstGrows(s.log, t, s.log[k].round);
      forall c | 0 <= c < |s.calls|
        ensures CallHeld(DoGrow(s, t), limit, k, s.calls[c])
      {
        assert CallOk(s, base, s.calls[c]) && CallHeld(s, limit, k, s.calls[c]);
        match s.calls[c]
        case Started(from) => FirstGrows(s.log, t, from);
        case Paged(_, _, _, next) => FirstGrows(s.log, t, next);
        case Inserted(_, next) => FirstGrows(s.log, t, next);
        case Over =>
      }
    }
  }

  lemma StaysHeldBack(net: Net, limit: nat, s: State, base: nat, k: nat, e: Event)
    requires Inv(net, s, base) && HeldBack(s, limit, k)
    ensures HeldBack(Step(net, limit, s, e), limit, k)
  {
    match e
    case Grow(t) => GrowHeldBack(net, limit, s, base, k, t);
    case Begin =>
    case ReadPage(call) =>
      if At(s, call) && s.calls[call].Started? {
        assert CallHeld(s, limit, k, s.calls[call]);
        PageHeld(s.log, s.calls[call].from, limit, k);
        CallHeldMoved(limit, s, Step(net, limit, s, e), k, call);
      }
    case Insert(call) => InsertHeldBack(net, limit, s, k, call);
    case Store(call) => StoreHeldBack(limit, s, k, call);
  }

  lemma CallHeldMoved(limit: nat, s: State, r: State, k: nat, call: nat)
    requires forall c :: 0 <= c < |s.calls| ==> CallHeld(s, limit, k, s.calls[c])
    requires At(s, call) && At(r, call) && r.calls == s.calls[call := r.calls[call]] && r.log == s.log
    requires CallHeld(r, limit, k, r.calls[call])
    ensures forall c :: 0 <= c < |r.calls| ==> CallHeld(r, limit, k, r.calls[c])
  {
  }

  lemma InsertHeldBack(net: Net, limit: nat, s: State, k: nat, call: nat)
    requires HeldBack(s, limit, k)
    ensures HeldBack(DoInsert(net, s, call), limit, k)
  {
  }

  lemma StoreHeldBack(limit: nat, s: State, k: nat, call: nat)
    requires HeldBack(s, limit, k)
    ensures HeldBack(DoStore(s, call), limit, k)
  {
  }

  /** However often polls run, alone or overlapping, and whatever the chain adds, a crowded round in the way is never passed. */
  lemma {:induction false} CrowdedRoundBlocks(net: Net, limit: nat, s: State, k: nat, es: seq<Event>)
    requires GoLive(s) && HeldBack(s, limit, k)
    ensures HeldBack(Run(net, limit, s, es), limit, k)
  {
    if es == [] {
    } else {
      CrowdedRoundBlocks(net, limit, s, k, es[..|es| - 1]);
      PollsRefineFullScan(net, limit, s, es[..|es| - 1]);
      StaysHeldBack(net, limit, Run(net, limit, s, es[..|es| - 1]), s.covered, k, es[|es| - 1]);
    }
  }

  lemma CrowdStuck(s: State, limit: nat, i: nat) returns (k: nat)
    requires ChainOk(s) && First(s.log, s.cursor) <= i && CrowdedAt(s.log, limit, i)
    ensures Stuck(s, limit, k)
  {
    k := First(s.log, s.log[i].round);
    FirstAtOwnRound(s.log, i);
    FirstSplits(s.log, s.cursor, i);
    assert s.log[k].round == s.log[i].round;
    FirstMonotone(s.log, s.cursor, s.log[i].round);
    assert s.log[k].round <= s.log[k + limit - 1].round <= s.log[i + limit - 1].round;
  }

  /**
   * After any run, with whatever polls still under way: polling on, with the chain standing, reads all of it exactly when
   * it is read already or no round from the cursor on is as crowded as a page is long, the last one aside.
   */
  lemma CatchesUpIff(net: Net, limit: nat, start: State, es: seq<Event>)
    requires GoLive(start) && limit > 0
    ensures var s := Run(net, limit, start, es);
            (exists n: nat :: Run(net, limit, s, Polls(|s.calls|, n)).covered == |s.log|)
            <==> (s.covered == |s.log| || !Crowded(s.log, limit, First(s.log, s.cursor)))
  {
    var s := Run(net, limit, start, es);
    PollsRefineFullScan(net, limit, start, es);
    if s.covered == |s.log| {
      assert Run(net, limit, s, Polls(|s.calls|, 0)).covered == |s.log|;
    } else if Crowded(s.log, limit, First(s.log, s.cursor)) {
      NeverCatchesUp(net, limit, s);
    } else {
      PollsReadAll(net, limit, s, start.covered);
    }
  }

  lemma PollsReadAll(net: Net, limit: nat, s: State, base: nat)
    requires Inv(net, s, base) && limit > 0 && !Crowded(s.log, limit, First(s.log, s.cursor))
    ensures exists n: nat :: Run(net, limit, s, Polls(|s.calls|, n)).covered == |s.log|
  {
    forall k: nat, t: State | Advanced(net, s, base, k, t)
      ensures Advanced(net, s, base, k + 1, DoPoll(net, limit, t))
    {
      StaysAdvanced(net, limit, s, base, k, t);
    }
    var n := |s.log| + 1;
    AfterPolls(net, limit, s, n, (k: nat, t: State) => Advanced(net, s, base, k, t));
    assert Run(net, limit, s, Polls(|s.calls|, n)).covered == |s.log|;
  }

  lemma NeverCatchesUp(net: Net, limit: nat, s: State)
    requires ChainOk(s) && s.covered < |s.log| && Crowded(s.log, limit, First(s.log, s.cursor))
    ensures forall n: nat :: Run(net, limit, s, Polls(|s.calls|, n)).covered < |s.log|
  {
    var i: nat :| First(s.log, s.cursor) <= i && CrowdedAt(s.log, limit, i);
    var k := CrowdStuck(s, limit, i);
    forall t: State | Behind(s, limit, k, t)
      ensures Behind(s, limit, k, DoPoll(net, limit, t))
    {
      StaysBehind(net, limit, s, k, t);
    }
    forall n: nat
      ensures Run(net, limit, s, Polls(|s.calls|, n)).covered < |s.log|
    {
      AfterPolls(net, limit, s, n, (m: nat, t: State) => Behind(s, limit, k, t));
    }
  }
}
