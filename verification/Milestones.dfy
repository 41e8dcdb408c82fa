/**
 * A funded business escrow: its list of milestones, kept as one value on one row, and the escrow contract that pays them.
 * The list is claimed by compare-and-set and written back unconditionally; calls interleave.
 */
module Milestones {
  import opened Wrappers
  import opened Sums
  import opened Fees
  import L = Ledger
  import P = EscrowProofs

  datatype MilestoneStatus = Pending | Requested | Releasing | Released

  datatype Milestone = Milestone(amount: int, status: MilestoneStatus)

  datatype BookStatus = Funded | Paid | Disputed | Expired

  datatype Call =
    | Asking(index: nat, seen: seq<Milestone>)            // the seller's request has read the list
    | Reading(index: nat, seen: seq<Milestone>)           // the buyer's release has read the list
    | Claimed(index: nat, seen: seq<Milestone>)
    | PaidOut(index: nat, seen: seq<Milestone>, completed: bool)
    | Disowned(index: nat, seen: seq<Milestone>)          // something threw although the money had moved
    | Refused(index: nat, seen: seq<Milestone>)
    | Over

  /**
   * `paid` lists the milestones paid out, in order; it is what the contract's transactions add up to. `thrown` lists those
   * whose call threw after it had paid. Neither is a column.
   */
  datatype State = State(
    book: BookStatus, list: seq<Milestone>, contract: L.Contract, calls: seq<Call>, paid: seq<nat>, thrown: seq<nat>)

  datatype Event =
    | BeginRequest(index: nat)
    | CommitRequest(call: nat)
    | BeginRelease(index: nat)
    | Claim(call: nat)
    | Pay(call: nat, allowed: bool)                       // the partial release; refused by the PIN check and the like
    | WriteDone(call: nat)
    | Throw(call: nat)                                    // after the payment: the write of the row fails, say
    | WriteBack(call: nat)
    | Sync
    | Dispute
    | Close(status: L.EscrowStatus, byAdmin: bool)        // full release or refund of the contract

  predicate CanBePaid(c: L.Contract, part: int)
  {
    part > 0 && c.status == L.Active && c.released + part <= c.amount
  }

  /** The contract row after a partial release, as the escrow service writes it. */
  function AfterRelease(c: L.Contract, asked: int): L.Contract
  {
    if CanBePaid(c, ToCents(asked)) then L.AfterPart(c, ToCents(asked)) else c
  }

  lemma PayIsLedgerStep(db: L.Db, id: nat, asked: int, rule: FeeRule)
    requires L.WellFormed(db) && db.admin.Some? && id < |db.contracts|
    ensures L.ReleasePart(db, id, asked, rule).contracts == db.contracts[id := AfterRelease(db.contracts[id], asked)]
  {
    P.StepContracts(db, L.DoReleasePart(id, asked, rule));
  }

  function Mark(list: seq<Milestone>, i: nat, status: MilestoneStatus): seq<Milestone>
    requires i < |list|
  {
    list[i := list[i].(status := status)]
  }

  predicate At(s: State, call: nat) { call < |s.calls| && (s.calls[call].Over? || s.calls[call].index < |s.calls[call].seen|) }

  function Go(s: State, call: nat, stage: Call): State
    requires call < |s.calls|
  {
    s.(calls := s.calls[call := stage])
  }

  predicate Releasable(m: Milestone) { m.status == Pending || m.status == Requested }

  function DoCommitRequest(s: State, call: nat): State
  {
    if At(s, call) && s.calls[call].Asking? then
      var c := s.calls[call];
      if s.list == c.seen then Go(s.(list := Mark(c.seen, c.index, Requested)), call, Over) else Go(s, call, Over)
    else s
  }

  function DoClaim(s: State, call: nat): State
  {
    if At(s, call) && s.calls[call].Reading? then
      var c := s.calls[call];
      if s.list == c.seen
      then Go(s.(list := Mark(c.seen, c.index, Releasing)), call, Claimed(c.index, c.seen))
      else Go(s, call, Over)
    else s
  }

  function DoPay(s: State, call: nat, allowed: bool): State
  {
    if At(s, call) && s.calls[call].Claimed? then
      var c := s.calls[call];
      var part := ToCents(c.seen[c.index].amount);
      if allowed && CanBePaid(s.contract, part) then
        var after := AfterRelease(s.contract, c.seen[c.index].amount);
        Go(s.(contract := after, paid := s.paid + [c.index]), call, PaidOut(c.index, c.seen, after.status == L.Completed))
      else Go(s, call, Refused(c.index, c.seen))
    else s
  }

  function DoWriteDone(s: State, call: nat): State
  {
    if At(s, call) && s.calls[call].PaidOut? then
      var c := s.calls[call];
      Go(s.(list := Mark(c.seen, c.index, Released), book := if c.completed then Paid else s.book), call, Over)
    else s
  }

  function DoThrow(s: State, call: nat): State
  {
    if At(s, call) && s.calls[call].PaidOut?
    then Go(s.(thrown := s.thrown + [s.calls[call].index]), call, Disowned(s.calls[call].index, s.calls[call].seen))
    else s
  }

  /** One handler serves a refused payment and a throw after a payment: the list that was read is written back. */
  function DoWriteBack(s: State, call: nat): State
  {
    if At(s, call) && (s.calls[call].Refused? || s.calls[call].Disowned?) then Go(s.(list := s.calls[call].seen), call, Over) else s
  }

  /** The row mirrors its contract until it is closed. */
  function DoSync(s: State): State
  {
    if s.book == Paid || s.book == Expired then s
    else
      match s.contract.status
      case Completed => s.(book := Paid)
      case Disputed => s.(book := Disputed)
      case Cancelled => s.(book := Expired)
      case Refunded => s.(book := Expired)
      case _ => s
  }

  predicate Closes(c: L.Contract, status: L.EscrowStatus, byAdmin: bool)
  {
    (status == L.Completed || status == L.Refunded) && c.status == if byAdmin then L.Disputed else L.Active
  }

  function Step(s: State, e: Event): State
  {
    match e
    case BeginRequest(i) =>
      if s.book == Funded && i < |s.list| && s.list[i].status == Pending then s.(calls := s.calls + [Asking(i, s.list)]) else s
    case CommitRequest(call) => DoCommitRequest(s, call)
    case BeginRelease(i) =>
      if s.book == Funded && i < |s.list| && Releasable(s.list[i]) then s.(calls := s.calls + [Reading(i, s.list)]) else s
    case Claim(call) => DoClaim(s, call)
    case Pay(call, allowed) => DoPay(s, call, allowed)
    case WriteDone(call) => DoWriteDone(s, call)
    case Throw(call) => DoThrow(s, call)
    case WriteBack(call) => DoWriteBack(s, call)
    case Sync => DoSync(s)
    case Dispute => if s.contract.status == L.Active then s.(contract := s.contract.(status := L.Disputed)) else s
    case Close(status, byAdmin) =>
      if Closes(s.contract, status, byAdmin) then s.(contract := s.contract.(status := status)) else s
  }

  function Run(s: State, es: seq<Event>): State
  {
    if es == [] then s else Step(Run(s, es[..|es| - 1]), es[|es| - 1])
  }

  function Amounts(): Milestone -> int { (m: Milestone) => m.amount }

  predicate Positive(list: seq<Milestone>)
  {
    forall i :: 0 <= i < |list| ==> list[i].amount > 0 && WholeCents(list[i].amount)
  }

  /** A request as it is created and funded: milestones in whole cents that add up to the amount. */
  predicate Fresh(s: State)
  {
    && s.book == Funded && s.calls == [] && s.paid == [] && s.thrown == [] && s.contract.released == 0 && s.contract.status == L.Active
    && s.contract.amount > 0 && Positive(s.list) && Total(Amounts(), s.list) == s.contract.amount
    && forall i :: 0 <= i < |s.list| ==> s.list[i].status == Pending
  }

  // ---------- what holds in every interleaving ----------

  predicate SameAmounts(a: seq<Milestone>, b: seq<Milestone>)
  {
    |a| == |b| && forall i :: 0 <= i < |a| ==> a[i].amount == b[i].amount
  }

  function AmountAt(first: seq<Milestone>): nat -> int
  {
    (i: nat) => if i < |first| then first[i].amount else 0
  }

  predicate CallSound(first: seq<Milestone>, c: Call)
  {
    !c.Over? ==> SameAmounts(first, c.seen) && c.index < |c.seen|
  }

  ghost predicate Sound(first: seq<Milestone>, s: State)
  {
    && Positive(first) && SameAmounts(first, s.list)
    && (forall c :: 0 <= c < |s.calls| ==> CallSound(first, s.calls[c]))
    && (forall k :: 0 <= k < |s.paid| ==> s.paid[k] < |first|)
    && Total(AmountAt(first), s.paid) == s.contract.released
    && 0 <= s.contract.released <= s.contract.amount
    && (s.contract.released == s.contract.amount ==> s.contract.status == L.Completed)
  }

  lemma CentsStay(units: int)
    requires WholeCents(units)
    ensures ToCents(units) == units
  {
  }

  lemma PayKeepsSound(first: seq<Milestone>, s: State, call: nat, allowed: bool)
    requires Sound(first, s) && s.contract.amount > 0
    ensures Sound(first, DoPay(s, call, allowed))
  {
  }

  lemma WriteKeepsSound(first: seq<Milestone>, s: State, e: Event)
    requires Sound(first, s) && (e.CommitRequest? || e.Claim? || e.WriteDone? || e.Throw? || e.WriteBack?)
    ensures Sound(first, Step(s, e))
  {
  }

  lemma StepKeepsSound(first: seq<Milestone>, s: State, e: Event)
    requires Sound(first, s) && s.contract.amount > 0
    ensures Sound(first, Step(s, e)) && Step(s, e).contract.amount == s.contract.amount
  {
    match e
    case Pay(call, allowed) => PayKeepsSound(first, s, call, allowed);
    case CommitRequest(_) => WriteKeepsSound(first, s, e);
    case Claim(_) => WriteKeepsSound(first, s, e);
    case WriteDone(_) => WriteKeepsSound(first, s, e);
    case Throw(_) => WriteKeepsSound(first, s, e);
    case WriteBack(_) => WriteKeepsSound(first, s, e);
    case _ =>
  }

  /**
   * Whatever status writes are lost and however often a milestone is released again, what is paid out is what the contract
   * has released, never more than its amount, and reaching the amount completes it.
   */
  lemma {:induction false} NeverOverpaid(s: State, es: seq<Event>)
    requires Fresh(s)
    ensures var r := Run(s, es);
            && Sound(s.list, r) && r.contract.amount == s.contract.amount
            && Total(AmountAt(s.list), r.paid) == r.contract.released <= s.contract.amount
            && (r.contract.released == s.contract.amount ==> r.contract.status == L.Completed)
  {
    if es == [] {
    } else {
      NeverOverpaid(s, es[..|es| - 1]);
      StepKeepsSound(s.list, Run(s, es[..|es| - 1]), es[|es| - 1]);
    }
  }

  // ---------- one call at a time ----------

  predicate Active(c: Call) { !c.Over? }

  ghost predicate Idle(s: State)
  {
    forall c :: 0 <= c < |s.calls| ==> !Active(s.calls[c])
  }

  /** A call begins only when no other is under way. */
  ghost predicate Serial(s: State, es: seq<Event>)
  {
    es == [] ||
    (var before, e := Run(s, es[..|es| - 1]), es[|es| - 1];
     Serial(s, es[..|es| - 1]) && (e.BeginRequest? || e.BeginRelease? ==> Idle(before)))
  }

  function ReleasedAmount(): Milestone -> int { (m: Milestone) => if m.status == Released then m.amount else 0 }

  function Times(i: nat): nat -> int { (k: nat) => if k == i then 1 else 0 }

  /**
   * The list and the payments agree: a milestone was paid once if it reads as released, and once more for every call on it
   * that threw after paying.
   */
  ghost predicate Agree(first: seq<Milestone>, list: seq<Milestone>, s: State)
  {
    && SameAmounts(first, list)
    && Total(ReleasedAmount(), list) + Total(AmountAt(first), s.thrown) == s.contract.released
    && (forall i :: 0 <= i < |list| ==> list[i].status != Releasing)
    && (forall i :: 0 <= i < |list| ==>
          Total(Times(i), s.paid) == Total(Times(i), s.thrown) + if list[i].status == Released then 1 else 0)
  }

  function Current(s: State): Call { if s.calls == [] then Over else s.calls[|s.calls| - 1] }

  /** How list, contract and payments stand while the one call is at each of its stages. */
  ghost predicate StageOk(first: seq<Milestone>, s: State, c: Call)
  {
    match c
    case Over => Agree(first, s.list, s)
    case Asking(i, seen) => s.list == seen && i < |seen| && seen[i].status == Pending && Agree(first, seen, s)
    case Reading(i, seen) => s.list == seen && i < |seen| && Releasable(seen[i]) && Agree(first, seen, s)
    case Claimed(i, seen) => i < |seen| && Releasable(seen[i]) && Agree(first, seen, s)
    case Refused(i, seen) => i < |seen| && Agree(first, seen, s)
    case Disowned(i, seen) => i < |seen| && Agree(first, seen, s)
    case PaidOut(i, seen, _) => i < |seen| && Releasable(seen[i]) && Agree(first, Mark(seen, i, Released), s)
  }

  ghost predicate SerialOk(first: seq<Milestone>, s: State)
  {
    && (forall c :: 0 <= c < |s.calls| - 1 ==> !Active(s.calls[c]))
    && StageOk(first, s, Current(s))
  }

  /** Paying milestone i marks it, once the write goes through. */
  lemma MarkAgrees(first: seq<Milestone>, list: seq<Milestone>, i: nat, s: State, r: State)
    requires Agree(first, list, s) && i < |list| && Releasable(list[i])
    requires r.paid == s.paid + [i] && r.thrown == s.thrown && r.contract.released == s.contract.released + list[i].amount
    ensures Agree(first, Mark(list, i, Released), r)
  {
    TotalUpdate(ReleasedAmount(), list, i, list[i].(status := Released));
    forall k | 0 <= k < |list|
      ensures Total(Times(k), r.paid) == Total(Times(k), r.thrown) + if Mark(list, i, Released)[k].status == Released then 1 else 0
    {
      TotalAppend(Times(k), s.paid, i);
    }
  }

  /** A throw after the payment leaves the list as it was read, with one payment to nobody's credit. */
  lemma ThrowAgrees(first: seq<Milestone>, list: seq<Milestone>, i: nat, s: State, r: State)
    requires i < |list| && Releasable(list[i]) && Agree(first, Mark(list, i, Released), s)
    requires r.paid == s.paid && r.thrown == s.thrown + [i] && r.contract == s.contract
    ensures Agree(first, list, r)
  {
    TotalUpdate(ReleasedAmount(), list, i, list[i].(status := Released));
    TotalAppend(AmountAt(first), s.thrown, i);
    var marked := Mark(list, i, Released);
    forall k | 0 <= k < |list|
      ensures list[k].amount == first[k].amount && list[k].status != Releasing
      ensures Total(Times(k), r.paid) == Total(Times(k), r.thrown) + if list[k].status == Released then 1 else 0
    {
      assert marked[k].amount == first[k].amount && marked[k].status != Releasing;
      TotalAppend(Times(k), s.thrown, i);
    }
  }

  lemma RequestAgrees(first: seq<Milestone>, list: seq<Milestone>, i: nat, s: State)
    requires Agree(first, list, s) && i < |list| && list[i].status == Pending
    ensures Agree(first, Mark(list, i, Requested), s)
  {
    TotalUpdate(ReleasedAmount(), list, i, list[i].(status := Requested));
  }

  lemma SerialPay(first: seq<Milestone>, s: State, call: nat, allowed: bool)
    requires Sound(first, s) && SerialOk(first, s)
    ensures SerialOk(first, DoPay(s, call, allowed))
  {
    if At(s, call) && s.calls[call].Claimed? {
      var c, r := s.calls[call], DoPay(s, call, allowed);
      assert call == |s.calls| - 1 && Current(s) == c && CallSound(first, c);
      CentsStay(first[c.index].amount);
      if r.paid != s.paid {
        MarkAgrees(first, c.seen, c.index, s, r);
      }
    }
  }

  /** The one call moves on, and the others stay over. */
  lemma CurrentMoves(first: seq<Milestone>, s: State, r: State, stage: Call)
    requires SerialOk(first, s) && s.calls != [] && r.calls == s.calls[|s.calls| - 1 := stage] && StageOk(first, r, stage)
    ensures SerialOk(first, r)
  {
  }

  lemma OnlyCurrentActive(first: seq<Milestone>, s: State, call: nat)
    requires SerialOk(first, s) && call < |s.calls| && Active(s.calls[call])
    ensures call == |s.calls| - 1 && StageOk(first, s, s.calls[call])
  {
  }

  lemma SerialThrow(first: seq<Milestone>, s: State, call: nat)
    requires SerialOk(first, s)
    ensures SerialOk(first, DoThrow(s, call))
  {
    if At(s, call) && s.calls[call].PaidOut? {
      OnlyCurrentActive(first, s, call);
      var i, seen, r := s.calls[call].index, s.calls[call].seen, DoThrow(s, call);
      ThrowAgrees(first, seen, i, s, r);
      CurrentMoves(first, s, r, Disowned(i, seen));
    }
  }

  lemma SerialWrite(first: seq<Milestone>, s: State, e: Event)
    requires SerialOk(first, s) && (e.CommitRequest? || e.Claim? || e.WriteDone? || e.WriteBack?)
    ensures SerialOk(first, Step(s, e))
  {
    if e.call < |s.calls| && Active(s.calls[e.call]) {
      var c := s.calls[e.call];
      assert e.call == |s.calls| - 1 && Current(s) == c;
      if e.CommitRequest? && c.Asking? {
        RequestAgrees(first, c.seen, c.index, s);
      }
    }
  }

  lemma SerialBegin(first: seq<Milestone>, s: State, e: Event)
    requires SerialOk(first, s) && Idle(s) && (e.BeginRequest? || e.BeginRelease?)
    ensures SerialOk(first, Step(s, e))
  {
  }

  lemma SerialElsewhere(first: seq<Milestone>, s: State, e: Event)
    requires SerialOk(first, s) && (e.Sync? || e.Dispute? || e.Close?)
    ensures SerialOk(first, Step(s, e))
  {
    var r := Step(s, e);
    assert r == s.(book := r.book, contract := r.contract) && r.contract.released == s.contract.released;
    assert Current(r) == Current(s);
  }

  lemma SerialStep(first: seq<Milestone>, s: State, e: Event)
    requires Sound(first, s) && SerialOk(first, s) && (e.BeginRequest? || e.BeginRelease? ==> Idle(s))
    ensures SerialOk(first, Step(s, e))
  {
    match e
    case BeginRequest(_) => SerialBegin(first, s, e);
    case BeginRelease(_) => SerialBegin(first, s, e);
    case Pay(call, allowed) => SerialPay(first, s, call, allowed);
    case Throw(call) => SerialThrow(first, s, call);
    case CommitRequest(_) => SerialWrite(first, s, e);
    case Claim(_) => SerialWrite(first, s, e);
    case WriteDone(_) => SerialWrite(first, s, e);
    case WriteBack(_) => SerialWrite(first, s, e);
    case _ => SerialElsewhere(first, s, e);
  }

  lemma {:induction false} SerialRunOk(s: State, es: seq<Event>)
    requires Fresh(s) && Serial(s, es)
    ensures SerialOk(s.list, Run(s, es))
  {
    if es == [] {
      TotalZero(ReleasedAmount(), s.list);
    } else {
      SerialRunOk(s, es[..|es| - 1]);
      NeverOverpaid(s, es[..|es| - 1]);
      SerialStep(s.list, Run(s, es[..|es| - 1]), es[|es| - 1]);
    }
  }

  /**
   * With one call at a time, in any order and with any failures: each milestone was paid once if it reads as released, and
   * once more for every call on it that threw after paying; list, throws and contract add up; and when all milestones are
   * released the contract is complete.
   */
  lemma SerialRunsAgree(s: State, es: seq<Event>)
    requires Fresh(s) && Serial(s, es) && Idle(Run(s, es))
    ensures var r := Run(s, es);
            && Total(ReleasedAmount(), r.list) + Total(AmountAt(s.list), r.thrown) == r.contract.released
            && (forall i :: 0 <= i < |r.list| ==>
                  Total(Times(i), r.paid) == Total(Times(i), r.thrown) + if r.list[i].status == Released then 1 else 0)
            && ((forall i :: 0 <= i < |r.list| ==> r.list[i].status == Released) ==> r.contract.status == L.Completed)
  {
    SerialRunOk(s, es);
    NeverOverpaid(s, es);
    var r := Run(s, es);
    assert Current(r) == Over;
    if forall i :: 0 <= i < |r.list| ==> r.list[i].status == Released {
      TotalSame(ReleasedAmount(), Amounts(), r.list);
      SameTotals(s.list, r.list);
      forall k | 0 <= k < |r.thrown|
        ensures AmountAt(s.list)(r.thrown[k]) >= 0
      {
        if r.thrown[k] < |s.list| {
          assert s.list[r.thrown[k]].amount > 0;
        }
      }
      TotalAtLeast(AmountAt(s.list), r.thrown, 0);
    }
  }

  ghost predicate NoThrow(es: seq<Event>) { forall k :: 0 <= k < |es| ==> !es[k].Throw? }

  lemma {:induction false} NothingThrown(s: State, es: seq<Event>)
    requires Fresh(s) && NoThrow(es)
    ensures Run(s, es).thrown == []
  {
    if es == [] {
    } else {
      NothingThrown(s, es[..|es| - 1]);
    }
  }

  /** If nothing throws after a payment, serial runs pay exactly the released milestones, each once. */
  lemma SerialRunsPayOnce(s: State, es: seq<Event>)
    requires Fresh(s) && Serial(s, es) && NoThrow(es) && Idle(Run(s, es))
    ensures var r := Run(s, es);
            && Total(ReleasedAmount(), r.list) == r.contract.released
            && forall i :: 0 <= i < |r.list| ==> Total(Times(i), r.paid) == if r.list[i].status == Released then 1 else 0
  {
    SerialRunsAgree(s, es);
    NothingThrown(s, es);
  }

  lemma {:induction false} SameTotals(a: seq<Milestone>, b: seq<Milestone>)
    requires SameAmounts(a, b)
    ensures Total(Amounts(), a) == Total(Amounts(), b)
  {
    if a == [] {
    } else {
      SameTotals(a[..|a| - 1], b[..|b| - 1]);
    }
  }

  // ---------- what a throw and a race can do ----------

  lemma Then(start: State, es: seq<Event>, s: State, e: Event) returns (more: seq<Event>, next: State)
    requires Run(start, es) == s
    ensures Run(start, more) == next == Step(s, e)
    ensures Serial(start, es) && (e.BeginRequest? || e.BeginRelease? ==> Idle(s)) ==> Serial(start, more)
  {
    more, next := es + [e], Step(s, e);
    assert more[..|more| - 1] == es;
  }

  function TwoParts(amount: int): State
  {
    State(Funded, [Milestone(amount, Pending), Milestone(amount, Pending)], L.Contract(0, 1, 2 * amount, 0, L.Active), [], [], [])
  }

  /** The first milestone is paid, its row is not written, and the old list comes back. */
  lemma PaidAndForgotten(amount: int) returns (es: seq<Event>, s: State)
    requires amount > 0 && WholeCents(amount)
    ensures Run(TwoParts(amount), es) == s && Serial(TwoParts(amount), es)
    ensures s == TwoParts(amount).(
                   contract := L.Contract(0, 1, 2 * amount, amount, L.Active), calls := [Over], paid := [0], thrown := [0])
  {
    var start := TwoParts(amount);
    es, s := Then(start, [], start, BeginRelease(0));
    es, s := Then(start, es, s, Claim(0));
    CentsStay(amount);
    assert s.calls == [Claimed(0, start.list)];
    es, s := Then(start, es, s, Pay(0, true));
    es, s := Then(start, es, s, Throw(0));
    es, s := Then(start, es, s, WriteBack(0));
  }

  /** One call at a time is not enough: after one throw the same milestone is paid again, and the other one never. */
  lemma ThrowPaysMilestoneTwice(amount: int) returns (es: seq<Event>)
    requires amount > 0 && WholeCents(amount)
    ensures Serial(TwoParts(amount), es) && Idle(Run(TwoParts(amount), es))
    ensures var r := Run(TwoParts(amount), es);
            && r.paid == [0, 0] && r.list == [Milestone(amount, Released), Milestone(amount, Pending)]
            && r.contract.status == L.Completed
  {
    var start, s := TwoParts(amount), TwoParts(amount);
    es, s := PaidAndForgotten(amount);
    es, s := Then(start, es, s, BeginRelease(0));
    es, s := Then(start, es, s, Claim(1));
    CentsStay(amount);
    assert s.calls == [Over, Claimed(0, start.list)];
    es, s := Then(start, es, s, Pay(1, true));
    es, s := Then(start, es, s, WriteDone(1));
  }

  function Three(amount: int, a: MilestoneStatus, b: MilestoneStatus): seq<Milestone>
  {
    [Milestone(amount, a), Milestone(amount, b), Milestone(amount, Pending)]
  }

  function ThreeParts(amount: int): State
  {
    State(Funded, Three(amount, Pending, Pending), L.Contract(0, 1, 3 * amount, 0, L.Active), [], [], [])
  }

  lemma TwoClaimed(amount: int) returns (es: seq<Event>, s: State)
    requires amount > 0
    ensures Run(ThreeParts(amount), es) == s
    ensures s == ThreeParts(amount).(
                   list := Three(amount, Releasing, Releasing),
                   calls := [Claimed(0, Three(amount, Pending, Pending)), Claimed(1, Three(amount, Releasing, Pending))])
  {
    var start := ThreeParts(amount);
    es, s := Then(start, [], start, BeginRelease(0));
    es, s := Then(start, es, s, Claim(0));
    assert s.list == Three(amount, Releasing, Pending);
    es, s := Then(start, es, s, BeginRelease(1));
    es, s := Then(start, es, s, Claim(1));
    assert s.list == Three(amount, Releasing, Releasing);
  }

  /** Two releases under way; the first one's last write drops the second one's claim. */
  lemma ClaimDropped(amount: int) returns (es: seq<Event>, s: State)
    requires amount > 0 && WholeCents(amount)
    ensures Run(ThreeParts(amount), es) == s
    ensures s.list == Three(amount, Released, Pending) && s.book == Funded && s.paid == [0]
    ensures s.contract == L.Contract(0, 1, 3 * amount, amount, L.Active)
    ensures s.calls == [Over, Claimed(1, Three(amount, Releasing, Pending))]
  {
    var start := ThreeParts(amount);
    es, s := TwoClaimed(amount);
    CentsStay(amount);
    es, s := Then(start, es, s, Pay(0, true));
    es, s := Then(start, es, s, WriteDone(0));
    assert s.list == Three(amount, Released, Pending);
  }

  lemma ClaimedAgain(amount: int) returns (es: seq<Event>, s: State)
    requires amount > 0 && WholeCents(amount)
    ensures Run(ThreeParts(amount), es) == s
    ensures s.paid == [0] && s.contract == L.Contract(0, 1, 3 * amount, amount, L.Active)
    ensures s.calls == [Over, Claimed(1, Three(amount, Releasing, Pending)), Claimed(1, Three(amount, Released, Pending))]
  {
    var start := ThreeParts(amount);
    es, s := ClaimDropped(amount);
    es, s := Then(start, es, s, BeginRelease(1));
    es, s := Then(start, es, s, Claim(2));
  }

  /**
   * With three equal milestones, releases that race can pay the second one twice; the contract then completes and the
   * third is never paid. The contract's bound still holds.
   */
  lemma RacePaysMilestoneTwice(amount: int) returns (es: seq<Event>)
    requires amount > 0 && WholeCents(amount)
    ensures var r := Run(ThreeParts(amount), es);
            && Total(Times(1), r.paid) == 2 && Total(Times(2), r.paid) == 0
            && r.contract.status == L.Completed && r.contract.released == r.contract.amount
  {
    var s: State;
    es, s := ClaimedAgain(amount);
    CentsStay(amount);
    es, s := Then(ThreeParts(amount), es, s, Pay(1, true));
    es, s := Then(ThreeParts(amount), es, s, Pay(2, true));
    assert s.paid == [] + [0] + [1] + [1];
    forall i: nat | i < 3
      ensures Total(Times(i), s.paid) == if i == 0 then 1 else if i == 1 then 2 else 0
    {
      TotalAppend(Times(i), [], 0);
      TotalAppend(Times(i), [] + [0], 1);
      TotalAppend(Times(i), [] + [0] + [1], 1);
    }
  }
}
