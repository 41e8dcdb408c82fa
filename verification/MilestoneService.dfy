/** Milestones in the service's own form. Every method is a run of the protocol in Milestones, recorded in `trace`. */
module MilestoneService {
  import opened Wrappers
  import opened Fees
  import L = Ledger
  import opened Milestones

  /** What becomes of the payment of a milestone: refused, or made, with or without a throw afterwards. */
  datatype Outcome = Refuses | GoesThrough | ThrowsAfter

  function Marked(list: seq<Milestone>, i: nat, status: MilestoneStatus): seq<Milestone>
    requires i < |list|
  {
    list[i := Milestone(list[i].amount, status)]
  }

  /** An active contract has the part left. */
  predicate Left(c: L.Contract, part: int) { c.status == L.Active && 0 < part <= c.amount - c.released }

  function LessPart(c: L.Contract, part: int): L.Contract
  {
    L.Contract(c.buyer, c.seller, c.amount, c.released + part, if c.released + part < c.amount then c.status else L.Completed)
  }

  class BookRecord {
    var book: BookStatus
    var list: seq<Milestone>
    var contract: L.Contract
    ghost var calls: seq<Call>
    ghost var paid: seq<nat>
    ghost var thrown: seq<nat>
    ghost var start: State
    ghost var trace: seq<Event>

    ghost function Now(): State
      reads this
    {
      State(book, list, contract, calls, paid, thrown)
    }

    ghost predicate Valid()
      reads this
    {
      Fresh(start) && Run(start, trace) == Now()
    }

    constructor (list: seq<Milestone>, contract: L.Contract)
      requires Fresh(State(Funded, list, contract, [], [], []))
      ensures Valid() && start == Now() == State(Funded, list, contract, [], [], [])
    {
      book, this.list, this.contract := Funded, list, contract;
      calls, paid, thrown, trace := [], [], [], [];
      start := State(Funded, list, contract, [], [], []);
    }

    ghost method Note(before: State, e: Event)
      requires Fresh(start) && Run(start, trace) == before
      requires Step(before, e) == Now().(calls := Step(before, e).calls, paid := Step(before, e).paid, thrown := Step(before, e).thrown)
      modifies this`calls, this`paid, this`thrown, this`trace
      ensures Valid() && Now() == Step(before, e) && trace == old(trace) + [e]
    {
      calls, paid, thrown, trace := Step(before, e).calls, Step(before, e).paid, Step(before, e).thrown, trace + [e];
      assert trace[..|trace| - 1] == old(trace);
    }

    ghost predicate Grew(was: State, past: seq<Event>)
      reads this
    {
      Valid() && start == was && past <= trace
    }

    method RequestMilestone(index: nat) returns (ok: bool)
      requires Valid()
      modifies this`list, this`calls, this`paid, this`thrown, this`trace
      ensures Grew(old(start), old(trace)) && paid == old(paid) && thrown == old(thrown)
      ensures ok == (book == Funded && index < |old(list)| && old(list)[index].status == Pending)
      ensures list == if ok then Marked(old(list), index, Requested) else old(list)
    {
      if book != Funded || index >= |list| || list[index].status != Pending {
        return false;
      }
      var seen := list;
      ghost var call := |calls|;
      Note(Now(), BeginRequest(index));
      assert calls[call] == Asking(index, seen) && list == seen;
      WriteRequest(index, seen, call);
      return true;
    }

    method WriteRequest(index: nat, seen: seq<Milestone>, ghost call: nat)
      requires Valid() && call < |calls| && index < |seen| && calls[call] == Asking(index, seen)
      modifies this`list, this`calls, this`paid, this`thrown, this`trace
      ensures Grew(old(start), old(trace)) && paid == old(paid) && thrown == old(thrown)
      ensures list == if old(list) == seen then Marked(seen, index, Requested) else old(list)
    {
      ghost var before := Now();
      if list == seen {
        list := seen[index := seen[index].(status := Requested)];
      }
      Note(before, CommitRequest(call));
    }

    /** Takes the milestone before money moves. */
    method ClaimMilestone(index: nat, ghost call: nat)
      requires Valid() && call == |calls| && book == Funded && index < |list| && Releasable(list[index])
      modifies this`list, this`calls, this`paid, this`thrown, this`trace
      ensures Grew(old(start), old(trace)) && paid == old(paid) && thrown == old(thrown)
      ensures |calls| == call + 1 && calls[call] == Claimed(index, old(list)) && list == Marked(old(list), index, Releasing)
    {
      var seen := list;
      Note(Now(), BeginRelease(index));
      ghost var before := Now();
      if list == seen {
        list := seen[index := seen[index].(status := Releasing)];
      }
      Note(before, Claim(call));
    }

    /** The partial release of the contract, a transaction of the escrow service. */
    method ReleasePartial(index: nat, seen: seq<Milestone>, allowed: bool, ghost call: nat) returns (ok: bool, completed: bool)
      requires Valid() && call < |calls| && index < |seen| && calls[call] == Claimed(index, seen)
      modifies this`contract, this`calls, this`paid, this`thrown, this`trace
      ensures Grew(old(start), old(trace)) && call < |calls| && thrown == old(thrown)
      ensures ok == (allowed && Left(old(contract), ToCents(seen[index].amount)))
      ensures contract == if ok then LessPart(old(contract), ToCents(seen[index].amount)) else old(contract)
      ensures completed == (ok && contract.status == L.Completed)
      ensures calls[call] == if ok then PaidOut(index, seen, completed) else Refused(index, seen)
      ensures paid == old(paid) + if ok then [index] else []
    {
      var part := ToCents(seen[index].amount);
      ghost var before := Now();
      ok := allowed && part > 0 && contract.status == L.Active && contract.released + part <= contract.amount;
      if ok {
        contract := contract.(released := contract.released + part);
        if contract.amount - contract.released <= 0 {
          contract := contract.(status := L.Completed);
        }
      }
      completed := ok && contract.status == L.Completed;
      Note(before, Pay(call, allowed));
    }

    method WriteDoneRow(index: nat, seen: seq<Milestone>, completed: bool, ghost call: nat)
      requires Valid() && call < |calls| && index < |seen| && calls[call] == PaidOut(index, seen, completed)
      modifies this`book, this`list, this`calls, this`paid, this`thrown, this`trace
      ensures Grew(old(start), old(trace)) && paid == old(paid) && thrown == old(thrown)
      ensures list == Marked(seen, index, Released) && book == if completed then Paid else old(book)
    {
      ghost var before := Now();
      list := seen[index := seen[index].(status := Released)];
      if completed {
        book := Paid;
      }
      Note(before, WriteDone(call));
    }

    method WriteBackRow(ghost index: nat, seen: seq<Milestone>, ghost call: nat)
      requires Valid() && call < |calls| && index < |seen| && (calls[call] == Refused(index, seen) || calls[call] == Disowned(index, seen))
      modifies this`list, this`calls, this`paid, this`thrown, this`trace
      ensures Grew(old(start), old(trace)) && paid == old(paid) && thrown == old(thrown) && list == seen
    {
      ghost var before := Now();
      list := seen;
      Note(before, WriteBack(call));
    }

    /** A payment whose row cannot be written is treated like one that was refused. */
    method DisownRow(index: nat, seen: seq<Milestone>, ghost completed: bool, ghost call: nat)
      requires Valid() && call < |calls| && index < |seen| && calls[call] == PaidOut(index, seen, completed)
      modifies this`list, this`calls, this`paid, this`thrown, this`trace
      ensures Grew(old(start), old(trace)) && paid == old(paid) && thrown == old(thrown) + [index] && list == seen
    {
      Note(Now(), Throw(call));
      WriteBackRow(index, seen, call);
    }

    ghost predicate Pays(index: nat, outcome: Outcome)
      reads this
    {
      && book == Funded && index < |list| && list[index].status in {Pending, Requested}
      && outcome != Refuses && Left(contract, ToCents(list[index].amount))
    }

    /**
     * One uninterrupted release. Refused, it leaves everything as it was; paid, it marks the milestone; paid and then
     * thrown, it moves the money and leaves list and status as they were.
     */
    method ReleaseMilestone(index: nat, outcome: Outcome) returns (ok: bool)
      requires Valid()
      modifies this`book, this`list, this`contract, this`calls, this`paid, this`thrown, this`trace
      ensures Grew(old(start), old(trace))
      ensures ok == (old(Pays(index, outcome)) && outcome == GoesThrough)
      ensures paid == old(paid) + if old(Pays(index, outcome)) then [index] else []
      ensures contract == if old(Pays(index, outcome)) then LessPart(old(contract), ToCents(old(list)[index].amount)) else old(contract)
      ensures thrown == old(thrown) + if old(Pays(index, outcome)) && !ok then [index] else []
      ensures list == if ok then Marked(old(list), index, Released) else old(list)
      ensures book == if ok && contract.status == L.Completed then Paid else old(book)
    {
      if book != Funded || index >= |list| || (list[index].status != Pending && list[index].status != Requested) {
        return false;
      }
      var seen := list;
      ghost var call := |calls|;
      ClaimMilestone(index, call);
      var paidOut, completed := ReleasePartial(index, seen, outcome != Refuses, call);
      ok := paidOut && outcome == GoesThrough;
      if ok {
        WriteDoneRow(index, seen, completed, call);
      } else if paidOut {
        DisownRow(index, seen, completed, call);
      } else {
        WriteBackRow(index, seen, call);
      }
    }
  }
}
