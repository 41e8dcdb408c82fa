/** The payout API in its own form. A call is a run of the protocol in Payouts, recorded in `trace`. */
module PayoutService {
  import opened Wrappers
  import opened Payouts

  /** What becomes of a withdrawal: it fails, it goes through, or it goes through and something throws afterwards. */
  datatype Withdrawing = Fails | GoesThrough | ThrowsLater

  /** What a request learns of a payout that is not its own to make. */
  function Existing(p: Payout, hash: nat): Answer
  {
    if p.hash == hash && p.status == Submitted && p.response.Some? then Replay(p.response.value) else Conflict
  }

  class PayoutRecord {
    var payout: Option<Payout>
    var withdrawals: seq<nat>
    ghost var calls: seq<Call>
    ghost var trace: seq<Event>

    ghost function Now(): State
      reads this
    {
      State(payout, withdrawals, calls)
    }

    ghost predicate Valid()
      reads this
    {
      Run(UNUSED, trace) == Now()
    }

    constructor ()
      ensures Valid() && Now() == UNUSED
    {
      payout, withdrawals, calls, trace := None, [], [], [];
    }

    ghost method Note(before: State, e: Event)
      requires Run(UNUSED, trace) == before
      requires Step(before, e) == Now().(calls := Step(before, e).calls)
      modifies this`calls, this`trace
      ensures Valid() && Now() == Step(before, e) && trace == old(trace) + [e]
    {
      calls, trace := Step(before, e).calls, trace + [e];
      assert trace[..|trace| - 1] == old(trace);
    }

    ghost predicate Grew(past: seq<Event>)
      reads this
    {
      Valid() && past <= trace
    }

    predicate Usable(hash: nat)
      reads this
    {
      payout.None? || (payout.value.hash == hash && payout.value.status == Failed)
    }

    /** Takes the key: by inserting the payout, or by claiming one that failed. */
    method ClaimKey(hash: nat, ghost call: nat) returns (answer: Option<Answer>)
      requires Valid() && call == |calls|
      modifies this`payout, this`calls, this`trace
      ensures Grew(old(trace)) && call < |calls|
      ensures answer.None? == old(Usable(hash))
      ensures answer.None? ==> calls[call] == Owning(hash) && payout.Some? && payout.value.hash == hash
                               && payout.value.status == Processing
      ensures answer.Some? ==> payout == old(payout) && payout.Some? && answer.value == Existing(payout.value, hash)
    {
      Note(Now(), Begin(hash));
      ghost var before := Now();
      if payout.None? {
        payout := Some(Payout(hash, Processing, None));
        Note(before, Insert(call));
        return None;
      }
      Note(before, Insert(call));
      RunKeepsInv(trace);
      var existing := payout.value;
      Note(Now(), ReadExisting(call));
      if existing.hash != hash {
        return Some(Conflict);
      }
      match existing.status {
        case Submitted => return Some(Replay(existing.response.value));
        case Processing => return Some(Conflict);
        case Failed =>
          before := Now();
          payout := Some(existing.(status := Processing));
          Note(before, Retry(call));
          return None;
      }
    }

    method WriteFailure(ghost e: Event)
      requires Valid() && payout.Some?
      requires e.WithdrawFailed? || e.WriteFailed?
      requires At(Now(), e.call) && if e.WithdrawFailed? then calls[e.call].Owning? else calls[e.call].ThrewAfter?
      modifies this`payout, this`calls, this`trace
      ensures Grew(old(trace)) && payout == Some(old(payout).value.(status := Failed, response := None))
    {
      ghost var before := Now();
      payout := Some(payout.value.(status := Failed, response := None));
      Note(before, e);
    }

    method RecordSuccess(w: nat, ghost call: nat)
      requires Valid() && payout.Some? && At(Now(), call) && calls[call] == Withdrawn(w)
      modifies this`payout, this`calls, this`trace
      ensures Grew(old(trace)) && payout == Some(old(payout).value.(status := Submitted, response := Some(w)))
    {
      ghost var before := Now();
      payout := Some(payout.value.(status := Submitted, response := Some(w)));
      Note(before, Record(call));
      Note(Now(), Respond(call));
    }

    /** The withdrawal, and the outcome written to the payout. */
    method Finish(outcome: Withdrawing, hash: nat, ghost call: nat) returns (answer: Answer)
      requires Valid() && At(Now(), call) && calls[call] == Owning(hash) && payout.Some?
      modifies this`payout, this`withdrawals, this`calls, this`trace
      ensures Grew(old(trace))
      ensures withdrawals == old(withdrawals) + if outcome == Fails then [] else [hash]
      ensures answer == if outcome == GoesThrough then Fresh(|old(withdrawals)|) else Error
      ensures payout == Some(old(payout).value.(
                               status := if outcome == GoesThrough then Submitted else Failed,
                               response := if outcome == GoesThrough then Some(|old(withdrawals)|) else None))
    {
      if outcome == Fails {
        WriteFailure(WithdrawFailed(call));
        return Error;
      }
      var w := |withdrawals|;
      ghost var before := Now();
      withdrawals := withdrawals + [hash];
      Note(before, Withdraw(call));
      if outcome == ThrowsLater {
        Note(Now(), Throw(call));
        WriteFailure(WriteFailed(call));
        return Error;
      }
      RecordSuccess(w, call);
      return Fresh(w);
    }

    /** One uninterrupted request. Only a fresh or failed key withdraws; a submitted one replays its stored response. */
    method Create(hash: nat, outcome: Withdrawing) returns (answer: Answer)
      requires Valid()
      modifies this`payout, this`withdrawals, this`calls, this`trace
      ensures Grew(old(trace))
      ensures withdrawals == old(withdrawals) + if old(Usable(hash)) && outcome != Fails then [hash] else []
      ensures old(Usable(hash)) ==> answer == if outcome == GoesThrough then Fresh(|old(withdrawals)|) else Error
      ensures old(Usable(hash)) && outcome == GoesThrough ==>
                payout == Some(Payout(hash, Submitted, Some(|old(withdrawals)|)))
      ensures !old(Usable(hash)) ==>
                payout == old(payout) && payout.Some? && answer == Existing(payout.value, hash)
    {
      ghost var call := |calls|;
      var early := ClaimKey(hash, call);
      if early.Some? {
        return early.value;
      }
      answer := Finish(outcome, hash, call);
    }
  }
}
