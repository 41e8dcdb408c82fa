/** Agent mandates in the service's own form. Every method is a run of the protocol in Mandates, recorded in `trace`. */
module MandateService {
  import opened Wrappers
  import opened Sums
  import opened Mandates
  import opened MandateEnds

  /** What the payment answers: a failure, or success, which may have found the intent paid and may be followed by a throw. */
  datatype Outcome = Fails(final: bool) | Succeeds(found: bool, throws: bool)

  function AfterPayment(outcome: Outcome): RequestStatus
  {
    match outcome
    case Fails(final) => if final then Failed else Pending
    case Succeeds(_, throws) => if throws then Pending else Confirmed
  }

  class MandateRecord {
    var mandate: Mandate
    var requests: seq<Request>
    var day: nat
    var month: nat
    ghost var calls: seq<Call>
    ghost var start: State
    ghost var trace: seq<Event>

    ghost function Now(): State
      reads this
    {
      State(mandate, requests, calls, day, month)
    }

    ghost predicate Valid()
      reads this
    {
      Granted(start) && Run(start, trace) == Now()
    }

    /** A mandate's limits are ordered when it is granted. */
    constructor (expiresOn: nat, perPayment: int, daily: int, monthly: int, day: nat, month: nat)
      requires 0 < perPayment <= daily <= monthly
      ensures Valid() && start == Now() == State(Mandate(true, expiresOn, perPayment, daily, monthly), [], [], day, month)
    {
      mandate := Mandate(true, expiresOn, perPayment, daily, monthly);
      requests, calls, trace := [], [], [];
      this.day, this.month := day, month;
      start := State(Mandate(true, expiresOn, perPayment, daily, monthly), [], [], day, month);
    }

    ghost method Note(before: State, e: Event)
      requires Granted(start) && Run(start, trace) == before
      requires Step(before, e) == Now().(calls := Step(before, e).calls)
      modifies this`calls, this`trace
      ensures Valid() && Now() == Step(before, e) && trace == old(trace) + [e]
    {
      calls, trace := Step(before, e).calls, trace + [e];
      assert trace[..|trace| - 1] == old(trace);
    }

    ghost predicate Grew(was: State, past: seq<Event>)
      reads this
    {
      Valid() && start == was && past <= trace
    }

    /** Every request still pending is canceled with the mandate. */
    method CancelPending()
      requires Valid()
      modifies this`requests, this`calls, this`trace
      ensures Grew(old(start), old(trace)) && |requests| == |old(requests)|
      ensures forall k :: 0 <= k < |requests| ==>
                requests[k] == if old(requests)[k].status == Pending then old(requests)[k].(status := Canceled) else old(requests)[k]
    {
      for k := 0 to |requests|
        invariant Grew(old(start), old(trace)) && |requests| == |old(requests)|
        invariant forall m :: 0 <= m < k ==>
                    requests[m] == if old(requests)[m].status == Pending then old(requests)[m].(status := Canceled) else old(requests)[m]
        invariant forall m :: k <= m < |requests| ==> requests[m] == old(requests)[m]
      {
        if requests[k].status == Pending {
          ghost var before := Now();
          requests := requests[k := requests[k].(status := Canceled)];
          Note(before, Withdraw(k, Canceled));
        }
      }
    }

    method RevokeMandate() returns (ok: bool)
      requires Valid()
      modifies this`mandate, this`requests, this`calls, this`trace
      ensures Grew(old(start), old(trace)) && ok == old(mandate).active && mandate == old(mandate).(active := false)
      ensures |requests| == |old(requests)|
      ensures forall k :: 0 <= k < |requests| ==>
                requests[k] == if ok && old(requests)[k].status == Pending
                               then old(requests)[k].(status := Canceled) else old(requests)[k]
    {
      ghost var before := Now();
      ok := mandate.active;
      if ok {
        mandate := mandate.(active := false);
      }
      Note(before, Revoke);
      if ok {
        CancelPending();
      }
    }

    /** The mandate has not ended, and the amount is within its cap and within what is left of the day's and the month's. */
    ghost predicate Allowed(others: seq<Request>, amount: int)
      reads this
    {
      && mandate.active && day < mandate.expiresOn && amount <= mandate.perPayment
      && SpentSince(others, day) + amount <= mandate.daily && SpentSinceMonth(others, month) + amount <= mandate.monthly
    }

    /** Both sums over the requests that count, each read on its own. */
    method CheckCreation(amount: int, ghost call: nat) returns (ok: bool)
      requires Valid() && call < |calls| && calls[call] == Creating(amount, false, false)
      modifies this`calls, this`trace
      ensures Grew(old(start), old(trace)) && call < |calls|
      ensures ok == (FitsDay(old(Now()), requests, amount) && FitsMonth(old(Now()), requests, amount))
      ensures ok ==> calls[call] == Creating(amount, true, true)
    {
      ok := Total(UsedToday(day), requests) + amount <= mandate.daily;
      Note(Now(), ReadDay(call));
      if ok {
        ok := Total(UsedThisMonth(month), requests) + amount <= mandate.monthly;
        Note(Now(), ReadMonth(call));
      }
    }

    method InsertRequest(amount: int, ghost call: nat)
      requires Valid() && call < |calls| && calls[call] == Creating(amount, true, true)
      modifies this`requests, this`calls, this`trace
      ensures Grew(old(start), old(trace))
      ensures requests == old(requests) + [Request(amount, day, month, Pending, None, None, None, None)]
    {
      ghost var before := Now();
      requests := requests + [Request(amount, day, month, Pending, None, None, None, None)];
      Note(before, Insert(call));
    }

    /**
     * An uninterrupted creation adds a pending request exactly when the mandate and all three limits allow it and the
     * intent has no request under way, which would be answered instead.
     */
    method CreateAgentRequest(amount: int, underWay: bool) returns (ok: bool)
      requires Valid() && amount > 0
      modifies this`requests, this`calls, this`trace
      ensures Grew(old(start), old(trace))
      ensures ok == (!underWay && old(Allowed(requests, amount)))
      ensures requests == old(requests) + if ok then [Request(amount, day, month, Pending, None, None, None, None)] else []
    {
      if !mandate.active || mandate.expiresOn <= day || amount > mandate.perPayment {
        return false;
      }
      SpentIsUsed(requests, day, month);
      ghost var call := |calls|;
      Note(Now(), BeginCreate(amount));
      ok := CheckCreation(amount, call);
      ok := ok && !underWay;
      if ok {
        InsertRequest(amount, call);
      }
    }

    /** The request is taken before anything is checked, so that every racing sum sees it. */
    method ClaimRequest(k: nat, ghost call: nat)
      requires Valid() && call == |calls| && k < |requests| && requests[k].status == Pending
      modifies this`requests, this`calls, this`trace
      ensures Grew(old(start), old(trace)) && |calls| == call + 1 && calls[call] == Claimed(k)
      ensures requests == old(requests)[k := old(requests)[k].(status := Processing, dayChecked := None, monthChecked := None)]
    {
      Note(Now(), BeginConfirm(k));
      ghost var before := Now();
      requests := requests[k := requests[k].(status := Processing, dayChecked := None, monthChecked := None)];
      Note(before, Claim(call));
    }

    method AdmitRequest(k: nat, ghost call: nat) returns (ok: bool)
      requires Valid() && call < |calls| && calls[call] == Claimed(k) && k < |requests|
      modifies this`requests, this`calls, this`trace
      ensures Grew(old(start), old(trace)) && |calls| == |old(calls)|
      ensures ok == (Usable(mandate, day) && old(requests)[k].amount <= mandate.perPayment)
      ensures requests == if ok then old(requests) else old(requests)[k := old(requests)[k].(status := Failed)]
      ensures ok ==> calls[call] == Admitted(k, false, false)
    {
      ghost var before := Now();
      ok := mandate.active && mandate.expiresOn > day && requests[k].amount <= mandate.perPayment;
      if !ok {
        requests := requests[k := requests[k].(status := Failed)];
      }
      Note(before, Admit(call));
    }

    /** The sum over the other requests created today, then the cap. */
    method CheckDay(k: nat, ghost call: nat) returns (ok: bool)
      requires Valid() && call < |calls| && calls[call] == Admitted(k, false, false) && k < |requests|
      modifies this`requests, this`calls, this`trace
      ensures Grew(old(start), old(trace)) && |calls| == |old(calls)|
      ensures ok == FitsDay(old(Now()), Without(old(requests), k), old(requests)[k].amount)
      ensures requests == old(requests)[k := if ok then old(requests)[k].(dayChecked := Some(day))
                                             else old(requests)[k].(status := Failed)]
      ensures ok ==> calls[call] == Admitted(k, true, false)
    {
      ghost var before := Now();
      ok := Total(UsedToday(day), Without(requests, k)) + requests[k].amount <= mandate.daily;
      requests := requests[k := if ok then requests[k].(dayChecked := Some(day)) else requests[k].(status := Failed)];
      Note(before, ReadDay(call));
    }

    method CheckMonth(k: nat, ghost call: nat) returns (ok: bool)
      requires Valid() && call < |calls| && calls[call] == Admitted(k, true, false) && k < |requests|
      modifies this`requests, this`calls, this`trace
      ensures Grew(old(start), old(trace)) && |calls| == |old(calls)|
      ensures ok == FitsMonth(old(Now()), Without(old(requests), k), old(requests)[k].amount)
      ensures requests == old(requests)[k := if ok then old(requests)[k].(monthChecked := Some(month))
                                             else old(requests)[k].(status := Failed)]
      ensures ok ==> calls[call] == Admitted(k, true, true)
    {
      ghost var before := Now();
      ok := Total(UsedThisMonth(month), Without(requests, k)) + requests[k].amount <= mandate.monthly;
      requests := requests[k := if ok then requests[k].(monthChecked := Some(month)) else requests[k].(status := Failed)];
      Note(before, ReadMonth(call));
    }

    /** The three limits in turn; a request that breaks one has failed for good. */
    method CheckCaps(k: nat, ghost call: nat) returns (ok: bool)
      requires Valid() && call < |calls| && calls[call] == Claimed(k) && k < |requests| && requests[k].status == Processing
      modifies this`requests, this`calls, this`trace
      ensures Grew(old(start), old(trace)) && |requests| == |old(requests)| && call < |calls|
      ensures ok == old(Allowed(Without(requests, k), requests[k].amount))
      ensures requests == old(requests)[k := requests[k]] && requests[k].amount == old(requests)[k].amount
      ensures requests[k].status == if ok then Processing else Failed
      ensures ok ==> calls[call] == Admitted(k, true, true)
    {
      SpentIsUsed(Without(requests, k), day, month);
      ok := AdmitRequest(k, call);
      if !ok {
        return;
      }
      ok := CheckDay(k, call);
      if !ok {
        return;
      }
      assert Without(requests, k) == Without(old(requests), k);
      ok := CheckMonth(k, call);
    }

    /** The intent is paid, or found to be paid already. */
    method PayIntent(k: nat, found: bool, ghost call: nat)
      requires Valid() && call < |calls| && calls[call] == Admitted(k, true, true) && k < |requests|
      modifies this`requests, this`calls, this`trace
      ensures Grew(old(start), old(trace)) && |calls| == |old(calls)| && calls[call] == Mandates.Paid(k)
      ensures |requests| == |old(requests)| && requests == old(requests)[k := requests[k]]
      ensures requests[k].amount == old(requests)[k].amount
    {
      ghost var before := Now();
      if !found && requests[k].paidOn.None? {
        requests := requests[k := requests[k].(paidOn := Some(day), paidIn := Some(month))];
      }
      Note(before, Pay(call, !found));
    }

    method Conclude(k: nat, throws: bool, ghost call: nat)
      requires Valid() && call < |calls| && calls[call] == Mandates.Paid(k) && k < |requests|
      modifies this`requests, this`calls, this`trace
      ensures Grew(old(start), old(trace))
      ensures requests == old(requests)[k := old(requests)[k].(status := if throws then Pending else Confirmed)]
    {
      ghost var before := Now();
      requests := requests[k := requests[k].(status := if throws then Pending else Confirmed)];
      Note(before, if throws then Throw(call) else Event.Finish(call));
    }

    method PayRequest(k: nat, outcome: Outcome, ghost call: nat)
      requires Valid() && call < |calls| && calls[call] == Admitted(k, true, true) && k < |requests|
      modifies this`requests, this`calls, this`trace
      ensures Grew(old(start), old(trace)) && |requests| == |old(requests)|
      ensures requests == old(requests)[k := requests[k]] && requests[k].amount == old(requests)[k].amount
      ensures requests[k].status == AfterPayment(outcome)
    {
      match outcome
      case Fails(final) =>
        ghost var before := Now();
        requests := requests[k := requests[k].(status := if final then Failed else Pending)];
        Note(before, Refuse(call, final));
      case Succeeds(found, throws) =>
        PayIntent(k, found, call);
        Conclude(k, throws, call);
    }

    method ExpireRequest(k: nat)
      requires Valid() && k < |requests|
      modifies this`requests, this`calls, this`trace
      ensures Grew(old(start), old(trace))
      ensures requests == if old(requests)[k].status == Pending
                          then old(requests)[k := old(requests)[k].(status := Expired)] else old(requests)
    {
      if requests[k].status == Pending {
        ghost var before := Now();
        requests := requests[k := requests[k].(status := Expired)];
        Note(before, Withdraw(k, Expired));
      }
    }

    /**
     * One uninterrupted confirmation of a request that may have run out. A request that breaks a limit has failed; a
     * payment that fails for a passing reason, or after which something throws, leaves it pending for another try.
     */
    method ConfirmRequest(k: nat, ranOut: bool, outcome: Outcome) returns (ok: bool)
      requires Valid() && k < |requests|
      modifies this`requests, this`calls, this`trace
      ensures Grew(old(start), old(trace)) && |requests| == |old(requests)|
      ensures old(requests)[k].status != Pending ==> requests == old(requests) && ok == (old(requests)[k].status == Confirmed)
      ensures old(requests)[k].status == Pending && ranOut ==>
                !ok && requests == old(requests)[k := old(requests)[k].(status := Expired)]
      ensures old(requests)[k].status == Pending && !ranOut ==>
                var allowed := old(Allowed(Without(requests, k), requests[k].amount));
                && ok == (allowed && AfterPayment(outcome) == Confirmed)
                && requests[k].status == (if allowed then AfterPayment(outcome) else Failed)
                && requests == old(requests)[k := requests[k]] && requests[k].amount == old(requests)[k].amount
    {
      if requests[k].status != Pending {
        return requests[k].status == Confirmed;
      }
      if ranOut {
        ExpireRequest(k);
        return false;
      }
      ghost var call := |calls|;
      ClaimRequest(k, call);
      assert Without(requests, k) == Without(old(requests), k);
      var allowed := CheckCaps(k, call);
      if allowed {
        PayRequest(k, outcome, call);
      }
      ok := allowed && AfterPayment(outcome) == Confirmed;
    }
  }
}
