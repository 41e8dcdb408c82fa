/** What the end of a mandate stops, and what counts against its caps. */
module MandateEnds {
  import opened Wrappers
  import opened Sums
  import opened Mandates

  /** Revoked, or past its last day. */
  predicate Ended(s: State) { !s.mandate.active || s.day >= s.mandate.expiresOn }

  function Creations(): Call -> int { (c: Call) => if c.Creating? then 1 else 0 }

  /** A call past the check of the mandate, now or before. */
  predicate PastCheck(c: Call) { c.Admitted? || c.Paid? }

  /** What can still come of the calls that had passed when the mandate ended: no other creates or pays anything. */
  ghost predicate Winding(s: State, r: State)
  {
    && Ended(r) && |r.calls| >= |s.calls| && |r.requests| >= |s.requests|
    && (forall c :: 0 <= c < |r.calls| && r.calls[c].Creating? ==> c < |s.calls| && s.calls[c].Creating?)
    && (forall c :: 0 <= c < |r.calls| && PastCheck(r.calls[c]) ==>
          c < |s.calls| && PastCheck(s.calls[c]) && s.calls[c].request == r.calls[c].request)
    && |r.requests| + Total(Creations(), r.calls) <= |s.requests| + Total(Creations(), s.calls)
    && (forall k :: 0 <= k < |r.requests| && r.requests[k].paidOn.Some? ==> WasPaid(s, k) || AdmittedFor(s, k))
  }

  predicate WasPaid(s: State, k: nat) { k < |s.requests| && s.requests[k].paidOn.Some? }

  predicate AdmittedFor(s: State, k: nat)
  {
    exists c :: 0 <= c < |s.calls| && PastCheck(s.calls[c]) && s.calls[c].request == k
  }

  lemma CallMoved(r: State, next: State, call: nat)
    requires call < |r.calls| && |next.calls| == |r.calls| && next.calls == r.calls[call := next.calls[call]]
    ensures Total(Creations(), next.calls) == Total(Creations(), r.calls) - Creations()(r.calls[call]) + Creations()(next.calls[call])
  {
    TotalUpdate(Creations(), r.calls, call, next.calls[call]);
  }

  lemma InsertStep(s: State, r: State, call: nat)
    requires Winding(s, r)
    ensures Winding(s, DoInsert(r, call))
  {
    var next := DoInsert(r, call);
    if call < |r.calls| {
      CallMoved(r, next, call);
    }
  }

  lemma SumStep(s: State, r: State, e: Event)
    requires Winding(s, r) && (e.ReadDay? || e.ReadMonth?)
    ensures Winding(s, Step(r, e))
  {
    var next := Step(r, e);
    if e.call < |r.calls| && |next.calls| == |r.calls| {
      CallMoved(r, next, e.call);
    }
  }

  lemma PaymentStep(s: State, r: State, e: Event)
    requires Winding(s, r) && (e.Pay? || e.Finish? || e.Throw?)
    ensures Winding(s, Step(r, e))
  {
    var next := Step(r, e);
    if e.call < |r.calls| {
      CallMoved(r, next, e.call);
    }
  }

  lemma ConfirmationStep(s: State, r: State, e: Event)
    requires Winding(s, r) && (e.Claim? || e.Admit? || e.Refuse?)
    ensures Winding(s, Step(r, e))
  {
    var next := Step(r, e);
    if e.call < |r.calls| {
      CallMoved(r, next, e.call);
    }
  }

  lemma OtherStep(s: State, r: State, e: Event)
    requires Winding(s, r) && (e.BeginCreate? || e.BeginConfirm? || e.Withdraw? || e.Revoke? || e.NextDay?)
    ensures Winding(s, Step(r, e))
  {
  }

  /**
   * Once a mandate has ended, in every run: it stays so, no creation begins, no confirmation passes its check, and whatever
   * is paid later is paid by a call that had passed before.
   */
  lemma {:induction false} EndedMandateStops(s: State, es: seq<Event>)
    requires Ended(s)
    ensures Winding(s, Run(s, es))
  {
    if es == [] {
    } else {
      EndedMandateStops(s, es[..|es| - 1]);
      var r, e := Run(s, es[..|es| - 1]), es[|es| - 1];
      match e
      case BeginCreate(_) => OtherStep(s, r, e);
      case BeginConfirm(_) => OtherStep(s, r, e);
      case Withdraw(_, _) => OtherStep(s, r, e);
      case Revoke => OtherStep(s, r, e);
      case NextDay(_) => OtherStep(s, r, e);
      case Insert(call) => InsertStep(s, r, call);
      case ReadDay(_) => SumStep(s, r, e);
      case ReadMonth(_) => SumStep(s, r, e);
      case Claim(_) => ConfirmationStep(s, r, e);
      case Admit(_) => ConfirmationStep(s, r, e);
      case Refuse(_, _) => ConfirmationStep(s, r, e);
      case _ => PaymentStep(s, r, e);
    }
  }

  /** With no call past the check or about to create when it ends, nothing is created and nothing is paid, ever after. */
  lemma EndedMandatePaysNothing(s: State, es: seq<Event>)
    requires Ended(s) && forall c :: 0 <= c < |s.calls| ==> !PastCheck(s.calls[c]) && !s.calls[c].Creating?
    ensures var r := Run(s, es);
            && |r.requests| == |s.requests|
            && forall k :: 0 <= k < |r.requests| && r.requests[k].paidOn.Some? ==> s.requests[k].paidOn.Some?
  {
    EndedMandateStops(s, es);
    var r := Run(s, es);
    forall c | 0 <= c < |s.calls|
      ensures Creations()(s.calls[c]) == 0
    {
      assert !s.calls[c].Creating?;
    }
    TotalZero(Creations(), s.calls);
    TotalAtLeast(Creations(), r.calls, 0);
    forall k | 0 <= k < |r.requests| && r.requests[k].paidOn.Some?
      ensures s.requests[k].paidOn.Some?
    {
      assert WasPaid(s, k) || AdmittedFor(s, k);
    }
  }

  // ---------- what counts ----------

  /** The amounts of requests made since a day that are pending, being paid, or paid. */
  function SpentSince(requests: seq<Request>, day: nat): int
  {
    if requests == [] then 0
    else
      var last := requests[|requests| - 1];
      SpentSince(requests[..|requests| - 1], day)
      + if last.status in {Pending, Processing, Confirmed} && last.day >= day then last.amount else 0
  }

  function SpentSinceMonth(requests: seq<Request>, month: nat): int
  {
    if requests == [] then 0
    else
      var last := requests[|requests| - 1];
      SpentSinceMonth(requests[..|requests| - 1], month)
      + if last.status in {Pending, Processing, Confirmed} && last.month >= month then last.amount else 0
  }

  /** They are what the two sums add up. */
  lemma {:induction false} SpentIsUsed(requests: seq<Request>, day: nat, month: nat)
    ensures SpentSince(requests, day) == Total(UsedToday(day), requests)
    ensures SpentSinceMonth(requests, month) == Total(UsedThisMonth(month), requests)
  {
    if requests == [] {
    } else {
      SpentIsUsed(requests[..|requests| - 1], day, month);
    }
  }
}
