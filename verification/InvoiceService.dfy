/** Invoices in the services' own form. Every method is a run of the protocol in InvoiceHolds, recorded in `trace`. */
module InvoiceService {
  import opened Wrappers
  import opened Checkouts
  import opened InvoiceHolds

  datatype Transfer = GoesThrough | Throws | ThrowsLate

  function Current(status: InvoiceStatus, pastDue: bool): InvoiceStatus
  {
    if pastDue && (status == Issued || status == Viewed) then Overdue else status
  }

  /** Sent and neither settled nor cancelled. */
  predicate Open(status: InvoiceStatus) { status in {Issued, Viewed, Overdue} }

  /** No checkout holds it, or the hold is over. */
  predicate Unheld(hold: Option<Hold>, now: nat) { hold.None? || hold.value.until < now }

  predicate Applicable(status: InvoiceStatus, hold: Option<Hold>, c: nat, now: nat)
  {
    Open(status) && (Unheld(hold, now) || hold.value.checkout == c)
  }

  function Without(hold: Option<Hold>, c: nat): Option<Hold>
  {
    if hold.Some? && hold.value.checkout == c then None else hold
  }

  /** What a provider's answer makes of a checkout row. One that had failed or completed stays as it is. */
  function RowAfter(row: Checkout, verdict: Verdict, applicable: bool, recorded: bool, now: nat): Checkout
  {
    if row.status !in {Pending, Expired} then row
    else
      match verdict
      case Paid =>
        row.(status := Completed, outcome := if applicable then Applied else if recorded then Exception else Unrecorded)
      case Declined => row.(status := Failed)
      case Undecided => if row.status == Pending && row.expiresAt < now then row.(status := Expired) else row
      case NoAnswer => row
  }

  /** An open checkout that ends unpaid gives its hold back. */
  predicate Ends(row: Checkout, verdict: Verdict, now: nat)
  {
    row.status == Pending && (verdict == Declined || (verdict == Undecided && row.expiresAt < now))
  }

  class InvoiceRecord {
    var status: InvoiceStatus
    var hold: Option<Hold>
    var checkouts: seq<Option<Checkout>>
    var now: nat
    ghost var jobs: seq<Job>
    ghost var trace: seq<Event>

    ghost function Now(): State
      reads this
    {
      State(status, hold, checkouts, jobs, now)
    }

    ghost predicate Valid()
      reads this
    {
      Run(NEW_INVOICE, trace) == Now()
    }

    constructor ()
      ensures Valid() && Now() == NEW_INVOICE
    {
      status, hold, checkouts, jobs, now, trace := Draft, None, [], [], 0, [];
    }

    ghost method Note(before: State, e: Event)
      requires Run(NEW_INVOICE, trace) == before
      requires Step(before, e) == Now().(jobs := Step(before, e).jobs)
      modifies this`jobs, this`trace
      ensures Valid() && Now() == Step(before, e) && trace == old(trace) + [e]
    {
      jobs, trace := Step(before, e).jobs, trace + [e];
      assert trace[..|trace| - 1] == old(trace);
    }

    ghost predicate Grew(past: seq<Event>)
      reads this
    {
      Valid() && past <= trace
    }

    method CancelInvoice() returns (ok: bool)
      requires Valid()
      modifies this`status, this`jobs, this`trace
      ensures Grew(old(trace))
      ensures ok == (old(status) == Draft || Open(old(status)))
      ensures status == if ok then Cancelled else old(status)
    {
      ghost var before := Now();
      ok := status == Draft || status == Issued || status == Viewed || status == Overdue;
      if ok {
        status := Cancelled;
      }
      Note(before, Cancel);
    }

    /** Compensation of an app payment that threw. */
    method UndoPayment(seen: InvoiceStatus, late: bool, ghost job: nat)
      requires Valid() && Is(Now(), job) && jobs[job] == if late then Moved(seen) else Paying(seen)
      modifies this`status, this`jobs, this`trace
      ensures Grew(old(trace)) && status == seen
    {
      Note(Now(), Throw(job, late));
      ghost var before := Now();
      status := seen;
      Note(before, Undo(job));
    }

    /** Reads the invoice and claims it before money moves. */
    method ClaimForApp(ghost job: nat) returns (seen: InvoiceStatus, claimed: bool)
      requires Valid() && job == |jobs|
      modifies this`status, this`jobs, this`trace
      ensures Grew(old(trace)) && seen == old(status)
      ensures claimed == (Open(old(status)) && Unheld(hold, now))
      ensures claimed ==> status == Settled && Is(Now(), job) && jobs[job] == Paying(seen)
      ensures !claimed ==> status == old(status)
    {
      seen := status;
      if seen != Issued && seen != Viewed && seen != Overdue {
        return seen, false;
      }
      Note(Now(), Choose);
      ghost var before := Now();
      claimed := hold.None? || hold.value.until < now;
      if claimed {
        status := Settled;
      }
      Note(before, Take(job, now));
    }

    /** An unpaid invoice past its due date becomes overdue on the next look. */
    method MarkOverdue(pastDue: bool)
      requires Valid()
      modifies this`status, this`jobs, this`trace
      ensures Grew(old(trace)) && jobs == old(jobs) && status == Current(old(status), pastDue)
    {
      if pastDue {
        ghost var before := Now();
        if status == Issued || status == Viewed {
          status := Overdue;
        }
        Note(before, Event.MarkOverdue);
      }
    }

    /** An app payment settles a free payable invoice exactly when it goes through, and otherwise leaves it unpaid. */
    method PayInvoice(pastDue: bool, transfer: Transfer) returns (ok: bool)
      requires Valid()
      modifies this`status, this`jobs, this`trace
      ensures Grew(old(trace))
      ensures ok == (Open(old(status)) && Unheld(hold, now) && transfer == GoesThrough)
      ensures status == if ok then Settled else Current(old(status), pastDue)
    {
      MarkOverdue(pastDue);
      ghost var job := |jobs|;
      var seen, claimed := ClaimForApp(job);
      if !claimed {
        return false;
      }
      if transfer == Throws {
        UndoPayment(seen, false, job);
        return false;
      }
      Note(Now(), Event.Transfer(job));
      if transfer == ThrowsLate {
        UndoPayment(seen, true, job);
        return false;
      }
      Note(Now(), Confirm(job));
      return true;
    }

    /** Safe to repeat: only the holder's own hold is cleared. */
    method ReleaseHold(c: nat, ghost job: nat)
      requires Valid() && Is(Now(), job) && jobs[job] == ReleaseOwed(c)
      modifies this`hold, this`jobs, this`trace
      ensures Grew(old(trace)) && hold == Without(old(hold), c)
    {
      ghost var before := Now();
      if hold.Some? && hold.value.checkout == c {
        hold := None;
      }
      Note(before, Release(job));
    }

    method ReserveHold(until: nat, ghost job: nat) returns (checkout: Option<nat>)
      requires Valid() && job == |jobs|
      modifies this`hold, this`checkouts, this`jobs, this`trace
      ensures Grew(old(trace))
      ensures checkout == if Open(status) && Unheld(old(hold), now) then Some(|old(checkouts)|) else None
      ensures checkout.None? ==> hold == old(hold) && checkouts == old(checkouts)
      ensures checkout.Some? ==> hold == Some(Hold(checkout.value, until)) && checkouts == old(checkouts) + [None]
                                 && Is(Now(), job) && jobs[job] == Opening(checkout.value)
    {
      if (status != Issued && status != Viewed && status != Overdue) || (hold.Some? && hold.value.until >= now) {
        return None;
      }
      ghost var before := Now();
      checkout := Some(|checkouts|);
      hold, checkouts := Some(Hold(|checkouts|, until)), checkouts + [None];
      Note(before, Reserve(until, now));
    }

    /** A web checkout holds the invoice before the payer leaves for the provider. */
    method StartCheckout(until: nat, providerAnswers: bool) returns (checkout: Option<nat>)
      requires Valid()
      modifies this`hold, this`checkouts, this`jobs, this`trace
      ensures Grew(old(trace))
      ensures checkout.Some? == (Open(status) && Unheld(old(hold), now) && providerAnswers)
      ensures checkout.Some? ==> checkout.value == |old(checkouts)| && hold == Some(Hold(checkout.value, until))
                                 && checkouts == old(checkouts) + [Some(Checkout(Pending, Unsettled, until))]
      ensures checkout.None? ==> hold == if Open(status) && Unheld(old(hold), now) then None else old(hold)
    {
      ghost var job := |jobs|;
      checkout := ReserveHold(until, job);
      if checkout.None? {
        return;
      }
      if !providerAnswers {
        Note(Now(), OpenFailed(job));
        ReleaseHold(checkout.value, job);
        return None;
      }
      ghost var before := Now();
      checkouts := checkouts[checkout.value := Some(Checkout(Pending, Unsettled, until))];
      Note(before, Opened(job, until));
    }

    method ClaimRow(c: nat, seen: CheckoutStatus, verdict: Verdict, ghost job: nat) returns (claim: Option<CheckoutStatus>)
      requires Valid() && Written(Now(), c) && checkouts[c].value.status == seen
      requires Is(Now(), job) && jobs[job] == Reconciling(c, seen)
      modifies this`checkouts, this`jobs, this`trace
      ensures Grew(old(trace))
      ensures claim == ClaimFor(seen, verdict, old(checkouts[c]).value.expiresAt < now)
      ensures checkouts == old(checkouts)[c := Some(old(checkouts[c]).value.(status := if claim.Some? then claim.value else seen))]
      ensures claim == Some(Completed) ==> Is(Now(), job) && jobs[job] == Applying(c)
      ensures claim.Some? && claim != Some(Completed) && seen == Pending ==> Is(Now(), job) && jobs[job] == ReleaseOwed(c)
    {
      var row := checkouts[c].value;
      claim := ClaimFor(seen, verdict, row.expiresAt < now);
      ghost var before := Now();
      if claim.Some? {
        checkouts := checkouts[c := Some(row.(status := claim.value))];
      }
      Note(before, Claim(job, verdict));
    }

    method Settle(c: nat, recorded: bool, ghost job: nat) returns (settled: bool)
      requires Valid() && Written(Now(), c) && Is(Now(), job) && jobs[job] == Applying(c)
      modifies this`status, this`hold, this`checkouts, this`jobs, this`trace
      ensures Grew(old(trace))
      ensures settled == Applicable(old(status), old(hold), c, now)
      ensures checkouts == old(checkouts)[c := Some(old(checkouts[c]).value.(
                outcome := if settled then Applied else if recorded then Exception else Unrecorded))]
      ensures settled ==> status == Settled && hold.None?
      ensures !settled ==> status == old(status) && hold == old(hold)
    {
      ghost var before := Now();
      var row := checkouts[c].value;
      settled := (status == Issued || status == Viewed || status == Overdue)
                 && (hold.None? || hold.value.checkout == c || hold.value.until < now);
      if settled {
        status, hold, checkouts := Settled, None, checkouts[c := Some(row.(outcome := Applied))];
      } else {
        checkouts := checkouts[c := Some(row.(outcome := Refused(recorded)))];
      }
      Note(before, Apply(job, now, recorded));
    }

    /** One uninterrupted reconciliation. */
    method Reconcile(c: nat, verdict: Verdict, recorded: bool)
      requires Valid() && Written(Now(), c)
      modifies this`status, this`hold, this`checkouts, this`jobs, this`trace
      ensures Grew(old(trace))
      ensures var row, applicable := old(checkouts[c]).value, Applicable(old(status), old(hold), c, now);
              var applied := row.status in {Pending, Expired} && verdict == Paid && applicable;
              && checkouts == old(checkouts)[c := Some(RowAfter(row, verdict, applicable, recorded, now))]
              && status == (if applied then Settled else old(status))
              && hold == if applied then None else if Ends(row, verdict, now) then Without(old(hold), c) else old(hold)
    {
      var seen := checkouts[c].value.status;
      if seen != Pending && seen != Expired {
        return;
      }
      ghost var job := |jobs|;
      Note(Now(), Look(c));
      var claim := ClaimRow(c, seen, verdict, job);
      if claim == Some(Completed) {
        var settled := Settle(c, recorded, job);
      } else if claim.Some? && seen == Pending {
        ReleaseHold(c, job);
      }
    }
  }
}
