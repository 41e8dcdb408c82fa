/** Payment links in the services' own form. Every method is a run of the protocol in LinkUses, recorded in `trace`. */
module LinkService {
  import opened Wrappers
  import opened Checkouts
  import opened LinkUses
  import opened LinkRules

  /** What happens to a transfer of money: it goes through, throws before, or throws after the money moved. */
  datatype Transfer = GoesThrough | Throws | ThrowsLate

  predicate RoomLeft(link: Link) { link.maxUses.None? || link.uses < link.maxUses.value }

  /** Active, on time, and not used up. */
  predicate Sellable(link: Link, now: nat)
  {
    link.active && (link.expiry.None? || now < link.expiry.value) && RoomLeft(link)
  }

  /** What a provider's answer makes of a checkout row. One that had failed or completed stays as it is. */
  function RowAfter(row: Checkout, verdict: Verdict, roomLeft: bool, recorded: bool, now: nat): Checkout
  {
    match (row.status, verdict)
    case (Pending, Paid) => row.(status := Completed, outcome := Applied)
    case (Expired, Paid) =>
      row.(status := Completed, outcome := if roomLeft then Applied else if recorded then Exception else Unrecorded)
    case (Pending, Declined) => row.(status := Failed)
    case (Expired, Declined) => row.(status := Failed)
    case (Pending, Undecided) => if row.expiresAt < now then row.(status := Expired) else row
    case _ => row
  }

  /** And of the uses: an open checkout holds one until it ends unpaid, a late payment needs one again. */
  function UsesAfter(row: Checkout, verdict: Verdict, roomLeft: bool, now: nat): int
  {
    match (row.status, verdict)
    case (Expired, Paid) => if roomLeft then 1 else 0
    case (Pending, Declined) => -1
    case (Pending, Undecided) => if row.expiresAt < now then -1 else 0
    case _ => 0
  }

  class LinkRecord {
    var link: Link
    var checkouts: seq<Checkout>
    var now: nat
    ghost var jobs: seq<Job>
    ghost var start: State
    ghost var trace: seq<Event>

    ghost function Now(): State
      reads this
    {
      State(link, checkouts, jobs, now)
    }

    ghost predicate Valid()
      reads this
    {
      Created(start) && Run(start, trace) == Now()
    }

    constructor (active: bool, expiry: Option<nat>, maxUses: Option<nat>)
      ensures Valid() && Created(Now()) && link == Link(active, expiry, maxUses, 0)
    {
      link, checkouts, jobs, now := Link(active, expiry, maxUses, 0), [], [], 0;
      start, trace := State(Link(active, expiry, maxUses, 0), [], [], 0), [];
    }

    ghost method Note(before: State, e: Event)
      requires Created(start) && Run(start, trace) == before
      requires Step(before, e) == Now().(jobs := Step(before, e).jobs)
      modifies this`jobs, this`trace
      ensures Valid() && Now() == Step(before, e) && trace == old(trace) + [e]
    {
      jobs, trace := Step(before, e).jobs, trace + [e];
      assert trace[..|trace| - 1] == old(trace);
    }

    ghost predicate Grew(was: State, past: seq<Event>)
      reads this
    {
      Valid() && start == was && past <= trace
    }

    method Reserve() returns (ok: bool)
      requires Valid()
      modifies this`link, this`jobs, this`trace
      ensures Grew(old(start), old(trace))
      ensures ok == Sellable(old(link), now)
      ensures link == old(link).(uses := old(link).uses + if ok then 1 else 0)
      ensures jobs == old(jobs) + if ok then [Starting] else []
    {
      ghost var before := Now();
      ReservesExactly(before);
      if link.active && (link.expiry.None? || link.expiry.value > now) && (link.maxUses.None? || link.uses < link.maxUses.value) {
        link := link.(uses := link.uses + 1);
        ok := true;
      } else {
        ok := false;
      }
      Note(before, Start);
    }

    /** What is owed is always given back in full. */
    method GiveUse(ghost job: nat)
      requires Valid() && Is(Now(), job, ReleaseOwed)
      modifies this`link, this`jobs, this`trace
      ensures Grew(old(start), old(trace))
      ensures link == old(link).(uses := old(link).uses - 1)
    {
      ghost var before := Now();
      ReleaseNeverBlocked(start, trace, job);
      if link.uses > 0 {
        link := link.(uses := link.uses - 1);
      }
      Note(before, Release(job));
    }

    /** A web checkout: the use is taken before the payer leaves for the provider, and given back if that fails. */
    method StartCheckout(providerAnswers: bool, expiresAt: nat) returns (checkout: Option<nat>)
      requires Valid()
      modifies this`link, this`checkouts, this`jobs, this`trace
      ensures Grew(old(start), old(trace))
      ensures checkout == if Sellable(old(link), now) && providerAnswers then Some(|old(checkouts)|) else None
      ensures checkouts == old(checkouts) + if checkout.Some? then [Checkout(Pending, Unsettled, expiresAt)] else []
      ensures link == old(link).(uses := old(link).uses + if checkout.Some? then 1 else 0)
    {
      ghost var job := |jobs|;
      var ok := Reserve();
      if !ok {
        return None;
      }
      ghost var before := Now();
      if providerAnswers {
        checkout := Some(|checkouts|);
        checkouts := checkouts + [Checkout(Pending, Unsettled, expiresAt)];
        Note(before, Opened(job, expiresAt));
      } else {
        checkout := None;
        Note(before, StartFailed(job));
        GiveUse(job);
      }
    }

    /** Compensation: an app payment that threw gives its use back. */
    method UndoUse(late: bool, ghost job: nat)
      requires Valid() && Is(Now(), job, Paying)
      modifies this`link, this`jobs, this`trace
      ensures Grew(old(start), old(trace)) && link == old(link).(uses := old(link).uses - 1)
    {
      Note(Now(), PayThrew(job, late));
      ghost var before := Now();
      link := link.(uses := link.uses - 1);
      Note(before, GiveBack(job));
    }

    method TakeUse(ghost job: nat)
      requires Valid() && Sellable(link, now) && job == |jobs|
      modifies this`link, this`jobs, this`trace
      ensures Grew(old(start), old(trace)) && Is(Now(), job, Paying) && link == old(link).(uses := old(link).uses + 1)
    {
      Note(Now(), PayLook);
      ghost var before := Now();
      link := link.(uses := link.uses + 1);
      Note(before, PayStart(job));
    }

    /** An app payment keeps its use exactly when it goes through. */
    method PayLink(transfer: Transfer) returns (ok: bool)
      requires Valid()
      modifies this`link, this`jobs, this`trace
      ensures Grew(old(start), old(trace))
      ensures ok == (Sellable(old(link), now) && transfer == GoesThrough)
      ensures link == old(link).(uses := old(link).uses + if ok then 1 else 0)
    {
      if !link.active || (link.expiry.Some? && link.expiry.value <= now)
         || (link.maxUses.Some? && link.uses >= link.maxUses.value) {
        return false;
      }
      ghost var job := |jobs|;
      TakeUse(job);
      ok := transfer == GoesThrough;
      if ok {
        Note(Now(), PayDone(job));
      } else {
        UndoUse(transfer == ThrowsLate, job);
      }
    }

    /** A late payment that claimed its row takes a use again, or is recorded for review when none is left. */
    method Settle(c: nat, recorded: bool, ghost job: nat) returns (settled: bool)
      requires Valid() && c < |checkouts| && Is(Now(), job, Applying(c))
      modifies this`link, this`checkouts, this`jobs, this`trace
      ensures Grew(old(start), old(trace))
      ensures settled == RoomLeft(old(link))
      ensures link == old(link).(uses := old(link).uses + if settled then 1 else 0)
      ensures checkouts == old(checkouts)[c := old(checkouts[c]).(outcome := if settled then Applied else Refused(recorded))]
    {
      ghost var before := Now();
      settled := link.maxUses.None? || link.uses < link.maxUses.value;
      if settled {
        link := link.(uses := link.uses + 1);
        checkouts := checkouts[c := checkouts[c].(outcome := Applied)];
      } else {
        checkouts := checkouts[c := checkouts[c].(outcome := Refused(recorded))];
      }
      Note(before, Apply(job, recorded));
    }

    /** The row takes the status the answer calls for; the job goes on to whatever that still requires. */
    method ClaimRow(c: nat, seen: CheckoutStatus, verdict: Verdict, ghost job: nat) returns (claim: Option<CheckoutStatus>)
      requires Valid() && c < |checkouts| && checkouts[c].status == seen && Is(Now(), job, Reconciling(c, seen))
      modifies this`checkouts, this`jobs, this`trace
      ensures Grew(old(start), old(trace))
      ensures claim == ClaimFor(seen, verdict, old(checkouts[c]).expiresAt < now)
      ensures checkouts == old(checkouts)[c := if claim.None? then old(checkouts[c]) else old(checkouts[c]).(
                status := claim.value,
                outcome := if claim.value == Completed && seen == Pending then Applied else old(checkouts[c]).outcome)]
      ensures claim == Some(Completed) && seen != Pending ==> Is(Now(), job, Applying(c))
      ensures claim.Some? && claim != Some(Completed) && seen == Pending ==> Is(Now(), job, ReleaseOwed)
    {
      claim := ClaimFor(seen, verdict, checkouts[c].expiresAt < now);
      ghost var before := Now();
      if claim.Some? {
        var row := checkouts[c].(status := claim.value);
        checkouts := checkouts[c := if claim.value == Completed && seen == Pending then row.(outcome := Applied) else row];
      }
      Note(before, Claim(job, verdict));
    }

    /**
     * One uninterrupted reconciliation. A payment is applied with the use its open checkout held, or with one taken
     * again when the checkout had expired; an open checkout that ends otherwise gives its use back.
     */
    method Reconcile(c: nat, verdict: Verdict, recorded: bool)
      requires Valid() && c < |checkouts|
      modifies this`link, this`checkouts, this`jobs, this`trace
      ensures Grew(old(start), old(trace))
      ensures checkouts == old(checkouts)[c := RowAfter(old(checkouts[c]), verdict, RoomLeft(old(link)), recorded, now)]
      ensures link == old(link).(uses := old(link).uses + UsesAfter(old(checkouts[c]), verdict, RoomLeft(old(link)), now))
    {
      var seen := checkouts[c].status;
      if seen != Pending && seen != Expired {
        return;
      }
      OpenRowUnsettled(c);
      ghost var job := |jobs|;
      Note(Now(), Look(c));
      var claim := ClaimRow(c, seen, verdict, job);
      if claim == Some(Completed) {
        if seen == Expired {
          var settled := Settle(c, recorded, job);
        }
      } else if claim.Some? && seen == Pending {
        GiveUse(job);
      }
    }

    /** A row that is still open has no outcome yet. */
    lemma OpenRowUnsettled(c: nat)
      requires Valid() && c < |checkouts|
      ensures checkouts[c].outcome != Unsettled ==> checkouts[c].status == Completed
    {
      RunKeepsInv(start, trace);
      assert CheckoutOk(Now().checkouts[c]);
    }
  }
}
