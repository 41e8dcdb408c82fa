/** When an invoice can be paid, what a provider's answer does to it, and that a cancelled one stays so. */
module InvoiceRules {
  import opened Wrappers
  import opened Sums
  import opened Checkouts
  import opened InvoiceHolds

  /** An app payment reads the invoice as payable, and claims it exactly when it is still so and no checkout holds it. */
  lemma TakesExactly(s: State, job: nat, clock: nat)
    requires Is(s, job) && s.jobs[job].Choosing? && clock <= s.now
    ensures Step(s, Take(job, clock))
         == if s.status in {Issued, Viewed, Overdue} && (s.hold.None? || s.hold.value.until < clock)
            then s.(status := Settled, jobs := s.jobs[job := Paying(s.jobs[job].seen)])
            else s.(jobs := s.jobs[job := Finished(false)])
    ensures Step(s, Choose)
         == if s.status in {Issued, Viewed, Overdue} then s.(jobs := s.jobs + [Choosing(s.status)]) else s
  {
  }

  /** A web checkout takes the hold under the same condition. */
  lemma HoldsExactly(s: State, until: nat, clock: nat)
    requires clock <= s.now
    ensures Step(s, Reserve(until, clock))
         == if s.status in {Issued, Viewed, Overdue} && (s.hold.None? || s.hold.value.until < clock)
            then s.(hold := Some(Hold(|s.checkouts|, until)), checkouts := s.checkouts + [None],
                    jobs := s.jobs + [Opening(|s.checkouts|)])
            else s
  {
  }

  /** The answer on a row that still has the status read decides the row, and what is left to do about its hold. */
  lemma AnswersExactly(s: State, job: nat, verdict: Verdict)
    requires Is(s, job) && s.jobs[job].Reconciling? && Written(s, s.jobs[job].checkout)
    requires s.checkouts[s.jobs[job].checkout].value.status == s.jobs[job].read && s.jobs[job].read in {Pending, Expired}
    ensures var c, read := s.jobs[job].checkout, s.jobs[job].read;
            var row := s.checkouts[c].value;
            Step(s, Claim(job, verdict)) ==
              match verdict
              case Paid => s.(checkouts := s.checkouts[c := Some(row.(status := Completed))], jobs := s.jobs[job := Applying(c)])
              case Declined =>
                s.(checkouts := s.checkouts[c := Some(row.(status := Failed))],
                   jobs := s.jobs[job := if read == Pending then ReleaseOwed(c) else Finished(false)])
              case Undecided =>
                if read == Pending && row.expiresAt < s.now
                then s.(checkouts := s.checkouts[c := Some(row.(status := Expired))], jobs := s.jobs[job := ReleaseOwed(c)])
                else s.(jobs := s.jobs[job := Finished(false)])
              case NoAnswer => s.(jobs := s.jobs[job := Finished(false)])
  {
  }

  /** A web payment is applied exactly to a payable invoice that is held by it or by nobody; otherwise it is recorded, if it can. */
  lemma AppliesExactly(s: State, job: nat, clock: nat, recorded: bool)
    requires Is(s, job) && s.jobs[job].Applying? && Written(s, s.jobs[job].checkout) && clock <= s.now
    ensures var c := s.jobs[job].checkout;
            var row := s.checkouts[c].value;
            Step(s, Apply(job, clock, recorded)) ==
              if s.status in {Issued, Viewed, Overdue}
                 && (s.hold.None? || s.hold.value.checkout == c || s.hold.value.until < clock)
              then s.(status := Settled, hold := None, checkouts := s.checkouts[c := Some(row.(outcome := Applied))],
                      jobs := s.jobs[job := Finished(false)])
              else s.(checkouts := s.checkouts[c := Some(row.(outcome := if recorded then Exception else Unrecorded))],
                      jobs := s.jobs[job := Finished(false)])
  {
  }

  /** Only a draft or an invoice that is still to be paid is cancelled. */
  lemma CancelsExactly(s: State)
    ensures Step(s, Cancel) == if s.status in {Draft, Issued, Viewed, Overdue} then s.(status := Cancelled) else s
  {
  }

  lemma CancelledStep(s: State, e: Event)
    requires Inv(s) && s.status == Cancelled
    ensures Step(s, e).status == Cancelled
  {
    if e.Undo? && Is(s, e.job) && s.jobs[e.job].UndoOwed? {
      ClaimMeansSettled(s, e.job);
    }
  }

  /** In every run a cancelled invoice stays cancelled, and no payment settles it. */
  lemma {:induction false} CancelledStays(s: State, es: seq<Event>)
    requires Inv(s) && s.status == Cancelled
    ensures Run(s, es).status == Cancelled && SettledBy(Run(s, es)) == 0
  {
    if es == [] {
      NothingSettles(s);
    } else {
      CancelledStays(s, es[..|es| - 1]);
      RunFromKeepsInv(s, es[..|es| - 1]);
      CancelledStep(Run(s, es[..|es| - 1]), es[|es| - 1]);
      RunFromKeepsInv(s, es);
      NothingSettles(Run(s, es));
    }
  }

  lemma NothingSettles(s: State)
    requires OnePayment(s) && s.status != Settled
    ensures SettledBy(s) == 0
  {
    TotalMonotone(PaidApp(), Claims(), s.jobs);
    TotalAtLeast(PaidApp(), s.jobs, 0);
    TotalAtLeast(AppliedRow(), s.checkouts, 0);
  }
}
