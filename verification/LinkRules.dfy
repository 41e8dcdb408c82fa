/** When a link takes a use, what a provider's answer does to it, and when it takes no more. */
module LinkRules {
  import opened Wrappers
  import opened Checkouts
  import opened LinkUses

  /** A web checkout takes a use exactly of a link that is active, on time and not used up. */
  lemma ReservesExactly(s: State)
    ensures Step(s, Start)
         == if s.link.active && (s.link.expiry.None? || s.now < s.link.expiry.value)
               && (s.link.maxUses.None? || s.link.uses < s.link.maxUses.value)
            then s.(link := s.link.(uses := s.link.uses + 1), jobs := s.jobs + [Starting])
            else s
  {
  }

  /** So does an app payment when it reads the link; when it reserves, the link may have run out of time meanwhile. */
  lemma PaysExactly(s: State, job: nat)
    requires Is(s, job, Choosing)
    ensures Step(s, PayStart(job))
         == if s.link.active && (s.link.maxUses.None? || s.link.uses < s.link.maxUses.value)
            then s.(link := s.link.(uses := s.link.uses + 1), jobs := s.jobs[job := Paying])
            else s.(jobs := s.jobs[job := Finished(false)])
    ensures Step(s, PayLook)
         == if s.link.active && (s.link.expiry.None? || s.now < s.link.expiry.value)
               && (s.link.maxUses.None? || s.link.uses < s.link.maxUses.value)
            then s.(jobs := s.jobs + [Choosing])
            else s
  {
  }

  /** The answer on a row that still has the status read decides the row, and what is left to do about its use. */
  lemma AnswersExactly(s: State, job: nat, verdict: Verdict)
    requires job < |s.jobs| && s.jobs[job].Reconciling? && s.jobs[job].checkout < |s.checkouts|
    requires s.checkouts[s.jobs[job].checkout].status == s.jobs[job].seen && s.jobs[job].seen in {Pending, Expired}
    ensures var c, seen := s.jobs[job].checkout, s.jobs[job].seen;
            var row := s.checkouts[c];
            Step(s, Claim(job, verdict)) ==
              match verdict
              case Paid =>
                if seen == Pending
                then s.(checkouts := s.checkouts[c := Checkout(Completed, Applied, row.expiresAt)], jobs := s.jobs[job := Finished(false)])
                else s.(checkouts := s.checkouts[c := row.(status := Completed)], jobs := s.jobs[job := Applying(c)])
              case Declined =>
                s.(checkouts := s.checkouts[c := row.(status := Failed)],
                   jobs := s.jobs[job := if seen == Pending then ReleaseOwed else Finished(false)])
              case Undecided =>
                if seen == Pending && row.expiresAt < s.now
                then s.(checkouts := s.checkouts[c := row.(status := Expired)], jobs := s.jobs[job := ReleaseOwed])
                else s.(jobs := s.jobs[job := Finished(false)])
              case NoAnswer => s.(jobs := s.jobs[job := Finished(false)])
  {
  }

  /** A late payment is applied exactly when a use is left for it; otherwise it is recorded, if that can be written. */
  lemma AppliesExactly(s: State, job: nat, recorded: bool)
    requires job < |s.jobs| && s.jobs[job].Applying? && s.jobs[job].checkout < |s.checkouts|
    ensures var c := s.jobs[job].checkout;
            var room := s.link.maxUses.None? || s.link.uses < s.link.maxUses.value;
            Step(s, Apply(job, recorded))
            == s.(link := s.link.(uses := s.link.uses + if room then 1 else 0), jobs := s.jobs[job := Finished(false)],
                  checkouts := s.checkouts[c := s.checkouts[c].(
                    outcome := if room then Applied else if recorded then Exception else Unrecorded)])
  {
  }

  // ---------- when it takes no more ----------

  /** Past its time for good, or switched off and left so. */
  ghost predicate Shut(s: State, es: seq<Event>)
  {
    || (s.link.expiry.Some? && s.link.expiry.value <= s.now)
    || (!s.link.active && forall i :: 0 <= i < |es| ==> es[i] != SetActive(true))
  }

  /** A payer's call that has a use, or has read the link as open. */
  predicate Payer(j: Job) { j == Starting || j == Choosing || j == Paying || j == PaidInApp || j.GiveBackOwed? }

  predicate HasUse(j: Job) { j == Paying || j == PaidInApp || j.GiveBackOwed? }

  lemma ShutStep(s: State, e: Event)
    requires (s.link.expiry.Some? && s.link.expiry.value <= s.now) || (!s.link.active && e != SetActive(true))
    ensures |Step(s, e).jobs| >= |s.jobs| && Step(s, e).now >= s.now && Step(s, e).link.expiry == s.link.expiry
    ensures !s.link.active && e != SetActive(true) ==> !Step(s, e).link.active
    ensures forall j :: 0 <= j < |Step(s, e).jobs| && Payer(Step(s, e).jobs[j]) ==> j < |s.jobs| && Payer(s.jobs[j])
    ensures !s.link.active ==>
              forall j :: 0 <= j < |Step(s, e).jobs| && HasUse(Step(s, e).jobs[j]) ==> j < |s.jobs| && HasUse(s.jobs[j])
  {
  }

  /**
   * A link that is past its time, or switched off, takes no new payer in any run: whoever pays in the app, or leaves for a
   * provider, had read it as open before. While it is switched off not even these get a use.
   */
  lemma {:induction false} ShutLinkTakesNobody(s: State, es: seq<Event>)
    requires Shut(s, es)
    ensures var r := Run(s, es);
            && r.now >= s.now && r.link.expiry == s.link.expiry && |r.jobs| >= |s.jobs|
            && (forall j :: 0 <= j < |r.jobs| && Payer(r.jobs[j]) ==> j < |s.jobs| && Payer(s.jobs[j]))
            && (!s.link.active && (forall i :: 0 <= i < |es| ==> es[i] != SetActive(true)) ==>
                  !r.link.active && forall j :: 0 <= j < |r.jobs| && HasUse(r.jobs[j]) ==> j < |s.jobs| && HasUse(s.jobs[j]))
  {
    if es == [] {
    } else {
      var before := es[..|es| - 1];
      assert forall i :: 0 <= i < |before| ==> before[i] == es[i];
      ShutLinkTakesNobody(s, before);
      ShutStep(Run(s, before), es[|es| - 1]);
    }
  }
}
