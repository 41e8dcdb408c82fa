/**
 * One payment link with a bounded number of uses, shared by app payments and web checkouts. Every call is a job whose
 * database steps interleave with those of any other.
 */
module LinkUses {
  import opened Wrappers
  import opened Sums
  import opened Checkouts

  datatype Job =
    | Starting                                            // a use is reserved, the provider is being asked
    | ReleaseOwed                                         // a reservation must be given back
    | Choosing                                            // an app payment has read the link as open
    | Paying                                              // and has taken a use
    | GiveBackOwed(moved: bool)                           // an app payment threw; `moved` when the money had moved
    | PaidInApp
    | Reconciling(checkout: nat, seen: CheckoutStatus)
    | Applying(checkout: nat)                             // a late payment must take a use again
    | Finished(moved: bool)

  datatype Link = Link(active: bool, expiry: Option<nat>, maxUses: Option<nat>, uses: int)

  datatype State = State(link: Link, checkouts: seq<Checkout>, jobs: seq<Job>, now: nat)

  datatype Event =
    | Start                                               // reserve for a web checkout
    | Opened(job: nat, expiresAt: nat)                    // the provider answered; the checkout row is written
    | StartFailed(job: nat)
    | Release(job: nat)
    | PayLook                                             // an app payment reads the link
    | PayStart(job: nat)                                  // and reserves
    | PayDone(job: nat)
    | PayThrew(job: nat, moved: bool)
    | GiveBack(job: nat)
    | Look(checkout: nat)                                 // a reconciliation reads the row
    | Claim(job: nat, verdict: Verdict)
    | Apply(job: nat, recorded: bool)                     // a payment that finds no use is recorded, if that write succeeds
    | SetActive(active: bool)
    | Tick

  predicate BelowMax(link: Link) { link.maxUses.Some? ==> link.uses < link.maxUses.value }

  predicate OnTime(link: Link, now: nat) { link.expiry.Some? ==> link.expiry.value > now }

  function AddUses(s: State, n: int): State { s.(link := s.link.(uses := s.link.uses + n)) }

  function AddJob(s: State, job: Job): State { s.(jobs := s.jobs + [job]) }

  predicate Is(s: State, job: nat, stage: Job) { job < |s.jobs| && s.jobs[job] == stage }

  function Go(s: State, job: nat, stage: Job): State
    requires job < |s.jobs|
  {
    s.(jobs := s.jobs[job := stage])
  }

  function SetCheckout(s: State, c: nat, row: Checkout): State
    requires c < |s.checkouts|
  {
    s.(checkouts := s.checkouts[c := row])
  }

  predicate CanReserve(s: State) { s.link.active && OnTime(s.link, s.now) && BelowMax(s.link) }

  /** The database refuses to take a use count below zero. */
  function DoRelease(s: State, job: nat): State
  {
    if !Is(s, job, ReleaseOwed) then s
    else if s.link.uses > 0 then Go(AddUses(s, -1), job, Finished(false))
    else Go(s, job, Finished(false))
  }

  function DoPayThrew(s: State, job: nat, moved: bool): State
  {
    if Is(s, job, Paying) then Go(s, job, GiveBackOwed(moved)) else s
  }

  function DoGiveBack(s: State, job: nat): State
  {
    if job < |s.jobs| && s.jobs[job].GiveBackOwed?
    then Go(AddUses(s, -1), job, Finished(s.jobs[job].moved))
    else s
  }

  function DoLook(s: State, c: nat): State
  {
    if c < |s.checkouts| && Reconcilable(s.checkouts[c].status) then AddJob(s, Reconciling(c, s.checkouts[c].status)) else s
  }

  function DoClaim(s: State, job: nat, verdict: Verdict): State
  {
    if job < |s.jobs| && s.jobs[job].Reconciling? && s.jobs[job].checkout < |s.checkouts| then
      var c, seen := s.jobs[job].checkout, s.jobs[job].seen;
      var row := s.checkouts[c];
      var claim := ClaimFor(seen, verdict, row.expiresAt < s.now);
      if claim.None? || row.status != seen then Go(s, job, Finished(false))
      else if claim == Some(Completed) && seen == Pending then
        Go(SetCheckout(s, c, row.(status := Completed, outcome := Applied)), job, Finished(false))
      else
        var next := if claim == Some(Completed) then Applying(c) else if seen == Pending then ReleaseOwed else Finished(false);
        Go(SetCheckout(s, c, row.(status := claim.value)), job, next)
    else s
  }

  function DoApply(s: State, job: nat, recorded: bool): State
  {
    if job < |s.jobs| && s.jobs[job].Applying? && s.jobs[job].checkout < |s.checkouts| then
      var c := s.jobs[job].checkout;
      if BelowMax(s.link)
      then Go(SetCheckout(AddUses(s, 1), c, s.checkouts[c].(outcome := Applied)), job, Finished(false))
      else Go(SetCheckout(s, c, s.checkouts[c].(outcome := Refused(recorded))), job, Finished(false))
    else s
  }

  function Step(s: State, e: Event): State
  {
    match e
    case Start => if CanReserve(s) then AddJob(AddUses(s, 1), Starting) else s
    case Opened(job, expiresAt) =>
      if Is(s, job, Starting)
      then Go(s.(checkouts := s.checkouts + [Checkout(Pending, Unsettled, expiresAt)]), job, Finished(false))
      else s
    case StartFailed(job) => if Is(s, job, Starting) then Go(s, job, ReleaseOwed) else s
    case Release(job) => DoRelease(s, job)
    case PayLook => if CanReserve(s) then AddJob(s, Choosing) else s
    case PayStart(job) =>
      if !Is(s, job, Choosing) then s
      else if s.link.active && BelowMax(s.link) then Go(AddUses(s, 1), job, Paying)
      else Go(s, job, Finished(false))
    case PayDone(job) => if Is(s, job, Paying) then Go(s, job, PaidInApp) else s
    case PayThrew(job, moved) => DoPayThrew(s, job, moved)
    case GiveBack(job) => DoGiveBack(s, job)
    case Look(checkout) => DoLook(s, checkout)
    case Claim(job, verdict) => DoClaim(s, job, verdict)
    case Apply(job, recorded) => DoApply(s, job, recorded)
    case SetActive(active) => s.(link := s.link.(active := active))
    case Tick => s.(now := s.now + 1)
  }

  function Run(s: State, es: seq<Event>): State
  {
    if es == [] then s else Step(Run(s, es[..|es| - 1]), es[|es| - 1])
  }

  predicate Created(s: State) { s.link.uses == 0 && s.checkouts == [] && s.jobs == [] }

  // ---------- who holds the uses ----------

  function JobUses(): Job -> int
  {
    (j: Job) => if j == Starting || j == ReleaseOwed || j == Paying || j.GiveBackOwed? || j == PaidInApp then 1 else 0
  }

  function CheckoutUses(): Checkout -> int
  {
    (c: Checkout) => if c.status == Pending || c.outcome == Applied then 1 else 0
  }

  predicate JobOk(s: State, j: Job)
  {
    match j
    case Applying(c) => c < |s.checkouts| && s.checkouts[c].status == Completed && s.checkouts[c].outcome == Unsettled
    case Reconciling(c, seen) => c < |s.checkouts| && Reconcilable(seen)
    case _ => true
  }

  predicate CheckoutOk(c: Checkout) { c.outcome != Unsettled ==> c.status == Completed }

  ghost predicate Accounted(s: State)
  {
    s.link.uses == Total(JobUses(), s.jobs) + Total(CheckoutUses(), s.checkouts)
  }

  /** Rows and jobs stay in step; a completed row has one job at most that may still apply it. */
  ghost predicate RowsOk(s: State)
  {
    && (forall j :: 0 <= j < |s.jobs| ==> JobOk(s, s.jobs[j]))
    && (forall c :: 0 <= c < |s.checkouts| ==> CheckoutOk(s.checkouts[c]))
    && (forall i, j :: 0 <= i < j < |s.jobs| && s.jobs[i].Applying? ==> s.jobs[j] != s.jobs[i])
  }

  predicate Bounded(link: Link) { link.maxUses.Some? ==> link.uses <= link.maxUses.value }

  ghost predicate Inv(s: State)
  {
    && Accounted(s)
    && Bounded(s.link)
    && RowsOk(s)
  }

  lemma NonNegative(s: State)
    ensures Total(JobUses(), s.jobs) >= 0 && Total(CheckoutUses(), s.checkouts) >= 0
  {
    TotalAtLeast(JobUses(), s.jobs, 0);
    TotalAtLeast(CheckoutUses(), s.checkouts, 0);
  }

  lemma JobHoldsOne(s: State, job: nat)
    requires job < |s.jobs|
    ensures Total(JobUses(), s.jobs) >= JobUses()(s.jobs[job])
  {
    TotalAtLeast(JobUses(), s.jobs, job);
  }

  lemma JobMoves(s: State, job: nat, stage: Job)
    requires job < |s.jobs|
    ensures Total(JobUses(), s.jobs[job := stage])
         == Total(JobUses(), s.jobs) - JobUses()(s.jobs[job]) + JobUses()(stage)
  {
    TotalUpdate(JobUses(), s.jobs, job, stage);
  }

  lemma RowMoves(s: State, c: nat, row: Checkout)
    requires c < |s.checkouts|
    ensures Total(CheckoutUses(), s.checkouts[c := row])
         == Total(CheckoutUses(), s.checkouts) - CheckoutUses()(s.checkouts[c]) + CheckoutUses()(row)
  {
    TotalUpdate(CheckoutUses(), s.checkouts, c, row);
  }

  lemma ClaimAccounted(s: State, job: nat, verdict: Verdict)
    requires Inv(s)
    ensures Accounted(DoClaim(s, job, verdict))
  {
    if DoClaim(s, job, verdict) != s {
      var c, r := s.jobs[job].checkout, DoClaim(s, job, verdict);
      assert CheckoutOk(s.checkouts[c]) && JobOk(s, s.jobs[job]);
      JobMoves(s, job, r.jobs[job]);
      RowMoves(s, c, r.checkouts[c]);
      assert r.checkouts == s.checkouts[c := r.checkouts[c]] && r.jobs == s.jobs[job := r.jobs[job]];
    }
  }

  lemma ApplyAccounted(s: State, job: nat, recorded: bool)
    requires Inv(s)
    ensures Accounted(DoApply(s, job, recorded))
  {
    if DoApply(s, job, recorded) != s {
      var c, r := s.jobs[job].checkout, DoApply(s, job, recorded);
      assert JobOk(s, s.jobs[job]);
      JobMoves(s, job, r.jobs[job]);
      RowMoves(s, c, r.checkouts[c]);
    }
  }

  lemma ReleaseAccounted(s: State, job: nat)
    requires Inv(s)
    ensures Accounted(DoRelease(s, job))
  {
    if Is(s, job, ReleaseOwed) {
      NonNegative(s);
      JobHoldsOne(s, job);
      JobMoves(s, job, Finished(false));
    }
  }

  lemma OpenedAccounted(s: State, job: nat, expiresAt: nat)
    requires Inv(s)
    ensures Accounted(Step(s, Opened(job, expiresAt)))
  {
    if Is(s, job, Starting) {
      JobMoves(s, job, Finished(false));
      TotalAppend(CheckoutUses(), s.checkouts, Checkout(Pending, Unsettled, expiresAt));
    }
  }

  lemma BeginAccounted(s: State, e: Event)
    requires Inv(s) && (e.Start? || e.PayLook? || e.Look?)
    ensures Accounted(Step(s, e))
  {
  }

  /** Events that move a job without touching a checkout. */
  lemma MoveAccounted(s: State, e: Event)
    requires Inv(s) && (e.StartFailed? || e.PayStart? || e.PayDone? || e.PayThrew? || e.GiveBack?)
    ensures Accounted(Step(s, e))
  {
    if e.job < |s.jobs| {
      match e
      case StartFailed(job) => JobMoves(s, job, ReleaseOwed);
      case PayStart(job) => JobMoves(s, job, Step(s, e).jobs[job]);
      case PayDone(job) => JobMoves(s, job, PaidInApp);
      case PayThrew(job, moved) => JobMoves(s, job, GiveBackOwed(moved));
      case GiveBack(job) => if s.jobs[job].GiveBackOwed? { JobMoves(s, job, Finished(s.jobs[job].moved)); }
    }
  }

  lemma StepAccounted(s: State, e: Event)
    requires Inv(s)
    ensures Accounted(Step(s, e))
  {
    match e
    case Claim(job, verdict) => ClaimAccounted(s, job, verdict);
    case Apply(job, recorded) => ApplyAccounted(s, job, recorded);
    case Release(job) => ReleaseAccounted(s, job);
    case Opened(job, expiresAt) => OpenedAccounted(s, job, expiresAt);
    case SetActive(_) =>
    case Tick =>
    case Start => BeginAccounted(s, e);
    case PayLook => BeginAccounted(s, e);
    case Look(_) => BeginAccounted(s, e);
    case _ => MoveAccounted(s, e);
  }

  lemma StepKeepsBound(s: State, e: Event)
    requires Bounded(s.link)
    ensures Bounded(Step(s, e).link) && Step(s, e).link.maxUses == s.link.maxUses
  {
  }

  lemma ClaimKeepsRows(s: State, job: nat, verdict: Verdict)
    requires RowsOk(s)
    ensures RowsOk(DoClaim(s, job, verdict))
  {
  }

  lemma ApplyKeepsRows(s: State, job: nat, recorded: bool)
    requires RowsOk(s)
    ensures RowsOk(DoApply(s, job, recorded))
  {
  }

  lemma OtherKeepsRows(s: State, e: Event)
    requires RowsOk(s) && !e.Claim? && !e.Apply?
    ensures RowsOk(Step(s, e))
  {
    var r := Step(s, e);
    forall j | 0 <= j < |r.jobs|
      ensures JobOk(r, r.jobs[j])
    {
      assert j < |s.jobs| ==> JobOk(s, s.jobs[j]);
    }
  }

  lemma StepKeepsInv(s: State, e: Event)
    requires Inv(s)
    ensures Inv(Step(s, e)) && Step(s, e).link.maxUses == s.link.maxUses
  {
    StepAccounted(s, e);
    StepKeepsBound(s, e);
    match e
    case Claim(job, verdict) => ClaimKeepsRows(s, job, verdict);
    case Apply(job, recorded) => ApplyKeepsRows(s, job, recorded);
    case _ => OtherKeepsRows(s, e);
  }

  /** In every interleaving, each use is held by exactly one job, open checkout or applied payment, and none is oversold. */
  lemma {:induction false} RunKeepsInv(s: State, es: seq<Event>)
    requires Inv(s)
    ensures Inv(Run(s, es)) && Run(s, es).link.maxUses == s.link.maxUses
  {
    if es == [] {
    } else {
      RunKeepsInv(s, es[..|es| - 1]);
      StepKeepsInv(Run(s, es[..|es| - 1]), es[|es| - 1]);
    }
  }

  // ---------- what follows ----------

  /** A release that is owed always finds a use to give back: the guard against going below zero never bites. */
  lemma ReleaseNeverBlocked(s: State, es: seq<Event>, job: nat)
    requires Created(s) && Is(Run(s, es), job, ReleaseOwed)
    ensures Run(s, es).link.uses > 0
    ensures DoRelease(Run(s, es), job).link.uses == Run(s, es).link.uses - 1
  {
    RunKeepsInv(s, es);
    NonNegative(Run(s, es));
    JobHoldsOne(Run(s, es), job);
  }

  /** Payments that keep a use: app payments that went through and web payments applied to the link. */
  function Sold(s: State): int
  {
    Total(SoldInApp(), s.jobs) + Total(SoldOnWeb(), s.checkouts)
  }

  function SoldInApp(): Job -> int { (j: Job) => if j == PaidInApp then 1 else 0 }

  function SoldOnWeb(): Checkout -> int { (c: Checkout) => if c.outcome == Applied then 1 else 0 }

  function Open(): Checkout -> int { (c: Checkout) => if c.status == Pending then 1 else 0 }

  /** A link is never sold more often than it allows, and its count is never negative. */
  lemma NeverOversold(s: State, es: seq<Event>)
    requires Created(s)
    ensures var r := Run(s, es);
            && 0 <= Sold(r) <= r.link.uses
            && (s.link.maxUses.Some? ==> r.link.uses <= s.link.maxUses.value)
  {
    RunKeepsInv(s, es);
    var r := Run(s, es);
    TotalMonotone(SoldInApp(), JobUses(), r.jobs);
    TotalMonotone(SoldOnWeb(), CheckoutUses(), r.checkouts);
    TotalAtLeast(SoldInApp(), r.jobs, 0);
    TotalAtLeast(SoldOnWeb(), r.checkouts, 0);
  }

  predicate Idle(j: Job) { j.PaidInApp? || j.Finished? || j.Reconciling? || j.Choosing? }

  /** Once nothing is in flight, every use belongs to a payment or to a checkout that is still open: none is lost. */
  lemma NoUseLost(s: State, es: seq<Event>)
    requires Created(s) && forall j :: 0 <= j < |Run(s, es).jobs| ==> Idle(Run(s, es).jobs[j])
    ensures var r := Run(s, es);
            r.link.uses == Sold(r) + Total(Open(), r.checkouts)
  {
    RunKeepsInv(s, es);
    var r := Run(s, es);
    TotalSame(JobUses(), SoldInApp(), r.jobs);
    TotalPlus(SoldOnWeb(), Open(), CheckoutUses(), r.checkouts);
  }

  // ---------- jobs that stop ----------

  /** The job whose step an event is. */
  function Actor(e: Event): Option<nat>
  {
    match e
    case Opened(job, _) => Some(job)
    case StartFailed(job) => Some(job)
    case Release(job) => Some(job)
    case PayStart(job) => Some(job)
    case PayDone(job) => Some(job)
    case PayThrew(job, _) => Some(job)
    case GiveBack(job) => Some(job)
    case Claim(job, _) => Some(job)
    case Apply(job, _) => Some(job)
    case _ => None
  }

  ghost predicate Stopped(es: seq<Event>, dead: set<nat>)
  {
    forall i :: 0 <= i < |es| && Actor(es[i]).Some? ==> Actor(es[i]).value !in dead
  }

  /** It holds a use that is no payment's: reserved, or to be given back. */
  function HoldsBack(): Job -> int
  {
    (j: Job) => if j == Starting || j == ReleaseOwed || j == Paying || j.GiveBackOwed? then 1 else 0
  }

  lemma {:induction false} StoppedJobsStay(s: State, es: seq<Event>, dead: set<nat>)
    requires Stopped(es, dead) && forall d <- dead :: d < |s.jobs|
    ensures forall d <- dead :: d < |Run(s, es).jobs| && Run(s, es).jobs[d] == s.jobs[d]
  {
    if es == [] {
    } else {
      StoppedJobsStay(s, es[..|es| - 1], dead);
      assert Actor(es[|es| - 1]).Some? ==> Actor(es[|es| - 1]).value !in dead;
    }
  }

  /**
   * Jobs that stop while they hold a use keep it: in every run without a step of theirs, payments that keep a use and open
   * checkouts stay below the count, and so below the link's limit, by at least as many.
   */
  lemma StoppedJobsKeepUses(s: State, es: seq<Event>, dead: set<nat>)
    requires Inv(s) && Stopped(es, dead) && forall d <- dead :: d < |s.jobs| && HoldsBack()(s.jobs[d]) == 1
    ensures var r := Run(s, es);
            && Sold(r) + Total(Open(), r.checkouts) + |dead| <= r.link.uses
            && (s.link.maxUses.Some? ==> Sold(r) + Total(Open(), r.checkouts) <= s.link.maxUses.value - |dead|)
  {
    RunKeepsInv(s, es);
    StoppedJobsStay(s, es, dead);
    var r := Run(s, es);
    TotalPlus(SoldInApp(), HoldsBack(), JobUses(), r.jobs);
    TotalPlus(SoldOnWeb(), Open(), CheckoutUses(), r.checkouts);
    TotalAtLeastCount(HoldsBack(), r.jobs, dead);
  }

  // ---------- who is charged ----------

  /** App payments whose money moved, whether or not they kept their use. */
  function MovedInApp(): Job -> int
  {
    (j: Job) => if j == PaidInApp || (j.GiveBackOwed? && j.moved) || (j.Finished? && j.moved) then 1 else 0
  }

  /** Web payments that completed, whether or not they were applied. */
  function Completions(): Checkout -> int { (c: Checkout) => if c.status == Completed then 1 else 0 }

  /** Everyone who has paid. */
  function Charged(s: State): int { Total(MovedInApp(), s.jobs) + Total(Completions(), s.checkouts) }

  /** App payments that gave their use back although their money had moved. */
  function Lost(): Job -> int { (j: Job) => if (j.GiveBackOwed? || j.Finished?) && j.moved then 1 else 0 }

  /** Web payments that completed and were not applied. */
  function Unapplied(): Checkout -> int { (c: Checkout) => if c.status == Completed && c.outcome != Applied then 1 else 0 }

  /** Who paid either was sold a use, or was undone after paying, or completed a web payment that was not applied. */
  lemma ChargedEquation(s: State, es: seq<Event>)
    requires Created(s)
    ensures var r := Run(s, es);
            Charged(r) == Sold(r) + Total(Lost(), r.jobs) + Total(Unapplied(), r.checkouts)
  {
    RunKeepsInv(s, es);
    var r := Run(s, es);
    TotalPlus(SoldInApp(), Lost(), MovedInApp(), r.jobs);
    forall c | 0 <= c < |r.checkouts|
      ensures Completions()(r.checkouts[c]) == SoldOnWeb()(r.checkouts[c]) + Unapplied()(r.checkouts[c])
    {
      assert CheckoutOk(r.checkouts[c]);
    }
    TotalPlus(SoldOnWeb(), Unapplied(), Completions(), r.checkouts);
  }

  ghost predicate NoLateThrow(es: seq<Event>)
  {
    forall i :: 0 <= i < |es| ==> !(es[i].PayThrew? && es[i].moved)
  }

  lemma {:induction false} NothingLostRun(s: State, es: seq<Event>)
    requires Created(s) && NoLateThrow(es)
    ensures forall j :: 0 <= j < |Run(s, es).jobs| ==> Lost()(Run(s, es).jobs[j]) == 0
  {
    if es == [] {
    } else {
      NothingLostRun(s, es[..|es| - 1]);
      var r := Run(s, es[..|es| - 1]);
      forall j | 0 <= j < |Run(s, es).jobs|
        ensures Lost()(Run(s, es).jobs[j]) == 0
      {
        assert j < |r.jobs| ==> Lost()(r.jobs[j]) == 0;
      }
    }
  }

  /** The provider has not decided when the hold of an open checkout is over. */
  predicate Expires(s: State, e: Event)
  {
    && e.Claim? && e.verdict == Undecided && e.job < |s.jobs| && s.jobs[e.job].Reconciling? && s.jobs[e.job].seen == Pending
    && s.jobs[e.job].checkout < |s.checkouts| && s.checkouts[s.jobs[e.job].checkout].expiresAt < s.now
  }

  ghost predicate NeverExpires(s: State, es: seq<Event>)
  {
    es == [] || (NeverExpires(s, es[..|es| - 1]) && !Expires(Run(s, es[..|es| - 1]), es[|es| - 1]))
  }

  predicate Punctual(s: State)
  {
    && (forall c :: 0 <= c < |s.checkouts| ==>
          s.checkouts[c].status != Expired && (s.checkouts[c].status == Completed ==> s.checkouts[c].outcome == Applied))
    && (forall j :: 0 <= j < |s.jobs| ==> !s.jobs[j].Applying? && (s.jobs[j].Reconciling? ==> s.jobs[j].seen == Pending))
  }

  lemma PunctualClaim(s: State, job: nat, verdict: Verdict)
    requires Punctual(s) && !Expires(s, Claim(job, verdict))
    ensures Punctual(DoClaim(s, job, verdict))
  {
  }

  lemma PunctualStep(s: State, e: Event)
    requires Punctual(s) && !Expires(s, e)
    ensures Punctual(Step(s, e))
  {
    if e.Claim? {
      PunctualClaim(s, e.job, e.verdict);
    }
  }

  lemma {:induction false} PunctualRun(s: State, es: seq<Event>)
    requires Created(s) && NeverExpires(s, es)
    ensures Punctual(Run(s, es))
  {
    if es == [] {
    } else {
      PunctualRun(s, es[..|es| - 1]);
      PunctualStep(Run(s, es[..|es| - 1]), es[|es| - 1]);
    }
  }

  /**
   * No more payers are charged than the link allows, unless something throws after the money of an app payment moved, or
   * the hold of a checkout ends before its provider decides.
   */
  lemma ChargedWithinMax(s: State, es: seq<Event>)
    requires Created(s) && NoLateThrow(es) && NeverExpires(s, es) && s.link.maxUses.Some?
    ensures Charged(Run(s, es)) <= s.link.maxUses.value
  {
    NothingLostRun(s, es);
    TotalZero(Lost(), Run(s, es).jobs);
    PunctualRun(s, es);
    TotalZero(Unapplied(), Run(s, es).checkouts);
    ChargedEquation(s, es);
    NeverOversold(s, es);
  }

  // ---------- late payments ----------

  /** A job is all that can still settle its late payment, or it has done so. */
  predicate Attached(s: State, job: nat, c: nat)
  {
    && job < |s.jobs| && c < |s.checkouts| && s.checkouts[c].status == Completed
    && ((s.jobs[job] == Applying(c) && s.checkouts[c].outcome == Unsettled)
        || (s.jobs[job].Finished? && s.checkouts[c].outcome != Unsettled))
  }

  lemma StaysAttached(s: State, e: Event, job: nat, c: nat)
    requires Inv(s) && Attached(s, job, c)
    ensures Attached(Step(s, e), job, c)
    ensures s.jobs[job] == Applying(c) && !(e.Apply? && e.job == job) ==> Step(s, e).jobs[job] == Applying(c)
  {
    if e.Claim? && e.job < |s.jobs| {
      assert JobOk(s, s.jobs[e.job]);
    } else if e.Apply? && e.job < |s.jobs| && s.jobs[e.job].Applying? && e.job != job {
      assert JobOk(s, s.jobs[e.job]);
    }
  }

  /**
   * A late payment whose job stops is dropped: in every run it stays neither applied nor recorded exactly as long as that
   * job has not taken its step, and no other job takes it instead.
   */
  lemma {:induction false} OnlyItsJobSettles(s: State, es: seq<Event>, job: nat, c: nat)
    requires Inv(s) && Is(s, job, Applying(c))
    ensures var r := Run(s, es);
            && Attached(r, job, c)
            && (r.checkouts[c].outcome == Unsettled <==> r.jobs[job] == Applying(c))
            && ((forall i :: 0 <= i < |es| ==> !(es[i].Apply? && es[i].job == job)) ==> r.checkouts[c].outcome == Unsettled)
  {
    if es == [] {
      assert JobOk(s, s.jobs[job]);
    } else {
      OnlyItsJobSettles(s, es[..|es| - 1], job, c);
      RunKeepsInv(s, es[..|es| - 1]);
      StaysAttached(Run(s, es[..|es| - 1]), es[|es| - 1], job, c);
    }
  }

  lemma Then(start: State, es: seq<Event>, s: State, e: Event) returns (more: seq<Event>, next: State)
    requires Run(start, es) == s
    ensures Run(start, more) == next == Step(s, e)
  {
    more, next := es + [e], Step(s, e);
    assert more[..|more| - 1] == es;
  }

  /** A link for one payment. */
  const ONE_USE := State(Link(true, None, Some(1), 0), [], [], 0)

  lemma UndoneAfterPaying() returns (es: seq<Event>, r: State)
    ensures Run(ONE_USE, es) == r == ONE_USE.(jobs := [Finished(true)])
  {
    es, r := Then(ONE_USE, [], ONE_USE, PayLook);
    es, r := Then(ONE_USE, es, r, PayStart(0));
    assert r.jobs == [Paying];
    es, r := Then(ONE_USE, es, r, PayThrew(0, true));
    es, r := Then(ONE_USE, es, r, GiveBack(0));
  }

  /** A payment that throws after its money moved gives its use back: a link for one payment then takes two. */
  lemma LateThrowTakesTwo() returns (es: seq<Event>)
    ensures Charged(Run(ONE_USE, es)) == 2
  {
    var s, r := ONE_USE, ONE_USE;
    es, r := UndoneAfterPaying();
    es, r := Then(s, es, r, PayLook);
    es, r := Then(s, es, r, PayStart(1));
    es, r := Then(s, es, r, PayDone(1));
    assert r.jobs == [] + [Finished(true)] + [PaidInApp];
    TotalAppend(MovedInApp(), [], Finished(true));
    TotalAppend(MovedInApp(), [Finished(true)], PaidInApp);
  }

  lemma CheckoutOpened() returns (es: seq<Event>, r: State)
    ensures Run(ONE_USE, es) == r
    ensures r == State(Link(true, None, Some(1), 1), [Checkout(Pending, Unsettled, 0)], [Finished(false)], 1)
  {
    es, r := Then(ONE_USE, [], ONE_USE, Start);
    es, r := Then(ONE_USE, es, r, Opened(0, 0));
    es, r := Then(ONE_USE, es, r, Tick);
  }

  lemma HoldEnds() returns (es: seq<Event>, r: State)
    ensures Run(ONE_USE, es) == r
    ensures r == State(Link(true, None, Some(1), 1), [Checkout(Expired, Unsettled, 0)], [Finished(false), ReleaseOwed], 1)
  {
    es, r := CheckoutOpened();
    es, r := Then(ONE_USE, es, r, Look(0));
    assert r.jobs == [Finished(false), Reconciling(0, Pending)];
    es, r := Then(ONE_USE, es, r, Claim(1, Undecided));
  }

  lemma PaidMeanwhile() returns (es: seq<Event>, r: State)
    ensures Run(ONE_USE, es) == r
    ensures r == State(Link(true, None, Some(1), 1), [Checkout(Expired, Unsettled, 0)],
                       [Finished(false), Finished(false), PaidInApp], 1)
  {
    es, r := HoldEnds();
    es, r := Then(ONE_USE, es, r, Release(1));
    es, r := Then(ONE_USE, es, r, PayLook);
    es, r := Then(ONE_USE, es, r, PayStart(2));
    es, r := Then(ONE_USE, es, r, PayDone(2));
  }

  lemma PaidTooLate() returns (es: seq<Event>, r: State)
    ensures Run(ONE_USE, es) == r && r.checkouts == [Checkout(Completed, Exception, 0)]
    ensures r.jobs == [Finished(false), Finished(false), PaidInApp, Finished(false)]
  {
    es, r := PaidMeanwhile();
    es, r := Then(ONE_USE, es, r, Look(0));
    es, r := Then(ONE_USE, es, r, Claim(3, Verdict.Paid));
    assert r.jobs == [Finished(false), Finished(false), PaidInApp, Applying(0)];
    es, r := Then(ONE_USE, es, r, Apply(3, true));
  }

  /** Nothing throws, and a link for one payment charges two: a web payment completes after its hold was given to another. */
  lemma LateCompletionChargesTwo() returns (es: seq<Event>)
    ensures Charged(Run(ONE_USE, es)) == 2 && Total(Lost(), Run(ONE_USE, es).jobs) == 0
    ensures Run(ONE_USE, es).checkouts == [Checkout(Completed, Exception, 0)]
  {
    var r: State;
    es, r := PaidTooLate();
    TotalZero(Lost(), r.jobs);
    TotalAppend(Completions(), [], r.checkouts[0]);
    assert [] + [r.checkouts[0]] == r.checkouts;
    TotalDiffersAt((j: Job) => 0, MovedInApp(), r.jobs, 2);
    TotalZero((j: Job) => 0, r.jobs);
  }
}
