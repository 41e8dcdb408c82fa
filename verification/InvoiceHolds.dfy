/**
 * One invoice, paid in the app or by web checkouts that hold it for a while. Every call is a job whose database steps
 * interleave with those of any other; a step compares hold times with a clock reading taken a little earlier.
 */
module InvoiceHolds {
  import opened Wrappers
  import opened Sums
  import opened Checkouts

  datatype InvoiceStatus = Draft | Issued | Viewed | Overdue | Settled | Cancelled

  datatype Hold = Hold(checkout: nat, until: nat)

  datatype Job =
    | Choosing(seen: InvoiceStatus)                       // an app payment has read the invoice
    | Paying(seen: InvoiceStatus)                         // and claimed it
    | Moved(seen: InvoiceStatus)                          // and its money has moved
    | UndoOwed(seen: InvoiceStatus, moved: bool)          // and something threw
    | PaidInApp
    | Opening(checkout: nat)                              // a web checkout holds the invoice, its row is not written yet
    | ReleaseOwed(checkout: nat)
    | Reconciling(checkout: nat, read: CheckoutStatus)
    | Applying(checkout: nat)                             // a completed web payment is to be applied
    | Finished(moved: bool)

  /** Every hold takes a new checkout id, its position in `checkouts`; the row there is written once the provider has answered. */
  datatype State = State(
    status: InvoiceStatus, hold: Option<Hold>, checkouts: seq<Option<Checkout>>, jobs: seq<Job>, now: nat)

  datatype Event =
    | Send | View | MarkOverdue | Cancel
    | Choose                                              // app: read
    | Take(job: nat, clock: nat)                          // app: claim
    | Transfer(job: nat)
    | Throw(job: nat, late: bool)                         // late: after the money moved
    | Confirm(job: nat)
    | Undo(job: nat)
    | Reserve(until: nat, clock: nat)                     // web: hold under a fresh checkout id
    | Opened(job: nat, expiresAt: nat)
    | OpenFailed(job: nat)
    | Release(job: nat)
    | Look(checkout: nat)
    | Claim(job: nat, verdict: Verdict)
    | Apply(job: nat, clock: nat, recorded: bool)         // one that cannot be applied is recorded, if that write succeeds
    | Tick

  predicate Payable(status: InvoiceStatus) { status == Issued || status == Viewed || status == Overdue }

  /** No hold, or one whose time is strictly past. */
  predicate Free(hold: Option<Hold>, clock: nat) { hold.None? || hold.value.until < clock }

  predicate HeldBy(hold: Option<Hold>, c: nat) { hold.Some? && hold.value.checkout == c }

  predicate Is(s: State, job: nat) { job < |s.jobs| }

  function Go(s: State, job: nat, stage: Job): State
    requires job < |s.jobs|
  {
    s.(jobs := s.jobs[job := stage])
  }

  function AddJob(s: State, job: Job): State { s.(jobs := s.jobs + [job]) }

  predicate Written(s: State, c: nat) { c < |s.checkouts| && s.checkouts[c].Some? }

  function SetCheckout(s: State, c: nat, row: Checkout): State
    requires c < |s.checkouts|
  {
    s.(checkouts := s.checkouts[c := Some(row)])
  }

  function DoTake(s: State, job: nat, clock: nat): State
  {
    if Is(s, job) && s.jobs[job].Choosing? && clock <= s.now then
      if Payable(s.status) && Free(s.hold, clock)
      then Go(s.(status := Settled), job, Paying(s.jobs[job].seen))
      else Go(s, job, Finished(false))
    else s
  }

  function DoThrow(s: State, job: nat, late: bool): State
  {
    if !late && Is(s, job) && s.jobs[job].Paying? then Go(s, job, UndoOwed(s.jobs[job].seen, false))
    else if late && Is(s, job) && s.jobs[job].Moved? then Go(s, job, UndoOwed(s.jobs[job].seen, true))
    else s
  }

  /** Compensation writes back the status that was read, whatever the row says now. */
  function DoUndo(s: State, job: nat): State
  {
    if Is(s, job) && s.jobs[job].UndoOwed?
    then Go(s.(status := s.jobs[job].seen), job, Finished(s.jobs[job].moved))
    else s
  }

  function DoReserve(s: State, until: nat, clock: nat): State
  {
    if clock <= s.now && Payable(s.status) && Free(s.hold, clock) then
      var c := |s.checkouts|;
      AddJob(s.(hold := Some(Hold(c, until)), checkouts := s.checkouts + [None]), Opening(c))
    else s
  }

  function DoOpened(s: State, job: nat, expiresAt: nat): State
  {
    if Is(s, job) && s.jobs[job].Opening? && s.jobs[job].checkout < |s.checkouts|
    then Go(SetCheckout(s, s.jobs[job].checkout, Checkout(Pending, Unsettled, expiresAt)), job, Finished(false))
    else s
  }

  function DoRelease(s: State, job: nat): State
  {
    if Is(s, job) && s.jobs[job].ReleaseOwed?
    then Go(s.(hold := if HeldBy(s.hold, s.jobs[job].checkout) then None else s.hold), job, Finished(false))
    else s
  }

  function DoLook(s: State, c: nat): State
  {
    if Written(s, c) && Reconcilable(s.checkouts[c].value.status)
    then AddJob(s, Reconciling(c, s.checkouts[c].value.status))
    else s
  }

  function DoClaim(s: State, job: nat, verdict: Verdict): State
  {
    if Is(s, job) && s.jobs[job].Reconciling? && Written(s, s.jobs[job].checkout) then
      var c, read := s.jobs[job].checkout, s.jobs[job].read;
      var row := s.checkouts[c].value;
      var claim := ClaimFor(read, verdict, row.expiresAt < s.now);
      if claim.None? || row.status != read then Go(s, job, Finished(false))
      else
        var next := if claim == Some(Completed) then Applying(c) else if read == Pending then ReleaseOwed(c) else Finished(false);
        Go(SetCheckout(s, c, row.(status := claim.value)), job, next)
    else s
  }

  predicate CanApply(s: State, c: nat, clock: nat)
  {
    Payable(s.status) && (HeldBy(s.hold, c) || Free(s.hold, clock))
  }

  function DoApply(s: State, job: nat, clock: nat, recorded: bool): State
  {
    if Is(s, job) && s.jobs[job].Applying? && Written(s, s.jobs[job].checkout) && clock <= s.now then
      var c := s.jobs[job].checkout;
      var row := s.checkouts[c].value;
      if CanApply(s, c, clock)
      then Go(SetCheckout(s.(status := Settled, hold := None), c, row.(outcome := Applied)), job, Finished(false))
      else Go(SetCheckout(s, c, row.(outcome := Refused(recorded))), job, Finished(false))
    else s
  }

  function Step(s: State, e: Event): State
  {
    match e
    case Send => if s.status == Draft then s.(status := Issued) else s
    case View => if s.status == Issued then s.(status := Viewed) else s
    case MarkOverdue => if s.status == Issued || s.status == Viewed then s.(status := Overdue) else s
    case Cancel => if s.status == Draft || Payable(s.status) then s.(status := Cancelled) else s
    case Choose => if Payable(s.status) then AddJob(s, Choosing(s.status)) else s
    case Take(job, clock) => DoTake(s, job, clock)
    case Transfer(job) => if Is(s, job) && s.jobs[job].Paying? then Go(s, job, Moved(s.jobs[job].seen)) else s
    case Throw(job, late) => DoThrow(s, job, late)
    case Confirm(job) => if Is(s, job) && s.jobs[job].Moved? then Go(s, job, PaidInApp) else s
    case Undo(job) => DoUndo(s, job)
    case Reserve(until, clock) => DoReserve(s, until, clock)
    case Opened(job, expiresAt) => DoOpened(s, job, expiresAt)
    case OpenFailed(job) => if Is(s, job) && s.jobs[job].Opening? then Go(s, job, ReleaseOwed(s.jobs[job].checkout)) else s
    case Release(job) => DoRelease(s, job)
    case Look(checkout) => DoLook(s, checkout)
    case Claim(job, verdict) => DoClaim(s, job, verdict)
    case Apply(job, clock, recorded) => DoApply(s, job, clock, recorded)
    case Tick => s.(now := s.now + 1)
  }

  function Run(s: State, es: seq<Event>): State
  {
    if es == [] then s else Step(Run(s, es[..|es| - 1]), es[|es| - 1])
  }

  const NEW_INVOICE := State(Draft, None, [], [], 0)

  // ---------- one payment at a time ----------

  /** Jobs that stand behind a settled invoice. */
  function Claims(): Job -> int
  {
    (j: Job) => if j.Paying? || j.Moved? || j.UndoOwed? || j.PaidInApp? then 1 else 0
  }

  function AppliedRow(): Option<Checkout> -> int
  {
    (c: Option<Checkout>) => if c.Some? && c.value.outcome == Applied then 1 else 0
  }

  predicate JobOk(s: State, j: Job)
  {
    match j
    case Choosing(seen) => Payable(seen)
    case Paying(seen) => Payable(seen)
    case Moved(seen) => Payable(seen)
    case UndoOwed(seen, _) => Payable(seen)
    case Opening(c) => c < |s.checkouts| && s.checkouts[c].None?
    case Reconciling(c, read) => Written(s, c) && Reconcilable(read)
    case Applying(c) => Written(s, c) && s.checkouts[c].value.status == Completed && s.checkouts[c].value.outcome == Unsettled
    case _ => true
  }

  predicate RowOk(c: Option<Checkout>) { c.Some? && c.value.outcome != Unsettled ==> c.value.status == Completed }

  predicate Exclusive(j: Job) { j.Opening? || j.Applying? }

  /** A completed web payment that is neither applied nor recorded for review still has a job working on it. */
  ghost predicate Pursued(s: State, c: nat)
    requires c < |s.checkouts|
  {
    s.checkouts[c].Some? && s.checkouts[c].value.status == Completed && s.checkouts[c].value.outcome == Unsettled
    ==> Applying(c) in s.jobs
  }

  ghost predicate RowsOk(s: State)
  {
    && (forall j :: 0 <= j < |s.jobs| ==> JobOk(s, s.jobs[j]))
    && (forall c :: 0 <= c < |s.checkouts| ==> RowOk(s.checkouts[c]) && Pursued(s, c))
    && (forall i, j :: 0 <= i < j < |s.jobs| && Exclusive(s.jobs[i]) ==> s.jobs[j] != s.jobs[i])
  }

  /** The invoice reads as settled exactly while one payment stands behind it. */
  ghost predicate OnePayment(s: State)
  {
    Total(Claims(), s.jobs) + Total(AppliedRow(), s.checkouts) == if s.status == Settled then 1 else 0
  }

  /** A hold that has not run out keeps everyone else away, so the invoice stays payable unless it is cancelled. */
  predicate HoldHonoured(s: State)
  {
    s.hold.Some? && s.now <= s.hold.value.until ==> Payable(s.status) || s.status == Cancelled
  }

  ghost predicate Inv(s: State) { RowsOk(s) && OnePayment(s) && HoldHonoured(s) }

  lemma JobMoves(s: State, job: nat, stage: Job)
    requires job < |s.jobs|
    ensures Total(Claims(), s.jobs[job := stage]) == Total(Claims(), s.jobs) - Claims()(s.jobs[job]) + Claims()(stage)
  {
    TotalUpdate(Claims(), s.jobs, job, stage);
  }

  lemma RowMoves(s: State, c: nat, row: Option<Checkout>)
    requires c < |s.checkouts|
    ensures Total(AppliedRow(), s.checkouts[c := row])
         == Total(AppliedRow(), s.checkouts) - AppliedRow()(s.checkouts[c]) + AppliedRow()(row)
  {
    TotalUpdate(AppliedRow(), s.checkouts, c, row);
  }

  /** A job that stands behind the invoice proves that it reads as settled. */
  lemma ClaimMeansSettled(s: State, job: nat)
    requires OnePayment(s) && job < |s.jobs| && Claims()(s.jobs[job]) == 1
    ensures s.status == Settled
  {
    TotalAtLeast(Claims(), s.jobs, job);
    TotalAtLeast(AppliedRow(), s.checkouts, 0);
  }

  /** Steps of an app payment after its first read. */
  lemma PaymentStep(s: State, e: Event)
    requires Inv(s) && (e.Take? || e.Transfer? || e.Throw? || e.Confirm? || e.Undo?)
    ensures OnePayment(Step(s, e)) && HoldHonoured(Step(s, e))
  {
    var r := Step(s, e);
    if r != s {
      assert JobOk(s, s.jobs[e.job]);
      JobMoves(s, e.job, r.jobs[e.job]);
      if Claims()(s.jobs[e.job]) == 1 {
        ClaimMeansSettled(s, e.job);
      }
    }
  }

  lemma ApplyStep(s: State, job: nat, clock: nat, recorded: bool)
    requires Inv(s)
    ensures OnePayment(DoApply(s, job, clock, recorded)) && HoldHonoured(DoApply(s, job, clock, recorded))
  {
    var r := DoApply(s, job, clock, recorded);
    if r != s {
      assert JobOk(s, s.jobs[job]);
      var c := s.jobs[job].checkout;
      JobMoves(s, job, r.jobs[job]);
      RowMoves(s, c, r.checkouts[c]);
    }
  }

  /** A claim moves one job and one row, neither of which stands behind the invoice. */
  lemma ClaimShape(s: State, job: nat, verdict: Verdict)
    requires DoClaim(s, job, verdict) != s
    ensures var r, c := DoClaim(s, job, verdict), s.jobs[job].checkout;
            && r.status == s.status && r.hold == s.hold && r.now == s.now
            && r.jobs == s.jobs[job := r.jobs[job]] && Claims()(r.jobs[job]) == Claims()(s.jobs[job])
            && r.checkouts == s.checkouts[c := r.checkouts[c]] && AppliedRow()(r.checkouts[c]) == AppliedRow()(s.checkouts[c])
  {
  }

  lemma ClaimStep(s: State, job: nat, verdict: Verdict)
    requires Inv(s)
    ensures OnePayment(DoClaim(s, job, verdict)) && HoldHonoured(DoClaim(s, job, verdict))
  {
    var r := DoClaim(s, job, verdict);
    if r != s {
      ClaimShape(s, job, verdict);
      JobMoves(s, job, r.jobs[job]);
      RowMoves(s, s.jobs[job].checkout, r.checkouts[s.jobs[job].checkout]);
    }
  }

  /** Opening and releasing a web checkout. */
  lemma CheckoutStep(s: State, e: Event)
    requires Inv(s) && (e.Opened? || e.OpenFailed? || e.Release?)
    ensures OnePayment(Step(s, e)) && HoldHonoured(Step(s, e))
  {
    var r := Step(s, e);
    if r != s {
      assert JobOk(s, s.jobs[e.job]);
      JobMoves(s, e.job, r.jobs[e.job]);
      if e.Opened? {
        var c := s.jobs[e.job].checkout;
        RowMoves(s, c, r.checkouts[c]);
      }
    }
  }

  lemma BeginStep(s: State, e: Event)
    requires Inv(s) && (e.Choose? || e.Look? || e.Reserve?)
    ensures OnePayment(Step(s, e)) && HoldHonoured(Step(s, e))
  {
  }

  lemma StepKeepsPayment(s: State, e: Event)
    requires Inv(s)
    ensures OnePayment(Step(s, e)) && HoldHonoured(Step(s, e))
  {
    match e
    case Apply(job, clock, recorded) => ApplyStep(s, job, clock, recorded);
    case Claim(job, verdict) => ClaimStep(s, job, verdict);
    case Choose => BeginStep(s, e);
    case Look(_) => BeginStep(s, e);
    case Reserve(_, _) => BeginStep(s, e);
    case Opened(_, _) => CheckoutStep(s, e);
    case OpenFailed(_) => CheckoutStep(s, e);
    case Release(_) => CheckoutStep(s, e);
    case Send =>
    case View =>
    case MarkOverdue =>
    case Cancel =>
    case Tick =>
    case _ => PaymentStep(s, e);
  }

  lemma JobsStayOk(s: State, r: State)
    requires forall j :: 0 <= j < |s.jobs| ==> JobOk(s, s.jobs[j])
    requires forall j :: 0 <= j < |r.jobs| && !(j < |s.jobs| && r.jobs[j] == s.jobs[j]) ==> JobOk(r, r.jobs[j])
    requires |s.checkouts| <= |r.checkouts|
    requires forall j, c :: 0 <= j < |s.jobs| && 0 <= c < |s.checkouts| && r.checkouts[c] != s.checkouts[c]
                            && j < |r.jobs| && r.jobs[j] == s.jobs[j]
               ==> s.jobs[j] != Opening(c) && s.jobs[j] != Applying(c) && (s.checkouts[c].Some? ==> r.checkouts[c].Some?)
    ensures forall j :: 0 <= j < |r.jobs| ==> JobOk(r, r.jobs[j])
  {
  }

  lemma StaysPursued(s: State, r: State, k: nat, c: nat)
    requires c < |s.checkouts| && c < |r.checkouts| && r.checkouts[c] == s.checkouts[c] && Pursued(s, c)
    requires k < |s.jobs| && |r.jobs| == |s.jobs| && r.jobs == s.jobs[k := r.jobs[k]] && s.jobs[k] != Applying(c)
    ensures Pursued(r, c)
  {
    if Applying(c) in s.jobs {
      var j :| 0 <= j < |s.jobs| && s.jobs[j] == Applying(c);
      assert r.jobs[j] == Applying(c);
    }
  }

  lemma ClaimKeepsRows(s: State, job: nat, verdict: Verdict)
    requires RowsOk(s)
    ensures RowsOk(DoClaim(s, job, verdict))
  {
    var r := DoClaim(s, job, verdict);
    if r != s {
      var c := s.jobs[job].checkout;
      assert JobOk(s, s.jobs[job]) && RowOk(s.checkouts[c]);
      JobsStayOk(s, r);
      forall d | 0 <= d < |r.checkouts|
        ensures RowOk(r.checkouts[d]) && Pursued(r, d)
      {
        assert RowOk(s.checkouts[d]) && Pursued(s, d);
        if r.checkouts[d] == s.checkouts[d] {
          StaysPursued(s, r, job, d);
        } else {
          assert r.jobs[job] in r.jobs;
        }
      }
    }
  }

  lemma ApplyKeepsRows(s: State, job: nat, clock: nat, recorded: bool)
    requires RowsOk(s)
    ensures RowsOk(DoApply(s, job, clock, recorded))
  {
    var r := DoApply(s, job, clock, recorded);
    if r != s {
      var c := s.jobs[job].checkout;
      assert JobOk(s, s.jobs[job]);
      JobsStayOk(s, r);
      forall d | 0 <= d < |r.checkouts|
        ensures RowOk(r.checkouts[d]) && Pursued(r, d)
      {
        assert RowOk(s.checkouts[d]) && Pursued(s, d);
        if d != c {
          StaysPursued(s, r, job, d);
        }
      }
    }
  }

  /** A step that moves one job and leaves the checkout rows alone. */
  lemma JobKeepsRows(s: State, r: State, k: nat)
    requires RowsOk(s) && k < |s.jobs| && |r.jobs| == |s.jobs|
    requires r.jobs == s.jobs[k := r.jobs[k]] && r.checkouts == s.checkouts
    requires JobOk(r, r.jobs[k]) && !Exclusive(r.jobs[k]) && !s.jobs[k].Applying?
    ensures RowsOk(r)
  {
    JobsStayOk(s, r);
    forall c | 0 <= c < |r.checkouts|
      ensures RowOk(r.checkouts[c]) && Pursued(r, c)
    {
      assert RowOk(s.checkouts[c]) && Pursued(s, c);
      StaysPursued(s, r, k, c);
    }
  }

  lemma PaymentKeepsRows(s: State, e: Event)
    requires RowsOk(s) && (e.Take? || e.Transfer? || e.Throw? || e.Confirm? || e.Undo?)
    ensures RowsOk(Step(s, e))
  {
    if Step(s, e) != s {
      assert JobOk(s, s.jobs[e.job]);
      JobKeepsRows(s, Step(s, e), e.job);
    }
  }

  lemma FreeingKeepsRows(s: State, e: Event)
    requires RowsOk(s) && (e.OpenFailed? || e.Release?)
    ensures RowsOk(Step(s, e))
  {
    if Step(s, e) != s {
      assert JobOk(s, s.jobs[e.job]);
      JobKeepsRows(s, Step(s, e), e.job);
    }
  }

  lemma OpenedKeepsRows(s: State, job: nat, expiresAt: nat)
    requires RowsOk(s)
    ensures RowsOk(DoOpened(s, job, expiresAt))
  {
    var r := DoOpened(s, job, expiresAt);
    if r != s {
      assert JobOk(s, s.jobs[job]);
      JobsStayOk(s, r);
      forall c | 0 <= c < |r.checkouts|
        ensures RowOk(r.checkouts[c]) && Pursued(r, c)
      {
        assert RowOk(s.checkouts[c]) && Pursued(s, c);
        if c != s.jobs[job].checkout {
          StaysPursued(s, r, job, c);
        }
      }
    }
  }

  lemma BeginKeepsRows(s: State, e: Event)
    requires RowsOk(s) && (e.Choose? || e.Look? || e.Reserve?)
    ensures RowsOk(Step(s, e))
  {
    var r := Step(s, e);
    forall j | 0 <= j < |r.jobs|
      ensures JobOk(r, r.jobs[j])
    {
      assert j < |s.jobs| ==> JobOk(s, s.jobs[j]);
    }
    forall c | 0 <= c < |r.checkouts|
      ensures RowOk(r.checkouts[c]) && Pursued(r, c)
    {
      assert c < |s.checkouts| ==> RowOk(s.checkouts[c]) && Pursued(s, c);
    }
  }

  lemma QuietKeepsRows(s: State, e: Event)
    requires RowsOk(s) && (e.Send? || e.View? || e.MarkOverdue? || e.Cancel? || e.Tick?)
    ensures RowsOk(Step(s, e))
  {
  }

  lemma StepKeepsInv(s: State, e: Event)
    requires Inv(s)
    ensures Inv(Step(s, e))
  {
    StepKeepsPayment(s, e);
    match e
    case Apply(job, clock, recorded) => ApplyKeepsRows(s, job, clock, recorded);
    case Claim(job, verdict) => ClaimKeepsRows(s, job, verdict);
    case Opened(job, expiresAt) => OpenedKeepsRows(s, job, expiresAt);
    case Choose => BeginKeepsRows(s, e);
    case Look(_) => BeginKeepsRows(s, e);
    case Reserve(_, _) => BeginKeepsRows(s, e);
    case Send => QuietKeepsRows(s, e);
    case View => QuietKeepsRows(s, e);
    case MarkOverdue => QuietKeepsRows(s, e);
    case Cancel => QuietKeepsRows(s, e);
    case Tick => QuietKeepsRows(s, e);
    case OpenFailed(_) => FreeingKeepsRows(s, e);
    case Release(_) => FreeingKeepsRows(s, e);
    case _ => PaymentKeepsRows(s, e);
  }

  lemma {:induction false} RunKeepsInv(es: seq<Event>)
    ensures Inv(Run(NEW_INVOICE, es))
  {
    if es == [] {
    } else {
      RunKeepsInv(es[..|es| - 1]);
      StepKeepsInv(Run(NEW_INVOICE, es[..|es| - 1]), es[|es| - 1]);
    }
  }

  // ---------- what follows ----------

  function PaidApp(): Job -> int { (j: Job) => if j.PaidInApp? then 1 else 0 }

  /** Payments that settled the invoice, in the app and on the web. */
  function SettledBy(s: State): int
  {
    Total(PaidApp(), s.jobs) + Total(AppliedRow(), s.checkouts)
  }

  predicate InFlight(j: Job) { j.Paying? || j.Moved? || j.UndoOwed? }

  /** At most one payment settles an invoice, and with no app payment in flight it reads as settled exactly when one did. */
  lemma SettledAtMostOnce(es: seq<Event>)
    ensures var s := Run(NEW_INVOICE, es);
            && 0 <= SettledBy(s) <= 1
            && (SettledBy(s) == 1 ==> s.status == Settled)
            && ((forall j :: 0 <= j < |s.jobs| ==> !InFlight(s.jobs[j])) && s.status == Settled ==> SettledBy(s) == 1)
  {
    RunKeepsInv(es);
    var s := Run(NEW_INVOICE, es);
    TotalMonotone(PaidApp(), Claims(), s.jobs);
    TotalAtLeast(PaidApp(), s.jobs, 0);
    TotalAtLeast(AppliedRow(), s.checkouts, 0);
    if forall j :: 0 <= j < |s.jobs| ==> !InFlight(s.jobs[j]) {
      TotalSame(PaidApp(), Claims(), s.jobs);
    }
  }

  /** A completed web payment that is neither applied nor judged has exactly one job that may still do so. */
  lemma UnsettledHasOneJob(es: seq<Event>, c: nat)
    requires var s := Run(NEW_INVOICE, es); Written(s, c) && s.checkouts[c].value.status == Completed
    ensures var s := Run(NEW_INVOICE, es);
            && (s.checkouts[c].value.outcome == Unsettled <==> Applying(c) in s.jobs)
            && forall i, j :: 0 <= i < j < |s.jobs| ==> !(s.jobs[i] == s.jobs[j] == Applying(c))
  {
    RunKeepsInv(es);
    var s := Run(NEW_INVOICE, es);
    assert Pursued(s, c);
    forall j | 0 <= j < |s.jobs| && s.jobs[j] == Applying(c)
      ensures s.checkouts[c].value.outcome == Unsettled
    {
      assert JobOk(s, s.jobs[j]);
    }
  }

  /** A job is all that can still settle its web payment, or it has done so. */
  predicate Attached(s: State, job: nat, c: nat)
  {
    && job < |s.jobs| && Written(s, c) && s.checkouts[c].value.status == Completed
    && ((s.jobs[job] == Applying(c) && s.checkouts[c].value.outcome == Unsettled)
        || (s.jobs[job].Finished? && s.checkouts[c].value.outcome != Unsettled))
  }

  lemma AttachedThroughClaim(s: State, actor: nat, verdict: Verdict, job: nat, c: nat)
    requires Inv(s) && Attached(s, job, c)
    ensures Attached(DoClaim(s, actor, verdict), job, c)
    ensures s.jobs[job] == Applying(c) ==> DoClaim(s, actor, verdict).jobs[job] == Applying(c)
  {
  }

  lemma AttachedThroughRows(s: State, e: Event, job: nat, c: nat)
    requires Inv(s) && Attached(s, job, c) && (e.Opened? || e.Apply?)
    ensures Attached(Step(s, e), job, c)
    ensures s.jobs[job] == Applying(c) && !(e.Apply? && e.job == job) ==> Step(s, e).jobs[job] == Applying(c)
  {
    if e.job < |s.jobs| {
      assert JobOk(s, s.jobs[e.job]);
    }
  }

  lemma AttachedElsewhere(s: State, e: Event, job: nat, c: nat)
    requires Attached(s, job, c) && !e.Claim? && !e.Opened? && !e.Apply?
    ensures Attached(Step(s, e), job, c) && Step(s, e).jobs[job] == s.jobs[job]
  {
  }

  lemma StaysAttached(s: State, e: Event, job: nat, c: nat)
    requires Inv(s) && Attached(s, job, c)
    ensures Attached(Step(s, e), job, c)
    ensures s.jobs[job] == Applying(c) && !(e.Apply? && e.job == job) ==> Step(s, e).jobs[job] == Applying(c)
  {
    if e.Claim? {
      AttachedThroughClaim(s, e.job, e.verdict, job, c);
    } else if e.Opened? || e.Apply? {
      AttachedThroughRows(s, e, job, c);
    } else {
      AttachedElsewhere(s, e, job, c);
    }
  }

  lemma {:induction false} RunFromKeepsInv(s: State, es: seq<Event>)
    requires Inv(s)
    ensures Inv(Run(s, es))
  {
    if es == [] {
    } else {
      RunFromKeepsInv(s, es[..|es| - 1]);
      StepKeepsInv(Run(s, es[..|es| - 1]), es[|es| - 1]);
    }
  }

  /**
   * A web payment whose job stops after claiming it is dropped: in every run it stays neither applied nor recorded exactly
   * as long as that job has not taken its step, and no other job, then or later, takes it instead.
   */
  lemma {:induction false} OnlyItsJobSettles(s: State, es: seq<Event>, job: nat, c: nat)
    requires Inv(s) && Is(s, job) && s.jobs[job] == Applying(c)
    ensures var r := Run(s, es);
            && Attached(r, job, c)
            && (r.checkouts[c].value.outcome == Unsettled <==> r.jobs[job] == Applying(c))
            && ((forall i :: 0 <= i < |es| ==> !(es[i].Apply? && es[i].job == job)) ==> r.checkouts[c].value.outcome == Unsettled)
  {
    if es == [] {
      assert JobOk(s, s.jobs[job]);
    } else {
      OnlyItsJobSettles(s, es[..|es| - 1], job, c);
      RunFromKeepsInv(s, es[..|es| - 1]);
      StaysAttached(Run(s, es[..|es| - 1]), es[|es| - 1], job, c);
    }
  }

  /** A web payment that completes under its own hold, before the hold runs out, is applied unless the invoice was cancelled. */
  lemma OwnHoldApplies(es: seq<Event>, job: nat, clock: nat, recorded: bool)
    requires var s := Run(NEW_INVOICE, es);
             && Is(s, job) && s.jobs[job].Applying? && clock <= s.now
             && HeldBy(s.hold, s.jobs[job].checkout) && s.now <= s.hold.value.until
    ensures var s, c := Run(NEW_INVOICE, es), Run(NEW_INVOICE, es).jobs[job].checkout;
            && Written(s, c)
            && DoApply(s, job, clock, recorded).checkouts[c].Some?
            && (DoApply(s, job, clock, recorded).checkouts[c].value.outcome == Applied <==> s.status != Cancelled)
  {
    RunKeepsInv(es);
    var s := Run(NEW_INVOICE, es);
    assert JobOk(s, s.jobs[job]);
  }

  // ---------- an app payment that stops ----------

  predicate IsStepOf(e: Event, job: nat)
  {
    match e
    case Take(j, _) => j == job
    case Transfer(j) => j == job
    case Throw(j, _) => j == job
    case Confirm(j) => j == job
    case Undo(j) => j == job
    case Opened(j, _) => j == job
    case OpenFailed(j) => j == job
    case Release(j) => j == job
    case Claim(j, _) => j == job
    case Apply(j, _, _) => j == job
    case _ => false
  }

  lemma {:induction false} StoppedJobStays(s: State, es: seq<Event>, job: nat)
    requires Is(s, job) && forall i :: 0 <= i < |es| ==> !IsStepOf(es[i], job)
    ensures Is(Run(s, es), job) && Run(s, es).jobs[job] == s.jobs[job]
  {
    if es == [] {
    } else {
      StoppedJobStays(s, es[..|es| - 1], job);
      StoppedJobStep(Run(s, es[..|es| - 1]), es[|es| - 1], job);
    }
  }

  lemma StoppedJobStep(s: State, e: Event, job: nat)
    requires Is(s, job) && !IsStepOf(e, job)
    ensures Is(Step(s, e), job) && Step(s, e).jobs[job] == s.jobs[job]
  {
  }

  /** One that stops after its claim leaves the invoice settled, paid or not, in every run without a step of it; nobody else can pay. */
  lemma StoppedPaymentSettles(s: State, es: seq<Event>, job: nat)
    requires Inv(s) && Is(s, job) && InFlight(s.jobs[job])
    requires forall i :: 0 <= i < |es| ==> !IsStepOf(es[i], job)
    ensures Run(s, es).status == Settled && SettledBy(Run(s, es)) == 0
  {
    StoppedJobStays(s, es, job);
    RunFromKeepsInv(s, es);
    ClaimMeansSettled(Run(s, es), job);
    OnlyClaim(Run(s, es), job);
  }

  /** Of all that can stand behind the invoice, a claim that is no payment yet leaves room for no payment. */
  lemma OnlyClaim(s: State, job: nat)
    requires OnePayment(s) && s.status == Settled && job < |s.jobs|
    requires InFlight(s.jobs[job])
    ensures SettledBy(s) == 0
  {
    var inFlight := (j: Job) => if InFlight(j) then 1 else 0;
    TotalPlus(PaidApp(), inFlight, Claims(), s.jobs);
    TotalAtLeast(inFlight, s.jobs, job);
    TotalAtLeast(PaidApp(), s.jobs, 0);
    TotalAtLeast(AppliedRow(), s.checkouts, 0);
  }

  // ---------- who is charged ----------

  /** App payments whose money moved, whether or not they stood. */
  function MovedMoney(): Job -> int
  {
    (j: Job) => if j.Moved? || j.PaidInApp? || (j.UndoOwed? && j.moved) || (j.Finished? && j.moved) then 1 else 0
  }

  /** Web payments that completed, whether or not they were applied. */
  function Completions(): Option<Checkout> -> int
  {
    (c: Option<Checkout>) => if c.Some? && c.value.status == Completed then 1 else 0
  }

  /** Everyone who has paid. */
  function Charged(s: State): int { Total(MovedMoney(), s.jobs) + Total(Completions(), s.checkouts) }

  predicate NothingLost(j: Job) { !(j.UndoOwed? && j.moved) && !(j.Finished? && j.moved) }

  /** App payments that were undone although their money had moved. */
  function Lost(): Job -> int { (j: Job) => if NothingLost(j) then 0 else 1 }

  function Standing(): Job -> int { (j: Job) => if j.Moved? || j.PaidInApp? then 1 else 0 }

  /** Web payments that completed and were not applied. */
  function Unapplied(): Option<Checkout> -> int
  {
    (c: Option<Checkout>) => if c.Some? && c.value.status == Completed && c.value.outcome != Applied then 1 else 0
  }

  /** One payment at most stands or is applied. Whoever else paid was undone after paying, or was not applied. */
  lemma ChargedEquation(es: seq<Event>)
    ensures var s := Run(NEW_INVOICE, es);
            var kept := Total(Standing(), s.jobs) + Total(AppliedRow(), s.checkouts);
            && 0 <= kept <= (if s.status == Settled then 1 else 0)
            && Charged(s) == kept + Total(Lost(), s.jobs) + Total(Unapplied(), s.checkouts)
  {
    RunKeepsInv(es);
    var s := Run(NEW_INVOICE, es);
    TotalPlus(Standing(), Lost(), MovedMoney(), s.jobs);
    TotalMonotone(Standing(), Claims(), s.jobs);
    TotalAtLeast(Standing(), s.jobs, 0);
    TotalAtLeast(AppliedRow(), s.checkouts, 0);
    forall c | 0 <= c < |s.checkouts|
      ensures Completions()(s.checkouts[c]) == AppliedRow()(s.checkouts[c]) + Unapplied()(s.checkouts[c])
    {
      assert RowOk(s.checkouts[c]);
    }
    TotalPlus(AppliedRow(), Unapplied(), Completions(), s.checkouts);
  }

  ghost predicate NoLateThrow(es: seq<Event>)
  {
    forall i :: 0 <= i < |es| ==> !(es[i].Throw? && es[i].late)
  }

  lemma {:induction false} NothingLostRun(es: seq<Event>)
    requires NoLateThrow(es)
    ensures forall j :: 0 <= j < |Run(NEW_INVOICE, es).jobs| ==> NothingLost(Run(NEW_INVOICE, es).jobs[j])
  {
    if es == [] {
    } else {
      NothingLostRun(es[..|es| - 1]);
      var s := Run(NEW_INVOICE, es[..|es| - 1]);
      forall j | 0 <= j < |Run(NEW_INVOICE, es).jobs|
        ensures NothingLost(Run(NEW_INVOICE, es).jobs[j])
      {
        assert j < |s.jobs| ==> NothingLost(s.jobs[j]);
      }
    }
  }

  predicate IsUnsettled(c: Option<Checkout>) { c.Some? && c.value.status == Completed && c.value.outcome == Unsettled }

  /** A completed web payment that is still to be applied has its own unexpired hold, and the invoice is not cancelled. */
  ghost predicate Covered(s: State)
  {
    forall c :: 0 <= c < |s.checkouts| && IsUnsettled(s.checkouts[c]) ==>
      HeldBy(s.hold, c) && s.now <= s.hold.value.until && s.status != Cancelled
  }

  ghost predicate CoveredRun(es: seq<Event>)
  {
    Covered(Run(NEW_INVOICE, es)) && (es == [] || CoveredRun(es[..|es| - 1]))
  }

  predicate NoneRefused(s: State)
  {
    forall c :: 0 <= c < |s.checkouts| ==> Unapplied()(s.checkouts[c]) == 1 ==> IsUnsettled(s.checkouts[c])
  }

  lemma CoveredStep(s: State, e: Event)
    requires Inv(s) && Covered(s) && NoneRefused(s)
    ensures NoneRefused(Step(s, e))
  {
    if e.Apply? && e.job < |s.jobs| && s.jobs[e.job].Applying? {
      assert JobOk(s, s.jobs[e.job]);
      assert IsUnsettled(s.checkouts[s.jobs[e.job].checkout]);
    } else if e.Claim? && e.job < |s.jobs| && s.jobs[e.job].Reconciling? {
      assert JobOk(s, s.jobs[e.job]) && RowOk(s.checkouts[s.jobs[e.job].checkout]);
    }
  }

  lemma {:induction false} CoveredRunRefusesNone(es: seq<Event>)
    requires CoveredRun(es)
    ensures NoneRefused(Run(NEW_INVOICE, es))
  {
    if es == [] {
    } else {
      CoveredRunRefusesNone(es[..|es| - 1]);
      RunKeepsInv(es[..|es| - 1]);
      CoveredStep(Run(NEW_INVOICE, es[..|es| - 1]), es[|es| - 1]);
    }
  }

  lemma OneUnapplied(s: State)
    requires Covered(s) && NoneRefused(s)
    ensures 0 <= Total(Unapplied(), s.checkouts) <= 1
    ensures Total(Unapplied(), s.checkouts) == 1 ==> s.hold.Some? && s.now <= s.hold.value.until && s.status != Cancelled
  {
    TotalAtMostOne(Unapplied(), s.checkouts);
  }

  /**
   * One payer at most is charged, unless something throws after the money of an app payment moved, or a completed web
   * payment loses its hold or its invoice before it is applied.
   */
  lemma ChargedOnce(es: seq<Event>)
    requires NoLateThrow(es) && CoveredRun(es)
    ensures Charged(Run(NEW_INVOICE, es)) <= 1
  {
    var s := Run(NEW_INVOICE, es);
    assert HoldHonoured(s) && Covered(s) by {
      RunKeepsInv(es);
    }
    CoveredRunRefusesNone(es);
    OneUnapplied(s);
    ChargedEquation(es);
    assert Total(Lost(), s.jobs) == 0 by {
      NothingLostRun(es);
      TotalZero(Lost(), s.jobs);
    }
  }

  lemma Then(es: seq<Event>, s: State, e: Event) returns (more: seq<Event>, next: State)
    requires Run(NEW_INVOICE, es) == s
    ensures Run(NEW_INVOICE, more) == next == Step(s, e)
  {
    more, next := es + [e], Step(s, e);
    assert more[..|more| - 1] == es;
  }

  lemma IssuedAndTaken() returns (es: seq<Event>, s: State)
    ensures Run(NEW_INVOICE, es) == s == State(Settled, None, [], [Paying(Issued)], 0)
  {
    es, s := Then([], NEW_INVOICE, Send);
    es, s := Then(es, s, Choose);
    es, s := Then(es, s, Take(0, 0));
  }

  lemma PaidAndReopened() returns (es: seq<Event>, s: State)
    ensures Run(NEW_INVOICE, es) == s == State(Issued, None, [], [Finished(true)], 0)
  {
    es, s := IssuedAndTaken();
    es, s := Then(es, s, Transfer(0));
    es, s := Then(es, s, Throw(0, true));
    es, s := Then(es, s, Undo(0));
  }

  /** A throw after the transfer makes the invoice payable again: two payers are charged. */
  lemma LateThrowChargesTwo() returns (es: seq<Event>)
    ensures Charged(Run(NEW_INVOICE, es)) == 2
  {
    var s: State;
    es, s := PaidAndReopened();
    es, s := Then(es, s, Choose);
    es, s := Then(es, s, Take(1, 0));
    es, s := Then(es, s, Transfer(1));
    assert s.jobs == [] + [Finished(true)] + [Moved(Issued)];
    TotalAppend(MovedMoney(), [], Finished(true));
    TotalAppend(MovedMoney(), [Finished(true)], Moved(Issued));
  }

  lemma HeldByCheckout() returns (es: seq<Event>, s: State)
    ensures Run(NEW_INVOICE, es) == s == State(Issued, Some(Hold(0, 0)), [None], [Opening(0)], 0)
  {
    es, s := Then([], NEW_INVOICE, Send);
    es, s := Then(es, s, Reserve(0, 0));
  }

  lemma HoldRunsOut() returns (es: seq<Event>, s: State)
    ensures Run(NEW_INVOICE, es) == s
    ensures s == State(Issued, Some(Hold(0, 0)), [Some(Checkout(Pending, Unsettled, 0))], [Finished(false)], 1)
  {
    es, s := HeldByCheckout();
    es, s := Then(es, s, Opened(0, 0));
    es, s := Then(es, s, Tick);
  }

  lemma PaidInAppMeanwhile() returns (es: seq<Event>, s: State)
    ensures Run(NEW_INVOICE, es) == s
    ensures s == State(Settled, Some(Hold(0, 0)), [Some(Checkout(Pending, Unsettled, 0))], [Finished(false), PaidInApp], 1)
  {
    es, s := HoldRunsOut();
    es, s := Then(es, s, Choose);
    es, s := Then(es, s, Take(1, 1));
    es, s := Then(es, s, Transfer(1));
    es, s := Then(es, s, Confirm(1));
  }

  lemma PaidOnWebTooLate() returns (es: seq<Event>, s: State)
    ensures Run(NEW_INVOICE, es) == s && s.checkouts == [Some(Checkout(Completed, Exception, 0))]
    ensures s.jobs == [Finished(false), PaidInApp, Finished(false)]
  {
    es, s := PaidInAppMeanwhile();
    es, s := Then(es, s, Look(0));
    es, s := Then(es, s, Claim(2, Verdict.Paid));
    assert s.jobs == [Finished(false), PaidInApp, Applying(0)];
    es, s := Then(es, s, Apply(2, 1, true));
  }

  /** Nothing throws, and two payers are charged: a web payment completes after its hold ran out and the app was paid. */
  lemma LateCompletionChargesTwo() returns (es: seq<Event>)
    ensures Charged(Run(NEW_INVOICE, es)) == 2 && Total(Lost(), Run(NEW_INVOICE, es).jobs) == 0
  {
    var s: State;
    es, s := PaidOnWebTooLate();
    TotalZero(Lost(), s.jobs);
    TotalAppend(Completions(), [], s.checkouts[0]);
    assert [] + [s.checkouts[0]] == s.checkouts;
    TotalDiffersAt((j: Job) => 0, MovedMoney(), s.jobs, 1);
    TotalZero((j: Job) => 0, s.jobs);
  }
}
