/**
 * One agent mandate and the payment requests made under it. Creating a request and confirming one both check the caps in
 * several separate reads; everything interleaves.
 */
module Mandates {
  import opened Wrappers
  import opened Sums

  /** Amounts are cents. */
  datatype Mandate = Mandate(active: bool, expiresOn: nat, perPayment: int, daily: int, monthly: int)

  datatype RequestStatus = Pending | Processing | Confirmed | Failed | Rejected | Canceled | Expired

  /**
   * `day` and `month` are when the request was created. `dayChecked` and `monthChecked` are when the confirmation in
   * progress passed each sum, and `paidOn` and `paidIn` are the day and month when money moved: they are not columns, they
   * only name moments.
   */
  datatype Request = Request(
    amount: int, day: nat, month: nat, status: RequestStatus,
    dayChecked: Option<nat>, monthChecked: Option<nat>, paidOn: Option<nat>, paidIn: Option<nat>)

  datatype Call =
    | Creating(amount: int, dayOk: bool, monthOk: bool)
    | Confirming(request: nat)                            // read as pending
    | Claimed(request: nat)
    | Admitted(request: nat, dayOk: bool, monthOk: bool)  // the mandate is active and the amount within its payment cap
    | Paid(request: nat)
    | Over

  datatype State = State(mandate: Mandate, requests: seq<Request>, calls: seq<Call>, day: nat, month: nat)

  datatype Event =
    | BeginCreate(amount: int)
    | BeginConfirm(request: nat)
    | Claim(call: nat)
    | Admit(call: nat)
    | ReadDay(call: nat)
    | ReadMonth(call: nat)
    | Insert(call: nat)
    | Pay(call: nat, moves: bool)                         // the intent is paid now, or was found to be paid already
    | Finish(call: nat)
    | Throw(call: nat)                                    // after the payment: a write fails
    | Refuse(call: nat, final: bool)                      // a failed check or payment
    | Withdraw(request: nat, status: RequestStatus)       // reject, cancel with the intent, or expire a pending request
    | Revoke
    | NextDay(newMonth: bool)

  predicate Counts(status: RequestStatus) { status == Pending || status == Processing || status == Confirmed }

  predicate Usable(m: Mandate, day: nat) { m.active && day < m.expiresOn }

  /** What a sum over the requests created today, other than `except`, adds up. */
  function UsedToday(day: nat): Request -> int
  {
    (r: Request) => if Counts(r.status) && r.day >= day then r.amount else 0
  }

  function UsedThisMonth(month: nat): Request -> int
  {
    (r: Request) => if Counts(r.status) && r.month >= month then r.amount else 0
  }

  function Without(requests: seq<Request>, k: nat): seq<Request>
    requires k < |requests|
  {
    requests[..k] + requests[k + 1..]
  }

  predicate FitsDay(s: State, others: seq<Request>, amount: int)
  {
    Total(UsedToday(s.day), others) + amount <= s.mandate.daily
  }

  predicate FitsMonth(s: State, others: seq<Request>, amount: int)
  {
    Total(UsedThisMonth(s.month), others) + amount <= s.mandate.monthly
  }

  function Go(s: State, call: nat, stage: Call): State
    requires call < |s.calls|
  {
    s.(calls := s.calls[call := stage])
  }

  function SetRequest(s: State, k: nat, r: Request): State
    requires k < |s.requests|
  {
    s.(requests := s.requests[k := r])
  }

  function DoClaim(s: State, call: nat): State
  {
    if call < |s.calls| && s.calls[call].Confirming? && s.calls[call].request < |s.requests| then
      var k := s.calls[call].request;
      if s.requests[k].status == Pending
      then Go(SetRequest(s, k, s.requests[k].(status := Processing, dayChecked := None, monthChecked := None)), call, Claimed(k))
      else Go(s, call, Over)
    else s
  }

  /** Whoever fails after the claim writes the outcome unconditionally. */
  function DoRefuse(s: State, call: nat, final: bool): State
  {
    if call < |s.calls| && (s.calls[call].Claimed? || s.calls[call].Admitted?) && s.calls[call].request < |s.requests| then
      var k := s.calls[call].request;
      Go(SetRequest(s, k, s.requests[k].(status := if final then Failed else Pending)), call, Over)
    else s
  }

  function DoAdmit(s: State, call: nat): State
  {
    if call < |s.calls| && s.calls[call].Claimed? && s.calls[call].request < |s.requests| then
      var k := s.calls[call].request;
      if Usable(s.mandate, s.day) && s.requests[k].amount <= s.mandate.perPayment
      then Go(s, call, Admitted(k, false, false))
      else DoRefuse(s, call, true)
    else s
  }

  function DoReadDay(s: State, call: nat): State
  {
    if call >= |s.calls| then s
    else
      match s.calls[call]
      case Creating(amount, _, monthOk) =>
        if FitsDay(s, s.requests, amount) then Go(s, call, Creating(amount, true, monthOk)) else Go(s, call, Over)
      case Admitted(k, _, monthOk) =>
        if k >= |s.requests| then s
        else if FitsDay(s, Without(s.requests, k), s.requests[k].amount)
        then Go(SetRequest(s, k, s.requests[k].(dayChecked := Some(s.day))), call, Admitted(k, true, monthOk))
        else DoRefuse(s, call, true)
      case _ => s
  }

  function DoReadMonth(s: State, call: nat): State
  {
    if call >= |s.calls| then s
    else
      match s.calls[call]
      case Creating(amount, dayOk, _) =>
        if FitsMonth(s, s.requests, amount) then Go(s, call, Creating(amount, dayOk, true)) else Go(s, call, Over)
      case Admitted(k, dayOk, _) =>
        if k >= |s.requests| then s
        else if FitsMonth(s, Without(s.requests, k), s.requests[k].amount)
        then Go(SetRequest(s, k, s.requests[k].(monthChecked := Some(s.month))), call, Admitted(k, dayOk, true))
        else DoRefuse(s, call, true)
      case _ => s
  }

  function DoInsert(s: State, call: nat): State
  {
    if call < |s.calls| && s.calls[call].Creating? && s.calls[call].dayOk && s.calls[call].monthOk
    then
      Go(s.(requests := s.requests + [Request(s.calls[call].amount, s.day, s.month, Pending, None, None, None, None)]), call, Over)
    else s
  }

  /** An intent is paid once: a request whose money has moved finds its intent paid, and moves none again. */
  function DoPay(s: State, call: nat, moves: bool): State
  {
    if call < |s.calls| && s.calls[call].Admitted? && s.calls[call].dayOk && s.calls[call].monthOk
       && s.calls[call].request < |s.requests|
    then
      var k := s.calls[call].request;
      var q := s.requests[k];
      var after := if moves && q.paidOn.None? then q.(paidOn := Some(s.day), paidIn := Some(s.month)) else q;
      Go(SetRequest(s, k, after), call, Paid(k))
    else s
  }

  /** A write that fails after the payment is no final failure: the handler reopens the request. */
  function DoThrow(s: State, call: nat): State
  {
    if call < |s.calls| && s.calls[call].Paid? && s.calls[call].request < |s.requests| then
      var k := s.calls[call].request;
      Go(SetRequest(s, k, s.requests[k].(status := Pending)), call, Over)
    else s
  }

  function DoFinish(s: State, call: nat): State
  {
    if call < |s.calls| && s.calls[call].Paid? && s.calls[call].request < |s.requests| then
      var k := s.calls[call].request;
      Go(SetRequest(s, k, s.requests[k].(status := Confirmed)), call, Over)
    else s
  }

  function DoWithdraw(s: State, k: nat, status: RequestStatus): State
  {
    if k < |s.requests| && s.requests[k].status == Pending && status in {Rejected, Canceled, Expired}
    then SetRequest(s, k, s.requests[k].(status := status))
    else s
  }

  function Step(s: State, e: Event): State
  {
    match e
    case BeginCreate(amount) =>
      if amount > 0 && Usable(s.mandate, s.day) && amount <= s.mandate.perPayment
      then s.(calls := s.calls + [Creating(amount, false, false)])
      else s
    case BeginConfirm(k) =>
      if k < |s.requests| && s.requests[k].status == Pending then s.(calls := s.calls + [Confirming(k)]) else s
    case Claim(call) => DoClaim(s, call)
    case Admit(call) => DoAdmit(s, call)
    case ReadDay(call) => DoReadDay(s, call)
    case ReadMonth(call) => DoReadMonth(s, call)
    case Insert(call) => DoInsert(s, call)
    case Pay(call, moves) => DoPay(s, call, moves)
    case Finish(call) => DoFinish(s, call)
    case Throw(call) => DoThrow(s, call)
    case Refuse(call, final) => DoRefuse(s, call, final)
    case Withdraw(k, status) => DoWithdraw(s, k, status)
    case Revoke => s.(mandate := s.mandate.(active := false))
    case NextDay(newMonth) => s.(day := s.day + 1, month := if newMonth then s.month + 1 else s.month)
  }

  function Run(s: State, es: seq<Event>): State
  {
    if es == [] then s else Step(Run(s, es[..|es| - 1]), es[|es| - 1])
  }

  predicate Granted(s: State)
  {
    s.requests == [] && s.calls == [] && 0 <= s.mandate.daily && 0 <= s.mandate.monthly
  }

  // ---------- caps ----------

  predicate Held(status: RequestStatus) { status == Processing || status == Confirmed }

  /**
   * Requests created on a day that bind its cap: their confirmation passed the daily check on that same day, or their money
   * moved on that day and they still count.
   */
  function PassedDay(day: nat): Request -> int
  {
    (r: Request) =>
      if r.day == day && ((Held(r.status) && r.dayChecked == Some(day)) || (Counts(r.status) && r.paidOn == Some(day)))
      then r.amount else 0
  }

  function PassedMonth(month: nat): Request -> int
  {
    (r: Request) =>
      if r.month == month && ((Held(r.status) && r.monthChecked == Some(month)) || (Counts(r.status) && r.paidIn == Some(month)))
      then r.amount else 0
  }

  ghost predicate WithinCaps(s: State)
  {
    && (forall d: nat :: Total(PassedDay(d), s.requests) <= s.mandate.daily)
    && (forall m: nat :: Total(PassedMonth(m), s.requests) <= s.mandate.monthly)
  }

  predicate Owns(c: Call) { c.Claimed? || c.Admitted? || c.Paid? }

  predicate Checked(s: State, r: Request)
  {
    r.dayChecked.Some? && r.monthChecked.Some? && r.amount <= s.mandate.perPayment
  }

  predicate CallOk(s: State, c: Call)
  {
    match c
    case Creating(amount, _, _) => amount > 0
    case Claimed(k) => k < |s.requests| && s.requests[k].status == Processing
    case Admitted(k, dayOk, monthOk) =>
      && k < |s.requests| && s.requests[k].status == Processing
      && s.requests[k].amount <= s.mandate.perPayment
      && (dayOk ==> s.requests[k].dayChecked.Some?) && (monthOk ==> s.requests[k].monthChecked.Some?)
    case Paid(k) => k < |s.requests| && s.requests[k].status == Processing && Checked(s, s.requests[k])
    case _ => true
  }

  /** A request is created before it is checked or paid, and money moves within the cap per payment. */
  predicate InOrder(s: State, r: Request)
  {
    && r.day <= s.day && r.month <= s.month
    && (r.dayChecked.Some? ==> r.day <= r.dayChecked.value <= s.day)
    && (r.monthChecked.Some? ==> r.month <= r.monthChecked.value <= s.month)
    && (r.paidOn.Some? ==> r.day <= r.paidOn.value <= s.day && r.amount <= s.mandate.perPayment)
    && (r.paidIn.Some? ==> r.month <= r.paidIn.value <= s.month)
    && (r.paidIn.Some? <==> r.paidOn.Some?)
  }

  predicate RequestOk(s: State, r: Request)
  {
    r.amount > 0 && InOrder(s, r) && (r.status == Confirmed ==> Checked(s, r))
  }

  ghost predicate OneOwner(s: State)
  {
    forall a, b :: 0 <= a < b < |s.calls| && Owns(s.calls[a]) && Owns(s.calls[b]) ==> s.calls[a].request != s.calls[b].request
  }

  ghost predicate RowsOk(s: State)
  {
    && (forall c :: 0 <= c < |s.calls| ==> CallOk(s, s.calls[c]))
    && (forall k :: 0 <= k < |s.requests| ==> RequestOk(s, s.requests[k]))
    && OneOwner(s)
  }

  ghost predicate Inv(s: State) { RowsOk(s) && WithinCaps(s) }

  lemma TotalWithout(f: Request -> int, requests: seq<Request>, k: nat)
    requires k < |requests|
    ensures Total(f, Without(requests, k)) == Total(f, requests) - f(requests[k])
  {
    var before, behind := requests[..k], requests[k + 1..];
    TotalConcat(f, before, behind);
    TotalConcat(f, before + [requests[k]], behind);
    TotalAppend(f, before, requests[k]);
    Rejoined(requests, k);
  }

  lemma Rejoined(requests: seq<Request>, k: nat)
    requires k < |requests|
    ensures requests[..k] + [requests[k]] + requests[k + 1..] == requests
  {
  }

  /** A change that raises no weight keeps the caps. */
  lemma LighterKeepsCaps(s: State, k: nat, r: Request)
    requires WithinCaps(s) && k < |s.requests|
    requires forall d: nat :: PassedDay(d)(r) <= PassedDay(d)(s.requests[k])
    requires forall m: nat :: PassedMonth(m)(r) <= PassedMonth(m)(s.requests[k])
    ensures WithinCaps(SetRequest(s, k, r))
  {
    forall d: nat
      ensures Total(PassedDay(d), SetRequest(s, k, r).requests) <= s.mandate.daily
    {
      TotalUpdate(PassedDay(d), s.requests, k, r);
    }
    forall m: nat
      ensures Total(PassedMonth(m), SetRequest(s, k, r).requests) <= s.mandate.monthly
    {
      TotalUpdate(PassedMonth(m), s.requests, k, r);
    }
  }

  /** The sum a confirmation reads covers every request that passed on the same day, because all of them still count. */
  lemma DayCheckBinds(s: State, k: nat)
    requires k < |s.requests| && FitsDay(s, Without(s.requests, k), s.requests[k].amount)
    requires forall i :: 0 <= i < |s.requests| ==> s.requests[i].amount > 0
    ensures Total(PassedDay(s.day), s.requests) - PassedDay(s.day)(s.requests[k]) + s.requests[k].amount <= s.mandate.daily
  {
    TotalWithout(PassedDay(s.day), s.requests, k);
    TotalMonotone(PassedDay(s.day), UsedToday(s.day), Without(s.requests, k));
  }

  lemma MonthCheckBinds(s: State, k: nat)
    requires k < |s.requests| && FitsMonth(s, Without(s.requests, k), s.requests[k].amount)
    requires forall i :: 0 <= i < |s.requests| ==> s.requests[i].amount > 0
    ensures Total(PassedMonth(s.month), s.requests) - PassedMonth(s.month)(s.requests[k]) + s.requests[k].amount
         <= s.mandate.monthly
  {
    TotalWithout(PassedMonth(s.month), s.requests, k);
    TotalMonotone(PassedMonth(s.month), UsedThisMonth(s.month), Without(s.requests, k));
  }

  lemma AmountsPositive(s: State)
    requires RowsOk(s)
    ensures forall i :: 0 <= i < |s.requests| ==> s.requests[i].amount > 0
  {
  }

  lemma DayPassKeepsCaps(s: State, k: nat)
    requires Inv(s) && k < |s.requests| && FitsDay(s, Without(s.requests, k), s.requests[k].amount)
    ensures WithinCaps(SetRequest(s, k, s.requests[k].(dayChecked := Some(s.day))))
  {
    AmountsPositive(s);
    var r := s.requests[k].(dayChecked := Some(s.day));
    forall d: nat
      ensures Total(PassedDay(d), SetRequest(s, k, r).requests) <= s.mandate.daily
    {
      TotalUpdate(PassedDay(d), s.requests, k, r);
      if d == s.day {
        DayCheckBinds(s, k);
      }
    }
    forall m: nat
      ensures Total(PassedMonth(m), SetRequest(s, k, r).requests) <= s.mandate.monthly
    {
      TotalUpdate(PassedMonth(m), s.requests, k, r);
    }
  }

  lemma MonthPassKeepsCaps(s: State, k: nat)
    requires Inv(s) && k < |s.requests| && FitsMonth(s, Without(s.requests, k), s.requests[k].amount)
    ensures WithinCaps(SetRequest(s, k, s.requests[k].(monthChecked := Some(s.month))))
  {
    AmountsPositive(s);
    var r := s.requests[k].(monthChecked := Some(s.month));
    forall m: nat
      ensures Total(PassedMonth(m), SetRequest(s, k, r).requests) <= s.mandate.monthly
    {
      TotalUpdate(PassedMonth(m), s.requests, k, r);
      if m == s.month {
        MonthCheckBinds(s, k);
      }
    }
    forall d: nat
      ensures Total(PassedDay(d), SetRequest(s, k, r).requests) <= s.mandate.daily
    {
      TotalUpdate(PassedDay(d), s.requests, k, r);
    }
  }

  // ---------- every step ----------

  /** A call that owns its request, or takes it while it is pending, moves on together with the request. */
  lemma OwnerMoves(s: State, r: State, call: nat, k: nat)
    requires RowsOk(s) && call < |s.calls| && k < |s.requests|
    requires (Owns(s.calls[call]) && s.calls[call].request == k) || s.requests[k].status == Pending
    requires r.mandate == s.mandate && r.day == s.day && r.month == s.month && |r.calls| == |s.calls| && |r.requests| == |s.requests|
    requires r.calls == s.calls[call := r.calls[call]] && r.requests == s.requests[k := r.requests[k]]
    requires CallOk(r, r.calls[call]) && RequestOk(r, r.requests[k])
    requires Owns(r.calls[call]) ==> r.calls[call].request == k
    ensures RowsOk(r)
  {
  }

  lemma RefuseStep(s: State, call: nat, final: bool)
    requires Inv(s)
    ensures Inv(DoRefuse(s, call, final))
  {
    var r := DoRefuse(s, call, final);
    if r != s {
      var k := s.calls[call].request;
      assert RequestOk(s, s.requests[k]);
      LighterKeepsCaps(s, k, r.requests[k]);
      OwnerMoves(s, r, call, k);
    }
  }

  lemma ClaimStep(s: State, call: nat)
    requires Inv(s)
    ensures Inv(DoClaim(s, call))
  {
    var r := DoClaim(s, call);
    if r.requests != s.requests {
      var k := s.calls[call].request;
      assert RequestOk(s, s.requests[k]);
      LighterKeepsCaps(s, k, r.requests[k]);
      OwnerMoves(s, r, call, k);
    } else if r != s {
      LoneCallMoves(s, r, call);
    }
  }

  /** A call that owns nothing afterwards, or keeps what it owned, moves without touching a request. */
  lemma LoneCallMoves(s: State, r: State, call: nat)
    requires Inv(s) && call < |s.calls| && |r.calls| == |s.calls|
    requires r == s.(calls := s.calls[call := r.calls[call]]) && CallOk(r, r.calls[call])
    requires Owns(r.calls[call]) ==> Owns(s.calls[call]) && s.calls[call].request == r.calls[call].request
    ensures Inv(r)
  {
  }

  lemma AdmitStep(s: State, call: nat)
    requires Inv(s)
    ensures Inv(DoAdmit(s, call))
  {
    if call < |s.calls| && s.calls[call].Claimed? {
      assert CallOk(s, s.calls[call]);
      var k := s.calls[call].request;
      if Usable(s.mandate, s.day) && s.requests[k].amount <= s.mandate.perPayment {
        LoneCallMoves(s, DoAdmit(s, call), call);
      } else {
        RefuseStep(s, call, true);
      }
    }
  }

  lemma ReadDayStep(s: State, call: nat)
    requires Inv(s)
    ensures Inv(DoReadDay(s, call))
  {
    var r := DoReadDay(s, call);
    if call < |s.calls| && s.calls[call].Creating? {
      assert CallOk(s, s.calls[call]);
      LoneCallMoves(s, r, call);
    } else if call < |s.calls| && s.calls[call].Admitted? {
      var k := s.calls[call].request;
      assert CallOk(s, s.calls[call]) && RequestOk(s, s.requests[k]);
      if FitsDay(s, Without(s.requests, k), s.requests[k].amount) {
        DayPassKeepsCaps(s, k);
        OwnerMoves(s, r, call, k);
      } else {
        RefuseStep(s, call, true);
      }
    }
  }

  lemma ReadMonthStep(s: State, call: nat)
    requires Inv(s)
    ensures Inv(DoReadMonth(s, call))
  {
    var r := DoReadMonth(s, call);
    if call < |s.calls| && s.calls[call].Creating? {
      assert CallOk(s, s.calls[call]);
      LoneCallMoves(s, r, call);
    } else if call < |s.calls| && s.calls[call].Admitted? {
      var k := s.calls[call].request;
      assert CallOk(s, s.calls[call]) && RequestOk(s, s.requests[k]);
      if FitsMonth(s, Without(s.requests, k), s.requests[k].amount) {
        MonthPassKeepsCaps(s, k);
        OwnerMoves(s, r, call, k);
      } else {
        RefuseStep(s, call, true);
      }
    }
  }

  /** Paying, finishing and throwing raise no sum: a payment on the day of its request was checked on that day. */
  lemma PayStep(s: State, call: nat, moves: bool)
    requires Inv(s)
    ensures Inv(DoPay(s, call, moves))
  {
    var r := DoPay(s, call, moves);
    if r != s {
      var k := s.calls[call].request;
      assert CallOk(s, s.calls[call]) && RequestOk(s, s.requests[k]);
      LighterKeepsCaps(s, k, r.requests[k]);
      OwnerMoves(s, r, call, k);
    }
  }

  lemma EndStep(s: State, call: nat)
    requires Inv(s)
    ensures Inv(DoFinish(s, call)) && Inv(DoThrow(s, call))
  {
    if call < |s.calls| && s.calls[call].Paid? && s.calls[call].request < |s.requests| {
      var k := s.calls[call].request;
      assert CallOk(s, s.calls[call]) && RequestOk(s, s.requests[k]);
      LighterKeepsCaps(s, k, DoFinish(s, call).requests[k]);
      OwnerMoves(s, DoFinish(s, call), call, k);
      LighterKeepsCaps(s, k, DoThrow(s, call).requests[k]);
      OwnerMoves(s, DoThrow(s, call), call, k);
    }
  }

  lemma InsertStep(s: State, call: nat)
    requires Inv(s)
    ensures Inv(DoInsert(s, call))
  {
  }

  lemma WithdrawStep(s: State, k: nat, status: RequestStatus)
    requires Inv(s)
    ensures Inv(DoWithdraw(s, k, status))
  {
    var r := DoWithdraw(s, k, status);
    if r != s {
      LighterKeepsCaps(s, k, r.requests[k]);
      forall c | 0 <= c < |r.calls|
        ensures CallOk(r, r.calls[c])
      {
        assert CallOk(s, s.calls[c]);
      }
      forall i | 0 <= i < |r.requests|
        ensures RequestOk(r, r.requests[i])
      {
        assert RequestOk(s, s.requests[i]);
      }
    }
  }

  lemma QuietStep(s: State, e: Event)
    requires Inv(s) && (e.BeginCreate? || e.BeginConfirm? || e.Revoke? || e.NextDay?)
    ensures Inv(Step(s, e))
  {
  }

  lemma StepKeepsInv(s: State, e: Event)
    requires Inv(s)
    ensures Inv(Step(s, e))
  {
    match e
    case Claim(call) => ClaimStep(s, call);
    case Admit(call) => AdmitStep(s, call);
    case ReadDay(call) => ReadDayStep(s, call);
    case ReadMonth(call) => ReadMonthStep(s, call);
    case Insert(call) => InsertStep(s, call);
    case Pay(call, moves) => PayStep(s, call, moves);
    case Finish(call) => EndStep(s, call);
    case Throw(call) => EndStep(s, call);
    case Refuse(call, final) => RefuseStep(s, call, final);
    case Withdraw(k, status) => WithdrawStep(s, k, status);
    case _ => QuietStep(s, e);
  }

  lemma StepKeepsTerms(s: State, e: Event)
    ensures Step(s, e).mandate == s.mandate.(active := Step(s, e).mandate.active)
  {
  }

  lemma {:induction false} RunKeepsInv(s: State, es: seq<Event>)
    requires Granted(s)
    ensures Inv(Run(s, es))
    ensures Run(s, es).mandate == s.mandate.(active := Run(s, es).mandate.active)
  {
    if es == [] {
    } else {
      RunKeepsInv(s, es[..|es| - 1]);
      StepKeepsInv(Run(s, es[..|es| - 1]), es[|es| - 1]);
      StepKeepsTerms(Run(s, es[..|es| - 1]), es[|es| - 1]);
    }
  }

  // ---------- what follows ----------

  /**
   * However creations and confirmations race and whatever throws, the requests created on a day that pass their last check
   * on that day, or are paid on it and still count, never total more than the daily cap; likewise for a month.
   */
  lemma CapsSurviveRaces(s: State, es: seq<Event>, d: nat, m: nat)
    requires Granted(s)
    ensures Total(PassedDay(d), Run(s, es).requests) <= s.mandate.daily
    ensures Total(PassedMonth(m), Run(s, es).requests) <= s.mandate.monthly
  {
    RunKeepsInv(s, es);
  }

  /** Money moves only under a request that has just passed all three limits, and once for each request. */
  lemma PaidOnlyAfterChecks(s: State, es: seq<Event>, e: Event, k: nat)
    requires Granted(s) && k < |Run(s, es).requests|
    ensures var before, after := Run(s, es).requests[k], Step(Run(s, es), e).requests;
            && k < |after|
            && (after[k].paidOn != before.paidOn ==>
                  && before.paidOn.None? && before.status == Processing
                  && before.dayChecked.Some? && before.monthChecked.Some? && 0 < before.amount <= s.mandate.perPayment)
  {
    RunKeepsInv(s, es);
    if e.Pay? {
      PayMovesOne(Run(s, es), e.call, e.moves, k);
    } else {
      OthersMoveNone(Run(s, es), e, k);
    }
  }

  lemma PayMovesOne(s: State, call: nat, moves: bool, k: nat)
    requires RowsOk(s) && k < |s.requests|
    ensures var before, after := s.requests[k], DoPay(s, call, moves).requests;
            && k < |after|
            && (after[k].paidOn != before.paidOn ==>
                  && before.paidOn.None? && before.status == Processing
                  && before.dayChecked.Some? && before.monthChecked.Some? && 0 < before.amount <= s.mandate.perPayment)
  {
  }

  lemma OthersMoveNone(s: State, e: Event, k: nat)
    requires !e.Pay? && k < |s.requests|
    ensures k < |Step(s, e).requests| && Step(s, e).requests[k].paidOn == s.requests[k].paidOn
  {
  }

  /** Everything paid on day d. */
  function PaidOn(d: nat): Request -> int { (r: Request) => if r.paidOn == Some(d) then r.amount else 0 }

  /** The part of it that was asked for on an earlier day. */
  function CarriedInto(d: nat): Request -> int { (r: Request) => if r.paidOn == Some(d) && r.day < d then r.amount else 0 }

  /** The part of it under requests of the day that have stopped counting although they were paid. */
  function DroppedOn(d: nat): Request -> int
  {
    (r: Request) => if r.paidOn == Some(d) && r.day == d && !Counts(r.status) then r.amount else 0
  }

  function CountedOn(d: nat): Request -> int
  {
    (r: Request) => if r.paidOn == Some(d) && r.day == d && Counts(r.status) then r.amount else 0
  }

  function EarlyOrDropped(d: nat): Request -> int { (r: Request) => CarriedInto(d)(r) + DroppedOn(d)(r) }

  /** What is paid on a day exceeds the daily cap by no more than what was carried into it and what was dropped after payment. */
  lemma DayPaysCapCarriedAndDropped(s: State, es: seq<Event>, d: nat)
    requires Granted(s)
    ensures var r := Run(s, es);
            Total(PaidOn(d), r.requests)
            <= s.mandate.daily + Total(CarriedInto(d), r.requests) + Total(DroppedOn(d), r.requests)
  {
    RunKeepsInv(s, es);
    var r := Run(s, es);
    forall k | 0 <= k < |r.requests|
      ensures PaidOn(d)(r.requests[k]) == CountedOn(d)(r.requests[k]) + EarlyOrDropped(d)(r.requests[k])
      ensures CountedOn(d)(r.requests[k]) <= PassedDay(d)(r.requests[k])
    {
      assert RequestOk(r, r.requests[k]);
    }
    TotalPlus(CountedOn(d), EarlyOrDropped(d), PaidOn(d), r.requests);
    TotalPlus(CarriedInto(d), DroppedOn(d), EarlyOrDropped(d), r.requests);
    TotalMonotone(CountedOn(d), PassedDay(d), r.requests);
  }

  /** The same for months. */
  function PaidDuring(m: nat): Request -> int { (r: Request) => if r.paidIn == Some(m) then r.amount else 0 }

  function CarriedIntoMonth(m: nat): Request -> int
  {
    (r: Request) => if r.paidIn == Some(m) && r.month < m then r.amount else 0
  }

  function DroppedDuring(m: nat): Request -> int
  {
    (r: Request) => if r.paidIn == Some(m) && r.month == m && !Counts(r.status) then r.amount else 0
  }

  function CountedDuring(m: nat): Request -> int
  {
    (r: Request) => if r.paidIn == Some(m) && r.month == m && Counts(r.status) then r.amount else 0
  }

  function EarlyOrDroppedMonth(m: nat): Request -> int { (r: Request) => CarriedIntoMonth(m)(r) + DroppedDuring(m)(r) }

  lemma MonthPaysCapCarriedAndDropped(s: State, es: seq<Event>, m: nat)
    requires Granted(s)
    ensures var r := Run(s, es);
            Total(PaidDuring(m), r.requests)
            <= s.mandate.monthly + Total(CarriedIntoMonth(m), r.requests) + Total(DroppedDuring(m), r.requests)
  {
    RunKeepsInv(s, es);
    var r := Run(s, es);
    forall k | 0 <= k < |r.requests|
      ensures PaidDuring(m)(r.requests[k]) == CountedDuring(m)(r.requests[k]) + EarlyOrDroppedMonth(m)(r.requests[k])
      ensures CountedDuring(m)(r.requests[k]) <= PassedMonth(m)(r.requests[k])
    {
      assert RequestOk(r, r.requests[k]);
    }
    TotalPlus(CountedDuring(m), EarlyOrDroppedMonth(m), PaidDuring(m), r.requests);
    TotalPlus(CarriedIntoMonth(m), DroppedDuring(m), EarlyOrDroppedMonth(m), r.requests);
    TotalMonotone(CountedDuring(m), PassedMonth(m), r.requests);
  }

  // ---------- a confirmation that stops ----------

  predicate IsStepOf(e: Event, call: nat)
  {
    match e
    case Claim(c) => c == call
    case Admit(c) => c == call
    case ReadDay(c) => c == call
    case ReadMonth(c) => c == call
    case Insert(c) => c == call
    case Pay(c, _) => c == call
    case Finish(c) => c == call
    case Throw(c) => c == call
    case Refuse(c, _) => c == call
    case _ => false
  }

  /** The request that a call owns is nobody else's to write. */
  lemma StoppedStep(s: State, e: Event, call: nat)
    requires RowsOk(s) && call < |s.calls| && Owns(s.calls[call]) && !IsStepOf(e, call)
    ensures var r, k := Step(s, e), s.calls[call].request;
            && call < |r.calls| && r.calls[call] == s.calls[call]
            && k < |s.requests| && k < |r.requests| && r.requests[k] == s.requests[k]
  {
    assert CallOk(s, s.calls[call]);
  }

  /** A confirmation that stops leaves its request in processing, in every run without a step of it. */
  lemma {:induction false} StoppedRequestCounts(s: State, es: seq<Event>, call: nat)
    requires Inv(s) && call < |s.calls| && Owns(s.calls[call])
    requires forall i :: 0 <= i < |es| ==> !IsStepOf(es[i], call)
    ensures var r, k := Run(s, es), s.calls[call].request;
            && call < |r.calls| && r.calls[call] == s.calls[call] && Inv(r)
            && k < |s.requests| && k < |r.requests| && r.requests[k] == s.requests[k] && s.requests[k].status == Processing
  {
    if es == [] {
      assert CallOk(s, s.calls[call]);
    } else {
      StoppedRequestCounts(s, es[..|es| - 1], call);
      StoppedStep(Run(s, es[..|es| - 1]), es[|es| - 1], call);
      StepKeepsInv(Run(s, es[..|es| - 1]), es[|es| - 1]);
    }
  }

  lemma {:induction false} LimitsStand(s: State, es: seq<Event>)
    ensures Run(s, es).mandate == s.mandate.(active := Run(s, es).mandate.active)
  {
    if es == [] {
    } else {
      LimitsStand(s, es[..|es| - 1]);
      LimitsStandStep(Run(s, es[..|es| - 1]), es[|es| - 1]);
    }
  }

  lemma LimitsStandStep(s: State, e: Event)
    ensures Step(s, e).mandate == s.mandate.(active := Step(s, e).mandate.active)
  {
  }

  lemma BesideIt(f: Request -> int, requests: seq<Request>, k: nat, j: nat)
    requires k < |requests| && j < |requests| && j != k && forall i :: 0 <= i < |requests| ==> f(requests[i]) >= 0
    ensures Total(f, Without(requests, j)) >= f(requests[k])
  {
    TotalAtLeast(f, Without(requests, j), if k < j then k else k - 1);
  }

  /**
   * And the request goes on counting: in all these runs nothing else passes the sum of its day or month, to be created or to
   * be confirmed, unless it fits beside it.
   */
  lemma StoppedRequestBinds(s: State, es: seq<Event>, call: nat, amount: int, j: nat)
    requires Inv(s) && call < |s.calls| && Owns(s.calls[call])
    requires forall i :: 0 <= i < |es| ==> !IsStepOf(es[i], call)
    ensures s.calls[call].request < |s.requests|
    ensures var r, q := Run(s, es), s.requests[s.calls[call].request];
            && (r.day == q.day && FitsDay(r, r.requests, amount) ==> amount + q.amount <= s.mandate.daily)
            && (r.month == q.month && FitsMonth(r, r.requests, amount) ==> amount + q.amount <= s.mandate.monthly)
            && (j < |r.requests| && j != s.calls[call].request ==>
                  && (r.day == q.day && FitsDay(r, Without(r.requests, j), amount) ==> amount + q.amount <= s.mandate.daily)
                  && (r.month == q.month && FitsMonth(r, Without(r.requests, j), amount) ==> amount + q.amount <= s.mandate.monthly))
  {
    StoppedRequestCounts(s, es, call);
    LimitsStand(s, es);
    var r, k := Run(s, es), s.calls[call].request;
    assert forall i :: 0 <= i < |r.requests| ==> RequestOk(r, r.requests[i]);
    TotalAtLeast(UsedToday(r.day), r.requests, k);
    TotalAtLeast(UsedThisMonth(r.month), r.requests, k);
    if j < |r.requests| && j != k {
      BesideIt(UsedToday(r.day), r.requests, k, j);
      BesideIt(UsedThisMonth(r.month), r.requests, k, j);
    }
  }

  // ---------- without throws after a payment ----------

  ghost predicate NoThrow(es: seq<Event>) { forall i :: 0 <= i < |es| ==> !es[i].Throw? }

  /** A request whose money moved is being finished or confirmed. */
  ghost predicate Steady(s: State)
  {
    && (forall k :: 0 <= k < |s.requests| && s.requests[k].paidOn.Some? ==> Held(s.requests[k].status))
    && (forall c :: 0 <= c < |s.calls| && (s.calls[c].Claimed? || s.calls[c].Admitted?) && s.calls[c].request < |s.requests|
          ==> s.requests[s.calls[c].request].paidOn.None?)
  }

  lemma SteadyMove(s: State, r: State, call: nat, k: nat)
    requires RowsOk(s) && Steady(s) && call < |s.calls| && k < |s.requests|
    requires (Owns(s.calls[call]) && s.calls[call].request == k) || s.requests[k].status == Pending
    requires |r.calls| == |s.calls| && |r.requests| == |s.requests|
    requires r.calls == s.calls[call := r.calls[call]] && r.requests == s.requests[k := r.requests[k]]
    requires Owns(r.calls[call]) ==> r.calls[call].request == k
    requires r.requests[k].paidOn.Some? ==> Held(r.requests[k].status)
    requires r.calls[call].Claimed? || r.calls[call].Admitted? ==> r.requests[k].paidOn.None?
    ensures Steady(r)
  {
  }

  lemma SteadyOutcome(s: State, e: Event)
    requires Inv(s) && Steady(s) && (e.Pay? || e.Finish? || e.Refuse?)
    ensures Steady(Step(s, e))
  {
    if e.call < |s.calls| && Owns(s.calls[e.call]) {
      assert CallOk(s, s.calls[e.call]);
      SteadyMove(s, Step(s, e), e.call, s.calls[e.call].request);
    }
  }

  /** A check either refuses the request or moves on with it. */
  lemma SteadyCheck(s: State, e: Event)
    requires Inv(s) && Steady(s) && (e.Admit? || e.ReadDay? || e.ReadMonth?)
    ensures Steady(Step(s, e))
  {
    if Step(s, e) == DoRefuse(s, e.call, true) {
      SteadyOutcome(s, Refuse(e.call, true));
    } else {
      assert e.call < |s.calls| && CallOk(s, s.calls[e.call]);
      if Owns(s.calls[e.call]) {
        SteadyMove(s, Step(s, e), e.call, s.calls[e.call].request);
      }
    }
  }

  lemma SteadyClaim(s: State, call: nat)
    requires Inv(s) && Steady(s)
    ensures Steady(DoClaim(s, call))
  {
  }

  lemma SteadyQuiet(s: State, e: Event)
    requires Inv(s) && Steady(s)
    requires e.BeginCreate? || e.BeginConfirm? || e.Insert? || e.Withdraw? || e.Revoke? || e.NextDay?
    ensures Steady(Step(s, e))
  {
    var r := Step(s, e);
    forall c | 0 <= c < |r.calls| && (r.calls[c].Claimed? || r.calls[c].Admitted?) && r.calls[c].request < |r.requests|
      ensures r.requests[r.calls[c].request].paidOn.None?
    {
      assert CallOk(s, s.calls[c]);
    }
  }

  lemma SteadyStep(s: State, e: Event)
    requires Inv(s) && Steady(s) && !e.Throw?
    ensures Steady(Step(s, e))
  {
    match e
    case Admit(_) => SteadyCheck(s, e);
    case ReadDay(_) => SteadyCheck(s, e);
    case ReadMonth(_) => SteadyCheck(s, e);
    case Pay(_, _) => SteadyOutcome(s, e);
    case Finish(_) => SteadyOutcome(s, e);
    case Refuse(_, _) => SteadyOutcome(s, e);
    case Claim(call) => SteadyClaim(s, call);
    case _ => SteadyQuiet(s, e);
  }

  lemma {:induction false} SteadyRun(s: State, es: seq<Event>)
    requires Granted(s) && NoThrow(es)
    ensures Steady(Run(s, es))
  {
    if es == [] {
    } else {
      SteadyRun(s, es[..|es| - 1]);
      RunKeepsInv(s, es[..|es| - 1]);
      SteadyStep(Run(s, es[..|es| - 1]), es[|es| - 1]);
    }
  }

  /** If nothing throws after a payment, the daily cap is exceeded by no more than what was carried into the day. */
  lemma DayPaysCapPlusCarried(s: State, es: seq<Event>, d: nat)
    requires Granted(s) && NoThrow(es)
    ensures Total(PaidOn(d), Run(s, es).requests) <= s.mandate.daily + Total(CarriedInto(d), Run(s, es).requests)
  {
    SteadyRun(s, es);
    DayPaysCapCarriedAndDropped(s, es, d);
    TotalZero(DroppedOn(d), Run(s, es).requests);
  }

  lemma MonthPaysCapPlusCarried(s: State, es: seq<Event>, m: nat)
    requires Granted(s) && NoThrow(es)
    ensures Total(PaidDuring(m), Run(s, es).requests) <= s.mandate.monthly + Total(CarriedIntoMonth(m), Run(s, es).requests)
  {
    SteadyRun(s, es);
    MonthPaysCapCarriedAndDropped(s, es, m);
    RunKeepsInv(s, es);
    var r := Run(s, es);
    forall k | 0 <= k < |r.requests|
      ensures DroppedDuring(m)(r.requests[k]) == 0
    {
      assert RequestOk(r, r.requests[k]);
    }
    TotalZero(DroppedDuring(m), r.requests);
  }

  // ---------- both excesses happen ----------

  lemma Then(start: State, es: seq<Event>, s: State, e: Event) returns (more: seq<Event>, next: State)
    requires Run(start, es) == s
    ensures Run(start, more) == next == Step(s, e)
  {
    more, next := es + [e], Step(s, e);
    assert more[..|more| - 1] == es;
  }

  function Fresh(amount: int, day: nat): Request { Request(amount, day, 0, Pending, None, None, None, None) }

  /** One request, created as long as the day's and the month's requests leave room for it. */
  lemma CreateOne(start: State, es: seq<Event>, s: State, amount: int) returns (more: seq<Event>, next: State)
    requires Run(start, es) == s && 0 < amount <= s.mandate.perPayment && Usable(s.mandate, s.day) && s.month == 0
    requires FitsDay(s, s.requests, amount) && FitsMonth(s, s.requests, amount)
    ensures Run(start, more) == next && next.mandate == s.mandate && next.day == s.day && next.month == 0
    ensures next.requests == s.requests + [Fresh(amount, s.day)]
  {
    var c := |s.calls|;
    more, next := Then(start, es, s, BeginCreate(amount));
    more, next := Then(start, more, next, ReadDay(c));
    more, next := Then(start, more, next, ReadMonth(c));
    more, next := Then(start, more, next, Insert(c));
  }

  lemma ClaimOne(start: State, es: seq<Event>, s: State, k: nat) returns (more: seq<Event>, next: State)
    requires Run(start, es) == s && k < |s.requests| && s.requests[k].status == Pending && Usable(s.mandate, s.day)
    requires s.requests[k].amount <= s.mandate.perPayment
    ensures Run(start, more) == next && |next.calls| == |s.calls| + 1
    ensures next == s.(calls := next.calls, requests := s.requests[k := s.requests[k].(
                         status := Processing, dayChecked := None, monthChecked := None)])
    ensures next.calls[|s.calls|] == Admitted(k, false, false)
  {
    var c := |s.calls|;
    more, next := Then(start, es, s, BeginConfirm(k));
    more, next := Then(start, more, next, Claim(c));
    more, next := Then(start, more, next, Admit(c));
  }

  function Settled(q: Request, day: nat): Request
  {
    q.(status := Processing, dayChecked := Some(day), monthChecked := Some(0), paidOn := Some(day), paidIn := Some(0))
  }

  lemma CheckOne(start: State, es: seq<Event>, s: State, c: nat) returns (more: seq<Event>, next: State)
    requires Run(start, es) == s && c < |s.calls| && s.calls[c].Admitted? && s.calls[c].request < |s.requests|
    requires var k := s.calls[c].request;
             FitsDay(s, Without(s.requests, k), s.requests[k].amount) && FitsMonth(s, Without(s.requests, k), s.requests[k].amount)
    ensures Run(start, more) == next
    ensures var k := s.calls[c].request;
            next == s.(calls := s.calls[c := Admitted(k, true, true)],
                       requests := s.requests[k := s.requests[k].(dayChecked := Some(s.day), monthChecked := Some(s.month))])
  {
    var k := s.calls[c].request;
    var checked := s.requests[k].(dayChecked := Some(s.day));
    more, next := Then(start, es, s, ReadDay(c));
    assert next.requests == s.requests[k := checked];
    assert Without(next.requests, k) == Without(s.requests, k);
    more, next := Then(start, more, next, ReadMonth(c));
  }

  lemma PayOne(start: State, es: seq<Event>, s: State, c: nat) returns (more: seq<Event>, next: State)
    requires Run(start, es) == s && c < |s.calls| && s.calls[c].Admitted? && s.calls[c].request < |s.requests| && s.month == 0
    requires s.requests[s.calls[c].request].status == Processing && s.requests[s.calls[c].request].paidOn.None?
    requires var k := s.calls[c].request;
             FitsDay(s, Without(s.requests, k), s.requests[k].amount) && FitsMonth(s, Without(s.requests, k), s.requests[k].amount)
    ensures Run(start, more) == next && next.mandate == s.mandate && next.day == s.day && next.month == 0
    ensures var k := s.calls[c].request; next.requests == s.requests[k := Settled(s.requests[k], s.day)]
    ensures next.calls == s.calls[c := Paid(s.calls[c].request)]
  {
    more, next := CheckOne(start, es, s, c);
    more, next := Then(start, more, next, Pay(c, true));
  }

  lemma OneTotal(f: Request -> int, q: Request)
    ensures Total(f, [q]) == f(q)
  {
  }

  /** A request made before midnight is confirmed after it. */
  lemma PaidAfterMidnight(s: State, cap: int) returns (es: seq<Event>, r: State)
    requires cap > 0 && s == State(Mandate(true, 2, cap, cap, 2 * cap), [], [], 0, 0)
    ensures Run(s, es) == r && r.mandate == s.mandate && r.day == 1 && r.month == 0
    ensures r.requests == [Settled(Fresh(cap, 0), 1)]
  {
    es, r := CreateOne(s, [], s, cap);
    es, r := Then(s, es, r, NextDay(false));
    es, r := ClaimOne(s, es, r, 0);
    assert Without(r.requests, 0) == [];
    es, r := PayOne(s, es, r, |r.calls| - 1);
  }

  /**
   * The daily sum goes by the day a request was created, not the day it is paid: one request kept over midnight and one
   * new one pay twice the daily cap on a single day.
   */
  lemma MidnightPaysTwice(s: State, cap: int) returns (es: seq<Event>)
    requires cap > 0 && s == State(Mandate(true, 2, cap, cap, 2 * cap), [], [], 0, 0)
    ensures Total(PaidOn(1), Run(s, es).requests) == 2 * s.mandate.daily
  {
    var r: State;
    es, r := PaidAfterMidnight(s, cap);
    var first := r.requests[0];
    OneTotal(UsedToday(1), first);
    OneTotal(UsedThisMonth(0), first);
    es, r := CreateOne(s, es, r, cap);
    es, r := ClaimOne(s, es, r, 1);
    assert Without(r.requests, 1) == [first];
    es, r := PayOne(s, es, r, |r.calls| - 1);
    assert r.requests == [first] + [Settled(Fresh(cap, 1), 1)];
    TotalAppend(PaidOn(1), [first], Settled(Fresh(cap, 1), 1));
    OneTotal(PaidOn(1), first);
  }

  lemma PaidAndThrown(s: State, cap: int) returns (es: seq<Event>, r: State)
    requires cap > 0 && s == State(Mandate(true, 2, cap, cap, 2 * cap), [], [], 0, 0)
    ensures Run(s, es) == r && r.mandate == s.mandate && r.day == 0 && r.month == 0
    ensures r.requests == [Settled(Fresh(cap, 0), 0).(status := Pending)]
  {
    es, r := CreateOne(s, [], s, cap);
    es, r := ClaimOne(s, es, r, 0);
    assert Without(r.requests, 0) == [];
    es, r := PayOne(s, es, r, |r.calls| - 1);
    es, r := Then(s, es, r, Throw(|r.calls| - 1));
  }

  /** Paid, thrown, and rejected by the user: the money has moved and no sum counts it any more. */
  lemma PaidAndDropped(s: State, cap: int) returns (es: seq<Event>, r: State)
    requires cap > 0 && s == State(Mandate(true, 2, cap, cap, 2 * cap), [], [], 0, 0)
    ensures Run(s, es) == r && r.mandate == s.mandate && r.day == 0 && r.month == 0
    ensures r.requests == [Settled(Fresh(cap, 0), 0).(status := Rejected)]
  {
    es, r := PaidAndThrown(s, cap);
    es, r := Then(s, es, r, Withdraw(0, Rejected));
  }

  /** A throw after a payment lets another request of the same day be paid up to the cap: twice the cap, nothing carried over. */
  lemma ThrowPaysTwice(s: State, cap: int) returns (es: seq<Event>)
    requires cap > 0 && s == State(Mandate(true, 2, cap, cap, 2 * cap), [], [], 0, 0)
    ensures Total(PaidOn(0), Run(s, es).requests) == 2 * s.mandate.daily && Total(CarriedInto(0), Run(s, es).requests) == 0
  {
    var r: State;
    es, r := PaidAndDropped(s, cap);
    var first := r.requests[0];
    OneTotal(UsedToday(0), first);
    OneTotal(UsedThisMonth(0), first);
    es, r := CreateOne(s, es, r, cap);
    es, r := ClaimOne(s, es, r, 1);
    assert Without(r.requests, 1) == [first];
    es, r := PayOne(s, es, r, |r.calls| - 1);
    assert r.requests == [first] + [Settled(Fresh(cap, 0), 0)];
    TotalAppend(PaidOn(0), [first], Settled(Fresh(cap, 0), 0));
    OneTotal(PaidOn(0), first);
    TotalZero(CarriedInto(0), r.requests);
  }
}
