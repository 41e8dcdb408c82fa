/** One Idempotency-Key of the payout API and every request that uses it, in any interleaving. */
module Payouts {
  import opened Wrappers
  import opened Sums

  datatype PayoutStatus = Processing | Submitted | Failed

  /** `response` names the withdrawal a submitted payout answers with. */
  datatype Payout = Payout(hash: nat, status: PayoutStatus, response: Option<nat>)

  datatype Answer = Fresh(withdrawal: nat) | Replay(withdrawal: nat) | Conflict | Error

  datatype Call =
    | Started(hash: nat)
    | KeyTaken(hash: nat)                                 // the insert hit the unique index
    | Retrying(hash: nat)                                 // the existing payout was read as failed
    | Owning(hash: nat)
    | Withdrawn(withdrawal: nat)
    | Recorded(withdrawal: nat)
    | Answered(answer: Answer)
    | ThrewAfter                                          // the withdrawal went through, recording it did not
    | Gone                                                // and the failure has been written

  /** `withdrawals` lists the request hash of every withdrawal that went through. */
  datatype State = State(payout: Option<Payout>, withdrawals: seq<nat>, calls: seq<Call>)

  datatype Event =
    | Begin(hash: nat)
    | Insert(call: nat)
    | ReadExisting(call: nat)
    | Retry(call: nat)
    | Withdraw(call: nat)
    | WithdrawFailed(call: nat)
    | Record(call: nat)
    | Respond(call: nat)
    | Throw(call: nat)                                    // after the withdrawal: its outcome could not be written
    | WriteFailed(call: nat)

  predicate At(s: State, call: nat) { call < |s.calls| }

  function Go(s: State, call: nat, stage: Call): State
    requires At(s, call)
  {
    s.(calls := s.calls[call := stage])
  }

  function SetStatus(s: State, status: PayoutStatus, response: Option<nat>): State
  {
    if s.payout.Some? then s.(payout := Some(s.payout.value.(status := status, response := response))) else s
  }

  function DoInsert(s: State, call: nat): State
  {
    if At(s, call) && s.calls[call].Started? then
      var hash := s.calls[call].hash;
      if s.payout.None? then Go(s.(payout := Some(Payout(hash, Processing, None))), call, Owning(hash))
      else Go(s, call, KeyTaken(hash))
    else s
  }

  function DoReadExisting(s: State, call: nat): State
  {
    if At(s, call) && s.calls[call].KeyTaken? && s.payout.Some? then
      var p, hash := s.payout.value, s.calls[call].hash;
      if p.hash != hash then Go(s, call, Answered(Conflict))
      else
        match p.status
        case Submitted => Go(s, call, Answered(if p.response.Some? then Replay(p.response.value) else Error))
        case Processing => Go(s, call, Answered(Conflict))
        case Failed => Go(s, call, Retrying(hash))
    else s
  }

  function DoRetry(s: State, call: nat): State
  {
    if At(s, call) && s.calls[call].Retrying? && s.payout.Some? then
      if s.payout.value.status == Failed
      then Go(SetStatus(s, Processing, s.payout.value.response), call, Owning(s.calls[call].hash))
      else Go(s, call, Answered(Conflict))
    else s
  }

  function Step(s: State, e: Event): State
  {
    match e
    case Begin(hash) => s.(calls := s.calls + [Started(hash)])
    case Insert(call) => DoInsert(s, call)
    case ReadExisting(call) => DoReadExisting(s, call)
    case Retry(call) => DoRetry(s, call)
    case Withdraw(call) =>
      if At(s, call) && s.calls[call].Owning?
      then Go(s.(withdrawals := s.withdrawals + [s.calls[call].hash]), call, Withdrawn(|s.withdrawals|))
      else s
    case WithdrawFailed(call) =>
      if At(s, call) && s.calls[call].Owning? then Go(SetStatus(s, Failed, None), call, Answered(Error)) else s
    case Record(call) =>
      if At(s, call) && s.calls[call].Withdrawn?
      then Go(SetStatus(s, Submitted, Some(s.calls[call].withdrawal)), call, Recorded(s.calls[call].withdrawal))
      else s
    case Respond(call) =>
      if At(s, call) && s.calls[call].Recorded? then Go(s, call, Answered(Fresh(s.calls[call].withdrawal))) else s
    case Throw(call) =>
      if At(s, call) && s.calls[call].Withdrawn? then Go(s, call, ThrewAfter) else s
    case WriteFailed(call) =>
      if At(s, call) && s.calls[call].ThrewAfter? then Go(SetStatus(s, Failed, None), call, Gone) else s
  }

  function Run(s: State, es: seq<Event>): State
  {
    if es == [] then s else Step(Run(s, es[..|es| - 1]), es[|es| - 1])
  }

  const UNUSED := State(None, [], [])

  // ---------- accounting ----------

  /** Calls that hold the key and have not written an outcome. */
  function Holds(): Call -> int { (c: Call) => if c.Owning? || c.Withdrawn? then 1 else 0 }

  function InHand(): Call -> int { (c: Call) => if c.Withdrawn? then 1 else 0 }

  function Unanswered(): Call -> int { (c: Call) => if c.Recorded? then 1 else 0 }

  function Threw(): Call -> int { (c: Call) => if c.ThrewAfter? then 1 else 0 }

  function Forgotten(): Call -> int { (c: Call) => if c.Gone? then 1 else 0 }

  /** Withdrawals that went through although their call threw. */
  function Disowned(s: State): int { Total(Threw(), s.calls) + Total(Forgotten(), s.calls) }

  predicate IsSubmitted(s: State) { s.payout.Some? && s.payout.value.status == Submitted }

  predicate Stored(s: State, withdrawal: nat) { IsSubmitted(s) && s.payout.value.response == Some(withdrawal) }

  predicate AnswerOk(s: State, a: Answer)
  {
    a.Fresh? || a.Replay? ==> Stored(s, a.withdrawal)
  }

  predicate SameRequest(s: State, hash: nat) { s.payout.Some? && s.payout.value.hash == hash }

  predicate CallOk(s: State, c: Call)
  {
    match c
    case Retrying(hash) => SameRequest(s, hash)
    case Owning(hash) => SameRequest(s, hash)
    case KeyTaken(_) => s.payout.Some?
    case Withdrawn(w) => s.payout.Some? && w < |s.withdrawals|
    case Recorded(w) => Stored(s, w)
    case ThrewAfter => s.payout.Some?
    case Answered(a) => AnswerOk(s, a)
    case _ => true
  }

  ghost predicate Counted(s: State)
  {
    var holds, inHand, open, threw :=
      Total(Holds(), s.calls), Total(InHand(), s.calls), Total(Unanswered(), s.calls), Total(Threw(), s.calls);
    match s.payout
    case None => holds == 0 && open == 0 && threw == 0 && inHand == 0 && |s.withdrawals| == Disowned(s)
    case Some(p) =>
      match p.status
      case Failed => holds == 0 && open == 0 && threw == 0 && inHand == 0 && |s.withdrawals| == Disowned(s)
      case Processing => holds + threw == 1 && open == 0 && |s.withdrawals| == inHand + Disowned(s)
      case Submitted => holds == 0 && inHand == 0 && threw == 0 && open <= 1 && |s.withdrawals| == Disowned(s) + 1
  }

  ghost predicate Inv(s: State)
  {
    && Counted(s)
    && (forall c :: 0 <= c < |s.calls| ==> CallOk(s, s.calls[c]))
    && (forall w :: 0 <= w < |s.withdrawals| ==> SameRequest(s, s.withdrawals[w]))
    && (IsSubmitted(s) ==> s.payout.value.response.Some? && s.payout.value.response.value < |s.withdrawals|)
  }

  lemma Moves(calls: seq<Call>, k: nat, stage: Call)
    requires k < |calls|
    ensures Total(Holds(), calls[k := stage]) == Total(Holds(), calls) - Holds()(calls[k]) + Holds()(stage)
    ensures Total(InHand(), calls[k := stage]) == Total(InHand(), calls) - InHand()(calls[k]) + InHand()(stage)
    ensures Total(Unanswered(), calls[k := stage]) == Total(Unanswered(), calls) - Unanswered()(calls[k]) + Unanswered()(stage)
    ensures Total(Threw(), calls[k := stage]) == Total(Threw(), calls) - Threw()(calls[k]) + Threw()(stage)
    ensures Total(Forgotten(), calls[k := stage]) == Total(Forgotten(), calls) - Forgotten()(calls[k]) + Forgotten()(stage)
  {
    TotalUpdate(Holds(), calls, k, stage);
    TotalUpdate(InHand(), calls, k, stage);
    TotalUpdate(Unanswered(), calls, k, stage);
    TotalUpdate(Threw(), calls, k, stage);
    TotalUpdate(Forgotten(), calls, k, stage);
  }

  lemma Bounds(calls: seq<Call>, k: nat)
    requires k < |calls|
    ensures Total(Holds(), calls) >= Holds()(calls[k]) && Total(Unanswered(), calls) >= Unanswered()(calls[k])
    ensures Total(Threw(), calls) >= Threw()(calls[k]) && Total(Forgotten(), calls) >= 0
    ensures Total(Holds(), calls) >= Total(InHand(), calls) >= InHand()(calls[k])
    ensures Total(Holds(), calls) >= 0 && Total(Unanswered(), calls) >= 0 && Total(Threw(), calls) >= 0
  {
    TotalAtLeast(Holds(), calls, k);
    TotalAtLeast(InHand(), calls, k);
    TotalAtLeast(Unanswered(), calls, k);
    TotalAtLeast(Threw(), calls, k);
    TotalAtLeast(Forgotten(), calls, k);
    TotalMonotone(InHand(), Holds(), calls);
  }

  /** The effect of a step on one call, in the counts. */
  lemma CallMoved(s: State, r: State, k: nat)
    requires Inv(s) && k < |s.calls| && |r.calls| == |s.calls| && r.calls == s.calls[k := r.calls[k]]
    ensures CallOk(s, s.calls[k])
    ensures Total(Holds(), r.calls) == Total(Holds(), s.calls) - Holds()(s.calls[k]) + Holds()(r.calls[k])
    ensures Total(InHand(), r.calls) == Total(InHand(), s.calls) - InHand()(s.calls[k]) + InHand()(r.calls[k])
    ensures Total(Unanswered(), r.calls) == Total(Unanswered(), s.calls) - Unanswered()(s.calls[k]) + Unanswered()(r.calls[k])
    ensures Total(Threw(), r.calls) == Total(Threw(), s.calls) - Threw()(s.calls[k]) + Threw()(r.calls[k])
    ensures Total(Forgotten(), r.calls) == Total(Forgotten(), s.calls) - Forgotten()(s.calls[k]) + Forgotten()(r.calls[k])
    ensures 0 <= Total(InHand(), r.calls) <= Total(Holds(), r.calls)
    ensures Total(Unanswered(), r.calls) >= 0 && Total(Threw(), r.calls) >= 0
    ensures Total(Holds(), s.calls) >= Holds()(s.calls[k]) && Total(Unanswered(), s.calls) >= Unanswered()(s.calls[k])
    ensures Total(Threw(), s.calls) >= Threw()(s.calls[k])
  {
    Moves(s.calls, k, r.calls[k]);
    Bounds(s.calls, k);
    Bounds(r.calls, k);
  }

  /** Taking the key, anew or again. */
  lemma TakeCounted(s: State, e: Event)
    requires Inv(s) && (e.Insert? || e.ReadExisting? || e.Retry?)
    ensures Counted(Step(s, e))
  {
    var r := Step(s, e);
    if r != s {
      CallMoved(s, r, e.call);
    }
  }

  lemma OutcomeCounted(s: State, e: Event)
    requires Inv(s) && (e.Withdraw? || e.WithdrawFailed? || e.Record?)
    ensures Counted(Step(s, e))
  {
    var r := Step(s, e);
    if r != s {
      CallMoved(s, r, e.call);
    }
  }

  lemma AfterwardsCounted(s: State, e: Event)
    requires Inv(s) && (e.Respond? || e.Throw? || e.WriteFailed?)
    ensures Counted(Step(s, e))
  {
    var r := Step(s, e);
    if r != s {
      CallMoved(s, r, e.call);
    }
  }

  lemma BeginCounted(s: State, hash: nat)
    requires Inv(s)
    ensures Counted(Step(s, Begin(hash)))
  {
  }

  /** Nobody who could still write the row is left once it is submitted. */
  lemma SubmittedStep(s: State, e: Event)
    requires Inv(s) && IsSubmitted(s)
    ensures Step(s, e).payout == s.payout
  {
    if !e.Begin? && At(s, e.call) {
      Bounds(s.calls, e.call);
    }
  }

  lemma StepKeepsCalls(s: State, e: Event)
    requires Inv(s)
    ensures var r := Step(s, e); forall c :: 0 <= c < |r.calls| ==> CallOk(r, r.calls[c])
  {
    var r := Step(s, e);
    if IsSubmitted(s) {
      SubmittedStep(s, e);
    }
    forall c | 0 <= c < |r.calls|
      ensures CallOk(r, r.calls[c])
    {
      assert c < |s.calls| ==> CallOk(s, s.calls[c]);
    }
  }

  lemma StepKeepsPayout(s: State, e: Event)
    requires Inv(s)
    ensures var r := Step(s, e);
            && (forall w :: 0 <= w < |r.withdrawals| ==> SameRequest(r, r.withdrawals[w]))
            && (IsSubmitted(r) ==> r.payout.value.response.Some? && r.payout.value.response.value < |r.withdrawals|)
  {
    if !e.Begin? && At(s, e.call) {
      assert CallOk(s, s.calls[e.call]);
      Bounds(s.calls, e.call);
    }
  }

  lemma StepKeepsInv(s: State, e: Event)
    requires Inv(s)
    ensures Inv(Step(s, e))
  {
    StepKeepsCalls(s, e);
    StepKeepsPayout(s, e);
    match e
    case Begin(hash) => BeginCounted(s, hash);
    case Insert(_) => TakeCounted(s, e);
    case ReadExisting(_) => TakeCounted(s, e);
    case Retry(_) => TakeCounted(s, e);
    case Withdraw(_) => OutcomeCounted(s, e);
    case WithdrawFailed(_) => OutcomeCounted(s, e);
    case Record(_) => OutcomeCounted(s, e);
    case _ => AfterwardsCounted(s, e);
  }

  lemma {:induction false} RunKeepsInv(es: seq<Event>)
    ensures Inv(Run(UNUSED, es))
  {
    if es == [] {
    } else {
      RunKeepsInv(es[..|es| - 1]);
      StepKeepsInv(Run(UNUSED, es[..|es| - 1]), es[|es| - 1]);
    }
  }

  // ---------- what follows ----------

  /**
   * In every interleaving: one call at most is withdrawing; every withdrawal was asked for by the request that first used
   * the key; and there is at most one, plus one for every call that threw after its withdrawal.
   */
  lemma OneWithdrawalPlusDisowned(es: seq<Event>)
    ensures var s := Run(UNUSED, es);
            && 0 <= Total(Holds(), s.calls) <= 1
            && 0 <= |s.withdrawals| - Disowned(s) <= 1
            && (s.withdrawals != [] ==> s.payout.Some?)
            && forall w :: 0 <= w < |s.withdrawals| ==> s.withdrawals[w] == s.payout.value.hash
  {
    RunKeepsInv(es);
    var s := Run(UNUSED, es);
    if s.calls != [] {
      Bounds(s.calls, 0);
    }
    if s.withdrawals != [] {
      assert SameRequest(s, s.withdrawals[0]);
    }
  }

  ghost predicate NoThrow(es: seq<Event>) { forall i :: 0 <= i < |es| ==> !es[i].Throw? }

  predicate Calm(c: Call) { !c.ThrewAfter? && !c.Gone? }

  ghost predicate AllCalm(s: State) { forall c :: 0 <= c < |s.calls| ==> Calm(s.calls[c]) }

  lemma CalmStep(s: State, e: Event)
    requires AllCalm(s) && !e.Throw?
    ensures AllCalm(Step(s, e))
  {
  }

  lemma {:induction false} CalmRun(es: seq<Event>)
    requires NoThrow(es)
    ensures AllCalm(Run(UNUSED, es)) && Disowned(Run(UNUSED, es)) == 0
  {
    if es == [] {
    } else {
      CalmRun(es[..|es| - 1]);
      CalmStep(Run(UNUSED, es[..|es| - 1]), es[|es| - 1]);
    }
    TotalZero(Threw(), Run(UNUSED, es).calls);
    TotalZero(Forgotten(), Run(UNUSED, es).calls);
  }

  predicate NamesWithdrawal(c: Call) { c.Answered? && (c.answer.Fresh? || c.answer.Replay?) }

  /** In every run all answers that name a withdrawal name the same one, and without throws there is no other. */
  lemma AnswersAgree(es: seq<Event>, a: nat, b: nat)
    requires a < |Run(UNUSED, es).calls| && NamesWithdrawal(Run(UNUSED, es).calls[a])
    requires b < |Run(UNUSED, es).calls| && NamesWithdrawal(Run(UNUSED, es).calls[b])
    ensures var s := Run(UNUSED, es);
            && s.calls[a].answer.withdrawal == s.calls[b].answer.withdrawal < |s.withdrawals|
            && |s.withdrawals| == 1 + Disowned(s)
            && (NoThrow(es) ==> |s.withdrawals| == 1)
  {
    RunKeepsInv(es);
    var s := Run(UNUSED, es);
    assert CallOk(s, s.calls[a]) && CallOk(s, s.calls[b]);
    if NoThrow(es) {
      CalmRun(es);
    }
  }

  /** Once submitted, the stored response stands in every run: each later request with the same content is answered with it. */
  lemma StoredResponseStands(es: seq<Event>, more: seq<Event>, call: nat)
    requires IsSubmitted(Run(UNUSED, es))
    requires var s := Run(UNUSED, es + more);
             At(s, call) && s.calls[call] == KeyTaken(Run(UNUSED, es).payout.value.hash)
    ensures var s := Run(UNUSED, es + more);
            && s.payout == Run(UNUSED, es).payout && s.payout.value.response.Some?
            && DoReadExisting(s, call).calls[call] == Answered(Replay(s.payout.value.response.value))
  {
    Stands(es, more);
    RunKeepsInv(es);
  }

  lemma {:induction false} Stands(es: seq<Event>, more: seq<Event>)
    requires IsSubmitted(Run(UNUSED, es))
    ensures Run(UNUSED, es + more).payout == Run(UNUSED, es).payout
  {
    if more == [] {
      assert es + more == es;
    } else {
      var before := more[..|more| - 1];
      Stands(es, before);
      assert es + more == es + before + [more[|more| - 1]];
      StandsOnce(es + before, more[|more| - 1]);
    }
  }

  lemma StandsOnce(es: seq<Event>, e: Event)
    requires IsSubmitted(Run(UNUSED, es))
    ensures Run(UNUSED, es + [e]).payout == Run(UNUSED, es).payout
  {
    RunKeepsInv(es);
    SubmittedStep(Run(UNUSED, es), e);
    assert (es + [e])[..|es|] == es;
  }

  // ---------- a request that stops ----------

  predicate Busy(c: Call) { c.Owning? || c.Withdrawn? || c.ThrewAfter? }

  predicate IsStepOf(e: Event, call: nat) { !e.Begin? && e.call == call }

  /** One call at most has the key in hand. */
  lemma OneBusy(s: State, a: nat, b: nat)
    requires Inv(s) && At(s, a) && At(s, b) && a < b && Busy(s.calls[a])
    ensures !Busy(s.calls[b]) && s.payout.Some? && s.payout.value.status == Processing
  {
    var busy := (c: Call) => if Busy(c) then 1 else 0;
    TotalPlus(Holds(), Threw(), busy, s.calls);
    TotalAtLeast(busy, s.calls, a);
    Bounds(s.calls, a);
    if Busy(s.calls[b]) {
      TotalAtLeastTwo(busy, s.calls, a, b);
    }
  }

  lemma BusyMeansProcessing(s: State, call: nat)
    requires Inv(s) && At(s, call) && Busy(s.calls[call])
    ensures s.payout.Some? && s.payout.value.status == Processing
  {
    Bounds(s.calls, call);
  }

  lemma StoppedStep(s: State, e: Event, call: nat)
    requires Inv(s) && At(s, call) && Busy(s.calls[call]) && !IsStepOf(e, call)
    ensures var r := Step(s, e);
            && r.payout == s.payout && r.withdrawals == s.withdrawals && At(r, call) && r.calls[call] == s.calls[call]
  {
    BusyMeansProcessing(s, call);
    if !e.Begin? && At(s, e.call) {
      if e.call < call {
        if Busy(s.calls[e.call]) {
          OneBusy(s, e.call, call);
        }
      } else {
        OneBusy(s, call, e.call);
      }
    }
  }

  /**
   * A request that stops between taking the key and writing its outcome keeps the key: in every run without a step of it
   * nothing is withdrawn, and whoever finds the key taken is refused.
   */
  lemma {:induction false} StoppedRequestKeepsKey(s: State, es: seq<Event>, call: nat, other: nat)
    requires Inv(s) && At(s, call) && Busy(s.calls[call])
    requires forall i :: 0 <= i < |es| ==> !IsStepOf(es[i], call)
    ensures var r := Run(s, es);
            && r.payout == s.payout && r.withdrawals == s.withdrawals && Inv(r) && At(r, call) && r.calls[call] == s.calls[call]
            && (At(r, other) && r.calls[other].KeyTaken? ==> DoReadExisting(r, other).calls[other] == Answered(Conflict))
  {
    if es == [] {
      BusyMeansProcessing(s, call);
    } else {
      StoppedRequestKeepsKey(s, es[..|es| - 1], call, other);
      StoppedStep(Run(s, es[..|es| - 1]), es[|es| - 1], call);
      StepKeepsInv(Run(s, es[..|es| - 1]), es[|es| - 1]);
      BusyMeansProcessing(Run(s, es), call);
    }
  }

  lemma Then(es: seq<Event>, s: State, e: Event) returns (more: seq<Event>, next: State)
    requires Run(UNUSED, es) == s
    ensures Run(UNUSED, more) == next == Step(s, e)
  {
    more, next := es + [e], Step(s, e);
    assert more[..|more| - 1] == es;
  }

  lemma WithdrawnAndFailed(hash: nat) returns (es: seq<Event>, s: State)
    ensures Run(UNUSED, es) == s == State(Some(Payout(hash, Failed, None)), [hash], [Gone])
  {
    es, s := Then([], UNUSED, Begin(hash));
    es, s := Then(es, s, Insert(0));
    es, s := Then(es, s, Withdraw(0));
    assert s == State(Some(Payout(hash, Processing, None)), [hash], [Withdrawn(0)]);
    es, s := Then(es, s, Throw(0));
    es, s := Then(es, s, WriteFailed(0));
  }

  /** A throw after the withdrawal marks the payout as failed before any money moved; the permitted retry pays again. */
  lemma ThrowPaysTwice(hash: nat) returns (es: seq<Event>)
    ensures |Run(UNUSED, es).withdrawals| == 2
  {
    var s: State;
    es, s := WithdrawnAndFailed(hash);
    es, s := Then(es, s, Begin(hash));
    es, s := Then(es, s, Insert(1));
    assert s.calls == [Gone, KeyTaken(hash)];
    es, s := Then(es, s, ReadExisting(1));
    es, s := Then(es, s, Retry(1));
    es, s := Then(es, s, Withdraw(1));
  }
}
