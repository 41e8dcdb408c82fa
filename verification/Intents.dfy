/**
 * One payment intent: paying, cancelling, expiring and refunding it. Each call is a chain of reads and guarded writes that
 * interleaves with every other.
 */
module Intents {
  import opened Wrappers
  import opened Sums

  datatype IntentStatus = RequiresPayment | Processing | Succeeded | PartiallyRefunded | Refunded | Canceled | Expired

  /** Amounts are cents. */
  datatype Intent = Intent(
    status: IntentStatus, live: bool, amount: int, refunded: int, payer: Option<nat>, expiresAt: nat)

  datatype Refund = Refund(amount: int, key: Option<nat>)

  datatype Call =
    | PayRead(payer: nat)                                 // the intent was read as payable
    | Claimed(payer: nat)
    | Sent(payer: nat)                                    // the transfer went through
    | RefundRead(status: IntentStatus, refunded: int, payee: Option<nat>, part: int, key: Option<nat>)
    | Over(ok: bool)

  /** `business` and `payers` are wallet balances as refunds change them; `transfers` lists who paid successfully. */
  datatype State = State(
    intent: Intent, transfers: seq<nat>, refunds: seq<Refund>, business: int, payers: seq<int>, calls: seq<Call>, now: nat)

  datatype Event =
    | Expire(clock: nat)
    | Cancel
    | Simulate                                            // sandbox only
    | BeginPay(payer: nat)
    | Claim(call: nat, clock: nat)
    | Transfer(call: nat)
    | TransferFailed(call: nat)
    | Succeed(call: nat)
    | BeginRefund(asked: Option<int>, key: Option<nat>)
    | CommitRefund(call: nat, walletsUsable: bool)
    | Tick

  predicate Paid(status: IntentStatus) { status == Succeeded || status == PartiallyRefunded || status == Refunded }

  predicate Refundable(status: IntentStatus) { status == Succeeded || status == PartiallyRefunded }

  predicate At(s: State, call: nat) { call < |s.calls| }

  function Go(s: State, call: nat, stage: Call): State
    requires At(s, call)
  {
    s.(calls := s.calls[call := stage])
  }

  function AddCall(s: State, stage: Call): State { s.(calls := s.calls + [stage]) }

  function SetStatus(s: State, status: IntentStatus): State { s.(intent := s.intent.(status := status)) }

  function DoClaim(s: State, call: nat, clock: nat): State
  {
    if At(s, call) && s.calls[call].PayRead? && clock <= s.now then
      var payer := s.calls[call].payer;
      if s.intent.status == RequiresPayment && s.intent.expiresAt > clock
      then Go(s.(intent := s.intent.(status := Processing, payer := Some(payer))), call, Claimed(payer))
      else Go(s, call, Over(false))
    else s
  }

  function DoTransferFailed(s: State, call: nat): State
  {
    if At(s, call) && s.calls[call].Claimed? then
      var after := if s.intent.status == Processing then s.intent.(status := RequiresPayment, payer := None) else s.intent;
      Go(s.(intent := after), call, Over(false))
    else s
  }

  predicate KeyUsed(refunds: seq<Refund>, key: Option<nat>)
  {
    key.Some? && exists i :: 0 <= i < |refunds| && refunds[i].key == key
  }

  /** Everything left unless an amount is asked for. */
  function PartOf(intent: Intent, asked: Option<int>): int
  {
    if asked.Some? then asked.value else intent.amount - intent.refunded
  }

  predicate MayRefund(intent: Intent, part: int)
  {
    Refundable(intent.status) && 0 < part <= intent.amount - intent.refunded
  }

  function DoBeginRefund(s: State, asked: Option<int>, key: Option<nat>): State
  {
    var part := PartOf(s.intent, asked);
    if KeyUsed(s.refunds, key) || !MayRefund(s.intent, part) then s
    else AddCall(s, RefundRead(s.intent.status, s.intent.refunded, s.intent.payer, part, key))
  }

  predicate PayerKnown(s: State, payer: Option<nat>) { payer.Some? && payer.value < |s.payers| }

  /** Everything below is one database transaction: it commits when all of this holds, and otherwise changes nothing. */
  predicate RefundCommits(s: State, c: Call, walletsUsable: bool)
    requires c.RefundRead?
  {
    && s.intent.refunded == c.refunded && s.intent.status == c.status
    && (s.intent.live ==> walletsUsable && PayerKnown(s, c.payee) && s.business >= c.part)
    && !KeyUsed(s.refunds, c.key)
  }

  function AfterRefund(intent: Intent, refunded: int, part: int): Intent
  {
    var total := refunded + part;
    intent.(refunded := total, status := if total >= intent.amount then Refunded else PartiallyRefunded)
  }

  function PayBack(s: State, payer: Option<nat>, part: int): State
  {
    if s.intent.live && PayerKnown(s, payer)
    then s.(business := s.business - part, payers := s.payers[payer.value := s.payers[payer.value] + part])
    else s
  }

  function DoCommitRefund(s: State, call: nat, walletsUsable: bool): State
  {
    if At(s, call) && s.calls[call].RefundRead? then
      var c := s.calls[call];
      if !RefundCommits(s, c, walletsUsable) then Go(s, call, Over(false))
      else
        var claimed := PayBack(s.(intent := AfterRefund(s.intent, c.refunded, c.part)), c.payee, c.part);
        Go(claimed.(refunds := s.refunds + [Refund(c.part, c.key)]), call, Over(true))
    else s
  }

  function Step(s: State, e: Event): State
  {
    match e
    case Expire(clock) =>
      if s.intent.status == RequiresPayment && clock <= s.now && s.intent.expiresAt <= clock then SetStatus(s, Expired) else s
    case Cancel => if s.intent.status == RequiresPayment then SetStatus(s, Canceled) else s
    case Simulate => if s.intent.status == RequiresPayment && !s.intent.live then SetStatus(s, Succeeded) else s
    case BeginPay(payer) =>
      if s.intent.live && s.intent.status == RequiresPayment && payer < |s.payers| then AddCall(s, PayRead(payer)) else s
    case Claim(call, clock) => DoClaim(s, call, clock)
    case Transfer(call) =>
      if At(s, call) && s.calls[call].Claimed?
      then Go(s.(transfers := s.transfers + [s.calls[call].payer]), call, Sent(s.calls[call].payer))
      else s
    case TransferFailed(call) => DoTransferFailed(s, call)
    case Succeed(call) => if At(s, call) && s.calls[call].Sent? then Go(SetStatus(s, Succeeded), call, Over(true)) else s
    case BeginRefund(asked, key) => DoBeginRefund(s, asked, key)
    case CommitRefund(call, walletsUsable) => DoCommitRefund(s, call, walletsUsable)
    case Tick => s.(now := s.now + 1)
  }

  function Run(s: State, es: seq<Event>): State
  {
    if es == [] then s else Step(Run(s, es[..|es| - 1]), es[|es| - 1])
  }

  predicate Created(s: State)
  {
    && s.intent.status == RequiresPayment && s.intent.amount > 0 && s.intent.refunded == 0 && s.intent.payer.None?
    && s.transfers == [] && s.refunds == [] && s.calls == []
  }

  // ---------- paid at most once ----------

  predicate Owns(c: Call) { c.Claimed? || c.Sent? }

  predicate CallOk(s: State, c: Call)
  {
    match c
    case PayRead(payer) => s.intent.live && payer < |s.payers|
    case Claimed(payer) => s.intent.status == Processing && s.intent.payer == Some(payer) && s.transfers == [] && s.intent.live
    case Sent(payer) => s.intent.status == Processing && s.intent.payer == Some(payer) && s.transfers == [payer] && s.intent.live
    case RefundRead(status, refunded, payee, part, _) =>
      && Refundable(status) && payee == s.intent.payer && Paid(s.intent.status)
      && refunded <= s.intent.refunded && 0 < part <= s.intent.amount - refunded
    case Over(_) => true
  }

  /** A transfer exists exactly when the intent counts as paid; while it is being processed, its one owner knows. */
  predicate TransferOk(s: State)
  {
    && (Paid(s.intent.status) && s.intent.live ==> s.intent.payer.Some? && s.transfers == [s.intent.payer.value])
    && (!s.intent.live ==> s.transfers == [] && s.intent.status != Processing)
    && (s.intent.status in {RequiresPayment, Canceled, Expired} ==> s.transfers == [])
    && (s.intent.payer.Some? ==> s.intent.payer.value < |s.payers|)
  }

  function Amount(): Refund -> int { (r: Refund) => r.amount }

  predicate RefundsOk(s: State)
  {
    && s.intent.refunded == Total(Amount(), s.refunds)
    && 0 <= s.intent.refunded <= s.intent.amount
    && s.intent.amount > 0
    && (s.intent.refunded > 0 ==> s.intent.status == if s.intent.refunded == s.intent.amount then Refunded else PartiallyRefunded)
    && (s.intent.refunded == 0 ==> s.intent.status != Refunded && s.intent.status != PartiallyRefunded)
    && (forall i :: 0 <= i < |s.refunds| ==> s.refunds[i].amount > 0)
    && (forall i, j :: 0 <= i < j < |s.refunds| && s.refunds[i].key.Some? ==> s.refunds[i].key != s.refunds[j].key)
  }

  ghost predicate CallsOk(s: State)
  {
    && (forall c :: 0 <= c < |s.calls| ==> CallOk(s, s.calls[c]))
    && (forall a, b :: 0 <= a < b < |s.calls| && Owns(s.calls[a]) ==> !Owns(s.calls[b]))
    && (s.intent.status == Processing ==> exists c :: 0 <= c < |s.calls| && Owns(s.calls[c]))
  }

  ghost predicate Inv(s: State) { CallsOk(s) && TransferOk(s) && RefundsOk(s) }

  predicate SameTerms(s: State, r: State)
  {
    r.intent.live == s.intent.live && r.intent.amount == s.intent.amount && |r.payers| == |s.payers|
  }

  lemma NoOwners(s: State)
    requires CallsOk(s) && s.intent.status != Processing
    ensures forall c :: 0 <= c < |s.calls| ==> !Owns(s.calls[c])
  {
  }

  /** Steps of a payment after its claim belong to the one owner. */
  lemma PaymentStep(s: State, e: Event)
    requires Inv(s) && (e.Claim? || e.Transfer? || e.TransferFailed? || e.Succeed?)
    ensures Inv(Step(s, e))
  {
    var r := Step(s, e);
    if r != s {
      var k := e.call;
      assert CallOk(s, s.calls[k]);
      if s.intent.status != Processing {
        NoOwners(s);
      }
      forall c | 0 <= c < |r.calls|
        ensures CallOk(r, r.calls[c])
      {
        assert CallOk(s, s.calls[c]);
      }
      assert r.calls == s.calls[k := r.calls[k]];
      assert r.intent.status == Processing ==> Owns(r.calls[k]) || (r.intent == s.intent && e.Claim?);
      if r.intent.status == Processing && !Owns(r.calls[k]) {
        var o :| 0 <= o < |s.calls| && Owns(s.calls[o]);
        assert o != k && Owns(r.calls[o]);
      }
    }
  }

  lemma QuietStep(s: State, e: Event)
    requires Inv(s) && (e.Expire? || e.Cancel? || e.Simulate? || e.Tick?)
    ensures Inv(Step(s, e))
  {
  }

  lemma BeginStep(s: State, e: Event)
    requires Inv(s) && (e.BeginPay? || e.BeginRefund?)
    ensures Inv(Step(s, e))
  {
  }

  lemma CommitKeepsRefunds(s: State, k: nat, walletsUsable: bool)
    requires Inv(s)
    ensures RefundsOk(DoCommitRefund(s, k, walletsUsable))
  {
    if At(s, k) && s.calls[k].RefundRead? && RefundCommits(s, s.calls[k], walletsUsable) {
      assert CallOk(s, s.calls[k]);
      TotalAppend(Amount(), s.refunds, Refund(s.calls[k].part, s.calls[k].key));
    }
  }

  lemma CommitStep(s: State, k: nat, walletsUsable: bool)
    requires Inv(s)
    ensures Inv(DoCommitRefund(s, k, walletsUsable))
  {
    CommitKeepsRefunds(s, k, walletsUsable);
    CommitKeepsCalls(s, k, walletsUsable);
  }

  lemma CommitKeepsCalls(s: State, k: nat, walletsUsable: bool)
    requires Inv(s)
    ensures CallsOk(DoCommitRefund(s, k, walletsUsable)) && TransferOk(DoCommitRefund(s, k, walletsUsable))
  {
    if At(s, k) && s.calls[k].RefundRead? {
      var r := DoCommitRefund(s, k, walletsUsable);
      assert CallOk(s, s.calls[k]);
      NoOwners(s);
      forall c | 0 <= c < |r.calls|
        ensures CallOk(r, r.calls[c])
      {
        assert CallOk(s, s.calls[c]);
      }
    }
  }

  lemma TermsStand(s: State, e: Event)
    ensures SameTerms(s, Step(s, e))
  {
  }

  lemma StepKeepsInv(s: State, e: Event)
    requires Inv(s)
    ensures Inv(Step(s, e)) && SameTerms(s, Step(s, e))
  {
    TermsStand(s, e);
    match e
    case Claim(_, _) => PaymentStep(s, e);
    case Transfer(_) => PaymentStep(s, e);
    case TransferFailed(_) => PaymentStep(s, e);
    case Succeed(_) => PaymentStep(s, e);
    case BeginPay(_) => BeginStep(s, e);
    case BeginRefund(_, _) => BeginStep(s, e);
    case CommitRefund(k, walletsUsable) => CommitStep(s, k, walletsUsable);
    case _ => QuietStep(s, e);
  }

  lemma {:induction false} RunKeepsInv(s: State, es: seq<Event>)
    requires Inv(s)
    ensures Inv(Run(s, es)) && SameTerms(s, Run(s, es))
  {
    if es == [] {
    } else {
      RunKeepsInv(s, es[..|es| - 1]);
      StepKeepsInv(Run(s, es[..|es| - 1]), es[|es| - 1]);
    }
  }

  /**
   * However calls interleave, a live intent is paid at most once; while nobody is processing it, a transfer exists exactly
   * when it reads as paid; and one that is cancelled or expired was never paid.
   */
  lemma PaidAtMostOnce(s: State, es: seq<Event>)
    requires Created(s) && s.intent.live
    ensures var r := Run(s, es);
            && |r.transfers| <= 1
            && (r.intent.status != Processing ==> (|r.transfers| == 1 <==> Paid(r.intent.status)))
            && (r.intent.status in {Canceled, Expired} ==> r.transfers == [])
            && (r.transfers != [] ==> r.intent.payer.Some? && r.transfers == [r.intent.payer.value])
  {
    RunKeepsInv(s, es);
    var r := Run(s, es);
    if r.intent.status == Processing {
      var o :| 0 <= o < |r.calls| && Owns(r.calls[o]);
      assert CallOk(r, r.calls[o]);
    }
  }

  // ---------- a payment that stops ----------

  predicate IsStepOf(e: Event, call: nat)
  {
    match e
    case Claim(c, _) => c == call
    case Transfer(c) => c == call
    case TransferFailed(c) => c == call
    case Succeed(c) => c == call
    case CommitRefund(c, _) => c == call
    case _ => false
  }

  predicate SameMoney(s: State, r: State)
  {
    r.intent == s.intent && r.transfers == s.transfers && r.refunds == s.refunds && r.business == s.business && r.payers == s.payers
  }

  lemma StoppedStep(s: State, e: Event, call: nat)
    requires Inv(s) && At(s, call) && Owns(s.calls[call]) && !IsStepOf(e, call)
    ensures SameMoney(s, Step(s, e)) && At(Step(s, e), call) && Step(s, e).calls[call] == s.calls[call]
  {
  }

  /**
   * A payment that stops between its claim and its outcome leaves the intent in processing: in every run without a step of it
   * nothing can pay, cancel, expire or refund it, and no money moves.
   */
  lemma {:induction false} StoppedPaymentBlocks(s: State, es: seq<Event>, call: nat)
    requires Inv(s) && At(s, call) && Owns(s.calls[call])
    requires forall i :: 0 <= i < |es| ==> !IsStepOf(es[i], call)
    ensures var r := Run(s, es);
            && r.intent.status == Processing && SameMoney(s, r)
            && At(r, call) && r.calls[call] == s.calls[call]
  {
    if es == [] {
      assert CallOk(s, s.calls[call]);
    } else {
      StoppedPaymentBlocks(s, es[..|es| - 1], call);
      RunKeepsInv(s, es[..|es| - 1]);
      StoppedStep(Run(s, es[..|es| - 1]), es[|es| - 1], call);
    }
  }

  // ---------- refunds ----------

  /**
   * Whatever stale reads refunds start from, what is refunded is the sum of the refund rows and never more than was paid,
   * and the intent reads as refunded exactly when all of it is.
   */
  lemma RefundedWithinAmount(s: State, es: seq<Event>)
    requires Created(s)
    ensures var r := Run(s, es);
            && r.intent.refunded == Total(Amount(), r.refunds)
            && 0 <= r.intent.refunded <= s.intent.amount
            && (r.intent.status == Refunded <==> r.intent.refunded == s.intent.amount)
            && (r.intent.status == PartiallyRefunded <==> 0 < r.intent.refunded < s.intent.amount)
            && forall i, j :: 0 <= i < j < |r.refunds| && r.refunds[i].key.Some? ==> r.refunds[i].key != r.refunds[j].key
  {
    RunKeepsInv(s, es);
  }

  ghost predicate Later(s: State, r: State)
  {
    && |s.refunds| <= |r.refunds| && r.refunds[..|s.refunds|] == s.refunds
    && s.intent.refunded <= r.intent.refunded
    && (|s.refunds| < |r.refunds| ==> s.intent.refunded < r.intent.refunded)
  }

  lemma StepLater(s: State, e: Event)
    requires Inv(s)
    ensures Later(s, Step(s, e))
  {
  }

  lemma {:induction false} RunLater(s: State, es: seq<Event>)
    requires Inv(s)
    ensures Later(s, Run(s, es))
  {
    if es == [] {
    } else {
      RunKeepsInv(s, es[..|es| - 1]);
      RunLater(s, es[..|es| - 1]);
      StepLater(Run(s, es[..|es| - 1]), es[|es| - 1]);
    }
  }

  /**
   * The refunded amount is a sound version number: it only grows, so a compare that finds the value read earlier proves
   * that no refund came in between.
   */
  lemma NoRefundInBetween(s: State, es: seq<Event>)
    requires Inv(s) && Run(s, es).intent.refunded == s.intent.refunded
    ensures Run(s, es).refunds == s.refunds
  {
    RunLater(s, es);
  }

  // ---------- money ----------

  /** What left the business wallet is what reached the payer's. */
  ghost predicate MoneyOk(first: State, s: State)
  {
    && |s.payers| == |first.payers|
    && (first.business >= 0 ==> s.business >= 0)
    && s.business == first.business - (if s.intent.live then s.intent.refunded else 0)
    && forall p :: 0 <= p < |s.payers| ==>
         s.payers[p] == first.payers[p] + if s.intent.live && s.intent.payer == Some(p) then s.intent.refunded else 0
  }

  lemma StepKeepsMoney(first: State, s: State, e: Event)
    requires Inv(s) && MoneyOk(first, s)
    ensures MoneyOk(first, Step(s, e))
  {
    if e.CommitRefund? && At(s, e.call) {
      assert CallOk(s, s.calls[e.call]);
    }
  }

  /** In every run, the business wallet loses exactly what was refunded, and the payer gains exactly that. */
  lemma {:induction false} RefundsConserveMoney(s: State, es: seq<Event>)
    requires Created(s)
    ensures MoneyOk(s, Run(s, es))
  {
    if es == [] {
    } else {
      RefundsConserveMoney(s, es[..|es| - 1]);
      RunKeepsInv(s, es[..|es| - 1]);
      StepKeepsMoney(s, Run(s, es[..|es| - 1]), es[|es| - 1]);
    }
  }
}
