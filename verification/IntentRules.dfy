/** When a payment intent is paid, expires, is cancelled or refunded, and what each does. */
module IntentRules {
  import opened Wrappers
  import opened Sums
  import opened Intents

  /** A payer claims an intent exactly while it waits for payment and its time has not come. */
  lemma ClaimsExactly(s: State, call: nat, clock: nat)
    requires At(s, call) && s.calls[call].PayRead? && clock <= s.now
    ensures Step(s, Claim(call, clock))
         == if s.intent.status == RequiresPayment && clock < s.intent.expiresAt
            then s.(intent := s.intent.(status := Processing, payer := Some(s.calls[call].payer)),
                    calls := s.calls[call := Claimed(s.calls[call].payer)])
            else s.(calls := s.calls[call := Over(false)])
  {
  }

  /** What has been paid, cancelled or expired waits for payment no more; cancelling and expiring touch only what does. */
  lemma EndsExactly(s: State, clock: nat)
    requires clock <= s.now
    ensures Step(s, Cancel) == if s.intent.status == RequiresPayment then s.(intent := s.intent.(status := Canceled)) else s
    ensures Step(s, Expire(clock))
         == if s.intent.status == RequiresPayment && s.intent.expiresAt <= clock
            then s.(intent := s.intent.(status := Expired)) else s
  {
  }

  /** A refund begins exactly for a paid intent, under a key not used before, and for what is asked or all that is left. */
  lemma RefundBeginsExactly(s: State, asked: Option<int>, key: Option<nat>)
    ensures var part := match asked case Some(a) => a case None => s.intent.amount - s.intent.refunded;
            Step(s, BeginRefund(asked, key))
            == if s.intent.status in {Succeeded, PartiallyRefunded} && 0 < part <= s.intent.amount - s.intent.refunded
                  && (key.Some? ==> forall r <- s.refunds :: r.key != key)
               then s.(calls := s.calls + [RefundRead(s.intent.status, s.intent.refunded, s.intent.payer, part, key)])
               else s
  {
    assert key.Some? ==> (KeyUsed(s.refunds, key) <==> exists r <- s.refunds :: r.key == key);
  }

  /**
   * It is written exactly when nothing was refunded since it was read, its key is still unused, and, for real money, the
   * business has the amount and the payer's wallet is there.
   */
  lemma RefundsExactly(s: State, call: nat, walletsUsable: bool)
    requires At(s, call) && s.calls[call].RefundRead?
    ensures var c := s.calls[call];
            var r := Step(s, CommitRefund(call, walletsUsable));
            if s.intent.refunded == c.refunded && s.intent.status == c.status
               && (c.key.Some? ==> forall x <- s.refunds :: x.key != c.key)
               && (s.intent.live ==> walletsUsable && c.payee.Some? && c.payee.value < |s.payers| && s.business >= c.part)
            then && r.intent == s.intent.(refunded := c.refunded + c.part,
                                          status := if c.refunded + c.part < s.intent.amount then PartiallyRefunded else Refunded)
                 && r.refunds == s.refunds + [Refund(c.part, c.key)]
                 && r.business == s.business - (if s.intent.live then c.part else 0)
                 && r.payers == (if s.intent.live then s.payers[c.payee.value := s.payers[c.payee.value] + c.part] else s.payers)
            else r == s.(calls := s.calls[call := Over(false)])
  {
    assert s.calls[call].key.Some? ==>
             (KeyUsed(s.refunds, s.calls[call].key) <==> exists x <- s.refunds :: x.key == s.calls[call].key);
  }

  // ---------- refunding all of it ----------

  lemma {:induction false} ReadStands(s: State, es: seq<Event>, call: nat)
    requires At(s, call) && s.calls[call].RefundRead?
    ensures At(Run(s, es), call) && (Run(s, es).calls[call] == s.calls[call] || Run(s, es).calls[call].Over?)
  {
    if es == [] {
    } else {
      ReadStands(s, es[..|es| - 1], call);
    }
  }

  /** Whatever happens between its read and its write, a refund without an amount that is written leaves nothing to refund. */
  lemma RefundOfAllIsFull(s: State, es: seq<Event>, key: Option<nat>, walletsUsable: bool)
    requires Inv(s) && |Step(s, BeginRefund(None, key)).calls| > |s.calls|
    ensures var r := Run(Step(s, BeginRefund(None, key)), es);
            var w := Step(r, CommitRefund(|s.calls|, walletsUsable));
            |w.refunds| > |r.refunds| ==> w.intent.refunded == w.intent.amount && w.intent.status == Refunded
  {
    var begun := Step(s, BeginRefund(None, key));
    StepKeepsInv(s, BeginRefund(None, key));
    RunKeepsInv(begun, es);
    ReadStands(begun, es, |s.calls|);
  }
}
