/** What becomes of an Idempotency-Key that is new, in use, failed or submitted. */
module PayoutRules {
  import opened Wrappers
  import opened Payouts

  /** The first request under a key takes it; any other finds it taken. */
  lemma InsertsExactly(s: State, call: nat)
    requires At(s, call) && s.calls[call].Started?
    ensures var hash := s.calls[call].hash;
            Step(s, Insert(call))
            == if s.payout == None
               then State(Some(Payout(hash, Processing, None)), s.withdrawals, s.calls[call := Owning(hash)])
               else s.(calls := s.calls[call := KeyTaken(hash)])
  {
  }

  /**
   * A taken key answers with its stored response once submitted, lets the same request try again once failed, and refuses
   * anything else: another request, or one while it is being processed.
   */
  lemma AnswersExactly(s: State, call: nat)
    requires At(s, call) && s.calls[call].KeyTaken? && s.payout.Some?
    requires s.payout.value.status == Submitted ==> s.payout.value.response.Some?
    ensures var p, hash := s.payout.value, s.calls[call].hash;
            Step(s, ReadExisting(call))
            == s.(calls := s.calls[call :=
                 if p.hash == hash && p.status == Submitted then Answered(Replay(p.response.value))
                 else if p.hash == hash && p.status == Failed then Retrying(hash)
                 else Answered(Conflict)])
  {
  }

  /** Of those that try again one takes the key: it must still have failed. */
  lemma RetriesExactly(s: State, call: nat)
    requires At(s, call) && s.calls[call].Retrying? && s.payout.Some?
    ensures var p, hash := s.payout.value, s.calls[call].hash;
            Step(s, Retry(call))
            == if p.status == Failed
               then State(Some(Payout(p.hash, Processing, p.response)), s.withdrawals, s.calls[call := Owning(hash)])
               else s.(calls := s.calls[call := Answered(Conflict)])
  {
  }
}
