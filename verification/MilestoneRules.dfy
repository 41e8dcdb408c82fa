/** When a milestone is requested, claimed and paid, and what the row and its contract read afterwards. */
module MilestoneRules {
  import opened Wrappers
  import opened Fees
  import L = Ledger
  import opened Milestones

  /** Of a funded escrow, a pending milestone can be requested, and a pending or requested one released. */
  lemma BeginsExactly(s: State, i: nat)
    ensures Step(s, BeginRequest(i))
         == if s.book == Funded && i < |s.list| && s.list[i].status == Pending
            then s.(calls := s.calls + [Asking(i, s.list)]) else s
    ensures Step(s, BeginRelease(i))
         == if s.book == Funded && i < |s.list| && s.list[i].status in {Pending, Requested}
            then s.(calls := s.calls + [Reading(i, s.list)]) else s
  {
  }

  /** A request or a claim is written exactly when the list is still the one that was read. */
  lemma WritesExactly(s: State, call: nat)
    requires call < |s.calls| && (s.calls[call].Asking? || s.calls[call].Reading?) && s.calls[call].index < |s.calls[call].seen|
    ensures var i, seen := s.calls[call].index, s.calls[call].seen;
            && (s.calls[call].Asking? ==>
                  Step(s, CommitRequest(call))
                  == if s.list == seen
                     then s.(list := seen[i := Milestone(seen[i].amount, Requested)], calls := s.calls[call := Over])
                     else s.(calls := s.calls[call := Over]))
            && (s.calls[call].Reading? ==>
                  Step(s, Claim(call))
                  == if s.list == seen
                     then s.(list := seen[i := Milestone(seen[i].amount, Releasing)], calls := s.calls[call := Claimed(i, seen)])
                     else s.(calls := s.calls[call := Over]))
  {
  }

  /** A claimed milestone is paid, to the cent, exactly when the payment is allowed and the active contract has it left. */
  lemma PaysExactly(s: State, call: nat, allowed: bool)
    requires call < |s.calls| && s.calls[call].Claimed? && s.calls[call].index < |s.calls[call].seen|
    ensures var i, seen, c := s.calls[call].index, s.calls[call].seen, s.contract;
            var part := ToCents(seen[i].amount);
            var last := c.released + part == c.amount;
            Step(s, Pay(call, allowed))
            == if allowed && c.status == L.Active && 0 < part <= c.amount - c.released
               then s.(contract := L.Contract(c.buyer, c.seller, c.amount, c.released + part, if last then L.Completed else L.Active),
                       paid := s.paid + [i], calls := s.calls[call := PaidOut(i, seen, last)])
               else s.(calls := s.calls[call := Refused(i, seen)])
  {
  }

  /** What is written afterwards: the milestone released, or the list as it was read. */
  lemma EndsExactly(s: State, call: nat)
    requires call < |s.calls| && (s.calls[call].PaidOut? || s.calls[call].Refused? || s.calls[call].Disowned?)
    requires s.calls[call].index < |s.calls[call].seen|
    ensures var i, seen := s.calls[call].index, s.calls[call].seen;
            if s.calls[call].PaidOut?
            then Step(s, WriteDone(call))
                 == s.(list := seen[i := Milestone(seen[i].amount, Released)], calls := s.calls[call := Over],
                       book := if s.calls[call].completed then Paid else s.book)
            else Step(s, WriteBack(call)) == s.(list := seen, calls := s.calls[call := Over])
  {
  }

  /** An open row follows its contract: paid when it is completed, disputed with it, expired when it was refunded or cancelled. */
  lemma FollowsExactly(s: State)
    ensures var open := s.book in {Funded, Disputed};
            Step(s, Sync)
            == if open && s.contract.status == L.Completed then s.(book := Paid)
               else if open && s.contract.status == L.Disputed then s.(book := Disputed)
               else if open && s.contract.status in {L.Refunded, L.Cancelled} then s.(book := Expired)
               else s
  {
  }
}
