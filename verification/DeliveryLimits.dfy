/** The outbox sender's assumptions: each is needed, and exactly these claims and answers are safe. */
module DeliveryLimits {
  import opened Wrappers
  import opened Sums
  import opened OutboxRows
  import opened Delivery

  // ---------- each assumption is needed ----------

  /** Transfers of one row that differ at all differ in their last valid round; otherwise they are one transaction. */
  ghost predicate DistinctIds(log: seq<Signed>)
  {
    forall x, y :: 0 <= x < y < |log| && log[x].entry == log[y].entry ==> log[x].lastValid != log[y].lastValid
  }

  lemma Then(es: seq<Event>, s: State, e: Event, start: State := INITIAL) returns (more: seq<Event>, next: State)
    requires Run(start, es) == s
    ensures more == es + [e] && next == Step(s, e) && Run(start, more) == next
    ensures TrueAnswers(start, es) && TrueAnswer(s, e) ==> TrueAnswers(start, more)
    ensures FreshClaims(start, es) && FreshClaim(s, e) ==> FreshClaims(start, more)
    ensures QuietRun(start, es) && Quiet(s, e) ==> QuietRun(start, more)
    ensures SoloRun(start, es) && Solo(s, e) ==> SoloRun(start, more)
  {
    more, next := es + [e], Step(s, e);
    assert more[..|more| - 1] == es;
  }

  /** What a run of one attempt passes on of the run before it. */
  ghost predicate Continues(start: State, es: seq<Event>, more: seq<Event>)
  {
    && (QuietRun(start, es) ==> QuietRun(start, more))
    && (SoloRun(start, es) ==> SoloRun(start, more))
  }

  lemma TwoConfirmed(log: seq<Signed>)
    requires |log| == 2 && log[0].entry == 0 && log[1].entry == 0 && log[0].fate == Confirmed && log[1].fate == Confirmed
    ensures Total(ConfirmedOf(0), log) == 2
  {
    assert log == [] + [log[0]] + [log[1]];
    TotalAppend(ConfirmedOf(0), [], log[0]);
    TotalAppend(ConfirmedOf(0), [log[0]], log[1]);
  }

  lemma ClaimRow(es: seq<Event>, s: State, attempt: nat) returns (more: seq<Event>, next: State)
    requires Run(INITIAL, es) == s && At(s, attempt, Read)
    requires s.entries[s.attempts[attempt].entry].status == s.attempts[attempt].status
    ensures Run(INITIAL, more) == next
    ensures var i := s.attempts[attempt].entry;
            next == s.(entries := s.entries[i := s.entries[i].(status := Sending, tries := s.entries[i].tries + 1)],
                       attempts := s.attempts[attempt := s.attempts[attempt].(stage := Claimed)])
    ensures Continues(INITIAL, es, more)
    ensures TrueAnswers(INITIAL, es) ==> TrueAnswers(INITIAL, more)
    ensures FreshClaims(INITIAL, es) && FreshClaim(s, Claim(attempt)) ==> FreshClaims(INITIAL, more)
  {
    more, next := Then(es, s, Claim(attempt));
  }

  /** From a claimable row to a checked one. */
  lemma ClaimAndCheck(es: seq<Event>, s: State, attempt: nat, answer: Answer) returns (more: seq<Event>, next: State)
    requires Run(INITIAL, es) == s && At(s, attempt, Read)
    requires s.entries[s.attempts[attempt].entry].status == s.attempts[attempt].status
    requires s.attempts[attempt].txId.Some? ==> answer == IsUnknown && s.attempts[attempt].lastValid < s.round
    ensures Run(INITIAL, more) == next
    ensures var i := s.attempts[attempt].entry;
            next == s.(entries := s.entries[i := s.entries[i].(status := Sending, tries := s.entries[i].tries + 1)],
                       attempts := s.attempts[attempt := s.attempts[attempt].(stage := Checked)])
    ensures Continues(INITIAL, es, more)
    ensures TrueAnswers(INITIAL, es) && s.attempts[attempt].txId.None? ==> TrueAnswers(INITIAL, more)
    ensures FreshClaims(INITIAL, es) && FreshClaim(s, Claim(attempt)) ==> FreshClaims(INITIAL, more)
  {
    more, next := ClaimRow(es, s, attempt);
    assert next.attempts[attempt] == s.attempts[attempt].(stage := Claimed);
    more, next := Then(more, next, Ask(attempt, answer));
    if s.attempts[attempt].txId.Some? {
      more, next := Then(more, next, SeeRound(attempt, s.round));
    }
  }

  lemma SignAndStore(es: seq<Event>, s: State, attempt: nat, lastValid: nat, start: State := INITIAL)
    returns (more: seq<Event>, next: State)
    requires Run(start, es) == s && At(s, attempt, Checked)
    ensures Run(start, more) == next
    ensures var i := s.attempts[attempt].entry;
            && next.log == s.log + [Signed(i, lastValid, Built)] && next.round == s.round
            && next.entries == s.entries[i := s.entries[i].(txId := Some(|s.log|), lastValid := lastValid)]
            && next.attempts == s.attempts[attempt := s.attempts[attempt].(stage := Stored(|s.log|))]
    ensures Continues(start, es, more)
    ensures TrueAnswers(start, es) ==> TrueAnswers(start, more)
    ensures FreshClaims(start, es) ==> FreshClaims(start, more)
  {
    more, next := Then(es, s, Prepare(attempt, lastValid), start);
    more, next := Then(more, next, Store(attempt), start);
  }

  /** From there to a stored and broadcast transfer whose confirmation was not waited for. */
  lemma SendChecked(es: seq<Event>, s: State, attempt: nat, lastValid: nat, start: State := INITIAL)
    returns (more: seq<Event>, next: State)
    requires Run(start, es) == s && At(s, attempt, Checked)
    ensures Run(start, more) == next
    ensures var i := s.attempts[attempt].entry;
            && next.log == s.log + [Signed(i, lastValid, Broadcast)] && next.round == s.round
            && next.entries == s.entries[i := s.entries[i].(status := Failed, txId := Some(|s.log|), lastValid := lastValid)]
            && next.attempts == s.attempts[attempt := s.attempts[attempt].(stage := Done)]
    ensures Continues(start, es, more)
    ensures TrueAnswers(start, es) ==> TrueAnswers(start, more)
    ensures FreshClaims(start, es) ==> FreshClaims(start, more)
  {
    more, next := SignAndStore(es, s, attempt, lastValid, start);
    more, next := Then(more, next, Send(attempt, true), start);
    more, next := Then(more, next, Acknowledge(attempt, false), start);
  }

  lemma SendOnce(es: seq<Event>, s: State, attempt: nat, lastValid: nat, answer: Answer) returns (more: seq<Event>, next: State)
    requires Run(INITIAL, es) == s && At(s, attempt, Read)
    requires s.entries[s.attempts[attempt].entry].status == s.attempts[attempt].status
    requires s.attempts[attempt].txId.Some? ==> answer == IsUnknown && s.attempts[attempt].lastValid < s.round
    ensures Run(INITIAL, more) == next
    ensures var i := s.attempts[attempt].entry;
            && next.log == s.log + [Signed(i, lastValid, Broadcast)] && next.round == s.round
            && next.entries == s.entries[i := s.entries[i].(
                 status := Failed, tries := s.entries[i].tries + 1, txId := Some(|s.log|), lastValid := lastValid)]
            && next.attempts == s.attempts[attempt := s.attempts[attempt].(stage := Done)]
    ensures Continues(INITIAL, es, more)
    ensures TrueAnswers(INITIAL, es) && s.attempts[attempt].txId.None? ==> TrueAnswers(INITIAL, more)
    ensures FreshClaims(INITIAL, es) && FreshClaim(s, Claim(attempt)) ==> FreshClaims(INITIAL, more)
  {
    more, next := ClaimAndCheck(es, s, attempt, answer);
    more, next := SendChecked(more, next, attempt, lastValid);
  }

  lemma RowRead(row: Row) returns (es: seq<Event>, s: State)
    ensures Run(INITIAL, es) == s && FreshClaims(INITIAL, es) && TrueAnswers(INITIAL, es)
    ensures QuietRun(INITIAL, es) && SoloRun(INITIAL, es)
    ensures s == State([Entry(row, Queued, None, 0, 0)], [Attempt(0, Queued, None, 0, Read)], [], 0)
  {
    es, s := Then([], INITIAL, Append(row));
    es, s := Then(es, s, Begin(0));
  }

  lemma FailedBeforeSigning(row: Row) returns (es: seq<Event>, s: State)
    ensures Run(INITIAL, es) == s && TrueAnswers(INITIAL, es) && QuietRun(INITIAL, es)
    ensures s == State([Entry(row, Failed, None, 0, 1)], [Attempt(0, Queued, None, 0, Done)], [], 0)
  {
    es, s := RowRead(row);
    es, s := ClaimAndCheck(es, s, 0, IsUnknown);
    assert s == State([Entry(row, Sending, None, 0, 1)], [Attempt(0, Queued, None, 0, Checked)], [], 0);
    es, s := Then(es, s, Refuse(0, Failed));
  }

  /** Two workers have read the same row, which failed before anything was signed. */
  lemma TwoReaders(row: Row) returns (es: seq<Event>, s: State)
    ensures Run(INITIAL, es) == s && TrueAnswers(INITIAL, es) && QuietRun(INITIAL, es)
    ensures s.entries == [Entry(row, Failed, None, 0, 1)] && s.log == [] && s.round == 0
    ensures s.attempts == [Attempt(0, Queued, None, 0, Done), Attempt(0, Failed, None, 0, Read), Attempt(0, Failed, None, 0, Read)]
  {
    es, s := FailedBeforeSigning(row);
    es, s := Then(es, s, Begin(0));
    es, s := Then(es, s, Begin(0));
  }

  /** They sign one round apart. */
  lemma BothBroadcast(row: Row) returns (es: seq<Event>, s: State)
    ensures Run(INITIAL, es) == s && TrueAnswers(INITIAL, es) && QuietRun(INITIAL, es)
    ensures s.log == [Signed(0, 1, Broadcast), Signed(0, 2, Broadcast)] && s.round == 1
    ensures forall a <- s.attempts :: a.stage == Done
  {
    es, s := TwoReaders(row);
    es, s := SendOnce(es, s, 1, 1, IsUnknown);
    es, s := Then(es, s, NextRound);
    es, s := SendOnce(es, s, 2, 2, IsUnknown);
  }

  /**
   * The claim compares only the status. Two workers that both read a row that failed before signing can each send it,
   * although every answer from the chain is true.
   */
  lemma StaleClaimSendsTwice(row: Row) returns (es: seq<Event>)
    ensures TrueAnswers(INITIAL, es) && QuietRun(INITIAL, es)
    ensures Total(ConfirmedOf(0), Run(INITIAL, es).log) == 2 && DistinctIds(Run(INITIAL, es).log)
  {
    var s: State;
    es, s := BothBroadcast(row);
    es, s := Then(es, s, Confirm(0));
    es, s := Then(es, s, Confirm(1));
    TwoConfirmed(s.log);
  }

  /** One worker has sent the row without waiting, and has read the failed row again. */
  lemma SentUnnoticed(row: Row) returns (es: seq<Event>, s: State)
    ensures Run(INITIAL, es) == s && FreshClaims(INITIAL, es) && TrueAnswers(INITIAL, es)
    ensures QuietRun(INITIAL, es) && SoloRun(INITIAL, es)
    ensures s.entries == [Entry(row, Failed, Some(0), 0, 1)] && s.log == [Signed(0, 0, Broadcast)] && s.round == 0
    ensures s.attempts == [Attempt(0, Queued, None, 0, Done), Attempt(0, Failed, Some(0), 0, Read)]
  {
    es, s := RowRead(row);
    es, s := SendOnce(es, s, 0, 0, IsUnknown);
    es, s := Then(es, s, Begin(0));
  }

  /** An indexer error is reported as an unknown transfer; a single worker then signs a confirmed transfer again. */
  lemma WrongAnswerSendsTwice(row: Row) returns (es: seq<Event>)
    ensures FreshClaims(INITIAL, es) && QuietRun(INITIAL, es) && SoloRun(INITIAL, es)
    ensures Total(ConfirmedOf(0), Run(INITIAL, es).log) == 2 && DistinctIds(Run(INITIAL, es).log)
  {
    var s: State;
    es, s := SentUnnoticed(row);
    es, s := Then(es, s, Confirm(0));
    es, s := Then(es, s, NextRound);
    es, s := SendOnce(es, s, 1, 1, IsUnknown);
    es, s := Then(es, s, Confirm(1));
    TwoConfirmed(s.log);
  }

  lemma AskedInTime(row: Row) returns (es: seq<Event>, s: State)
    ensures Run(INITIAL, es) == s && FreshClaims(INITIAL, es) && TrueAnswers(INITIAL, es) && SoloRun(INITIAL, es)
    ensures s.log == [Signed(0, 0, Broadcast)] && s.round == 0 && |s.entries| == 1
    ensures s.attempts == [Attempt(0, Queued, None, 0, Done), Attempt(0, Failed, Some(0), 0, Asked)]
  {
    es, s := SentUnnoticed(row);
    es, s := ClaimRow(es, s, 1);
    es, s := Then(es, s, Ask(1, IsUnknown));
  }

  /** The status was asked for in the last valid round, and the round after that one. */
  lemma PassedInBetween(row: Row) returns (es: seq<Event>, s: State)
    ensures Run(INITIAL, es) == s && FreshClaims(INITIAL, es) && TrueAnswers(INITIAL, es) && SoloRun(INITIAL, es)
    ensures s.log == [Signed(0, 0, Confirmed)] && s.round == 1 && |s.attempts| == 2 && |s.entries| == 1
    ensures s.attempts[1] == Attempt(0, Failed, Some(0), 0, Checked)
  {
    es, s := AskedInTime(row);
    es, s := Then(es, s, Confirm(0));
    es, s := Then(es, s, NextRound);
    es, s := Then(es, s, SeeRound(1, 1));
  }

  /** A transfer that the chain takes between the two answers is signed again by a single worker, although both are true. */
  lemma LateRoundSendsTwice(row: Row) returns (es: seq<Event>)
    ensures FreshClaims(INITIAL, es) && TrueAnswers(INITIAL, es) && SoloRun(INITIAL, es)
    ensures Total(ConfirmedOf(0), Run(INITIAL, es).log) == 2 && DistinctIds(Run(INITIAL, es).log)
  {
    var s: State;
    es, s := PassedInBetween(row);
    es, s := SendChecked(es, s, 1, 1);
    es, s := Then(es, s, Confirm(1));
    TwoConfirmed(s.log);
  }

  // ---------- exactly which claims and answers are safe ----------

  ghost predicate OnceEach(s: State) { forall i: nat :: Total(ConfirmedOf(i), s.log) <= 1 }

  /** Every later run with fresh claims, true answers and a quiet chain between them confirms each row at most once. */
  ghost predicate SafeFrom(s: State)
  {
    forall es :: Guarded(s, es) && DistinctIds(Run(s, es).log) ==> OnceEach(Run(s, es))
  }

  lemma InvIsSafe(s: State)
    requires Inv(s) && AllAskedOk(s)
    ensures SafeFrom(s)
  {
    forall es | Guarded(s, es)
      ensures OnceEach(Run(s, es))
    {
      GuardedRunsAreSafe(s, es);
      forall i: nat
        ensures Total(ConfirmedOf(i), Run(s, es).log) <= 1
      {
        ConfirmedOnce(Run(s, es), i);
      }
    }
  }

  /** Row i's stored transfer t has reached the chain or still can, and nobody waits for an answer on the round. */
  ghost predicate Alive(s: State, i: nat, t: nat)
  {
    && i < |s.entries| && t < |s.log| && s.log[t].entry == i
    && (s.log[t].fate == Confirmed || (s.log[t].fate == Broadcast && s.round <= s.log[t].lastValid && Quiet(s, Confirm(t))))
  }

  /** Whatever the attempts do, the chain can take t now. */
  lemma ConfirmAlive(start: State, i: nat, t: nat) returns (es: seq<Event>, s: State)
    requires Alive(start, i, t)
    ensures Run(start, es) == s && Guarded(start, es)
    ensures s == SetFate(start, t, Confirmed)
  {
    es, s := [], start;
    if start.log[t].fate == Broadcast {
      es, s := Then(es, s, Confirm(t), start);
    } else {
      assert start.log[t := start.log[t].(fate := Confirmed)] == start.log;
    }
  }

  /** A round later than every last valid round of the log. */
  function Beyond(log: seq<Signed>, round: nat): (r: nat)
    ensures r >= round && forall x :: 0 <= x < |log| ==> log[x].lastValid < r
  {
    if log == [] then round
    else
      var before, last := Beyond(log[..|log| - 1], round), log[|log| - 1].lastValid;
      if last < before then before else last + 1
  }

  ghost predicate Unreferenced(attempts: seq<Attempt>, tx: nat)
  {
    forall a :: 0 <= a < |attempts| ==> attempts[a].txId != Some(tx)
  }

  /** A checked attempt signs, sends, and is confirmed. */
  lemma ConfirmAnother(start: State, es: seq<Event>, s: State, attempt: nat) returns (more: seq<Event>, next: State)
    requires Run(start, es) == s && Guarded(start, es) && At(s, attempt, Checked) && DistinctIds(s.log)
    requires Unreferenced(s.attempts, |s.log|)
    ensures Run(start, more) == next && Guarded(start, more) && DistinctIds(next.log)
    ensures |next.log| == |s.log| + 1 && next.log[..|s.log|] == s.log
    ensures next.log[|s.log|].entry == s.attempts[attempt].entry && next.log[|s.log|].fate == Confirmed
  {
    var lastValid := Beyond(s.log, s.round);
    more, next := SendChecked(es, s, attempt, lastValid, start);
    more, next := Then(more, next, Confirm(|s.log|), start);
  }

  /** A guarded run, with ids that can be told apart, that confirms a row twice. */
  ghost predicate Breaks(start: State, es: seq<Event>)
  {
    Guarded(start, es) && DistinctIds(Run(start, es).log) && !OnceEach(Run(start, es))
  }

  lemma ConfirmedTwice(start: State, es: seq<Event>, s: State, i: nat, t: nat)
    requires Run(start, es) == s && Guarded(start, es) && DistinctIds(s.log) && t + 1 < |s.log|
    requires s.log[t].entry == i && s.log[t].fate == Confirmed
    requires s.log[|s.log| - 1].entry == i && s.log[|s.log| - 1].fate == Confirmed
    ensures Breaks(start, es)
  {
    TotalAtLeastTwo(ConfirmedOf(i), s.log, t, |s.log| - 1);
  }

  /** From a checked attempt over a confirmed transfer, a run confirms the row twice. */
  lemma CheckedOverConfirmed(start: State, before: seq<Event>, now: State, attempt: nat, t: nat) returns (es: seq<Event>)
    requires Run(start, before) == now && Guarded(start, before) && At(now, attempt, Checked) && DistinctIds(now.log)
    requires Unreferenced(now.attempts, |now.log|)
    requires t < |now.log| && now.log[t].entry == now.attempts[attempt].entry && now.log[t].fate == Confirmed
    ensures Breaks(start, es)
  {
    var s: State;
    es, s := ConfirmAnother(start, before, now, attempt);
    ConfirmedTwice(start, es, s, now.attempts[attempt].entry, t);
  }

  /** And so over a living one. */
  lemma CheckedOverAlive(start: State, attempt: nat, t: nat) returns (es: seq<Event>)
    requires At(start, attempt, Checked) && Alive(start, start.attempts[attempt].entry, t) && DistinctIds(start.log)
    requires Unreferenced(start.attempts, |start.log|)
    ensures Breaks(start, es)
  {
    var s: State;
    es, s := ConfirmAlive(start, start.attempts[attempt].entry, t);
    es := CheckedOverConfirmed(start, es, s, attempt, t);
  }

  lemma {:induction false} WaitRounds(start: State, es: seq<Event>, s: State, n: nat) returns (more: seq<Event>, next: State)
    requires Run(start, es) == s && Guarded(start, es)
    ensures Run(start, more) == next && Guarded(start, more)
    ensures next == s.(round := s.round + n)
  {
    if n == 0 {
      more, next := es, s;
    } else {
      more, next := WaitRounds(start, es, s, n - 1);
      more, next := Then(more, next, NextRound, start);
    }
  }

  /** An attempt told "unknown" gets past its check, if it waits long enough for the round. */
  lemma PassRound(start: State, es: seq<Event>, s: State, attempt: nat) returns (more: seq<Event>, next: State)
    requires Run(start, es) == s && Guarded(start, es) && At(s, attempt, Asked)
    ensures Run(start, more) == next && Guarded(start, more)
    ensures next.log == s.log && At(next, attempt, Checked) && next.attempts[attempt].entry == s.attempts[attempt].entry
    ensures Unreferenced(s.attempts, |s.log|) ==> Unreferenced(next.attempts, |s.log|)
  {
    more, next := WaitRounds(start, es, s, s.attempts[attempt].lastValid + 1);
    more, next := Then(more, next, SeeRound(attempt, next.round), start);
  }

  /** So does a claimed one whose own previous transfer is not on the chain. */
  lemma PassCheck(start: State, es: seq<Event>, s: State, attempt: nat) returns (more: seq<Event>, next: State)
    requires Run(start, es) == s && Guarded(start, es) && At(s, attempt, Claimed)
    requires s.attempts[attempt].txId.Some? ==>
               s.attempts[attempt].txId.value < |s.log| && s.log[s.attempts[attempt].txId.value].fate != Confirmed
    ensures Run(start, more) == next && Guarded(start, more)
    ensures next.log == s.log && At(next, attempt, Checked) && next.attempts[attempt].entry == s.attempts[attempt].entry
    ensures Unreferenced(s.attempts, |s.log|) ==> Unreferenced(next.attempts, |s.log|)
  {
    more, next := Then(es, s, Ask(attempt, IsUnknown), start);
    if s.attempts[attempt].txId.Some? {
      more, next := PassRound(start, more, next, attempt);
    }
  }

  lemma SendPastCheck(start: State, before: seq<Event>, now: State, attempt: nat, t: nat) returns (es: seq<Event>)
    requires Run(start, before) == now && Guarded(start, before) && At(now, attempt, Claimed) && DistinctIds(now.log)
    requires Unreferenced(now.attempts, |now.log|)
    requires t < |now.log| && now.log[t].entry == now.attempts[attempt].entry && now.log[t].fate == Confirmed
    requires now.attempts[attempt].txId.Some? ==>
               now.attempts[attempt].txId.value < |now.log| && now.log[now.attempts[attempt].txId.value].fate != Confirmed
    ensures Breaks(start, es)
  {
    var s: State;
    es, s := PassCheck(start, before, now, attempt);
    es := CheckedOverConfirmed(start, es, s, attempt, t);
  }

  /** A claimed attempt that read another transfer than the living one stored in its row: a run confirms the row twice. */
  lemma StaleOverAlive(start: State, attempt: nat, t: nat) returns (es: seq<Event>)
    requires At(start, attempt, Claimed) && Alive(start, start.attempts[attempt].entry, t) && DistinctIds(start.log)
    requires Unreferenced(start.attempts, |start.log|)
    requires start.attempts[attempt].txId != Some(t)
    requires start.attempts[attempt].txId.Some? ==>
               start.attempts[attempt].txId.value < |start.log| && start.log[start.attempts[attempt].txId.value].fate != Confirmed
    ensures Breaks(start, es)
  {
    var s: State;
    es, s := ConfirmAlive(start, start.attempts[attempt].entry, t);
    es := SendPastCheck(start, es, s, attempt, t);
  }

  /** Ids in use are behind the end of the log, and nobody else waits for a round over the row of an attempt that owns it. */
  lemma OthersLeave(s: State, attempt: nat, t: nat)
    requires Inv(s) && attempt < |s.attempts| && t < |s.log| && s.log[t].entry == s.attempts[attempt].entry
    requires Owns(s.attempts[attempt]) || s.entries[s.attempts[attempt].entry].status != Sending
    ensures Unreferenced(s.attempts, |s.log|)
    ensures forall b :: 0 <= b < |s.attempts| && b != attempt && s.attempts[b].stage == Asked ==> s.attempts[b].txId != Some(t)
  {
  }

  /**
   * A claim that matches on the status keeps every later run to one confirmation for each row exactly when it is fresh, or
   * when the row's stored transfer can no longer reach the chain.
   */
  lemma ClaimSafeIff(s: State, attempt: nat)
    requires Inv(s) && AllAskedOk(s) && DistinctIds(s.log) && At(s, attempt, Read)
    requires s.entries[s.attempts[attempt].entry].status == s.attempts[attempt].status
    ensures SafeFrom(DoClaim(s, attempt)) <==> SafeClaim(s, Claim(attempt))
  {
    var a, r := s.attempts[attempt], DoClaim(s, attempt);
    assert AttemptOk(s, a) && EntryOk(s, a.entry);
    if SafeClaim(s, Claim(attempt)) {
      StepKeepsInv(s, Claim(attempt));
      AttemptKeepsAsked(s, Claim(attempt));
      InvIsSafe(r);
    } else {
      var t := s.entries[a.entry].txId.value;
      if a.txId.Some? {
        assert SignedOk(s, a.txId.value);
      }
      OthersLeave(s, attempt, t);
      var es := StaleOverAlive(r, attempt, t);
    }
  }

  /** An answer "unknown" keeps every later run to one confirmation for each row exactly when the row's stored transfer is not confirmed. */
  lemma UnknownSafeIff(s: State, attempt: nat)
    requires Inv(s) && AllAskedOk(s) && DistinctIds(s.log) && At(s, attempt, Claimed) && s.attempts[attempt].txId.Some?
    ensures SafeFrom(DoAsk(s, attempt, IsUnknown)) <==> !Delivered(s, s.entries[s.attempts[attempt].entry])
  {
    var a, r := s.attempts[attempt], DoAsk(s, attempt, IsUnknown);
    var e := s.entries[a.entry];
    assert AttemptOk(s, a) && EntryOk(s, a.entry);
    StepKeepsInv(s, Ask(attempt, IsUnknown));
    if !Delivered(s, e) {
      assert SignedOk(s, a.txId.value);
      AskKeepsAsked(s, attempt, IsUnknown);
      InvIsSafe(r);
    } else {
      OthersLeave(s, attempt, e.txId.value);
      var es, next := PassRound(r, [], r, attempt);
      es := CheckedOverConfirmed(r, es, next, attempt, e.txId.value);
    }
  }

  /**
   * An answer on the round that lets an attempt go on, true or not, does so exactly when the row's stored transfer can no
   * longer reach the chain.
   */
  lemma RoundSafeIff(s: State, attempt: nat, seen: nat)
    requires Inv(s) && DistinctIds(s.log) && At(s, attempt, Asked) && s.attempts[attempt].lastValid < seen
    requires forall b :: 0 <= b < |s.attempts| && b != attempt ==> AskedOk(s, s.attempts[b])
    ensures SafeFrom(DoSeeRound(s, attempt, seen)) <==> PreviousSpent(s, s.attempts[attempt].entry)
  {
    var a, r := s.attempts[attempt], DoSeeRound(s, attempt, seen);
    assert AttemptOk(s, a) && EntryOk(s, a.entry);
    if PreviousSpent(s, a.entry) {
      StepKeepsInv(s, SeeRound(attempt, seen));
      AttemptKeepsAsked(s, SeeRound(attempt, seen));
      InvIsSafe(r);
    } else {
      OthersLeave(s, attempt, s.entries[a.entry].txId.value);
      var es := CheckedOverAlive(r, attempt, s.entries[a.entry].txId.value);
    }
  }
}
