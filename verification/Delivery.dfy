/**
 * The outbox sender as a protocol: any number of attempts, each a chain of database and network calls that may crash,
 * interleaved with each other and with the chain.
 */
module Delivery {
  import opened Wrappers
  import opened Sums
  import opened Ledger
  import opened OutboxRows

  datatype Status = Queued | Sending | Failed | Blocked | Sent

  /** An outbox row with its delivery columns. `lastValid` belongs to `txId`. */
  datatype Entry = Entry(row: Row, status: Status, txId: Option<nat>, lastValid: nat, tries: nat)

  /** How far a signed transfer got. What stands for its id is its position in the log. */
  datatype Fate = Built | Broadcast | Confirmed

  datatype Signed = Signed(entry: nat, lastValid: nat, fate: Fate)

  /** Where an attempt on an entry stands. The columns in front are what it read at the start. */
  datatype Stage = Read | Claimed | Asked | Checked | Prepared(tx: nat) | Stored(tx: nat) | Acknowledged | Done

  datatype Attempt = Attempt(entry: nat, status: Status, txId: Option<nat>, lastValid: nat, stage: Stage)

  datatype State = State(entries: seq<Entry>, attempts: seq<Attempt>, log: seq<Signed>, round: nat)

  datatype Answer = IsConfirmed | IsPending | IsUnknown

  datatype Event =
    | Append(row: Row)                                // a scan committed a new outbox row
    | Begin(entry: nat)                               // the row is read
    | Claim(attempt: nat)                             // compare-and-set on the status
    | Ask(attempt: nat, answer: Answer)               // the status of the stored transfer, if there is one
    | SeeRound(attempt: nat, seen: nat)               // and after that, in a call of its own, the round
    | Refuse(attempt: nat, status: Status)            // no funds (blocked), bad destination, no signer, any other throw
    | Prepare(attempt: nat, lastValid: nat)           // sign; the id is known
    | Store(attempt: nat)                             // persist id and last valid round
    | Send(attempt: nat, reaches: bool)               // submit to a node
    | Acknowledge(attempt: nat, ok: bool)             // wait for confirmation: returns, or throws
    | MarkSent(attempt: nat)
    | Crash(attempt: nat)
    | Confirm(tx: nat)                                // the chain takes a broadcast transfer
    | NextRound

  predicate Retryable(status: Status) { status == Queued || status == Failed || status == Blocked }

  predicate At(s: State, attempt: nat, stage: Stage)
  {
    && attempt < |s.attempts| && s.attempts[attempt].stage == stage
    && s.attempts[attempt].entry < |s.entries|
  }

  function Advance(s: State, attempt: nat, stage: Stage): State
    requires attempt < |s.attempts|
  {
    s.(attempts := s.attempts[attempt := s.attempts[attempt].(stage := stage)])
  }

  function SetEntry(s: State, i: nat, e: Entry): State
    requires i < |s.entries|
  {
    s.(entries := s.entries[i := e])
  }

  /** Writes the outcome of an attempt to its row and ends the attempt. */
  function Finish(s: State, attempt: nat, status: Status): State
    requires attempt < |s.attempts| && s.attempts[attempt].entry < |s.entries|
  {
    var i := s.attempts[attempt].entry;
    Advance(SetEntry(s, i, s.entries[i].(status := status)), attempt, Done)
  }

  function DoBegin(s: State, i: nat): State
  {
    if i < |s.entries| && Retryable(s.entries[i].status) then
      var e := s.entries[i];
      s.(attempts := s.attempts + [Attempt(i, e.status, e.txId, e.lastValid, Read)])
    else s
  }

  function DoClaim(s: State, attempt: nat): State
  {
    if !At(s, attempt, Read) then s
    else
      var a := s.attempts[attempt];
      var e := s.entries[a.entry];
      if e.status == a.status
      then Advance(SetEntry(s, a.entry, e.(status := Sending, tries := e.tries + 1)), attempt, Claimed)
      else Advance(s, attempt, Done)
  }

  function DoAsk(s: State, attempt: nat, answer: Answer): State
  {
    if !At(s, attempt, Claimed) then s
    else if s.attempts[attempt].txId.None? then Advance(s, attempt, Checked)
    else
      match answer
      case IsConfirmed => Finish(s, attempt, Sent)
      case IsPending => Finish(s, attempt, Failed)
      case IsUnknown => Advance(s, attempt, Asked)
  }

  function DoSeeRound(s: State, attempt: nat, seen: nat): State
  {
    if !At(s, attempt, Asked) then s
    else if seen <= s.attempts[attempt].lastValid then Finish(s, attempt, Failed)
    else Advance(s, attempt, Checked)
  }

  /** Any throw before the id is stored; only a checked attempt finds its sender short of funds. */
  function DoRefuse(s: State, attempt: nat, status: Status): State
  {
    if attempt < |s.attempts| && s.attempts[attempt].entry < |s.entries|
       && BeforeStore(s.attempts[attempt].stage)
       && (status == Failed || (status == Blocked && s.attempts[attempt].stage == Checked))
    then Finish(s, attempt, status)
    else s
  }

  predicate BeforeStore(stage: Stage) { stage == Claimed || stage == Asked || stage == Checked || stage.Prepared? }

  function DoPrepare(s: State, attempt: nat, lastValid: nat): State
  {
    if At(s, attempt, Checked)
    then Advance(s.(log := s.log + [Signed(s.attempts[attempt].entry, lastValid, Built)]), attempt, Prepared(|s.log|))
    else s
  }

  function DoStore(s: State, attempt: nat): State
  {
    if attempt < |s.attempts| && s.attempts[attempt].entry < |s.entries|
       && s.attempts[attempt].stage.Prepared? && s.attempts[attempt].stage.tx < |s.log|
    then
      var i, tx := s.attempts[attempt].entry, s.attempts[attempt].stage.tx;
      Advance(SetEntry(s, i, s.entries[i].(txId := Some(tx), lastValid := s.log[tx].lastValid)), attempt, Stored(tx))
    else s
  }

  predicate InStored(s: State, attempt: nat)
  {
    && attempt < |s.attempts| && s.attempts[attempt].entry < |s.entries|
    && s.attempts[attempt].stage.Stored? && s.attempts[attempt].stage.tx < |s.log|
  }

  function SetFate(s: State, tx: nat, fate: Fate): State
    requires tx < |s.log|
  {
    s.(log := s.log[tx := s.log[tx].(fate := fate)])
  }

  function DoSend(s: State, attempt: nat, reaches: bool): State
  {
    if InStored(s, attempt) && s.log[s.attempts[attempt].stage.tx].fate == Built && reaches
    then SetFate(s, s.attempts[attempt].stage.tx, Broadcast)
    else s
  }

  /** Waiting returns only for a confirmed transfer; anything else, a lost submission included, throws. */
  function DoAcknowledge(s: State, attempt: nat, ok: bool): State
  {
    if !InStored(s, attempt) then s
    else if !ok then Finish(s, attempt, Failed)
    else if s.log[s.attempts[attempt].stage.tx].fate == Confirmed then Advance(s, attempt, Acknowledged)
    else s
  }

  function DoMarkSent(s: State, attempt: nat): State
  {
    if At(s, attempt, Acknowledged) then Finish(s, attempt, Sent) else s
  }

  function DoConfirm(s: State, tx: nat): State
  {
    if tx < |s.log| && s.log[tx].fate == Broadcast && s.round <= s.log[tx].lastValid
    then SetFate(s, tx, Confirmed)
    else s
  }

  function Step(s: State, e: Event): State
  {
    match e
    case Append(row) => s.(entries := s.entries + [Entry(row, Queued, None, 0, 0)])
    case Begin(entry) => DoBegin(s, entry)
    case Claim(attempt) => DoClaim(s, attempt)
    case Ask(attempt, answer) => DoAsk(s, attempt, answer)
    case SeeRound(attempt, seen) => DoSeeRound(s, attempt, seen)
    case Refuse(attempt, status) => DoRefuse(s, attempt, status)
    case Prepare(attempt, lastValid) => DoPrepare(s, attempt, lastValid)
    case Store(attempt) => DoStore(s, attempt)
    case Send(attempt, reaches) => DoSend(s, attempt, reaches)
    case Acknowledge(attempt, ok) => DoAcknowledge(s, attempt, ok)
    case MarkSent(attempt) => DoMarkSent(s, attempt)
    case Crash(attempt) => if attempt < |s.attempts| then Advance(s, attempt, Done) else s
    case Confirm(tx) => DoConfirm(s, tx)
    case NextRound => s.(round := s.round + 1)
  }

  const INITIAL := State([], [], [], 0)

  function Run(s: State, es: seq<Event>): State
  {
    if es == [] then s else Step(Run(s, es[..|es| - 1]), es[|es| - 1])
  }

  // ---------- what the safety argument rests on ----------

  /** The claim still describes the row: nobody replaced the stored transfer between reading and claiming. */
  predicate FreshClaim(s: State, e: Event)
  {
    e.Claim? && At(s, e.attempt, Read) && s.entries[s.attempts[e.attempt].entry].status == s.attempts[e.attempt].status
    ==> s.attempts[e.attempt].txId == s.entries[s.attempts[e.attempt].entry].txId
  }

  /** A transfer is reported as confirmed exactly when it is, and no round is reported before it has come. */
  predicate TrueAnswer(s: State, e: Event)
  {
    match e
    case Ask(attempt, answer) =>
      At(s, attempt, Claimed) && s.attempts[attempt].txId.Some? && s.attempts[attempt].txId.value < |s.log|
      ==> (answer == IsConfirmed <==> s.log[s.attempts[attempt].txId.value].fate == Confirmed)
    case SeeRound(_, seen) => seen <= s.round
    case _ => true
  }

  /** The chain takes no transfer between the answer on its status and the answer on the round. */
  predicate Quiet(s: State, e: Event)
  {
    e.Confirm? && DoConfirm(s, e.tx) != s ==> forall a <- s.attempts :: a.stage == Asked ==> a.txId != Some(e.tx)
  }

  /** What safety needs of a claim: it is fresh, or the stored transfer can no longer reach the chain. */
  predicate SafeClaim(s: State, e: Event)
  {
    e.Claim? && At(s, e.attempt, Read) && s.entries[s.attempts[e.attempt].entry].status == s.attempts[e.attempt].status
    ==> s.attempts[e.attempt].txId == s.entries[s.attempts[e.attempt].entry].txId || PreviousSpent(s, s.attempts[e.attempt].entry)
  }

  /** And of the answers: a transfer reported as confirmed is, and none is signed while the stored one can still reach the chain. */
  predicate SafeAnswer(s: State, e: Event)
  {
    match e
    case Ask(attempt, answer) =>
      At(s, attempt, Claimed) && s.attempts[attempt].txId.Some? && s.attempts[attempt].txId.value < |s.log| && answer == IsConfirmed
      ==> s.log[s.attempts[attempt].txId.value].fate == Confirmed
    case SeeRound(attempt, seen) =>
      At(s, attempt, Asked) && s.attempts[attempt].lastValid < seen ==> PreviousSpent(s, s.attempts[attempt].entry)
    case _ => true
  }

  ghost predicate SafeRun(s: State, es: seq<Event>)
  {
    es == [] || (SafeRun(s, es[..|es| - 1]) && SafeClaim(Run(s, es[..|es| - 1]), es[|es| - 1])
                 && SafeAnswer(Run(s, es[..|es| - 1]), es[|es| - 1]))
  }

  ghost predicate FreshClaims(s: State, es: seq<Event>)
  {
    es == [] || (FreshClaims(s, es[..|es| - 1]) && FreshClaim(Run(s, es[..|es| - 1]), es[|es| - 1]))
  }

  ghost predicate TrueAnswers(s: State, es: seq<Event>)
  {
    es == [] || (TrueAnswers(s, es[..|es| - 1]) && TrueAnswer(Run(s, es[..|es| - 1]), es[|es| - 1]))
  }

  ghost predicate QuietRun(s: State, es: seq<Event>)
  {
    es == [] || (QuietRun(s, es[..|es| - 1]) && Quiet(Run(s, es[..|es| - 1]), es[|es| - 1]))
  }

  predicate Owns(a: Attempt)
  {
    a.stage == Claimed || a.stage == Asked || a.stage == Checked || a.stage.Prepared? || a.stage.Stored? || a.stage == Acknowledged
  }

  /** Transfer tx can no longer reach the chain: it was never broadcast, or its last valid round has passed. */
  predicate Spent(s: State, tx: nat)
    requires tx < |s.log|
  {
    s.log[tx].fate == Built || (s.log[tx].fate == Broadcast && s.log[tx].lastValid < s.round)
  }

  predicate AttemptOk(s: State, a: Attempt)
  {
    && a.entry < |s.entries|
    && (a.stage == Read ==> Retryable(a.status))
    && (Owns(a) ==> s.entries[a.entry].status == Sending)
    && (a.txId.Some? ==> a.txId.value < |s.log| && s.log[a.txId.value].lastValid == a.lastValid)
    && (a.txId.Some? ==> s.log[a.txId.value].entry == a.entry)
    && (a.stage == Claimed ==> a.txId == s.entries[a.entry].txId || PreviousSpent(s, a.entry))
    && (a.stage == Checked || a.stage.Prepared? ==> PreviousSpent(s, a.entry))
    && (a.stage.Prepared? ==> a.stage.tx < |s.log| && s.log[a.stage.tx] == Signed(a.entry, s.log[a.stage.tx].lastValid, Built)
                              && s.entries[a.entry].txId != Some(a.stage.tx))
    && (a.stage.Stored? ==> s.entries[a.entry].txId == Some(a.stage.tx))
    && (a.stage == Acknowledged ==> Delivered(s, s.entries[a.entry]))
  }

  predicate PreviousSpent(s: State, i: nat)
    requires i < |s.entries|
  {
    s.entries[i].txId.Some? ==> s.entries[i].txId.value < |s.log| && Spent(s, s.entries[i].txId.value)
  }

  predicate EntryOk(s: State, i: nat)
    requires i < |s.entries|
  {
    var e := s.entries[i];
    && (e.txId.Some? ==> e.txId.value < |s.log| && s.log[e.txId.value].entry == i && s.log[e.txId.value].lastValid == e.lastValid)
    && (e.status == Sent ==> Delivered(s, e))
  }

  predicate Delivered(s: State, e: Entry)
  {
    e.txId.Some? && e.txId.value < |s.log| && s.log[e.txId.value].fate == Confirmed
  }

  /** Only the stored transfer of its row can be confirmed or still reach the chain. */
  predicate SignedOk(s: State, tx: nat)
    requires tx < |s.log|
  {
    && s.log[tx].entry < |s.entries|
    && (s.entries[s.log[tx].entry].txId == Some(tx) || Spent(s, tx))
  }

  ghost predicate AttemptsOk(s: State)
  {
    forall a :: 0 <= a < |s.attempts| ==> AttemptOk(s, s.attempts[a])
  }

  ghost predicate OneOwner(s: State)
  {
    forall a, b :: 0 <= a < b < |s.attempts| && Owns(s.attempts[a]) && Owns(s.attempts[b])
      ==> s.attempts[a].entry != s.attempts[b].entry
  }

  ghost predicate EntriesOk(s: State)
  {
    forall i :: 0 <= i < |s.entries| ==> EntryOk(s, i)
  }

  ghost predicate LogOk(s: State)
  {
    forall tx :: 0 <= tx < |s.log| ==> SignedOk(s, tx)
  }

  ghost predicate Inv(s: State)
  {
    AttemptsOk(s) && OneOwner(s) && EntriesOk(s) && LogOk(s)
  }

  /** One attempt moves on, with or without writing to its row. */
  ghost predicate OneMove(s: State, r: State, k: nat)
    requires k < |s.attempts| && s.attempts[k].entry < |s.entries|
  {
    var a, i := s.attempts[k], s.attempts[k].entry;
    && r.log == s.log && r.round == s.round
    && |r.attempts| == |s.attempts| && r.attempts == s.attempts[k := a.(stage := r.attempts[k].stage)]
    && |r.entries| == |s.entries| && r.entries == s.entries[i := r.entries[i]]
    && (r != s ==> Owns(a) || !Owns(r.attempts[k]) || s.entries[i].status != Sending)
    && (r.entries[i] != s.entries[i] ==> Owns(a) || s.entries[i].status != Sending)
    && (r.entries[i].txId != s.entries[i].txId ==> PreviousSpent(s, i))
  }

  lemma OthersNotOwners(s: State, k: nat, b: nat)
    requires Inv(s) && k < |s.attempts| && b < |s.attempts| && b != k && s.attempts[k].entry < |s.entries|
    requires Owns(s.attempts[k]) || s.entries[s.attempts[k].entry].status != Sending
    requires s.attempts[b].entry == s.attempts[k].entry
    ensures !Owns(s.attempts[b])
  {
  }

  lemma OneMoveKeepsInv(s: State, r: State, k: nat)
    requires Inv(s) && k < |s.attempts| && s.attempts[k].entry < |s.entries| && OneMove(s, r, k)
    requires AttemptOk(r, r.attempts[k]) && EntryOk(r, s.attempts[k].entry)
    ensures Inv(r)
  {
    var i := s.attempts[k].entry;
    if Owns(s.attempts[k]) || s.entries[i].status != Sending {
      forall b | 0 <= b < |s.attempts| && b != k && s.attempts[b].entry == i
        ensures !Owns(s.attempts[b])
      {
        OthersNotOwners(s, k, b);
      }
    }
    forall b | 0 <= b < |r.attempts|
      ensures AttemptOk(r, r.attempts[b])
    {
      assert AttemptOk(s, s.attempts[b]);
    }
    assert OneOwner(r);
    forall j | 0 <= j < |r.entries|
      ensures EntryOk(r, j)
    {
      assert EntryOk(s, j);
    }
    forall tx | 0 <= tx < |r.log|
      ensures SignedOk(r, tx)
    {
      assert SignedOk(s, tx);
    }
  }

  lemma ClaimKeepsInv(s: State, attempt: nat)
    requires Inv(s) && SafeClaim(s, Claim(attempt))
    ensures Inv(DoClaim(s, attempt))
  {
    if At(s, attempt, Read) {
      assert AttemptOk(s, s.attempts[attempt]) && EntryOk(s, s.attempts[attempt].entry);
      OneMoveKeepsInv(s, DoClaim(s, attempt), attempt);
    }
  }

  lemma AskKeepsInv(s: State, attempt: nat, answer: Answer)
    requires Inv(s) && SafeAnswer(s, Ask(attempt, answer))
    ensures Inv(DoAsk(s, attempt, answer))
  {
    if At(s, attempt, Claimed) {
      var i := s.attempts[attempt].entry;
      assert AttemptOk(s, s.attempts[attempt]) && EntryOk(s, i);
      if s.attempts[attempt].txId.Some? {
        assert SignedOk(s, s.attempts[attempt].txId.value);
      }
      OneMoveKeepsInv(s, DoAsk(s, attempt, answer), attempt);
    }
  }

  lemma SeeRoundKeepsInv(s: State, attempt: nat, seen: nat)
    requires Inv(s) && SafeAnswer(s, SeeRound(attempt, seen))
    ensures Inv(DoSeeRound(s, attempt, seen))
  {
    if At(s, attempt, Asked) {
      assert AttemptOk(s, s.attempts[attempt]) && EntryOk(s, s.attempts[attempt].entry);
      OneMoveKeepsInv(s, DoSeeRound(s, attempt, seen), attempt);
    }
  }

  lemma FinishKeepsInv(s: State, attempt: nat, status: Status)
    requires Inv(s) && attempt < |s.attempts| && s.attempts[attempt].entry < |s.entries|
    requires Owns(s.attempts[attempt])
    requires status == Failed || status == Blocked || (status == Sent && s.attempts[attempt].stage == Acknowledged)
    ensures Inv(Finish(s, attempt, status))
  {
    assert AttemptOk(s, s.attempts[attempt]) && EntryOk(s, s.attempts[attempt].entry);
    OneMoveKeepsInv(s, Finish(s, attempt, status), attempt);
  }

  lemma StoreKeepsInv(s: State, attempt: nat)
    requires Inv(s)
    ensures Inv(DoStore(s, attempt))
  {
    if DoStore(s, attempt) != s {
      assert AttemptOk(s, s.attempts[attempt]);
      OneMoveKeepsInv(s, DoStore(s, attempt), attempt);
    }
  }

  lemma AcknowledgeKeepsInv(s: State, attempt: nat, ok: bool)
    requires Inv(s)
    ensures Inv(DoAcknowledge(s, attempt, ok))
  {
    if InStored(s, attempt) {
      assert AttemptOk(s, s.attempts[attempt]) && EntryOk(s, s.attempts[attempt].entry);
      if !ok {
        FinishKeepsInv(s, attempt, Failed);
      } else {
        OneMoveKeepsInv(s, DoAcknowledge(s, attempt, ok), attempt);
      }
    }
  }

  lemma CrashKeepsInv(s: State, attempt: nat)
    requires Inv(s) && attempt < |s.attempts|
    ensures Inv(Advance(s, attempt, Done))
  {
    assert AttemptOk(s, s.attempts[attempt]) && EntryOk(s, s.attempts[attempt].entry);
    OneMoveKeepsInv(s, Advance(s, attempt, Done), attempt);
  }

  lemma PrepareKeepsInv(s: State, attempt: nat, lastValid: nat)
    requires Inv(s) && At(s, attempt, Checked)
    ensures Inv(DoPrepare(s, attempt, lastValid))
  {
    var r := DoPrepare(s, attempt, lastValid);
    assert AttemptOk(s, s.attempts[attempt]);
    forall b | 0 <= b < |r.attempts|
      ensures AttemptOk(r, r.attempts[b])
    {
      assert AttemptOk(s, s.attempts[b]) && EntryOk(s, s.attempts[b].entry);
    }
    forall i | 0 <= i < |r.entries|
      ensures EntryOk(r, i)
    {
      assert EntryOk(s, i);
    }
    forall tx | 0 <= tx < |r.log|
      ensures SignedOk(r, tx)
    {
      assert tx < |s.log| ==> SignedOk(s, tx);
    }
  }

  /** A transfer's fate moves forward only while it is the stored transfer of its row. */
  lemma FateKeepsInv(s: State, tx: nat, fate: Fate)
    requires Inv(s) && tx < |s.log| && s.log[tx].entry < |s.entries| && s.entries[s.log[tx].entry].txId == Some(tx)
    requires (s.log[tx].fate == Built && fate == Broadcast) || (s.log[tx].fate == Broadcast && fate == Confirmed)
    requires forall a :: 0 <= a < |s.attempts| && s.attempts[a].entry == s.log[tx].entry
               ==> s.attempts[a].stage != Checked && !s.attempts[a].stage.Prepared?
                   && (s.attempts[a].stage == Claimed ==> s.attempts[a].txId == Some(tx))
    ensures Inv(SetFate(s, tx, fate))
  {
    var r := SetFate(s, tx, fate);
    forall b | 0 <= b < |r.attempts|
      ensures AttemptOk(r, r.attempts[b])
    {
      assert AttemptOk(s, s.attempts[b]) && EntryOk(s, s.attempts[b].entry);
    }
    forall i | 0 <= i < |r.entries|
      ensures EntryOk(r, i)
    {
      assert EntryOk(s, i);
    }
    forall t | 0 <= t < |r.log|
      ensures SignedOk(r, t)
    {
      assert SignedOk(s, t);
    }
  }

  lemma SendKeepsInv(s: State, attempt: nat, reaches: bool)
    requires Inv(s)
    ensures Inv(DoSend(s, attempt, reaches))
  {
    if DoSend(s, attempt, reaches) != s {
      var a := s.attempts[attempt];
      assert AttemptOk(s, a) && EntryOk(s, a.entry);
      forall b | 0 <= b < |s.attempts| && s.attempts[b].entry == a.entry
        ensures s.attempts[b].stage != Checked && !s.attempts[b].stage.Prepared? && s.attempts[b].stage != Claimed
      {
        if b != attempt {
          OthersNotOwners(s, attempt, b);
        }
      }
      FateKeepsInv(s, a.stage.tx, Broadcast);
    }
  }

  lemma ConfirmKeepsInv(s: State, tx: nat)
    requires Inv(s)
    ensures Inv(DoConfirm(s, tx))
  {
    if DoConfirm(s, tx) != s {
      assert SignedOk(s, tx);
      forall b | 0 <= b < |s.attempts| && s.attempts[b].entry == s.log[tx].entry
        ensures s.attempts[b].stage != Checked && !s.attempts[b].stage.Prepared?
        ensures s.attempts[b].stage == Claimed ==> s.attempts[b].txId == Some(tx)
      {
        assert AttemptOk(s, s.attempts[b]);
      }
      FateKeepsInv(s, tx, Confirmed);
    }
  }

  lemma GrowKeepsInv(s: State, e: Event)
    requires Inv(s) && (e.Append? || e.Begin? || e.NextRound?)
    ensures Inv(Step(s, e))
  {
    var r := Step(s, e);
    forall b | 0 <= b < |r.attempts|
      ensures AttemptOk(r, r.attempts[b])
    {
      if b < |s.attempts| {
        assert AttemptOk(s, s.attempts[b]);
      } else {
        assert EntryOk(s, e.entry);
      }
    }
    forall i | 0 <= i < |r.entries|
      ensures EntryOk(r, i)
    {
      assert i < |s.entries| ==> EntryOk(s, i);
    }
    forall tx | 0 <= tx < |r.log|
      ensures SignedOk(r, tx)
    {
      assert SignedOk(s, tx);
    }
  }

  lemma StepKeepsInv(s: State, e: Event)
    requires Inv(s) && SafeClaim(s, e) && SafeAnswer(s, e)
    ensures Inv(Step(s, e))
  {
    match e
    case Append(_) => GrowKeepsInv(s, e);
    case Begin(_) => GrowKeepsInv(s, e);
    case NextRound => GrowKeepsInv(s, e);
    case Claim(attempt) => ClaimKeepsInv(s, attempt);
    case Ask(attempt, answer) => AskKeepsInv(s, attempt, answer);
    case SeeRound(attempt, seen) => SeeRoundKeepsInv(s, attempt, seen);
    case Refuse(attempt, status) =>
      if DoRefuse(s, attempt, status) != s {
        FinishKeepsInv(s, attempt, status);
      }
    case Prepare(attempt, lastValid) =>
      if At(s, attempt, Checked) {
        PrepareKeepsInv(s, attempt, lastValid);
      }
    case Store(attempt) => StoreKeepsInv(s, attempt);
    case Send(attempt, reaches) => SendKeepsInv(s, attempt, reaches);
    case Acknowledge(attempt, ok) => AcknowledgeKeepsInv(s, attempt, ok);
    case MarkSent(attempt) =>
      if At(s, attempt, Acknowledged) {
        FinishKeepsInv(s, attempt, Sent);
      }
    case Crash(attempt) =>
      if attempt < |s.attempts| {
        CrashKeepsInv(s, attempt);
      }
    case Confirm(tx) => ConfirmKeepsInv(s, tx);
  }

  lemma {:induction false} RunKeepsInv(s: State, es: seq<Event>)
    requires Inv(s) && SafeRun(s, es)
    ensures Inv(Run(s, es))
  {
    if es == [] {
    } else {
      RunKeepsInv(s, es[..|es| - 1]);
      StepKeepsInv(Run(s, es[..|es| - 1]), es[|es| - 1]);
    }
  }

  // ---------- at most once ----------

  function ConfirmedOf(i: nat): Signed -> int
  {
    (x: Signed) => if x.entry == i && x.fate == Confirmed then 1 else 0
  }

  lemma ConfirmedOnce(s: State, i: nat)
    requires Inv(s)
    ensures Total(ConfirmedOf(i), s.log) <= 1
    ensures i < |s.entries| && s.entries[i].status == Sent ==> Total(ConfirmedOf(i), s.log) == 1
  {
    forall x, y | 0 <= x < |s.log| && 0 <= y < |s.log| && ConfirmedOf(i)(s.log[x]) == 1 && ConfirmedOf(i)(s.log[y]) == 1
      ensures x == y
    {
      assert SignedOk(s, x) && SignedOk(s, y);
    }
    TotalAtMostOne(ConfirmedOf(i), s.log);
    if i < |s.entries| && s.entries[i].status == Sent {
      assert EntryOk(s, i);
      assert ConfirmedOf(i)(s.log[s.entries[i].txId.value]) == 1;
    }
  }

  /** However attempts fail, time out, crash and retry, a row reaches the chain at most once, and a sent row exactly once. */
  lemma AtMostOnce(es: seq<Event>, i: nat)
    requires SafeRun(INITIAL, es)
    ensures Total(ConfirmedOf(i), Run(INITIAL, es).log) <= 1
    ensures i < |Run(INITIAL, es).entries| && Run(INITIAL, es).entries[i].status == Sent
            ==> Total(ConfirmedOf(i), Run(INITIAL, es).log) == 1
  {
    RunKeepsInv(INITIAL, es);
    ConfirmedOnce(Run(INITIAL, es), i);
  }

  // ---------- which runs are safe ----------

  /** Between its two answers: the row's stored transfer is the one asked about, and not confirmed, or can no longer reach the chain. */
  predicate AskedOk(s: State, a: Attempt)
  {
    a.stage == Asked && a.entry < |s.entries| ==>
      PreviousSpent(s, a.entry)
      || (a.txId == s.entries[a.entry].txId && a.txId.Some? && a.txId.value < |s.log| && s.log[a.txId.value].fate != Confirmed)
  }

  ghost predicate AllAskedOk(s: State)
  {
    forall a :: 0 <= a < |s.attempts| ==> AskedOk(s, s.attempts[a])
  }

  lemma AskKeepsAsked(s: State, attempt: nat, answer: Answer)
    requires Inv(s) && AllAskedOk(s) && TrueAnswer(s, Ask(attempt, answer))
    ensures AllAskedOk(DoAsk(s, attempt, answer))
  {
  }

  /** What an attempt writes to its row touches no other attempt between its answers: that one would own the row too. */
  lemma MoveKeepsAsked(s: State, r: State, k: nat)
    requires Inv(s) && AllAskedOk(s) && k < |s.attempts| && s.attempts[k].entry < |s.entries| && OneMove(s, r, k)
    requires r.attempts[k].stage != Asked
    ensures AllAskedOk(r)
  {
  }

  predicate StoredIn(s: State, tx: nat, i: nat) { i < |s.entries| && s.entries[i].txId == Some(tx) }

  lemma FateKeepsAsked(s: State, tx: nat, fate: Fate)
    requires Inv(s) && AllAskedOk(s) && tx < |s.log|
    requires forall b :: 0 <= b < |s.attempts| && s.attempts[b].stage == Asked && s.attempts[b].txId == Some(tx) ==> fate != Confirmed
    requires forall b :: 0 <= b < |s.attempts| && s.attempts[b].stage == Asked && StoredIn(s, tx, s.attempts[b].entry)
               ==> !Spent(s, tx)
    ensures AllAskedOk(SetFate(s, tx, fate))
  {
  }

  lemma SendKeepsAsked(s: State, attempt: nat, reaches: bool)
    requires Inv(s) && AllAskedOk(s)
    ensures AllAskedOk(DoSend(s, attempt, reaches))
  {
    if DoSend(s, attempt, reaches) != s {
      var a := s.attempts[attempt];
      assert AttemptOk(s, a) && EntryOk(s, a.entry);
      forall b | 0 <= b < |s.attempts| && s.attempts[b].stage == Asked
        ensures s.attempts[b].entry < |s.entries| && s.entries[s.attempts[b].entry].txId != Some(a.stage.tx)
      {
        assert AttemptOk(s, s.attempts[b]) && EntryOk(s, s.attempts[b].entry);
        if s.attempts[b].entry == a.entry {
          OthersNotOwners(s, attempt, b);
        }
      }
      FateKeepsAsked(s, a.stage.tx, Broadcast);
    }
  }

  lemma ConfirmKeepsAsked(s: State, tx: nat)
    requires Inv(s) && AllAskedOk(s) && Quiet(s, Confirm(tx))
    ensures AllAskedOk(DoConfirm(s, tx))
  {
  }

  lemma GrowKeepsAsked(s: State, e: Event)
    requires Inv(s) && AllAskedOk(s) && (e.Append? || e.Begin? || e.NextRound? || e.Prepare?)
    ensures AllAskedOk(Step(s, e))
  {
  }

  lemma AttemptKeepsAsked(s: State, e: Event)
    requires Inv(s) && AllAskedOk(s)
    requires e.Claim? || e.SeeRound? || e.Refuse? || e.Store? || e.Acknowledge? || e.MarkSent? || e.Crash?
    ensures AllAskedOk(Step(s, e))
  {
    if Step(s, e) != s {
      assert AttemptOk(s, s.attempts[e.attempt]);
      MoveKeepsAsked(s, Step(s, e), e.attempt);
    }
  }

  /** Fresh claims, true answers and a quiet chain between the two answers make a step safe. */
  lemma GuardedStepIsSafe(s: State, e: Event)
    requires Inv(s) && AllAskedOk(s) && FreshClaim(s, e) && TrueAnswer(s, e) && Quiet(s, e)
    ensures SafeClaim(s, e) && SafeAnswer(s, e) && AllAskedOk(Step(s, e))
  {
    match e
    case Ask(attempt, answer) => AskKeepsAsked(s, attempt, answer);
    case Send(attempt, reaches) => SendKeepsAsked(s, attempt, reaches);
    case Confirm(tx) => ConfirmKeepsAsked(s, tx);
    case SeeRound(attempt, seen) =>
      AttemptKeepsAsked(s, e);
      RoundIsSafe(s, attempt, seen);
    case Append(_) => GrowKeepsAsked(s, e);
    case Begin(_) => GrowKeepsAsked(s, e);
    case NextRound => GrowKeepsAsked(s, e);
    case Prepare(_, _) => GrowKeepsAsked(s, e);
    case _ => AttemptKeepsAsked(s, e);
  }

  lemma RoundIsSafe(s: State, attempt: nat, seen: nat)
    requires Inv(s) && AllAskedOk(s) && seen <= s.round
    ensures SafeAnswer(s, SeeRound(attempt, seen))
  {
  }

  ghost predicate Guarded(s: State, es: seq<Event>)
  {
    FreshClaims(s, es) && TrueAnswers(s, es) && QuietRun(s, es)
  }

  /** And so every run of them. */
  lemma {:induction false} GuardedRunsAreSafe(s: State, es: seq<Event>)
    requires Inv(s) && AllAskedOk(s) && Guarded(s, es)
    ensures SafeRun(s, es) && Inv(Run(s, es)) && AllAskedOk(Run(s, es))
  {
    if es == [] {
    } else {
      GuardedRunsAreSafe(s, es[..|es| - 1]);
      GuardedStepIsSafe(Run(s, es[..|es| - 1]), es[|es| - 1]);
      StepKeepsInv(Run(s, es[..|es| - 1]), es[|es| - 1]);
    }
  }

  // ---------- asking late ----------

  /** The status of a transfer is asked for only after its last valid round. */
  predicate LateAsk(s: State, e: Event)
  {
    e.Ask? && e.answer == IsUnknown && At(s, e.attempt, Claimed) && s.attempts[e.attempt].txId.Some?
    ==> s.attempts[e.attempt].lastValid < s.round
  }

  ghost predicate LateAsks(s: State, es: seq<Event>)
  {
    es == [] || (LateAsks(s, es[..|es| - 1]) && LateAsk(Run(s, es[..|es| - 1]), es[|es| - 1]))
  }

  predicate AskedSpent(s: State, a: Attempt)
  {
    a.stage == Asked && a.entry < |s.entries| ==> PreviousSpent(s, a.entry)
  }

  ghost predicate AllAskedSpent(s: State)
  {
    forall a :: 0 <= a < |s.attempts| ==> AskedSpent(s, s.attempts[a])
  }

  lemma MoveKeepsSpent(s: State, r: State, k: nat)
    requires Inv(s) && AllAskedSpent(s) && k < |s.attempts| && s.attempts[k].entry < |s.entries| && OneMove(s, r, k)
    requires AskedSpent(r, r.attempts[k])
    ensures AllAskedSpent(r)
  {
  }

  lemma AskKeepsSpent(s: State, attempt: nat, answer: Answer)
    requires Inv(s) && AllAskedSpent(s) && TrueAnswer(s, Ask(attempt, answer)) && LateAsk(s, Ask(attempt, answer))
    ensures AllAskedSpent(DoAsk(s, attempt, answer))
  {
  }

  lemma SendKeepsSpent(s: State, attempt: nat, reaches: bool)
    requires Inv(s) && AllAskedSpent(s)
    ensures AllAskedSpent(DoSend(s, attempt, reaches))
  {
    if DoSend(s, attempt, reaches) != s {
      var r := DoSend(s, attempt, reaches);
      assert AttemptOk(s, s.attempts[attempt]) && EntryOk(s, s.attempts[attempt].entry);
      forall b | 0 <= b < |r.attempts|
        ensures AskedSpent(r, r.attempts[b])
      {
        assert AskedSpent(s, s.attempts[b]) && AttemptOk(s, s.attempts[b]) && EntryOk(s, s.attempts[b].entry);
      }
    }
  }

  lemma OtherKeepsSpent(s: State, e: Event)
    requires Inv(s) && AllAskedSpent(s) && (e.Append? || e.Begin? || e.NextRound? || e.Prepare? || e.Confirm?)
    ensures AllAskedSpent(Step(s, e))
  {
  }

  lemma LateStep(s: State, e: Event)
    requires Inv(s) && AllAskedSpent(s) && FreshClaim(s, e) && TrueAnswer(s, e) && LateAsk(s, e)
    ensures SafeClaim(s, e) && SafeAnswer(s, e) && AllAskedSpent(Step(s, e))
  {
    match e
    case Ask(attempt, answer) => AskKeepsSpent(s, attempt, answer);
    case Send(attempt, reaches) => SendKeepsSpent(s, attempt, reaches);
    case Append(_) => OtherKeepsSpent(s, e);
    case Begin(_) => OtherKeepsSpent(s, e);
    case NextRound => OtherKeepsSpent(s, e);
    case Prepare(_, _) => OtherKeepsSpent(s, e);
    case Confirm(_) => OtherKeepsSpent(s, e);
    case _ =>
      if Step(s, e) != s {
        assert AttemptOk(s, s.attempts[e.attempt]) && AskedSpent(s, s.attempts[e.attempt]);
        MoveKeepsSpent(s, Step(s, e), e.attempt);
      }
  }

  /** If the status is asked for only then, the chain need not keep quiet: the order of the two questions decides. */
  lemma {:induction false} LateAsksAreSafe(s: State, es: seq<Event>)
    requires Inv(s) && AllAskedSpent(s) && FreshClaims(s, es) && TrueAnswers(s, es) && LateAsks(s, es)
    ensures SafeRun(s, es) && Inv(Run(s, es)) && AllAskedSpent(Run(s, es))
  {
    if es == [] {
    } else {
      LateAsksAreSafe(s, es[..|es| - 1]);
      LateStep(Run(s, es[..|es| - 1]), es[|es| - 1]);
      StepKeepsInv(Run(s, es[..|es| - 1]), es[|es| - 1]);
    }
  }

  // ---------- one worker ----------

  /** The worker starts on a row only when no attempt on it is still under way. */
  predicate Solo(s: State, e: Event)
  {
    e.Begin? ==> forall a <- s.attempts :: a.entry == e.entry ==> a.stage == Done
  }

  ghost predicate SoloRun(s: State, es: seq<Event>)
  {
    es == [] || (SoloRun(s, es[..|es| - 1]) && Solo(Run(s, es[..|es| - 1]), es[|es| - 1]))
  }

  ghost predicate SoloInv(s: State)
  {
    && (forall a :: 0 <= a < |s.attempts| ==> s.attempts[a].entry < |s.entries|)
    && (forall a :: 0 <= a < |s.attempts| && s.attempts[a].stage == Read
          ==> s.attempts[a].txId == s.entries[s.attempts[a].entry].txId)
    && (forall a, b :: 0 <= a < b < |s.attempts| && s.attempts[a].stage != Done && s.attempts[b].stage != Done
          ==> s.attempts[a].entry != s.attempts[b].entry)
  }

  /** No new attempt, no attempt revived, and no row changed under an attempt that has only read it. */
  ghost predicate SoloFrame(s: State, r: State)
  {
    && |r.attempts| == |s.attempts| && |r.entries| >= |s.entries|
    && forall a :: 0 <= a < |s.attempts| && s.attempts[a].entry < |s.entries| ==>
         var old', new' := s.attempts[a], r.attempts[a];
         && new'.entry == old'.entry && new'.txId == old'.txId
         && (old'.stage == Done ==> new'.stage == Done)
         && (new'.stage == Read ==> old'.stage == Read && r.entries[old'.entry].txId == s.entries[old'.entry].txId)
  }

  lemma SoloFrameKeeps(s: State, r: State)
    requires SoloInv(s) && SoloFrame(s, r)
    ensures SoloInv(r)
  {
  }

  lemma StoreIsSolo(s: State, attempt: nat)
    requires SoloInv(s)
    ensures SoloFrame(s, DoStore(s, attempt))
  {
  }

  lemma ChainIsSolo(s: State, e: Event)
    requires SoloInv(s) && (e.Append? || e.Send? || e.Confirm? || e.NextRound? || e.Prepare? || e.Crash?)
    ensures SoloFrame(s, Step(s, e))
  {
  }

  lemma MovesAreSolo(s: State, e: Event)
    requires SoloInv(s) && (e.Claim? || e.Ask? || e.SeeRound? || e.Refuse? || e.Acknowledge? || e.MarkSent?)
    ensures SoloFrame(s, Step(s, e))
  {
  }

  lemma SoloStep(s: State, e: Event)
    requires SoloInv(s) && Solo(s, e)
    ensures SoloInv(Step(s, e)) && FreshClaim(s, e)
  {
    if e.Begin? {
      assert forall a :: 0 <= a < |s.attempts| ==> s.attempts[a] in s.attempts;
    } else {
      match e {
        case Store(attempt) => StoreIsSolo(s, attempt);
        case Claim(_) => MovesAreSolo(s, e);
        case Ask(_, _) => MovesAreSolo(s, e);
        case SeeRound(_, _) => MovesAreSolo(s, e);
        case Refuse(_, _) => MovesAreSolo(s, e);
        case Acknowledge(_, _) => MovesAreSolo(s, e);
        case MarkSent(_) => MovesAreSolo(s, e);
        case _ => ChainIsSolo(s, e);
      }
      SoloFrameKeeps(s, Step(s, e));
    }
  }

  /** With one worker at a time, every claim is fresh. */
  lemma {:induction false} SoloRunsAreFresh(s: State, es: seq<Event>)
    requires SoloInv(s) && SoloRun(s, es)
    ensures SoloInv(Run(s, es)) && FreshClaims(s, es)
  {
    if es == [] {
    } else {
      SoloRunsAreFresh(s, es[..|es| - 1]);
      SoloStep(Run(s, es[..|es| - 1]), es[|es| - 1]);
    }
  }

  // ---------- effects ----------

  /** What the confirmed transfers of the log have moved, weighing each row by f. */
  function OnChain(f: Row -> int, entries: seq<Entry>): Signed -> int
  {
    (x: Signed) => if x.fate == Confirmed && x.entry < |entries| then f(entries[x.entry].row) else 0
  }

  /** The rows whose stored transfer is among the first n of the log and confirmed. */
  function DeliveredWithin(f: Row -> int, log: seq<Signed>, n: nat): Entry -> int
  {
    (e: Entry) =>
      if e.txId.Some? && e.txId.value < n && e.txId.value < |log| && log[e.txId.value].fate == Confirmed then f(e.row) else 0
  }

  function Undelivered(f: Row -> int, log: seq<Signed>): Entry -> int
  {
    (e: Entry) =>
      if e.txId.Some? && e.txId.value < |log| && log[e.txId.value].fate == Confirmed then 0 else f(e.row)
  }

  function RowWeight(f: Row -> int): Entry -> int { (e: Entry) => f(e.row) }

  lemma {:induction false} OnChainIsDelivered(s: State, f: Row -> int, n: nat)
    requires Inv(s) && n <= |s.log|
    ensures Total(OnChain(f, s.entries), s.log[..n]) == Total(DeliveredWithin(f, s.log, n), s.entries)
  {
    if n == 0 {
      forall j | 0 <= j < |s.entries|
        ensures DeliveredWithin(f, s.log, 0)(s.entries[j]) == 0
      {
        if s.entries[j].txId.Some? {
          var tx: nat := s.entries[j].txId.value;
          assert tx >= 0;
        }
      }
      TotalZero(DeliveredWithin(f, s.log, 0), s.entries);
    } else {
      var tx := n - 1;
      OnChainIsDelivered(s, f, tx);
      assert s.log[..n] == s.log[..tx] + [s.log[tx]];
      TotalAppend(OnChain(f, s.entries), s.log[..tx], s.log[tx]);
      assert SignedOk(s, tx);
      forall j | 0 <= j < |s.entries| && j != s.log[tx].entry
        ensures DeliveredWithin(f, s.log, n)(s.entries[j]) == DeliveredWithin(f, s.log, tx)(s.entries[j])
      {
        assert EntryOk(s, j);
      }
      TotalDiffersAt(DeliveredWithin(f, s.log, tx), DeliveredWithin(f, s.log, n), s.entries, s.log[tx].entry);
    }
  }

  /** Whatever is weighed, the rows are what the chain has confirmed plus what is still to be delivered: nothing twice, nothing lost. */
  lemma ChainPlusUndelivered(s: State, f: Row -> int)
    requires Inv(s)
    ensures Total(OnChain(f, s.entries), s.log) + Total(Undelivered(f, s.log), s.entries) == Total(RowWeight(f), s.entries)
  {
    OnChainIsDelivered(s, f, |s.log|);
    assert s.log[..|s.log|] == s.log;
    TotalPlus(DeliveredWithin(f, s.log, |s.log|), Undelivered(f, s.log), RowWeight(f), s.entries);
  }

  // ---------- rows that are never sent ----------

  /** A row that reads as being sent while no attempt on it is past reading. */
  predicate Stranded(s: State, i: nat)
  {
    && i < |s.entries| && s.entries[i].status == Sending
    && forall a :: 0 <= a < |s.attempts| && s.attempts[a].entry == i
         ==> s.attempts[a].stage == Done || (s.attempts[a].stage == Read && Retryable(s.attempts[a].status))
  }

  lemma StrandedStep(s: State, e: Event, i: nat)
    requires Stranded(s, i)
    ensures Stranded(Step(s, e), i) && Step(s, e).entries[i] == s.entries[i]
  {
  }

  /** A crash after the claim strands its row: in every run it keeps that status, and no attempt ever takes it up again. */
  lemma {:induction false} StrandedForEver(s: State, es: seq<Event>, i: nat)
    requires Stranded(s, i)
    ensures Stranded(Run(s, es), i) && Run(s, es).entries[i] == s.entries[i]
  {
    if es == [] {
    } else {
      StrandedForEver(s, es[..|es| - 1], i);
      StrandedStep(Run(s, es[..|es| - 1]), es[|es| - 1], i);
    }
  }

  lemma CrashStrands(s: State, attempt: nat)
    requires Inv(s) && attempt < |s.attempts| && Owns(s.attempts[attempt])
    ensures Stranded(Step(s, Crash(attempt)), s.attempts[attempt].entry)
  {
    assert AttemptOk(s, s.attempts[attempt]);
    forall b | 0 <= b < |s.attempts| && b != attempt && s.attempts[b].entry == s.attempts[attempt].entry
      ensures s.attempts[b].stage == Done || (s.attempts[b].stage == Read && Retryable(s.attempts[b].status))
    {
      OthersNotOwners(s, attempt, b);
      assert AttemptOk(s, s.attempts[b]);
    }
  }
}
