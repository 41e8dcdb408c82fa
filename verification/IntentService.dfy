/** Payment intents in the service's own form. Every method is a run of the protocol in Intents, recorded in `trace`. */
module IntentService {
  import opened Wrappers
  import opened Intents

  /** A refund row written now, the row an earlier request wrote under the same key, or a refusal. */
  datatype RefundAnswer = Made(refund: nat) | Earlier(refund: nat) | Refused

  predicate Overdue(intent: Intent, now: nat) { intent.status == RequiresPayment && intent.expiresAt <= now }

  function Wanted(intent: Intent, asked: Option<int>): int
  {
    match asked
    case Some(part) => part
    case None => intent.amount - intent.refunded
  }

  /** It has been paid, and so much of it has not been refunded yet. */
  predicate Open(intent: Intent, part: int)
  {
    intent.status in {Succeeded, PartiallyRefunded} && 0 < part <= intent.amount - intent.refunded
  }

  predicate Known(refunds: seq<Refund>, key: Option<nat>) { key.Some? && exists r <- refunds :: r.key == key }

  function RefundedBy(intent: Intent, before: int, part: int): Intent
  {
    intent.(refunded := before + part, status := if before + part < intent.amount then PartiallyRefunded else Refunded)
  }

  class IntentRecord {
    var intent: Intent
    var transfers: seq<nat>
    var refunds: seq<Refund>
    var business: int
    var payers: seq<int>
    var now: nat
    ghost var calls: seq<Call>
    ghost var start: State
    ghost var trace: seq<Event>

    ghost function Now(): State
      reads this
    {
      State(intent, transfers, refunds, business, payers, calls, now)
    }

    ghost predicate Valid()
      reads this
    {
      Created(start) && Run(start, trace) == Now()
    }

    constructor (amount: int, live: bool, expiresAt: nat, business: int, payers: seq<int>, now: nat)
      requires amount > 0
      ensures Valid() && start == Now() && Created(start) && intent == Intent(RequiresPayment, live, amount, 0, None, expiresAt)
    {
      intent := Intent(RequiresPayment, live, amount, 0, None, expiresAt);
      transfers, refunds, calls, trace := [], [], [], [];
      this.business, this.payers, this.now := business, payers, now;
      start := State(Intent(RequiresPayment, live, amount, 0, None, expiresAt), [], [], business, payers, [], now);
    }

    ghost method Note(before: State, e: Event)
      requires Created(start) && Run(start, trace) == before
      requires Step(before, e) == Now().(calls := Step(before, e).calls)
      modifies this`calls, this`trace
      ensures Valid() && Now() == Step(before, e) && trace == old(trace) + [e]
    {
      calls, trace := Step(before, e).calls, trace + [e];
      assert trace[..|trace| - 1] == old(trace);
    }

    ghost predicate Grew(was: State, past: seq<Event>)
      reads this
    {
      Valid() && start == was && past <= trace
    }

    /** An unpaid intent past its time expires on the next look. */
    method ExpireIntents()
      requires Valid()
      modifies this`intent, this`calls, this`trace
      ensures Grew(old(start), old(trace)) && calls == old(calls)
      ensures intent == if Overdue(old(intent), now) then old(intent).(status := Expired) else old(intent)
    {
      ghost var before := Now();
      if Overdue(intent, now) {
        intent := intent.(status := Expired);
      }
      Note(before, Expire(now));
    }

    method CancelIntent() returns (ok: bool)
      requires Valid()
      modifies this`intent, this`calls, this`trace
      ensures Grew(old(start), old(trace))
      ensures ok == (old(intent).status == RequiresPayment && old(intent).expiresAt > now)
      ensures intent == old(intent).(status := if ok then Canceled
                                               else if Overdue(old(intent), now) then Expired else old(intent).status)
    {
      ExpireIntents();
      ghost var before := Now();
      ok := intent.status == RequiresPayment;
      if ok {
        intent := intent.(status := Canceled);
      }
      Note(before, Cancel);
    }

    /** The claim keeps every other payer away while the money moves. */
    method ClaimPayment(payer: nat, ghost call: nat) returns (claimed: bool)
      requires Valid() && call == |calls| && payer < |payers| && intent.live && intent.status == RequiresPayment
      modifies this`intent, this`calls, this`trace
      ensures Grew(old(start), old(trace)) && At(Now(), call)
      ensures claimed == (old(intent).expiresAt > now)
      ensures claimed ==> calls[call] == Claimed(payer) && intent == old(intent).(status := Processing, payer := Some(payer))
      ensures !claimed ==> intent == old(intent)
    {
      Note(Now(), BeginPay(payer));
      ghost var before := Now();
      claimed := intent.status == RequiresPayment && intent.expiresAt > now;
      if claimed {
        intent := intent.(status := Processing, payer := Some(payer));
      }
      Note(before, Claim(call, now));
    }

    /**
     * An uninterrupted payment leaves one more transfer exactly when it succeeds, and otherwise the intent as it was. The
     * payer of an intent that is paid already is answered as if this call had paid it.
     */
    method PayIntent(payer: nat, sendSucceeds: bool) returns (ok: bool)
      requires Valid() && payer < |payers|
      modifies this`intent, this`transfers, this`calls, this`trace
      ensures Grew(old(start), old(trace))
      ensures var payable := old(intent).live && old(intent).status == RequiresPayment && old(intent).expiresAt > now;
              && (transfers == old(transfers) + if payable && sendSucceeds then [payer] else [])
              && (payable ==> ok == sendSucceeds)
              && (payable && ok ==> intent == old(intent).(status := Succeeded, payer := Some(payer)))
              && (payable && !ok ==> intent == old(intent).(payer := None))
              && (!payable ==> ok == (old(intent).live && old(intent).status == Succeeded && old(intent).payer == Some(payer)))
              && (!payable ==> intent == if Overdue(old(intent), now) then old(intent).(status := Expired) else old(intent))
    {
      ExpireIntents();
      if !intent.live {
        return false;
      }
      if intent.status == Succeeded && intent.payer == Some(payer) {
        return true;
      }
      if intent.status != RequiresPayment {
        return false;
      }
      ghost var call := |calls|;
      var claimed := ClaimPayment(payer, call);
      if !claimed {
        return false;
      }
      ok := SendAndSettle(payer, sendSucceeds, call);
    }

    method SendAndSettle(payer: nat, sendSucceeds: bool, ghost call: nat) returns (ok: bool)
      requires Valid() && At(Now(), call) && calls[call] == Claimed(payer) && intent.status == Processing
      modifies this`intent, this`transfers, this`calls, this`trace
      ensures Grew(old(start), old(trace)) && ok == sendSucceeds
      ensures transfers == old(transfers) + if sendSucceeds then [payer] else []
      ensures intent == if sendSucceeds then old(intent).(status := Succeeded)
                        else old(intent).(status := RequiresPayment, payer := None)
    {
      ghost var before := Now();
      if !sendSucceeds {
        intent := intent.(status := RequiresPayment, payer := None);
        Note(before, TransferFailed(call));
        return false;
      }
      transfers := transfers + [payer];
      Note(before, Transfer(call));
      before := Now();
      intent := intent.(status := Succeeded);
      Note(before, Succeed(call));
      return true;
    }

    method FindKey(key: Option<nat>) returns (found: Option<nat>)
      ensures found.Some? == Known(refunds, key)
      ensures found.Some? ==> found.value < |refunds| && refunds[found.value].key == key
    {
      if key.None? {
        return None;
      }
      for i := 0 to |refunds|
        invariant forall j :: 0 <= j < i ==> refunds[j].key != key
      {
        if refunds[i].key == key {
          return Some(i);
        }
      }
      return None;
    }

    /** The writes of a refund transaction that goes through. */
    method WriteRefund(seen: Intent, part: int, key: Option<nat>)
      requires intent.live ==> PayerKnown(Now(), seen.payer)
      modifies this`intent, this`refunds, this`business, this`payers
      ensures intent == RefundedBy(old(intent), seen.refunded, part) && refunds == old(refunds) + [Refund(part, key)]
      ensures business == old(business) - if old(intent).live then part else 0
      ensures old(intent).live ==> payers == old(payers)[seen.payer.value := old(payers)[seen.payer.value] + part]
      ensures !old(intent).live ==> payers == old(payers)
    {
      var total := seen.refunded + part;
      intent := intent.(refunded := total, status := if total >= intent.amount then Refunded else PartiallyRefunded);
      if intent.live {
        business := business - part;
        payers := payers[seen.payer.value := payers[seen.payer.value] + part];
      }
      refunds := refunds + [Refund(part, key)];
    }

    /** Nothing was refunded since the intent was read, the key is unused, and for real money the wallets allow it. */
    method MayCommit(seen: Intent, part: int, key: Option<nat>, walletsUsable: bool) returns (ok: bool)
      ensures ok == (intent.refunded == seen.refunded && intent.status == seen.status && !Known(refunds, key)
                     && (intent.live ==> walletsUsable && seen.payer.Some? && seen.payer.value < |payers| && business >= part))
      ensures ok == RefundCommits(Now(), RefundRead(seen.status, seen.refunded, seen.payer, part, key), walletsUsable)
    {
      var duplicate := FindKey(key);
      var funded := !intent.live || (walletsUsable && seen.payer.Some? && seen.payer.value < |payers| && business >= part);
      ok := intent.refunded == seen.refunded && intent.status == seen.status && funded && duplicate.None?;
    }

    /** The refund transaction: all of its writes, or none. */
    method RefundTx(seen: Intent, part: int, key: Option<nat>, walletsUsable: bool, ghost call: nat) returns (ok: bool)
      requires Valid() && At(Now(), call) && calls[call] == RefundRead(seen.status, seen.refunded, seen.payer, part, key)
      modifies this`intent, this`refunds, this`business, this`payers, this`calls, this`trace
      ensures Grew(old(start), old(trace))
      ensures ok == (old(intent).refunded == seen.refunded && old(intent).status == seen.status && !Known(old(refunds), key)
                     && (old(intent).live ==> walletsUsable && seen.payer.Some? && seen.payer.value < |old(payers)| && old(business) >= part))
      ensures refunds == old(refunds) + if ok then [Refund(part, key)] else []
      ensures intent == if ok then RefundedBy(old(intent), seen.refunded, part) else old(intent)
      ensures business == old(business) - if ok && intent.live then part else 0
      ensures ok && intent.live ==>
                && PayerKnown(old(Now()), seen.payer)
                && payers == old(payers)[seen.payer.value := old(payers)[seen.payer.value] + part]
      ensures !(ok && intent.live) ==> payers == old(payers)
    {
      ok := MayCommit(seen, part, key, walletsUsable);
      ghost var before := Now();
      if !ok {
        Note(before, CommitRefund(call, walletsUsable));
        return;
      }
      WriteRefund(seen, part, key);
      Note(before, CommitRefund(call, walletsUsable));
    }

    predicate CanRefund(part: int, key: Option<nat>, walletsUsable: bool)
      reads this
    {
      && !Known(refunds, key) && Open(intent, part)
      && (intent.live ==> walletsUsable && intent.payer.Some? && intent.payer.value < |payers| && business >= part)
    }

    /** The part to refund, if the intent as it reads now allows it. */
    method ReadForRefund(asked: Option<int>) returns (part: Option<int>)
      requires Valid()
      modifies this`intent, this`calls, this`trace
      ensures Grew(old(start), old(trace)) && calls == old(calls)
      ensures part == if Open(old(intent), Wanted(old(intent), asked)) then Some(Wanted(old(intent), asked)) else None
      ensures part.Some? ==> intent == old(intent)
    {
      ExpireIntents();
      if intent.status != Succeeded && intent.status != PartiallyRefunded {
        return None;
      }
      var wanted := if asked.Some? then asked.value else intent.amount - intent.refunded;
      return if wanted <= 0 || wanted > intent.amount - intent.refunded then None else Some(wanted);
    }

    /**
     * One uninterrupted request refunds what is asked for, or all that is left. A used key gets the refund it made, and
     * nothing moves; nor does anything move for more than is left or more than the business has.
     */
    method RefundIntent(asked: Option<int>, key: Option<nat>, walletsUsable: bool) returns (answer: RefundAnswer)
      requires Valid()
      modifies this`intent, this`refunds, this`business, this`payers, this`calls, this`trace
      ensures Grew(old(start), old(trace))
      ensures answer.Made? == old(CanRefund(Wanted(intent, asked), key, walletsUsable)) && answer.Earlier? == Known(old(refunds), key)
      ensures !answer.Refused? ==> answer.refund < |refunds| && refunds[answer.refund].key == key
      ensures refunds == old(refunds) + if answer.Made? then [Refund(Wanted(old(intent), asked), key)] else []
      ensures answer.Made? ==> intent == RefundedBy(old(intent), old(intent).refunded, Wanted(old(intent), asked))
      ensures answer.Earlier? ==> intent == old(intent)
      ensures business == old(business) - if answer.Made? && intent.live then Wanted(old(intent), asked) else 0
    {
      var earlier := FindKey(key);
      if earlier.Some? {
        return Earlier(earlier.value);
      }
      var part := ReadForRefund(asked);
      if part.None? {
        return Refused;
      }
      ghost var call := |calls|;
      Note(Now(), BeginRefund(asked, key));
      var ok := RefundTx(intent, part.value, key, walletsUsable, call);
      return if ok then Made(|refunds| - 1) else Refused;
    }
  }
}
