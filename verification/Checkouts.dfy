/** Hosted web checkouts: the row, and what a provider answer makes of it. */
module Checkouts {
  import opened Wrappers

  datatype CheckoutStatus = Pending | Completed | Failed | Expired

  /**
   * What became of a completed payment: applied to its link or invoice, recorded for refund and review, or neither, when
   * that record could not be written. It is the sum of several tables, not a column.
   */
  datatype Outcome = Unsettled | Applied | Exception | Unrecorded

  function Refused(recorded: bool): Outcome { if recorded then Exception else Unrecorded }

  datatype Checkout = Checkout(status: CheckoutStatus, outcome: Outcome, expiresAt: nat)

  /** The provider's answer; `NoAnswer` when asking failed. */
  datatype Verdict = Paid | Declined | Undecided | NoAnswer

  predicate Reconcilable(status: CheckoutStatus) { status == Pending || status == Expired }

  /** The status a reconciliation claims, by compare-and-set from the status it read. */
  function ClaimFor(seen: CheckoutStatus, verdict: Verdict, pastHold: bool): Option<CheckoutStatus>
  {
    match verdict
    case Paid => Some(Completed)
    case Declined => Some(Failed)
    case Undecided => if seen == Pending && pastHold then Some(Expired) else None
    case NoAnswer => None
  }
}
